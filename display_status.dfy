/**
 * The display statuses of a report: a constant table of five entries, folded
 * into an object keyed by each entry's `type`, and the two lookups on it.
 */
module DisplayStatus {
  import opened JsArrays

  /** The closed union `'default' | 0 | 1 | 2 | 3`. */
  datatype FactoryDisplayStatusType = StatusDefault | Status0 | Status1 | Status2 | Status3

  /** The number a numeric status type stands for. */
  function NumericValue(t: FactoryDisplayStatusType): nat
    requires t != StatusDefault
  {
    match t
    case Status0 => 0
    case Status1 => 1
    case Status2 => 2
    case Status3 => 3
  }

  /** The property key a computed key `[c.type]` becomes: the string itself, or the number's decimal string. */
  function Key(t: FactoryDisplayStatusType): string
  {
    match t
    case StatusDefault => "default"
    case Status0 => "0"
    case Status1 => "1"
    case Status2 => "2"
    case Status3 => "3"
  }

  /**
   * A number used as a property key becomes its decimal string, so the
   * numeric types are stored under "0" .. "3" and the string type under itself.
   */
  lemma KeyIsPropertyKey(t: FactoryDisplayStatusType)
    ensures t == StatusDefault ==> Key(t) == "default"
    ensures t != StatusDefault ==> Key(t) == DecimalString(NumericValue(t))
  {
  }

  /** Distinct types give distinct keys, so folding the table cannot merge two entries. */
  lemma KeyInjective(s: FactoryDisplayStatusType, t: FactoryDisplayStatusType)
    ensures Key(s) == Key(t) <==> s == t
  {
  }

  datatype FactoryDisplayStatus = FactoryDisplayStatus(
    statusType: FactoryDisplayStatusType,
    name: string,
    documentDisplayStatuses: seq<string>,
    color: string)

  const DefaultFactoryDisplayStatuses: seq<FactoryDisplayStatusType> :=
    [StatusDefault, Status0, Status1, Status2, Status3]

  const FactoryDisplayStatuses: seq<FactoryDisplayStatus> := [
    FactoryDisplayStatus(StatusDefault, "未處理", ["疑似黑熊出沒痕跡"], "#A22A29"),
    FactoryDisplayStatus(Status0, "處理中", ["已通報", "已排程調查", "與通報者溝通期", "已開始進行鑑定"], "#457287"),
    FactoryDisplayStatus(Status1, "已鑑定", ["鑑定完畢已開始進行調查", "已至現場調查"], "#364516"),
    FactoryDisplayStatus(Status2, "已調查", ["已調查完畢"], "#A1A1A1"),
    FactoryDisplayStatus(Status3, "無法處理", ["不再追蹤"], "#E0E0E0")
  ]

  /** The keys the entries of `entries` are stored under. */
  function KeysOf(entries: seq<FactoryDisplayStatus>): set<string>
  {
    set e | e in entries :: Key(e.statusType)
  }

  /** No later entry of `entries` has the same key as entry `i`. */
  predicate LastWithKey(entries: seq<FactoryDisplayStatus>, i: nat)
    requires i < |entries|
  {
    forall j | i < j < |entries| :: Key(entries[j].statusType) != Key(entries[i].statusType)
  }

  lemma KeysOfCons(entries: seq<FactoryDisplayStatus>)
    requires entries != []
    ensures KeysOf(entries) == {Key(entries[0].statusType)} + KeysOf(entries[1..])
  {
    assert forall e | e in entries :: e == entries[0] || e in entries[1..];
  }

  lemma LastWithKeyTail(entries: seq<FactoryDisplayStatus>, i: nat)
    requires 1 <= i < |entries| && LastWithKey(entries, i)
    ensures LastWithKey(entries[1..], i - 1)
  {
    assert forall j | i - 1 < j < |entries| - 1 :: entries[1..][j] == entries[j + 1];
  }

  /** When the first entry is the last with its key, no later entry uses that key. */
  lemma HeadKeyNotInTail(entries: seq<FactoryDisplayStatus>)
    requires entries != [] && LastWithKey(entries, 0)
    ensures Key(entries[0].statusType) !in KeysOf(entries[1..])
  {
    var rest := entries[1..];
    forall j | 0 <= j < |rest| ensures Key(rest[j].statusType) != Key(entries[0].statusType) {
      assert rest[j] == entries[j + 1];
    }
  }

  /**
   * `entries.reduce((acc, c) => ({ ...acc, [c.type]: c }), acc)`: every entry
   * is stored under its key, a later entry overwrites an earlier one with the
   * same key, and keys that no entry uses keep their value from `acc`.
   */
  function Fold(entries: seq<FactoryDisplayStatus>, acc: map<string, FactoryDisplayStatus>): (m: map<string, FactoryDisplayStatus>)
    ensures m.Keys == acc.Keys + KeysOf(entries)
    ensures forall i | 0 <= i < |entries| && LastWithKey(entries, i) :: m[Key(entries[i].statusType)] == entries[i]
    ensures forall k | k in acc && k !in KeysOf(entries) :: m[k] == acc[k]
  {
    if entries == [] then acc
    else
      var rest := entries[1..];
      var k0 := Key(entries[0].statusType);
      var acc' := acc[k0 := entries[0]];
      var m := Fold(rest, acc');
      KeysOfCons(entries);
      assert forall i | 0 <= i < |entries| && LastWithKey(entries, i) :: m[Key(entries[i].statusType)] == entries[i] by {
        forall i | 0 <= i < |entries| && LastWithKey(entries, i) ensures m[Key(entries[i].statusType)] == entries[i] {
          if i == 0 {
            HeadKeyNotInTail(entries);
          } else {
            LastWithKeyTail(entries, i);
            assert rest[i - 1] == entries[i];
          }
        }
      }
      assert forall k | k in acc && k !in KeysOf(entries) :: m[k] == acc[k] by {
        forall k | k in acc && k !in KeysOf(entries) ensures m[k] == acc[k] {
          assert k != k0 && k in acc' && k !in KeysOf(rest);
        }
      }
      m
  }

  /** Where each type sits in the table (a proof witness). */
  function TablePosition(t: FactoryDisplayStatusType): nat
  {
    match t
    case StatusDefault => 0
    case Status0 => 1
    case Status1 => 2
    case Status2 => 3
    case Status3 => 4
  }

  /** `FactoryDisplayStatusMap`: the table folded from an empty object. */
  const FactoryDisplayStatusMap: map<string, FactoryDisplayStatus> := Fold(FactoryDisplayStatuses, map[])

  /** The map holds every table entry under its own type's key; none is lost to a collision. */
  lemma DisplayStatusMapAgrees()
    ensures FactoryDisplayStatusMap.Keys == KeysOf(FactoryDisplayStatuses)
    ensures forall i | 0 <= i < |FactoryDisplayStatuses| ::
              FactoryDisplayStatusMap[Key(FactoryDisplayStatuses[i].statusType)] == FactoryDisplayStatuses[i]
  {
    var table := FactoryDisplayStatuses;
    forall i | 0 <= i < |table| ensures LastWithKey(table, i) {
      forall j | i < j < |table| ensures Key(table[j].statusType) != Key(table[i].statusType) {
        OnlyEntryOfType(table[i].statusType);
        KeyInjective(table[j].statusType, table[i].statusType);
      }
    }
  }

  /** The map is total over the status types, and each type finds the entry of that type. */
  lemma DisplayStatusMapTotal(t: FactoryDisplayStatusType)
    ensures Key(t) in FactoryDisplayStatusMap
    ensures FactoryDisplayStatusMap[Key(t)] == FactoryDisplayStatuses[TablePosition(t)]
    ensures FactoryDisplayStatusMap[Key(t)].statusType == t
  {
    DisplayStatusMapAgrees();
    var e := FactoryDisplayStatuses[TablePosition(t)];
    assert e.statusType == t && e in FactoryDisplayStatuses;
  }

  /** Each status type has exactly one entry in the table: the one at `TablePosition(t)`. */
  lemma OnlyEntryOfType(t: FactoryDisplayStatusType)
    ensures FactoryDisplayStatuses[TablePosition(t)].statusType == t
    ensures forall i | 0 <= i < |FactoryDisplayStatuses| && FactoryDisplayStatuses[i].statusType == t ::
              i == TablePosition(t)
  {
  }

  /** The display name of a status. */
  function GetDisplayStatusText(status: FactoryDisplayStatusType): (r: string)
    ensures r == FactoryDisplayStatuses[TablePosition(status)].name
    ensures forall i | 0 <= i < |FactoryDisplayStatuses| && FactoryDisplayStatuses[i].statusType == status ::
              r == FactoryDisplayStatuses[i].name
  {
    DisplayStatusMapTotal(status);
    OnlyEntryOfType(status);
    FactoryDisplayStatusMap[Key(status)].name
  }

  /** The display colour of a status. */
  function GetDisplayStatusColor(status: FactoryDisplayStatusType): (r: string)
    ensures r == FactoryDisplayStatuses[TablePosition(status)].color
    ensures forall i | 0 <= i < |FactoryDisplayStatuses| && FactoryDisplayStatuses[i].statusType == status ::
              r == FactoryDisplayStatuses[i].color
  {
    DisplayStatusMapTotal(status);
    OnlyEntryOfType(status);
    FactoryDisplayStatusMap[Key(status)].color
  }

  /** `defaultFactoryDisplayStatuses` lists the table's types, in table order, and so every type. */
  lemma DefaultStatusesAreTableTypes()
    ensures |DefaultFactoryDisplayStatuses| == |FactoryDisplayStatuses|
    ensures forall i | 0 <= i < |FactoryDisplayStatuses| ::
              DefaultFactoryDisplayStatuses[i] == FactoryDisplayStatuses[i].statusType
    ensures forall t: FactoryDisplayStatusType :: t in DefaultFactoryDisplayStatuses
  {
    forall t: FactoryDisplayStatusType ensures t in DefaultFactoryDisplayStatuses {
      var i := TablePosition(t);
      assert DefaultFactoryDisplayStatuses[i] == t;
    }
  }
}
