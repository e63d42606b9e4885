/**
 * The few JavaScript array operations that the page-state code relies on,
 * stated over Dafny sequences: `indexOf`, reading an element (which yields
 * `undefined` outside the array), and the `in` operator on an array, which
 * asks for a property KEY of the array object, not for an element.
 */
module JsArrays {
  import opened Options

  /** `list.indexOf(x)`: the first position holding `x` (strict equality), or -1. */
  function IndexOf<T(==)>(list: seq<T>, x: T): (r: int)
    ensures -1 <= r < |list|
    ensures r == -1 <==> x !in list
    ensures 0 <= r ==> list[r] == x && x !in list[..r]
  {
    if list == [] then -1
    else if list[0] == x then 0
    else
      var i := IndexOf(list[1..], x);
      if i == -1 then -1
      else
        assert list[..i + 1] == [list[0]] + list[1..][..i];
        i + 1
  }

  /** `list[i]`: the element at `i`, or `undefined` (None) when `i` is not a position of the array. */
  function ElementAt<T>(list: seq<T>, i: int): (r: Option<T>)
    ensures r.None? <==> i < 0 || |list| <= i
    ensures r.Some? ==> r.value == list[i] && r.value in list
  {
    if 0 <= i < |list| then Some(list[i]) else None
  }

  /** Truthiness of a string read from an array: `undefined` and "" are falsy, every other string is truthy. */
  predicate TruthyString(v: Option<string>)
  {
    v.Some? && v.value != ""
  }

  /** The decimal digit character for `d`. */
  function Digit(d: nat): (c: char)
    requires d < 10
    ensures '0' <= c <= '9'
  {
    ('0' as int + d) as char
  }

  /** The canonical decimal string of `n`, which is how an array index is spelled as a property key. */
  function DecimalString(n: nat): (r: string)
    ensures r != []
    ensures forall k | 0 <= k < |r| :: '0' <= r[k] <= '9'
  {
    if n < 10 then [Digit(n)] else DecimalString(n / 10) + [Digit(n % 10)]
  }

  /** The string keys an array inherits from `Array.prototype`. */
  const ArrayPrototypeKeys: set<string> := {
    "at", "concat", "constructor", "copyWithin", "entries", "every", "fill", "filter",
    "find", "findIndex", "findLast", "findLastIndex", "flat", "flatMap", "forEach",
    "includes", "indexOf", "join", "keys", "lastIndexOf", "length", "map", "pop", "push",
    "reduce", "reduceRight", "reverse", "shift", "slice", "some", "sort", "splice",
    "toLocaleString", "toReversed", "toSorted", "toSpliced", "toString", "unshift",
    "values", "with"
  }

  /** The string keys every object inherits from `Object.prototype`. */
  const ObjectPrototypeKeys: set<string> := {
    "constructor", "hasOwnProperty", "isPrototypeOf", "propertyIsEnumerable",
    "toLocaleString", "toString", "valueOf", "__proto__", "__defineGetter__",
    "__defineSetter__", "__lookupGetter__", "__lookupSetter__"
  }

  /**
   * `key in arr` for an array of `length` elements: true for an own index key
   * ("0" .. length-1), for its own "length", and for any key it inherits.
   */
  predicate ArrayHasProperty(key: string, length: nat)
    ensures ArrayHasProperty(key, length) ==>
              key != [] && ('0' <= key[0] <= '9' || 'a' <= key[0] <= 'z' || key[0] == '_')
  {
    || (exists i | 0 <= i < length :: key == DecimalString(i))
    || key == "length"
    || key in ArrayPrototypeKeys
    || key in ObjectPrototypeKeys
  }

  /**
   * A key that starts with a capital letter is never a property of an array:
   * index keys start with a digit, and "length" and every inherited key start
   * with a lower-case letter or an underscore.
   */
  lemma CapitalisedKeyIsNoArrayProperty(key: string, length: nat)
    requires key != [] && 'A' <= key[0] <= 'Z'
    ensures !ArrayHasProperty(key, length)
  {
  }
}
