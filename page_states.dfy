/**
 * The page states of the reporting UI, the two fixed state lists, and the
 * seven flags that are derived from the current state and never stored on
 * their own.
 */
module PageStates {
  import opened Options
  import opened JsArrays

  /** The closed set of page states; `Name` gives the string each one stands for. */
  datatype PageState =
    | Initial
    | CreateFactory1
    | CreateFactory2
    | CreateFactory3
    | UpdateFactoryImages
    | UpdateFactoryComment

  /** The string value of each state of the enum. */
  function Name(s: PageState): (r: string)
    ensures r != [] && 'A' <= r[0] <= 'Z'
  {
    match s
    case Initial => "INITIAL"
    case CreateFactory1 => "CREATE_FACTORY_1"
    case CreateFactory2 => "CREATE_FACTORY_2"
    case CreateFactory3 => "CREATE_FACTORY_3"
    case UpdateFactoryImages => "UPDATE_FACTORY_IMAGES"
    case UpdateFactoryComment => "UPDATE_FACTORY_COMMENT"
  }

  /** The three steps of the create wizard, in order. */
  const CreateFactoryPageState: seq<PageState> := [CreateFactory1, CreateFactory2, CreateFactory3]

  /** The two edit modes. */
  const UpdateFactoryPageState: seq<PageState> := [UpdateFactoryImages, UpdateFactoryComment]

  /** Reads `CreateFactoryPageState[i]` as the source does: the state's string, or `undefined`. */
  function CreateStepAt(i: int): (r: Option<string>)
    ensures r.Some? <==> 0 <= i < |CreateFactoryPageState|
    ensures r.Some? ==> r.value == Name(CreateFactoryPageState[i]) && r.value != ""
  {
    match ElementAt(CreateFactoryPageState, i)
    case Some(s) => Some(Name(s))
    case None => None
  }

  /** `if (CreateFactoryPageState[i])` holds exactly for the three positions of the list. */
  lemma CreateStepAtTruthy(i: int)
    ensures TruthyString(CreateStepAt(i)) <==> 0 <= i < |CreateFactoryPageState|
  {
  }

  // The derived flags.

  /** The create wizard is on exactly in its three steps. */
  predicate IsCreateMode(s: PageState)
    ensures IsCreateMode(s) <==> s.CreateFactory1? || s.CreateFactory2? || s.CreateFactory3?
  {
    s in CreateFactoryPageState
  }

  /** The 1-based wizard step of `s`, and 0 outside the wizard. */
  function CreateStepIndex(s: PageState): (r: nat)
    ensures r <= |CreateFactoryPageState|
    ensures r > 0 <==> IsCreateMode(s)
    ensures r > 0 ==> CreateFactoryPageState[r - 1] == s
  {
    IndexOf(CreateFactoryPageState, s) + 1
  }

  /** The images editor is one of the edit modes and is not a wizard step. */
  predicate IsEditImagesMode(s: PageState)
    ensures IsEditImagesMode(s) ==> s in UpdateFactoryPageState && s !in CreateFactoryPageState
  {
    s == UpdateFactoryImages
  }

  /** The comment editor is one of the edit modes and is not a wizard step. */
  predicate IsEditCommentMode(s: PageState)
    ensures IsEditCommentMode(s) ==> s in UpdateFactoryPageState && s !in CreateFactoryPageState
  {
    s == UpdateFactoryComment
  }

  /** The edit mode is on exactly in one of its two sub-modes. */
  predicate IsEditMode(s: PageState)
    ensures IsEditMode(s) <==> IsEditImagesMode(s) || IsEditCommentMode(s)
  {
    s in UpdateFactoryPageState
  }

  /** The map is in "click to place" mode exactly on the first wizard step. */
  predicate SelectFactoryMode(s: PageState)
    ensures SelectFactoryMode(s) <==> CreateStepIndex(s) == 1
  {
    s == CreateFactory1
  }

  /** The form page is open everywhere except on the map and in the comment editor. */
  predicate FormPageOpen(s: PageState)
    ensures FormPageOpen(s) <==> s != Initial && s != UpdateFactoryComment
  {
    s in CreateFactoryPageState || s == UpdateFactoryImages
  }

  /**
   * Each state is in exactly one of three modes: the initial page, the create
   * wizard or an edit mode; so the flags never disagree with one another.
   */
  lemma ModesPartitionStates(s: PageState)
    ensures s == Initial || IsCreateMode(s) || IsEditMode(s)
    ensures !(IsCreateMode(s) && IsEditMode(s))
    ensures s == Initial ==> !IsCreateMode(s) && !IsEditMode(s) && !FormPageOpen(s)
    ensures SelectFactoryMode(s) ==> IsCreateMode(s) && FormPageOpen(s)
    ensures IsEditImagesMode(s) ==> FormPageOpen(s) && !IsCreateMode(s)
  {
  }

  /** The flags in the images editor: edit mode, images sub-mode, form open, not placing on the map. */
  lemma EditImagesFlags()
    ensures IsEditMode(UpdateFactoryImages) && IsEditImagesMode(UpdateFactoryImages)
    ensures FormPageOpen(UpdateFactoryImages) && !SelectFactoryMode(UpdateFactoryImages)
    ensures !IsCreateMode(UpdateFactoryImages) && CreateStepIndex(UpdateFactoryImages) == 0
  {
  }

  /**
   * `pageState in CreateFactoryPageState`, read literally, asks whether the
   * state's string is a property key of the array; no state's string is one.
   */
  lemma InArrayNeverHolds(s: PageState)
    ensures !ArrayHasProperty(Name(s), |CreateFactoryPageState|)
  {
    CapitalisedKeyIsNoArrayProperty(Name(s), |CreateFactoryPageState|);
  }
}
