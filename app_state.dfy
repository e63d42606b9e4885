/**
 * The shared application state and its mutators: the page-transition state
 * machine, the selected record, the detail panel and the picked location.
 *
 * A transition that the source rejects by throwing "Invalid page transition"
 * returns `ok == false` here. In every transition the throw comes before the
 * analytics call, so a rejected transition changes nothing and emits nothing.
 * The analytics sink is not modelled; what is handed to it is appended to
 * `emitted`.
 */
module AppState {
  import opened Options
  import opened JsArrays
  import opened PageStates

  /** A call into the analytics sink: `event(name)` or `pageview(path)`. */
  datatype Emission = Event(name: string) | Pageview(path: string)

  /**
   * The application state. `Record` stands for the selected factory record and
   * `Coord` for one coordinate; the model stores both without looking inside.
   */
  class AppState<Record, Coord> {
    var pageState: PageState
    var factoryData: Option<Record>
    var factoryLocation: seq<Coord>
    var factoryDetailsExpanded: bool
    /** Everything handed to the analytics sink so far, oldest first. */
    var emitted: seq<Emission>

    constructor ()
      ensures pageState == Initial && factoryData == None && factoryLocation == []
      ensures !factoryDetailsExpanded && emitted == []
    {
      pageState := Initial;
      factoryData := None;
      factoryLocation := [];
      factoryDetailsExpanded := false;
      emitted := [];
    }

    /** Enter the create wizard from the map. */
    method StartCreateFactory() returns (ok: bool)
      modifies this`pageState, this`emitted
      ensures ok <==> old(pageState) == Initial
      ensures pageState == if ok then CreateFactory1 else old(pageState)
      ensures emitted == old(emitted) + if ok then [Event("enterSelectFactoryMode")] else []
    {
      if pageState == Initial {
        pageState := CreateFactory1;
      } else {
        return false;
      }
      emitted := emitted + [Event("enterSelectFactoryMode")];
      ok := true;
    }

    /** The wizard's "Next" button: strict, one step forward, pageview only when leaving step 1. */
    method GotoNextCreate() returns (ok: bool)
      modifies this`pageState, this`emitted
      ensures ok <==> IsCreateMode(old(pageState)) && old(pageState) != CreateFactory3
      ensures ok ==> pageState == CreateFactoryPageState[CreateStepIndex(old(pageState))]
      ensures ok ==> CreateStepIndex(pageState) == CreateStepIndex(old(pageState)) + 1
      ensures !ok ==> pageState == old(pageState)
      ensures emitted == old(emitted) + if ok && old(pageState) == CreateFactory1 then [Pageview("/create")] else []
    {
      var index := IndexOf(CreateFactoryPageState, pageState);
      if index != -1 && index != |CreateFactoryPageState| - 1 {
        pageState := CreateFactoryPageState[index + 1];
      } else {
        return false;
      }
      if index == 0 {
        emitted := emitted + [Pageview("/create")];
      }
      ok := true;
    }

    /**
     * Lenient step forward: never fails, stays on the last step, and from a
     * state outside the wizard (where `indexOf` gives -1) lands on step 1.
     */
    method NextCreateStep()
      modifies this`pageState
      ensures old(pageState) == CreateFactory3 ==> pageState == CreateFactory3
      ensures IsCreateMode(old(pageState)) && old(pageState) != CreateFactory3 ==>
                CreateStepIndex(pageState) == CreateStepIndex(old(pageState)) + 1
      ensures !IsCreateMode(old(pageState)) ==> pageState == CreateFactory1
    {
      var index := IndexOf(CreateFactoryPageState, pageState);
      CreateStepAtTruthy(index + 1);
      if TruthyString(CreateStepAt(index + 1)) {
        pageState := CreateFactoryPageState[index + 1];
      }
    }

    /** Lenient step back: never fails, and does nothing on step 1 or outside the wizard. */
    method PreviousCreateStep()
      modifies this`pageState
      ensures old(pageState) == CreateFactory1 || !IsCreateMode(old(pageState)) ==> pageState == old(pageState)
      ensures IsCreateMode(old(pageState)) && old(pageState) != CreateFactory1 ==>
                CreateStepIndex(pageState) == CreateStepIndex(old(pageState)) - 1
    {
      var index := IndexOf(CreateFactoryPageState, pageState);
      CreateStepAtTruthy(index - 1);
      if TruthyString(CreateStepAt(index - 1)) {
        pageState := CreateFactoryPageState[index - 1];
      }
    }

    /** Leave the wizard from any of its steps, with the guard the operation evidently intends. */
    method CancelCreateFactory() returns (ok: bool)
      modifies this`pageState, this`emitted
      ensures ok <==> IsCreateMode(old(pageState))
      ensures pageState == if ok then Initial else old(pageState)
      ensures emitted == old(emitted) + if ok then [Event("exitSelectFactoryMode")] else []
    {
      if pageState in CreateFactoryPageState {
        pageState := Initial;
      } else {
        return false;
      }
      emitted := emitted + [Event("exitSelectFactoryMode")];
      ok := true;
    }

    /**
     * `cancelCreateFactory` with its guard as written: `pageState in
     * CreateFactoryPageState` tests property keys of the array, which no
     * state's string is, so the operation is rejected from every state.
     */
    method CancelCreateFactoryAsWritten() returns (ok: bool)
      modifies this`pageState, this`emitted
      ensures ok <==> ArrayHasProperty(Name(old(pageState)), |CreateFactoryPageState|)
      ensures !ok
      ensures pageState == old(pageState) && emitted == old(emitted)
    {
      InArrayNeverHolds(pageState);
      ok := ArrayHasProperty(Name(pageState), |CreateFactoryPageState|);
      pageState := if ok then Initial else pageState;
      emitted := emitted + if ok then [Event("exitSelectFactoryMode")] else [];
    }

    /** Jump to the 0-based wizard step `step`, from whatever state; any other step is rejected. */
    method GotoCreateStep(step: int) returns (ok: bool)
      modifies this`pageState
      ensures ok <==> 0 <= step < |CreateFactoryPageState|
      ensures ok ==> IsCreateMode(pageState) && CreateStepIndex(pageState) == step + 1
      ensures !ok ==> pageState == old(pageState)
    {
      CreateStepAtTruthy(step);
      if TruthyString(CreateStepAt(step)) {
        pageState := CreateFactoryPageState[step];
      } else {
        return false;
      }
      ok := true;
    }

    /** Open the images editor from the map. */
    method StartUpdateFactoryImages() returns (ok: bool)
      modifies this`pageState, this`emitted
      ensures ok <==> old(pageState) == Initial
      ensures pageState == if ok then UpdateFactoryImages else old(pageState)
      ensures emitted == old(emitted) + if ok then [Pageview("/edit")] else []
    {
      if pageState == Initial {
        pageState := UpdateFactoryImages;
      } else {
        return false;
      }
      emitted := emitted + [Pageview("/edit")];
      ok := true;
    }

    /** Leave the images editor. */
    method CancelUpdateFactoryImages() returns (ok: bool)
      modifies this`pageState, this`emitted
      ensures ok <==> old(pageState) == UpdateFactoryImages
      ensures pageState == if ok then Initial else old(pageState)
      ensures emitted == old(emitted) + if ok then [Event("exitUpdateFactoryImagesMode")] else []
    {
      if pageState == UpdateFactoryImages {
        pageState := Initial;
      } else {
        return false;
      }
      emitted := emitted + [Event("exitUpdateFactoryImagesMode")];
      ok := true;
    }

    /** Open the comment editor from the map. */
    method StartUpdateFactoryComment() returns (ok: bool)
      modifies this`pageState, this`emitted
      ensures ok <==> old(pageState) == Initial
      ensures pageState == if ok then UpdateFactoryComment else old(pageState)
      ensures emitted == old(emitted) + if ok then [Pageview("/editComment")] else []
    {
      if pageState == Initial {
        pageState := UpdateFactoryComment;
      } else {
        return false;
      }
      emitted := emitted + [Pageview("/editComment")];
      ok := true;
    }

    /** Close whatever page is open (a wizard step or an editor) and return to the map. */
    method CloseFactoryPage() returns (ok: bool)
      modifies this`pageState, this`emitted
      ensures ok <==> old(pageState) != Initial
      ensures pageState == Initial
      ensures emitted == old(emitted) + if ok then [Event("closeFactoryPage")] else []
    {
      if pageState in CreateFactoryPageState || pageState in UpdateFactoryPageState {
        pageState := Initial;
      } else {
        return false;
      }
      emitted := emitted + [Event("closeFactoryPage")];
      ok := true;
    }

    /** Select a record; the page state is not touched. */
    method UpdateFactoryData(factory: Record)
      modifies this`factoryData
      ensures factoryData == Some(factory)
    {
      factoryData := Some(factory);
    }

    method ExpandFactoryDetail()
      modifies this`factoryDetailsExpanded
      ensures factoryDetailsExpanded
    {
      factoryDetailsExpanded := true;
    }

    /** Collapse the detail panel and release the selected record, in any page state. */
    method CollapseFactoryDetail()
      modifies this`factoryDetailsExpanded, this`factoryData
      ensures !factoryDetailsExpanded && factoryData == None
    {
      factoryDetailsExpanded := false;
      factoryData := None;
    }

    method ToggleFactoryDetail()
      modifies this`factoryDetailsExpanded
      ensures factoryDetailsExpanded == !old(factoryDetailsExpanded)
    {
      factoryDetailsExpanded := !factoryDetailsExpanded;
    }

    /**
     * Select a record and open the images editor. The record is stored before
     * the guarded transition, so it stays selected when the transition is
     * rejected; on success the "/edit" pageview is emitted twice, once by the
     * transition and once here.
     */
    method OpenEditFactoryForm(factory: Record) returns (ok: bool)
      modifies this`factoryData, this`pageState, this`emitted
      ensures factoryData == Some(factory)
      ensures ok <==> old(pageState) == Initial
      ensures pageState == if ok then UpdateFactoryImages else old(pageState)
      ensures emitted == old(emitted) + if ok then [Pageview("/edit"), Pageview("/edit")] else []
    {
      UpdateFactoryData(factory);
      ok := StartUpdateFactoryImages();
      if !ok {
        return;
      }
      emitted := emitted + [Pageview("/edit")];
    }

    /** Record the picked location (a longitude/latitude pair). */
    method SetFactoryLocation(value: (Coord, Coord))
      modifies this`factoryLocation, this`emitted
      ensures factoryLocation == [value.0, value.1]
      ensures emitted == old(emitted) + [Event("setFactoryLocation")]
    {
      factoryLocation := [value.0, value.1];
      emitted := emitted + [Event("setFactoryLocation")];
    }
  }

  /**
   * The wizard from the map: start, two "Next" presses reach the last step, a
   * third is rejected, and cancelling returns to the map.
   */
  method CreateWizardWalk<Record, Coord>() returns (reached: PageState, thirdOk: bool, back: PageState, log: seq<Emission>)
    ensures reached == CreateFactory3 && !thirdOk && back == Initial
    ensures log == [Event("enterSelectFactoryMode"), Pageview("/create"), Event("exitSelectFactoryMode")]
  {
    var app := new AppState<Record, Coord>();
    var ok := app.StartCreateFactory();
    ok := app.GotoNextCreate();
    ok := app.GotoNextCreate();
    reached := app.pageState;
    thirdOk := app.GotoNextCreate();
    ok := app.CancelCreateFactory();
    back := app.pageState;
    log := app.emitted;
  }

  /**
   * The as-written cancel from inside the wizard: the guard rejects it, so the
   * wizard stays open and nothing is emitted, while the intended cancel succeeds.
   */
  method CancelFromWizardStep<Record, Coord>() returns (asWritten: bool, stuck: PageState, intended: bool, back: PageState)
    ensures !asWritten && stuck == CreateFactory2
    ensures intended && back == Initial
  {
    var app := new AppState<Record, Coord>();
    var ok := app.GotoCreateStep(1);
    asWritten := app.CancelCreateFactoryAsWritten();
    stuck := app.pageState;
    intended := app.CancelCreateFactory();
    back := app.pageState;
  }

  /** The lenient steps at the ends of the wizard leave the state where it is. */
  method LenientStepBoundaries<Record, Coord>() returns (atFirst: PageState, atLast: PageState, landed: PageState)
    ensures atFirst == CreateFactory1 && atLast == CreateFactory3
    ensures landed == CreateFactory1
  {
    var app := new AppState<Record, Coord>();
    app.NextCreateStep();
    landed := app.pageState;
    app.PreviousCreateStep();
    atFirst := app.pageState;
    var ok := app.GotoCreateStep(2);
    app.NextCreateStep();
    atLast := app.pageState;
  }

  /**
   * Step addressing needs no wizard: step 1 is reached straight from the map,
   * and steps 5 and -1 are rejected without moving.
   */
  method GotoCreateStepWalk<Record, Coord>() returns (second: PageState, fiveOk: bool, minusOneOk: bool, after: PageState)
    ensures second == CreateFactory2 && CreateStepIndex(second) == 2
    ensures !fiveOk && !minusOneOk && after == CreateFactory2
  {
    var app := new AppState<Record, Coord>();
    var ok := app.GotoCreateStep(1);
    second := app.pageState;
    fiveOk := app.GotoCreateStep(5);
    minusOneOk := app.GotoCreateStep(-1);
    after := app.pageState;
  }

  /** Closing is rejected on the map, so a second close in a row always fails. */
  method CloseFactoryPageTwice<Record, Coord>(app: AppState<Record, Coord>) returns (first: bool, second: bool)
    modifies app`pageState, app`emitted
    ensures first <==> old(app.pageState) != Initial
    ensures !second && app.pageState == Initial
    ensures app.emitted == old(app.emitted) + if first then [Event("closeFactoryPage")] else []
  {
    first := app.CloseFactoryPage();
    second := app.CloseFactoryPage();
  }

  /** Toggling the detail panel twice restores it. */
  method ToggleFactoryDetailTwice<Record, Coord>(app: AppState<Record, Coord>)
    modifies app`factoryDetailsExpanded
    ensures app.factoryDetailsExpanded == old(app.factoryDetailsExpanded)
  {
    app.ToggleFactoryDetail();
    app.ToggleFactoryDetail();
  }

  /** Opening the edit form from the map selects the record and emits two "/edit" pageviews and no event. */
  method OpenEditFromMap<Record, Coord>(factory: Record) returns (ok: bool, data: Option<Record>, state: PageState, log: seq<Emission>)
    ensures ok && data == Some(factory) && state == UpdateFactoryImages
    ensures log == [Pageview("/edit"), Pageview("/edit")]
  {
    var app := new AppState<Record, Coord>();
    ok := app.OpenEditFactoryForm(factory);
    data, state, log := app.factoryData, app.pageState, app.emitted;
  }
}
