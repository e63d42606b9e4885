# Page-navigation state machine of the Disfactory front end

This project models, in Dafny, the shared application state of the map-based
report UI (`src/lib/appState.ts`) and the display-status table of reports
(`src/types.ts`).

The page state is one of six values: the map (`INITIAL`), the three steps of
the create wizard, the images editor and the comment editor. Seven flags are
derived from it and never stored: `isCreateMode`, `createStepIndex`,
`isEditImagesMode`, `isEditCommentMode`, `isEditMode`, `selectFactoryMode` and
`formPageOpen`. They are pure functions of the state in module `PageStates`.

The shared state object is the class `AppState.AppState`. Its fields are the
page state, the selected record, the picked location, the detail-panel flag
and a log of analytics calls. Every `pageTransition` operation and every
auxiliary mutator is a method of that class.

- A transition the source rejects by throwing `Invalid page transition`
  returns `ok == false`.
- In every transition the throw happens before the analytics call. So a
  rejected transition changes nothing and emits nothing.
- The operations that move through the wizard (`gotoNextCreate`,
  `nextCreateStep`, `previousCreateStep`, `gotoCreateStep`) state their effect
  in terms of the derived flags and the wizard step index. Their bodies follow
  the source's own computation: `indexOf`, reading an element (which yields
  `undefined` outside the array) and the truthiness of what was read. These
  JavaScript semantics are in module `JsArrays`.
- The other transitions state their guard and destination as the states
  themselves, as the source compares them.

Behaviours of the code that are modelled as written:

- `nextCreateStep` from a state outside the wizard lands on step 1, because
  `indexOf` gives -1 there. `previousCreateStep` does nothing on step 1 or
  outside the wizard.
- `gotoCreateStep` checks only its step, not the current state.
- `openEditFactoryForm` stores the record before the guarded transition. When
  the transition is rejected, the record therefore stays selected.
- On success `openEditFactoryForm` emits the `/edit` pageview twice: once
  inside `startUpdateFactoryImages` and once itself. A reader might expect one
  pageview and an all-or-nothing operation; the model follows the code.

The display statuses (module `DisplayStatus`) are a constant table of five
entries. The `reduce` that builds `FactoryDisplayStatusMap` is the recursive
function `Fold`. A computed key `[c.type]` becomes a property key string
(`'default'`, `'0'` … `'3'`). The fold overwrites an earlier entry with a later
one of the same key. The five keys are distinct, so no entry is lost, and both
lookups return the field of the unique table entry of the requested type.

## Model

| member | source | states |
|---|---|---|
| `JsArrays.IndexOf` | src/lib/appState.ts:91 | `indexOf` gives the first position holding the value, or -1 exactly when the value is absent |
| `JsArrays.ElementAt` | src/lib/appState.ts:105 | reading `list[i]` gives the element at `i`, and `undefined` exactly when `i` is not a position of the array |
| `JsArrays.ArrayHasProperty` | src/lib/appState.ts:118 | `key in array` holds only for keys that start with a digit (own indices), a lower-case letter (`length`, inherited methods) or `_` |
| `JsArrays.CapitalisedKeyIsNoArrayProperty` | src/lib/appState.ts:118 | `key in array` is false for any key starting with a capital letter: index keys start with a digit, `length` and inherited keys with a lower-case letter or `_` |
| `PageStates.Name` | src/lib/appState.ts:9-16 | every state's string value is non-empty and starts with a capital letter |
| `PageStates.CreateStepAt` | src/lib/appState.ts:105 | `CreateFactoryPageState[i]` is the non-empty string of the `i`-th wizard state for `i` in 0..2, and `undefined` for every other `i` |
| `PageStates.CreateStepAtTruthy` | src/lib/appState.ts:105 | `if (CreateFactoryPageState[i])` holds exactly for the positions 0, 1, 2 of the list |
| `PageStates.IsCreateMode` | src/lib/appState.ts:49 | the wizard flag, membership in the create list, holds exactly in the three wizard steps |
| `PageStates.CreateStepIndex` | src/lib/appState.ts:49-50 | `createStepIndex` is the 1-based position of the state in the create list, and 0 outside it; it is positive exactly when `isCreateMode` holds |
| `PageStates.IsEditImagesMode` | src/lib/appState.ts:52 | the images-editor flag holds only in an edit mode that is not a wizard step |
| `PageStates.IsEditCommentMode` | src/lib/appState.ts:53 | the comment-editor flag holds only in an edit mode that is not a wizard step |
| `PageStates.IsEditMode` | src/lib/appState.ts:52-54 | `isEditMode` holds exactly when `isEditImagesMode` or `isEditCommentMode` does |
| `PageStates.SelectFactoryMode` | src/lib/appState.ts:56 | map-placement mode holds exactly on wizard step 1 |
| `PageStates.FormPageOpen` | src/lib/appState.ts:57 | the form page is open in every state except the map and the comment editor |
| `PageStates.ModesPartitionStates` | src/lib/appState.ts:49-57 | every state is exactly one of: the map, a create step, an edit mode; the flags agree with that |
| `PageStates.EditImagesFlags` | src/lib/appState.ts:52-57 | in the images editor: edit mode, images mode and form open hold; map placement and create mode do not |
| `PageStates.InArrayNeverHolds` | src/lib/appState.ts:118 | the literal guard `pageState in CreateFactoryPageState` is false for all six states |
| `AppState.AppState.constructor` | src/lib/appState.ts:42-63 | the state starts on the map with no record, no location, the panel collapsed and nothing emitted |
| `AppState.AppState.StartCreateFactory` | src/lib/appState.ts:80-88 | succeeds exactly from the map, goes to step 1 and emits `enterSelectFactoryMode`; otherwise nothing changes |
| `AppState.AppState.GotoNextCreate` | src/lib/appState.ts:90-101 | succeeds exactly from steps 1 and 2 and moves one step forward; the `/create` pageview is emitted only when leaving step 1; a rejection changes nothing |
| `AppState.AppState.NextCreateStep` | src/lib/appState.ts:103-108 | never fails: one step forward inside the wizard, stays on step 3, lands on step 1 from outside the wizard |
| `AppState.AppState.PreviousCreateStep` | src/lib/appState.ts:110-115 | never fails: one step back from steps 2 and 3, no change on step 1 or outside the wizard |
| `AppState.AppState.CancelCreateFactory` | src/lib/appState.ts:117-125 | with the intended guard: succeeds exactly from a create step, returns to the map and emits `exitSelectFactoryMode` |
| `AppState.AppState.CancelCreateFactoryAsWritten` | src/lib/appState.ts:117-125 | with the guard as written, it succeeds exactly when the state's string is a property key of the create array; that is never so, so it is rejected from every state and changes nothing |
| `AppState.AppState.GotoCreateStep` | src/lib/appState.ts:127-137 | from any state, succeeds exactly for step 0, 1 or 2 and lands on that 0-based wizard step; any other step changes nothing |
| `AppState.AppState.StartUpdateFactoryImages` | src/lib/appState.ts:139-147 | succeeds exactly from the map, opens the images editor and emits the `/edit` pageview |
| `AppState.AppState.CancelUpdateFactoryImages` | src/lib/appState.ts:149-157 | succeeds exactly from the images editor, returns to the map and emits `exitUpdateFactoryImagesMode` |
| `AppState.AppState.StartUpdateFactoryComment` | src/lib/appState.ts:159-167 | succeeds exactly from the map, opens the comment editor and emits the `/editComment` pageview |
| `AppState.AppState.CloseFactoryPage` | src/lib/appState.ts:169-176 | succeeds exactly from the five states other than the map, always ends on the map, and emits `closeFactoryPage` on success |
| `AppState.AppState.UpdateFactoryData` | src/lib/appState.ts:179-181 | selects the record and changes nothing else, the page state included |
| `AppState.AppState.ExpandFactoryDetail` | src/lib/appState.ts:183-185 | the detail panel is expanded, nothing else changes |
| `AppState.AppState.CollapseFactoryDetail` | src/lib/appState.ts:187-190 | in any page state, the panel is collapsed and the record released |
| `AppState.AppState.ToggleFactoryDetail` | src/lib/appState.ts:192-194 | the panel flag is negated, nothing else changes |
| `AppState.AppState.OpenEditFactoryForm` | src/lib/appState.ts:201-206 | the record is selected whatever happens; from the map the images editor opens and `/edit` is emitted twice; otherwise state and log are unchanged |
| `AppState.AppState.SetFactoryLocation` | src/lib/appState.ts:208-211 | stores the coordinate pair and emits `setFactoryLocation` |
| `AppState.CreateWizardWalk` | src/lib/appState.ts:80-125 | from the map, start and two "Next" presses reach step 3, a third press is rejected, cancel returns to the map; the log is `enterSelectFactoryMode`, `/create`, `exitSelectFactoryMode` |
| `AppState.LenientStepBoundaries` | src/lib/appState.ts:103-115 | the lenient forward step from the map lands on step 1; the lenient steps do nothing on step 1 (back) and step 3 (forward) |
| `AppState.GotoCreateStepWalk` | src/lib/appState.ts:127-137 | step 1 is reached straight from the map; steps 5 and -1 are rejected without moving |
| `AppState.CancelFromWizardStep` | src/lib/appState.ts:117-125 | on step 2, the as-written cancel is rejected and leaves the wizard open; the intended cancel returns to the map |
| `AppState.CloseFactoryPageTwice` | src/lib/appState.ts:169-176 | two closes in a row: the first succeeds exactly off the map, the second always fails; the log gains `closeFactoryPage` once if the first succeeded; record, location and panel are untouched |
| `AppState.ToggleFactoryDetailTwice` | src/lib/appState.ts:192-194 | toggling the panel twice restores the flag; nothing else is touched |
| `AppState.OpenEditFromMap` | src/lib/appState.ts:201-206 | from the map the record is selected, the images editor is open, and the log is two `/edit` pageviews and no event |
| `DisplayStatus.KeyIsPropertyKey` | src/types.ts:68 | the computed key `[c.type]` (and the lookups `[status]` at lines 75 and 79) is `'default'` for the string type and the decimal string of the number otherwise |
| `DisplayStatus.KeyInjective` | src/types.ts:65-72 | two status types give the same property key exactly when they are equal |
| `DisplayStatus.Fold` | src/types.ts:65-72 | the fold stores every entry under its key, a later entry wins on a shared key, other keys keep their value |
| `DisplayStatus.DisplayStatusMapAgrees` | src/types.ts:65-72 | the map's keys are exactly the table's keys and it holds every table entry under its own type's key |
| `DisplayStatus.DisplayStatusMapTotal` | src/types.ts:70-72 | the map has an entry for every status type, and it is the table entry of that type |
| `DisplayStatus.OnlyEntryOfType` | src/types.ts:32-63 | every status type has exactly one table entry |
| `DisplayStatus.GetDisplayStatusText` | src/types.ts:74-76 | the result is the name of the table entry of the requested type, which exists and is unique |
| `DisplayStatus.GetDisplayStatusColor` | src/types.ts:78-80 | the result is the colour of the table entry of the requested type, which exists and is unique |
| `DisplayStatus.DefaultStatusesAreTableTypes` | src/types.ts:20-22 | `defaultFactoryDisplayStatuses` lists the table's types in table order, so it contains every type |

## Findings

| source | as written | input that shows it | evidently intended | confidence | as-written member | corrected member |
|---|---|---|---|---|---|---|
| src/lib/appState.ts:118 | `pageState in CreateFactoryPageState` asks whether the state's string is a property key of the array (`'0'`, `'1'`, `'2'`, `length`, inherited methods), which none is, so `cancelCreateFactory` always throws | any wizard step, e.g. `CREATE_FACTORY_2`: cancel is rejected and the wizard stays open (`AppState.CancelFromWizardStep`, `PageStates.InArrayNeverHolds`) | membership in the create list, so cancel goes from any create step to the map | high (not executed) | `AppState.AppState.CancelCreateFactoryAsWritten` | `AppState.AppState.CancelCreateFactory` |

## Left out

- Vue plumbing (`reactive`, `computed`, `provide`/`inject`, `useAppState`): the flags are plain functions of the state and the store is a plain object.
- The analytics transport (`useGA`): it is foreign code; `event` and `pageview` are appends to the `emitted` log.
- `mapLngLat` and `canPlaceFactory`: this code has no operation on them.
- `AppState.AppState.SetFactoryLocation`: the source stores the caller's array itself, so a later write to that array would show in `factoryLocation`; the model stores a copy of the two values and does not model that aliasing.
- Coordinates are floating-point numbers; the model stores them as an opaque type `Coord` and never reasons about their values. The record type is the opaque type `Record`.
- `AppState.AppState.GotoCreateStep`: its step is an integer; a non-integral number (which the source also rejects, since no element sits at such a key) is not modelled.
- The fields of the factory record and the API shapes in `src/types.ts` (`FactoryData`, `FactoryPostData`, `FactoriesResponse`, `ReportRecord`): they have no behaviour.
- `FACTORY_TYPE`: a constant label table with no operation on it.
- The modal and sidebar flags of `src/lib/hooks.ts`: plain setters with timers, browser storage and browser checks.
