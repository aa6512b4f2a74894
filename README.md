# Selective purge on the Database Management page

This project models the state machine behind BloodHound's Database
Management page (`cmd/ui/src/views/DatabaseManagement/DatabaseManagement.tsx`).
An administrator ticks any of five "delete this category" checkboxes and
presses Delete. The page refuses an empty selection. Otherwise it opens a
confirmation dialog. On Confirm it closes the dialog and sends one
`ClearDatabaseRequest` to the deletion API. The call's success or failure
then feeds back into the same state.

The model has four modules:

- `PurgeFlow` (`purge_flow.dfy`) holds the flat `State` record, the closed
  set of six `Action`s and the reducer `Reduce` as a pure function. Lemmas
  say what each action does and what a run of actions can and cannot do.
- `IdLists` (`id_lists.dfy`) holds `dedupe` in the source's own shape: a
  filter that keeps an element when its position is the first index of its
  value, over a model of JavaScript's `indexOf`. Lemmas prove it is the order-preserving de-duplication and
  that this property fixes its result uniquely.
- `PurgeRequest` (`purge_request.dfy`) holds the request builder of
  `handleMutation` and the `onError` rule that turns a failed call into a
  `mutation_error` action.
- `PurgeController` (`purge_controller.dfy`) holds the class
  `DatabaseManagement`. It owns the reducer state, the two asset-group
  values the page reads from the store, and the list of requests handed
  to the deletion API. Its methods are the page's handlers: checkbox
  change, Delete, Cancel, Confirm, and the call's `onSuccess`/`onError`.
  Three client methods (`SessionEmptyDelete`, `SessionConfirmBoth`,
  `SessionFailThenRetry`) replay sessions using only the methods' contracts.

Modelling choices:

- The `selection` action's `targetName` is a five-value enum, `Checkbox`.
  The page only ever dispatches those five names. The TypeScript computed
  key would accept any string.
- JavaScript numbers are modelled as mathematical integers.
- An absent optional (`message?`, `mutationErrorMessage?`) is `None`.
- The error object of a failed call is `MutationFailure`. `response` is
  `None` when there is no HTTP response. `errors` is `None` when the body
  has no `errors` list. Each error entry's `message` may be absent.
- The reducer's `default` branch cannot be reached once `Action` is a
  closed datatype, so it is not modelled.

Three behaviours of the code a reader might not expect:

- The two error flags are not mutually exclusive at every instant. The two
  error actions clear each other. But `open_dialog` with nothing selected
  raises `noSelectionError` and leaves `mutationError` alone.
  `PurgeFlow.ErrorFlagsCanCoexist` gives a two-action trace from the
  initial state that sets both flags. Only the local property
  (`PurgeFlow.ErrorActionsExclusive`) holds.
- `mutation_success` does not clear `mutationError` or its message. So a
  failure followed by a successful retry leaves the error flag set next
  to the success flag (`PurgeFlow.MutationSuccessSpec` for one step,
  `PurgeRequest.FailThenSuccessKeepsError` for the two-call trace).
- The comment at line 192 says the de-duplication is for the case where
  both asset-group boxes are ticked. Because of the `else if` at lines
  186-190, the tier-zero id is never added next to the full list. So
  `dedupe` only removes repeats that are already in `allAssetGroupIds`.
  With "all" ticked, the tier-zero id is sent only if it is one of the
  known ids (`PurgeRequest.AllSelectorsIgnoresCustom`).

## Model

| member | source | states |
|---|---|---|
| `PurgeFlow.Initial` | cmd/ui/src/views/DatabaseManagement/DatabaseManagement.tsx:35-47 | the initial state `initialState`; its contract is carried by `PurgeFlow.InitialIsIdle` |
| `PurgeFlow.InitialIsIdle` | cmd/ui/src/views/DatabaseManagement/DatabaseManagement.tsx:35-47 | the initial state has no checkbox ticked, no error or success flag, no message and the dialog closed |
| `PurgeFlow.SelectionFlags` | cmd/ui/src/views/DatabaseManagement/DatabaseManagement.tsx:115-121 | the five checkbox values in the order the source lists them; `PurgeFlow.NoSelection` states that their count is zero iff nothing is ticked |
| `PurgeFlow.SetChecked` | cmd/ui/src/views/DatabaseManagement/DatabaseManagement.tsx:106-109 | the computed-key update sets exactly the named checkbox to `checked`; the other four checkboxes and every non-checkbox field are unchanged |
| `PurgeFlow.CountTrue` | cmd/ui/src/views/DatabaseManagement/DatabaseManagement.tsx:114-121 | the number of true entries is at most the list length and is zero iff no entry is true |
| `PurgeFlow.NoSelection` | cmd/ui/src/views/DatabaseManagement/DatabaseManagement.tsx:114-121 | the count-based `noSelection` test holds iff none of the five checkboxes is ticked |
| `PurgeFlow.Reduce` | cmd/ui/src/views/DatabaseManagement/DatabaseManagement.tsx:75-146 | the reducer, one branch per action; its contract is carried by `SelectionSpec`, `OpenDialogSpec`, `CloseDialogSpec`, `NoSelectionErrorSpec`, `MutationErrorSpec` and `MutationSuccessSpec`, with `SuccessFlagAfter` and `KeepsCheckboxes` across all actions |
| `PurgeFlow.SelectionSpec` | cmd/ui/src/views/DatabaseManagement/DatabaseManagement.tsx:105-111 | `selection` sets exactly the named checkbox and clears `noSelectionError`; the other checkboxes, `mutationError`, the message, the success flag and the dialog are unchanged |
| `PurgeFlow.OpenDialogSpec` | cmd/ui/src/views/DatabaseManagement/DatabaseManagement.tsx:113-134 | `open_dialog` keeps the checkboxes; `noSelectionError` is set iff nothing is ticked; with a selection the dialog opens; without one the state only gains `noSelectionError`; `mutationError`, the message and the success flag are unchanged |
| `PurgeFlow.OpenDialogOpensIffSelected` | cmd/ui/src/views/DatabaseManagement/DatabaseManagement.tsx:113-134 | from a closed dialog, `open_dialog` opens it iff at least one checkbox is ticked |
| `PurgeFlow.CloseDialogSpec` | cmd/ui/src/views/DatabaseManagement/DatabaseManagement.tsx:136-141 | `close_dialog` closes the dialog and leaves every other field unchanged |
| `PurgeFlow.CloseDialogIdempotent` | cmd/ui/src/views/DatabaseManagement/DatabaseManagement.tsx:136-141 | closing twice gives the same state as closing once |
| `PurgeFlow.NoSelectionErrorSpec` | cmd/ui/src/views/DatabaseManagement/DatabaseManagement.tsx:77-83 | `no_selection_error` sets `noSelectionError`, clears `mutationError`, and keeps the checkboxes, the message, the success flag and the dialog |
| `PurgeFlow.MutationErrorSpec` | cmd/ui/src/views/DatabaseManagement/DatabaseManagement.tsx:84-91 | `mutation_error` sets `mutationError`, clears `noSelectionError`, stores exactly the supplied message (present or absent) and keeps the checkboxes, the success flag and the dialog |
| `PurgeFlow.MutationSuccessSpec` | cmd/ui/src/views/DatabaseManagement/DatabaseManagement.tsx:92-103 | `mutation_success` unticks all five checkboxes and sets the success flag; both error flags, the message and the dialog are unchanged |
| `PurgeFlow.ErrorActionsExclusive` | cmd/ui/src/views/DatabaseManagement/DatabaseManagement.tsx:77-91 | right after either error action the two error flags are not both set |
| `PurgeFlow.ErrorFlagsCanCoexist` | cmd/ui/src/views/DatabaseManagement/DatabaseManagement.tsx:84-127 | from the initial state, `mutation_error` then `open_dialog` sets both error flags, so their exclusivity is not a global invariant |
| `PurgeFlow.SuccessFlagAfter` | cmd/ui/src/views/DatabaseManagement/DatabaseManagement.tsx:75-146 | after any one action the success flag is set iff it was set before or the action is `mutation_success` |
| `PurgeFlow.SuccessMessagePersists` | cmd/ui/src/views/DatabaseManagement/DatabaseManagement.tsx:75-146 | once shown, the success message stays shown through any sequence of actions |
| `PurgeFlow.KeepsCheckboxes` | cmd/ui/src/views/DatabaseManagement/DatabaseManagement.tsx:75-146 | every action other than `selection` and `mutation_success` leaves all five checkboxes unchanged |
| `PurgeFlow.CheckboxesStable` | cmd/ui/src/views/DatabaseManagement/DatabaseManagement.tsx:75-146 | any sequence of actions with no `selection` and no `mutation_success` leaves all five checkboxes as they were |
| `PurgeFlow.UncheckAllThenOpen` | cmd/ui/src/views/DatabaseManagement/DatabaseManagement.tsx:105-134 | from any state with the dialog closed, unticking all five boxes leaves nothing selected, and `open_dialog` then raises `noSelectionError` without opening the dialog |
| `IdLists.IndexOf` | cmd/ui/src/views/DatabaseManagement/DatabaseManagement.tsx:194 | `indexOf` returns -1 iff the value is absent; otherwise it returns an index holding the value that is no later than any other such index |
| `IdLists.KeepFirst` | cmd/ui/src/views/DatabaseManagement/DatabaseManagement.tsx:194 | the filter over a prefix of the list; its contract is carried by `IdLists.KeepFirstSpec` |
| `IdLists.Dedupe` | cmd/ui/src/views/DatabaseManagement/DatabaseManagement.tsx:193-195 | `dedupe`; its contract is carried by `IdLists.DedupeSpec` and `IdLists.DedupeUnique`, which together determine its result |
| `IdLists.KeepFirstSpec` | cmd/ui/src/views/DatabaseManagement/DatabaseManagement.tsx:193-195 | filtering a prefix keeps each of its values exactly once, in order of first occurrence, and is no longer than the prefix |
| `IdLists.DedupeSpec` | cmd/ui/src/views/DatabaseManagement/DatabaseManagement.tsx:193-195 | `dedupe` output has no duplicates, has exactly the input's elements, lists them in order of first occurrence and is no longer than the input |
| `IdLists.DedupeUnique` | cmd/ui/src/views/DatabaseManagement/DatabaseManagement.tsx:193-195 | any duplicate-free list with the input's elements in order of first occurrence equals `dedupe` of the input |
| `IdLists.DedupeOfDistinct` | cmd/ui/src/views/DatabaseManagement/DatabaseManagement.tsx:193-195 | a list without duplicates passes through `dedupe` unchanged |
| `IdLists.DedupeIdempotent` | cmd/ui/src/views/DatabaseManagement/DatabaseManagement.tsx:193-195 | de-duplicating twice is de-duplicating once |
| `PurgeRequest.CollectAssetGroupIds` | cmd/ui/src/views/DatabaseManagement/DatabaseManagement.tsx:184-190 | the ids pushed before de-duplication: all known ids, else the tier-zero id, else none; its contract is carried by `PurgeRequest.BuildRequestSpec` |
| `PurgeRequest.BuildRequest` | cmd/ui/src/views/DatabaseManagement/DatabaseManagement.tsx:183-207 | the request `handleMutation` submits; its contract is carried by `PurgeRequest.BuildRequestSpec`, `PurgeRequest.NoIdsIff` and `PurgeRequest.AllSelectorsIgnoresCustom` |
| `PurgeRequest.BuildRequestSpec` | cmd/ui/src/views/DatabaseManagement/DatabaseManagement.tsx:183-207 | the request forwards the graph-data, data-quality and file-ingest flags unchanged; its id list has no duplicates; with "all" ticked it holds exactly the known ids in first-occurrence order, whatever the custom box says; with only "custom" ticked it is `[tier-zero id]`; with neither it is empty |
| `PurgeRequest.NoIdsIff` | cmd/ui/src/views/DatabaseManagement/DatabaseManagement.tsx:184-197 | the id list is empty iff neither asset-group box is ticked, or "all" is ticked and there are no asset groups |
| `PurgeRequest.AllSelectorsIgnoresCustom` | cmd/ui/src/views/DatabaseManagement/DatabaseManagement.tsx:184-197 | with "all" ticked the id list is `dedupe(allAssetGroupIds)`, flipping the custom box does not change the request, and the tier-zero id is sent iff it is a known id |
| `PurgeRequest.ConfirmBuildsFromSelection` | cmd/ui/src/views/DatabaseManagement/DatabaseManagement.tsx:362-365 | the request built after `close_dialog` equals the one built from the state before it, so dispatch order on Confirm does not matter |
| `PurgeRequest.ExampleBothAssetGroupBoxes` | cmd/ui/src/views/DatabaseManagement/DatabaseManagement.tsx:184-197 | with both asset-group boxes ticked, known ids [1, 2, 3] and tier-zero id 2, the ids sent are [1, 2, 3] |
| `PurgeRequest.ExampleCustomOnly` | cmd/ui/src/views/DatabaseManagement/DatabaseManagement.tsx:186-190 | with only the custom box ticked and tier-zero id 2, the ids sent are [2] |
| `PurgeRequest.HasServerErrors` | cmd/ui/src/views/DatabaseManagement/DatabaseManagement.tsx:170 | the `onError` test: a response with status 500 whose body has a non-empty `errors` list; `PurgeRequest.FailureAction` states the message is sent exactly under it |
| `PurgeRequest.FailureAction` | cmd/ui/src/views/DatabaseManagement/DatabaseManagement.tsx:168-176 | a failure always yields `mutation_error`; it carries a message only for an HTTP 500 with a non-empty `errors` list, and then the message is the first entry's |
| `PurgeRequest.ResultAction` | cmd/ui/src/views/DatabaseManagement/DatabaseManagement.tsx:168-180 | success dispatches `mutation_success` and nothing else does; failure dispatches `mutation_error` |
| `PurgeRequest.FailureOutcome` | cmd/ui/src/views/DatabaseManagement/DatabaseManagement.tsx:168-176 | after a failed call `mutationError` is set and `noSelectionError` cleared; a message is stored only for a 500 with a non-empty error list, and it is the first entry's; the checkboxes, success flag and dialog are unchanged |
| `PurgeRequest.SuccessOutcome` | cmd/ui/src/views/DatabaseManagement/DatabaseManagement.tsx:177-180 | after a successful call nothing is selected and the success message shows; the error flags and the dialog are unchanged |
| `PurgeRequest.FailThenSuccessKeepsError` | cmd/ui/src/views/DatabaseManagement/DatabaseManagement.tsx:84-103 | a failed call followed by a successful one leaves the mutation error raised next to the success message, with nothing selected |
| `PurgeRequest.ExampleDiskFull` | cmd/ui/src/views/DatabaseManagement/DatabaseManagement.tsx:168-176 | a 500 with errors [{message: "disk full"}] sets the mutation error with message "disk full" and keeps the checkboxes |
| `PurgeRequest.OtherStatusHasNoMessage` | cmd/ui/src/views/DatabaseManagement/DatabaseManagement.tsx:170-175 | a failure whose status is not 500 dispatches `mutation_error` with no message, whatever its body holds |
| `PurgeController.DatabaseManagement.constructor` | cmd/ui/src/views/DatabaseManagement/DatabaseManagement.tsx:149-152 | the page starts in the initial state with nothing submitted and the store's two asset-group values |
| `PurgeController.DatabaseManagement.Dispatch` | cmd/ui/src/views/DatabaseManagement/DatabaseManagement.tsx:149 | `dispatch` replaces the state with the reducer's answer and changes nothing else |
| `PurgeController.DatabaseManagement.HandleCheckbox` | cmd/ui/src/views/DatabaseManagement/DatabaseManagement.tsx:245-251 | a checkbox change dispatches `selection`: the named box becomes `checked`, the no-selection error clears and the other boxes stay |
| `PurgeController.DatabaseManagement.RequestConfirmation` | cmd/ui/src/views/DatabaseManagement/DatabaseManagement.tsx:351 | the Delete button dispatches `open_dialog`: the checkboxes stay, the no-selection error is raised iff nothing was ticked, and the dialog opens when something was |
| `PurgeController.DatabaseManagement.Cancel` | cmd/ui/src/views/DatabaseManagement/DatabaseManagement.tsx:359-361 | Cancel dispatches `close_dialog`: the dialog closes and the checkboxes stay |
| `PurgeController.DatabaseManagement.HandleMutation` | cmd/ui/src/views/DatabaseManagement/DatabaseManagement.tsx:183-207 | the ids are pushed into a local list and de-duplicated; the request built is `BuildRequest` of the current state and is appended to the submitted requests |
| `PurgeController.DatabaseManagement.Confirm` | cmd/ui/src/views/DatabaseManagement/DatabaseManagement.tsx:362-365 | Confirm closes the dialog, keeps the checkboxes, and submits exactly one request, built from the checkboxes as they were when the user confirmed |
| `PurgeController.DatabaseManagement.OnResult` | cmd/ui/src/views/DatabaseManagement/DatabaseManagement.tsx:168-180 | the call's result is dispatched; success leaves nothing selected and shows the success message; failure raises the mutation error, clears the no-selection error, keeps the checkboxes and stores a message only for a 500 with a non-empty error list |

## Left out

- Rendering is not modelled: the JSX, the MUI and doodleui components, the `FeatureFlag` wrapper around the graph-data checkbox, and the alert texts with their generic fallback message (lines 212-370).
- The permission check (`hasPermission`, which disables the checkboxes and the Delete button) and the notification mount effect are not modelled. They are foreign calls, so every handler is assumed enabled.
- The transport is not modelled: react-query's `useMutation`, `apiClient.clearDatabase`, and the asynchronous timing of its callbacks. Each request handed to the API is recorded in `submitted`, and the call's result enters as an `Outcome` parameter of `OnResult`.
- Overlapping calls are not modelled. The page has no guard against a second Confirm while a call is in flight. The model allows it, and `OnResult` can be called in any order.
- The redux selectors `selectAllAssetGroupIds` and `selectTierZeroAssetGroupId` are not part of this model. Their values are constructor parameters. The source re-reads them on every render, so `handleMutation` uses the values current at Confirm; the model treats them as fixed for the page's lifetime (they are `const` fields of `DatabaseManagement`) and does not capture a store update while the page is open. The tier-zero id is assumed always present.
- JavaScript `===` on `NaN` is not modelled (`indexOf(NaN)` is -1, so `dedupe` would drop a `NaN`). Ids are integers here.
- A null first entry in `errors` (where `errors[0].message` would throw) is not modelled. Each entry is a record whose `message` may be absent.
- The daemon, import/export and help-text files of the repository are outside this model. They are I/O, concurrency or static content.
