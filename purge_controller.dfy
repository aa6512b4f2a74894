/**
  The `useDatabaseManagement` hook together with the page's event
  handlers: the reducer state kept behind `dispatch`, the two asset-group
  values read from the store, and the requests handed to the deletion API.
 */
module PurgeController {
  import opened PurgeFlow
  import opened IdLists
  import opened PurgeRequest

  class DatabaseManagement {
    /** The reducer state. */
    var state: State
    /** The ids of every asset group, as the store reports them. */
    const allAssetGroupIds: seq<int>
    /** The id of the tier-zero (high value) asset group. */
    const highValueAssetGroupId: int
    /** Every request handed to the deletion API so far, oldest first. */
    var submitted: seq<ClearDatabaseRequest>

    constructor (allIds: seq<int>, highValueId: int)
      ensures state == Initial && submitted == []
      ensures allAssetGroupIds == allIds && highValueAssetGroupId == highValueId
    {
      state := Initial;
      submitted := [];
      allAssetGroupIds := allIds;
      highValueAssetGroupId := highValueId;
    }

    /** `dispatch(a)`: the state becomes the reducer's answer; nothing is submitted. */
    method Dispatch(a: Action)
      modifies this`state
      ensures state == Reduce(old(state), a)
    {
      state := Reduce(state, a);
    }

    /** `handleCheckbox`: a checkbox named `name` changed to `checked`. */
    method HandleCheckbox(name: Checkbox, checked: bool)
      modifies this`state
      ensures state == Reduce(old(state), Selection(name, checked))
      ensures Checked(state, name) == checked && !state.noSelectionError
      ensures forall c :: c != name ==> Checked(state, c) == Checked(old(state), c)
    {
      Dispatch(Selection(name, checked));
    }

    /** The Delete button: ask for confirmation. */
    method RequestConfirmation()
      modifies this`state
      ensures state == Reduce(old(state), OpenDialog)
      ensures SameCheckboxes(state, old(state))
      ensures state.noSelectionError <==> !AnySelected(old(state))
      ensures AnySelected(old(state)) ==> state.openDialog
      ensures !AnySelected(old(state)) ==> state.openDialog == old(state).openDialog
    {
      Dispatch(OpenDialog);
    }

    /** The dialog's Cancel button. */
    method Cancel()
      modifies this`state
      ensures state == Reduce(old(state), CloseDialog)
      ensures !state.openDialog && SameCheckboxes(state, old(state))
    {
      Dispatch(CloseDialog);
    }

    /** `handleMutation`: build the request from the checkboxes and hand it
        to the deletion API. */
    method HandleMutation() returns (request: ClearDatabaseRequest)
      modifies this`submitted
      ensures request == BuildRequest(state, allAssetGroupIds, highValueAssetGroupId)
      ensures submitted == old(submitted) + [request]
    {
      var s := state;
      var assetGroupIds: seq<int> := [];
      if s.deleteAllAssetGroupSelectors {
        assetGroupIds := assetGroupIds + allAssetGroupIds;
      } else if s.deleteCustomHighValueSelectors {
        assetGroupIds := assetGroupIds + [highValueAssetGroupId];
      }
      assert assetGroupIds == CollectAssetGroupIds(s, allAssetGroupIds, highValueAssetGroupId);
      var deleteAssetGroupSelectors := Dedupe(assetGroupIds);
      request := ClearDatabaseRequest(
        s.deleteCollectedGraphData,
        s.deleteDataQualityHistory,
        s.deleteFileIngestHistory,
        deleteAssetGroupSelectors);
      assert request == BuildRequest(s, allAssetGroupIds, highValueAssetGroupId);
      submitted := submitted + [request];
    }

    /** The dialog's Confirm button: close the dialog, then submit the
        request for the checkboxes as they were when the user confirmed. */
    method Confirm() returns (request: ClearDatabaseRequest)
      modifies this`state, this`submitted
      ensures state == Reduce(old(state), CloseDialog)
      ensures !state.openDialog && SameCheckboxes(state, old(state))
      ensures request == BuildRequest(old(state), allAssetGroupIds, highValueAssetGroupId)
      ensures submitted == old(submitted) + [request]
    {
      ghost var before := state;
      Dispatch(CloseDialog);
      CloseDialogSpec(before);
      ConfirmBuildsFromSelection(before, allAssetGroupIds, highValueAssetGroupId);
      request := HandleMutation();
    }

    /** `onSuccess` / `onError` of the deletion call. */
    method OnResult(outcome: Outcome)
      modifies this`state
      ensures state == Reduce(old(state), ResultAction(outcome))
      ensures outcome.Succeeded? ==> !AnySelected(state) && state.showSuccessMessage
      ensures outcome.Failed? ==>
        && state.mutationError && !state.noSelectionError
        && SameCheckboxes(state, old(state))
        && (state.mutationErrorMessage.Some? ==> HasServerErrors(outcome.failure))
    {
      match outcome {
        case Succeeded =>
          SuccessOutcome(state);
        case Failed(f) =>
          FailureOutcome(state, f);
      }
      Dispatch(ResultAction(outcome));
    }
  }

  /** Deleting with nothing selected asks for a selection and keeps the dialog closed. */
  method SessionEmptyDelete()
  {
    var page := new DatabaseManagement([1, 2, 3], 2);
    InitialIsIdle();
    page.RequestConfirmation();
    assert page.state.noSelectionError && !page.state.openDialog;
  }

  /** Selecting both asset-group categories and confirming sends every
      known asset-group id once. */
  method SessionConfirmBoth()
  {
    var page := new DatabaseManagement([1, 2, 3], 2);
    page.HandleCheckbox(AllAssetGroupSelectors, true);
    page.HandleCheckbox(CustomHighValueSelectors, true);
    assert Checked(page.state, AllAssetGroupSelectors);
    page.RequestConfirmation();
    assert page.state.openDialog && !page.state.noSelectionError;
    ghost var confirmed := page.state;
    var request := page.Confirm();
    assert request == BuildRequest(confirmed, [1, 2, 3], 2);
    ExampleBothAssetGroupBoxes(confirmed);
    assert request.deleteAssetGroupSelectors == [1, 2, 3];
  }

  /** A server failure shows its message and keeps the selection; a retry
      that succeeds clears every box and shows the success message. */
  method SessionFailThenRetry(page: DatabaseManagement)
    requires Checked(page.state, AllAssetGroupSelectors)
    modifies page
  {
    var f := MutationFailure(Some(ErrorResponse(500, Some([ApiErrorEntry(Some("disk full"))]))));
    page.OnResult(Failed(f));
    assert page.state.mutationErrorMessage == Some("disk full");
    assert Checked(page.state, AllAssetGroupSelectors);
    page.RequestConfirmation();
    assert page.state.openDialog;
    var request := page.Confirm();
    page.OnResult(Succeeded);
    assert !Checked(page.state, AllAssetGroupSelectors) && page.state.showSuccessMessage;
  }
}
