/**
  What the page hands to the deletion API: the `ClearDatabaseRequest`
  built from the checkboxes when the user confirms, and the action the
  page dispatches when the deletion call comes back.
 */
module PurgeRequest {
  import opened PurgeFlow
  import opened IdLists

  datatype ClearDatabaseRequest = ClearDatabaseRequest(
    deleteCollectedGraphData: bool,
    deleteDataQualityHistory: bool,
    deleteFileIngestHistory: bool,
    deleteAssetGroupSelectors: seq<int>)

  /** The asset-group ids collected before de-duplication: all known ids
      when "all asset group selectors" is checked, else the tier-zero id
      when "custom high value selectors" is checked, else none. */
  function CollectAssetGroupIds(s: State, allAssetGroupIds: seq<int>, highValueAssetGroupId: int): seq<int>
  {
    if s.deleteAllAssetGroupSelectors then allAssetGroupIds
    else if s.deleteCustomHighValueSelectors then [highValueAssetGroupId]
    else []
  }

  /** The request `handleMutation` submits for the checkbox state `s`. */
  function BuildRequest(s: State, allAssetGroupIds: seq<int>, highValueAssetGroupId: int): ClearDatabaseRequest
  {
    ClearDatabaseRequest(
      s.deleteCollectedGraphData,
      s.deleteDataQualityHistory,
      s.deleteFileIngestHistory,
      Dedupe(CollectAssetGroupIds(s, allAssetGroupIds, highValueAssetGroupId)))
  }

  /** What the request asks to delete. */
  lemma BuildRequestSpec(s: State, allAssetGroupIds: seq<int>, highValueAssetGroupId: int)
    ensures var r := BuildRequest(s, allAssetGroupIds, highValueAssetGroupId);
      // the three plain categories are forwarded unchanged
      && r.deleteCollectedGraphData == s.deleteCollectedGraphData
      && r.deleteDataQualityHistory == s.deleteDataQualityHistory
      && r.deleteFileIngestHistory == s.deleteFileIngestHistory
      // the id list never repeats an id
      && NoDuplicates(r.deleteAssetGroupSelectors)
      // "all asset group selectors" wins over "custom high value selectors"
      && (s.deleteAllAssetGroupSelectors ==>
            && (forall x :: x in r.deleteAssetGroupSelectors <==> x in allAssetGroupIds)
            && FirstOccurrenceOrder(allAssetGroupIds, r.deleteAssetGroupSelectors)
            && |r.deleteAssetGroupSelectors| <= |allAssetGroupIds|)
      && (!s.deleteAllAssetGroupSelectors && s.deleteCustomHighValueSelectors ==>
            r.deleteAssetGroupSelectors == [highValueAssetGroupId])
      && (!s.deleteAllAssetGroupSelectors && !s.deleteCustomHighValueSelectors ==>
            r.deleteAssetGroupSelectors == [])
  {
    var ids := CollectAssetGroupIds(s, allAssetGroupIds, highValueAssetGroupId);
    DedupeSpec(ids);
    if !s.deleteAllAssetGroupSelectors {
      assert NoDuplicates(ids);
      DedupeOfDistinct(ids);
    }
  }

  /** The id list is empty exactly when no asset-group checkbox is set, or
      when "all" is set and there are no asset groups. */
  lemma NoIdsIff(s: State, allAssetGroupIds: seq<int>, highValueAssetGroupId: int)
    ensures BuildRequest(s, allAssetGroupIds, highValueAssetGroupId).deleteAssetGroupSelectors == [] <==>
      (!s.deleteAllAssetGroupSelectors && !s.deleteCustomHighValueSelectors)
      || (s.deleteAllAssetGroupSelectors && allAssetGroupIds == [])
  {
    var r := BuildRequest(s, allAssetGroupIds, highValueAssetGroupId);
    BuildRequestSpec(s, allAssetGroupIds, highValueAssetGroupId);
    if s.deleteAllAssetGroupSelectors && allAssetGroupIds != [] {
      assert allAssetGroupIds[0] in allAssetGroupIds;
      assert allAssetGroupIds[0] in r.deleteAssetGroupSelectors;
    }
  }

  /** With "all" checked the ids are exactly `dedupe(allAssetGroupIds)`,
      whatever the custom checkbox says; the tier-zero id is sent only if
      it is one of the known ids. */
  lemma AllSelectorsIgnoresCustom(s: State, allAssetGroupIds: seq<int>, highValueAssetGroupId: int)
    requires s.deleteAllAssetGroupSelectors
    ensures var r := BuildRequest(s, allAssetGroupIds, highValueAssetGroupId);
      && r.deleteAssetGroupSelectors == Dedupe(allAssetGroupIds)
      && r == BuildRequest(s.(deleteCustomHighValueSelectors := !s.deleteCustomHighValueSelectors),
                           allAssetGroupIds, highValueAssetGroupId)
      && (highValueAssetGroupId in r.deleteAssetGroupSelectors <==> highValueAssetGroupId in allAssetGroupIds)
  {
    DedupeSpec(allAssetGroupIds);
  }

  /** Closing the dialog does not change the checkboxes, so building the
      request from the state before or after `close_dialog` is the same. */
  lemma ConfirmBuildsFromSelection(s: State, allAssetGroupIds: seq<int>, highValueAssetGroupId: int)
    ensures BuildRequest(Reduce(s, CloseDialog), allAssetGroupIds, highValueAssetGroupId)
         == BuildRequest(s, allAssetGroupIds, highValueAssetGroupId)
  {
  }

  /** Both asset-group boxes checked, ids [1, 2, 3], tier zero 2: the ids sent are [1, 2, 3]. */
  lemma ExampleBothAssetGroupBoxes(s: State)
    requires s.deleteAllAssetGroupSelectors && s.deleteCustomHighValueSelectors
    ensures BuildRequest(s, [1, 2, 3], 2).deleteAssetGroupSelectors == [1, 2, 3]
  {
    assert NoDuplicates([1, 2, 3]);
    DedupeOfDistinct([1, 2, 3]);
  }

  /** Only the custom box checked, tier zero 2: the ids sent are [2]. */
  lemma ExampleCustomOnly()
    ensures BuildRequest(Initial.(deleteCustomHighValueSelectors := true), [1, 2, 3], 2).deleteAssetGroupSelectors == [2]
  {
  }

  // ---------------------------------------------------------------------
  // The result of the deletion call
  // ---------------------------------------------------------------------

  /** One entry of the `errors` list of an error response. */
  datatype ApiErrorEntry = ApiErrorEntry(message: Option<string>)

  /** An HTTP error response: its status and, when the body has one, its `errors` list. */
  datatype ErrorResponse = ErrorResponse(status: int, errors: Option<seq<ApiErrorEntry>>)

  /** The error the deletion call failed with; a failure without a response
      (a network error) has `response == None`. */
  datatype MutationFailure = MutationFailure(response: Option<ErrorResponse>)

  datatype Outcome = Succeeded | Failed(failure: MutationFailure)

  /** The failure is an HTTP 500 whose body carries a non-empty `errors` list. */
  predicate HasServerErrors(f: MutationFailure)
  {
    && f.response.Some?
    && f.response.value.status == 500
    && f.response.value.errors.Some?
    && |f.response.value.errors.value| > 0
  }

  /** `onError`: the `mutation_error` action dispatched for failure `f`. */
  function FailureAction(f: MutationFailure): (a: Action)
    ensures a.MutationError?
    ensures a.message.Some? ==> HasServerErrors(f)
    ensures HasServerErrors(f) ==> a.message == f.response.value.errors.value[0].message
  {
    if HasServerErrors(f) then MutationError(f.response.value.errors.value[0].message)
    else MutationError(None)
  }

  /** The action the page dispatches when the deletion call comes back. */
  function ResultAction(o: Outcome): (a: Action)
    ensures o.Succeeded? <==> a.MutationSuccess?
    ensures o.Failed? ==> a.MutationError?
  {
    match o
    case Succeeded => MutationSuccess
    case Failed(f) => FailureAction(f)
  }

  /** A failed deletion raises the mutation error, stores the first server
      message only for a 500 with a non-empty error list, clears the
      no-selection error and keeps every selection so the user can retry. */
  lemma FailureOutcome(s: State, f: MutationFailure)
    ensures var r := Reduce(s, ResultAction(Failed(f)));
      && r.mutationError && !r.noSelectionError
      && SameCheckboxes(r, s)
      && (r.mutationErrorMessage.Some? ==> HasServerErrors(f))
      && (HasServerErrors(f) ==> r.mutationErrorMessage == f.response.value.errors.value[0].message)
      && r.showSuccessMessage == s.showSuccessMessage
      && r.openDialog == s.openDialog
  {
  }

  /** A successful deletion unchecks every box and shows the success message. */
  lemma SuccessOutcome(s: State)
    ensures var r := Reduce(s, ResultAction(Succeeded));
      && !AnySelected(r) && r.showSuccessMessage
      && r.mutationError == s.mutationError
      && r.noSelectionError == s.noSelectionError
      && r.openDialog == s.openDialog
  {
  }

  /** A failure followed by a successful retry leaves the mutation error
      raised next to the success message, since `mutation_success` does
      not clear it. */
  lemma FailThenSuccessKeepsError(s: State, f: MutationFailure)
    ensures var r := Run(s, [ResultAction(Failed(f)), ResultAction(Succeeded)]);
      r.mutationError && r.showSuccessMessage && !AnySelected(r)
  {
    var actions := [ResultAction(Failed(f)), ResultAction(Succeeded)];
    var t := Reduce(s, actions[0]);
    FailureOutcome(s, f);
    SuccessOutcome(t);
    assert actions[1..] == [ResultAction(Succeeded)];
    assert Run(t, actions[1..]) == Run(Reduce(t, ResultAction(Succeeded)), []);
  }

  /** A 500 with errors [{message: "disk full"}] shows "disk full". */
  lemma ExampleDiskFull(s: State)
    ensures var f := MutationFailure(Some(ErrorResponse(500, Some([ApiErrorEntry(Some("disk full"))]))));
      var r := Reduce(s, ResultAction(Failed(f)));
      r.mutationError && r.mutationErrorMessage == Some("disk full") && SameCheckboxes(r, s)
  {
  }

  /** Any status other than 500 carries no message, whatever the body says. */
  lemma OtherStatusHasNoMessage(f: MutationFailure)
    requires f.response.Some? && f.response.value.status != 500
    ensures FailureAction(f) == MutationError(None)
  {
  }
}
