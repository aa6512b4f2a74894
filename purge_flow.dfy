/**
  The selective-purge state of the Database Management page: five
  "delete this category" checkboxes, the flags that drive the error,
  success and confirmation-dialog displays, and the reducer that is the
  only way that state changes.
 */
module PurgeFlow {

  datatype Option<T> = None | Some(value: T)

  /** The five checkbox names the page dispatches in a `selection` action. */
  datatype Checkbox =
    | CollectedGraphData
    | CustomHighValueSelectors
    | AllAssetGroupSelectors
    | FileIngestHistory
    | DataQualityHistory

  datatype State = State(
    // the five categories the user may ask to delete
    deleteCollectedGraphData: bool,
    deleteCustomHighValueSelectors: bool,
    deleteAllAssetGroupSelectors: bool,
    deleteFileIngestHistory: bool,
    deleteDataQualityHistory: bool,
    // the alerts shown above the checkboxes
    noSelectionError: bool,
    mutationError: bool,
    mutationErrorMessage: Option<string>,
    showSuccessMessage: bool,
    // whether the confirmation dialog is up
    openDialog: bool)

  datatype Action =
    | NoSelectionError
    | MutationError(message: Option<string>)
    | MutationSuccess
    | Selection(targetName: Checkbox, checked: bool)
    | OpenDialog
    | CloseDialog

  /** The state the page starts in: nothing checked, no message, dialog closed. */
  const Initial: State :=
    State(false, false, false, false, false, false, false, None, false, false)

  /** The value of checkbox `c` in `s`. */
  function Checked(s: State, c: Checkbox): bool
  {
    match c
    case CollectedGraphData => s.deleteCollectedGraphData
    case CustomHighValueSelectors => s.deleteCustomHighValueSelectors
    case AllAssetGroupSelectors => s.deleteAllAssetGroupSelectors
    case FileIngestHistory => s.deleteFileIngestHistory
    case DataQualityHistory => s.deleteDataQualityHistory
  }

  /** Every checkbox has the same value in `a` and `b`. */
  predicate SameCheckboxes(a: State, b: State)
  {
    forall c :: Checked(a, c) == Checked(b, c)
  }

  /** Every field that is not a checkbox has the same value in `a` and `b`. */
  predicate SameFlow(a: State, b: State)
  {
    && a.noSelectionError == b.noSelectionError
    && a.mutationError == b.mutationError
    && a.mutationErrorMessage == b.mutationErrorMessage
    && a.showSuccessMessage == b.showSuccessMessage
    && a.openDialog == b.openDialog
  }

  /** At least one category is selected for deletion. */
  predicate AnySelected(s: State)
  {
    exists c :: Checked(s, c)
  }

  /** The computed-key update `{ ...state, [targetName]: checked }`. */
  function SetChecked(s: State, c: Checkbox, checked: bool): (r: State)
    ensures Checked(r, c) == checked
    ensures forall c' :: c' != c ==> Checked(r, c') == Checked(s, c')
    ensures SameFlow(r, s)
  {
    match c
    case CollectedGraphData => s.(deleteCollectedGraphData := checked)
    case CustomHighValueSelectors => s.(deleteCustomHighValueSelectors := checked)
    case AllAssetGroupSelectors => s.(deleteAllAssetGroupSelectors := checked)
    case FileIngestHistory => s.(deleteFileIngestHistory := checked)
    case DataQualityHistory => s.(deleteDataQualityHistory := checked)
  }

  /** How many entries of `bs` are true. */
  function CountTrue(bs: seq<bool>): (n: nat)
    ensures n <= |bs|
    ensures n == 0 <==> forall i :: 0 <= i < |bs| ==> !bs[i]
  {
    if bs == [] then 0
    else
      assert forall i :: 1 <= i < |bs| ==> bs[i] == bs[1..][i - 1];
      (if bs[0] then 1 else 0) + CountTrue(bs[1..])
  }

  /** The checkbox values in the order `open_dialog` lists them. */
  function SelectionFlags(s: State): seq<bool>
  {
    [ s.deleteCollectedGraphData,
      s.deleteDataQualityHistory,
      s.deleteFileIngestHistory,
      s.deleteAllAssetGroupSelectors,
      s.deleteCustomHighValueSelectors ]
  }

  /** The `noSelection` test of `open_dialog`: no checkbox is set. */
  function NoSelection(s: State): (b: bool)
    ensures b <==> !AnySelected(s)
  {
    var flags := SelectionFlags(s);
    assert !AnySelected(s) <==> forall i :: 0 <= i < |flags| ==> !flags[i] by {
      assert Checked(s, CollectedGraphData) == flags[0];
      assert Checked(s, DataQualityHistory) == flags[1];
      assert Checked(s, FileIngestHistory) == flags[2];
      assert Checked(s, AllAssetGroupSelectors) == flags[3];
      assert Checked(s, CustomHighValueSelectors) == flags[4];
    }
    CountTrue(flags) == 0
  }

  /** The reducer: the next state after dispatching `a` in `s`. */
  function Reduce(s: State, a: Action): State
  {
    match a
    case NoSelectionError =>
      s.(noSelectionError := true, mutationError := false)
    case MutationError(message) =>
      s.(mutationError := true, noSelectionError := false, mutationErrorMessage := message)
    case MutationSuccess =>
      s.(deleteCollectedGraphData := false,
         deleteCustomHighValueSelectors := false,
         deleteAllAssetGroupSelectors := false,
         deleteDataQualityHistory := false,
         deleteFileIngestHistory := false,
         showSuccessMessage := true)
    case Selection(targetName, checked) =>
      SetChecked(s, targetName, checked).(noSelectionError := false)
    case OpenDialog =>
      if NoSelection(s) then s.(noSelectionError := true)
      else s.(noSelectionError := false, openDialog := true)
    case CloseDialog =>
      s.(openDialog := false)
  }

  /** The state after dispatching `actions` one after another, starting in `s`. */
  function Run(s: State, actions: seq<Action>): State
    decreases |actions|
  {
    if actions == [] then s else Run(Reduce(s, actions[0]), actions[1..])
  }

  // ---------------------------------------------------------------------
  // What each action does
  // ---------------------------------------------------------------------

  /** The initial state has nothing selected and no flag raised. */
  lemma InitialIsIdle()
    ensures !AnySelected(Initial)
    ensures !Initial.noSelectionError && !Initial.mutationError && !Initial.showSuccessMessage
    ensures !Initial.openDialog && Initial.mutationErrorMessage == None
  {
    assert forall c :: !Checked(Initial, c);
  }

  /** `selection` sets exactly the named checkbox and clears the
      no-selection error; nothing else changes. */
  lemma SelectionSpec(s: State, c: Checkbox, checked: bool)
    ensures var r := Reduce(s, Selection(c, checked));
      && Checked(r, c) == checked
      && (forall c' :: c' != c ==> Checked(r, c') == Checked(s, c'))
      && !r.noSelectionError
      && r.mutationError == s.mutationError
      && r.mutationErrorMessage == s.mutationErrorMessage
      && r.showSuccessMessage == s.showSuccessMessage
      && r.openDialog == s.openDialog
  {
    var t := SetChecked(s, c, checked);
    assert Reduce(s, Selection(c, checked)) == t.(noSelectionError := false);
    assert forall c' :: Checked(t.(noSelectionError := false), c') == Checked(t, c');
  }

  /** `open_dialog` opens the dialog and clears the no-selection error
      exactly when some checkbox is set; otherwise it raises the
      no-selection error and leaves everything else as it was. */
  lemma OpenDialogSpec(s: State)
    ensures var r := Reduce(s, OpenDialog);
      && SameCheckboxes(r, s)
      && (r.noSelectionError <==> !AnySelected(s))
      && (AnySelected(s) ==> r.openDialog)
      && (!AnySelected(s) ==> r == s.(noSelectionError := true))
      && r.mutationError == s.mutationError
      && r.mutationErrorMessage == s.mutationErrorMessage
      && r.showSuccessMessage == s.showSuccessMessage
  {
    var r := Reduce(s, OpenDialog);
    if NoSelection(s) {
      assert r == s.(noSelectionError := true);
    } else {
      assert r == s.(noSelectionError := false, openDialog := true);
    }
    assert forall c :: Checked(r, c) == Checked(s, c);
  }

  /** From a closed dialog, `open_dialog` opens it iff something is selected. */
  lemma OpenDialogOpensIffSelected(s: State)
    requires !s.openDialog
    ensures Reduce(s, OpenDialog).openDialog <==> AnySelected(s)
  {
  }

  /** `close_dialog` closes the dialog and changes nothing else. */
  lemma CloseDialogSpec(s: State)
    ensures var r := Reduce(s, CloseDialog);
      !r.openDialog && SameCheckboxes(r, s)
      && r.noSelectionError == s.noSelectionError
      && r.mutationError == s.mutationError
      && r.mutationErrorMessage == s.mutationErrorMessage
      && r.showSuccessMessage == s.showSuccessMessage
  {
  }

  /** Closing twice is closing once. */
  lemma CloseDialogIdempotent(s: State)
    ensures Reduce(Reduce(s, CloseDialog), CloseDialog) == Reduce(s, CloseDialog)
  {
  }

  /** `no_selection_error` raises its flag and clears the mutation error;
      the checkboxes, the message, the success flag and the dialog stay. */
  lemma NoSelectionErrorSpec(s: State)
    ensures var r := Reduce(s, NoSelectionError);
      && r.noSelectionError && !r.mutationError
      && SameCheckboxes(r, s)
      && r.mutationErrorMessage == s.mutationErrorMessage
      && r.showSuccessMessage == s.showSuccessMessage
      && r.openDialog == s.openDialog
  {
  }

  /** `mutation_error` raises its flag, clears the no-selection error and
      stores exactly the message it carries, present or absent. */
  lemma MutationErrorSpec(s: State, message: Option<string>)
    ensures var r := Reduce(s, MutationError(message));
      && r.mutationError && !r.noSelectionError
      && r.mutationErrorMessage == message
      && SameCheckboxes(r, s)
      && r.showSuccessMessage == s.showSuccessMessage
      && r.openDialog == s.openDialog
  {
  }

  /** `mutation_success` unchecks every box and shows the success message;
      the error flags, the message and the dialog are untouched. */
  lemma MutationSuccessSpec(s: State)
    ensures var r := Reduce(s, MutationSuccess);
      && (forall c :: !Checked(r, c))
      && !AnySelected(r)
      && r.showSuccessMessage
      && r.noSelectionError == s.noSelectionError
      && r.mutationError == s.mutationError
      && r.mutationErrorMessage == s.mutationErrorMessage
      && r.openDialog == s.openDialog
  {
  }

  /** Immediately after either error action the two error flags are not both set. */
  lemma ErrorActionsExclusive(s: State, a: Action)
    requires a.NoSelectionError? || a.MutationError?
    ensures var r := Reduce(s, a); !(r.noSelectionError && r.mutationError)
  {
  }

  // ---------------------------------------------------------------------
  // Sequences of actions
  // ---------------------------------------------------------------------

  /** The two error flags are NOT exclusive in general: a failed submission
      followed by a confirmation attempt with nothing selected sets both,
      because `open_dialog` never clears the mutation error. */
  lemma ErrorFlagsCanCoexist()
    ensures var r := Run(Initial, [MutationError(None), OpenDialog]);
      r.noSelectionError && r.mutationError
  {
    assert NoSelection(Reduce(Initial, MutationError(None)));
  }

  /** Once shown, the success message stays: no action hides it again. */
  lemma {:induction false} SuccessMessagePersists(s: State, actions: seq<Action>)
    requires s.showSuccessMessage
    ensures Run(s, actions).showSuccessMessage
    decreases |actions|
  {
    if actions != [] {
      SuccessFlagAfter(s, actions[0]);
      SuccessMessagePersists(Reduce(s, actions[0]), actions[1..]);
    }
  }

  /** After one action the success message shows iff it showed before or
      the action is `mutation_success`. */
  lemma SuccessFlagAfter(s: State, a: Action)
    ensures Reduce(s, a).showSuccessMessage <==> s.showSuccessMessage || a.MutationSuccess?
  {
    match a {
      case NoSelectionError =>
      case MutationError(_) =>
      case MutationSuccess =>
      case Selection(c, checked) =>
      case OpenDialog =>
      case CloseDialog =>
    }
  }

  /** Only `selection` and `mutation_success` touch the checkboxes; any run
      of other actions, in particular a failed submission, leaves every
      selection as it was. */
  lemma {:induction false} CheckboxesStable(s: State, actions: seq<Action>)
    requires forall i :: 0 <= i < |actions| ==> !actions[i].Selection? && !actions[i].MutationSuccess?
    ensures SameCheckboxes(Run(s, actions), s)
    decreases |actions|
  {
    if actions != [] {
      var next := Reduce(s, actions[0]);
      KeepsCheckboxes(s, actions[0]);
      assert forall i :: 1 <= i < |actions| ==> actions[1..][i - 1] == actions[i];
      CheckboxesStable(next, actions[1..]);
    }
  }

  /** One action other than `selection` and `mutation_success` keeps the checkboxes. */
  lemma KeepsCheckboxes(s: State, a: Action)
    requires !a.Selection? && !a.MutationSuccess?
    ensures SameCheckboxes(Reduce(s, a), s)
  {
    var r := Reduce(s, a);
    match a {
      case NoSelectionError =>
        assert r == s.(noSelectionError := true, mutationError := false);
      case MutationError(message) =>
        assert r == s.(mutationError := true, noSelectionError := false, mutationErrorMessage := message);
      case OpenDialog =>
        OpenDialogSpec(s);
      case CloseDialog =>
        assert r == s.(openDialog := false);
    }
    assert forall c :: Checked(r, c) == Checked(s, c);
  }

  /** Whatever happened before, unchecking every box leaves nothing selected,
      and a confirmation attempt then raises the no-selection error without
      opening a closed dialog. */
  lemma {:induction false} UncheckAllThenOpen(s: State)
    requires !s.openDialog
    ensures var cleared := Run(s, [ Selection(CollectedGraphData, false),
                                    Selection(CustomHighValueSelectors, false),
                                    Selection(AllAssetGroupSelectors, false),
                                    Selection(FileIngestHistory, false),
                                    Selection(DataQualityHistory, false) ]);
      && !AnySelected(cleared)
      && var r := Reduce(cleared, OpenDialog); r.noSelectionError && !r.openDialog
  {
    var s1 := Reduce(s, Selection(CollectedGraphData, false));
    var s2 := Reduce(s1, Selection(CustomHighValueSelectors, false));
    var s3 := Reduce(s2, Selection(AllAssetGroupSelectors, false));
    var s4 := Reduce(s3, Selection(FileIngestHistory, false));
    var s5 := Reduce(s4, Selection(DataQualityHistory, false));
    assert forall c :: !Checked(s5, c);
  }
}
