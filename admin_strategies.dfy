/** The admin strategy table (src/app/admin/strategies/page.tsx:67-136): add
    or update from the strategy form, delete, and the dialog, editing and
    submission state. Each asynchronous handler is split at its `await`:
    Begin... is what happens before it, End... what happens after it, with `ok`
    saying whether the awaited call succeeded and `now` the clock reading. */
module AdminStrategies {
  import opened Basics
  import opened Seqs
  import opened Strategies
  import opened StrategyForm

  const DeleteFailedMessage: string := "Could not delete strategy. Please try again."

  /** The action a save attempts: "update" when editing, "add" otherwise. */
  function SaveAction(editing: bool): string {
    if editing then "update" else "add"
  }

  /** The message of a failed save. */
  function SaveFailedMessage(editing: bool): string {
    "Could not " + SaveAction(editing) + " strategy. Please try again."
  }

  // ---------------------------------------------------------------------------
  // Records built from the form
  // ---------------------------------------------------------------------------

  /** `{ ...s, ...data }`: a shallow merge of the submitted fields over the
      stored strategy. `performance` is replaced as a whole; an absent optional
      field leaves the stored one; `backtestStats` is not a form field and is
      kept. */
  function MergeStrategy(s: TradingStrategy, d: StrategyFormData): TradingStrategy {
    TradingStrategy(
      d.id.GetOr(s.id), d.name, d.description, d.performance,
      if d.category.Some? then d.category else s.category,
      s.backtestStats,
      if d.indicatorsUsed.Some? then d.indicatorsUsed else s.indicatorsUsed)
  }

  /** Submitting the edit form unchanged keeps every field the strategy has;
      an optional field it lacks comes back as "" or 0. So the stored
      strategy comes back exactly when it has all four optional fields. */
  lemma MergeEditDefaults(s: TradingStrategy)
    ensures var m := MergeStrategy(s, EditDefaults(s));
      && m.id == s.id && m.name == s.name && m.description == s.description
      && m.backtestStats == s.backtestStats
      && m.performance.winRate == s.performance.winRate
      && m.performance.profitFactor == s.performance.profitFactor
      && m.category == (if s.category.Some? then s.category else Some(""))
      && m.indicatorsUsed == (if s.indicatorsUsed.Some? then s.indicatorsUsed else Some(""))
      && m.performance.sharpeRatio == (if s.performance.sharpeRatio.Some? then s.performance.sharpeRatio else Some(0.0))
      && m.performance.maxDrawdown == (if s.performance.maxDrawdown.Some? then s.performance.maxDrawdown else Some(0.0))
      && (m == s <==> Complete(s))
  {
  }

  /** The mock id `new_${Date.now()}`. */
  function NewId(now: nat): string {
    "new_" + NatToString(now)
  }

  /** Different clock readings give different ids. */
  lemma NewIdInjective(m: nat, n: nat)
    requires NewId(m) == NewId(n)
    ensures m == n
  {
    assert NewId(m)[4..] == NatToString(m);
    assert NewId(n)[4..] == NatToString(n);
    NatToStringInjective(m, n);
  }

  /** `{ ...data, id: ... }`: the added record. */
  function NewStrategy(d: StrategyFormData, now: nat): TradingStrategy {
    TradingStrategy(NewId(now), d.name, d.description, d.performance, d.category, None, d.indicatorsUsed)
  }

  // ---------------------------------------------------------------------------
  // List updates
  // ---------------------------------------------------------------------------

  /** `prev.map(s => s.id === editingId ? { ...s, ...data } : s)`. */
  function UpdateStrategies(strategies: seq<TradingStrategy>, editingId: string, d: StrategyFormData)
    : (r: seq<TradingStrategy>)
    ensures |r| == |strategies|
    ensures forall i :: 0 <= i < |r| && strategies[i].id != editingId ==> r[i] == strategies[i]
    ensures forall i :: 0 <= i < |r| && strategies[i].id == editingId ==>
      && r[i].name == d.name && r[i].description == d.description && r[i].performance == d.performance
      && r[i].id == d.id.GetOr(editingId)
      && r[i].category == (if d.category.Some? then d.category else strategies[i].category)
      && r[i].indicatorsUsed == (if d.indicatorsUsed.Some? then d.indicatorsUsed else strategies[i].indicatorsUsed)
      && r[i].backtestStats == strategies[i].backtestStats
  {
    if strategies == [] then []
    else
      var s := strategies[0];
      var rest := UpdateStrategies(strategies[1..], editingId, d);
      var r := [if s.id == editingId then MergeStrategy(s, d) else s] + rest;
      assert forall i :: 1 <= i < |r| ==> r[i] == rest[i - 1] && strategies[i] == strategies[1..][i - 1];
      r
  }

  /** Updating an id no strategy has leaves the list as it was. */
  lemma UpdateAbsentIsNoop(strategies: seq<TradingStrategy>, editingId: string, d: StrategyFormData)
    requires forall s :: s in strategies ==> s.id != editingId
    ensures UpdateStrategies(strategies, editingId, d) == strategies
  {
    assert forall i :: 0 <= i < |strategies| ==> strategies[i] in strategies;
  }

  /** Saving a strategy's edit form unchanged replaces that strategy by its
      merge with the prefilled values and leaves every other one; the list
      is unchanged exactly when the strategy has all four optional fields. */
  lemma {:induction false} UpdateWithOwnValues(strategies: seq<TradingStrategy>, s: TradingStrategy)
    requires forall t :: t in strategies && t.id == s.id ==> t == s
    ensures var r := UpdateStrategies(strategies, s.id, EditDefaults(s));
      && |r| == |strategies|
      && (forall i :: 0 <= i < |r| ==>
            r[i] == if strategies[i].id == s.id then MergeStrategy(s, EditDefaults(s)) else strategies[i])
      && (Complete(s) ==> r == strategies)
  {
    if strategies != [] {
      UpdateWithOwnValues(strategies[1..], s);
      MergeEditDefaults(s);
      assert strategies == [strategies[0]] + strategies[1..];
    }
  }

  /** The list after a successful submit: update when editing, else append. */
  function SaveStrategies(strategies: seq<TradingStrategy>, editing: Option<TradingStrategy>,
                          d: StrategyFormData, now: nat): (r: seq<TradingStrategy>)
    ensures editing.Some? ==> r == UpdateStrategies(strategies, editing.value.id, d)
    ensures editing.None? ==> |r| == |strategies| + 1 && r[..|strategies|] == strategies
    ensures editing.None? ==> r[|strategies|] == NewStrategy(d, now)
  {
    if editing.Some? then UpdateStrategies(strategies, editing.value.id, d)
    else strategies + [NewStrategy(d, now)]
  }

  predicate HasOtherId(id: string, s: TradingStrategy) {
    s.id != id
  }

  function KeepsOtherIds(id: string): TradingStrategy -> bool {
    (s: TradingStrategy) => HasOtherId(id, s)
  }

  /** `prev.filter(s => s.id !== strategyId)`. */
  function DeleteStrategies(strategies: seq<TradingStrategy>, id: string): seq<TradingStrategy> {
    Filter(strategies, KeepsOtherIds(id))
  }

  /** Delete removes every strategy with the id and keeps every other one, in order. */
  lemma DeleteStrategiesSpec(strategies: seq<TradingStrategy>, id: string)
    ensures forall s :: s in DeleteStrategies(strategies, id) ==> s.id != id
    ensures forall s: TradingStrategy :: s.id != id ==>
      multiset(DeleteStrategies(strategies, id))[s] == multiset(strategies)[s]
    ensures Subseq(DeleteStrategies(strategies, id), strategies)
  {
    FilterIsSubseq(strategies, KeepsOtherIds(id));
    FilterMultiset(strategies, KeepsOtherIds(id));
  }

  /** Deleting an id no strategy has leaves the list as it was. */
  lemma DeleteAbsentIsNoop(strategies: seq<TradingStrategy>, id: string)
    requires forall s :: s in strategies ==> s.id != id
    ensures DeleteStrategies(strategies, id) == strategies
  {
    FilterKeepsAll(strategies, KeepsOtherIds(id));
  }

  // ---------------------------------------------------------------------------
  // Page state
  // ---------------------------------------------------------------------------

  class AdminStrategiesPage {
    var strategies: seq<TradingStrategy>
    var isSubmitting: bool
    var isFormOpen: bool
    var editingStrategy: Option<TradingStrategy>
    var error: Option<string>
    /** The `editingStrategy` that the pending save's closure captured when
        the form was submitted; the save decides update-or-add from it, not
        from whatever the dialog shows when the `await` returns. */
    var submittedEdit: Option<TradingStrategy>

    /** The page once the fetched strategies are in. */
    constructor (fetched: seq<TradingStrategy>)
      ensures strategies == fetched && !isSubmitting && !isFormOpen && editingStrategy.None? && error.None?
      ensures submittedEdit.None?
    {
      strategies := fetched;
      isSubmitting := false;
      isFormOpen := false;
      editingStrategy := None;
      error := None;
      submittedEdit := None;
    }

    /** `openEditDialog`: the form opens on the given strategy. */
    method OpenEditDialog(s: TradingStrategy)
      modifies this
      ensures editingStrategy == Some(s) && isFormOpen
      ensures strategies == old(strategies) && isSubmitting == old(isSubmitting) && error == old(error)
      ensures submittedEdit == old(submittedEdit)
    {
      editingStrategy := Some(s);
      isFormOpen := true;
    }

    /** `openAddDialog`: the form opens empty. */
    method OpenAddDialog()
      modifies this
      ensures editingStrategy.None? && isFormOpen
      ensures strategies == old(strategies) && isSubmitting == old(isSubmitting) && error == old(error)
      ensures submittedEdit == old(submittedEdit)
    {
      editingStrategy := None;
      isFormOpen := true;
    }

    /** The dialog's `onOpenChange`: only the open flag follows. */
    method SetFormOpen(open: bool)
      modifies this
      ensures isFormOpen == open
      ensures strategies == old(strategies) && isSubmitting == old(isSubmitting)
      ensures editingStrategy == old(editingStrategy) && error == old(error)
      ensures submittedEdit == old(submittedEdit)
    {
      isFormOpen := open;
    }

    /** `handleAddOrUpdateStrategy` up to its `await`; the editing state at
        submission is what the rest of the handler sees. */
    method BeginSave()
      modifies this
      ensures isSubmitting && error.None?
      ensures submittedEdit == old(editingStrategy)
      ensures strategies == old(strategies) && isFormOpen == old(isFormOpen)
      ensures editingStrategy == old(editingStrategy)
    {
      isSubmitting := true;
      error := None;
      submittedEdit := editingStrategy;
    }

    /** `handleAddOrUpdateStrategy` after its `await`: the update path iff a
        strategy was being edited at submission, otherwise one record is
        appended; on success the form closes, on failure the error names the
        path; submission ends either way. The dialog may have been closed or
        reopened on another strategy meanwhile: that does not change which
        record is saved. */
    method EndSave(d: StrategyFormData, now: nat, ok: bool)
      modifies this
      ensures !isSubmitting
      ensures ok && old(submittedEdit).Some? ==>
        strategies == UpdateStrategies(old(strategies), old(submittedEdit).value.id, d)
      ensures ok && old(submittedEdit).None? ==> strategies == old(strategies) + [NewStrategy(d, now)]
      ensures ok ==> !isFormOpen && editingStrategy.None? && error == old(error)
      ensures !ok ==> strategies == old(strategies) && error == Some(SaveFailedMessage(old(submittedEdit).Some?))
      ensures !ok ==> isFormOpen == old(isFormOpen) && editingStrategy == old(editingStrategy)
      ensures submittedEdit == old(submittedEdit)
    {
      if ok {
        strategies := SaveStrategies(strategies, submittedEdit, d, now);
        isFormOpen := false;
        editingStrategy := None;
      } else {
        error := Some(SaveFailedMessage(submittedEdit.Some?));
      }
      isSubmitting := false;
    }

    /** `handleDeleteStrategy` up to its `await`. */
    method BeginDelete()
      modifies this
      ensures isSubmitting && error.None?
      ensures strategies == old(strategies) && isFormOpen == old(isFormOpen)
      ensures editingStrategy == old(editingStrategy) && submittedEdit == old(submittedEdit)
    {
      isSubmitting := true;
      error := None;
    }

    /** `handleDeleteStrategy` after its `await`. */
    method EndDelete(id: string, ok: bool)
      modifies this
      ensures !isSubmitting
      ensures ok ==> strategies == DeleteStrategies(old(strategies), id)
      ensures ok ==> !isFormOpen && editingStrategy.None? && error == old(error)
      ensures !ok ==> strategies == old(strategies) && error == Some(DeleteFailedMessage)
      ensures !ok ==> isFormOpen == old(isFormOpen) && editingStrategy == old(editingStrategy)
      ensures submittedEdit == old(submittedEdit)
    {
      if ok {
        strategies := DeleteStrategies(strategies, id);
        isFormOpen := false;
        editingStrategy := None;
      } else {
        error := Some(DeleteFailedMessage);
      }
      isSubmitting := false;
    }
  }

  /** Closing the dialog and opening the add form while an edit is being saved
      does not turn the save into an add: the edited strategy is updated in
      place and no record is appended. */
  method SaveSurvivesDialogSwitch(s: TradingStrategy, d: StrategyFormData, now: nat)
    returns (saved: seq<TradingStrategy>)
    ensures saved == UpdateStrategies([s], s.id, d)
    ensures |saved| == 1
  {
    var page := new AdminStrategiesPage([s]);
    page.OpenEditDialog(s);
    page.BeginSave();
    page.SetFormOpen(false);
    page.OpenAddDialog();
    page.EndSave(d, now, true);
    saved := page.strategies;
  }
}
