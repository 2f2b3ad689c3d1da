/** The full signal history (src/components/signal-history.tsx): the asset and
    strategy option lists, the asset / strategy / date-window filter with the
    newest-first sort, and clearing the filters. Dates are epoch milliseconds;
    an unset date picker is None. */
module SignalHistory {
  import opened Basics
  import opened Seqs
  import opened Sorting
  import opened FilterOptions
  import opened TradingSignals

  /** One day in milliseconds, added to the end date so the whole day is included. */
  const DayMs: int := 24 * 60 * 60 * 1000

  // ---------------------------------------------------------------------------
  // Option lists
  // ---------------------------------------------------------------------------

  function AssetsOf(signals: seq<TradingSignal>): (r: seq<string>)
    ensures |r| == |signals|
    ensures forall i :: 0 <= i < |r| ==> r[i] == signals[i].asset
  {
    if signals == [] then [] else [signals[0].asset] + AssetsOf(signals[1..])
  }

  function StrategyIdsOf(signals: seq<TradingSignal>): (r: seq<string>)
    ensures |r| == |signals|
    ensures forall i :: 0 <= i < |r| ==> r[i] == signals[i].strategyId
  {
    if signals == [] then [] else [signals[0].strategyId] + StrategyIdsOf(signals[1..])
  }

  /** `uniqueAssets`: 'all', then every asset once, ascending; an empty asset
      name is kept. */
  function UniqueAssets(signals: seq<TradingSignal>): (r: seq<string>)
    ensures |r| >= 1 && r[0] == All
    ensures Distinct(r[1..]) && Sorted(r[1..], StrLe)
    ensures forall a :: a in r[1..] <==> exists s :: s in signals && s.asset == a
  {
    var assets := AssetsOf(signals);
    assert forall a :: a in assets <==> exists s :: s in signals && s.asset == a by {
      forall a | a in assets ensures exists s :: s in signals && s.asset == a {
        var i :| 0 <= i < |assets| && assets[i] == a;
        assert signals[i] in signals;
      }
      forall s | s in signals ensures s.asset in assets {
        var i :| 0 <= i < |signals| && signals[i] == s;
        assert assets[i] == s.asset;
      }
    }
    OptionList(assets)
  }

  /** `uniqueStrategies`: 'all', then every strategy id once, ascending. */
  function UniqueStrategies(signals: seq<TradingSignal>): (r: seq<string>)
    ensures |r| >= 1 && r[0] == All
    ensures Distinct(r[1..]) && Sorted(r[1..], StrLe)
    ensures forall id :: id in r[1..] <==> exists s :: s in signals && s.strategyId == id
  {
    var ids := StrategyIdsOf(signals);
    assert forall id :: id in ids <==> exists s :: s in signals && s.strategyId == id by {
      forall id | id in ids ensures exists s :: s in signals && s.strategyId == id {
        var i :| 0 <= i < |ids| && ids[i] == id;
        assert signals[i] in signals;
      }
      forall s | s in signals ensures s.strategyId in ids {
        var i :| 0 <= i < |signals| && signals[i] == s;
        assert ids[i] == s.strategyId;
      }
    }
    OptionList(ids)
  }

  // ---------------------------------------------------------------------------
  // Filter and sort
  // ---------------------------------------------------------------------------

  /** The four filter controls. */
  datatype Filters = Filters(asset: string, strategy: string, startDate: Option<int>, endDate: Option<int>)

  /** Every control at its initial value. */
  const Cleared: Filters := Filters(All, All, None, None)

  /** The filter callback: all four criteria hold. The end date admits the
      whole day that starts at it. */
  predicate Matches(f: Filters, s: TradingSignal) {
    && (f.asset == All || s.asset == f.asset)
    && (f.strategy == All || s.strategyId == f.strategy)
    && (f.startDate.None? || s.timestamp >= f.startDate.value)
    && (f.endDate.None? || s.timestamp < f.endDate.value + DayMs)
  }

  function MatchesFilters(f: Filters): TradingSignal -> bool {
    (s: TradingSignal) => Matches(f, s)
  }

  /** `filteredSignals`: the matching signals, newest first. */
  function FilteredSignals(signals: seq<TradingSignal>, f: Filters): seq<TradingSignal> {
    SortBy(Filter(signals, MatchesFilters(f)), NewerOrSame)
  }

  /** Every shown signal passes each criterion, every passing signal is shown
      as often as it occurs, and the list runs newest first. */
  lemma FilteredSignalsSpec(signals: seq<TradingSignal>, f: Filters)
    ensures var r := FilteredSignals(signals, f);
      && (forall s :: s in r ==>
            && (f.asset == All || s.asset == f.asset)
            && (f.strategy == All || s.strategyId == f.strategy)
            && (f.startDate.Some? ==> s.timestamp >= f.startDate.value)
            && (f.endDate.Some? ==> s.timestamp < f.endDate.value + 86400000))
      && (forall s :: multiset(r)[s] == if Matches(f, s) then multiset(signals)[s] else 0)
      && (forall i, j :: 0 <= i < j < |r| ==> r[i].timestamp >= r[j].timestamp)
  {
    var kept := Filter(signals, MatchesFilters(f));
    FilterMultiset(signals, MatchesFilters(f));
    NewerOrSameTotalPreorder();
    SortBySorted(kept, NewerOrSame);
    SortByMultiset(kept, NewerOrSame);
    var r := SortBy(kept, NewerOrSame);
    forall s | s in r ensures Matches(f, s) {
      assert s in multiset(r);
    }
  }

  /** With every control at its default nothing is dropped: the view is a
      permutation of all signals. */
  lemma ClearedFiltersKeepAll(signals: seq<TradingSignal>)
    ensures multiset(FilteredSignals(signals, Cleared)) == multiset(signals)
  {
    FilterKeepsAll(signals, MatchesFilters(Cleared));
    SortByMultiset(signals, NewerOrSame);
  }

  /** Signals with the same timestamp keep their relative order. */
  lemma FilteredSignalsStable(signals: seq<TradingSignal>, f: Filters, y: TradingSignal)
    ensures EquivClass(FilteredSignals(signals, f), y, NewerOrSame)
         == EquivClass(Filter(signals, MatchesFilters(f)), y, NewerOrSame)
  {
    NewerOrSameTotalPreorder();
    SortByStable(Filter(signals, MatchesFilters(f)), y, NewerOrSame);
  }

  // ---------------------------------------------------------------------------
  // Page state
  // ---------------------------------------------------------------------------

  class SignalHistoryView {
    var signals: seq<TradingSignal>
    var filters: Filters

    /** The view once the fetched signals are in. */
    constructor (fetched: seq<TradingSignal>)
      ensures signals == fetched && filters == Cleared
    {
      signals := fetched;
      filters := Cleared;
    }

    method SetAssetFilter(value: string)
      modifies this
      ensures filters == old(filters).(asset := value) && signals == old(signals)
    {
      filters := filters.(asset := value);
    }

    method SetStrategyFilter(value: string)
      modifies this
      ensures filters == old(filters).(strategy := value) && signals == old(signals)
    {
      filters := filters.(strategy := value);
    }

    method SetStartDate(value: Option<int>)
      modifies this
      ensures filters == old(filters).(startDate := value) && signals == old(signals)
    {
      filters := filters.(startDate := value);
    }

    method SetEndDate(value: Option<int>)
      modifies this
      ensures filters == old(filters).(endDate := value) && signals == old(signals)
    {
      filters := filters.(endDate := value);
    }

    /** `clearFilters`: asset and strategy back to 'all', both dates unset. */
    method ClearFilters()
      modifies this
      ensures filters.asset == All && filters.strategy == All
      ensures filters.startDate.None? && filters.endDate.None?
      ensures signals == old(signals)
    {
      filters := filters.(asset := All);
      filters := filters.(strategy := All);
      filters := filters.(startDate := None);
      filters := filters.(endDate := None);
    }
  }

  /** Clearing twice leaves the view as clearing once does, and the cleared
      view shows every signal. */
  method ClearFiltersTwice(view: SignalHistoryView)
    modifies view
    ensures view.filters == Cleared && view.signals == old(view.signals)
    ensures multiset(FilteredSignals(view.signals, view.filters)) == multiset(view.signals)
  {
    view.ClearFilters();
    ghost var once := (view.signals, view.filters);
    view.ClearFilters();
    assert (view.signals, view.filters) == once;
    ClearedFiltersKeepAll(view.signals);
  }
}
