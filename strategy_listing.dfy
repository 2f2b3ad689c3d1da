/** The public strategy listing (src/app/strategies/page.tsx): the category
    option list, the category filter with the performance sort, clearing the
    filters, and the win-rate and profit-factor highlights. */
module StrategyListing {
  import opened Basics
  import opened Seqs
  import opened Sorting
  import opened Strategies
  import opened FilterOptions

  // ---------------------------------------------------------------------------
  // Category option list
  // ---------------------------------------------------------------------------

  /** `strategies.map(s => s.category).filter(Boolean)`: the categories that
      are present and non-empty, in list order. */
  function TruthyCategories(strategies: seq<TradingStrategy>): (r: seq<string>)
    ensures forall c :: c in r <==> c != "" && exists s :: s in strategies && s.category == Some(c)
  {
    if strategies == [] then []
    else
      var head := strategies[0];
      var rest := TruthyCategories(strategies[1..]);
      assert strategies == [head] + strategies[1..];
      if head.category.Some? && head.category.value != "" then [head.category.value] + rest else rest
  }

  /** `uniqueCategories`: 'all', then every non-empty category exactly once,
      in ascending order. */
  function UniqueCategories(strategies: seq<TradingStrategy>): (r: seq<string>)
    ensures |r| >= 1 && r[0] == All
    ensures Distinct(r[1..]) && Sorted(r[1..], StrLe)
    ensures forall c :: c in r[1..] <==> c != "" && exists s :: s in strategies && s.category == Some(c)
  {
    OptionList(TruthyCategories(strategies))
  }

  // ---------------------------------------------------------------------------
  // Category filter and performance sort
  // ---------------------------------------------------------------------------

  function InCategory(category: string): TradingStrategy -> bool {
    (s: TradingStrategy) => s.category == Some(category)
  }

  /** The list after the category step of `filteredStrategies`. */
  function CategoryFiltered(strategies: seq<TradingStrategy>, categoryFilter: string): seq<TradingStrategy> {
    if categoryFilter != All then Filter(strategies, InCategory(categoryFilter)) else strategies
  }

  /** Comparator `b.performance.winRate - a.performance.winRate`. */
  predicate ByWinRate(a: TradingStrategy, b: TradingStrategy) {
    a.performance.winRate >= b.performance.winRate
  }

  /** Comparator `b.performance.profitFactor - a.performance.profitFactor`. */
  predicate ByProfitFactor(a: TradingStrategy, b: TradingStrategy) {
    a.performance.profitFactor >= b.performance.profitFactor
  }

  /** Comparator `a.name.localeCompare(b.name)`, where `collate(x, y)` says
      that x.localeCompare(y) <= 0. */
  function ByName(collate: (string, string) -> bool): (TradingStrategy, TradingStrategy) -> bool {
    (a: TradingStrategy, b: TradingStrategy) => collate(a.name, b.name)
  }

  /** The comparator chosen by `performanceFilter`. */
  function PerformanceOrder(performanceFilter: string, collate: (string, string) -> bool)
    : (TradingStrategy, TradingStrategy) -> bool
  {
    if performanceFilter == "winRate" then ByWinRate
    else if performanceFilter == "profitFactor" then ByProfitFactor
    else ByName(collate)
  }

  lemma PerformanceOrderTotal(performanceFilter: string, collate: (string, string) -> bool)
    requires TotalPreorder(collate)
    ensures TotalPreorder(PerformanceOrder(performanceFilter, collate))
  {
    if performanceFilter != "winRate" && performanceFilter != "profitFactor" {
      var le := ByName(collate);
      forall a: TradingStrategy, b: TradingStrategy ensures le(a, b) || le(b, a) {
        assert collate(a.name, b.name) || collate(b.name, a.name);
      }
      forall a: TradingStrategy, b: TradingStrategy, c: TradingStrategy | le(a, b) && le(b, c)
        ensures le(a, c)
      {
        assert collate(a.name, b.name) && collate(b.name, c.name);
      }
    }
  }

  /** `filteredStrategies`: the category filter, then the stable sort. */
  function StrategyView(strategies: seq<TradingStrategy>, performanceFilter: string, categoryFilter: string,
                        collate: (string, string) -> bool): seq<TradingStrategy>
  {
    SortBy(CategoryFiltered(strategies, categoryFilter), PerformanceOrder(performanceFilter, collate))
  }

  /** What the view promises: only the chosen category, nothing of it lost,
      and ordered by the chosen metric (names ascending by default). */
  lemma StrategyViewSpec(strategies: seq<TradingStrategy>, performanceFilter: string, categoryFilter: string,
                         collate: (string, string) -> bool)
    requires TotalPreorder(collate)
    ensures var r := StrategyView(strategies, performanceFilter, categoryFilter, collate);
      && |r| <= |strategies|
      && (categoryFilter != All ==> forall s :: s in r ==> s.category == Some(categoryFilter))
      && (forall s :: multiset(r)[s] ==
            if categoryFilter == All || s.category == Some(categoryFilter) then multiset(strategies)[s] else 0)
      && (categoryFilter == All ==> multiset(r) == multiset(strategies))
      && (performanceFilter == "winRate" ==>
            forall i, j :: 0 <= i < j < |r| ==> r[i].performance.winRate >= r[j].performance.winRate)
      && (performanceFilter == "profitFactor" ==>
            forall i, j :: 0 <= i < j < |r| ==> r[i].performance.profitFactor >= r[j].performance.profitFactor)
      && (performanceFilter != "winRate" && performanceFilter != "profitFactor" ==>
            forall i, j :: 0 <= i < j < |r| ==> collate(r[i].name, r[j].name))
  {
    var filtered := CategoryFiltered(strategies, categoryFilter);
    var le := PerformanceOrder(performanceFilter, collate);
    PerformanceOrderTotal(performanceFilter, collate);
    SortBySorted(filtered, le);
    SortByMultiset(filtered, le);
    var r := SortBy(filtered, le);
    if categoryFilter != All {
      FilterMultiset(strategies, InCategory(categoryFilter));
    }
    forall s | s in r ensures s in filtered {
      assert s in multiset(r);
    }
  }

  /** Strategies the chosen comparator ranks equal (e.g. the same win rate)
      keep their original relative order. */
  lemma StrategyViewStable(strategies: seq<TradingStrategy>, performanceFilter: string, categoryFilter: string,
                           collate: (string, string) -> bool, y: TradingStrategy)
    requires TotalPreorder(collate)
    ensures var le := PerformanceOrder(performanceFilter, collate);
      EquivClass(StrategyView(strategies, performanceFilter, categoryFilter, collate), y, le)
      == EquivClass(CategoryFiltered(strategies, categoryFilter), y, le)
  {
    PerformanceOrderTotal(performanceFilter, collate);
    SortByStable(CategoryFiltered(strategies, categoryFilter), y, PerformanceOrder(performanceFilter, collate));
  }

  /** With both filters cleared the view is every strategy, ordered by name. */
  lemma ClearedViewIsAllByName(strategies: seq<TradingStrategy>, collate: (string, string) -> bool)
    requires TotalPreorder(collate)
    ensures var r := StrategyView(strategies, All, All, collate);
      && multiset(r) == multiset(strategies)
      && forall i, j :: 0 <= i < j < |r| ==> collate(r[i].name, r[j].name)
  {
    StrategyViewSpec(strategies, All, All, collate);
  }

  // ---------------------------------------------------------------------------
  // Highlights on a strategy card
  // ---------------------------------------------------------------------------

  datatype BadgeVariant = DefaultBadge | SecondaryBadge | DestructiveBadge

  /** The win-rate badge variant: above 60, above 40, otherwise. */
  function WinRateVariant(winRate: real): (v: BadgeVariant)
    ensures v == DefaultBadge <==> winRate > 60.0
    ensures v == SecondaryBadge <==> 40.0 < winRate <= 60.0
    ensures v == DestructiveBadge <==> winRate <= 40.0
  {
    if winRate > 60.0 then DefaultBadge else if winRate > 40.0 then SecondaryBadge else DestructiveBadge
  }

  const GreenBadge: string := "bg-green-600 text-white hover:bg-green-700"
  const RedBadge: string := "bg-red-600 text-white hover:bg-red-700"

  /** The extra badge classes: green above 60, red at 40 or below. */
  function WinRateHighlight(winRate: real): string {
    if winRate > 60.0 then GreenBadge else if winRate <= 40.0 then RedBadge else ""
  }

  /** The badge colour agrees with its variant. */
  lemma WinRateHighlightMatchesVariant(winRate: real)
    ensures WinRateHighlight(winRate) == GreenBadge <==> WinRateVariant(winRate) == DefaultBadge
    ensures WinRateHighlight(winRate) == RedBadge <==> WinRateVariant(winRate) == DestructiveBadge
    ensures WinRateHighlight(winRate) == "" <==> WinRateVariant(winRate) == SecondaryBadge
  {
  }

  /** The profit-factor text colour: green from 1.5, red below 1, none between. */
  function ProfitFactorColour(profitFactor: real): (c: string)
    ensures c == "text-green-600" <==> profitFactor >= 1.5
    ensures c == "text-red-600" <==> profitFactor < 1.0
    ensures c == "" <==> 1.0 <= profitFactor < 1.5
  {
    if profitFactor >= 1.5 then "text-green-600" else if profitFactor < 1.0 then "text-red-600" else ""
  }

  // ---------------------------------------------------------------------------
  // Page state
  // ---------------------------------------------------------------------------

  class StrategiesPage {
    var strategies: seq<TradingStrategy>
    var performanceFilter: string
    var categoryFilter: string

    /** The page once the fetched strategies are in. */
    constructor (fetched: seq<TradingStrategy>)
      ensures strategies == fetched && performanceFilter == All && categoryFilter == All
    {
      strategies := fetched;
      performanceFilter := All;
      categoryFilter := All;
    }

    method SetPerformanceFilter(value: string)
      modifies this
      ensures performanceFilter == value
      ensures strategies == old(strategies) && categoryFilter == old(categoryFilter)
    {
      performanceFilter := value;
    }

    method SetCategoryFilter(value: string)
      modifies this
      ensures categoryFilter == value
      ensures strategies == old(strategies) && performanceFilter == old(performanceFilter)
    {
      categoryFilter := value;
    }

    /** `clearFilters`: both filters back to 'all'; the list is untouched. */
    method ClearFilters()
      modifies this
      ensures performanceFilter == All && categoryFilter == All
      ensures strategies == old(strategies)
    {
      performanceFilter := All;
      categoryFilter := All;
    }

    /** `filteredStrategies`: copies the list, filters it by category and
        sorts the copy in place. The page's own list is not changed. */
    method FilteredStrategies(collate: (string, string) -> bool) returns (result: seq<TradingStrategy>)
      ensures result == StrategyView(strategies, performanceFilter, categoryFilter, collate)
    {
      var filtered := strategies;
      if categoryFilter != All {
        filtered := Filter(filtered, InCategory(categoryFilter));
      }
      var copy := new TradingStrategy[|filtered|](i requires 0 <= i < |filtered| => filtered[i]);
      assert copy[..] == filtered;
      SortInPlace(copy, PerformanceOrder(performanceFilter, collate));
      result := copy[..];
    }
  }

  /** Clearing twice leaves the page as clearing once does. */
  method ClearFiltersTwice(page: StrategiesPage)
    modifies page
    ensures page.performanceFilter == All && page.categoryFilter == All
    ensures page.strategies == old(page.strategies)
  {
    page.ClearFilters();
    ghost var once := (page.strategies, page.performanceFilter, page.categoryFilter);
    page.ClearFilters();
    assert (page.strategies, page.performanceFilter, page.categoryFilter) == once;
  }
}
