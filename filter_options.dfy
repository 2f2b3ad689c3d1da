/** The option lists offered by the filter drop-downs:
    `['all', ...Array.from(new Set(values)).sort()]`. */
module FilterOptions {
  import opened Basics
  import opened Seqs
  import opened Sorting

  /** The sentinel meaning "no filter". */
  const All: string := "all"

  /** The code-unit order used by a comparator-less sort() is a total preorder. */
  lemma StrLeTotalPreorder()
    ensures TotalPreorder(StrLe)
  {
    forall a: string, b: string ensures StrLe(a, b) || StrLe(b, a) {
      StrLeTotal(a, b);
    }
    forall a: string, b: string, c: string | StrLe(a, b) && StrLe(b, c) ensures StrLe(a, c) {
      StrLeTransitive(a, b, c);
    }
  }

  /** 'all' followed by the distinct values in ascending code-unit order. */
  function OptionList(values: seq<string>): (r: seq<string>)
    ensures |r| >= 1 && r[0] == All
    ensures Distinct(r[1..])
    ensures Sorted(r[1..], StrLe)
    ensures forall v :: v in r[1..] <==> v in values
  {
    var sorted := SortBy(Dedup(values), StrLe);
    StrLeTotalPreorder();
    SortBySorted(Dedup(values), StrLe);
    SortByDistinct(Dedup(values), StrLe);
    SortByMultiset(Dedup(values), StrLe);
    assert forall v :: v in sorted <==> v in multiset(Dedup(values));
    assert ([All] + sorted)[1..] == sorted;
    [All] + sorted
  }
}
