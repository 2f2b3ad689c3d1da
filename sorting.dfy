/** Array.prototype.sort with a comparator. Since ES2019 the sort is stable,
    so for a comparator that is a total preorder its result is determined:
    it is the insertion sort SortBy below. SortInPlace is the in-place
    version used where the source sorts an array it owns. */
module Sorting {
  import opened Seqs

  /** `le(a, b)` means the comparator allows a to stay before b
      (the comparator returns a value <= 0). */
  ghost predicate TotalPreorder<T(!new)>(le: (T, T) -> bool) {
    && (forall x, y :: le(x, y) || le(y, x))
    && (forall x, y, z :: le(x, y) && le(y, z) ==> le(x, z))
  }

  predicate Sorted<T>(s: seq<T>, le: (T, T) -> bool) {
    forall i, j :: 0 <= i < j < |s| ==> le(s[i], s[j])
  }

  /** Inserts x into t after every element that may precede it,
      scanning from the right end, as a stable insertion does. */
  function Insert<T>(t: seq<T>, x: T, le: (T, T) -> bool): (r: seq<T>)
    ensures |r| == |t| + 1
  {
    if t == [] then [x]
    else if le(t[|t| - 1], x) then t + [x]
    else Insert(t[..|t| - 1], x, le) + [t[|t| - 1]]
  }

  /** The stable sort of s under le. */
  function SortBy<T>(s: seq<T>, le: (T, T) -> bool): (r: seq<T>)
    ensures |r| == |s|
  {
    if s == [] then []
    else Insert(SortBy(s[..|s| - 1], le), s[|s| - 1], le)
  }

  /** Insertion adds exactly x and loses nothing. */
  lemma {:induction false} InsertMultiset<T>(t: seq<T>, x: T, le: (T, T) -> bool)
    ensures multiset(Insert(t, x, le)) == multiset(t) + multiset{x}
  {
    if t != [] && !le(t[|t| - 1], x) {
      InsertMultiset(t[..|t| - 1], x, le);
      assert t == t[..|t| - 1] + [t[|t| - 1]];
    }
  }

  /** The sort's result is a permutation of its input. */
  lemma {:induction false} SortByMultiset<T>(s: seq<T>, le: (T, T) -> bool)
    ensures multiset(SortBy(s, le)) == multiset(s)
  {
    if s != [] {
      SortByMultiset(s[..|s| - 1], le);
      InsertMultiset(SortBy(s[..|s| - 1], le), s[|s| - 1], le);
      assert s == s[..|s| - 1] + [s[|s| - 1]];
    }
  }

  lemma {:induction false} InsertSorted<T(!new)>(t: seq<T>, x: T, le: (T, T) -> bool)
    requires TotalPreorder(le)
    requires Sorted(t, le)
    ensures Sorted(Insert(t, x, le), le)
  {
    if t == [] {
    } else if le(t[|t| - 1], x) {
      var r := t + [x];
      forall i, j | 0 <= i < j < |r| ensures le(r[i], r[j]) {
        if j == |t| && i < |t| - 1 {
          assert le(t[i], t[|t| - 1]);
        }
      }
    } else {
      var t', last := t[..|t| - 1], t[|t| - 1];
      InsertSorted(t', x, le);
      InsertMultiset(t', x, le);
      var r' := Insert(t', x, le);
      var r := r' + [last];
      assert le(x, last);
      forall i, j | 0 <= i < j < |r| ensures le(r[i], r[j]) {
        if j == |r'| {
          assert r[i] in multiset(r');
          assert r[i] in multiset(t') || r[i] == x;
          if r[i] != x {
            var k :| 0 <= k < |t'| && t'[k] == r[i];
            assert le(t[k], t[|t| - 1]);
          }
        }
      }
    }
  }

  /** The sort's result is ordered by le. */
  lemma {:induction false} SortBySorted<T(!new)>(s: seq<T>, le: (T, T) -> bool)
    requires TotalPreorder(le)
    ensures Sorted(SortBy(s, le), le)
  {
    if s != [] {
      SortBySorted(s[..|s| - 1], le);
      InsertSorted(SortBy(s[..|s| - 1], le), s[|s| - 1], le);
    }
  }

  // ---------------------------------------------------------------------------
  // Stability: elements the comparator cannot tell apart keep their order
  // ---------------------------------------------------------------------------

  predicate Equiv<T>(le: (T, T) -> bool, a: T, b: T) {
    le(a, b) && le(b, a)
  }

  /** The elements of s that le cannot tell apart from y, in order. */
  function EquivClass<T>(s: seq<T>, y: T, le: (T, T) -> bool): seq<T> {
    if s == [] then []
    else EquivClass(s[..|s| - 1], y, le) + (if Equiv(le, s[|s| - 1], y) then [s[|s| - 1]] else [])
  }

  lemma {:induction false} InsertEquivClass<T(!new)>(t: seq<T>, x: T, y: T, le: (T, T) -> bool)
    requires TotalPreorder(le)
    ensures EquivClass(Insert(t, x, le), y, le)
         == EquivClass(t, y, le) + (if Equiv(le, x, y) then [x] else [])
  {
    if t == [] {
      assert [x][..0] == [];
    } else if le(t[|t| - 1], x) {
      assert (t + [x])[..|t|] == t;
    } else {
      var t', last := t[..|t| - 1], t[|t| - 1];
      InsertEquivClass(t', x, y, le);
      var r' := Insert(t', x, le);
      assert (r' + [last])[..|r'|] == r';
      assert !(Equiv(le, x, y) && Equiv(le, last, y));
    }
  }

  /** The sort is stable: for every y, the elements equivalent to y appear
      in the result in the same order as in the input. */
  lemma {:induction false} SortByStable<T(!new)>(s: seq<T>, y: T, le: (T, T) -> bool)
    requires TotalPreorder(le)
    ensures EquivClass(SortBy(s, le), y, le) == EquivClass(s, y, le)
  {
    if s != [] {
      SortByStable(s[..|s| - 1], y, le);
      InsertEquivClass(SortBy(s[..|s| - 1], le), s[|s| - 1], y, le);
    }
  }

  // ---------------------------------------------------------------------------
  // Distinctness survives sorting
  // ---------------------------------------------------------------------------

  lemma {:induction false} InsertDistinct<T>(t: seq<T>, x: T, le: (T, T) -> bool)
    requires Distinct(t) && x !in t
    ensures Distinct(Insert(t, x, le))
  {
    if t != [] && !le(t[|t| - 1], x) {
      var t', last := t[..|t| - 1], t[|t| - 1];
      assert x !in t';
      assert Distinct(t');
      InsertDistinct(t', x, le);
      InsertMultiset(t', x, le);
      var r' := Insert(t', x, le);
      assert last !in multiset(t') + multiset{x};
      assert last !in r';
    }
  }

  lemma {:induction false} SortByDistinct<T>(s: seq<T>, le: (T, T) -> bool)
    requires Distinct(s)
    ensures Distinct(SortBy(s, le))
  {
    if s != [] {
      var s', last := s[..|s| - 1], s[|s| - 1];
      assert Distinct(s');
      SortByDistinct(s', le);
      assert last !in s';
      SortByMultiset(s', le);
      assert last !in multiset(SortBy(s', le));
      InsertDistinct(SortBy(s', le), last, le);
    }
  }

  // ---------------------------------------------------------------------------
  // The in-place sort
  // ---------------------------------------------------------------------------

  /** Insert unfolds one step when the element left of position j may not precede x. */
  lemma InsertStepLeft<T>(t: seq<T>, x: T, j: nat, i: nat, le: (T, T) -> bool)
    requires 0 < j <= i == |t|
    requires !le(t[j - 1], x)
    ensures Insert(t[..j], x, le) + t[j..i] == Insert(t[..j - 1], x, le) + t[j - 1..i]
  {
    assert t[..j][..j - 1] == t[..j - 1];
    assert t[j - 1..i] == [t[j - 1]] + t[j..i];
  }

  /** Insert stops where the element to the left may precede x (or at the front). */
  lemma InsertStop<T>(t: seq<T>, x: T, j: nat, le: (T, T) -> bool)
    requires j <= |t|
    requires j > 0 ==> le(t[j - 1], x)
    ensures Insert(t[..j], x, le) == t[..j] + [x]
  {
  }

  /** A sequence that agrees with t left of j, holds x at j and t shifted right
      by one after j, is t with x inserted at j. */
  lemma Assemble<T>(c: seq<T>, t: seq<T>, x: T, j: nat)
    requires j <= |t| && |c| == |t| + 1
    requires forall k :: 0 <= k < j ==> c[k] == t[k]
    requires c[j] == x
    requires forall k :: j < k <= |t| ==> c[k] == t[k - 1]
    ensures c == t[..j] + [x] + t[j..]
  {
  }

  /** The loop of one insertion pass: shifts the elements of the sorted
      prefix t == a[..i] that may not precede x one place right, and returns
      the gap j where x belongs. */
  method ShiftRight<T>(a: array<T>, i: nat, x: T, ghost t: seq<T>, le: (T, T) -> bool) returns (j: nat)
    requires i < a.Length && |t| == i
    requires forall k :: 0 <= k < i ==> a[k] == t[k]
    modifies a
    ensures j <= i
    ensures forall k :: 0 <= k < j ==> a[k] == t[k]
    ensures forall k :: j < k <= i ==> a[k] == t[k - 1]
    ensures forall k :: i < k < a.Length ==> a[k] == old(a[k])
    ensures Insert(t, x, le) == Insert(t[..j], x, le) + t[j..i]
    ensures j > 0 ==> le(t[j - 1], x)
  {
    j := i;
    assert t[..j] == t && t[j..i] == [];
    while j > 0 && !le(a[j - 1], x)
      invariant 0 <= j <= i
      invariant forall k :: 0 <= k < j ==> a[k] == t[k]
      invariant forall k :: j < k <= i ==> a[k] == t[k - 1]
      invariant forall k :: i < k < a.Length ==> a[k] == old(a[k])
      invariant Insert(t, x, le) == Insert(t[..j], x, le) + t[j..i]
    {
      InsertStepLeft(t, x, j, i, le);
      a[j] := a[j - 1];
      j := j - 1;
    }
  }

  /** One pass of insertion sort: moves a[i] left into the sorted prefix a[..i]. */
  method InsertInPlace<T>(a: array<T>, i: nat, le: (T, T) -> bool)
    requires i < a.Length
    modifies a
    ensures a[..i + 1] == Insert(old(a[..i]), old(a[i]), le)
    ensures forall k :: i < k < a.Length ==> a[k] == old(a[k])
  {
    ghost var t := a[..i];
    var x := a[i];
    var j := ShiftRight(a, i, x, t, le);
    InsertStop(t, x, j, le);
    a[j] := x;
    Assemble(a[..i + 1], t, x, j);
  }

  /** Sorts a in place by stable insertion; the result is exactly SortBy. */
  method SortInPlace<T>(a: array<T>, le: (T, T) -> bool)
    modifies a
    ensures a[..] == SortBy(old(a[..]), le)
  {
    ghost var s0 := a[..];
    var i := 0;
    while i < a.Length
      invariant 0 <= i <= a.Length
      invariant a[..i] == SortBy(s0[..i], le)
      invariant forall k :: i <= k < a.Length ==> a[k] == s0[k]
    {
      InsertInPlace(a, i, le);
      assert s0[..i + 1][..i] == s0[..i];
      i := i + 1;
    }
    assert a[..] == a[..a.Length] && s0 == s0[..a.Length];
  }
}
