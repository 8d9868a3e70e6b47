/** `Array.prototype.sort` with a comparator. ECMAScript engines sort stably;
    `before(x, y)` holds when the comparator does not ask to move `x` after `y`
    (that is, `compare(x, y) <= 0`, a `NaN` comparison counting as 0). */
module Sorting {
  import opened Seqs

  /** The comparator orders every pair and chains: a total preorder. */
  ghost predicate TotalPreorder<T(!new)>(before: (T, T) -> bool)
  {
    && (forall x, y :: before(x, y) || before(y, x))
    && (forall x, y, z :: before(x, y) && before(y, z) ==> before(x, z))
  }

  ghost predicate SortedBy<T>(s: seq<T>, before: (T, T) -> bool)
  {
    forall i, j :: 0 <= i < j < |s| ==> before(s[i], s[j])
  }

  /** In a sorted sequence every element of a prefix may precede every element
      after it. */
  lemma SortedPrefixAhead<T>(s: seq<T>, before: (T, T) -> bool, k: nat)
    requires SortedBy(s, before) && k <= |s|
    ensures forall y, x :: y in s[..k] && x in s[k..] ==> before(y, x)
  {
    forall y, x | y in s[..k] && x in s[k..] ensures before(y, x) {
      var i :| 0 <= i < k && s[..k][i] == y;
      var j :| 0 <= j < |s| - k && s[k..][j] == x;
      assert s[i] == y && s[k + j] == x;
    }
  }

  /** `sort(...).slice(0, k)`: the first `k` elements in order, a sub-multiset
      of the input, each of which may precede every element left out. */
  lemma SortedSliceTop<T(!new)>(e: seq<T>, before: (T, T) -> bool, k: int)
    requires TotalPreorder(before)
    ensures var r := SliceTo(InsertionSort(e, before), k);
            && SortedBy(r, before)
            && multiset(r) <= multiset(e)
            && (k >= |e| ==> multiset(r) == multiset(e))
            && (forall y, x :: y in r && x in multiset(e) - multiset(r) ==> before(y, x))
  {
    var sorted := InsertionSort(e, before);
    InsertionSortSorted(e, before);
    PrefixTop(e, sorted, before, |SliceTo(sorted, k)|);
  }

  /** A prefix of a sorted arrangement of `e` is part of `e`, and each of its
      elements may precede each element of `e` that it leaves out. */
  lemma PrefixTop<T>(e: seq<T>, sorted: seq<T>, before: (T, T) -> bool, n: nat)
    requires SortedBy(sorted, before) && multiset(sorted) == multiset(e) && n <= |sorted|
    ensures var r := sorted[..n];
            && SortedBy(r, before)
            && multiset(r) <= multiset(e)
            && (n == |sorted| ==> multiset(r) == multiset(e))
            && (forall y, x :: y in r && x in multiset(e) - multiset(r) ==> before(y, x))
  {
    var r := sorted[..n];
    var rest := sorted[n..];
    assert sorted == r + rest;
    assert multiset(sorted) == multiset(r) + multiset(rest);
    SortedPrefixAhead(sorted, before, n);
    forall y, x | y in r && x in multiset(e) - multiset(r) ensures before(y, x) {
      assert x in multiset(rest);
    }
  }

  /** Puts `x` in front of the first element it may precede; an element equal to
      `x` stays behind it, which is what makes the sort stable. */
  function Insert<T>(x: T, s: seq<T>, before: (T, T) -> bool): (r: seq<T>)
    ensures multiset(r) == multiset(s) + multiset{x}
  {
    if s == [] || before(x, s[0]) then [x] + s
    else
      assert s == [s[0]] + s[1..];
      [s[0]] + Insert(x, s[1..], before)
  }

  /** A stable sort: the earlier of two equal elements stays first. */
  function InsertionSort<T>(s: seq<T>, before: (T, T) -> bool): (r: seq<T>)
    ensures multiset(r) == multiset(s)
    ensures |r| == |s|
  {
    if s == [] then []
    else
      assert s == [s[0]] + s[1..];
      Insert(s[0], InsertionSort(s[1..], before), before)
  }

  lemma {:induction false} InsertSorted<T(!new)>(x: T, s: seq<T>, before: (T, T) -> bool)
    requires TotalPreorder(before)
    requires SortedBy(s, before)
    ensures SortedBy(Insert(x, s, before), before)
  {
    if s != [] && !before(x, s[0]) {
      InsertSorted(x, s[1..], before);
      var t := Insert(x, s[1..], before);
      HeadPrecedesInsert(x, s, before);
      assert Insert(x, s, before) == [s[0]] + t;
      forall k, m | 0 <= k < m < |t| + 1
        ensures before(([s[0]] + t)[k], ([s[0]] + t)[m])
      {
        if k > 0 {
          assert before(t[k - 1], t[m - 1]);
        } else {
          assert before(s[0], t[m - 1]);
        }
      }
    }
  }

  /** When `x` goes behind `s[0]`, everything after `s[0]` in the result may follow it. */
  lemma HeadPrecedesInsert<T(!new)>(x: T, s: seq<T>, before: (T, T) -> bool)
    requires TotalPreorder(before)
    requires SortedBy(s, before)
    requires s != [] && !before(x, s[0])
    ensures forall j :: 0 <= j < |Insert(x, s[1..], before)| ==> before(s[0], Insert(x, s[1..], before)[j])
  {
    var t := Insert(x, s[1..], before);
    assert multiset(t) == multiset(s[1..]) + multiset{x};
    forall j | 0 <= j < |t|
      ensures before(s[0], t[j])
    {
      var y := t[j];
      assert y in multiset(t);
      assert y == x || y in multiset(s[1..]);
    }
  }

  /** The result of the stable sort is ordered whenever the comparator is consistent. */
  lemma {:induction false} InsertionSortSorted<T(!new)>(s: seq<T>, before: (T, T) -> bool)
    requires TotalPreorder(before)
    ensures SortedBy(InsertionSort(s, before), before)
  {
    if s != [] {
      InsertionSortSorted(s[1..], before);
      InsertSorted(s[0], InsertionSort(s[1..], before), before);
    }
  }

  /** The elements that tie with `x`: neither may be moved after the other. */
  function Tie<T>(before: (T, T) -> bool, x: T): T -> bool
  {
    (y: T) => before(x, y) && before(y, x)
  }

  /** `r` lists every group of tied elements in the same order as `s` does;
      for a sort, that is stability. */
  ghost predicate SameTies<T(!new)>(r: seq<T>, s: seq<T>, before: (T, T) -> bool)
  {
    forall x :: Filter(r, Tie(before, x)) == Filter(s, Tie(before, x))
  }

  /** Two sequences ordered by a total preorder, with their tied groups in the
      same order, are equal: a stable sort has exactly one result. */
  lemma {:induction false} SortedTiesUnique<T(!new)>(r: seq<T>, t: seq<T>, before: (T, T) -> bool)
    requires TotalPreorder(before)
    requires SortedBy(r, before) && SortedBy(t, before) && SameTies(r, t, before)
    ensures r == t
  {
    if r == [] && t != [] {
      TieSelf(t, before);
      assert false;
    } else if r != [] && t == [] {
      TieSelf(r, before);
      assert false;
    } else if r != [] {
      var a, b := r[0], t[0];
      FilterMembership(r, Tie(before, b), b);
      FilterMembership(t, Tie(before, b), b);
      FilterMembership(r, Tie(before, a), a);
      FilterMembership(t, Tie(before, a), a);
      var i :| 0 <= i < |r| && r[i] == b;
      var j :| 0 <= j < |t| && t[j] == a;
      assert before(a, b) && before(b, a);
      assert Filter(r, Tie(before, a))[0] == a;
      assert Filter(t, Tie(before, a))[0] == b;
      assert a == b;
      forall x ensures Filter(r[1..], Tie(before, x)) == Filter(t[1..], Tie(before, x)) {
        var tie := Tie(before, x);
        assert Filter(r, tie) == Filter(t, tie);
        assert r == [a] + r[1..] && t == [a] + t[1..];
        FilterCons(a, r[1..], tie);
        FilterCons(a, t[1..], tie);
        var h := if tie(a) then [a] else [];
        assert Filter(r[1..], tie) == Filter(r, tie)[|h|..];
        assert Filter(t[1..], tie) == Filter(t, tie)[|h|..];
      }
      SortedTail(r, before);
      SortedTail(t, before);
      SortedTiesUnique(r[1..], t[1..], before);
      assert r == [a] + r[1..] && t == [b] + t[1..];
    }
  }

  /** The first element ties with itself. */
  lemma TieSelf<T(!new)>(s: seq<T>, before: (T, T) -> bool)
    requires TotalPreorder(before) && s != []
    ensures s[0] in Filter(s, Tie(before, s[0]))
  {
    FilterMembership(s, Tie(before, s[0]), s[0]);
  }

  lemma SortedTail<T>(s: seq<T>, before: (T, T) -> bool)
    requires s != [] && SortedBy(s, before)
    ensures SortedBy(s[1..], before)
  {
    forall i, j | 0 <= i < j < |s| - 1 ensures before(s[1..][i], s[1..][j]) {
      assert s[1..][i] == s[i + 1] && s[1..][j] == s[j + 1];
    }
  }

  /** Exchanging two neighbours that do not tie keeps every tied group in order. */
  lemma SwapTies<T(!new)>(s: seq<T>, t: seq<T>, j: int, before: (T, T) -> bool)
    requires TotalPreorder(before)
    requires 0 < j < |s| && t == s[j - 1 := s[j]][j := s[j - 1]]
    requires !before(s[j - 1], s[j]) || !before(s[j], s[j - 1])
    ensures SameTies(t, s, before)
  {
    var pre, p, q, post := s[..j - 1], s[j - 1], s[j], s[j + 1..];
    assert s == pre + ([p] + ([q] + post));
    assert t == pre + ([q] + ([p] + post));
    forall x ensures Filter(t, Tie(before, x)) == Filter(s, Tie(before, x)) {
      var tie := Tie(before, x);
      FilterAppend(pre, [q] + ([p] + post), tie);
      FilterAppend([q], [p] + post, tie);
      FilterAppend([p], post, tie);
      FilterAppend(pre, [p] + ([q] + post), tie);
      FilterAppend([p], [q] + post, tie);
      FilterAppend([q], post, tie);
      assert !(tie(p) && tie(q));
    }
  }

  lemma FilterCons<T>(h: T, rest: seq<T>, p: T -> bool)
    ensures Filter([h] + rest, p) == (if p(h) then [h] else []) + Filter(rest, p)
  {
    assert ([h] + rest)[0] == h && ([h] + rest)[1..] == rest;
  }

  /** Two neighbours that do not both pass a filter may change places under it. */
  lemma FilterSwapHead<T>(x: T, y: T, rest: seq<T>, p: T -> bool)
    requires !(p(x) && p(y))
    ensures Filter([x] + ([y] + rest), p) == Filter([y] + ([x] + rest), p)
  {
    FilterCons(x, [y] + rest, p);
    FilterCons(y, rest, p);
    FilterCons(y, [x] + rest, p);
    FilterCons(x, rest, p);
  }

  /** Inserting `x` moves it only past elements it does not tie with. */
  lemma {:induction false} InsertTies<T(!new)>(x: T, s: seq<T>, before: (T, T) -> bool)
    requires TotalPreorder(before)
    ensures SameTies(Insert(x, s, before), [x] + s, before)
  {
    if s != [] && !before(x, s[0]) {
      InsertTies(x, s[1..], before);
      var rest := Insert(x, s[1..], before);
      assert Insert(x, s, before) == [s[0]] + rest;
      assert [x] + s == [x] + ([s[0]] + s[1..]);
      forall y ensures Filter([s[0]] + rest, Tie(before, y)) == Filter([x] + ([s[0]] + s[1..]), Tie(before, y)) {
        var tie := Tie(before, y);
        assert Filter(rest, tie) == Filter([x] + s[1..], tie);
        FilterCons(s[0], rest, tie);
        FilterCons(s[0], [x] + s[1..], tie);
        assert !(tie(s[0]) && tie(x));
        FilterSwapHead(s[0], x, s[1..], tie);
      }
    }
  }

  /** The stable sort keeps every tied group in input order. */
  lemma {:induction false} InsertionSortTies<T(!new)>(s: seq<T>, before: (T, T) -> bool)
    requires TotalPreorder(before)
    ensures SameTies(InsertionSort(s, before), s, before)
  {
    if s != [] {
      var rest := InsertionSort(s[1..], before);
      InsertionSortTies(s[1..], before);
      InsertTies(s[0], rest, before);
      forall y ensures Filter(InsertionSort(s, before), Tie(before, y)) == Filter(s, Tie(before, y)) {
        var tie := Tie(before, y);
        FilterAppend([s[0]], rest, tie);
        assert s == [s[0]] + s[1..];
        FilterAppend([s[0]], s[1..], tie);
      }
    }
  }

  /** While `s[j]` moves left past `s[j-1]`: `s[..i+1]` is ordered apart from position `j`. */
  ghost predicate SortedAround<T>(s: seq<T>, i: int, j: int, before: (T, T) -> bool)
    requires 0 <= j <= i < |s|
  {
    forall k, m :: 0 <= k < m <= i && k != j && m != j ==> before(s[k], s[m])
  }

  /** ... and the moving element may precede everything it has passed. */
  ghost predicate PrecedesPassed<T>(s: seq<T>, i: int, j: int, before: (T, T) -> bool)
    requires 0 <= j <= i < |s|
  {
    forall m :: j < m <= i ==> before(s[j], s[m])
  }

  lemma SwapStep<T(!new)>(s: seq<T>, t: seq<T>, i: int, j: int, before: (T, T) -> bool)
    requires TotalPreorder(before)
    requires 0 < j <= i < |s| && |t| == |s|
    requires SortedAround(s, i, j, before) && PrecedesPassed(s, i, j, before)
    requires !before(s[j - 1], s[j])
    requires t[j - 1] == s[j] && t[j] == s[j - 1]
    requires forall k :: 0 <= k < |s| && k != j - 1 && k != j ==> t[k] == s[k]
    ensures SortedAround(t, i, j - 1, before) && PrecedesPassed(t, i, j - 1, before)
  {
    assert before(s[j], s[j - 1]);
  }

  lemma SettledSorted<T(!new)>(s: seq<T>, i: int, j: int, before: (T, T) -> bool)
    requires TotalPreorder(before)
    requires 0 <= j <= i < |s|
    requires SortedAround(s, i, j, before) && PrecedesPassed(s, i, j, before)
    requires j == 0 || before(s[j - 1], s[j])
    ensures SortedBy(s[..i + 1], before)
  {
    forall k, m | 0 <= k < m <= i
      ensures before(s[k], s[m])
    {
      if m == j && k < j - 1 {
        assert before(s[k], s[j - 1]);
      }
    }
  }

  /** Exchanging two neighbours keeps the same elements. */
  lemma SwapMultiset<T>(s: seq<T>, t: seq<T>, j: int)
    requires 0 < j < |s| && t == s[j - 1 := s[j]][j := s[j - 1]]
    ensures multiset(t) == multiset(s)
  {
    assert s == s[..j - 1] + [s[j - 1], s[j]] + s[j + 1..];
    assert t == s[..j - 1] + [s[j], s[j - 1]] + s[j + 1..];
  }

  /** Exchanges `a[j-1]` and `a[j]`. */
  method SwapAdjacent<T>(a: array<T>, j: int)
    requires 0 < j < a.Length
    modifies a
    ensures a[..] == old(a[..])[j - 1 := old(a[j])][j := old(a[j - 1])]
    ensures multiset(a[..]) == multiset(old(a[..]))
  {
    a[j - 1], a[j] := a[j], a[j - 1];
    SwapMultiset(old(a[..]), a[..], j);
  }

  /** One pass of insertion sort: moves `a[i]` left into the ordered prefix `a[..i]`. */
  method InsertLast<T(!new)>(a: array<T>, i: int, before: (T, T) -> bool)
    requires 0 <= i < a.Length
    modifies a
    ensures multiset(a[..]) == multiset(old(a[..]))
    ensures TotalPreorder(before) && SortedBy(old(a[..i]), before) ==> SortedBy(a[..i + 1], before)
    ensures TotalPreorder(before) ==> SameTies(a[..], old(a[..]), before)
  {
    ghost var sortedBefore := TotalPreorder(before) && SortedBy(a[..i], before);
    var j := i;
    while j > 0 && !before(a[j - 1], a[j])
      invariant 0 <= j <= i
      invariant multiset(a[..]) == multiset(old(a[..]))
      invariant sortedBefore ==> TotalPreorder(before)
      invariant sortedBefore ==> SortedAround(a[..], i, j, before) && PrecedesPassed(a[..], i, j, before)
      invariant TotalPreorder(before) ==> SameTies(a[..], old(a[..]), before)
    {
      ghost var s := a[..];
      SwapAdjacent(a, j);
      if sortedBefore {
        SwapStep(s, a[..], i, j, before);
      }
      if TotalPreorder(before) {
        SwapTies(s, a[..], j, before);
        SameTiesTrans(a[..], s, old(a[..]), before);
      }
      j := j - 1;
    }
    if sortedBefore {
      SettledSorted(a[..], i, j, before);
    }
  }

  /** Sorts `a` in place (insertion sort by adjacent swaps, which moves an element
      only past elements it must precede, so the sort is stable). For any
      comparator the result is a permutation of the input; for a consistent one
      it is also ordered, and it is exactly the stable sort `InsertionSort`. */
  method SortInPlace<T(!new)>(a: array<T>, before: (T, T) -> bool)
    modifies a
    ensures multiset(a[..]) == multiset(old(a[..]))
    ensures TotalPreorder(before) ==> SortedBy(a[..], before)
    ensures TotalPreorder(before) ==> a[..] == InsertionSort(old(a[..]), before)
  {
    var i := 0;
    while i < a.Length
      invariant 0 <= i <= a.Length
      invariant multiset(a[..]) == multiset(old(a[..]))
      invariant TotalPreorder(before) ==> SortedBy(a[..i], before)
      invariant TotalPreorder(before) ==> SameTies(a[..], old(a[..]), before)
    {
      ghost var s := a[..];
      InsertLast(a, i, before);
      if TotalPreorder(before) {
        SameTiesTrans(a[..], s, old(a[..]), before);
      }
      i := i + 1;
    }
    assert a[..] == a[..a.Length];
    if TotalPreorder(before) {
      StableSortIsInsertionSort(a[..], old(a[..]), before);
    }
  }

  lemma SameTiesTrans<T(!new)>(r: seq<T>, s: seq<T>, t: seq<T>, before: (T, T) -> bool)
    requires SameTies(r, s, before) && SameTies(s, t, before)
    ensures SameTies(r, t, before)
  {
    forall x ensures Filter(r, Tie(before, x)) == Filter(t, Tie(before, x)) {
      assert Filter(r, Tie(before, x)) == Filter(s, Tie(before, x));
    }
  }

  /** A sorted sequence that keeps the tied groups of `s` in order is the
      stable sort of `s`. */
  lemma StableSortIsInsertionSort<T(!new)>(r: seq<T>, s: seq<T>, before: (T, T) -> bool)
    requires TotalPreorder(before)
    requires SortedBy(r, before) && SameTies(r, s, before)
    ensures r == InsertionSort(s, before)
  {
    var t := InsertionSort(s, before);
    InsertionSortSorted(s, before);
    InsertionSortTies(s, before);
    forall x ensures Filter(r, Tie(before, x)) == Filter(t, Tie(before, x)) {
      assert Filter(r, Tie(before, x)) == Filter(s, Tie(before, x));
      assert Filter(t, Tie(before, x)) == Filter(s, Tie(before, x));
    }
    SortedTiesUnique(r, t, before);
  }

  /** `before`, with ties broken by `tie`. */
  function ThenBy<T>(before: (T, T) -> bool, tie: (T, T) -> bool): (T, T) -> bool
  {
    (x: T, y: T) => before(x, y) && (before(y, x) ==> tie(x, y))
  }

  /** Inserting an element that ties ahead of everything already in place keeps
      the order refined by the tie-break. */
  lemma {:induction false} InsertThenBy<T(!new)>(x: T, s: seq<T>, before: (T, T) -> bool, tie: (T, T) -> bool)
    requires TotalPreorder(before)
    requires SortedBy(s, ThenBy(before, tie))
    requires forall i :: 0 <= i < |s| ==> tie(x, s[i])
    ensures SortedBy(Insert(x, s, before), ThenBy(before, tie))
  {
    var lex := ThenBy(before, tie);
    if s == [] {
    } else if before(x, s[0]) {
      forall j | 0 <= j < |s| ensures lex(x, s[j]) {
        if j > 0 {
          assert lex(s[0], s[j]);
        }
      }
      assert forall j :: 1 <= j < |s| + 1 ==> ([x] + s)[j] == s[j - 1];
    } else {
      assert before(s[0], x);
      InsertThenBy(x, s[1..], before, tie);
      var t := Insert(x, s[1..], before);
      assert multiset(t) == multiset(s[1..]) + multiset{x};
      forall j | 0 < j < |t| + 1
        ensures lex(s[0], ([s[0]] + t)[j])
      {
        var y := t[j - 1];
        assert y in multiset(t);
        if y != x {
          assert y in multiset(s[1..]);
          var k :| 0 <= k < |s[1..]| && s[1..][k] == y;
          assert lex(s[0], s[k + 1]);
        }
      }
    }
  }

  /** The stable sort of a sequence already ordered by `tie` is ordered by
      `before` with ties broken by `tie`. */
  lemma {:induction false} InsertionSortThenBy<T(!new)>(s: seq<T>, before: (T, T) -> bool, tie: (T, T) -> bool)
    requires TotalPreorder(before)
    requires SortedBy(s, tie)
    ensures SortedBy(InsertionSort(s, before), ThenBy(before, tie))
  {
    if s != [] {
      var rest := InsertionSort(s[1..], before);
      InsertionSortThenBy(s[1..], before, tie);
      forall i | 0 <= i < |rest| ensures tie(s[0], rest[i]) {
        assert rest[i] in multiset(s[1..]);
        var k :| 0 <= k < |s[1..]| && s[1..][k] == rest[i];
        assert s[k + 1] == rest[i];
      }
      InsertThenBy(s[0], rest, before, tie);
    }
  }

  /** Filtering keeps an order. */
  lemma {:induction false} FilterSorted<T>(s: seq<T>, p: T -> bool, before: (T, T) -> bool)
    requires SortedBy(s, before)
    ensures SortedBy(Filter(s, p), before)
  {
    if s != [] {
      FilterSorted(s[1..], p, before);
      var r := Filter(s[1..], p);
      forall i | 0 <= i < |r| ensures before(s[0], r[i]) {
        assert r[i] in r;
        FilterMembership(s[1..], p, r[i]);
        var k :| 0 <= k < |s[1..]| && s[1..][k] == r[i];
        assert s[k + 1] == r[i];
      }
    }
  }

  /** After a stable sort, the first element that passes a filter goes before
      every element that passes it. */
  lemma SortedFilterFirst<T(!new)>(s: seq<T>, before: (T, T) -> bool, p: T -> bool, x: T)
    requires TotalPreorder(before)
    requires x in s && p(x)
    ensures var f := Filter(InsertionSort(s, before), p);
            f != [] && p(f[0]) && f[0] in s && before(f[0], x)
  {
    var sorted := InsertionSort(s, before);
    var f := Filter(sorted, p);
    InsertionSortSorted(s, before);
    FilterSorted(sorted, p, before);
    assert x in multiset(s);
    FilterMembership(sorted, p, x);
    FilterMembership(sorted, p, f[0]);
    assert f[0] in multiset(sorted);
    var j :| 0 <= j < |f| && f[j] == x;
    if j > 0 {
      assert before(f[0], f[j]);
    }
  }
}
