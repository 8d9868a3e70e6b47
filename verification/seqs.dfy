/** Generic sequence operations shared by the pages: `Array.prototype.filter`
    and the `reduce((s, x) => s + f(x), 0)` sums. */
module Seqs {

  /** `s.filter(p)`: the elements satisfying `p`, in their original order. */
  function Filter<T>(s: seq<T>, p: T -> bool): (r: seq<T>)
    ensures |r| <= |s|
    ensures forall i :: 0 <= i < |r| ==> p(r[i]) && r[i] in s
  {
    if s == [] then []
    else if p(s[0]) then [s[0]] + Filter(s[1..], p)
    else Filter(s[1..], p)
  }

  /** Filtering keeps exactly the satisfying elements, with their multiplicities. */
  lemma {:induction false} FilterMultiset<T>(s: seq<T>, p: T -> bool, x: T)
    ensures multiset(Filter(s, p))[x] == if p(x) then multiset(s)[x] else 0
  {
    if s != [] {
      FilterMultiset(s[1..], p, x);
      assert s == [s[0]] + s[1..];
    }
  }

  /** Membership in the filtered sequence is membership in `s` plus the predicate. */
  lemma FilterMembership<T>(s: seq<T>, p: T -> bool, x: T)
    ensures x in Filter(s, p) <==> x in s && p(x)
  {
    FilterMultiset(s, p, x);
    assert x in Filter(s, p) <==> multiset(Filter(s, p))[x] > 0;
    assert x in s <==> multiset(s)[x] > 0;
  }

  /** Filtering commutes with concatenation, so the relative order is kept. */
  lemma {:induction false} FilterAppend<T>(a: seq<T>, b: seq<T>, p: T -> bool)
    ensures Filter(a + b, p) == Filter(a, p) + Filter(b, p)
  {
    if a == [] {
      assert a + b == b;
    } else {
      assert (a + b)[1..] == a[1..] + b;
      FilterAppend(a[1..], b, p);
    }
  }

  /** A predicate that holds everywhere keeps the whole sequence. */
  lemma {:induction false} FilterAll<T>(s: seq<T>, p: T -> bool)
    requires forall i :: 0 <= i < |s| ==> p(s[i])
    ensures Filter(s, p) == s
  {
    if s != [] {
      FilterAll(s[1..], p);
    }
  }

  /** `s.reduce((acc, x) => acc + f(x), 0)`. */
  function SumOf<T>(s: seq<T>, f: T -> real): real
  {
    if s == [] then 0.0 else SumOf(s[..|s| - 1], f) + f(s[|s| - 1])
  }

  /** The sum of a concatenation is the sum of the parts. */
  lemma {:induction false} SumOfAppend<T>(a: seq<T>, b: seq<T>, f: T -> real)
    ensures SumOf(a + b, f) == SumOf(a, f) + SumOf(b, f)
  {
    if b == [] {
      assert a + b == a;
    } else {
      assert (a + b)[..|a + b| - 1] == a + b[..|b| - 1];
      SumOfAppend(a, b[..|b| - 1], f);
    }
  }

  /** A sum of non-negative terms is non-negative. */
  lemma {:induction false} SumOfNonNegative<T>(s: seq<T>, f: T -> real)
    requires forall i :: 0 <= i < |s| ==> f(s[i]) >= 0.0
    ensures SumOf(s, f) >= 0.0
  {
    if s != [] {
      SumOfNonNegative(s[..|s| - 1], f);
    }
  }

  /** Reordering the terms does not change the sum. */
  lemma {:induction false} SumOfPermutation<T>(a: seq<T>, b: seq<T>, f: T -> real)
    requires multiset(a) == multiset(b)
    ensures SumOf(a, f) == SumOf(b, f)
  {
    if a == [] {
      assert |b| == |multiset(b)| == 0;
    } else {
      var n := |a|;
      var x := a[n - 1];
      assert x in multiset(b);
      var j :| 0 <= j < |b| && b[j] == x;
      var rest := b[..j] + b[j + 1..];
      assert b == b[..j] + [x] + b[j + 1..];
      assert a == a[..n - 1] + [x];
      assert multiset(a) == multiset(a[..n - 1]) + multiset{x};
      assert multiset(b) == multiset(b[..j]) + multiset{x} + multiset(b[j + 1..]);
      assert multiset(rest) == multiset(b[..j]) + multiset(b[j + 1..]);
      forall y ensures multiset(a[..n - 1])[y] == multiset(rest)[y] {
        assert multiset(a)[y] == multiset(b)[y];
      }
      assert multiset(a[..n - 1]) == multiset(rest);
      SumOfPermutation(a[..n - 1], rest, f);
      SumOfAppend(b[..j] + [x], b[j + 1..], f);
      SumOfAppend(b[..j], [x], f);
      SumOfAppend(b[..j], b[j + 1..], f);
      assert SumOf([x], f) == f(x) by {
        assert [x][..0] == [];
      }
    }
  }

  /** The same fold over natural numbers. */
  function NatSumOf<T>(s: seq<T>, f: T -> nat): nat
  {
    if s == [] then 0 else NatSumOf(s[..|s| - 1], f) + f(s[|s| - 1])
  }

  lemma {:induction false} NatSumOfAppend<T>(a: seq<T>, b: seq<T>, f: T -> nat)
    ensures NatSumOf(a + b, f) == NatSumOf(a, f) + NatSumOf(b, f)
  {
    if b == [] {
      assert a + b == a;
    } else {
      assert (a + b)[..|a + b| - 1] == a + b[..|b| - 1];
      NatSumOfAppend(a, b[..|b| - 1], f);
    }
  }

  lemma {:induction false} NatSumOfPermutation<T>(a: seq<T>, b: seq<T>, f: T -> nat)
    requires multiset(a) == multiset(b)
    ensures NatSumOf(a, f) == NatSumOf(b, f)
  {
    if a == [] {
      assert |b| == |multiset(b)| == 0;
    } else {
      var n := |a|;
      var x := a[n - 1];
      assert x in multiset(b);
      var j :| 0 <= j < |b| && b[j] == x;
      var rest := b[..j] + b[j + 1..];
      assert b == b[..j] + [x] + b[j + 1..];
      assert a == a[..n - 1] + [x];
      assert multiset(a) == multiset(a[..n - 1]) + multiset{x};
      assert multiset(b) == multiset(b[..j]) + multiset{x} + multiset(b[j + 1..]);
      assert multiset(rest) == multiset(b[..j]) + multiset(b[j + 1..]);
      forall y ensures multiset(a[..n - 1])[y] == multiset(rest)[y] {
        assert multiset(a)[y] == multiset(b)[y];
      }
      assert multiset(a[..n - 1]) == multiset(rest);
      NatSumOfPermutation(a[..n - 1], rest, f);
      NatSumOfAppend(b[..j] + [x], b[j + 1..], f);
      NatSumOfAppend(b[..j], [x], f);
      NatSumOfAppend(b[..j], b[j + 1..], f);
      assert NatSumOf([x], f) == f(x) by {
        assert [x][..0] == [];
      }
    }
  }

  /** Replacing one term changes the sum by the difference. */
  lemma SumOfUpdate<T>(s: seq<T>, i: int, x: T, f: T -> real)
    requires 0 <= i < |s|
    ensures SumOf(s[i := x], f) == SumOf(s, f) - f(s[i]) + f(x)
  {
    assert s == s[..i] + [s[i]] + s[i + 1..];
    assert s[i := x] == s[..i] + [x] + s[i + 1..];
    SumOfAppend(s[..i] + [s[i]], s[i + 1..], f);
    SumOfAppend(s[..i] + [x], s[i + 1..], f);
    SumOfAppend(s[..i], [s[i]], f);
    SumOfAppend(s[..i], [x], f);
    assert [x][..0] == [s[i]][..0] == [];
  }

  lemma NatSumOfUpdate<T>(s: seq<T>, i: int, x: T, f: T -> nat)
    requires 0 <= i < |s|
    ensures NatSumOf(s[i := x], f) + f(s[i]) == NatSumOf(s, f) + f(x)
  {
    assert s == s[..i] + [s[i]] + s[i + 1..];
    assert s[i := x] == s[..i] + [x] + s[i + 1..];
    NatSumOfAppend(s[..i] + [s[i]], s[i + 1..], f);
    NatSumOfAppend(s[..i] + [x], s[i + 1..], f);
    NatSumOfAppend(s[..i], [s[i]], f);
    NatSumOfAppend(s[..i], [x], f);
    assert [x][..0] == [s[i]][..0] == [];
  }

  /** `s.slice(0, k)` for an integer `k`: a negative `k` counts from the end. */
  function SliceTo<T>(s: seq<T>, k: int): (r: seq<T>)
    ensures |r| <= |s| && r == s[..|r|]
    ensures 0 <= k ==> |r| == if k < |s| then k else |s|
    ensures k < 0 ==> |r| == if |s| + k < 0 then 0 else |s| + k
  {
    if k < 0 then (if |s| + k < 0 then [] else s[..|s| + k])
    else if k < |s| then s[..k]
    else s
  }

  /** `[0, 1, ..., n - 1]`. */
  function Indices(n: nat): (r: seq<nat>)
    ensures |r| == n && forall i :: 0 <= i < n ==> r[i] == i
  {
    seq(n, i requires 0 <= i < n => i)
  }

  ghost predicate NoDuplicates<T>(s: seq<T>)
  {
    forall i, j :: 0 <= i < j < |s| ==> s[i] != s[j]
  }

  lemma {:induction false} NoDuplicatesCount<T>(s: seq<T>, x: T)
    requires NoDuplicates(s)
    ensures multiset(s)[x] <= 1
  {
    if s != [] {
      assert s == [s[0]] + s[1..];
      NoDuplicatesCount(s[1..], x);
      if s[0] == x {
        assert x !in s[1..];
      }
    }
  }

  lemma RepeatCounted<T>(s: seq<T>, i: int, j: int)
    requires 0 <= i < j < |s|
    ensures s[i] == s[j] ==> multiset(s)[s[i]] >= 2
  {
    assert s == s[..j] + [s[j]] + s[j + 1..];
    assert s[i] in s[..j];
  }

  /** A sequence in which nothing occurs twice has no repeats. */
  lemma CountsNoDuplicates<T>(s: seq<T>)
    requires forall x :: multiset(s)[x] <= 1
    ensures NoDuplicates(s)
  {
    forall i, j | 0 <= i < j < |s| ensures s[i] != s[j] {
      RepeatCounted(s, i, j);
    }
  }

  /** A rearrangement of a sequence without repeats has none either. */
  lemma NoDuplicatesPermutation<T>(a: seq<T>, b: seq<T>)
    requires NoDuplicates(a) && multiset(a) == multiset(b)
    ensures NoDuplicates(b)
  {
    forall x ensures multiset(b)[x] <= 1 {
      NoDuplicatesCount(a, x);
    }
    CountsNoDuplicates(b);
  }

  /** Filtering a rearrangement keeps as many elements. */
  lemma FilterLengthPermutation<T>(a: seq<T>, b: seq<T>, p: T -> bool)
    requires multiset(a) == multiset(b)
    ensures |Filter(a, p)| == |Filter(b, p)|
  {
    forall x ensures multiset(Filter(a, p))[x] == multiset(Filter(b, p))[x] {
      FilterMultiset(a, p, x);
      FilterMultiset(b, p, x);
    }
    assert multiset(Filter(a, p)) == multiset(Filter(b, p));
    assert |multiset(Filter(a, p))| == |Filter(a, p)|;
  }

  /** A weaker predicate keeps at least as many elements, and strictly more when
      it also holds for an element the stronger one rejects. */
  lemma {:induction false} FilterLengthMono<T>(s: seq<T>, p: T -> bool, q: T -> bool, w: T)
    requires forall x :: p(x) ==> q(x)
    ensures |Filter(s, p)| <= |Filter(s, q)|
    ensures w in s && q(w) && !p(w) ==> |Filter(s, p)| < |Filter(s, q)|
  {
    if s != [] {
      FilterLengthMono(s[1..], p, q, w);
    }
  }

  /** Filtering a sequence without repeats gives one without repeats. */
  lemma FilterNoDuplicates<T>(s: seq<T>, p: T -> bool)
    requires NoDuplicates(s)
    ensures NoDuplicates(Filter(s, p))
  {
    var r := Filter(s, p);
    forall x ensures multiset(r)[x] <= 1 {
      FilterMultiset(s, p, x);
      NoDuplicatesCount(s, x);
    }
    CountsNoDuplicates(r);
  }

  /** A predicate that holds nowhere keeps nothing. */
  lemma {:induction false} FilterNone<T>(s: seq<T>, p: T -> bool)
    requires forall i :: 0 <= i < |s| ==> !p(s[i])
    ensures Filter(s, p) == []
  {
    if s != [] {
      FilterNone(s[1..], p);
    }
  }

  /** Filtering twice is filtering once by the conjunction. */
  lemma {:induction false} FilterFilter<T>(s: seq<T>, p: T -> bool, q: T -> bool, both: T -> bool)
    requires forall x :: both(x) == (p(x) && q(x))
    ensures Filter(Filter(s, p), q) == Filter(s, both)
  {
    if s != [] {
      FilterFilter(s[1..], p, q, both);
    }
  }

  /** Filtering depends only on the predicate's values on the elements. */
  lemma {:induction false} FilterCongruent<T>(s: seq<T>, p: T -> bool, q: T -> bool)
    requires forall i :: 0 <= i < |s| ==> p(s[i]) == q(s[i])
    ensures Filter(s, p) == Filter(s, q)
  {
    if s != [] {
      FilterCongruent(s[1..], p, q);
    }
  }

  lemma SumOfTwo<T>(x: T, y: T, f: T -> real)
    ensures SumOf([x, y], f) == f(x) + f(y)
  {
    assert [x, y][..1] == [x];
    assert [x][..0] == [];
    assert SumOf([x], f) == SumOf([], f) + f(x);
    assert SumOf([x, y], f) == SumOf([x], f) + f(y);
  }

  /** The sum of the last step: the sum of the rest plus the last term. */
  lemma SumOfSnoc<T>(s: seq<T>, f: T -> real)
    requires s != []
    ensures SumOf(s, f) == SumOf(s[..|s| - 1], f) + f(s[|s| - 1])
  {
  }

  /** One more step of a left-to-right accumulation over `s`. */
  lemma SumOfPrefix<T>(s: seq<T>, i: nat, f: T -> real, acc: real, x: T)
    requires i < |s| && acc == SumOf(s[..i], f) && x == s[i]
    ensures acc + f(x) == SumOf(s[..i + 1], f)
  {
    assert s[..i + 1][..i] == s[..i];
  }

  /** `s.map(f)`. */
  function Map<T, U>(s: seq<T>, f: T -> U): (r: seq<U>)
    ensures |r| == |s|
    ensures forall i :: 0 <= i < |s| ==> r[i] == f(s[i])
  {
    if s == [] then [] else Map(s[..|s| - 1], f) + [f(s[|s| - 1])]
  }

  /** Mapping one more element appends its image. */
  lemma MapSnoc<T, U>(s: seq<T>, f: T -> U, i: nat, pre: seq<U>, x: U)
    requires i < |s| && x == f(s[i])
    ensures pre + Map(s[..i], f) + [x] == pre + Map(s[..i + 1], f)
  {
    assert s[..i + 1][..i] == s[..i];
  }

  /** Fractions over one positive denominator add up numerator by numerator. */
  lemma DivAdd(p: real, q: real, d: real)
    requires d > 0.0
    ensures p / d + q / d == (p + q) / d
  {
    assert (p / d) * d == p && (q / d) * d == q;
    assert (p / d + q / d) * d == p + q;
  }
}
