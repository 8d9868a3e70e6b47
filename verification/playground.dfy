/** The attribution playground on the features page: a budget split across
    three platforms that always adds up to 100%, the projected revenue and
    purchases, and the "vs base" KPI chips. */
module Playground {
  import opened Seqs
  import opened Sorting
  import opened Text
  import opened JsNumbers

  /* ---------------------------------------------------------------------------
     cx (lines 12-14)
  --------------------------------------------------------------------------- */

  /** A class-name argument: a string, or `false` / `null` / `undefined`. */
  datatype ClassArg = Str(s: string) | Falsy

  predicate Truthy(x: ClassArg)
  {
    x.Str? && x.s != ""
  }

  function Names(xs: seq<ClassArg>): (r: seq<string>)
    ensures |r| <= |xs|
    ensures forall i :: 0 <= i < |r| ==> r[i] != ""
  {
    if xs == [] then []
    else if Truthy(xs[0]) then [xs[0].s] + Names(xs[1..])
    else Names(xs[1..])
  }

  /** `xs.filter(Boolean).join(" ")`. */
  function Cx(xs: seq<ClassArg>): string
  {
    Join(Names(xs), " ")
  }

  /** The class names a falsy argument would have contributed are dropped, and
      the remaining names (non-empty, without white space) come back out of the
      joined string in order. */
  lemma CxWords(xs: seq<ClassArg>)
    requires forall i :: 0 <= i < |xs| ==> xs[i].Str? ==> NoSpace(xs[i].s)
    requires exists i :: 0 <= i < |xs| && Truthy(xs[i])
    ensures Split(Cx(xs)) == Names(xs)
  {
    NamesNonEmpty(xs);
    NamesNoSpace(xs);
    SplitJoin(Names(xs));
  }

  lemma {:induction false} NamesNonEmpty(xs: seq<ClassArg>)
    ensures (exists i :: 0 <= i < |xs| && Truthy(xs[i])) <==> |Names(xs)| >= 1
  {
    if xs != [] {
      NamesNonEmpty(xs[1..]);
      if exists i :: 0 <= i < |xs| && Truthy(xs[i]) {
        var i :| 0 <= i < |xs| && Truthy(xs[i]);
        if i > 0 {
          assert Truthy(xs[1..][i - 1]);
        }
      }
      if exists i :: 0 <= i < |xs[1..]| && Truthy(xs[1..][i]) {
        var i :| 0 <= i < |xs[1..]| && Truthy(xs[1..][i]);
        assert Truthy(xs[i + 1]);
      }
    }
  }

  lemma {:induction false} NamesNoSpace(xs: seq<ClassArg>)
    requires forall i :: 0 <= i < |xs| ==> xs[i].Str? ==> NoSpace(xs[i].s)
    ensures forall i :: 0 <= i < |Names(xs)| ==> NoSpace(Names(xs)[i])
  {
    if xs != [] {
      assert forall i :: 0 <= i < |xs[1..]| ==> xs[1..][i] == xs[i + 1];
      NamesNoSpace(xs[1..]);
    }
  }

  /** Falsy arguments and empty strings never show up in the result. */
  lemma NamesDropFalsy(xs: seq<ClassArg>, i: nat)
    requires i < |xs| && !Truthy(xs[i])
    ensures Names(xs[..i] + xs[i + 1..]) == Names(xs)
  {
    NamesAppend(xs[..i], xs[i..]);
    NamesAppend(xs[..i], xs[i + 1..]);
    assert xs == xs[..i] + xs[i..];
    assert xs[i..][1..] == xs[i + 1..];
  }

  lemma {:induction false} NamesAppend(a: seq<ClassArg>, b: seq<ClassArg>)
    ensures Names(a + b) == Names(a) + Names(b)
  {
    if a != [] {
      assert (a + b)[0] == a[0];
      assert (a + b)[1..] == a[1..] + b;
      NamesAppend(a[1..], b);
      if Truthy(a[0]) {
        assert Names(a + b) == [a[0].s] + Names(a[1..] + b);
        assert Names(a) == [a[0].s] + Names(a[1..]);
        assert [a[0].s] + (Names(a[1..]) + Names(b)) == ([a[0].s] + Names(a[1..])) + Names(b);
      } else {
        assert Names(a + b) == Names(a[1..] + b);
        assert Names(a) == Names(a[1..]);
      }
    } else {
      assert a + b == b;
    }
  }

  /* ---------------------------------------------------------------------------
     Platforms, allocation and model nudges (lines 108-177)
  --------------------------------------------------------------------------- */

  datatype ModelKind = Last | First | Linear | Decay

  datatype PlatformKey = Meta | Google | TikTok

  /** `Object.keys(alloc)`: the allocation record lists its keys in this order. */
  const Keys: seq<PlatformKey> := [Meta, Google, TikTok]

  type Positive = r: real | r > 0.0 witness 1.0

  datatype Platform = Platform(
    key: PlatformKey, name: string,
    roasWarm: Positive, roasNew: Positive, cppWarm: Positive, cppNew: Positive)

  const DefaultPlatforms: seq<Platform> := [
    Platform(Meta, "Meta (FB/IG)", 3.4, 2.4, 17.0, 26.0),
    Platform(Google, "Google", 3.8, 2.6, 16.0, 24.0),
    Platform(TikTok, "TikTok", 2.8, 2.0, 19.0, 28.0)
  ]

  /** The percentage of the budget each platform gets. */
  datatype Alloc = Alloc(meta: real, google: real, tiktok: real)
  {
    function Get(k: PlatformKey): real
    {
      match k
      case Meta => meta
      case Google => google
      case TikTok => tiktok
    }

    function Set(k: PlatformKey, v: real): (r: Alloc)
      ensures r.Get(k) == v
      ensures forall x :: x != k ==> r.Get(x) == Get(x)
    {
      match k
      case Meta => this.(meta := v)
      case Google => this.(google := v)
      case TikTok => this.(tiktok := v)
    }

    /** `next.meta + next.google + next.tiktok`. */
    function Sum(): real
    {
      meta + google + tiktok
    }

    predicate NonNegative()
    {
      meta >= 0.0 && google >= 0.0 && tiktok >= 0.0
    }
  }

  const DefaultAlloc: Alloc := Alloc(50.0, 35.0, 15.0)

  datatype Nudge = Nudge(roas: Positive, cpp: Positive)

  function ModelNudge(m: ModelKind): (n: Nudge)
    ensures m == Last <==> n == Nudge(1.0, 1.0)
    ensures 0.98 <= n.roas <= 1.02 && 0.98 <= n.cpp <= 1.02
    ensures n.roas >= 1.0 <==> n.cpp <= 1.0
  {
    match m
    case Last => Nudge(1.0, 1.0)
    case First => Nudge(0.98, 1.02)
    case Linear => Nudge(1.02, 0.98)
    case Decay => Nudge(1.01, 0.99)
  }

  /* ---------------------------------------------------------------------------
     setAllocOne (lines 181-202)
  --------------------------------------------------------------------------- */

  /** `Math.max(0, Math.min(100, valPct))`. */
  function ClampPct(x: real): (r: real)
    ensures 0.0 <= r <= 100.0
    ensures 0.0 <= x <= 100.0 ==> r == x
  {
    if x < 0.0 then 0.0 else if x > 100.0 then 100.0 else x
  }

  /** `Object.keys(alloc).filter((x) => x !== k)`. */
  function Others(k: PlatformKey): (r: seq<PlatformKey>)
    ensures |r| == 2 && r[0] != k && r[1] != k && r[0] != r[1]
  {
    match k
    case Meta => [Google, TikTok]
    case Google => [Meta, TikTok]
    case TikTok => [Meta, Google]
  }

  function IsNot(k: PlatformKey): PlatformKey -> bool
  {
    (x: PlatformKey) => x != k
  }

  lemma OthersFilter(k: PlatformKey)
    ensures Others(k) == Filter(Keys, IsNot(k))
  {
    assert Keys == [Meta] + [Google, TikTok];
    assert [Google, TikTok] == [Google] + [TikTok];
  }

  function AllocOf(a: Alloc): PlatformKey -> real
  {
    (x: PlatformKey) => a.Get(x)
  }

  /** `others.reduce((s, x) => s + alloc[x], 0)`. */
  function SumOthers(a: Alloc, k: PlatformKey): real
  {
    SumOf(Others(k), AllocOf(a))
  }

  /** The share of the rest that platform `x` keeps: its part of the other
      platforms' current total, or an even split when they are all at zero. */
  function Share(a: Alloc, k: PlatformKey, x: PlatformKey): real
  {
    var s := SumOthers(a, k);
    if s > 0.0 then a.Get(x) / s else 1.0 / (|Others(k)| as real)
  }

  /** `rest * share`, before rounding. */
  function Portion(a: Alloc, k: PlatformKey, v: real, x: PlatformKey): real
  {
    (100.0 - v) * Share(a, k, x)
  }

  /** `Math.max(0, Math.round(rest * share))`. */
  function Respread(a: Alloc, k: PlatformKey, v: real, x: PlatformKey): real
  {
    var n := Round(Portion(a, k, v, x));
    if n < 0 then 0.0 else n as real
  }

  /** `next` after `{ ...alloc, [k]: v }` and the first `n` steps of
      `others.forEach`. */
  function SpreadUpTo(a: Alloc, k: PlatformKey, v: real, n: nat): Alloc
    requires n <= 2
  {
    if n == 0 then a.Set(k, v)
    else
      var x := Others(k)[n - 1];
      SpreadUpTo(a, k, v, n - 1).Set(x, Respread(a, k, v, x))
  }

  function AllocDesc(next: Alloc): (PlatformKey, PlatformKey) -> bool
  {
    (a: PlatformKey, b: PlatformKey) => next.Get(a) >= next.Get(b)
  }

  /** `[k, ...others].sort((a, b) => next[b] - next[a]).find((x) => x !== k) || others[0]`. */
  function DriftTarget(next: Alloc, k: PlatformKey): PlatformKey
  {
    var candidates := Filter(InsertionSort([k] + Others(k), AllocDesc(next)), IsNot(k));
    if candidates == [] then Others(k)[0] else candidates[0]
  }

  /** The whole of `setAllocOne`: pin `k`, re-spread the rest, then put the
      rounding drift on the largest other platform. */
  function Rebalanced(a: Alloc, k: PlatformKey, valPct: real): Alloc
  {
    var next := SpreadUpTo(a, k, ClampPct(valPct), 2);
    Patched(next, DriftTarget(next, k))
  }

  /** `if (drift !== 0) next[target] = Math.max(0, next[target] + drift)`. */
  function Patched(next: Alloc, t: PlatformKey): Alloc
  {
    var drift := 100.0 - next.Sum();
    if drift != 0.0 then
      var patched := next.Get(t) + drift;
      next.Set(t, if patched < 0.0 then 0.0 else patched)
    else next
  }

  /** The `others.forEach` loop of `setAllocOne`, starting from `{ ...alloc, [k]: v }`:
      every other platform gets its rounded share of the rest. */
  method SpreadRest(alloc: Alloc, k: PlatformKey, v: real) returns (next: Alloc)
    ensures next == SpreadUpTo(alloc, k, v, 2)
    ensures next.Get(k) == v
    ensures forall x :: x != k ==> next.Get(x) == Respread(alloc, k, v, x)
  {
    var others := Others(k);
    var rest := 100.0 - v;
    var currSumOthers := SumOf(others, AllocOf(alloc));
    next := alloc.Set(k, v);
    for i := 0 to |others|
      invariant next == SpreadUpTo(alloc, k, v, i)
    {
      var x := others[i];
      var share := if currSumOthers > 0.0 then alloc.Get(x) / currSumOthers else 1.0 / (|others| as real);
      var rounded := Round(rest * share);
      RespreadStep(alloc, k, v, x, share, rounded);
      next := next.Set(x, if rounded < 0 then 0.0 else rounded as real);
    }
    SpreadFacts(alloc, k, v);
    forall x | x != k ensures next.Get(x) == Respread(alloc, k, v, x) {
      OthersCover(k, x);
    }
  }

  /** One step of the `forEach`: the value the loop computes is `Respread`. */
  lemma RespreadStep(a: Alloc, k: PlatformKey, v: real, x: PlatformKey, share: real, rounded: int)
    requires share == if SumOthers(a, k) > 0.0 then a.Get(x) / SumOthers(a, k) else 1.0 / (|Others(k)| as real)
    requires rounded == Round((100.0 - v) * share)
    ensures (if rounded < 0 then 0.0 else rounded as real) == Respread(a, k, v, x)
  {
    assert share == Share(a, k, x);
    assert (100.0 - v) * share == Portion(a, k, v, x);
  }

  /** Every platform other than `k` is one of `Others(k)`. */
  lemma OthersCover(k: PlatformKey, x: PlatformKey)
    requires x != k
    ensures x == Others(k)[0] || x == Others(k)[1]
  {
    match k
    case Meta =>
    case Google =>
    case TikTok =>
  }

  /** The drift goes to another platform, one whose re-spread value is the
      largest. */
  lemma DriftTargetMeaning(next: Alloc, k: PlatformKey, x: PlatformKey)
    requires x != k
    ensures DriftTarget(next, k) != k
    ensures next.Get(DriftTarget(next, k)) >= next.Get(x)
  {
    var list := [k] + Others(k);
    assert TotalPreorder(AllocDesc(next));
    assert x in list by {
      OthersCover(k, x);
    }
    SortedFilterFirst(list, AllocDesc(next), IsNot(k), x);
  }

  function Max0(x: real): real
  {
    if x < 0.0 then 0.0 else x
  }

  lemma MulNonNegative(a: real, b: real)
    requires a >= 0.0 && b >= 0.0
    ensures a * b >= 0.0
  {
  }

  lemma MulPositive(a: real, b: real)
    requires a > 0.0 && b > 0.0
    ensures a * b > 0.0
  {
  }

  lemma ShareBounds(a: Alloc, k: PlatformKey)
    requires a.NonNegative()
    ensures var x, y := Others(k)[0], Others(k)[1];
            Share(a, k, x) >= 0.0 && Share(a, k, y) >= 0.0 && Share(a, k, x) + Share(a, k, y) == 1.0
  {
    var x, y := Others(k)[0], Others(k)[1];
    assert Others(k) == [x, y];
    SumOfTwo(x, y, AllocOf(a));
    if SumOthers(a, k) > 0.0 {
      ShareSplit(a.Get(x), a.Get(y));
    }
  }

  /** Two non-negative parts with a positive total split it into fractions
      that add up to one. */
  lemma ShareSplit(p: real, q: real)
    requires p >= 0.0 && q >= 0.0 && p + q > 0.0
    ensures p / (p + q) >= 0.0 && q / (p + q) >= 0.0 && p / (p + q) + q / (p + q) == 1.0
  {
    DivAdd(p, q, p + q);
  }

  /** The re-spread values are whole, non-negative numbers whose total is within
      one point of the rest, when no allocation is negative. */
  lemma RespreadBounds(a: Alloc, k: PlatformKey, v: real)
    requires a.NonNegative() && 0.0 <= v <= 100.0
    ensures var x, y := Others(k)[0], Others(k)[1];
            var rx, ry := Respread(a, k, v, x), Respread(a, k, v, y);
            && rx >= 0.0 && ry >= 0.0 && rx == rx.Floor as real && ry == ry.Floor as real
            && (100.0 - v) - 1.0 < rx + ry <= (100.0 - v) + 1.0
  {
    var x, y := Others(k)[0], Others(k)[1];
    var rest := 100.0 - v;
    ShareBounds(a, k);
    var sx, sy := Share(a, k, x), Share(a, k, y);
    MulNonNegative(rest, sx);
    MulNonNegative(rest, sy);
    var px, py := Portion(a, k, v, x), Portion(a, k, v, y);
    assert px + py == rest by {
      assert px + py == rest * (sx + sy);
    }
    RoundPair(px, py, rest);
  }

  /** Two non-negative parts of `rest` round to whole numbers whose sum is
      within one of `rest`. */
  lemma RoundPair(px: real, py: real, rest: real)
    requires 0.0 <= px && 0.0 <= py && px + py == rest
    ensures 0 <= Round(px) && 0 <= Round(py)
    ensures rest - 1.0 < (Round(px) + Round(py)) as real <= rest + 1.0
  {
    RoundNonNegative(px);
    RoundNonNegative(py);
  }

  /** The arithmetic of the drift patch: with whole, ordered shares `hi >= lo`
      within one point of `rest`, the patched `hi` stays non-negative. */
  lemma PatchArithmetic(rest: real, hi: real, lo: real)
    requires 0.0 <= rest && 0.0 <= lo <= hi && lo == lo.Floor as real
    requires rest - 1.0 < hi + lo <= rest + 1.0
    ensures hi + (rest - hi - lo) >= 0.0
    ensures -1.0 <= rest - hi - lo < 1.0
  {
    assert lo + lo <= rest + 1.0;
    if rest < 1.0 {
      assert lo.Floor < 1;
    }
  }

  lemma SpreadFacts(a: Alloc, k: PlatformKey, v: real)
    ensures var next := SpreadUpTo(a, k, v, 2);
            var x, y := Others(k)[0], Others(k)[1];
            && next.Get(k) == v
            && next.Get(x) == Respread(a, k, v, x)
            && next.Get(y) == Respread(a, k, v, y)
            && next.Sum() == v + next.Get(x) + next.Get(y)
  {
    var next := SpreadUpTo(a, k, v, 2);
    var x, y := Others(k)[0], Others(k)[1];
    assert SpreadUpTo(a, k, v, 0) == a.Set(k, v);
    assert SpreadUpTo(a, k, v, 1) == a.Set(k, v).Set(x, Respread(a, k, v, x));
    assert next == a.Set(k, v).Set(x, Respread(a, k, v, x)).Set(y, Respread(a, k, v, y));
    match k
    case Meta =>
    case Google =>
    case TikTok =>
  }

  /** Setting one platform pins it to the clamped value and keeps every
      allocation non-negative with a total of exactly 100; the drift, which is
      less than one point either way, lands on the largest other platform and
      the remaining platform keeps its rounded share. */
  lemma RebalancedMeaning(a: Alloc, k: PlatformKey, valPct: real)
    requires a.NonNegative()
    ensures var r := Rebalanced(a, k, valPct);
            var v := ClampPct(valPct);
            var t := DriftTarget(SpreadUpTo(a, k, v, 2), k);
            && r.Get(k) == v
            && r.NonNegative()
            && r.Sum() == 100.0
            && t != k
            && (forall x :: x != k && x != t ==> r.Get(x) == Respread(a, k, v, x))
            && -1.0 <= r.Get(t) - Respread(a, k, v, t) < 1.0
  {
    var v := ClampPct(valPct);
    var next := SpreadUpTo(a, k, v, 2);
    var x, y := Others(k)[0], Others(k)[1];
    RespreadBounds(a, k, v);
    SpreadFacts(a, k, v);
    var t := DriftTarget(next, k);
    var other := if t == x then y else x;
    DriftTargetMeaning(next, k, other);
    assert t == x || t == y by {
      match k
      case Meta =>
      case Google =>
      case TikTok =>
    }
    PatchMeaning(next, k, t, other, v);
    forall z | z != k && z != t ensures Rebalanced(a, k, valPct).Get(z) == Respread(a, k, v, z) {
      assert z == other by {
        match k
        case Meta =>
        case Google =>
        case TikTok =>
      }
    }
  }

  /** The drift patch on three distinct platforms: with whole, ordered shares of
      the rest within one point of it, the total becomes exactly 100, nothing
      goes negative, and only the target moves, by less than one point. */
  lemma PatchMeaning(next: Alloc, k: PlatformKey, t: PlatformKey, o: PlatformKey, v: real)
    requires k != t && t != o && o != k
    requires 0.0 <= v <= 100.0 && next.Get(k) == v
    requires next.Sum() == v + next.Get(t) + next.Get(o)
    requires 0.0 <= next.Get(o) <= next.Get(t) && next.Get(o) == next.Get(o).Floor as real
    requires (100.0 - v) - 1.0 < next.Get(t) + next.Get(o) <= (100.0 - v) + 1.0
    ensures var r := Patched(next, t);
            && r.Get(k) == v && r.Get(o) == next.Get(o)
            && r.NonNegative() && r.Sum() == 100.0
            && -1.0 <= r.Get(t) - next.Get(t) < 1.0
  {
    PatchArithmetic(100.0 - v, next.Get(t), next.Get(o));
    var r := Patched(next, t);
    assert r.Sum() == r.Get(k) + r.Get(t) + r.Get(o) by {
      match k
      case Meta =>
      case Google =>
      case TikTok =>
    }
    assert r.NonNegative() by {
      assert r.Get(k) >= 0.0 && r.Get(t) >= 0.0 && r.Get(o) >= 0.0;
      assert r.Get(Meta) >= 0.0 && r.Get(Google) >= 0.0 && r.Get(TikTok) >= 0.0 by {
        match k
        case Meta =>
        case Google =>
        case TikTok =>
      }
    }
  }

  /* ---------------------------------------------------------------------------
     Projection (lines 204-251)
  --------------------------------------------------------------------------- */

  /** `budget * (alloc[p.key] / 100)`. */
  function Spend(budget: real, alloc: Alloc, k: PlatformKey): real
  {
    budget * (alloc.Get(k) / 100.0)
  }

  /** `spend * (mixWarm / 100)`: the part of a platform's spend on warm traffic. */
  function WarmSpend(spend: real, mixNew: real): real
  {
    spend * ((100.0 - mixNew) / 100.0)
  }

  /** `spend * (mixNew / 100)`: the part on new traffic. */
  function NewSpend(spend: real, mixNew: real): real
  {
    spend * (mixNew / 100.0)
  }

  /** One platform's `warmSpend * roasWarm + newSpend * roasNew` with the model's
      nudge on both return rates. */
  function PlatformRevenue(p: Platform, budget: real, alloc: Alloc, mixNew: real, nudge: Nudge): real
  {
    var spend := Spend(budget, alloc, p.key);
    WarmSpend(spend, mixNew) * (p.roasWarm * nudge.roas) + NewSpend(spend, mixNew) * (p.roasNew * nudge.roas)
  }

  /** One platform's `warmSpend / cppWarm + newSpend / cppNew` with the nudge on
      both costs. */
  function PlatformPurchases(p: Platform, budget: real, alloc: Alloc, mixNew: real, nudge: Nudge): real
  {
    var spend := Spend(budget, alloc, p.key);
    WarmSpend(spend, mixNew) / (p.cppWarm * nudge.cpp) + NewSpend(spend, mixNew) / (p.cppNew * nudge.cpp)
  }

  function RevenueOf(budget: real, alloc: Alloc, mixNew: real, nudge: Nudge): Platform -> real
  {
    (p: Platform) => PlatformRevenue(p, budget, alloc, mixNew, nudge)
  }

  function PurchasesOf(budget: real, alloc: Alloc, mixNew: real, nudge: Nudge): Platform -> real
  {
    (p: Platform) => PlatformPurchases(p, budget, alloc, mixNew, nudge)
  }

  function SpendOf(budget: real, alloc: Alloc): Platform -> real
  {
    (p: Platform) => Spend(budget, alloc, p.key)
  }

  /** The model's nudge scales a platform's revenue by its return factor and
      its purchases by the inverse of its cost factor. */
  lemma PlatformNudge(p: Platform, budget: real, alloc: Alloc, mixNew: real, nudge: Nudge)
    ensures PlatformRevenue(p, budget, alloc, mixNew, nudge)
         == nudge.roas * PlatformRevenue(p, budget, alloc, mixNew, Nudge(1.0, 1.0))
    ensures PlatformPurchases(p, budget, alloc, mixNew, nudge)
         == PlatformPurchases(p, budget, alloc, mixNew, Nudge(1.0, 1.0)) / nudge.cpp
  {
    var spend := Spend(budget, alloc, p.key);
    var w, n := WarmSpend(spend, mixNew), NewSpend(spend, mixNew);
    ScaleRates(w, n, p.roasWarm, p.roasNew, nudge.roas);
    DivideRates(w, n, p.cppWarm, p.cppNew, nudge.cpp);
    assert PlatformPurchases(p, budget, alloc, mixNew, Nudge(1.0, 1.0))
        == w / (p.cppWarm * 1.0) + n / (p.cppNew * 1.0);
    assert PlatformPurchases(p, budget, alloc, mixNew, nudge)
        == w / (p.cppWarm * nudge.cpp) + n / (p.cppNew * nudge.cpp);
  }

  lemma ScaleRates(w: real, n: real, a: real, b: real, f: real)
    ensures w * (a * f) + n * (b * f) == f * (w * (a * 1.0) + n * (b * 1.0))
  {
  }

  lemma DivideRates(w: real, n: real, a: real, b: real, f: real)
    requires a > 0.0 && b > 0.0 && f > 0.0
    ensures w / (a * f) + n / (b * f) == (w / (a * 1.0) + n / (b * 1.0)) / f
  {
    assert w / (a * f) == (w / a) / f;
    assert n / (b * f) == (n / b) / f;
  }

  lemma {:induction false} NudgeScales(ps: seq<Platform>, budget: real, alloc: Alloc, mixNew: real, nudge: Nudge)
    ensures SumOf(ps, RevenueOf(budget, alloc, mixNew, nudge))
         == nudge.roas * SumOf(ps, RevenueOf(budget, alloc, mixNew, Nudge(1.0, 1.0)))
    ensures SumOf(ps, PurchasesOf(budget, alloc, mixNew, nudge))
         == SumOf(ps, PurchasesOf(budget, alloc, mixNew, Nudge(1.0, 1.0))) / nudge.cpp
  {
    if ps != [] {
      var init, p := ps[..|ps| - 1], ps[|ps| - 1];
      NudgeScales(init, budget, alloc, mixNew, nudge);
      PlatformNudge(p, budget, alloc, mixNew, nudge);
      var one := Nudge(1.0, 1.0);
      var r1 := SumOf(init, RevenueOf(budget, alloc, mixNew, one));
      var q1 := SumOf(init, PurchasesOf(budget, alloc, mixNew, one));
      SumOfSnoc(ps, RevenueOf(budget, alloc, mixNew, nudge));
      SumOfSnoc(ps, RevenueOf(budget, alloc, mixNew, one));
      SumOfSnoc(ps, PurchasesOf(budget, alloc, mixNew, nudge));
      SumOfSnoc(ps, PurchasesOf(budget, alloc, mixNew, one));
      var r2 := PlatformRevenue(p, budget, alloc, mixNew, one);
      var q2 := PlatformPurchases(p, budget, alloc, mixNew, one);
      ScaleSum(SumOf(init, RevenueOf(budget, alloc, mixNew, nudge)),
               PlatformRevenue(p, budget, alloc, mixNew, nudge), r1, r2, nudge.roas);
      DivideSum(SumOf(init, PurchasesOf(budget, alloc, mixNew, nudge)),
                PlatformPurchases(p, budget, alloc, mixNew, nudge), q1, q2, nudge.cpp);
    }
  }

  lemma ScaleSum(a1: real, a2: real, b1: real, b2: real, f: real)
    requires a1 == f * b1 && a2 == f * b2
    ensures a1 + a2 == f * (b1 + b2)
  {
  }

  lemma DivideSum(a1: real, a2: real, b1: real, b2: real, f: real)
    requires f > 0.0 && a1 == b1 / f && a2 == b2 / f
    ensures a1 + a2 == (b1 + b2) / f
  {
    assert (b1 + b2) / f == b1 / f + b2 / f;
  }

  /** The warm and new parts of a platform's spend add up to its spend, and the
      platforms' spends add up to the budget when the allocation totals 100. */
  lemma SpendAddsUp(budget: real, alloc: Alloc)
    requires alloc.Sum() == 100.0
    ensures SumOf(DefaultPlatforms, SpendOf(budget, alloc)) == budget
  {
    var f := SpendOf(budget, alloc);
    var ps := DefaultPlatforms;
    assert ps[..2][..1] == [ps[0]] && [ps[0]][..0] == [];
    assert SumOf(ps[..1], f) == f(ps[0]);
    assert ps[..3] == ps && ps[..3][..2] == ps[..2] && ps[..2][..1] == ps[..1];
    assert SumOf(ps, f) == f(ps[0]) + f(ps[1]) + f(ps[2]);
    assert f(ps[0]) + f(ps[1]) + f(ps[2]) == budget * (alloc.Sum() / 100.0);
  }

  /** With a non-negative budget, allocation and a mix between 0 and 100, the
      projection is never negative. */
  lemma {:induction false} ProjectionNonNegative(ps: seq<Platform>, budget: real, alloc: Alloc, mixNew: real, nudge: Nudge)
    requires budget >= 0.0 && alloc.NonNegative() && 0.0 <= mixNew <= 100.0
    ensures SumOf(ps, RevenueOf(budget, alloc, mixNew, nudge)) >= 0.0
    ensures SumOf(ps, PurchasesOf(budget, alloc, mixNew, nudge)) >= 0.0
  {
    if ps != [] {
      ProjectionNonNegative(ps[..|ps| - 1], budget, alloc, mixNew, nudge);
      var p := ps[|ps| - 1];
      SumOfSnoc(ps, RevenueOf(budget, alloc, mixNew, nudge));
      SumOfSnoc(ps, PurchasesOf(budget, alloc, mixNew, nudge));
      PlatformNonNegative(p, budget, alloc, mixNew, nudge);
    }
  }

  /** One platform's projected revenue and purchases are not negative. */
  lemma PlatformNonNegative(p: Platform, budget: real, alloc: Alloc, mixNew: real, nudge: Nudge)
    requires budget >= 0.0 && alloc.NonNegative() && 0.0 <= mixNew <= 100.0
    ensures PlatformRevenue(p, budget, alloc, mixNew, nudge) >= 0.0
    ensures PlatformPurchases(p, budget, alloc, mixNew, nudge) >= 0.0
  {
    MulNonNegative(budget, alloc.Get(p.key) / 100.0);
    var spend := Spend(budget, alloc, p.key);
    MulNonNegative(spend, (100.0 - mixNew) / 100.0);
    MulNonNegative(spend, mixNew / 100.0);
    var w, n := WarmSpend(spend, mixNew), NewSpend(spend, mixNew);
    MulPositive(p.roasWarm, nudge.roas);
    MulPositive(p.roasNew, nudge.roas);
    MulPositive(p.cppWarm, nudge.cpp);
    MulPositive(p.cppNew, nudge.cpp);
    MulNonNegative(w, p.roasWarm * nudge.roas);
    MulNonNegative(n, p.roasNew * nudge.roas);
    DivNonNegative(w, p.cppWarm * nudge.cpp);
    DivNonNegative(n, p.cppNew * nudge.cpp);
    assert PlatformRevenue(p, budget, alloc, mixNew, nudge)
        == w * (p.roasWarm * nudge.roas) + n * (p.roasNew * nudge.roas);
    assert PlatformPurchases(p, budget, alloc, mixNew, nudge)
        == w / (p.cppWarm * nudge.cpp) + n / (p.cppNew * nudge.cpp);
  }

  lemma DivNonNegative(a: real, b: real)
    requires a >= 0.0 && b > 0.0
    ensures a / b >= 0.0
  {
  }

  /** `revenue / Math.max(1, budget)`: the divisor is at least 1. */
  function BlendedRoas(revenue: real, budget: real): (r: real)
    ensures budget >= 1.0 ==> r * budget == revenue
    ensures budget < 1.0 ==> r == revenue
  {
    revenue / (if budget < 1.0 then 1.0 else budget)
  }

  /** `budget / Math.max(1, purchases)`. */
  function BlendedCpp(budget: real, purchases: real): (r: real)
    ensures purchases >= 1.0 ==> r * purchases == budget
    ensures purchases < 1.0 ==> r == budget
  {
    budget / (if purchases < 1.0 then 1.0 else purchases)
  }

  datatype BaseKpis = BaseKpis(roas: real, cpp: real, rev: real, pur: real)

  const BaseBudget: real := 20000.0
  const BaseMixNew: real := 35.0

  /** The base line's purchases are positive, so `calcBase` never divides by 0. */
  lemma BasePositive(nudge: Nudge)
    ensures SumOf(DefaultPlatforms, RevenueOf(BaseBudget, DefaultAlloc, BaseMixNew, nudge)) > 0.0
    ensures SumOf(DefaultPlatforms, PurchasesOf(BaseBudget, DefaultAlloc, BaseMixNew, nudge)) > 0.0
  {
    var ps := DefaultPlatforms;
    var f := RevenueOf(BaseBudget, DefaultAlloc, BaseMixNew, nudge);
    var g := PurchasesOf(BaseBudget, DefaultAlloc, BaseMixNew, nudge);
    ProjectionNonNegative(ps[..2], BaseBudget, DefaultAlloc, BaseMixNew, nudge);
    assert ps[..3] == ps && ps[..3][..2] == ps[..2];
    var p := ps[2];
    var spend := Spend(BaseBudget, DefaultAlloc, p.key);
    assert spend == 3000.0;
    var w := spend * ((100.0 - BaseMixNew) / 100.0);
    assert w > 0.0;
    assert w * (p.roasWarm * nudge.roas) > 0.0;
    assert w / (p.cppWarm * nudge.cpp) > 0.0;
    assert f(p) > 0.0 && g(p) > 0.0;
  }

  /** `((current / base - 1) * 100) || 0` for a positive base: the change in
      percent, positive exactly when the current value is above the base. */
  function VsBase(current: real, base: real): (r: real)
    requires base > 0.0
    ensures r > 0.0 <==> current > base
    ensures r == 0.0 <==> current == base
    ensures r * base == (current - base) * 100.0
  {
    (current / base - 1.0) * 100.0
  }

  /** The `platforms.forEach` loop that accumulates revenue and purchases. */
  method Project(platforms: seq<Platform>, budget: real, alloc: Alloc, mixNew: real, nudge: Nudge)
    returns (revenue: real, purchases: real)
    ensures revenue == SumOf(platforms, RevenueOf(budget, alloc, mixNew, nudge))
    ensures purchases == SumOf(platforms, PurchasesOf(budget, alloc, mixNew, nudge))
  {
    revenue, purchases := 0.0, 0.0;
    for i := 0 to |platforms|
      invariant revenue == SumOf(platforms[..i], RevenueOf(budget, alloc, mixNew, nudge))
      invariant purchases == SumOf(platforms[..i], PurchasesOf(budget, alloc, mixNew, nudge))
    {
      var p := platforms[i];
      var rev, pur := PlatformStep(p, budget, alloc, mixNew, nudge);
      SumOfPrefix(platforms, i, RevenueOf(budget, alloc, mixNew, nudge), revenue, p);
      SumOfPrefix(platforms, i, PurchasesOf(budget, alloc, mixNew, nudge), purchases, p);
      revenue := revenue + rev;
      purchases := purchases + pur;
    }
    assert platforms[..|platforms|] == platforms;
  }

  /** The body of the `forEach` callback: one platform's revenue and purchases. */
  method PlatformStep(p: Platform, budget: real, alloc: Alloc, mixNew: real, nudge: Nudge)
    returns (rev: real, pur: real)
    ensures rev == PlatformRevenue(p, budget, alloc, mixNew, nudge)
    ensures pur == PlatformPurchases(p, budget, alloc, mixNew, nudge)
  {
    var spend := budget * (alloc.Get(p.key) / 100.0);
    var warmSpend := spend * ((100.0 - mixNew) / 100.0);
    var newSpend := spend * (mixNew / 100.0);
    var roasWarm := p.roasWarm * nudge.roas;
    var roasNew := p.roasNew * nudge.roas;
    var cppWarm := p.cppWarm * nudge.cpp;
    var cppNew := p.cppNew * nudge.cpp;
    rev := warmSpend * roasWarm + newSpend * roasNew;
    pur := warmSpend / cppWarm + newSpend / cppNew;
  }

  /* ---------------------------------------------------------------------------
     The playground state (usePlayground, lines 164-260)
  --------------------------------------------------------------------------- */

  class PlaygroundState {
    var model: ModelKind
    var budget: real
    var mixNew: real
    var alloc: Alloc

    /** The allocation never has a negative entry and always totals 100. */
    ghost predicate Valid()
      reads this
    {
      alloc.NonNegative() && alloc.Sum() == 100.0
    }

    constructor()
      ensures Valid()
      ensures model == Linear && budget == 20000.0 && mixNew == 35.0 && alloc == DefaultAlloc
    {
      model := Linear;
      budget := 20000.0;
      mixNew := 35.0;
      alloc := DefaultAlloc;
    }

    function MixWarm(): (r: real)
      reads this
      ensures r + mixNew == 100.0
    {
      100.0 - mixNew
    }

    method SetModel(m: ModelKind)
      modifies this
      ensures model == m && budget == old(budget) && mixNew == old(mixNew) && alloc == old(alloc)
    {
      model := m;
    }

    method SetBudget(b: real)
      modifies this
      ensures budget == b && model == old(model) && mixNew == old(mixNew) && alloc == old(alloc)
    {
      budget := b;
    }

    method SetMixNew(n: real)
      modifies this
      ensures mixNew == n && model == old(model) && budget == old(budget) && alloc == old(alloc)
    {
      mixNew := n;
    }

    /** `setAllocOne`: the drift patch keeps the allocation at 100 in total. */
    method SetAllocOne(k: PlatformKey, valPct: real)
      requires Valid()
      modifies this
      ensures Valid()
      ensures alloc == Rebalanced(old(alloc), k, valPct)
      ensures model == old(model) && budget == old(budget) && mixNew == old(mixNew)
    {
      var v := ClampPct(valPct);
      var next := SpreadRest(alloc, k, v);
      var drift := 100.0 - (next.meta + next.google + next.tiktok);
      var tgt := DriftTarget(next, k);
      if drift != 0.0 {
        var patched := next.Get(tgt) + drift;
        next := next.Set(tgt, if patched < 0.0 then 0.0 else patched);
      }
      RebalancedMeaning(alloc, k, valPct);
      alloc := next;
    }

    /** The current projection with the model's nudge, and its blended ratios. */
    method Projection() returns (revenue: real, purchases: real, blendedRoas: real, blendedCpp: real)
      ensures revenue == SumOf(DefaultPlatforms, RevenueOf(budget, alloc, mixNew, ModelNudge(model)))
      ensures purchases == SumOf(DefaultPlatforms, PurchasesOf(budget, alloc, mixNew, ModelNudge(model)))
      ensures blendedRoas == BlendedRoas(revenue, budget)
      ensures blendedCpp == BlendedCpp(budget, purchases)
    {
      revenue, purchases := Project(DefaultPlatforms, budget, alloc, mixNew, ModelNudge(model));
      blendedRoas := BlendedRoas(revenue, budget);
      blendedCpp := BlendedCpp(budget, purchases);
    }

    /** `calcBase`: the same loop on the fixed base line, with the current
        model's nudge. */
    method CalcBase() returns (b: BaseKpis)
      ensures b.rev == SumOf(DefaultPlatforms, RevenueOf(BaseBudget, DefaultAlloc, BaseMixNew, ModelNudge(model)))
      ensures b.pur == SumOf(DefaultPlatforms, PurchasesOf(BaseBudget, DefaultAlloc, BaseMixNew, ModelNudge(model)))
      ensures b.rev > 0.0 && b.pur > 0.0 && b.roas > 0.0 && b.cpp > 0.0
      ensures b.roas * BaseBudget == b.rev && b.cpp * b.pur == BaseBudget
    {
      var r, pu := Project(DefaultPlatforms, BaseBudget, DefaultAlloc, BaseMixNew, ModelNudge(model));
      BasePositive(ModelNudge(model));
      b := BaseKpis(r / BaseBudget, BaseBudget / pu, r, pu);
    }
  }

  /* ---------------------------------------------------------------------------
     DeltaChip (lines 276-311)
  --------------------------------------------------------------------------- */

  datatype Tone = Neutral | Good | Bad
  datatype Arrow = Dot | Up | Down

  datatype Chip = Chip(tone: Tone, arrow: Arrow, displayPct: nat)

  /** The chip for a change of `value` percent against the base. */
  function DeltaChip(value: Number, goodIsDown: bool): (c: Chip)
    ensures var v := FiniteOrZero(value);
            && (c.tone == Neutral <==> -0.1 <= v <= 0.01)
            && (c.arrow == Dot <==> c.tone == Neutral)
            && (c.arrow == Up <==> v > 0.01)
            && (c.arrow == Down <==> v < -0.1)
            && c.displayPct as real == Abs(Round(v) as real)
    ensures c.tone != Neutral ==> (c.tone == Good <==> ((c.arrow == Up) != goodIsDown))
  {
    var v := FiniteOrZero(value);
    var isNeutral := v >= -0.1 && v <= 0.01;
    var displayPct := if Round(v) < 0 then -Round(v) else Round(v);
    if isNeutral then Chip(Neutral, Dot, displayPct)
    else
      var goingUp := v > 0.0;
      var good := if goodIsDown then !goingUp else goingUp;
      Chip(if good then Good else Bad, if goingUp then Up else Down, displayPct)
  }

  /** A value that is not finite shows as a neutral 0%. */
  lemma DeltaChipNonFinite(value: Number, goodIsDown: bool)
    requires !IsFinite(value)
    ensures DeltaChip(value, goodIsDown) == Chip(Neutral, Dot, 0)
  {
  }

  /** Outside the neutral band, a rise is good and a fall bad, and `goodIsDown`
      swaps the two without moving the arrow. */
  lemma DeltaChipTone(value: Number)
    ensures var up := DeltaChip(value, false);
            var down := DeltaChip(value, true);
            && up.arrow == down.arrow && up.displayPct == down.displayPct
            && (up.tone == Neutral <==> down.tone == Neutral)
            && (up.tone == Good <==> up.arrow == Up)
            && (down.tone == Good <==> down.arrow == Down)
  {
  }
}
