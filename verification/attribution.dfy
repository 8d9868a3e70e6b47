/** Multi-touch attribution: splits each order's value across the channels of
    its touch path under one of four models, accumulates per-channel revenue and
    per-order conversion counts, and sorts the channels by revenue. */
module Attribution {
  import opened Options
  import opened Seqs
  import opened Sorting

  datatype Touch = Touch(ts: string, source: string, campaign: Option<string>)

  /** One converted order: its value and its touches, oldest first. */
  datatype CustomerConversion = CustomerConversion(
    customerId: string, customerName: string, orderId: string,
    orderValue: real, path: seq<Touch>)

  datatype Model = Last | First | Linear | TimeDecay

  predicate HasTouches(c: CustomerConversion)
  {
    c.path != []
  }

  /* ---------------------------------------------------------------------------
     Dictionaries keyed by channel. A JavaScript object iterates its (non-numeric)
     keys in insertion order, so a dictionary is its key order plus a map.
  --------------------------------------------------------------------------- */

  predicate Distinct(keys: seq<string>)
  {
    forall i, j :: 0 <= i < j < |keys| ==> keys[i] != keys[j]
  }

  /** Sum of `f(m[k])` over `keys`, in order. */
  function KeySum<V>(keys: seq<string>, m: map<string, V>, f: V -> real): real
    requires forall k :: k in keys ==> k in m
  {
    if keys == [] then 0.0 else f(m[keys[0]]) + KeySum(keys[1..], m, f)
  }

  lemma {:induction false} KeySumAppend<V>(keys: seq<string>, k: string, m: map<string, V>, f: V -> real)
    requires forall x :: x in keys ==> x in m
    requires k in m
    ensures KeySum(keys + [k], m, f) == KeySum(keys, m, f) + f(m[k])
  {
    if keys != [] {
      assert (keys + [k])[1..] == keys[1..] + [k];
      KeySumAppend(keys[1..], k, m, f);
    }
  }

  /** Changing the value of one listed key changes the sum by the difference. */
  lemma {:induction false} KeySumUpdate<V>(keys: seq<string>, m: map<string, V>, k: string, v: V, f: V -> real)
    requires forall x :: x in keys ==> x in m
    requires Distinct(keys) && k in keys
    ensures KeySum(keys, m[k := v], f) == KeySum(keys, m, f) - f(m[k]) + f(v)
  {
    if keys[0] == k {
      KeySumFrame(keys[1..], m, k, v, f);
    } else {
      KeySumUpdate(keys[1..], m, k, v, f);
    }
  }

  /** Changing or adding an unlisted key does not change the sum. */
  lemma {:induction false} KeySumFrame<V>(keys: seq<string>, m: map<string, V>, k: string, v: V, f: V -> real)
    requires forall x :: x in keys ==> x in m
    requires k !in keys
    ensures KeySum(keys, m[k := v], f) == KeySum(keys, m, f)
  {
    if keys != [] {
      KeySumFrame(keys[1..], m, k, v, f);
    }
  }

  /* ---------------------------------------------------------------------------
     Weights
  --------------------------------------------------------------------------- */

  function Pow2(i: nat): (r: nat)
    ensures r >= 1
    ensures i > 0 ==> r >= 2
  {
    if i == 0 then 1 else 2 * Pow2(i - 1)
  }

  /** `touches.map((_, i) => Math.pow(2, i))`: oldest touch 1, newest 2^(L-1). */
  function DecayWeights(L: nat): (w: seq<real>)
    ensures |w| == L
  {
    seq(L, i requires 0 <= i < L => Pow2(i) as real)
  }

  function Id(x: real): real { x }

  /** `weights.reduce((a, b) => a + b, 0)` is 2^L - 1. */
  lemma {:induction false} DecayWeightsSum(L: nat)
    ensures SumOf(DecayWeights(L), Id) == (Pow2(L) - 1) as real
  {
    if L > 0 {
      assert DecayWeights(L)[..L - 1] == DecayWeights(L - 1);
      DecayWeightsSum(L - 1);
    }
  }

  /** The fraction of the order value that touch `i` (of `L`, oldest first)
      earns under `model`: all of it for the final or the first touch, 1/L each
      under "linear", and 2^i over the sum 2^L - 1 of all the weights under
      "timeDecay" (`DecayWeightClosed` ties this to the computed sum). */
  function Weight(model: Model, i: nat, L: nat): real
    requires i < L
  {
    match model
    case Last => if i == L - 1 then 1.0 else 0.0
    case First => if i == 0 then 1.0 else 0.0
    case Linear => 1.0 / L as real
    case TimeDecay => Pow2(i) as real / (Pow2(L) - 1) as real
  }

  /** `weights[i] / sumW`, with the weights listed and summed as lines 43-44
      do, is the closed form 2^i / (2^L - 1). */
  lemma DecayWeightClosed(i: nat, L: nat)
    requires i < L
    ensures SumOf(DecayWeights(L), Id) >= 1.0
    ensures DecayWeights(L)[i] / SumOf(DecayWeights(L), Id) == Weight(TimeDecay, i, L)
  {
    DecayWeightsSum(L);
  }

  /** Doubling the numerator doubles the quotient. */
  lemma DivScale(a: real, d: real)
    requires d > 0.0
    ensures (2.0 * a) / d == 2.0 * (a / d)
  {
  }

  lemma DivSelf(d: real)
    requires d > 0.0
    ensures d / d == 1.0
  {
  }

  lemma DivPositive(a: real, d: real)
    requires a > 0.0 && d > 0.0
    ensures a / d > 0.0
  {
  }

  lemma DivMul(a: real, b: real, d: real)
    requires d > 0.0
    ensures a * (b / d) == a * b / d
  {
  }

  /** Under "timeDecay" a later touch never earns less than an earlier one
      (each earns twice its predecessor). */
  lemma DecayWeightGrows(i: nat, L: nat)
    requires i + 1 < L
    ensures Weight(TimeDecay, i + 1, L) == 2.0 * Weight(TimeDecay, i, L)
    ensures Weight(TimeDecay, i, L) < Weight(TimeDecay, i + 1, L)
  {
    var p, d := Pow2(i) as real, (Pow2(L) - 1) as real;
    assert Pow2(i + 1) as real == 2.0 * p;
    DivScale(p, d);
    DivPositive(p, d);
  }

  /** Sum of the weights of the first `n` touches. */
  function WeightUpTo(model: Model, L: nat, n: nat): real
    requires n <= L
  {
    if n == 0 then 0.0 else WeightUpTo(model, L, n - 1) + Weight(model, n - 1, L)
  }

  lemma {:induction false} LinearWeightUpTo(L: nat, n: nat)
    requires 0 < L && n <= L
    ensures WeightUpTo(Linear, L, n) == n as real / L as real
  {
    if n > 0 {
      LinearWeightUpTo(L, n - 1);
    }
  }

  lemma {:induction false} DecayWeightUpTo(L: nat, n: nat)
    requires 0 < L && n <= L
    ensures WeightUpTo(TimeDecay, L, n) == (Pow2(n) - 1) as real / (Pow2(L) - 1) as real
  {
    if n > 0 {
      var d := (Pow2(L) - 1) as real;
      DecayWeightUpTo(L, n - 1);
      DivAdd((Pow2(n - 1) - 1) as real, Pow2(n - 1) as real, d);
      assert Pow2(n) == 2 * Pow2(n - 1);
    }
  }

  lemma {:induction false} LastWeightUpTo(L: nat, n: nat)
    requires 0 < L && n <= L
    ensures WeightUpTo(Last, L, n) == if n == L then 1.0 else 0.0
  {
    if n > 0 {
      LastWeightUpTo(L, n - 1);
    }
  }

  lemma {:induction false} FirstWeightUpTo(L: nat, n: nat)
    requires 0 < L && n <= L
    ensures WeightUpTo(First, L, n) == if n == 0 then 0.0 else 1.0
  {
    if n > 0 {
      FirstWeightUpTo(L, n - 1);
    }
  }

  /** Every model hands out exactly the whole order: the weights sum to one. */
  lemma WeightsSumToOne(model: Model, L: nat)
    requires 0 < L
    ensures WeightUpTo(model, L, L) == 1.0
  {
    match model
    case Last => LastWeightUpTo(L, L);
    case First => FirstWeightUpTo(L, L);
    case Linear =>
      LinearWeightUpTo(L, L);
      DivSelf(L as real);
    case TimeDecay =>
      DecayWeightUpTo(L, L);
      DivSelf((Pow2(L) - 1) as real);
  }

  /* ---------------------------------------------------------------------------
     Per-order shares (lines 27-49)
  --------------------------------------------------------------------------- */

  /** The `shares` object of one order: channel -> credited revenue. */
  datatype Shares = Shares(keys: seq<string>, amount: map<string, real>)

  ghost predicate WellFormed(sh: Shares)
  {
    Distinct(sh.keys) && forall k :: k in sh.amount <==> k in sh.keys
  }

  /** What `shares` credits to `ch`; an absent key credits nothing. */
  function Credit(sh: Shares, ch: string): real
  {
    if ch in sh.amount then sh.amount[ch] else 0.0
  }

  /** Sum of all the credits of an order. */
  function Total(sh: Shares): real
    requires WellFormed(sh)
  {
    KeySum(sh.keys, sh.amount, Id)
  }

  /** `shares[ch] = (shares[ch] || 0) + amt`. */
  function AddShare(sh: Shares, ch: string, amt: real): (r: Shares)
    ensures WellFormed(sh) ==> WellFormed(r)
    ensures r.keys == if ch in sh.amount then sh.keys else sh.keys + [ch]
  {
    if ch in sh.amount then Shares(sh.keys, sh.amount[ch := sh.amount[ch] + amt])
    else Shares(sh.keys + [ch], sh.amount[ch := amt])
  }

  /** Adding to an entry adds to that channel's credit and to the order's total only. */
  lemma AddShareEffect(sh: Shares, ch: string, amt: real)
    requires WellFormed(sh)
    ensures Credit(AddShare(sh, ch, amt), ch) == Credit(sh, ch) + amt
    ensures forall x :: x != ch ==> Credit(AddShare(sh, ch, amt), x) == Credit(sh, x)
    ensures Total(AddShare(sh, ch, amt)) == Total(sh) + amt
  {
    AddShareTotal(sh, ch, amt);
    forall x | x != ch ensures Credit(AddShare(sh, ch, amt), x) == Credit(sh, x) {
      AddShareCredit(sh, ch, amt, x);
    }
  }

  lemma AddShareTotal(sh: Shares, ch: string, amt: real)
    requires WellFormed(sh)
    ensures WellFormed(AddShare(sh, ch, amt)) && Total(AddShare(sh, ch, amt)) == Total(sh) + amt
  {
    if ch in sh.amount {
      KeySumUpdate(sh.keys, sh.amount, ch, sh.amount[ch] + amt, Id);
    } else {
      KeySumFrame(sh.keys, sh.amount, ch, amt, Id);
      KeySumAppend(sh.keys, ch, sh.amount[ch := amt], Id);
    }
  }

  /** The credit of one channel after adding to `ch`. */
  lemma AddShareCredit(sh: Shares, ch: string, amt: real, x: string)
    ensures Credit(AddShare(sh, ch, amt), x) == Credit(sh, x) + if x == ch then amt else 0.0
  {
  }

  /** `touches.map(t => t.source)`. */
  function Channels(path: seq<Touch>): (cs: seq<string>)
    ensures |cs| == |path|
  {
    seq(|path|, i requires 0 <= i < |path| => path[i].source)
  }

  /** The weight of every touch of a path of length `L` under `model`. */
  function Weights(model: Model, L: nat): (w: seq<real>)
    ensures |w| == L
  {
    seq(L, i requires 0 <= i < L => Weight(model, i, L))
  }

  lemma {:induction false} WeightsPrefixSum(model: Model, L: nat, n: nat)
    requires n <= L
    ensures SumOf(Weights(model, L)[..n], Id) == WeightUpTo(model, L, n)
  {
    if n > 0 {
      assert Weights(model, L)[..n][..n - 1] == Weights(model, L)[..n - 1];
      WeightsPrefixSum(model, L, n - 1);
    }
  }

  /** `orderValue * w` for every touch. */
  function Scaled(v: real, w: seq<real>): (a: seq<real>)
    ensures |a| == |w|
  {
    seq(|w|, i requires 0 <= i < |w| => v * w[i])
  }

  /** Shares after crediting the first `n` touches, touch `i` earning `a[i]`
      (the loops of lines 39 and 45-48). */
  function SpreadUpTo(path: seq<Touch>, a: seq<real>, n: nat): Shares
    requires |a| == |path| && n <= |path|
  {
    if n == 0 then Shares([], map[])
    else AddShare(SpreadUpTo(path, a, n - 1), path[n - 1].source, a[n - 1])
  }

  /** One more touch credits its amount to its channel. */
  lemma SpreadStep(path: seq<Touch>, a: seq<real>, n: nat, amt: real)
    requires |a| == |path| && n < |path| && a[n] == amt
    ensures SpreadUpTo(path, a, n + 1) == AddShare(SpreadUpTo(path, a, n), path[n].source, amt)
  {
  }

  /** Spreading lists each credited channel once and only credited ones. */
  lemma {:induction false} SpreadWellFormed(path: seq<Touch>, a: seq<real>, n: nat)
    requires |a| == |path| && n <= |path|
    ensures WellFormed(SpreadUpTo(path, a, n))
  {
    if n > 0 {
      SpreadWellFormed(path, a, n - 1);
    }
  }

  /** The `shares` object a record with a non-empty path gets (lines 31-49). */
  function SharesFor(path: seq<Touch>, v: real, model: Model): (sh: Shares)
    requires path != []
    ensures WellFormed(sh)
  {
    match model
    case Last =>
      var ch := path[|path| - 1].source;
      Shares([ch], map[ch := v])
    case First =>
      var ch := path[0].source;
      Shares([ch], map[ch := v])
    case _ =>
      var a := Scaled(v, Weights(model, |path|));
      SpreadWellFormed(path, a, |path|);
      SpreadUpTo(path, a, |path|)
  }

  /** Reference definition: the summed `w` of the first `n` touches that came
      through `ch`. */
  function ChannelWeight(path: seq<Touch>, ch: string, w: seq<real>, n: nat): real
    requires |w| == |path| && n <= |path|
  {
    if n == 0 then 0.0
    else ChannelWeight(path, ch, w, n - 1) + (if path[n - 1].source == ch then w[n - 1] else 0.0)
  }

  /** How many of the first `n` touches came through `ch`. */
  function TouchCount(path: seq<Touch>, ch: string, n: nat): nat
    requires n <= |path|
  {
    if n == 0 then 0
    else TouchCount(path, ch, n - 1) + (if path[n - 1].source == ch then 1 else 0)
  }

  /** The channels credited so far are those of the first `n` touches. */
  lemma {:induction false} SpreadKeys(path: seq<Touch>, a: seq<real>, n: nat)
    requires |a| == |path| && n <= |path|
    ensures forall ch :: ch in SpreadUpTo(path, a, n).amount <==> ch in Channels(path)[..n]
  {
    if n > 0 {
      SpreadKeys(path, a, n - 1);
      assert Channels(path)[..n] == Channels(path)[..n - 1] + [path[n - 1].source];
    }
  }

  lemma {:induction false} SpreadCredit(path: seq<Touch>, a: seq<real>, n: nat, ch: string)
    requires |a| == |path| && n <= |path|
    ensures Credit(SpreadUpTo(path, a, n), ch) == ChannelWeight(path, ch, a, n)
  {
    if n > 0 {
      SpreadCredit(path, a, n - 1, ch);
      SpreadCreditStep(path, a, n, ch);
    }
  }

  lemma SpreadCreditStep(path: seq<Touch>, a: seq<real>, n: nat, ch: string)
    requires |a| == |path| && 0 < n <= |path|
    requires Credit(SpreadUpTo(path, a, n - 1), ch) == ChannelWeight(path, ch, a, n - 1)
    ensures Credit(SpreadUpTo(path, a, n), ch) == ChannelWeight(path, ch, a, n)
  {
    AddShareCredit(SpreadUpTo(path, a, n - 1), path[n - 1].source, a[n - 1], ch);
  }

  lemma {:induction false} SpreadTotal(path: seq<Touch>, a: seq<real>, n: nat)
    requires |a| == |path| && n <= |path|
    ensures WellFormed(SpreadUpTo(path, a, n)) && Total(SpreadUpTo(path, a, n)) == SumOf(a[..n], Id)
  {
    if n > 0 {
      SpreadTotal(path, a, n - 1);
      SpreadTotalStep(path, a, n);
    }
  }

  lemma SpreadTotalStep(path: seq<Touch>, a: seq<real>, n: nat)
    requires |a| == |path| && 0 < n <= |path|
    requires WellFormed(SpreadUpTo(path, a, n - 1)) && Total(SpreadUpTo(path, a, n - 1)) == SumOf(a[..n - 1], Id)
    ensures WellFormed(SpreadUpTo(path, a, n)) && Total(SpreadUpTo(path, a, n)) == SumOf(a[..n], Id)
  {
    var prev := SpreadUpTo(path, a, n - 1);
    SpreadStep(path, a, n - 1, a[n - 1]);
    AddShareTotal(prev, path[n - 1].source, a[n - 1]);
    SumOfPrefix(a, n - 1, Id, SumOf(a[..n - 1], Id), a[n - 1]);
  }

  lemma Distrib(v: real, a: real, b: real)
    ensures v * (a + b) == v * a + v * b
  {
  }

  lemma {:induction false} ChannelWeightScaled(path: seq<Touch>, ch: string, v: real, w: seq<real>, n: nat)
    requires |w| == |path| && n <= |path|
    ensures ChannelWeight(path, ch, Scaled(v, w), n) == v * ChannelWeight(path, ch, w, n)
  {
    if n > 0 {
      ChannelWeightScaled(path, ch, v, w, n - 1);
      Distrib(v, ChannelWeight(path, ch, w, n - 1), if path[n - 1].source == ch then w[n - 1] else 0.0);
    }
  }

  lemma ScaledPrefix(v: real, w: seq<real>, n: nat)
    requires n <= |w|
    ensures Scaled(v, w)[..n] == Scaled(v, w[..n])
  {
    var x, y := Scaled(v, w)[..n], Scaled(v, w[..n]);
    assert forall k :: 0 <= k < n ==> x[k] == y[k];
  }

  lemma {:induction false} SumOfScaled(v: real, w: seq<real>)
    ensures SumOf(Scaled(v, w), Id) == v * SumOf(w, Id)
  {
    if w != [] {
      var n := |w|;
      ScaledPrefix(v, w, n - 1);
      SumOfScaled(v, w[..n - 1]);
      Distrib(v, SumOf(w[..n - 1], Id), w[n - 1]);
    }
  }

  /** A weight vector that is zero except at the final touch credits only the
      final touch's channel. */
  lemma {:induction false} OnlyLastWeight(path: seq<Touch>, ch: string, a: seq<real>, n: nat)
    requires |a| == |path| && 0 < n <= |path|
    requires forall i :: 0 <= i < |a| - 1 ==> a[i] == 0.0
    ensures ChannelWeight(path, ch, a, n)
            == if n == |path| && path[n - 1].source == ch then a[n - 1] else 0.0
  {
    if n > 1 {
      OnlyLastWeight(path, ch, a, n - 1);
    }
  }

  /** A weight vector that is zero except at the first touch credits only the
      first touch's channel. */
  lemma {:induction false} OnlyFirstWeight(path: seq<Touch>, ch: string, a: seq<real>, n: nat)
    requires |a| == |path| && 0 < n <= |path|
    requires forall i :: 0 < i < |a| ==> a[i] == 0.0
    ensures ChannelWeight(path, ch, a, n) == if path[0].source == ch then a[0] else 0.0
  {
    if n > 1 {
      OnlyFirstWeight(path, ch, a, n - 1);
    }
  }

  /** Under "linear" a channel's weight is its number of touches over L. */
  lemma {:induction false} LinearChannelWeight(path: seq<Touch>, ch: string, n: nat)
    requires 0 < |path| && n <= |path|
    ensures ChannelWeight(path, ch, Weights(Linear, |path|), n) == TouchCount(path, ch, n) as real / |path| as real
  {
    if n > 0 {
      LinearChannelWeight(path, ch, n - 1);
      DivAdd(TouchCount(path, ch, n - 1) as real, 1.0, |path| as real);
    }
  }

  lemma SingleTotal(ch: string, v: real)
    ensures Total(Shares([ch], map[ch := v])) == v
  {
    var m := map[ch := v];
    assert [ch][1..] == [];
    assert KeySum([ch], m, Id) == Id(m[ch]) + KeySum([], m, Id);
  }

  /** The credit every model gives a channel on an order: the sum, over the
      channel's touches, of `orderValue` times the touch's weight (so a channel
      without a weighted touch gets nothing). */
  lemma SharesCredit(path: seq<Touch>, v: real, model: Model, ch: string)
    requires path != []
    ensures Credit(SharesFor(path, v, model), ch)
            == ChannelWeight(path, ch, Scaled(v, Weights(model, |path|)), |path|)
  {
    var L := |path|;
    var a := Scaled(v, Weights(model, L));
    match model
    case Last => OnlyLastWeight(path, ch, a, L);
    case First => OnlyFirstWeight(path, ch, a, L);
    case Linear => SpreadCredit(path, a, L, ch);
    case TimeDecay => SpreadCredit(path, a, L, ch);
  }

  /** Conservation: the credits of an order add up to exactly `orderValue`. */
  lemma SharesTotal(path: seq<Touch>, v: real, model: Model)
    requires path != []
    ensures Total(SharesFor(path, v, model)) == v
  {
    var L := |path|;
    if model == Last {
      SingleTotal(path[L - 1].source, v);
    } else if model == First {
      SingleTotal(path[0].source, v);
    } else {
      var w := Weights(model, L);
      SpreadTotalScaled(path, v, w);
      assert w[..L] == w;
      WeightsPrefixSum(model, L, L);
      WeightsSumToOne(model, L);
    }
  }

  lemma SpreadTotalScaled(path: seq<Touch>, v: real, w: seq<real>)
    requires |w| == |path|
    ensures WellFormed(SpreadUpTo(path, Scaled(v, w), |path|))
            && Total(SpreadUpTo(path, Scaled(v, w), |path|)) == v * SumOf(w, Id)
  {
    var L := |path|;
    var a := Scaled(v, w);
    SpreadTotal(path, a, L);
    assert a[..L] == a;
    SumOfScaled(v, w);
  }

  /** "last" (resp. "first") credits the whole order to the final (resp. first)
      touch's channel and to no other channel. */
  lemma LastFirstSingleChannel(path: seq<Touch>, v: real)
    requires path != []
    ensures SharesFor(path, v, Last).keys == [path[|path| - 1].source]
    ensures SharesFor(path, v, First).keys == [path[0].source]
    ensures Credit(SharesFor(path, v, Last), path[|path| - 1].source) == v
    ensures Credit(SharesFor(path, v, First), path[0].source) == v
  {
  }

  /** "linear" and "timeDecay" credit exactly the channels on the path. */
  lemma SpreadChannels(path: seq<Touch>, v: real)
    requires path != []
    ensures forall ch :: ch in SharesFor(path, v, Linear).amount <==> ch in Channels(path)
    ensures forall ch :: ch in SharesFor(path, v, TimeDecay).amount <==> ch in Channels(path)
  {
    var L := |path|;
    SpreadKeys(path, Scaled(v, Weights(Linear, L)), L);
    SpreadKeys(path, Scaled(v, Weights(TimeDecay, L)), L);
    assert Channels(path)[..L] == Channels(path);
  }

  /** A channel's "linear" credit is `orderValue * touches / L`. */
  lemma LinearCredit(path: seq<Touch>, v: real, ch: string)
    requires path != []
    ensures Credit(SharesFor(path, v, Linear), ch)
            == v * (TouchCount(path, ch, |path|) as real / |path| as real)
  {
    SharesCredit(path, v, Linear, ch);
    ChannelWeightScaled(path, ch, v, Weights(Linear, |path|), |path|);
    LinearChannelWeight(path, ch, |path|);
  }

  /* ---------------------------------------------------------------------------
     Channel totals (lines 19-22 and 51-58). The `totals` object is kept as the
     list of its entries in insertion order, which is what `Object.entries`
     later returns.
  --------------------------------------------------------------------------- */

  datatype ChannelTotal = ChannelTotal(channel: string, revenue: real, conversions: nat)

  function Revenue(e: ChannelTotal): real { e.revenue }

  function Conversions(e: ChannelTotal): nat { e.conversions }

  ghost predicate DistinctChannels(t: seq<ChannelTotal>)
  {
    forall i, j :: 0 <= i < j < |t| ==> t[i].channel != t[j].channel
  }

  /** Position of `ch` in `totals`, or -1. */
  function Find(t: seq<ChannelTotal>, ch: string): (i: int)
    ensures -1 <= i < |t|
    ensures 0 <= i ==> t[i].channel == ch
    ensures i < 0 ==> forall j :: 0 <= j < |t| ==> t[j].channel != ch
  {
    if t == [] then -1
    else if t[0].channel == ch then 0
    else
      var k := Find(t[1..], ch);
      if k < 0 then -1 else k + 1
  }

  lemma FindUnique(t: seq<ChannelTotal>, ch: string, j: int)
    requires DistinctChannels(t) && 0 <= j < |t| && t[j].channel == ch
    ensures Find(t, ch) == j
  {
  }

  /** What `totals` holds for `ch`; an absent channel counts as zero. */
  function EntryOf(t: seq<ChannelTotal>, ch: string): ChannelTotal
  {
    var i := Find(t, ch);
    if i < 0 then ChannelTotal(ch, 0.0, 0) else t[i]
  }

  predicate Has(t: seq<ChannelTotal>, ch: string)
  {
    Find(t, ch) >= 0
  }

  /** `push(ch, rev)`: creates the entry on first use, then adds `rev`. */
  function Push(t: seq<ChannelTotal>, ch: string, rev: real): (r: seq<ChannelTotal>)
  {
    var i := Find(t, ch);
    if i < 0 then t + [ChannelTotal(ch, rev, 0)]
    else t[i := t[i].(revenue := t[i].revenue + rev)]
  }

  /** `totals[ch].conversions += 1`; a missing entry (which the caller never
      leaves) would be a TypeError and is left untouched here. */
  function Convert(t: seq<ChannelTotal>, ch: string): (r: seq<ChannelTotal>)
  {
    var i := Find(t, ch);
    if i < 0 then t else t[i := t[i].(conversions := t[i].conversions + 1)]
  }

  /** `push` adds `rev` to `ch` alone, creating it at the end if needed. */
  lemma PushEffect(t: seq<ChannelTotal>, ch: string, rev: real, x: string)
    requires DistinctChannels(t)
    ensures DistinctChannels(Push(t, ch, rev))
    ensures Has(Push(t, ch, rev), x) <==> Has(t, x) || x == ch
    ensures EntryOf(Push(t, ch, rev), x)
            == if x == ch then EntryOf(t, x).(revenue := EntryOf(t, x).revenue + rev) else EntryOf(t, x)
  {
    var r := Push(t, ch, rev);
    var i := Find(t, ch);
    assert |r| >= |t| && forall j :: 0 <= j < |t| ==> r[j].channel == t[j].channel;
    if i < 0 {
      assert r[|t|].channel == ch;
      FindUnique(r, ch, |t|);
    } else {
      FindUnique(r, ch, i);
    }
    if x != ch {
      var k := Find(t, x);
      if k >= 0 {
        FindUnique(r, x, k);
      }
    }
  }

  lemma ConvertEffect(t: seq<ChannelTotal>, ch: string, x: string)
    requires DistinctChannels(t) && Has(t, ch)
    ensures DistinctChannels(Convert(t, ch))
    ensures Has(Convert(t, ch), x) <==> Has(t, x)
    ensures EntryOf(Convert(t, ch), x)
            == if x == ch then EntryOf(t, x).(conversions := EntryOf(t, x).conversions + 1) else EntryOf(t, x)
  {
    var r := Convert(t, ch);
    var i := Find(t, ch);
    FindUnique(r, ch, i);
    var k := Find(t, x);
    if k >= 0 {
      FindUnique(r, x, k);
    }
  }

  /** The `push` loop (lines 52-54) over the first `n` entries of `shares`. */
  function PushShares(t: seq<ChannelTotal>, sh: Shares, n: nat): seq<ChannelTotal>
    requires WellFormed(sh) && n <= |sh.keys|
  {
    if n == 0 then t
    else
      var ch := sh.keys[n - 1];
      Push(PushShares(t, sh, n - 1), ch, sh.amount[ch])
  }

  /** The conversion loop (lines 56-58) over the first `n` keys of `shares`. */
  function ConvertShares(t: seq<ChannelTotal>, keys: seq<string>, n: nat): seq<ChannelTotal>
    requires n <= |keys|
  {
    if n == 0 then t else Convert(ConvertShares(t, keys, n - 1), keys[n - 1])
  }

  lemma {:induction false} PushSharesEffect(t: seq<ChannelTotal>, sh: Shares, n: nat, x: string)
    requires DistinctChannels(t) && WellFormed(sh) && n <= |sh.keys|
    ensures DistinctChannels(PushShares(t, sh, n))
    ensures Has(PushShares(t, sh, n), x) <==> Has(t, x) || x in sh.keys[..n]
    ensures EntryOf(PushShares(t, sh, n), x)
            == EntryOf(t, x).(revenue := EntryOf(t, x).revenue + (if x in sh.keys[..n] then sh.amount[x] else 0.0))
  {
    if n > 0 {
      PushSharesEffect(t, sh, n - 1, x);
      var ch := sh.keys[n - 1];
      PushEffect(PushShares(t, sh, n - 1), ch, sh.amount[ch], x);
      assert sh.keys[..n] == sh.keys[..n - 1] + [ch];
      if x == ch {
        assert x !in sh.keys[..n - 1];
      }
    }
  }

  lemma {:induction false} ConvertSharesEffect(t: seq<ChannelTotal>, keys: seq<string>, n: nat, x: string)
    requires DistinctChannels(t) && Distinct(keys) && n <= |keys|
    requires forall k :: k in keys ==> Has(t, k)
    ensures DistinctChannels(ConvertShares(t, keys, n))
    ensures forall k :: Has(ConvertShares(t, keys, n), k) <==> Has(t, k)
    ensures EntryOf(ConvertShares(t, keys, n), x)
            == EntryOf(t, x).(conversions := EntryOf(t, x).conversions + (if x in keys[..n] then 1 else 0))
  {
    if n > 0 {
      ConvertSharesEffect(t, keys, n - 1, x);
      var ch := keys[n - 1];
      var prev := ConvertShares(t, keys, n - 1);
      ConvertEffect(prev, ch, x);
      forall k ensures Has(Convert(prev, ch), k) <==> Has(prev, k) {
        ConvertEffect(prev, ch, k);
      }
      assert keys[..n] == keys[..n - 1] + [ch];
      if x == ch {
        assert x !in keys[..n - 1];
      }
    }
  }

  /** Lines 51-58 for one order: every credited channel is pushed, then counted. */
  function Record(t: seq<ChannelTotal>, sh: Shares): seq<ChannelTotal>
    requires WellFormed(sh)
  {
    ConvertShares(PushShares(t, sh, |sh.keys|), sh.keys, |sh.keys|)
  }

  /** One order adds its credit to each channel's revenue and one conversion to
      each channel it credits, and touches no other channel. */
  lemma RecordEffect(t: seq<ChannelTotal>, sh: Shares, x: string)
    requires DistinctChannels(t) && WellFormed(sh)
    ensures DistinctChannels(Record(t, sh))
    ensures Has(Record(t, sh), x) <==> Has(t, x) || x in sh.amount
    ensures EntryOf(Record(t, sh), x)
            == ChannelTotal(x, EntryOf(t, x).revenue + Credit(sh, x),
                            EntryOf(t, x).conversions + (if x in sh.amount then 1 else 0))
  {
    var n := |sh.keys|;
    assert sh.keys[..n] == sh.keys;
    PushSharesEffect(t, sh, n, x);
    var p := PushShares(t, sh, n);
    forall k | k in sh.keys ensures Has(p, k) {
      PushSharesEffect(t, sh, n, k);
    }
    ConvertSharesEffect(p, sh.keys, n, x);
  }

  lemma PushSums(t: seq<ChannelTotal>, ch: string, rev: real)
    ensures SumOf(Push(t, ch, rev), Revenue) == SumOf(t, Revenue) + rev
    ensures NatSumOf(Push(t, ch, rev), Conversions) == NatSumOf(t, Conversions)
  {
    var i := Find(t, ch);
    if i < 0 {
      var e := ChannelTotal(ch, rev, 0);
      SumOfAppend(t, [e], Revenue);
      NatSumOfAppend(t, [e], Conversions);
      assert [e][..0] == [];
    } else {
      SumOfUpdate(t, i, t[i].(revenue := t[i].revenue + rev), Revenue);
      NatSumOfUpdate(t, i, t[i].(revenue := t[i].revenue + rev), Conversions);
    }
  }

  lemma ConvertSums(t: seq<ChannelTotal>, ch: string)
    requires Has(t, ch)
    ensures SumOf(Convert(t, ch), Revenue) == SumOf(t, Revenue)
    ensures NatSumOf(Convert(t, ch), Conversions) == NatSumOf(t, Conversions) + 1
  {
    var i := Find(t, ch);
    SumOfUpdate(t, i, t[i].(conversions := t[i].conversions + 1), Revenue);
    NatSumOfUpdate(t, i, t[i].(conversions := t[i].conversions + 1), Conversions);
  }

  lemma {:induction false} PushSharesSums(t: seq<ChannelTotal>, sh: Shares, n: nat)
    requires WellFormed(sh) && n <= |sh.keys|
    ensures SumOf(PushShares(t, sh, n), Revenue) == SumOf(t, Revenue) + KeySum(sh.keys[..n], sh.amount, Id)
    ensures NatSumOf(PushShares(t, sh, n), Conversions) == NatSumOf(t, Conversions)
  {
    if n > 0 {
      PushSharesSums(t, sh, n - 1);
      PushSharesSumsStep(t, sh, n);
    }
  }

  lemma PushSharesSumsStep(t: seq<ChannelTotal>, sh: Shares, n: nat)
    requires WellFormed(sh) && 0 < n <= |sh.keys|
    requires SumOf(PushShares(t, sh, n - 1), Revenue) == SumOf(t, Revenue) + KeySum(sh.keys[..n - 1], sh.amount, Id)
    requires NatSumOf(PushShares(t, sh, n - 1), Conversions) == NatSumOf(t, Conversions)
    ensures SumOf(PushShares(t, sh, n), Revenue) == SumOf(t, Revenue) + KeySum(sh.keys[..n], sh.amount, Id)
    ensures NatSumOf(PushShares(t, sh, n), Conversions) == NatSumOf(t, Conversions)
  {
    var ch := sh.keys[n - 1];
    var prev := PushShares(t, sh, n - 1);
    assert PushShares(t, sh, n) == Push(prev, ch, sh.amount[ch]);
    PushSums(prev, ch, sh.amount[ch]);
    assert sh.keys[..n] == sh.keys[..n - 1] + [ch];
    KeySumAppend(sh.keys[..n - 1], ch, sh.amount, Id);
  }

  lemma {:induction false} ConvertSharesSums(t: seq<ChannelTotal>, keys: seq<string>, n: nat)
    requires DistinctChannels(t) && Distinct(keys) && n <= |keys|
    requires forall k :: k in keys ==> Has(t, k)
    ensures SumOf(ConvertShares(t, keys, n), Revenue) == SumOf(t, Revenue)
    ensures NatSumOf(ConvertShares(t, keys, n), Conversions) == NatSumOf(t, Conversions) + n
  {
    if n > 0 {
      ConvertSharesSums(t, keys, n - 1);
      ConvertSharesEffect(t, keys, n - 1, keys[n - 1]);
      ConvertSums(ConvertShares(t, keys, n - 1), keys[n - 1]);
    }
  }

  /** One order adds its whole credit to the revenue column and one conversion
      per credited channel to the conversions column. */
  lemma RecordSums(t: seq<ChannelTotal>, sh: Shares)
    requires DistinctChannels(t) && WellFormed(sh)
    ensures SumOf(Record(t, sh), Revenue) == SumOf(t, Revenue) + Total(sh)
    ensures NatSumOf(Record(t, sh), Conversions) == NatSumOf(t, Conversions) + |sh.keys|
  {
    var n := |sh.keys|;
    assert sh.keys[..n] == sh.keys;
    PushSharesSums(t, sh, n);
    var p := PushShares(t, sh, n);
    PushSharesEffect(t, sh, n, "");
    forall k | k in sh.keys ensures Has(p, k) {
      PushSharesEffect(t, sh, n, k);
    }
    ConvertSharesSums(p, sh.keys, n);
  }

  /* ---------------------------------------------------------------------------
     The whole run (lines 8-79)
  --------------------------------------------------------------------------- */

  /** `totals` once the main loop has seen `cs`; orders without touches are
      skipped (line 29). */
  function TotalsAfter(cs: seq<CustomerConversion>, model: Model): seq<ChannelTotal>
  {
    if cs == [] then []
    else
      var t := TotalsAfter(cs[..|cs| - 1], model);
      var c := cs[|cs| - 1];
      if c.path == [] then t else Record(t, SharesFor(c.path, c.orderValue, model))
  }

  /** The credit one order gives `ch`; an order without touches gives none. */
  function OrderCredit(c: CustomerConversion, model: Model, ch: string): real
  {
    if c.path == [] then 0.0 else Credit(SharesFor(c.path, c.orderValue, model), ch)
  }

  /** Whether one order credits `ch` at all. */
  predicate OrderCredits(c: CustomerConversion, model: Model, ch: string)
  {
    c.path != [] && ch in SharesFor(c.path, c.orderValue, model).amount
  }

  /** Reference definition of a channel's revenue: the sum of its credits. */
  function RevenueOf(cs: seq<CustomerConversion>, model: Model, ch: string): real
  {
    SumOf(cs, c => OrderCredit(c, model, ch))
  }

  /** Reference definition of a channel's conversions: the orders crediting it. */
  function ConversionsOf(cs: seq<CustomerConversion>, model: Model, ch: string): nat
  {
    |Filter(cs, c => OrderCredits(c, model, ch))|
  }

  /** The value an order brings to the report: all of it if it has touches. */
  function AttributableValue(c: CustomerConversion): real
  {
    if c.path == [] then 0.0 else c.orderValue
  }

  /** How many channels one order credits. */
  function CreditedChannels(c: CustomerConversion, model: Model): nat
  {
    if c.path == [] then 0 else |SharesFor(c.path, c.orderValue, model).keys|
  }

  lemma {:induction false} TotalsAfterDistinct(cs: seq<CustomerConversion>, model: Model)
    ensures DistinctChannels(TotalsAfter(cs, model))
  {
    if cs != [] {
      var c := cs[|cs| - 1];
      TotalsAfterDistinct(cs[..|cs| - 1], model);
      if c.path != [] {
        RecordEffect(TotalsAfter(cs[..|cs| - 1], model), SharesFor(c.path, c.orderValue, model), "");
      }
    }
  }

  lemma RevenueOfStep(cs: seq<CustomerConversion>, model: Model, ch: string)
    requires cs != []
    ensures RevenueOf(cs, model, ch) == RevenueOf(cs[..|cs| - 1], model, ch) + OrderCredit(cs[|cs| - 1], model, ch)
  {
  }

  lemma ConversionsOfStep(cs: seq<CustomerConversion>, model: Model, ch: string)
    requires cs != []
    ensures ConversionsOf(cs, model, ch)
            == ConversionsOf(cs[..|cs| - 1], model, ch) + if OrderCredits(cs[|cs| - 1], model, ch) then 1 else 0
  {
    var n := |cs|;
    var c := cs[n - 1];
    var p := (c: CustomerConversion) => OrderCredits(c, model, ch);
    assert cs == cs[..n - 1] + [c];
    FilterAppend(cs[..n - 1], [c], p);
    assert [c][1..] == [];
  }

  lemma {:induction false} TotalsAfterEntry(cs: seq<CustomerConversion>, model: Model, ch: string)
    ensures Has(TotalsAfter(cs, model), ch) <==> ConversionsOf(cs, model, ch) > 0
    ensures EntryOf(TotalsAfter(cs, model), ch)
            == ChannelTotal(ch, RevenueOf(cs, model, ch), ConversionsOf(cs, model, ch))
  {
    if cs != [] {
      TotalsAfterEntry(cs[..|cs| - 1], model, ch);
      TotalsAfterEntryStep(cs, model, ch);
    }
  }

  /** The inductive step of `TotalsAfterEntry`: the last order moves the entry
      for `ch` exactly as the reference sums do. */
  lemma TotalsAfterEntryStep(cs: seq<CustomerConversion>, model: Model, ch: string)
    requires cs != []
    requires var pre := cs[..|cs| - 1];
             && (Has(TotalsAfter(pre, model), ch) <==> ConversionsOf(pre, model, ch) > 0)
             && EntryOf(TotalsAfter(pre, model), ch)
                == ChannelTotal(ch, RevenueOf(pre, model, ch), ConversionsOf(pre, model, ch))
    ensures Has(TotalsAfter(cs, model), ch) <==> ConversionsOf(cs, model, ch) > 0
    ensures EntryOf(TotalsAfter(cs, model), ch)
            == ChannelTotal(ch, RevenueOf(cs, model, ch), ConversionsOf(cs, model, ch))
  {
    var n := |cs|;
    var c := cs[n - 1];
    RevenueOfStep(cs, model, ch);
    ConversionsOfStep(cs, model, ch);
    var prev := TotalsAfter(cs[..n - 1], model);
    if c.path != [] {
      var sh := SharesFor(c.path, c.orderValue, model);
      TotalsAfterDistinct(cs[..n - 1], model);
      RecordEffect(prev, sh, ch);
    }
  }

  lemma {:induction false} TotalsAfterSums(cs: seq<CustomerConversion>, model: Model)
    ensures DistinctChannels(TotalsAfter(cs, model))
    ensures SumOf(TotalsAfter(cs, model), Revenue) == SumOf(cs, AttributableValue)
    ensures NatSumOf(TotalsAfter(cs, model), Conversions) == NatSumOf(cs, c => CreditedChannels(c, model))
  {
    TotalsAfterDistinct(cs, model);
    if cs != [] {
      var n := |cs|;
      var c := cs[n - 1];
      TotalsAfterSums(cs[..n - 1], model);
      assert cs == cs[..n - 1] + [c];
      if c.path != [] {
        var sh := SharesFor(c.path, c.orderValue, model);
        RecordSums(TotalsAfter(cs[..n - 1], model), sh);
        SharesTotal(c.path, c.orderValue, model);
      }
    }
  }

  /** One row of `perCustomer`. */
  datatype PerCustomer = PerCustomer(
    customerId: string, customerName: string, orderId: string,
    orderValue: real, shares: Shares, path: seq<Touch>)

  function RowFor(c: CustomerConversion, model: Model): PerCustomer
    requires c.path != []
  {
    PerCustomer(c.customerId, c.customerName, c.orderId, c.orderValue,
                SharesFor(c.path, c.orderValue, model), c.path)
  }

  /** `perCustomer`: one row per order that has touches, in input order. */
  function PerCustomerRows(cs: seq<CustomerConversion>, model: Model): (rows: seq<PerCustomer>)
    ensures |rows| == |Filter(cs, HasTouches)|
  {
    var f := Filter(cs, HasTouches);
    seq(|f|, i requires 0 <= i < |f| => RowFor(f[i], model))
  }

  /** The comparator `(a, b) => b.revenue - a.revenue` as "a may stay before b". */
  function ByRevenueDesc(a: ChannelTotal, b: ChannelTotal): bool
  {
    a.revenue >= b.revenue
  }

  datatype Report = Report(
    channels: seq<ChannelTotal>, totalRevenue: real, totalConversions: nat,
    perCustomer: seq<PerCustomer>)

  /** What `attribute(customers, model)` returns. */
  function Attribution(cs: seq<CustomerConversion>, model: Model): Report
  {
    var channels := InsertionSort(TotalsAfter(cs, model), ByRevenueDesc);
    Report(channels, SumOf(channels, Revenue), NatSumOf(channels, Conversions), PerCustomerRows(cs, model))
  }

  lemma ByRevenueDescPreorder()
    ensures TotalPreorder(ByRevenueDesc)
  {
  }

  lemma {:induction false} DistinctCount(t: seq<ChannelTotal>, e: ChannelTotal)
    requires DistinctChannels(t)
    ensures multiset(t)[e] <= 1
  {
    if t != [] {
      assert t == [t[0]] + t[1..];
      DistinctCount(t[1..], e);
      if t[0] == e {
        assert e !in t[1..];
      }
    }
  }

  lemma RepeatCount(t: seq<ChannelTotal>, i: int, j: int)
    requires 0 <= i < j < |t| && t[i] == t[j]
    ensures multiset(t)[t[i]] >= 2
  {
    assert t == t[..j] + [t[j]] + t[j + 1..];
    assert t[i] in t[..j];
  }

  /** Every entry of `totals` is what the reference definitions give for its channel. */
  lemma TotalsAfterMember(cs: seq<CustomerConversion>, model: Model, e: ChannelTotal)
    requires e in TotalsAfter(cs, model)
    ensures ConversionsOf(cs, model, e.channel) > 0
    ensures e == ChannelTotal(e.channel, RevenueOf(cs, model, e.channel), ConversionsOf(cs, model, e.channel))
  {
    var t := TotalsAfter(cs, model);
    var k :| 0 <= k < |t| && t[k] == e;
    TotalsAfterDistinct(cs, model);
    FindUnique(t, e.channel, k);
    TotalsAfterEntry(cs, model, e.channel);
  }

  /** The report lists each channel that some order credits exactly once, with
      its reference revenue and conversion count, and no other channel. */
  lemma ReportChannels(cs: seq<CustomerConversion>, model: Model, ch: string)
    ensures ConversionsOf(cs, model, ch) > 0
            <==> ChannelTotal(ch, RevenueOf(cs, model, ch), ConversionsOf(cs, model, ch))
                 in Attribution(cs, model).channels
    ensures forall e :: e in Attribution(cs, model).channels && e.channel == ch
                        ==> e == ChannelTotal(ch, RevenueOf(cs, model, ch), ConversionsOf(cs, model, ch))
  {
    var t := TotalsAfter(cs, model);
    var r := Attribution(cs, model);
    assert multiset(r.channels) == multiset(t);
    TotalsAfterEntry(cs, model, ch);
    var e := ChannelTotal(ch, RevenueOf(cs, model, ch), ConversionsOf(cs, model, ch));
    if ConversionsOf(cs, model, ch) > 0 {
      assert EntryOf(t, ch) in multiset(t);
    }
    if e in r.channels {
      assert e in multiset(t);
      TotalsAfterMember(cs, model, e);
    }
    forall e | e in r.channels && e.channel == ch
      ensures e == ChannelTotal(ch, RevenueOf(cs, model, ch), ConversionsOf(cs, model, ch))
    {
      assert e in multiset(t);
      TotalsAfterMember(cs, model, e);
    }
  }

  lemma ReportDistinct(cs: seq<CustomerConversion>, model: Model)
    ensures DistinctChannels(Attribution(cs, model).channels)
  {
    var t := TotalsAfter(cs, model);
    var b := Attribution(cs, model).channels;
    TotalsAfterDistinct(cs, model);
    forall i, j | 0 <= i < j < |b| ensures b[i].channel != b[j].channel {
      if b[i].channel == b[j].channel {
        assert b[i] in multiset(t) && b[j] in multiset(t);
        TotalsAfterMember(cs, model, b[i]);
        TotalsAfterMember(cs, model, b[j]);
        RepeatCount(b, i, j);
        DistinctCount(t, b[i]);
        assert false;
      }
    }
  }

  /** The report is sorted by revenue, highest first, conserves the value of
      every order with touches, and counts one conversion per credited channel
      per order. */
  lemma ReportTotals(cs: seq<CustomerConversion>, model: Model)
    ensures SortedBy(Attribution(cs, model).channels, ByRevenueDesc)
    ensures Attribution(cs, model).totalRevenue == SumOf(cs, AttributableValue)
    ensures Attribution(cs, model).totalConversions == NatSumOf(cs, c => CreditedChannels(c, model))
  {
    var t := TotalsAfter(cs, model);
    var r := Attribution(cs, model);
    ByRevenueDescPreorder();
    InsertionSortSorted(t, ByRevenueDesc);
    TotalsAfterSums(cs, model);
    SumOfPermutation(r.channels, t, Revenue);
    NatSumOfPermutation(r.channels, t, Conversions);
  }

  lemma {:induction false} SingleCreditCount(cs: seq<CustomerConversion>, model: Model)
    requires model == Last || model == First
    ensures NatSumOf(cs, c => CreditedChannels(c, model)) == |Filter(cs, HasTouches)|
  {
    if cs != [] {
      var n := |cs|;
      var c := cs[n - 1];
      SingleCreditCount(cs[..n - 1], model);
      assert cs == cs[..n - 1] + [c];
      FilterAppend(cs[..n - 1], [c], HasTouches);
      assert [c][1..] == [];
      if c.path != [] {
        LastFirstSingleChannel(c.path, c.orderValue);
      }
    }
  }

  /** Under "last" and "first" every order with touches is one conversion. */
  lemma SingleTouchConversions(cs: seq<CustomerConversion>, model: Model)
    requires model == Last || model == First
    ensures Attribution(cs, model).totalConversions == |Filter(cs, HasTouches)|
  {
    ReportTotals(cs, model);
    SingleCreditCount(cs, model);
  }

  /** Each `perCustomer` row is one order with touches, kept in input order,
      carrying that order's own shares, which add up to the order's value. */
  lemma PerCustomerRowsMeaning(cs: seq<CustomerConversion>, model: Model, i: int)
    requires 0 <= i < |Filter(cs, HasTouches)|
    ensures var c := Filter(cs, HasTouches)[i];
            var row := Attribution(cs, model).perCustomer[i];
            c in cs && c.path != [] &&
            row == PerCustomer(c.customerId, c.customerName, c.orderId, c.orderValue,
                               SharesFor(c.path, c.orderValue, model), c.path) &&
            Total(row.shares) == row.orderValue
  {
    var c := Filter(cs, HasTouches)[i];
    SharesTotal(c.path, c.orderValue, model);
  }

  /* ---------------------------------------------------------------------------
     The imperative run
  --------------------------------------------------------------------------- */

  /** Lines 31-49: the `shares` of one order with touches. */
  method ComputeShares(touches: seq<Touch>, orderValue: real, model: Model) returns (shares: Shares)
    requires touches != []
    ensures shares == SharesFor(touches, orderValue, model)
  {
    var L := |touches|;
    if model == Last {
      var ch := touches[L - 1].source;
      shares := Shares([ch], map[ch := orderValue]);
    } else if model == First {
      var ch := touches[0].source;
      shares := Shares([ch], map[ch := orderValue]);
    } else if model == Linear {
      shares := SpreadLinear(touches, orderValue);
    } else {
      shares := SpreadTimeDecay(touches, orderValue);
    }
  }

  /** Line 39: every touch earns `orderValue * (1 / L)`. */
  method SpreadLinear(touches: seq<Touch>, orderValue: real) returns (shares: Shares)
    requires touches != []
    ensures shares == SpreadUpTo(touches, Scaled(orderValue, Weights(Linear, |touches|)), |touches|)
  {
    var L := |touches|;
    var w := 1.0 / L as real;
    ghost var a := Scaled(orderValue, Weights(Linear, L));
    shares := Shares([], map[]);
    for i := 0 to L
      invariant shares == SpreadUpTo(touches, a, i)
    {
      var amt := orderValue * w;
      LinearAt(orderValue, L, i, amt);
      SpreadStep(touches, a, i, amt);
      shares := AddShare(shares, touches[i].source, amt);
    }
  }

  lemma LinearAt(v: real, L: nat, i: nat, amt: real)
    requires i < L && amt == v * (1.0 / L as real)
    ensures Scaled(v, Weights(Linear, L))[i] == amt
  {
  }

  /** Lines 42-48: touch `i` earns `orderValue * (2^i / sumW)`. */
  method SpreadTimeDecay(touches: seq<Touch>, orderValue: real) returns (shares: Shares)
    requires touches != []
    ensures shares == SpreadUpTo(touches, Scaled(orderValue, Weights(TimeDecay, |touches|)), |touches|)
  {
    var L := |touches|;
    var weights := DecayWeightList(L);
    var sumW := SumWeights(weights);
    DecayWeightsDivided(L);
    shares := CreditWeighted(touches, orderValue, weights, sumW);
  }

  /** Lines 45-48: `touches.forEach((t, i) => shares[t.source] += orderValue * (weights[i] / sumW))`. */
  method CreditWeighted(touches: seq<Touch>, orderValue: real, weights: seq<real>, sumW: real) returns (shares: Shares)
    requires |weights| == |touches| && sumW != 0.0
    ensures shares == SpreadUpTo(touches, Scaled(orderValue, Divided(weights, sumW)), |touches|)
  {
    ghost var a := Scaled(orderValue, Divided(weights, sumW));
    shares := Shares([], map[]);
    for i := 0 to |touches|
      invariant shares == SpreadUpTo(touches, a, i)
    {
      var w := weights[i] / sumW;
      var amt := orderValue * w;
      ScaledDividedAt(orderValue, weights, sumW, i, amt);
      SpreadStep(touches, a, i, amt);
      shares := AddShare(shares, touches[i].source, amt);
    }
  }

  lemma ScaledDividedAt(v: real, w: seq<real>, d: real, i: nat, amt: real)
    requires d != 0.0 && i < |w| && amt == v * (w[i] / d)
    ensures Scaled(v, Divided(w, d))[i] == amt
  {
  }

  /** Every weight over the same non-zero divisor. */
  function Divided(w: seq<real>, d: real): (r: seq<real>)
    requires d != 0.0
    ensures |r| == |w|
  {
    seq(|w|, i requires 0 <= i < |w| => w[i] / d)
  }

  /** The listed weights over their sum are the time-decay weights. */
  lemma DecayWeightsDivided(L: nat)
    requires L > 0
    ensures SumOf(DecayWeights(L), Id) >= 1.0
    ensures Divided(DecayWeights(L), SumOf(DecayWeights(L), Id)) == Weights(TimeDecay, L)
  {
    DecayWeightsSum(L);
    forall i | 0 <= i < L
      ensures Divided(DecayWeights(L), SumOf(DecayWeights(L), Id))[i] == Weights(TimeDecay, L)[i]
    {
      DecayWeightClosed(i, L);
    }
  }

  /** Line 43: `touches.map((_, i) => Math.pow(2, i))`. */
  method DecayWeightList(L: nat) returns (weights: seq<real>)
    ensures weights == DecayWeights(L)
  {
    weights := [];
    for i := 0 to L
      invariant weights == DecayWeights(i)
    {
      weights := weights + [Pow2(i) as real];
    }
  }

  /** Line 44: `weights.reduce((a, b) => a + b, 0)`. */
  method SumWeights(weights: seq<real>) returns (sumW: real)
    ensures sumW == SumOf(weights, Id)
  {
    sumW := 0.0;
    for i := 0 to |weights|
      invariant sumW == SumOf(weights[..i], Id)
    {
      assert weights[..i + 1][..i] == weights[..i];
      sumW := sumW + weights[i];
    }
    assert weights[..|weights|] == weights;
  }

  lemma PerCustomerRowsSnoc(cs: seq<CustomerConversion>, c: CustomerConversion, model: Model)
    ensures PerCustomerRows(cs + [c], model)
            == PerCustomerRows(cs, model) + if c.path == [] then [] else [RowFor(c, model)]
  {
    FilterAppend(cs, [c], HasTouches);
    assert [c][1..] == [];
  }

  /** `attribute(customers, model)`. */
  method Attribute(customers: seq<CustomerConversion>, model: Model) returns (r: Report)
    ensures r == Attribution(customers, model)
  {
    var totals: seq<ChannelTotal> := [];
    var perCustomer: seq<PerCustomer> := [];
    for n := 0 to |customers|
      invariant totals == TotalsAfter(customers[..n], model)
      invariant perCustomer == PerCustomerRows(customers[..n], model)
    {
      var c := customers[n];
      assert customers[..n + 1] == customers[..n] + [c];
      PerCustomerRowsSnoc(customers[..n], c, model);
      if |c.path| != 0 {
        var shares := ComputeShares(c.path, c.orderValue, model);
        totals := RecordOrder(totals, shares);
        perCustomer := perCustomer + [PerCustomer(c.customerId, c.customerName, c.orderId, c.orderValue, shares, c.path)];
      }
    }
    assert customers[..|customers|] == customers;
    var channels := InsertionSort(totals, ByRevenueDesc);
    var totalRevenue, totalConversions := SumChannels(channels);
    r := Report(channels, totalRevenue, totalConversions, perCustomer);
  }

  /** Lines 51-58: push every credited channel's amount, then count one
      conversion for each. */
  method RecordOrder(totals: seq<ChannelTotal>, shares: Shares) returns (t: seq<ChannelTotal>)
    requires WellFormed(shares)
    ensures t == Record(totals, shares)
  {
    var keys := shares.keys;
    t := totals;
    for k := 0 to |keys|
      invariant t == PushShares(totals, shares, k)
    {
      var ch := keys[k];
      t := Push(t, ch, shares.amount[ch]);
    }
    ghost var pushed := t;
    for k := 0 to |keys|
      invariant t == ConvertShares(pushed, keys, k)
    {
      t := Convert(t, keys[k]);
    }
  }

  /** Lines 75-76: the revenue and conversion columns summed over the sorted
      channels. */
  method SumChannels(channels: seq<ChannelTotal>) returns (totalRevenue: real, totalConversions: nat)
    ensures totalRevenue == SumOf(channels, Revenue)
    ensures totalConversions == NatSumOf(channels, Conversions)
  {
    totalRevenue := 0.0;
    totalConversions := 0;
    for i := 0 to |channels|
      invariant totalRevenue == SumOf(channels[..i], Revenue)
      invariant totalConversions == NatSumOf(channels[..i], Conversions)
    {
      assert channels[..i + 1][..i] == channels[..i];
      totalRevenue := totalRevenue + channels[i].revenue;
      totalConversions := totalConversions + channels[i].conversions;
    }
    assert channels[..|channels|] == channels;
  }

  /** A record with an empty path changes neither the totals nor `perCustomer`. */
  lemma EmptyPathIgnored(cs: seq<CustomerConversion>, c: CustomerConversion, model: Model)
    requires c.path == []
    ensures TotalsAfter(cs + [c], model) == TotalsAfter(cs, model)
    ensures Attribution(cs + [c], model) == Attribution(cs, model)
  {
    assert (cs + [c])[..|cs|] == cs;
    PerCustomerRowsSnoc(cs, c, model);
  }
}
