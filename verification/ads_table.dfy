/** The ads table (src/app/analytics/ads/AdsTable.tsx): per-row cost per
    purchase and return on ad spend, the sortable columns and the percent
    change badges. */
module AdsTable {
  import opened Options
  import opened Seqs
  import opened Sorting
  import opened JsNumbers

  datatype AdPlatform = Meta | Google | TikTok

  /** One ad with its current and previous-period figures (the `AdsRow` type). */
  datatype AdsRow = AdsRow(
    id: string, platform: AdPlatform, name: string, campaign: string, adset: Option<string>,
    spend: real, purchases: real, revenue: real,
    prevSpend: real, prevPurchases: real, prevRevenue: real)

  /** A row of `computed`: the input row and its four derived ratios. */
  datatype ComputedRow = ComputedRow(row: AdsRow, cpp: real, prevCpp: real, roas: real, prevRoas: real)

  /* ---------------------------------------------------------------------------
     computed (lines 23-40)
  --------------------------------------------------------------------------- */

  /** One row of `computed`: each ratio is the quotient when its denominator is
      positive and 0 otherwise, and the row itself is kept as it was. */
  function Compute(r: AdsRow): (c: ComputedRow)
    ensures c.row == r
    ensures r.purchases > 0.0 ==> c.cpp * r.purchases == r.spend
    ensures r.purchases <= 0.0 ==> c.cpp == 0.0
    ensures r.prevPurchases > 0.0 ==> c.prevCpp * r.prevPurchases == r.prevSpend
    ensures r.prevPurchases <= 0.0 ==> c.prevCpp == 0.0
    ensures r.spend > 0.0 ==> c.roas * r.spend == r.revenue
    ensures r.spend <= 0.0 ==> c.roas == 0.0
    ensures r.prevSpend > 0.0 ==> c.prevRoas * r.prevSpend == r.prevRevenue
    ensures r.prevSpend <= 0.0 ==> c.prevRoas == 0.0
  {
    var cpp := if r.purchases > 0.0 then r.spend / r.purchases else 0.0;
    var prevCpp := if r.prevPurchases > 0.0 then r.prevSpend / r.prevPurchases else 0.0;
    var roas := if r.spend > 0.0 then r.revenue / r.spend else 0.0;
    var prevRoas := if r.prevSpend > 0.0 then r.prevRevenue / r.prevSpend else 0.0;
    ComputedRow(r, cpp, prevCpp, roas, prevRoas)
  }

  /** `rows.map(...)`. */
  function Computed(rows: seq<AdsRow>): seq<ComputedRow>
  {
    Map(rows, Compute)
  }

  /** `computed` has one row per input row, in the same order, each carrying
      its input row unchanged; with non-negative figures no ratio is negative. */
  lemma ComputedMeaning(rows: seq<AdsRow>, i: int)
    requires 0 <= i < |rows|
    ensures |Computed(rows)| == |rows|
    ensures Computed(rows)[i].row == rows[i]
    ensures var r, c := rows[i], Computed(rows)[i];
            r.spend >= 0.0 && r.purchases >= 0.0 && r.revenue >= 0.0 ==> c.cpp >= 0.0 && c.roas >= 0.0
  {
    var r := rows[i];
    var c := Compute(r);
    if r.purchases > 0.0 && r.spend >= 0.0 {
      RatioNonNegative(r.spend, r.purchases);
    }
    if r.spend > 0.0 && r.revenue >= 0.0 {
      RatioNonNegative(r.revenue, r.spend);
    }
  }

  lemma RatioNonNegative(num: real, den: real)
    requires num >= 0.0 && den > 0.0
    ensures num / den >= 0.0
  {
  }

  /* ---------------------------------------------------------------------------
     Sort state (lines 7-21, 58-61)
  --------------------------------------------------------------------------- */

  datatype SortKey = Name | Campaign | Adset | Spend | Purchases | Cpp | Roas | Revenue
  datatype SortDir = Asc | Desc
  datatype SortState = SortState(key: SortKey, dir: SortDir)

  const InitialSort: SortState := SortState(Spend, Desc)

  /** `onSort(key)`: the same column flips the direction, another column is
      selected in descending order. */
  function OnSort(s: SortState, key: SortKey): (t: SortState)
    ensures t.key == key
    ensures s.key == key ==> t.dir != s.dir
    ensures s.key != key ==> t.dir == Desc
  {
    if s.key == key then SortState(key, if s.dir == Asc then Desc else Asc)
    else SortState(key, Desc)
  }

  /** Clicking the same column twice restores the state; clicking a new column
      twice sorts it ascending. */
  lemma OnSortTwice(s: SortState, key: SortKey)
    ensures s.key == key ==> OnSort(OnSort(s, key), key) == s
    ensures s.key != key ==> OnSort(OnSort(s, key), key) == SortState(key, Asc)
  {
    if s.key == key {
      assert s == SortState(key, s.dir);
    }
  }

  /* ---------------------------------------------------------------------------
     The comparator (lines 42-56)
  --------------------------------------------------------------------------- */

  /** A column's value: a string, or a number (a missing ad set reads as 0). */
  datatype SortValue = Str(text: string) | Num(number: real)

  /** `(row as any)[key] ?? 0`. */
  function ValueOf(c: ComputedRow, k: SortKey): SortValue
  {
    match k
    case Name => Str(c.row.name)
    case Campaign => Str(c.row.campaign)
    case Adset => if c.row.adset.Some? then Str(c.row.adset.value) else Num(0.0)
    case Spend => Num(c.row.spend)
    case Purchases => Num(c.row.purchases)
    case Cpp => Num(c.cpp)
    case Roas => Num(c.roas)
    case Revenue => Num(c.row.revenue)
  }

  predicate IsNumeric(k: SortKey)
  {
    k in {Spend, Purchases, Cpp, Roas, Revenue}
  }

  /** `localeCompare`, taken as the lexicographic order of character codes:
      negative, zero or positive. */
  function LexCompare(a: string, b: string): (r: int)
    ensures -1 <= r <= 1
  {
    if a == [] && b == [] then 0
    else if a == [] then -1
    else if b == [] then 1
    else if a[0] < b[0] then -1
    else if a[0] > b[0] then 1
    else LexCompare(a[1..], b[1..])
  }

  lemma {:induction false} LexCompareFlip(a: string, b: string)
    ensures LexCompare(b, a) == -LexCompare(a, b)
  {
    if a != [] && b != [] && a[0] == b[0] {
      LexCompareFlip(a[1..], b[1..]);
    }
  }

  lemma {:induction false} LexCompareZero(a: string, b: string)
    ensures LexCompare(a, b) == 0 <==> a == b
  {
    if a != [] && b != [] && a[0] == b[0] {
      LexCompareZero(a[1..], b[1..]);
      assert a == [a[0]] + a[1..] && b == [b[0]] + b[1..];
    }
  }

  lemma {:induction false} LexCompareTrans(a: string, b: string, c: string)
    requires LexCompare(a, b) <= 0 && LexCompare(b, c) <= 0
    ensures LexCompare(a, c) <= 0
  {
    if a != [] && b != [] && c != [] && a[0] == b[0] && b[0] == c[0] {
      LexCompareTrans(a[1..], b[1..], c[1..]);
    }
  }

  /** The comparator's result; a string minus a number is `NaN`, which the
      sort reads as 0. */
  function CompareRows(s: SortState, a: ComputedRow, b: ComputedRow): real
  {
    var av, bv := ValueOf(a, s.key), ValueOf(b, s.key);
    if av.Str? && bv.Str? then
      (if s.dir == Asc then LexCompare(av.text, bv.text) else LexCompare(bv.text, av.text)) as real
    else if av.Num? && bv.Num? then
      (if s.dir == Asc then av.number - bv.number else bv.number - av.number)
    else 0.0
  }

  /** "`a` may stay before `b`": the comparator does not ask to swap them. */
  function Before(s: SortState): (ComputedRow, ComputedRow) -> bool
  {
    (a: ComputedRow, b: ComputedRow) => CompareRows(s, a, b) <= 0.0
  }

  /** Every column except the ad set, whose missing values compare equal to
      every string, gives a consistent order. */
  lemma BeforePreorder(s: SortState)
    requires s.key != Adset
    ensures TotalPreorder(Before(s))
  {
    var before := Before(s);
    if !IsNumeric(s.key) {
      forall x, y ensures before(x, y) || before(y, x) {
        LexCompareFlip(ValueOf(x, s.key).text, ValueOf(y, s.key).text);
      }
      forall x, y, z | before(x, y) && before(y, z) ensures before(x, z) {
        var a, b, c := ValueOf(x, s.key).text, ValueOf(y, s.key).text, ValueOf(z, s.key).text;
        if s.dir == Asc {
          LexCompareTrans(a, b, c);
        } else {
          LexCompareTrans(c, b, a);
        }
      }
    }
  }

  /** `const copy = [...computed]; copy.sort(...)`: the sorted rows are a
      permutation of `computed` (which is left as it was); for every column but
      the ad set they are the stable sort of `computed` (rows that tie keep
      their order), in the column's order, and a numeric column ascends or
      descends as the direction says. */
  method SortRows(computed: seq<ComputedRow>, s: SortState) returns (sorted: seq<ComputedRow>)
    ensures multiset(sorted) == multiset(computed)
    ensures s.key != Adset ==> SortedBy(sorted, Before(s))
    ensures s.key != Adset ==> sorted == InsertionSort(computed, Before(s))
    ensures IsNumeric(s.key) && s.dir == Asc ==>
              forall i, j :: 0 <= i < j < |sorted| ==> ValueOf(sorted[i], s.key).number <= ValueOf(sorted[j], s.key).number
    ensures IsNumeric(s.key) && s.dir == Desc ==>
              forall i, j :: 0 <= i < j < |sorted| ==> ValueOf(sorted[i], s.key).number >= ValueOf(sorted[j], s.key).number
  {
    var copy := new ComputedRow[|computed|](i requires 0 <= i < |computed| => computed[i]);
    assert copy[..] == computed;
    if s.key != Adset {
      BeforePreorder(s);
    }
    SortInPlace(copy, Before(s));
    sorted := copy[..];
    if IsNumeric(s.key) {
      SortedNumeric(sorted, s);
    }
  }

  /** Rows in a numeric column's order ascend or descend as the direction says. */
  lemma SortedNumeric(sorted: seq<ComputedRow>, s: SortState)
    requires IsNumeric(s.key) && SortedBy(sorted, Before(s))
    ensures s.dir == Asc ==>
              forall i, j :: 0 <= i < j < |sorted| ==> ValueOf(sorted[i], s.key).number <= ValueOf(sorted[j], s.key).number
    ensures s.dir == Desc ==>
              forall i, j :: 0 <= i < j < |sorted| ==> ValueOf(sorted[i], s.key).number >= ValueOf(sorted[j], s.key).number
  {
    forall i, j | 0 <= i < j < |sorted|
      ensures var a, b := ValueOf(sorted[i], s.key).number, ValueOf(sorted[j], s.key).number;
              if s.dir == Asc then a <= b else a >= b
    {
      assert Before(s)(sorted[i], sorted[j]);
    }
  }

  /** For a text column the sorted rows follow `localeCompare`, reversed when
      descending. */
  lemma SortedText(sorted: seq<ComputedRow>, s: SortState, i: int, j: int)
    requires s.key in {Name, Campaign} && SortedBy(sorted, Before(s))
    requires 0 <= i < j < |sorted|
    ensures var a, b := ValueOf(sorted[i], s.key).text, ValueOf(sorted[j], s.key).text;
            if s.dir == Asc then LexCompare(a, b) <= 0 else LexCompare(b, a) <= 0
  {
    assert Before(s)(sorted[i], sorted[j]);
  }

  /* ---------------------------------------------------------------------------
     pctChange and the badge (lines 145-148, 165-171)
  --------------------------------------------------------------------------- */

  /** `pctChange(curr, prev)`: 0 unless both values are finite and `prev` is
      not 0. */
  function PctChange(curr: Number, prev: Number): (r: real)
    ensures !IsFinite(curr) || !IsFinite(prev) || prev.value == 0.0 ==> r == 0.0
  {
    if !IsFinite(curr) || !IsFinite(prev) || prev.value == 0.0 then 0.0
    else ((curr.value - prev.value) / Abs(prev.value)) * 100.0
  }

  /** Where it is defined, the change is `(curr - prev) / |prev|` percent, and
      its sign is the sign of `curr - prev`. */
  lemma PctChangeSign(curr: real, prev: real)
    requires prev != 0.0
    ensures var r := PctChange(Finite(curr), Finite(prev));
            && r * Abs(prev) == (curr - prev) * 100.0
            && (r > 0.0 <==> curr > prev)
            && (r == 0.0 <==> curr == prev)
            && (r < 0.0 <==> curr < prev)
  {
    var q := (curr - prev) / Abs(prev);
    assert q * Abs(prev) == curr - prev;
    SignOfQuotient(curr - prev, Abs(prev));
  }

  lemma SignOfQuotient(d: real, p: real)
    requires p > 0.0
    ensures (d / p > 0.0 <==> d > 0.0) && (d / p == 0.0 <==> d == 0.0) && (d / p < 0.0 <==> d < 0.0)
  {
    assert (d / p) * p == d;
    if d / p > 0.0 {
      MulSign(d / p, p);
    }
    if d / p < 0.0 {
      MulSign(-(d / p), p);
    }
  }

  lemma MulSign(a: real, b: real)
    requires a > 0.0 && b > 0.0
    ensures a * b > 0.0
  {
  }

  /** What `NumericWithDelta` shows under a value. */
  datatype Badge = Badge(up: bool, magnitude: real)

  /** `positive = delta >= 0`, with `Math.abs(delta)` shown; `pctChange` of
      real numbers is always finite, so the badge is always shown. */
  function BadgeOf(delta: real): (b: Badge)
    ensures b.up <==> delta >= 0.0
    ensures b.magnitude >= 0.0 && (b.up ==> b.magnitude == delta) && (!b.up ==> b.magnitude == -delta)
  {
    Badge(delta >= 0.0, Abs(delta))
  }

  /** The badge points up exactly when the value did not fall (or no change can
      be computed). */
  lemma BadgeUp(curr: Number, prev: Number)
    ensures BadgeOf(PctChange(curr, prev)).up <==>
            !IsFinite(curr) || !IsFinite(prev) || prev.value == 0.0 || curr.value >= prev.value
  {
    if IsFinite(curr) && IsFinite(prev) && prev.value != 0.0 {
      PctChangeSign(curr.value, prev.value);
    }
  }
}
