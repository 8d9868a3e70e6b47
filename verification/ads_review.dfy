/** The ads review page (src/app/analytics/ads/page.tsx): the rows of one
    platform, their previous-period copies, the search box, the merge of the
    previous figures by id, the KPI sums and the comparison window. */
module AdsReview {
  import opened Options
  import opened Seqs
  import opened Text
  import opened JsNumbers
  import opened AdsTable

  /* ---------------------------------------------------------------------------
     Current and previous rows (lines 38-45)
  --------------------------------------------------------------------------- */

  function OnPlatform(p: AdPlatform): AdsRow -> bool
  {
    (r: AdsRow) => r.platform == p
  }

  /** `ADS.filter((r) => r.platform === platform)`. */
  function Current(ads: seq<AdsRow>, p: AdPlatform): seq<AdsRow>
  {
    Filter(ads, OnPlatform(p))
  }

  /** The current rows are exactly the platform's ads, in their original order. */
  lemma CurrentMeaning(ads: seq<AdsRow>, more: seq<AdsRow>, p: AdPlatform, r: AdsRow)
    ensures r in Current(ads, p) <==> r in ads && r.platform == p
    ensures Current(ads + more, p) == Current(ads, p) + Current(more, p)
  {
    FilterMembership(ads, OnPlatform(p), r);
    FilterAppend(ads, more, OnPlatform(p));
  }

  /** `{ ...r, spend: r.prevSpend, purchases: r.prevPurchases, revenue: r.prevRevenue }`. */
  function AsPrevious(r: AdsRow): (q: AdsRow)
    ensures q.spend == r.prevSpend && q.purchases == r.prevPurchases && q.revenue == r.prevRevenue
    ensures q.(spend := r.spend, purchases := r.purchases, revenue := r.revenue) == r
  {
    r.(spend := r.prevSpend, purchases := r.prevPurchases, revenue := r.prevRevenue)
  }

  function Previous(current: seq<AdsRow>): seq<AdsRow>
  {
    Map(current, AsPrevious)
  }

  /* ---------------------------------------------------------------------------
     Search (lines 51-59)
  --------------------------------------------------------------------------- */

  /** `${r.campaign} ${r.adset ?? ""} ${r.name}`. */
  function SearchText(r: AdsRow): string
  {
    r.campaign + " " + r.adset.GetOr("") + " " + r.name
  }

  function MatchesQuery(q: string): AdsRow -> bool
  {
    (r: AdsRow) => Contains(ToLower(SearchText(r)), q)
  }

  /** `rowsCurrent.filter(...)` with the lower-cased query. */
  function Searched(current: seq<AdsRow>, query: string): seq<AdsRow>
  {
    Filter(current, MatchesQuery(ToLower(query)))
  }

  /** The search keeps, in order, the rows whose text contains the query
      regardless of case, and an empty query keeps every row. */
  lemma SearchedMeaning(current: seq<AdsRow>, more: seq<AdsRow>, query: string, r: AdsRow)
    ensures r in Searched(current, query) <==> r in current && Contains(ToLower(SearchText(r)), ToLower(query))
    ensures Searched(current + more, query) == Searched(current, query) + Searched(more, query)
    ensures query == "" ==> Searched(current, query) == current
  {
    var q := ToLower(query);
    FilterMembership(current, MatchesQuery(q), r);
    FilterAppend(current, more, MatchesQuery(q));
    if query == "" {
      assert q == "";
      forall i | 0 <= i < |current| ensures MatchesQuery(q)(current[i]) {
        ContainsEmpty(ToLower(SearchText(current[i])));
      }
      FilterAll(current, MatchesQuery(q));
    }
  }

  lemma LowerOfUpper(s: string)
    ensures ToLower(ToUpper(s)) == ToLower(s)
  {
    forall i | 0 <= i < |s| ensures ToLower(ToUpper(s))[i] == ToLower(s)[i] {
      var c := s[i];
      assert ToUpper(s)[i] == UpperChar(c);
    }
  }

  /** Searching is case-blind in the query: upper-casing it changes nothing. */
  lemma SearchCaseBlind(current: seq<AdsRow>, query: string)
    ensures Searched(current, ToUpper(query)) == Searched(current, query)
  {
    LowerOfUpper(query);
  }

  /* ---------------------------------------------------------------------------
     rowsWithPrev (lines 62-73)
  --------------------------------------------------------------------------- */

  /** `new Map(rowsPrev.map((r) => [r.id, r]))`: a later row with the same id
      replaces an earlier one. */
  function PrevById(prev: seq<AdsRow>): map<string, AdsRow>
  {
    if prev == [] then map[]
    else
      var last := prev[|prev| - 1];
      PrevById(prev[..|prev| - 1])[last.id := last]
  }

  /** The map holds exactly the ids of `prev`, each bound to the last row with
      that id. */
  lemma {:induction false} PrevByIdMeaning(prev: seq<AdsRow>, id: string)
    ensures id in PrevById(prev) <==> exists i :: 0 <= i < |prev| && prev[i].id == id
    ensures id in PrevById(prev) ==>
              exists i :: 0 <= i < |prev| && prev[i] == PrevById(prev)[id] && prev[i].id == id
                          && forall j :: i < j < |prev| ==> prev[j].id != id
  {
    if prev != [] {
      var n := |prev|;
      var init := prev[..n - 1];
      PrevByIdMeaning(init, id);
      if prev[n - 1].id != id {
        if exists i :: 0 <= i < n && prev[i].id == id {
          var i :| 0 <= i < n && prev[i].id == id;
          assert init[i].id == id;
        }
        if id in PrevById(prev) {
          var i :| 0 <= i < n - 1 && init[i] == PrevById(init)[id] && init[i].id == id
                   && forall j :: i < j < n - 1 ==> init[j].id != id;
          assert prev[i] == init[i];
        }
      }
    }
  }

  /** One row of `rowsWithPrev`: the previous figures of the row with the same
      id, or 0 when there is none. */
  function WithPrevRow(m: map<string, AdsRow>): AdsRow -> AdsRow
  {
    (r: AdsRow) =>
      r.(prevSpend := if r.id in m then m[r.id].spend else 0.0,
         prevPurchases := if r.id in m then m[r.id].purchases else 0.0,
         prevRevenue := if r.id in m then m[r.id].revenue else 0.0)
  }

  function WithPrev(rows: seq<AdsRow>, prev: seq<AdsRow>): seq<AdsRow>
  {
    Map(rows, WithPrevRow(PrevById(prev)))
  }

  /** `rowsWithPrev` keeps the rows and their order; only the three previous
      figures of each row change, and they come from the last previous row with
      the same id, or are 0. */
  lemma WithPrevMeaning(rows: seq<AdsRow>, prev: seq<AdsRow>, i: int)
    requires 0 <= i < |rows|
    ensures |WithPrev(rows, prev)| == |rows|
    ensures var r, w := rows[i], WithPrev(rows, prev)[i];
            && w.(prevSpend := r.prevSpend, prevPurchases := r.prevPurchases, prevRevenue := r.prevRevenue) == r
            && ((exists k :: 0 <= k < |prev| && prev[k].id == r.id) ==>
                  exists k :: 0 <= k < |prev| && prev[k].id == r.id
                              && w.prevSpend == prev[k].spend && w.prevPurchases == prev[k].purchases
                              && w.prevRevenue == prev[k].revenue
                              && forall j :: k < j < |prev| ==> prev[j].id != r.id)
            && ((forall k :: 0 <= k < |prev| ==> prev[k].id != r.id) ==>
                  w.prevSpend == 0.0 && w.prevPurchases == 0.0 && w.prevRevenue == 0.0)
  {
    PrevByIdMeaning(prev, rows[i].id);
  }

  predicate DistinctIds(rows: seq<AdsRow>)
  {
    forall i, j :: 0 <= i < j < |rows| ==> rows[i].id != rows[j].id
  }

  /** With distinct ids, the previous copy of each current row is found again
      under its id. */
  lemma {:induction false} PrevByIdOfPrevious(current: seq<AdsRow>, r: AdsRow)
    requires DistinctIds(current) && r in current
    ensures r.id in PrevById(Previous(current)) && PrevById(Previous(current))[r.id] == AsPrevious(r)
  {
    var n := |current|;
    var init := current[..n - 1];
    assert Previous(current)[..n - 1] == Previous(init);
    if r != current[n - 1] {
      assert r in init;
      PrevByIdOfPrevious(init, r);
      assert r.id != current[n - 1].id;
    }
  }

  /** Round trip: when the ids of the platform's ads are distinct, merging the
      previous-period copies back by id restores every searched row exactly. */
  lemma WithPrevRestores(current: seq<AdsRow>, query: string)
    requires DistinctIds(current)
    ensures WithPrev(Searched(current, query), Previous(current)) == Searched(current, query)
  {
    var rows := Searched(current, query);
    var w := WithPrev(rows, Previous(current));
    forall i | 0 <= i < |rows| ensures w[i] == rows[i] {
      PrevByIdOfPrevious(current, rows[i]);
    }
  }

  /* ---------------------------------------------------------------------------
     KPIs (lines 75-107)
  --------------------------------------------------------------------------- */

  datatype Kpis = Kpis(
    spend: real, prevSpend: real, purchases: real, prevPurchases: real,
    revenue: real, prevRevenue: real, cpp: real, prevCpp: real, roas: real, prevRoas: real)

  function SpendOf(r: AdsRow): real { r.spend }
  function PurchasesOf(r: AdsRow): real { r.purchases }
  function RevenueOf(r: AdsRow): real { r.revenue }
  function PrevSpendOf(r: AdsRow): real { r.prevSpend }
  function PrevPurchasesOf(r: AdsRow): real { r.prevPurchases }
  function PrevRevenueOf(r: AdsRow): real { r.prevRevenue }

  /** `kpis`: six plain sums over the rows and the two ratios of each period,
      each 0 when its denominator is not positive. */
  function KpisOf(rows: seq<AdsRow>): (k: Kpis)
    ensures k.purchases > 0.0 ==> k.cpp * k.purchases == k.spend
    ensures k.purchases <= 0.0 ==> k.cpp == 0.0
    ensures k.prevPurchases > 0.0 ==> k.prevCpp * k.prevPurchases == k.prevSpend
    ensures k.prevPurchases <= 0.0 ==> k.prevCpp == 0.0
    ensures k.spend > 0.0 ==> k.roas * k.spend == k.revenue
    ensures k.spend <= 0.0 ==> k.roas == 0.0
    ensures k.prevSpend > 0.0 ==> k.prevRoas * k.prevSpend == k.prevRevenue
    ensures k.prevSpend <= 0.0 ==> k.prevRoas == 0.0
  {
    var spend := SumOf(rows, SpendOf);
    var prevSpend := SumOf(rows, PrevSpendOf);
    var purchases := SumOf(rows, PurchasesOf);
    var prevPurchases := SumOf(rows, PrevPurchasesOf);
    var revenue := SumOf(rows, RevenueOf);
    var prevRevenue := SumOf(rows, PrevRevenueOf);
    Kpis(spend, prevSpend, purchases, prevPurchases, revenue, prevRevenue,
         if purchases > 0.0 then spend / purchases else 0.0,
         if prevPurchases > 0.0 then prevSpend / prevPurchases else 0.0,
         if spend > 0.0 then revenue / spend else 0.0,
         if prevSpend > 0.0 then prevRevenue / prevSpend else 0.0)
  }

  /** The sums split over any division of the rows into two runs. */
  lemma KpisAppend(a: seq<AdsRow>, b: seq<AdsRow>)
    ensures KpisOf(a + b).spend == KpisOf(a).spend + KpisOf(b).spend
    ensures KpisOf(a + b).prevSpend == KpisOf(a).prevSpend + KpisOf(b).prevSpend
    ensures KpisOf(a + b).purchases == KpisOf(a).purchases + KpisOf(b).purchases
    ensures KpisOf(a + b).prevPurchases == KpisOf(a).prevPurchases + KpisOf(b).prevPurchases
    ensures KpisOf(a + b).revenue == KpisOf(a).revenue + KpisOf(b).revenue
    ensures KpisOf(a + b).prevRevenue == KpisOf(a).prevRevenue + KpisOf(b).prevRevenue
  {
    SumOfAppend(a, b, SpendOf);
    SumOfAppend(a, b, PrevSpendOf);
    SumOfAppend(a, b, PurchasesOf);
    SumOfAppend(a, b, PrevPurchasesOf);
    SumOfAppend(a, b, RevenueOf);
    SumOfAppend(a, b, PrevRevenueOf);
  }

  /** With distinct ids the previous-period sums of `rowsWithPrev` are those of
      the rows' own previous figures. */
  lemma KpisOfRestored(current: seq<AdsRow>, query: string)
    requires DistinctIds(current)
    ensures KpisOf(WithPrev(Searched(current, query), Previous(current))) == KpisOf(Searched(current, query))
  {
    WithPrevRestores(current, query);
  }

  /** The KPI badge (lines 283-284): up exactly when the value did not fall,
      or when no change can be computed. */
  lemma KpiBadgeUp(value: real, prev: real)
    ensures BadgeOf(PctChange(Finite(value), Finite(prev))).up <==> prev == 0.0 || value >= prev
  {
    BadgeUp(Finite(value), Finite(prev));
  }

  /* ---------------------------------------------------------------------------
     The comparison window (lines 23, 145, 245-261)
  --------------------------------------------------------------------------- */

  /** Milliseconds in a day. */
  const Day: int := 1000 * 60 * 60 * 24

  /** `daysBetween` on the two dates' millisecond times:
      `Math.floor(Math.max(0, b - a) / day)`. */
  function DaysBetween(a: int, b: int): (d: nat)
    ensures b <= a ==> d == 0
    ensures b > a ==> d * Day <= b - a < (d + 1) * Day
  {
    (if b - a < 0 then 0 else b - a) / Day
  }

  /** `windowDays = daysBetween(from, to) + 1`, at least one day. */
  function WindowDays(a: int, b: int): (w: nat)
    ensures w >= 1
  {
    DaysBetween(a, b) + 1
  }

  /** Between two midnights a whole number of days apart, `daysBetween` counts
      the days. */
  lemma DaysBetweenWholeDays(da: int, db: int)
    ensures DaysBetween(da * Day, db * Day) == if db < da then 0 else db - da
  {
    assert db * Day - da * Day == (db - da) * Day;
  }

  datatype QuickRange = Last7 | Last30 | Last90

  /** `pr === "7d" ? 7 : pr === "30d" ? 30 : 90`. */
  function RangeDays(pr: QuickRange): (n: nat)
    ensures n in {7, 30, 90}
  {
    if pr == Last7 then 7 else if pr == Last30 then 30 else 90
  }

  /** The day `isoNDaysAgo(n)` names, counted in days: `n - 1` days before
      today. */
  function NDaysAgo(today: int, n: int): int
  {
    today - (n - 1)
  }

  /** A quick range of `n` days, from `isoNDaysAgo(n)` to `isoToday()`, is a
      comparison window of exactly `n` days; distinct ranges give distinct
      windows. */
  lemma QuickRangeWindow(pr: QuickRange, today: int)
    ensures WindowDays(NDaysAgo(today, RangeDays(pr)) * Day, today * Day) == RangeDays(pr)
    ensures forall other: QuickRange :: other != pr ==> RangeDays(other) != RangeDays(pr)
  {
    DaysBetweenWholeDays(NDaysAgo(today, RangeDays(pr)), today);
  }
}
