/** The sitemap flow graph: columns of pages, a top-K selection per column,
    the edges between consecutive columns with their lane numbers, and the
    re-rooting of the whole journey on one entry page. */
module Sitemap {
  import opened Options
  import opened Seqs
  import opened Sorting
  import opened Text

  /** `FlowMap` as `Object.entries` lists it: (toKey, share %) pairs. */
  type FlowMap = seq<(string, real)>

  datatype PageNode = PageNode(
    key: string, title: string, path: string, visits: real, exit: real,
    to: Option<FlowMap>)

  /** A column; `labelText` is the source's `label` field (a reserved word here). */
  datatype Step = Step(labelText: string, nodes: seq<PageNode>)

  datatype Edge = Edge(
    id: string, fromKey: string, toKey: string, pct: real,
    fromOrder: nat, toOrder: nat)

  /* ---------------------------------------------------------------------------
     Helpers (lines 80-89)
  --------------------------------------------------------------------------- */

  /** `Math.max(a, Math.min(b, n))`. */
  function Clamp(n: real, a: real, b: real): (r: real)
    ensures a <= b ==> a <= r <= b
    ensures a <= n <= b ==> r == n
    ensures b < a ==> r == a
    ensures a <= b && n < a ==> r == a
    ensures a <= b && b < n ==> r == b
  {
    var m := if b < n then b else n;
    if a < m then m else a
  }

  /** Width and opacity of an edge's stroke (the colour string is formatting). */
  datatype Stroke = Stroke(width: real, alpha: real)

  function StrokeForShare(pct: real): (s: Stroke)
    ensures 1.5 <= s.width <= 6.5 && 0.35 <= s.alpha <= 0.85
  {
    var t := Clamp(pct / 100.0, 0.0, 1.0);
    Stroke(1.5 + 5.0 * t, 0.35 + 0.5 * t)
  }

  /** A larger share is never drawn thinner or lighter. */
  lemma StrokeMonotone(p: real, q: real)
    requires p <= q
    ensures StrokeForShare(p).width <= StrokeForShare(q).width
    ensures StrokeForShare(p).alpha <= StrokeForShare(q).alpha
  {
    var tp, tq := Clamp(p / 100.0, 0.0, 1.0), Clamp(q / 100.0, 0.0, 1.0);
    assert p / 100.0 <= q / 100.0;
    assert tp <= tq;
  }

  /* ---------------------------------------------------------------------------
     limitSteps (lines 188-196)
  --------------------------------------------------------------------------- */

  /** The comparator `(a, b) => b.visits - a.visits` as "a may stay before b". */
  function ByVisitsDesc(a: PageNode, b: PageNode): bool
  {
    a.visits >= b.visits
  }

  /** The filter `n.visits >= minVisits`. */
  function Frequent(minVisits: real): PageNode -> bool
  {
    (n: PageNode) => n.visits >= minVisits
  }

  /** One column: pages with enough visits, most visited first, the first `topK`. */
  function LimitColumn(nodes: seq<PageNode>, topK: int, minVisits: real): seq<PageNode>
  {
    SliceTo(InsertionSort(Filter(nodes, Frequent(minVisits)), ByVisitsDesc), topK)
  }

  function LimitSteps(steps: seq<Step>, topK: int, minVisits: real): (r: seq<Step>)
    ensures |r| == |steps|
    ensures forall i :: 0 <= i < |r| ==> r[i].labelText == steps[i].labelText
  {
    seq(|steps|, i requires 0 <= i < |steps| =>
      Step(steps[i].labelText, LimitColumn(steps[i].nodes, topK, minVisits)))
  }

  /** Each column keeps the `topK` most visited of its eligible pages (all of
      them when there are no more than `topK`), most visited first: every page
      it keeps has at least `minVisits` visits and at least as many as any
      eligible page it drops. */
  lemma LimitColumnMeaning(nodes: seq<PageNode>, topK: int, minVisits: real)
    ensures var r := LimitColumn(nodes, topK, minVisits);
            var eligible := Filter(nodes, Frequent(minVisits));
            (0 <= topK ==> |r| == if topK < |eligible| then topK else |eligible|) &&
            (topK >= |eligible| ==> multiset(r) == multiset(eligible)) &&
            multiset(r) <= multiset(eligible) &&
            multiset(r) <= multiset(nodes) &&
            (forall i :: 0 <= i < |r| ==> r[i].visits >= minVisits) &&
            (forall y, x :: y in r && x in multiset(eligible) - multiset(r) ==> y.visits >= x.visits) &&
            SortedBy(r, ByVisitsDesc)
  {
    var eligible := Filter(nodes, Frequent(minVisits));
    var r := LimitColumn(nodes, topK, minVisits);
    assert TotalPreorder(ByVisitsDesc);
    SortedSliceTop(eligible, ByVisitsDesc, topK);
    forall i | 0 <= i < |r| ensures r[i].visits >= minVisits {
      assert r[i] in multiset(eligible);
    }
    forall x ensures multiset(eligible)[x] <= multiset(nodes)[x] {
      FilterMultiset(nodes, Frequent(minVisits), x);
    }
    forall y, x | y in r && x in multiset(eligible) - multiset(r) ensures y.visits >= x.visits {
      assert ByVisitsDesc(y, x);
    }
  }

  /* ---------------------------------------------------------------------------
     buildEdges: the edges each page emits (lines 146-166)
  --------------------------------------------------------------------------- */

  /** The comparator `(a, b) => b[1] - a[1]` as "a may stay before b". */
  function ByShareDesc(a: (string, real), b: (string, real)): bool
  {
    a.1 >= b.1
  }

  /** The filter `pct >= minShare`. */
  function Strong(minShare: real): ((string, real)) -> bool
  {
    (entry: (string, real)) => entry.1 >= minShare
  }

  /** The page's outbound entries above the share threshold, largest share first. */
  function Outbound(to: FlowMap, minShare: real): seq<(string, real)>
  {
    InsertionSort(Filter(to, Strong(minShare)), ByShareDesc)
  }

  /** How many of `count` sorted entries survive `if (!showAll && idx >= top) return`. */
  function Emitted(count: nat, showAll: bool, top: int): (k: nat)
    ensures k <= count
    ensures showAll ==> k == count
    ensures !showAll ==> (0 < k ==> k <= top) && (k < count ==> top <= k)
  {
    if showAll || count <= top then count else if top < 0 then 0 else top
  }

  function EdgeId(fromKey: string, toKey: string, idx: nat): string
  {
    "e-" + fromKey + "-" + toKey + "-" + NatToString(idx)
  }

  /** The first `k` outbound entries of page `key` as edges, before lane assignment. */
  function EdgesOf(key: string, out: seq<(string, real)>, k: nat): (r: seq<Edge>)
    requires k <= |out|
    ensures |r| == k
  {
    seq(k, i requires 0 <= i < k =>
      Edge(EdgeId(key, out[i].0, i), key, out[i].0, out[i].1, i, 0))
  }

  function NodeEdges(n: PageNode, showAll: bool, top: int, minShare: real): seq<Edge>
  {
    match n.to
    case None => []
    case Some(to) =>
      var out := Outbound(to, minShare);
      EdgesOf(n.key, out, Emitted(|out|, showAll, top))
  }

  /** The edges of a column's pages, in page order. */
  function ColumnEdges(nodes: seq<PageNode>, showAll: bool, top: int, minShare: real): seq<Edge>
  {
    if nodes == [] then []
    else ColumnEdges(nodes[..|nodes| - 1], showAll, top, minShare)
         + NodeEdges(nodes[|nodes| - 1], showAll, top, minShare)
  }

  /** The edges of columns `0 .. s - 1`. */
  function StepsEdges(steps: seq<Step>, s: nat, showAll: bool, top: int, minShare: real): seq<Edge>
    requires s <= |steps|
  {
    if s == 0 then []
    else StepsEdges(steps, s - 1, showAll, top, minShare)
         + ColumnEdges(steps[s - 1].nodes, showAll, top, minShare)
  }

  /** Every column but the last emits edges. */
  function RawEdges(steps: seq<Step>, showAll: bool, top: int, minShare: real): seq<Edge>
  {
    if |steps| == 0 then [] else StepsEdges(steps, |steps| - 1, showAll, top, minShare)
  }

  /** `e` is one of the entries of page `n`, above the threshold. */
  ghost predicate FromEntry(n: PageNode, e: Edge, minShare: real)
  {
    && n.to.Some? && e.fromKey == n.key && (e.toKey, e.pct) in n.to.value
    && e.pct >= minShare
  }

  /** A page without `to` emits nothing; with `to`, it emits at most `top`
      edges unless `showAll`, each one an entry above the threshold, and no
      entry it leaves out has a larger share than one it emits. */
  lemma NodeEdgesMeaning(n: PageNode, showAll: bool, top: int, minShare: real)
    ensures var r := NodeEdges(n, showAll, top, minShare);
            && (n.to.None? ==> r == [])
            && (!showAll ==> |r| <= (if top < 0 then 0 else top))
            && (forall e :: e in r ==> FromEntry(n, e, minShare))
  {
    var r := NodeEdges(n, showAll, top, minShare);
    if n.to.Some? {
      var out := Outbound(n.to.value, minShare);
      forall e | e in r ensures FromEntry(n, e, minShare) {
        var i :| 0 <= i < |r| && r[i] == e;
        assert out[i] in multiset(out);
        FilterMembership(n.to.value, Strong(minShare), out[i]);
      }
    }
  }

  /** The emitted edges are the highest-share entries: an entry above the
      threshold that is left out has no larger share than any emitted edge. */
  lemma NodeEdgesTop(n: PageNode, showAll: bool, top: int, minShare: real, entry: (string, real), e: Edge)
    requires n.to.Some? && entry in n.to.value && entry.1 >= minShare
    requires e in NodeEdges(n, showAll, top, minShare)
    requires forall f :: f in NodeEdges(n, showAll, top, minShare) ==> (f.toKey, f.pct) != entry
    ensures entry.1 <= e.pct
  {
    var to := n.to.value;
    var out := Outbound(to, minShare);
    var k := Emitted(|out|, showAll, top);
    var r := EdgesOf(n.key, out, k);
    OutboundSorted(to, minShare);
    InOutbound(to, minShare, entry);
    var q :| 0 <= q < |out| && out[q] == entry;
    var p :| 0 <= p < |r| && r[p] == e;
    forall i | 0 <= i < k ensures out[i] != entry {
      assert r[i] in r;
    }
    assert ByShareDesc(out[p], out[q]);
  }

  lemma OutboundSorted(to: FlowMap, minShare: real)
    ensures SortedBy(Outbound(to, minShare), ByShareDesc)
  {
    assert TotalPreorder(ByShareDesc);
    InsertionSortSorted(Filter(to, Strong(minShare)), ByShareDesc);
  }

  /** Every entry above the threshold is among the sorted outbound entries. */
  lemma InOutbound(to: FlowMap, minShare: real, entry: (string, real))
    requires entry in to && entry.1 >= minShare
    ensures entry in Outbound(to, minShare)
  {
    FilterMembership(to, Strong(minShare), entry);
    assert entry in multiset(Outbound(to, minShare));
  }

  lemma {:induction false} ColumnEdgesOrigin(nodes: seq<PageNode>, showAll: bool, top: int, minShare: real, e: Edge)
    requires e in ColumnEdges(nodes, showAll, top, minShare)
    ensures exists n :: n in nodes && FromEntry(n, e, minShare)
  {
    var last := nodes[|nodes| - 1];
    if e in NodeEdges(last, showAll, top, minShare) {
      NodeEdgesMeaning(last, showAll, top, minShare);
      assert FromEntry(last, e, minShare);
    } else {
      ColumnEdgesOrigin(nodes[..|nodes| - 1], showAll, top, minShare, e);
      var n :| n in nodes[..|nodes| - 1] && FromEntry(n, e, minShare);
      assert n in nodes;
    }
  }

  lemma {:induction false} StepsEdgesOrigin(steps: seq<Step>, s: nat, showAll: bool, top: int, minShare: real, e: Edge)
    requires s <= |steps|
    requires e in StepsEdges(steps, s, showAll, top, minShare)
    ensures exists c, n :: 0 <= c < s && n in steps[c].nodes && FromEntry(n, e, minShare)
  {
    if e in ColumnEdges(steps[s - 1].nodes, showAll, top, minShare) {
      ColumnEdgesOrigin(steps[s - 1].nodes, showAll, top, minShare, e);
      var n :| n in steps[s - 1].nodes && FromEntry(n, e, minShare);
      assert 0 <= s - 1 < s && n in steps[s - 1].nodes;
    } else {
      StepsEdgesOrigin(steps, s - 1, showAll, top, minShare, e);
    }
  }

  /** Every edge starts at a page of a column other than the last and is one of
      that page's entries, with a share of at least `minShare`. */
  lemma RawEdgesOrigin(steps: seq<Step>, showAll: bool, top: int, minShare: real, e: Edge)
    requires e in RawEdges(steps, showAll, top, minShare)
    ensures exists c, n :: 0 <= c < |steps| - 1 && n in steps[c].nodes && FromEntry(n, e, minShare)
  {
    StepsEdgesOrigin(steps, |steps| - 1, showAll, top, minShare, e);
  }

  lemma {:induction false} StepsEdgesPrefix(steps: seq<Step>, other: seq<Step>, s: nat, showAll: bool, top: int, minShare: real)
    requires s <= |steps| && s <= |other| && steps[..s] == other[..s]
    ensures StepsEdges(steps, s, showAll, top, minShare) == StepsEdges(other, s, showAll, top, minShare)
  {
    if s > 0 {
      assert steps[..s - 1] == other[..s - 1];
      assert steps[s - 1] == steps[..s][s - 1];
      assert other[s - 1] == other[..s][s - 1];
      StepsEdgesPrefix(steps, other, s - 1, showAll, top, minShare);
    }
  }

  /** The pages of the last column emit nothing: replacing that column leaves
      the edges as they are. */
  lemma LastColumnSilent(steps: seq<Step>, last: Step, showAll: bool, top: int, minShare: real)
    requires steps != []
    ensures RawEdges(steps[..|steps| - 1] + [last], showAll, top, minShare)
         == RawEdges(steps, showAll, top, minShare)
  {
    var other := steps[..|steps| - 1] + [last];
    var s := |steps| - 1;
    assert |other| == |steps|;
    assert other[..s] == steps[..s];
    StepsEdgesPrefix(steps, other, s, showAll, top, minShare);
    assert RawEdges(other, showAll, top, minShare) == StepsEdges(other, s, showAll, top, minShare);
  }

  /* ---------------------------------------------------------------------------
     buildEdges: lane numbers (lines 168-182)
  --------------------------------------------------------------------------- */

  /** Lanes are numbered per source page (`fromOrder`) and per destination page
      (`toOrder`). */
  datatype Side = From | To

  function KeyOn(e: Edge, side: Side): string
  {
    if side == From then e.fromKey else e.toKey
  }

  function SetLane(e: Edge, side: Side, lane: nat): (r: Edge)
    ensures KeyOn(r, From) == KeyOn(e, From) && KeyOn(r, To) == KeyOn(e, To) && r.pct == e.pct
  {
    if side == From then e.(fromOrder := lane) else e.(toOrder := lane)
  }

  /** What lane numbering looks at: each edge's page on that side, and its share. */
  type LaneKey = (string, real)

  function LaneKeys(es: seq<Edge>, side: Side): (ks: seq<LaneKey>)
    ensures |ks| == |es|
    ensures forall j :: 0 <= j < |es| ==> ks[j] == (KeyOn(es[j], side), es[j].pct)
  {
    seq(|es|, j requires 0 <= j < |es| => (KeyOn(es[j], side), es[j].pct))
  }

  /** Edge `i` takes a lower lane than edge `j`: a larger share, or the same share
      and an earlier edge (the sort is stable and each group lists its edges in
      edge order). */
  predicate Ahead(ks: seq<LaneKey>, i: nat, j: nat)
  {
    i < |ks| && j < |ks| && (ks[i].1 > ks[j].1 || (ks[i].1 == ks[j].1 && i < j))
  }

  function InGroup(ks: seq<LaneKey>, key: string): nat -> bool
  {
    (i: nat) => i < |ks| && ks[i].0 == key
  }

  /** The edges of one page, in edge order: `byFrom[key]` or `byTo[key]`. */
  function Group(ks: seq<LaneKey>, key: string): seq<nat>
  {
    Filter(Indices(|ks|), InGroup(ks, key))
  }

  function AheadOf(ks: seq<LaneKey>, j: nat): nat -> bool
  {
    (i: nat) => Ahead(ks, i, j)
  }

  function AheadInGroup(ks: seq<LaneKey>, j: nat): nat -> bool
  {
    (i: nat) => i < |ks| && j < |ks| && ks[i].0 == ks[j].0 && Ahead(ks, i, j)
  }

  /** The lane of edge `j`: how many edges of its group go ahead of it. */
  function Lane(ks: seq<LaneKey>, j: nat): nat
  {
    |Filter(Indices(|ks|), AheadInGroup(ks, j))|
  }

  function Share(ks: seq<LaneKey>, a: nat): real
  {
    if a < |ks| then ks[a].1 else 0.0
  }

  /** The comparator `(a, b) => b.pct - a.pct` on edge indices. */
  function LaneBefore(ks: seq<LaneKey>): (nat, nat) -> bool
  {
    (a: nat, b: nat) => Share(ks, a) >= Share(ks, b)
  }

  function Earlier(): (nat, nat) -> bool
  {
    (a: nat, b: nat) => a < b
  }

  /** The edges after lane numbering on both sides. */
  function Laned(es: seq<Edge>): (r: seq<Edge>)
    ensures |r| == |es|
  {
    seq(|es|, j requires 0 <= j < |es| =>
      es[j].(fromOrder := Lane(LaneKeys(es, From), j), toOrder := Lane(LaneKeys(es, To), j)))
  }

  lemma GroupMember(ks: seq<LaneKey>, key: string, x: nat)
    ensures x in Group(ks, key) <==> x < |ks| && ks[x].0 == key
  {
    FilterMembership(Indices(|ks|), InGroup(ks, key), x);
    if x < |ks| {
      assert Indices(|ks|)[x] == x;
    }
  }

  /** `list.sort((a, b) => b.pct - a.pct)` on the group's list. */
  function SortedGroup(ks: seq<LaneKey>, key: string): (list: seq<nat>)
    ensures multiset(list) == multiset(Group(ks, key))
  {
    InsertionSort<nat>(Group(ks, key), LaneBefore(ks))
  }

  /** A group's edges, stably sorted by share, are in lane order. */
  lemma SortedGroupAhead(ks: seq<LaneKey>, key: string)
    ensures var list := SortedGroup(ks, key);
            forall p, q :: 0 <= p < q < |list| ==> Ahead(ks, list[p], list[q])
  {
    var group := Group(ks, key);
    var list := SortedGroup(ks, key);
    var lex := ThenBy(LaneBefore(ks), Earlier());
    assert TotalPreorder(LaneBefore(ks));
    assert SortedBy(Indices(|ks|), Earlier());
    FilterSorted(Indices(|ks|), InGroup(ks, key), Earlier());
    InsertionSortThenBy(group, LaneBefore(ks), Earlier());
    forall p, q | 0 <= p < q < |list| ensures Ahead(ks, list[p], list[q]) {
      assert lex(list[p], list[q]);
      assert list[p] in multiset(group) && list[q] in multiset(group);
      GroupMember(ks, key, list[p]);
      GroupMember(ks, key, list[q]);
    }
  }

  /** In a list in lane order, exactly the elements before position `p` go
      ahead of the one at `p`. */
  lemma ListPosition(ks: seq<LaneKey>, list: seq<nat>, p: nat)
    requires p < |list|
    requires forall a, b :: 0 <= a < b < |list| ==> Ahead(ks, list[a], list[b])
    ensures |Filter(list, AheadOf(ks, list[p]))| == p
  {
    var j := list[p];
    var tail := list[p + 1..];
    assert list == list[..p] + [j] + tail;
    FilterAppend(list[..p] + [j], tail, AheadOf(ks, j));
    FilterAppend(list[..p], [j], AheadOf(ks, j));
    FilterAll(list[..p], AheadOf(ks, j));
    FilterNone([j], AheadOf(ks, j));
    forall q | 0 <= q < |tail| ensures !AheadOf(ks, j)(tail[q]) {
      assert tail[q] == list[p + 1 + q];
      assert Ahead(ks, j, list[p + 1 + q]);
    }
    FilterNone(tail, AheadOf(ks, j));
  }

  /** In a group's sorted list, the edge at position `p` has lane `p`. */
  lemma LanePosition(ks: seq<LaneKey>, key: string, p: nat)
    requires p < |SortedGroup(ks, key)|
    ensures var j := SortedGroup(ks, key)[p];
            j < |ks| && ks[j].0 == key && Lane(ks, j) == p
  {
    var group := Group(ks, key);
    var list := SortedGroup(ks, key);
    var j := list[p];
    SortedGroupAhead(ks, key);
    assert j in multiset(group);
    GroupMember(ks, key, j);
    ListPosition(ks, list, p);
    FilterLengthPermutation(group, list, AheadOf(ks, j));
    FilterFilter(Indices(|ks|), InGroup(ks, key), AheadOf(ks, j), AheadInGroup(ks, j));
  }

  /** An edge ahead of another in the same group has a lower lane. */
  lemma LaneOrder(ks: seq<LaneKey>, i: nat, j: nat)
    requires Ahead(ks, i, j) && ks[i].0 == ks[j].0
    ensures Lane(ks, i) < Lane(ks, j)
  {
    assert forall x :: AheadInGroup(ks, i)(x) ==> AheadInGroup(ks, j)(x);
    assert Indices(|ks|)[i] == i;
    FilterLengthMono(Indices(|ks|), AheadInGroup(ks, i), AheadInGroup(ks, j), i);
  }

  /** Lanes number a page's edges `0 .. k - 1`, where `k` is how many edges the
      page has on that side: each lane is below `k`, two edges never share a
      lane, every lane below `k` is taken, and a larger share gets a lower lane. */
  lemma LaneMeaning(ks: seq<LaneKey>, i: nat, j: nat)
    requires i < |ks| && j < |ks| && ks[i].0 == ks[j].0
    ensures Lane(ks, j) < |Group(ks, ks[j].0)|
    ensures i != j ==> Lane(ks, i) != Lane(ks, j)
    ensures ks[i].1 > ks[j].1 ==> Lane(ks, i) < Lane(ks, j)
  {
    assert Indices(|ks|)[j] == j;
    FilterLengthMono(Indices(|ks|), AheadInGroup(ks, j), InGroup(ks, ks[j].0), j);
    if Ahead(ks, i, j) {
      LaneOrder(ks, i, j);
    } else if Ahead(ks, j, i) {
      LaneOrder(ks, j, i);
    }
  }

  lemma LaneOnto(ks: seq<LaneKey>, key: string, p: nat)
    requires p < |Group(ks, key)|
    ensures exists j :: 0 <= j < |ks| && ks[j].0 == key && Lane(ks, j) == p
  {
    var list := SortedGroup(ks, key);
    assert |list| == |multiset(list)| == |Group(ks, key)|;
    LanePosition(ks, key, p);
    var j := list[p];
    assert 0 <= j < |ks| && ks[j].0 == key && Lane(ks, j) == p;
  }

  lemma GroupStep(ks: seq<LaneKey>, j: nat, key: string)
    requires j < |ks|
    ensures Filter(Indices(j + 1), InGroup(ks, key))
         == Filter(Indices(j), InGroup(ks, key)) + (if ks[j].0 == key then [j] else [])
  {
    assert Indices(j + 1) == Indices(j) + [j];
    FilterAppend(Indices(j), [j], InGroup(ks, key));
  }

  /** `byFrom` / `byTo`: each page's edges, in edge order. */
  method GroupBy(ks: seq<LaneKey>) returns (groups: map<string, seq<nat>>)
    ensures forall key :: key in groups ==> groups[key] == Group(ks, key)
    ensures forall j :: 0 <= j < |ks| ==> ks[j].0 in groups
  {
    groups := map[];
    for j := 0 to |ks|
      invariant forall key :: key in groups ==> groups[key] == Filter(Indices(j), InGroup(ks, key))
      invariant forall key :: key !in groups ==> Filter(Indices(j), InGroup(ks, key)) == []
    {
      forall key ensures Filter(Indices(j + 1), InGroup(ks, key))
                      == Filter(Indices(j), InGroup(ks, key)) + (if ks[j].0 == key then [j] else []) {
        GroupStep(ks, j, key);
      }
      var key := ks[j].0;
      if key in groups {
        groups := groups[key := groups[key] + [j]];
      } else {
        groups := groups[key := [j]];
      }
    }
    forall j | 0 <= j < |ks| ensures ks[j].0 in groups {
      GroupMember(ks, ks[j].0, j);
    }
  }

  /** `list.forEach((e, i) => (e.fromOrder = i))` on one page's sorted list. */
  method NumberGroup(ks: seq<LaneKey>, key: string, side: Side, es: seq<Edge>) returns (r: seq<Edge>)
    requires |es| == |ks|
    ensures |r| == |es|
    ensures forall j :: 0 <= j < |es| ==>
      r[j] == if ks[j].0 == key then SetLane(es[j], side, Lane(ks, j)) else es[j]
  {
    var list := SortedGroup(ks, key);
    SortedGroupAhead(ks, key);
    r := es;
    for p := 0 to |list|
      invariant |r| == |es|
      invariant forall j :: 0 <= j < |es| ==>
        r[j] == if j in list[..p] then SetLane(es[j], side, Lane(ks, j)) else es[j]
    {
      var j := list[p];
      LanePosition(ks, key, p);
      assert list[..p + 1] == list[..p] + [j];
      assert j !in list[..p] by {
        forall q | 0 <= q < p ensures list[q] != j {
          assert Ahead(ks, list[q], list[p]);
        }
      }
      r := r[j := SetLane(r[j], side, p)];
    }
    assert list[..|list|] == list;
    forall j | 0 <= j < |es| ensures j in list <==> ks[j].0 == key {
      assert j in list <==> j in multiset(Group(ks, key));
      GroupMember(ks, key, j);
    }
  }

  /** Groups the edges by the page on `side` and numbers each group's lanes in
      share order: the `byFrom` or the `byTo` pass. */
  method AssignLanes(es: seq<Edge>, side: Side) returns (r: seq<Edge>)
    ensures |r| == |es|
    ensures forall j :: 0 <= j < |es| ==> r[j] == SetLane(es[j], side, Lane(LaneKeys(es, side), j))
  {
    var ks := LaneKeys(es, side);
    var groups := GroupBy(ks);
    r := es;
    var todo := groups.Keys;
    while todo != {}
      invariant todo <= groups.Keys
      invariant |r| == |es|
      invariant forall j :: 0 <= j < |es| ==>
        r[j] == if ks[j].0 in todo then es[j] else SetLane(es[j], side, Lane(ks, j))
      decreases |todo|
    {
      var key :| key in todo;
      r := NumberGroup(ks, key, side, r);
      todo := todo - {key};
    }
  }

  lemma ColumnEdgesSnoc(nodes: seq<PageNode>, i: nat, showAll: bool, top: int, minShare: real)
    requires i < |nodes|
    ensures ColumnEdges(nodes[..i + 1], showAll, top, minShare)
         == ColumnEdges(nodes[..i], showAll, top, minShare) + NodeEdges(nodes[i], showAll, top, minShare)
  {
    assert nodes[..i + 1][..i] == nodes[..i];
  }

  /** One page's `out.forEach`: its sorted outbound entries, up to the cap. */
  method EmitEdges(n: PageNode, showAll: bool, top: int, minShare: real) returns (edges: seq<Edge>)
    requires n.to.Some?
    ensures edges == NodeEdges(n, showAll, top, minShare)
  {
    var key := n.key;
    var out := Outbound(n.to.value, minShare);
    edges := [];
    for idx := 0 to |out|
      invariant edges == EdgesOf(key, out, Emitted(idx, showAll, top))
    {
      if showAll || idx < top {
        var e := Edge(EdgeId(key, out[idx].0, idx), key, out[idx].0, out[idx].1, idx, 0);
        assert EdgesOf(key, out, idx + 1) == EdgesOf(key, out, idx) + [e];
        edges := edges + [e];
      }
    }
  }

  /** The inner loop of `buildEdges`: one column's pages in order. */
  method CollectColumn(nodes: seq<PageNode>, showAll: bool, top: int, minShare: real) returns (edges: seq<Edge>)
    ensures edges == ColumnEdges(nodes, showAll, top, minShare)
  {
    edges := [];
    for i := 0 to |nodes|
      invariant edges == ColumnEdges(nodes[..i], showAll, top, minShare)
    {
      var n := nodes[i];
      ColumnEdgesSnoc(nodes, i, showAll, top, minShare);
      if n.to.Some? {
        var added := EmitEdges(n, showAll, top, minShare);
        edges := edges + added;
      } else {
        assert NodeEdges(n, showAll, top, minShare) == [];
      }
    }
    assert nodes[..|nodes|] == nodes;
  }

  /** The outer loop of `buildEdges`: every column but the last. */
  method CollectEdges(steps: seq<Step>, showAll: bool, top: int, minShare: real) returns (edges: seq<Edge>)
    ensures edges == RawEdges(steps, showAll, top, minShare)
  {
    edges := [];
    var last := if |steps| == 0 then 0 else |steps| - 1;
    for s := 0 to last
      invariant edges == StepsEdges(steps, s, showAll, top, minShare)
    {
      var column := CollectColumn(steps[s].nodes, showAll, top, minShare);
      edges := edges + column;
    }
  }

  /** `buildEdges`: the page entries as edges, then lanes on both sides. */
  method BuildEdges(steps: seq<Step>, showAll: bool, top: int, minShare: real) returns (edges: seq<Edge>)
    ensures edges == Laned(RawEdges(steps, showAll, top, minShare))
  {
    var raw := CollectEdges(steps, showAll, top, minShare);
    var fromLaned := AssignLanes(raw, From);
    assert LaneKeys(fromLaned, To) == LaneKeys(raw, To);
    edges := AssignLanes(fromLaned, To);
  }

  /* ---------------------------------------------------------------------------
     filterJourney (lines 199-219)
  --------------------------------------------------------------------------- */

  /** `Object.keys(n.to)`, as a set. */
  function Targets(n: PageNode): set<string>
  {
    match n.to
    case None => {}
    case Some(to) => set entry | entry in to :: entry.0
  }

  /** The pages some page of `nodes` links to: the `next` set. */
  function TargetsOf(nodes: seq<PageNode>): set<string>
  {
    set n, k | n in nodes && k in Targets(n) :: k
  }

  function KeyIn(keys: set<string>): PageNode -> bool
  {
    (n: PageNode) => n.key in keys
  }

  /** The `allowed` set when column `s` is reached: the root for column 0, then
      whatever the pages kept in the previous column link to. */
  function Allowed(steps: seq<Step>, root: string, s: nat): set<string>
    requires s <= |steps|
    decreases s, 0
  {
    if s == 0 then {root} else TargetsOf(Kept(steps, root, s - 1))
  }

  /** The pages column `s` keeps. */
  function Kept(steps: seq<Step>, root: string, s: nat): seq<PageNode>
    requires s < |steps|
    decreases s, 1
  {
    Filter(steps[s].nodes, KeyIn(Allowed(steps, root, s)))
  }

  /** Every key of a page kept in some column: `keptKeys`. */
  function KeysIn(steps: seq<Step>): set<string>
  {
    set c, n | 0 <= c < |steps| && n in steps[c].nodes :: n.key
  }

  /** The columns of a journey rooted at `root`, labels kept. */
  function JourneySteps(steps: seq<Step>, root: string): (r: seq<Step>)
    ensures |r| == |steps|
    ensures forall s :: 0 <= s < |steps| ==> r[s] == Step(steps[s].labelText, Kept(steps, root, s))
  {
    seq(|steps|, s requires 0 <= s < |steps| => Step(steps[s].labelText, Kept(steps, root, s)))
  }

  function EdgeKept(keys: set<string>): Edge -> bool
  {
    (e: Edge) => e.fromKey in keys && e.toKey in keys
  }

  /** `filterJourney`: without a root (null or empty) everything stays; with one,
      the journey is re-rooted column by column and the edges between kept pages
      stay. */
  function Journey(steps: seq<Step>, edges: seq<Edge>, rootKey: Option<string>): (r: (seq<Step>, seq<Edge>))
    ensures |r.0| == |steps|
    ensures forall s :: 0 <= s < |steps| ==> r.0[s].labelText == steps[s].labelText
    ensures rootKey.None? || rootKey == Some("") ==> r == (steps, edges)
  {
    if rootKey.None? || rootKey.value == "" then (steps, edges)
    else
      var out := JourneySteps(steps, rootKey.value);
      (out, Filter(edges, EdgeKept(KeysIn(out))))
  }

  /** With a root: column 0 keeps exactly its pages keyed by the root, and
      column `s + 1` exactly its pages that a page kept in column `s` links to. */
  lemma JourneyColumns(steps: seq<Step>, edges: seq<Edge>, root: string, s: nat, n: PageNode)
    requires root != "" && s < |steps|
    ensures var out := Journey(steps, edges, Some(root)).0;
            && (s == 0 ==> (n in out[0].nodes <==> n in steps[0].nodes && n.key == root))
            && (s > 0 ==> (n in out[s].nodes <==>
                  n in steps[s].nodes && exists m :: m in out[s - 1].nodes && n.key in Targets(m)))
  {
    FilterMembership(steps[s].nodes, KeyIn(Allowed(steps, root, s)), n);
  }

  /** With a root, the kept columns are sub-lists of the original columns. */
  lemma JourneyShrinks(steps: seq<Step>, edges: seq<Edge>, root: string, s: nat, n: PageNode)
    requires root != "" && s < |steps|
    ensures multiset(Journey(steps, edges, Some(root)).0[s].nodes)[n] <= multiset(steps[s].nodes)[n]
  {
    FilterMultiset(steps[s].nodes, KeyIn(Allowed(steps, root, s)), n);
  }

  /** With a root, exactly the edges whose two ends are kept pages stay, in
      their order. */
  lemma JourneyEdges(steps: seq<Step>, edges: seq<Edge>, root: string, e: Edge)
    requires root != ""
    ensures var r := Journey(steps, edges, Some(root));
            e in r.1 <==> (e in edges
              && (exists c, n :: 0 <= c < |r.0| && n in r.0[c].nodes && n.key == e.fromKey)
              && (exists c, n :: 0 <= c < |r.0| && n in r.0[c].nodes && n.key == e.toKey))
  {
    var r := Journey(steps, edges, Some(root));
    FilterMembership(edges, EdgeKept(KeysIn(r.0)), e);
  }

  /** The journey loop: `keep`, then `next` from the kept pages' `to` keys. */
  method FilterJourney(steps: seq<Step>, edges: seq<Edge>, rootKey: Option<string>)
    returns (outSteps: seq<Step>, outEdges: seq<Edge>)
    ensures (outSteps, outEdges) == Journey(steps, edges, rootKey)
  {
    if rootKey.None? || rootKey.value == "" {
      return steps, edges;
    }
    var root := rootKey.value;
    outSteps := [];
    var allowed: set<string> := {root};
    for s := 0 to |steps|
      invariant |outSteps| == s
      invariant forall c :: 0 <= c < s ==> outSteps[c] == Step(steps[c].labelText, Kept(steps, root, c))
      invariant allowed == Allowed(steps, root, s)
    {
      var col := steps[s];
      var keep := Filter(col.nodes, KeyIn(allowed));
      assert keep == Kept(steps, root, s);
      outSteps := outSteps + [Step(col.labelText, keep)];
      var next := CollectTargets(keep);
      allowed := next;
    }
    assert outSteps == JourneySteps(steps, root);
    var keptKeys := KeysIn(outSteps);
    outEdges := Filter(edges, EdgeKept(keptKeys));
  }

  lemma TargetsOfSnoc(nodes: seq<PageNode>, n: PageNode)
    ensures TargetsOf(nodes + [n]) == TargetsOf(nodes) + Targets(n)
  {
    forall k | k in TargetsOf(nodes + [n]) ensures k in TargetsOf(nodes) + Targets(n) {
      var m :| m in nodes + [n] && k in Targets(m);
      if m != n {
        assert m in nodes;
      }
    }
  }

  /** `keep.forEach((n) => n.to && Object.keys(n.to).forEach((k) => next.add(k)))`. */
  method CollectTargets(keep: seq<PageNode>) returns (next: set<string>)
    ensures next == TargetsOf(keep)
  {
    next := {};
    for i := 0 to |keep|
      invariant next == TargetsOf(keep[..i])
    {
      var n := keep[i];
      assert keep[..i + 1] == keep[..i] + [n];
      TargetsOfSnoc(keep[..i], n);
      if n.to.Some? {
        var to := n.to.value;
        ghost var prev := next;
        for k := 0 to |to|
          invariant next == prev + set entry | entry in to[..k] :: entry.0
        {
          assert to[..k + 1] == to[..k] + [to[k]];
          next := next + {to[k].0};
        }
        assert to[..|to|] == to;
      }
    }
    assert keep[..|keep|] == keep;
  }
}
