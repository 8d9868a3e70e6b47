# Attribix analytics core in Dafny

This project models the calculations behind the Attribix marketing
dashboard and proves what each of them promises. The dashboard is a
Next.js application; the modelled parts are:

- **Multi-touch attribution** (`attribute`). Each converted order carries a
  path of touches. The order value is split among the channels of those
  touches under the "last", "first", "linear" or "timeDecay" model. The
  function then totals revenue and conversions per channel, sorts the
  channels by revenue and sums the grand totals.
- **Sitemap flow view**:
  - `clamp` and `strokeForShare`;
  - `limitSteps`, which keeps the most visited pages of each column;
  - `buildEdges`, which turns each page's outbound shares into edges and then
    numbers the lanes per source and per destination;
  - `filterJourney`, which re-roots the flow on one first-column page.
- **Features-page playground** (`usePlayground`):
  - the model's nudge;
  - `setAllocOne`, which re-spreads the budget allocation so that it still
    adds up to 100%;
  - the revenue and purchase projection, its blended ratios and the fixed
    base line;
  - the `DeltaChip` classification and the `cx` class-name helper.
- **Customer list**:
  - e-mail and phone normalisation and first/last name splitting;
  - the search box;
  - the three CSV exporters: Google Customer Match, Meta Custom Audiences and
    the raw attribution list.
- **Ads review**:
  - the table's derived ratios, its sort state machine and comparator, and
    `pctChange` with its badge;
  - on the page: the platform filter, the previous-period copy, the search,
    the merge of previous figures by id, the KPI sums, `daysBetween` and the
    quick-range presets.
- **Navigation**: the "active link" predicate and the section headers of the
  analytics layout and of the sidebar.

Representation choices:

- Money, shares and percentages are `real`. JavaScript numbers that may be
  `NaN` or infinite are the `Number` datatype of `JsNumbers`.
- `Math.round(x)` is `Floor(x + 0.5)`.
- A JavaScript object whose key order matters (`shares`, `totals`) is a key
  sequence plus a map, or a list of entries in insertion order.
- `Array.prototype.sort` is a stable insertion sort. Both kinds are modelled:
  - a function on sequences (`Sorting.InsertionSort`), which the
    specifications use;
  - an in-place method on an array (`Sorting.SortInPlace`), which the ads
    table's copy-then-sort uses. For a consistent comparator its result is
    proved equal to the function's, so rows that tie keep their order.
- The imperative code is modelled as methods:
  - the attribution loop, the push/convert loops, the edge-building loops and
    the journey loop;
  - the allocation `forEach` and the projection loop;
  - the exporters.

  Each method is proved equal to a specification function. The promised
  properties are proved about those functions.
- The playground's React state is a class, `Playground.PlaygroundState`. Its
  setters keep the allocation non-negative and summing to 100.

## Model

| member | source | states |
|---|---|---|
| Attribution.Attribute | src/app/analytics/attribution/logic.ts:8-79 | The loop over the orders, the channel sort and the two reductions return exactly the `Attribution` report. |
| Attribution.RecordOrder | src/app/analytics/attribution/logic.ts:51-58 | Pushing every credited channel's amount and then adding one conversion per credited channel gives `Record(totals, shares)`. |
| Attribution.SumChannels | src/app/analytics/attribution/logic.ts:75-76 | The two reductions are the sums of the channels' revenue and conversions. |
| Attribution.ComputeShares | src/app/analytics/attribution/logic.ts:27-49 | The `shares` object built for a non-empty path is the model's specification `SharesFor`. |
| Attribution.SpreadLinear | src/app/analytics/attribution/logic.ts:37-39 | The linear loop credits each touch `orderValue * (1/L)`, accumulating on repeated channels. |
| Attribution.SpreadTimeDecay | src/app/analytics/attribution/logic.ts:40-48 | The time-decay loop credits touch i `orderValue * (2^i / sumW)`, accumulating on repeated channels. |
| Attribution.DecayWeights | src/app/analytics/attribution/logic.ts:43 | There is one weight per touch. |
| Attribution.DecayWeightsSum | src/app/analytics/attribution/logic.ts:43-44 | `sumW`, the sum of the weights 2^0 .. 2^(L-1), is 2^L - 1. |
| Attribution.DecayWeightClosed | src/app/analytics/attribution/logic.ts:43-46 | Under timeDecay, `weights[i] / sumW` with the listed and summed weights is 2^i / (2^L - 1). |
| Attribution.DecayWeightList | src/app/analytics/attribution/logic.ts:43 | The weight list holds 2^0 .. 2^(L-1), one per touch. |
| Attribution.SumWeights | src/app/analytics/attribution/logic.ts:44 | The reduction returns the sum of the weights. |
| Attribution.CreditWeighted | src/app/analytics/attribution/logic.ts:45-48 | For any weights and non-zero `sumW`, the loop credits touch i `orderValue * (weights[i] / sumW)`, accumulating on repeated channels. |
| Attribution.DecayWeightsDivided | src/app/analytics/attribution/logic.ts:42-46 | The listed weights divided by their sum, which is at least 1, are the time-decay weights. |
| Attribution.DecayWeightGrows | src/app/analytics/attribution/logic.ts:40-48 | Each later touch's weight is twice the one before, so it is strictly larger. |
| Attribution.Pow2 | src/app/analytics/attribution/logic.ts:43 | `Math.pow(2, i)` is at least 1, and at least 2 for i > 0. |
| Attribution.LinearWeightUpTo | src/app/analytics/attribution/logic.ts:38 | The first n linear weights sum to n / L. |
| Attribution.DecayWeightUpTo | src/app/analytics/attribution/logic.ts:40-48 | The first n time-decay weights sum to (2^n - 1) / (2^L - 1). |
| Attribution.LastWeightUpTo | src/app/analytics/attribution/logic.ts:31-33 | Under "last", all weight sits on the final touch. |
| Attribution.FirstWeightUpTo | src/app/analytics/attribution/logic.ts:34-36 | Under "first", all weight sits on the first touch. |
| Attribution.WeightsSumToOne | src/app/analytics/attribution/logic.ts:31-48 | Every model's weights sum to exactly one. |
| Attribution.WeightsPrefixSum | src/app/analytics/attribution/logic.ts:31-48 | The weight vector's prefix sums are the models' cumulative weights. |
| Attribution.AddShare | src/app/analytics/attribution/logic.ts:39 | `shares[ch] = (shares[ch] \|\| 0) + amt` keeps distinct keys and appends `ch` only if it is new. |
| Attribution.AddShareEffect | src/app/analytics/attribution/logic.ts:39 | Adding to a share raises that channel's credit and the order total by `amt`. No other channel changes. |
| Attribution.AddShareCredit | src/app/analytics/attribution/logic.ts:47 | The credit of any one channel after an addition, by cases. |
| Attribution.KeySumAppend | src/app/analytics/attribution/logic.ts:52-54 | Summing over one more key adds that key's value. |
| Attribution.KeySumUpdate | src/app/analytics/attribution/logic.ts:39 | Updating a listed key changes the sum by the difference. |
| Attribution.KeySumFrame | src/app/analytics/attribution/logic.ts:39 | Updating an unlisted key leaves the sum unchanged. |
| Attribution.Channels | src/app/analytics/attribution/logic.ts:32 | There is one channel per touch. |
| Attribution.Weights | src/app/analytics/attribution/logic.ts:31-48 | There is one weight per touch. |
| Attribution.Scaled | src/app/analytics/attribution/logic.ts:39 | There is one scaled amount per weight. |
| Attribution.SpreadWellFormed | src/app/analytics/attribution/logic.ts:39 | Crediting touches keeps the `shares` keys distinct, each key with an amount. |
| Attribution.SharesFor | src/app/analytics/attribution/logic.ts:31-49 | Every model's `shares` has distinct keys. |
| Attribution.SpreadKeys | src/app/analytics/attribution/logic.ts:39 | After n touches, the credited channels are exactly the channels of those touches. |
| Attribution.SpreadCredit | src/app/analytics/attribution/logic.ts:39 | A channel's credit is the summed amount of its touches (the reference definition `ChannelWeight`). |
| Attribution.SpreadTotal | src/app/analytics/attribution/logic.ts:39 | The credits sum to the amounts handed out. |
| Attribution.ChannelWeightScaled | src/app/analytics/attribution/logic.ts:39 | Scaling by `orderValue` scales each channel's credit. |
| Attribution.ScaledPrefix | src/app/analytics/attribution/logic.ts:39 | Scaling commutes with taking a prefix. |
| Attribution.SumOfScaled | src/app/analytics/attribution/logic.ts:39 | Scaling commutes with summing. |
| Attribution.OnlyLastWeight | src/app/analytics/attribution/logic.ts:31-33 | A vector that is zero except at the final touch credits only that touch's channel. |
| Attribution.OnlyFirstWeight | src/app/analytics/attribution/logic.ts:34-36 | A vector that is zero except at the first touch credits only that touch's channel. |
| Attribution.LinearChannelWeight | src/app/analytics/attribution/logic.ts:37-39 | A channel's linear weight is its touch count over L. |
| Attribution.SingleTotal | src/app/analytics/attribution/logic.ts:33 | A single-entry `shares` totals its one value. |
| Attribution.SharesCredit | src/app/analytics/attribution/logic.ts:31-49 | Under every model, a channel's credit is orderValue times the summed weights of its touches. |
| Attribution.SharesTotal | src/app/analytics/attribution/logic.ts:31-49 | Conservation: every model's shares add up to exactly `orderValue`. |
| Attribution.SpreadTotalScaled | src/app/analytics/attribution/logic.ts:39-47 | A scaled spread totals `orderValue` times the weight sum. |
| Attribution.LastFirstSingleChannel | src/app/analytics/attribution/logic.ts:31-36 | "last" and "first" credit the whole value to one channel: the final or the first touch's source. |
| Attribution.SpreadChannels | src/app/analytics/attribution/logic.ts:37-48 | "linear" and "timeDecay" credit exactly the channels on the path. |
| Attribution.LinearCredit | src/app/analytics/attribution/logic.ts:37-39 | A channel's linear share is orderValue times its touch count over L. |
| Attribution.Find | src/app/analytics/attribution/logic.ts:20 | Finds the entry position of a channel in `totals`, or reports its absence. |
| Attribution.FindUnique | src/app/analytics/attribution/logic.ts:20 | With distinct channels, the entry found is the only one. |
| Attribution.PushEffect | src/app/analytics/attribution/logic.ts:19-22 | `push` creates the entry on first use and adds `rev` to that channel's revenue alone. |
| Attribution.ConvertEffect | src/app/analytics/attribution/logic.ts:57 | `conversions += 1` changes that channel's count alone. |
| Attribution.PushSharesEffect | src/app/analytics/attribution/logic.ts:52-54 | The push loop adds each credited amount to its channel and creates missing entries. |
| Attribution.ConvertSharesEffect | src/app/analytics/attribution/logic.ts:56-58 | The conversion loop adds exactly one conversion to each credited channel. |
| Attribution.RecordEffect | src/app/analytics/attribution/logic.ts:51-58 | One order adds its credit and one conversion to each credited channel. Nothing else changes. |
| Attribution.PushSums | src/app/analytics/attribution/logic.ts:19-22 | A push raises the revenue column by `rev` and leaves the conversions column as it was. |
| Attribution.ConvertSums | src/app/analytics/attribution/logic.ts:57 | A conversion raises the conversions column by one and leaves revenue as it was. |
| Attribution.PushSharesSums | src/app/analytics/attribution/logic.ts:52-54 | The push loop raises total revenue by the pushed amounts. |
| Attribution.ConvertSharesSums | src/app/analytics/attribution/logic.ts:56-58 | The conversion loop raises total conversions by the number of credited channels. |
| Attribution.RecordSums | src/app/analytics/attribution/logic.ts:51-58 | One order raises total revenue by its credit and total conversions by its channel count. |
| Attribution.TotalsAfterDistinct | src/app/analytics/attribution/logic.ts:24-58 | `totals` never holds a channel twice. |
| Attribution.RevenueOfStep | src/app/analytics/attribution/logic.ts:24-58 | The reference revenue of a channel grows by each order's credit. |
| Attribution.ConversionsOfStep | src/app/analytics/attribution/logic.ts:24-58 | The reference conversions of a channel grow by one for each order that credits it. |
| Attribution.TotalsAfterEntry | src/app/analytics/attribution/logic.ts:24-58 | A channel has an entry iff some order credits it. The entry's revenue is the sum of its credits, and its conversions are the number of orders crediting it. |
| Attribution.TotalsAfterEntryStep | src/app/analytics/attribution/logic.ts:24-58 | The inductive step of the above for the last order. |
| Attribution.TotalsAfterSums | src/app/analytics/attribution/logic.ts:24-58 | Revenue over `totals` is the sum of order values with a non-empty path. Conversions are the number of (order, channel) pairs. |
| Attribution.TotalsAfterMember | src/app/analytics/attribution/logic.ts:24-58 | Every entry of `totals` agrees with the reference definitions and has at least one conversion. |
| Attribution.PerCustomerRows | src/app/analytics/attribution/logic.ts:60-67 | There is one `perCustomer` row per order with touches. |
| Attribution.PerCustomerRowsSnoc | src/app/analytics/attribution/logic.ts:60-67 | Each order with touches appends exactly its row. |
| Attribution.PerCustomerRowsMeaning | src/app/analytics/attribution/logic.ts:60-67 | Row i holds the i-th order with touches (ids, value, path), and its shares are `SharesFor` that order. |
| Attribution.ByRevenueDescPreorder | src/app/analytics/attribution/logic.ts:73 | `b.revenue - a.revenue` is a total preorder, so the sort is well defined. |
| Attribution.ReportChannels | src/app/analytics/attribution/logic.ts:70-73 | A channel is listed iff some order credits it, exactly once, with its reference revenue and conversions. |
| Attribution.ReportDistinct | src/app/analytics/attribution/logic.ts:70-73 | The report lists no channel twice. |
| Attribution.ReportTotals | src/app/analytics/attribution/logic.ts:70-76 | The channels are sorted by revenue, highest first. totalRevenue is the value of the orders with touches. totalConversions is the number of (order, channel) pairs. |
| Attribution.SingleCreditCount | src/app/analytics/attribution/logic.ts:31-36 | Under "last"/"first", each order with touches credits exactly one channel. |
| Attribution.SingleTouchConversions | src/app/analytics/attribution/logic.ts:31-58 | Under "last"/"first", totalConversions is the number of orders with touches. |
| Attribution.EmptyPathIgnored | src/app/analytics/attribution/logic.ts:29 | An order with an empty path changes neither `totals`, `perCustomer` nor the report. |
| Sitemap.Clamp | src/app/analytics/sitemap/page.tsx:80 | For a <= b the result lies in [a, b], and a value already inside is returned unchanged. Otherwise the result is a. |
| Sitemap.StrokeForShare | src/app/analytics/sitemap/page.tsx:83-89 | The width lies in [1.5, 6.5] and the opacity in [0.35, 0.85]. |
| Sitemap.StrokeMonotone | src/app/analytics/sitemap/page.tsx:83-89 | A larger share is never drawn thinner or lighter. |
| Sitemap.LimitSteps | src/app/analytics/sitemap/page.tsx:188-196 | The column count and the column labels are kept. |
| Sitemap.LimitColumnMeaning | src/app/analytics/sitemap/page.tsx:191-194 | Each column keeps min(topK, number of eligible pages) of its pages with visits >= minVisits (all of them when topK is larger), most visited first. Every kept page has at least as many visits as every eligible page that is dropped. |
| Sitemap.Emitted | src/app/analytics/sitemap/page.tsx:154-155 | The edge cap: all entries with showAll. Otherwise at most `top`, and all of them when fewer. |
| Sitemap.EdgesOf | src/app/analytics/sitemap/page.tsx:156-163 | There is one edge per emitted entry. |
| Sitemap.NodeEdgesMeaning | src/app/analytics/sitemap/page.tsx:146-166 | A page without `to` emits nothing. Otherwise each edge is one of its entries with pct >= minShare, and there are at most `top` of them unless showAll. |
| Sitemap.NodeEdgesTop | src/app/analytics/sitemap/page.tsx:150-155 | An entry above the threshold that was not emitted has no larger share than any emitted edge. |
| Sitemap.OutboundSorted | src/app/analytics/sitemap/page.tsx:150-152 | The outbound entries are in share-descending order. |
| Sitemap.InOutbound | src/app/analytics/sitemap/page.tsx:150-151 | Every entry above the threshold is among the outbound entries. |
| Sitemap.ColumnEdgesOrigin | src/app/analytics/sitemap/page.tsx:147-165 | Every edge of a column comes from an entry of one of its pages. |
| Sitemap.StepsEdgesOrigin | src/app/analytics/sitemap/page.tsx:146-166 | Every edge of the first s columns comes from a page in one of them. |
| Sitemap.RawEdgesOrigin | src/app/analytics/sitemap/page.tsx:146-166 | Edges start only at pages of columns 0 .. len-2, and each is one of that page's entries above the threshold. |
| Sitemap.StepsEdgesPrefix | src/app/analytics/sitemap/page.tsx:146 | The edges of the first s columns depend only on those columns. |
| Sitemap.LastColumnSilent | src/app/analytics/sitemap/page.tsx:146 | The last column emits nothing: replacing it leaves the edges unchanged. |
| Sitemap.SetLane | src/app/analytics/sitemap/page.tsx:173-181 | Numbering a lane changes neither endpoint nor the share. |
| Sitemap.LaneKeys | src/app/analytics/sitemap/page.tsx:169-182 | Lists each edge's page on one side together with its share. |
| Sitemap.Laned | src/app/analytics/sitemap/page.tsx:168-182 | Lane numbering keeps the edge count. |
| Sitemap.GroupMember | src/app/analytics/sitemap/page.tsx:170-178 | An edge is in a page's group iff its endpoint on that side is that page. |
| Sitemap.SortedGroup | src/app/analytics/sitemap/page.tsx:172-180 | The sorted list is a permutation of the group. |
| Sitemap.SortedGroupAhead | src/app/analytics/sitemap/page.tsx:172-180 | The sorted list is in lane order: larger share first, ties in edge order (a stable sort). |
| Sitemap.ListPosition | src/app/analytics/sitemap/page.tsx:173-181 | In a list in lane order, exactly the elements before position p are ahead of it. |
| Sitemap.LanePosition | src/app/analytics/sitemap/page.tsx:173-181 | The edge at position p of its group's sorted list gets lane p. |
| Sitemap.LaneOrder | src/app/analytics/sitemap/page.tsx:172-173 | An edge ahead of another in its group has a lower lane. |
| Sitemap.LaneMeaning | src/app/analytics/sitemap/page.tsx:168-182 | A page's k edges get distinct lanes in 0 .. k-1, and a larger share gets a lower lane. |
| Sitemap.LaneOnto | src/app/analytics/sitemap/page.tsx:168-182 | Every lane 0 .. k-1 is taken by some edge of that page. |
| Sitemap.GroupStep | src/app/analytics/sitemap/page.tsx:170-178 | Grouping one more edge appends it to its own group only. |
| Sitemap.GroupBy | src/app/analytics/sitemap/page.tsx:169-178 | `byFrom` / `byTo` hold, for every endpoint, exactly its edges in edge order. |
| Sitemap.NumberGroup | src/app/analytics/sitemap/page.tsx:171-181 | Sorting a group and numbering it gives each of its edges its lane. Other edges stay as they were. |
| Sitemap.AssignLanes | src/app/analytics/sitemap/page.tsx:168-182 | Every edge gets its lane on that side and nothing else changes. |
| Sitemap.ColumnEdgesSnoc | src/app/analytics/sitemap/page.tsx:147 | One more page appends its edges. |
| Sitemap.EmitEdges | src/app/analytics/sitemap/page.tsx:150-164 | One page's `out.forEach` emits exactly `NodeEdges`. |
| Sitemap.CollectColumn | src/app/analytics/sitemap/page.tsx:147-165 | The inner loop emits the column's edges in page order. |
| Sitemap.CollectEdges | src/app/analytics/sitemap/page.tsx:146-166 | The outer loop emits the edges of every column but the last. |
| Sitemap.BuildEdges | src/app/analytics/sitemap/page.tsx:143-185 | `buildEdges` returns the emitted edges with their lanes numbered on both sides. |
| Sitemap.JourneySteps | src/app/analytics/sitemap/page.tsx:204-213 | Column s keeps the pages whose key is allowed at s, and the labels stay. |
| Sitemap.Journey | src/app/analytics/sitemap/page.tsx:199-219 | The column count and the labels are kept. A null or empty root returns the steps and edges unchanged. |
| Sitemap.JourneyColumns | src/app/analytics/sitemap/page.tsx:202-213 | Column 0 keeps exactly the pages keyed by the root. Column s+1 keeps exactly the pages targeted by a page kept in column s. |
| Sitemap.JourneyShrinks | src/app/analytics/sitemap/page.tsx:206 | Kept columns are sub-multisets of the original columns. |
| Sitemap.JourneyEdges | src/app/analytics/sitemap/page.tsx:215-216 | Exactly the edges with both ends kept stay, in order. |
| Sitemap.FilterJourney | src/app/analytics/sitemap/page.tsx:199-219 | The loop with `allowed` reassigned per column returns exactly `Journey`. |
| Sitemap.TargetsOfSnoc | src/app/analytics/sitemap/page.tsx:211 | One more kept page adds its `to` keys to `next`. |
| Sitemap.CollectTargets | src/app/analytics/sitemap/page.tsx:210-212 | `next` is the set of `to` keys of the kept pages. |
| Playground.Names | src/app/features/page.tsx:12-14 | The kept names are no more than the arguments and none is empty. |
| Playground.CxWords | src/app/features/page.tsx:12-14 | With space-free names, splitting the result gives back exactly the truthy arguments. |
| Playground.NamesNonEmpty | src/app/features/page.tsx:13 | Some name survives iff some argument is truthy. |
| Playground.NamesNoSpace | src/app/features/page.tsx:13 | Space-free arguments give space-free names. |
| Playground.NamesDropFalsy | src/app/features/page.tsx:13 | Removing a falsy argument changes nothing. |
| Playground.NamesAppend | src/app/features/page.tsx:13 | Filtering distributes over concatenation. |
| Playground.ModelNudge | src/app/features/page.tsx:174-179 | Only "last" is neutral. Every factor lies within 2% of 1, and a model raises ROAS iff it lowers CPP. |
| Playground.ClampPct | src/app/features/page.tsx:182 | `v` lies in [0, 100] and equals valPct when that is already inside. |
| Playground.Others | src/app/features/page.tsx:183 | There are exactly the two other platforms, distinct. |
| Playground.OthersFilter | src/app/features/page.tsx:183 | They are `Object.keys(alloc)` without k, in key order. |
| Playground.SpreadRest | src/app/features/page.tsx:186-192 | The `forEach` pins k at v and gives each other platform `max(0, round(rest * share))`. |
| Playground.DriftTargetMeaning | src/app/features/page.tsx:196-198 | The drift goes to another platform, never k, and to one with the largest re-spread value. |
| Playground.ShareBounds | src/app/features/page.tsx:189-190 | The two shares are non-negative and sum to 1. |
| Playground.RespreadBounds | src/app/features/page.tsx:188-192 | The re-spread values are whole, non-negative, and within one of `rest` in total. |
| Playground.RoundPair | src/app/features/page.tsx:191 | Rounding two non-negative parts of `rest` stays within one of `rest`. |
| Playground.PatchArithmetic | src/app/features/page.tsx:194-199 | Adding the drift to the larger share keeps it non-negative, and the drift lies in [-1, 1). |
| Playground.SpreadFacts | src/app/features/page.tsx:186-192 | Facts about `next` before the patch, as used by the patch. |
| Playground.PatchMeaning | src/app/features/page.tsx:194-200 | The patch leaves k and the other platform alone, and makes the allocation sum to 100 with no negative entry. |
| Playground.RebalancedMeaning | src/app/features/page.tsx:181-202 | `setAllocOne` pins k at the clamped value and re-spreads the rest. The drift lands on the largest other platform. The result sums to 100% and has no negative entry (see also lines 505-507). |
| Playground.PlatformNudge | src/app/features/page.tsx:215-221 | A platform's revenue scales with the nudge's ROAS factor, and its purchases inversely with the CPP factor. |
| Playground.NudgeScales | src/app/features/page.tsx:210-222 | The same for the totals over all platforms. |
| Playground.SpendAddsUp | src/app/features/page.tsx:211-213 | With an allocation summing to 100, the platforms' spends sum to the budget. |
| Playground.ProjectionNonNegative | src/app/features/page.tsx:210-222 | Non-negative inputs give non-negative revenue and purchases. |
| Playground.BlendedRoas | src/app/features/page.tsx:224 | The divisor is max(1, budget): a budget of at least 1 gives revenue / budget, and anything smaller divides by 1. |
| Playground.BlendedCpp | src/app/features/page.tsx:225 | The same with max(1, purchases). |
| Playground.BasePositive | src/app/features/page.tsx:227-250 | The base line's revenue and purchases are positive, so `calcBase` never divides by zero. |
| Playground.VsBase | src/app/features/page.tsx:328-330 | The change against a positive base is positive iff above it, zero iff equal, and equals (current-base)/base*100. |
| Playground.Project | src/app/features/page.tsx:207-222 | The accumulating `forEach` returns the summed revenue and purchases of every platform. |
| Playground.PlatformStep | src/app/features/page.tsx:211-221 | One callback adds that platform's revenue and purchases. |
| Playground.PlaygroundState.constructor | src/app/features/page.tsx:165-172 | The initial state is linear, 20000, 35 and 50/35/15, which is valid. |
| Playground.PlaygroundState.MixWarm | src/app/features/page.tsx:204 | mixWarm + mixNew = 100. |
| Playground.PlaygroundState.SetModel | src/app/features/page.tsx:165 | Changes the model only. |
| Playground.PlaygroundState.SetBudget | src/app/features/page.tsx:166 | Changes the budget only. |
| Playground.PlaygroundState.SetMixNew | src/app/features/page.tsx:167 | Changes mixNew only. |
| Playground.PlaygroundState.SetAllocOne | src/app/features/page.tsx:181-202 | The allocation becomes `Rebalanced`. It stays valid (sum 100, no negative entry), and nothing else changes. |
| Playground.PlaygroundState.Projection | src/app/features/page.tsx:207-225 | Revenue and purchases are the projection under the model's nudge. The blended ratios use max(1, ·). |
| Playground.PlaygroundState.CalcBase | src/app/features/page.tsx:234-250 | The base line's sums are positive and its ratios are consistent with them. |
| Playground.DeltaChip | src/app/features/page.tsx:276-311 | A non-finite value counts as 0. The chip is neutral iff -0.1 <= v <= 0.01. Otherwise the arrow is up iff v > 0.01 and down iff v < -0.1, the tone is good iff the arrow points up exactly when goodIsDown is false, and the percentage is \|round(v)\|. |
| Playground.DeltaChipNonFinite | src/app/features/page.tsx:283 | A non-finite change shows as a neutral 0%. |
| Playground.DeltaChipTone | src/app/features/page.tsx:283-308 | Outside the neutral band, goodIsDown swaps good and bad and keeps the arrow. |
| CustomerList.NormalizeEmail | src/app/analytics/attribution/customerlist/page.tsx:84-87 | Missing or empty input gives "". The result is never longer than the input. |
| CustomerList.NormalizeEmailMeaning | src/app/analytics/attribution/customerlist/page.tsx:84-87 | The result is trimmed and has no upper-case letter. |
| CustomerList.NormalizeEmailSlice | src/app/analytics/attribution/customerlist/page.tsx:86 | The result is the lower-cased slice of the input between its leading and trailing whitespace. |
| CustomerList.NormalizeEmailIdempotent | src/app/analytics/attribution/customerlist/page.tsx:84-87 | Normalising twice is the same as once. |
| CustomerList.NormalizePhone | src/app/analytics/attribution/customerlist/page.tsx:89-93 | Missing input gives "". Only '+' and digits remain. |
| CustomerList.NormalizePhoneKeeps | src/app/analytics/attribution/customerlist/page.tsx:91-92 | Exactly the '+' and digit characters survive, in order and with multiplicity, wherever a '+' is. |
| CustomerList.NormalizePhoneIdempotent | src/app/analytics/attribution/customerlist/page.tsx:89-93 | Normalising twice is the same as once. |
| CustomerList.ToFirstLast | src/app/analytics/attribution/customerlist/page.tsx:95-100 | An empty name gives two empty parts. The last name never contains whitespace. |
| CustomerList.ToFirstLastBlank | src/app/analytics/attribution/customerlist/page.tsx:96-98 | A blank name gives ("", ""). |
| CustomerList.ToFirstLastOneWord | src/app/analytics/attribution/customerlist/page.tsx:98 | One word is the first name and the last name is "". |
| CustomerList.ToFirstLastWords | src/app/analytics/attribution/customerlist/page.tsx:97-99 | For words joined by single spaces, ln is the last word and fn is the earlier words joined by single spaces. |
| CustomerList.ToFirstLastOfParts | src/app/analytics/attribution/customerlist/page.tsx:97-99 | The same, stated on the `split(/\s+/)` parts of the trimmed name. |
| CustomerList.NameSplits | src/app/analytics/attribution/customerlist/page.tsx:97 | Splitting words joined by single spaces gives the words back. |
| CustomerList.JoinWordsTrimmed | src/app/analytics/attribution/customerlist/page.tsx:97 | Non-empty, space-free words joined by spaces have no outer whitespace. |
| CustomerList.ToFirstLastCollapse | src/app/analytics/attribution/customerlist/page.tsx:95-100 | For a name of two or more words, fn + " " + ln is the trimmed name with whitespace runs collapsed. |
| CustomerList.SearchFields | src/app/analytics/attribution/customerlist/page.tsx:206 | The six searched fields. |
| CustomerList.Filtered | src/app/analytics/attribution/customerlist/page.tsx:202-210 | The search never adds rows. |
| CustomerList.FilteredMeaning | src/app/analytics/attribution/customerlist/page.tsx:202-210 | A blank query returns the rows unchanged. Otherwise a row is kept iff one of its six fields, lower-cased, contains the trimmed, lower-cased query. |
| CustomerList.FilteredAppend | src/app/analytics/attribution/customerlist/page.tsx:205 | The search keeps row order. |
| CustomerList.FilteredFindsId | src/app/analytics/attribution/customerlist/page.tsx:202-210 | A row is found by its own id in any letter case, with surrounding whitespace. |
| CustomerList.FilteredNonBlank | src/app/analytics/attribution/customerlist/page.tsx:203-209 | A non-blank query filters by the normalised query. |
| CustomerList.MatchesOwnId | src/app/analytics/attribution/customerlist/page.tsx:206-207 | Every row matches its own lower-cased id. |
| CustomerList.CountryCode | src/app/analytics/attribution/customerlist/page.tsx:134 | A missing country gives "". Otherwise the country keeps its length and has no lower-case letter. |
| CustomerList.HashOrEmptyMeaning | src/app/analytics/attribution/customerlist/page.tsx:136-137 | A hashed field is "" exactly when its input is "". Otherwise it is the digest. |
| CustomerList.GoogleRowMeaning | src/app/analytics/attribution/customerlist/page.tsx:131-139 | Each Google hash field is "" iff its normalised input is "", and otherwise the digest of it. The country is `CountryCode`. |
| CustomerList.MetaSharesGoogle | src/app/analytics/attribution/customerlist/page.tsx:152-162 | The Meta line's email, phone and country equal the Google line's. |
| CustomerList.MetaNamesMeaning | src/app/analytics/attribution/customerlist/page.tsx:154-160 | A Meta name field is "" iff that name part is "", and otherwise the digest of the lower-cased part. |
| CustomerList.CentsRoundTrip | src/app/analytics/attribution/customerlist/page.tsx:181 | Reading a rendering back gives the cents it was written from. |
| CustomerList.CentsOfParts | src/app/analytics/attribution/customerlist/page.tsx:181 | Units, a point and two digits read back as units*100 + digits. |
| CustomerList.CentsShape | src/app/analytics/attribution/customerlist/page.tsx:181 | A rendering is digits, then '.', then two digits. |
| CustomerList.CentsValueOf | src/app/analytics/attribution/customerlist/page.tsx:181 | The value of a rendering, from its two parts. |
| CustomerList.ToFixed2Close | src/app/analytics/attribution/customerlist/page.tsx:181 | `toFixed(2)` read back is within half a cent of the value. |
| CustomerList.ParseToFixed2 | src/app/analytics/attribution/customerlist/page.tsx:181 | `toFixed(2)` read back is the rounded number of cents over 100, with the sign. |
| CustomerList.ToFixed2Negative | src/app/analytics/attribution/customerlist/page.tsx:181 | A negative value renders as '-' followed by its cents. |
| CustomerList.ToFixed2NonNegative | src/app/analytics/attribution/customerlist/page.tsx:181 | A non-negative value renders as its cents. |
| CustomerList.CentsUnsigned | src/app/analytics/attribution/customerlist/page.tsx:181 | A cents rendering is non-empty and unsigned. |
| CustomerList.ParseNegative | src/app/analytics/attribution/customerlist/page.tsx:181 | Reading back a leading '-' negates. |
| CustomerList.AttributionFields | src/app/analytics/attribution/customerlist/page.tsx:174-184 | One field per header column, with the path in double quotes. |
| CustomerList.ExportGoogle | src/app/analytics/attribution/customerlist/page.tsx:127-143 | A header line, then one line per row in row order, joined by newlines. |
| CustomerList.ExportMeta | src/app/analytics/attribution/customerlist/page.tsx:147-166 | A header line, then one line per row in row order, joined by newlines. |
| CustomerList.ExportAttribution | src/app/analytics/attribution/customerlist/page.tsx:169-188 | A header line, then one line per row in row order, joined by newlines. |
| AdsTable.Compute | src/app/analytics/ads/AdsTable.tsx:23-40 | cpp * purchases = spend when purchases > 0, else cpp = 0. roas * spend = revenue when spend > 0, else 0. The same holds for the previous figures, and the row is kept. |
| AdsTable.ComputedMeaning | src/app/analytics/ads/AdsTable.tsx:23-40 | There is one computed row per row, in order, and non-negative figures give non-negative ratios. |
| AdsTable.OnSort | src/app/analytics/ads/AdsTable.tsx:58-61 | The key is always the clicked one. The same key flips the direction, and a new key starts descending. |
| AdsTable.OnSortTwice | src/app/analytics/ads/AdsTable.tsx:18-21 | Clicking the same key twice restores the state. A new key clicked twice ends ascending (see also lines 58-61). |
| AdsTable.LexCompare | src/app/analytics/ads/AdsTable.tsx:50-51 | The string comparison returns -1, 0 or 1. |
| AdsTable.LexCompareFlip | src/app/analytics/ads/AdsTable.tsx:50-51 | Swapping the arguments negates the comparison. |
| AdsTable.LexCompareZero | src/app/analytics/ads/AdsTable.tsx:50-51 | Only equal strings compare equal. |
| AdsTable.LexCompareTrans | src/app/analytics/ads/AdsTable.tsx:50-51 | The comparison is transitive. |
| AdsTable.BeforePreorder | src/app/analytics/ads/AdsTable.tsx:44-54 | For every key but "adset", the comparator is a total preorder. |
| AdsTable.SortRows | src/app/analytics/ads/AdsTable.tsx:42-56 | Sorting a copy gives a permutation of `computed`, sorted by the comparator. For every key but adset it is the stable sort of `computed`, so rows that tie keep their order. Numeric keys end ascending or descending as the direction says. |
| AdsTable.SortedText | src/app/analytics/ads/AdsTable.tsx:48-51 | Text keys follow the string order, reversed when descending. |
| AdsTable.PctChange | src/app/analytics/ads/AdsTable.tsx:145-148 | The result is 0 when either value is non-finite or prev is 0. |
| AdsTable.PctChangeSign | src/app/analytics/ads/AdsTable.tsx:145-148 | r·\|prev\| = (curr-prev)·100, and r is positive, zero or negative as curr-prev is. |
| AdsTable.BadgeOf | src/app/analytics/ads/AdsTable.tsx:165-171 | The arrow is up iff delta >= 0, and the magnitude is \|delta\|. |
| AdsTable.BadgeUp | src/app/analytics/ads/AdsTable.tsx:145-171 | The badge is up iff the change is not computable or curr >= prev. |
| AdsReview.CurrentMeaning | src/app/analytics/ads/page.tsx:38 | The current rows are exactly the ads of the selected platform, in order. |
| AdsReview.AsPrevious | src/app/analytics/ads/page.tsx:40-45 | spend, purchases and revenue become the prev* figures and nothing else changes. |
| AdsReview.SearchedMeaning | src/app/analytics/ads/page.tsx:51-59 | A row is kept iff "campaign adset name" (with a missing adset as "") contains the query, ignoring case. Order is kept, and an empty query keeps every row. |
| AdsReview.LowerOfUpper | src/app/analytics/ads/page.tsx:55-56 | Lower-casing ignores the original case. |
| AdsReview.SearchCaseBlind | src/app/analytics/ads/page.tsx:55-56 | A query matches in any letter case. |
| AdsReview.PrevByIdMeaning | src/app/analytics/ads/page.tsx:63 | An id is in the map iff some previous row has it, and it maps to the last such row. |
| AdsReview.WithPrevMeaning | src/app/analytics/ads/page.tsx:62-73 | Same length and order. Only the prev* figures change: they come from the last previous row with that id, or are 0. |
| AdsReview.PrevByIdOfPrevious | src/app/analytics/ads/page.tsx:40-63 | With distinct ids, each row's previous copy is found under its id. |
| AdsReview.WithPrevRestores | src/app/analytics/ads/page.tsx:38-73 | With distinct ids, merging the previous copies back by id restores every searched row. |
| AdsReview.KpisOf | src/app/analytics/ads/page.tsx:75-107 | cpp and roas are the ratios of the sums, and 0 when their divisor is 0. The same holds for the previous figures. |
| AdsReview.KpisAppend | src/app/analytics/ads/page.tsx:76-86 | The six sums are additive over row lists. |
| AdsReview.KpisOfRestored | src/app/analytics/ads/page.tsx:62-107 | With distinct ids, the KPIs equal those of the searched rows themselves. |
| AdsReview.KpiBadgeUp | src/app/analytics/ads/page.tsx:262-284 | A KPI badge is up iff prev = 0 or value >= prev. |
| AdsReview.DaysBetween | src/app/analytics/ads/page.tsx:256-261 | 0 when b <= a. Otherwise the whole number of days, d·day <= b-a < (d+1)·day. |
| AdsReview.WindowDays | src/app/analytics/ads/page.tsx:23 | The window is at least one day. |
| AdsReview.DaysBetweenWholeDays | src/app/analytics/ads/page.tsx:256-261 | Between midnights, the result is the difference in days, or 0. |
| AdsReview.RangeDays | src/app/analytics/ads/page.tsx:145 | A preset is 7, 30 or 90 days. |
| AdsReview.QuickRangeWindow | src/app/analytics/ads/page.tsx:145-147 | A preset's window from `isoNDaysAgo(days)` to today is exactly that many days, and distinct presets give distinct windows (see also lines 245-250). |
| ActiveRoute.IsActiveMeaning | src/app/analytics/layout.tsx:37 | A link is active iff the path equals href or continues it with "/" right after href. |
| ActiveRoute.ActiveBelow | src/components/Sidebar.tsx:20 | Every path below href activates it. |
| ActiveRoute.NoBoundaryInactive | src/components/Sidebar.tsx:20 | Without the "/" boundary, a longer path does not activate the link. |
| ActiveRoute.AdsNotActiveOnAdsx | src/app/analytics/layout.tsx:14-37 | An instance of `NoBoundaryInactive`: "/analytics/ads" is not active on "/analytics/adsx". |
| ActiveRoute.NavItems | src/app/analytics/layout.tsx:36 | Each link renders once, in declared order. |
| ActiveRoute.NavItemsMeaning | src/app/analytics/layout.tsx:36-46 | Item i is link i, highlighted iff active, with a header only for a sectioned link whose predecessor has none. |
| ActiveRoute.LayoutHeaders | src/app/analytics/layout.tsx:11-25 | The layout shows exactly one header, above Sitemap (see also lines 39-46). |
| ActiveRoute.OverviewAlwaysActive | src/components/Sidebar.tsx:9-20 | Overview is active on every analytics page: on the ads page, Overview and Ads Review are both active and Sessions is not. In the layout, Attribution stays active on the customer list. |
| Sorting.SortInPlace | src/app/analytics/ads/AdsTable.tsx:44-54 | `Array.prototype.sort` on an array: a permutation, and when the comparator is a total preorder, sorted and equal to the stable sort `InsertionSort` of the input. |
| Sorting.SortedTiesUnique | src/app/analytics/ads/AdsTable.tsx:44-54 | Under a total preorder, two sorted sequences that list each group of tied elements in the same order are equal: a stable sort has one result. |
| Sorting.InsertionSortTies | src/app/analytics/ads/AdsTable.tsx:44-54 | The sequence sort lists each group of tied elements in input order. |
| Sorting.StableSortIsInsertionSort | src/app/analytics/ads/AdsTable.tsx:44-54 | A sorted result that keeps the input's tied groups in order is the sequence sort's result. |
| Sorting.SortedSliceTop | src/app/analytics/sitemap/page.tsx:193-194 | `sort(...).slice(0, k)` is sorted, part of the input (all of it when k covers it), and each kept element may precede each element left out. |
| Sorting.InsertionSortSorted | src/app/analytics/attribution/logic.ts:73 | The sequence sort's result is ordered whenever the comparator is a total preorder. |
| Sorting.InsertionSortThenBy | src/app/analytics/sitemap/page.tsx:172 | Stability: sorting a sequence already ordered by a tie-break gives order by the comparator, with ties in tie-break order. |
| Text.Trim | src/app/analytics/attribution/customerlist/page.tsx:86 | `String.prototype.trim`: the result has no outer whitespace and is no longer than the input. |
| Text.TrimStartSuffix | src/app/analytics/attribution/customerlist/page.tsx:86 | `trimStart` keeps a suffix of the input and drops only whitespace before it. |
| Text.TrimEndPrefix | src/app/analytics/attribution/customerlist/page.tsx:86 | `trimEnd` keeps a prefix of the input and drops only whitespace after it. |
| Text.TrimIsSlice | src/app/analytics/attribution/customerlist/page.tsx:86 | The trimmed text is a slice of the input with no whitespace at either end. |
| Text.ContainsAt | src/app/analytics/ads/page.tsx:56 | `includes` finds the query at some position iff it occurs there. |
| Text.SplitJoin | src/app/analytics/attribution/customerlist/page.tsx:97 | `split(/\s+/)` of non-empty, space-free words joined by single spaces gives the words back. |
| Text.JoinSplit | src/app/analytics/attribution/customerlist/page.tsx:97-99 | Joining the `split(/\s+/)` parts with single spaces collapses every whitespace run to one space. |
| Text.ToLower | src/app/analytics/attribution/customerlist/page.tsx:86 | Lower-casing keeps the length and leaves no upper-case letter. |
| Text.ToLowerSpaces | src/app/analytics/attribution/customerlist/page.tsx:86 | Lower-casing keeps every whitespace position and creates no new one. |
| JsNumbers.Round | src/app/features/page.tsx:191 | `Math.round` is the integer within half of x, rounding halves up. |
| JsNumbers.RoundMonotone | src/app/features/page.tsx:191 | `Math.round` is monotone. |

## Left out

- Rendering, styling, animation and React hooks are not modelled. The `useState` setters are modelled only for the playground, as a class. The `useEffect` and `useMemo` wiring on the ads page is modelled as plain functions of their inputs.
- `download`, `Blob`, `URL` and the DOM are left out. The exporters return the lines and the joined CSV text instead of downloading them.
- `sha256Hex` (Web Crypto) is a parameter `hash: string -> string` of the exporters.
- The clock and date parsing (`isoToday`, `isoNDaysAgo`, `shiftDate`, `new Date(...)`) are left out. `AdsReview.DaysBetween` takes millisecond times as integers, and the presets take "today" as a day number.
- AdsReview.DaysBetween: does not model time zones or daylight-saving. Around a clock change, two local midnights are not a whole number of days apart, so `daysBetween` can be one day short. The model assumes whole days.
- IEEE-754 arithmetic, `-0` and precision are not modelled: numbers are `real`. `NaN` and the infinities appear only where the code tests for them (`JsNumbers.Number`).
- `toLocaleString`, `fmtCurrency` and the other number formatting are left out. `toFixed(2)` in the attribution export is modelled on exact reals.
- `localeCompare` is modelled as a lexicographic order on character codes (`AdsTable.LexCompare`). Collation rules are not modelled.
- `toLowerCase` and `toUpperCase` are modelled on ASCII letters only.
- Whitespace for `trim` and `\s` is a fixed set of characters (`Text.IsSpace`), not the full Unicode class.
- AdsTable.SortRows: promises no order for the "adset" key. A missing adset is read as the number 0. Comparing it with a string gives `NaN`, which the sort treats as 0, so the comparator is not a total preorder there. The result is still a permutation.
- AdsTable.CompareRows: reads a string against a number as `NaN` (treated as 0) for every pair. JavaScript would coerce a numeric-looking string to a number, but no field holds one.
- Attribution.Attribute: channel names that collide with `Object.prototype` members (such as "constructor") and integer-like channel names are not modelled. The first would make `!totals[ch]` false; the second would change `Object.entries` order. The model keeps insertion order.
- The fixtures (`data.ts` files) are not modelled; only their types (`Touch`, `CustomerConversion`, `AdsRow`) are. The default platforms are `DEFAULT_PLATFORMS` of src/app/features/page.tsx (lines 131-159), modelled as `Playground.DefaultPlatforms`.
- `edgeGeom`, `measure`, `Bars`, `CounterInt` and the other pure visual geometry are left out.
- `modelLabel` and `pctLabel` only format text and are left out.
- The network client, the forms, the settings page, the FAQ and the configuration files are not part of this model.
