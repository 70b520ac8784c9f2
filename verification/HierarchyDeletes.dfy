/** Deleting ads, ad sets and campaigns: ON DELETE SET NULL keeps their insights, and the NULL-safe
    unique index over the hierarchy may refuse the delete. */
module HierarchyDeletes {
  import opened Common
  import opened MetricFacts

  datatype AdParents = AdParents(campaignId: Option<Id>, adSetId: Option<Id>)

  /** The tables below the ad accounts; an ad set knows its campaign, an ad its campaign and ad set. */
  datatype Hierarchy = Hierarchy(campaigns: set<Id>, adSets: map<Id, Option<Id>>, ads: map<Id, AdParents>,
                                 insights: seq<Insight>)

  // ---- Constraints ----

  /** The columns of the unique index. COALESCE(x::text, '') makes two NULLs equal, and differs from
      every id, as two equal options do. */
  datatype Slot = Slot(businessId: Id, accountId: Id, provider: string, date: int, grain: string,
                       campaignId: Option<Id>, adSetId: Option<Id>, adId: Option<Id>)

  function SlotOf(ai: Insight): Slot {
    Slot(ai.businessId, ai.accountId, ai.provider, ai.date, ai.grain, ai.campaignId, ai.adSetId, ai.adId)
  }

  predicate Unique(insights: seq<Insight>) {
    forall i, j :: 0 <= i < j < |insights| ==> SlotOf(insights[i]) != SlotOf(insights[j])
  }

  predicate Known(id: Option<Id>, ids: set<Id>) { id.Some? ==> id.value in ids }

  predicate Linked(h: Hierarchy, ai: Insight) {
    Known(ai.campaignId, h.campaigns) && Known(ai.adSetId, h.adSets.Keys) && Known(ai.adId, h.ads.Keys)
  }

  /** All foreign keys and the unique index hold. */
  predicate Sound(h: Hierarchy) {
    && (forall s :: s in h.adSets ==> Known(h.adSets[s], h.campaigns))
    && (forall a :: a in h.ads ==> Known(h.ads[a].campaignId, h.campaigns) && Known(h.ads[a].adSetId, h.adSets.Keys))
    && (forall i :: 0 <= i < |h.insights| ==> Linked(h, h.insights[i]))
    && Unique(h.insights)
  }

  // ---- Deletes ----

  datatype Target = TheAd(id: Id) | TheAdSet(id: Id) | TheCampaign(id: Id)

  predicate Exists(h: Hierarchy, t: Target) {
    match t
    case TheAd(a) => a in h.ads
    case TheAdSet(s) => s in h.adSets
    case TheCampaign(c) => c in h.campaigns
  }

  predicate SameKind(t: Target, u: Target) {
    t.TheAd? == u.TheAd? && t.TheAdSet? == u.TheAdSet?
  }

  function ClearId(x: Option<Id>, id: Id): Option<Id> { if x == Some(id) then None else x }

  /** The one column of an insight that refers to the target's table. */
  function Reference(ai: Insight, t: Target): Option<Id> {
    match t
    case TheAd(_) => ai.adId
    case TheAdSet(_) => ai.adSetId
    case TheCampaign(_) => ai.campaignId
  }

  function WithReference(ai: Insight, t: Target, x: Option<Id>): Insight {
    match t
    case TheAd(_) => ai.(adId := x)
    case TheAdSet(_) => ai.(adSetId := x)
    case TheCampaign(_) => ai.(campaignId := x)
  }

  function Cleared(ai: Insight, t: Target): Insight { WithReference(ai, t, ClearId(Reference(ai, t), t.id)) }

  function ClearedAll(insights: seq<Insight>, t: Target): (r: seq<Insight>)
    ensures |r| == |insights| && forall i :: 0 <= i < |insights| ==> r[i] == Cleared(insights[i], t)
  {
    seq(|insights|, i requires 0 <= i < |insights| => Cleared(insights[i], t))
  }

  /** The delete as it is when nothing refuses it. */
  function Without(h: Hierarchy, t: Target): Hierarchy {
    var insights := ClearedAll(h.insights, t);
    match t
    case TheAd(a) => h.(ads := h.ads - {a}, insights := insights)
    case TheAdSet(s) =>
      h.(adSets := h.adSets - {s},
         ads := map a | a in h.ads :: h.ads[a].(adSetId := ClearId(h.ads[a].adSetId, s)), insights := insights)
    case TheCampaign(c) =>
      h.(campaigns := h.campaigns - {c}, adSets := map s | s in h.adSets :: ClearId(h.adSets[s], c),
         ads := map a | a in h.ads :: h.ads[a].(campaignId := ClearId(h.ads[a].campaignId, c)), insights := insights)
  }

  predicate Refused(h: Hierarchy, t: Target) { !Unique(ClearedAll(h.insights, t)) }

  /** A refused delete changes nothing, and a delete that finds no row neither. */
  function Delete(h: Hierarchy, t: Target): Hierarchy {
    if Exists(h, t) && !Refused(h, t) then Without(h, t) else h
  }

  function DeleteAll(h: Hierarchy, ts: seq<Target>): Hierarchy {
    if ts == [] then h else Delete(DeleteAll(h, ts[..|ts| - 1]), ts[|ts| - 1])
  }

  // ---- The constraints are kept ----

  lemma DeleteKeepsSound(h: Hierarchy, t: Target)
    requires Sound(h)
    ensures Sound(Delete(h, t))
  {
    var h' := Delete(h, t);
    if h' != h {
      forall i | 0 <= i < |h'.insights| ensures Linked(h', h'.insights[i]) {
        assert Linked(h, h.insights[i]) && h'.insights[i] == Cleared(h.insights[i], t);
      }
    }
  }

  lemma {:induction false} DeletesKeepSound(h: Hierarchy, ts: seq<Target>)
    requires Sound(h)
    ensures Sound(DeleteAll(h, ts))
  {
    if ts != [] {
      DeletesKeepSound(h, ts[..|ts| - 1]);
      DeleteKeepsSound(DeleteAll(h, ts[..|ts| - 1]), ts[|ts| - 1]);
    }
  }

  /** An accepted delete removes its target and nothing else, and clears just the references to it. */
  lemma DeleteTouchesOnly(h: Hierarchy, t: Target, u: Target, i: nat)
    requires Exists(h, t) && !Refused(h, t) && i < |h.insights|
    ensures var h' := Delete(h, t);
      && (Exists(h', u) <==> Exists(h, u) && u != t)
      && |h'.insights| == |h.insights|
      && Reference(h'.insights[i], u) ==
           if SameKind(t, u) && Reference(h.insights[i], u) == Some(t.id) then None else Reference(h.insights[i], u)
  {
  }

  predicate RefersTo(x: Option<Id>, t: Target) { x == Some(t.id) }

  /** And of the ads and ad sets that stay, each keeps the parents it had, except that one who was below the
      target has no such parent any more. */
  lemma ParentsStay(h: Hierarchy, t: Target, ad: Id, adSet: Id)
    requires Exists(h, t) && !Refused(h, t)
    ensures var h' := Delete(h, t);
      && (ad in h'.ads ==>
            && ad in h.ads
            && h'.ads[ad].campaignId ==
                 (if t.TheCampaign? && RefersTo(h.ads[ad].campaignId, t) then None else h.ads[ad].campaignId)
            && h'.ads[ad].adSetId ==
                 (if t.TheAdSet? && RefersTo(h.ads[ad].adSetId, t) then None else h.ads[ad].adSetId))
      && (adSet in h'.adSets ==>
            && adSet in h.adSets
            && h'.adSets[adSet] ==
                 (if t.TheCampaign? && RefersTo(h.adSets[adSet], t) then None else h.adSets[adSet]))
  {
  }

  // ---- When is a delete refused? ----

  /** `ai` refers to the target, and `other` is the row it would turn into. */
  predicate Collides(ai: Insight, other: Insight, t: Target) {
    Reference(ai, t) == Some(t.id) && SlotOf(other) == SlotOf(WithReference(ai, t, None))
  }

  /** Two rows can only come to share a slot if one of them already was there. */
  lemma SharedSlot(ai: Insight, other: Insight, t: Target)
    requires SlotOf(ai) != SlotOf(other)
    ensures SlotOf(Cleared(ai, t)) == SlotOf(Cleared(other, t)) <==> Collides(ai, other, t) || Collides(other, ai, t)
  {
  }

  /** A delete is refused exactly if an insight of the target would become another insight of the same
      account and day that has lost its reference before. */
  lemma {:induction false} RefusedIff(h: Hierarchy, t: Target)
    requires Unique(h.insights)
    ensures Refused(h, t) <==>
      exists i, j :: 0 <= i < |h.insights| && 0 <= j < |h.insights| && Collides(h.insights[i], h.insights[j], t)
  {
    var xs, ys := h.insights, ClearedAll(h.insights, t);
    if Refused(h, t) {
      var i, j :| 0 <= i < j < |ys| && SlotOf(ys[i]) == SlotOf(ys[j]);
      SharedSlot(xs[i], xs[j], t);
    }
    if i, j :| 0 <= i < |xs| && 0 <= j < |xs| && Collides(xs[i], xs[j], t) {
      SharedSlot(xs[i], xs[j], t);
      assert SlotOf(ys[i]) == SlotOf(ys[j]);
      assert i != j;
      if i < j { assert !Unique(ys); } else { assert SlotOf(ys[j]) == SlotOf(ys[i]) && !Unique(ys); }
    }
  }

  /** Of two ads of one ad set with insights on the same day, the second can no longer be deleted once
      the first is. */
  lemma SecondDeleteRefused(h: Hierarchy, first: Id, second: Id, i: nat, j: nat)
    requires Sound(h) && i < |h.insights| && j < |h.insights| && first != second
    requires h.insights[i].adId == Some(first) && h.insights[j].adId == Some(second)
    requires SlotOf(h.insights[i]).(adId := None) == SlotOf(h.insights[j]).(adId := None)
    requires !Refused(h, TheAd(first))
    ensures Refused(Delete(h, TheAd(first)), TheAd(second))
  {
    assert Linked(h, h.insights[i]);
    var h' := Delete(h, TheAd(first));
    DeleteKeepsSound(h, TheAd(first));
    assert Collides(h'.insights[j], h'.insights[i], TheAd(second));
    RefusedIff(h', TheAd(second));
  }

  // ---- What becomes of the rows ----

  predicate KeptOrCleared(before: Option<Id>, after: Option<Id>) { after == before || after.None? }

  /** The same row, only that some of its references may be gone. */
  predicate Faded(before: Insight, after: Insight) {
    && after == before.(campaignId := after.campaignId, adSetId := after.adSetId, adId := after.adId)
    && KeptOrCleared(before.campaignId, after.campaignId) && KeptOrCleared(before.adSetId, after.adSetId)
    && KeptOrCleared(before.adId, after.adId)
  }

  predicate AllFaded(before: seq<Insight>, after: seq<Insight>) {
    |before| == |after| && forall i :: 0 <= i < |before| ==> Faded(before[i], after[i])
  }

  /** No delete ever loses an insight or changes what it reports. */
  lemma {:induction false} DeletesFade(h: Hierarchy, ts: seq<Target>)
    ensures AllFaded(h.insights, DeleteAll(h, ts).insights)
  {
    if ts != [] {
      DeletesFade(h, ts[..|ts| - 1]);
      var middle, after := DeleteAll(h, ts[..|ts| - 1]), DeleteAll(h, ts);
      forall i | 0 <= i < |h.insights| ensures Faded(h.insights[i], after.insights[i]) {
        assert Faded(h.insights[i], middle.insights[i]);
        assert after.insights[i] == middle.insights[i]
            || after.insights[i] == Cleared(middle.insights[i], ts[|ts| - 1]);
      }
    }
  }

  lemma {:induction false} FadedTally(before: seq<Insight>, after: seq<Insight>, q: Filter, m: Measure)
    requires AllFaded(before, after) && (q.Whole? || q.OfAccount?)
    ensures InsightTally(after, q, m) == InsightTally(before, q, m)
  {
    if before != [] {
      assert Faded(before[|before| - 1], after[|before| - 1]);
      FadedTally(before[..|before| - 1], after[..|before| - 1], q, m);
    }
  }

  /** DELETES CONSERVE FACTS. After any sequence of deletes every measure of every ad account, spend and
      impressions among them, comes to the same in the view. */
  lemma AccountsConserved(h: Hierarchy, ts: seq<Target>, orders: seq<Order>, items: seq<OrderItem>,
                          account: Id, m: Measure)
    requires Keyed(Database(h.insights, orders, items))
    ensures Keyed(Database(DeleteAll(h, ts).insights, orders, items))
    ensures Total(Facts(Database(DeleteAll(h, ts).insights, orders, items)), OfAccount(account), m)
         == Total(Facts(Database(h.insights, orders, items)), OfAccount(account), m)
  {
    var before, after := h.insights, DeleteAll(h, ts).insights;
    DeletesFade(h, ts);
    forall i, j | 0 <= i < j < |after| ensures after[i].id != after[j].id {
      assert Faded(before[i], after[i]) && Faded(before[j], after[j]);
    }
    FadedTally(before, after, OfAccount(account), m);
    OnlyInsights(Database(before, orders, items), OfAccount(account), m);
    OnlyInsights(Database(after, orders, items), OfAccount(account), m);
  }

  function Fineness(g: Grain): nat {
    match g
    case Ad => 3
    case AdSet => 2
    case Campaign => 1
    case _ => 0
  }

  /** Rows move to coarser grains only. */
  lemma {:induction false} CoarserOnly(h: Hierarchy, ts: seq<Target>, i: nat)
    requires i < |h.insights|
    ensures |DeleteAll(h, ts).insights| == |h.insights|
    ensures Fineness(GrainOf(DeleteAll(h, ts).insights[i])) <= Fineness(GrainOf(h.insights[i]))
  {
    DeletesFade(h, ts);
    assert Faded(h.insights[i], DeleteAll(h, ts).insights[i]);
  }

  // ---- What the advertising totals lose ----

  /** The insights in scope that had an ad and have none any more. */
  function Lost(before: seq<Insight>, after: seq<Insight>, s: Scope, m: Measure): Tally
    requires |before| == |after|
  {
    if before == [] then NONE
    else
      var n := |before| - 1;
      var ai := before[n];
      Add(Lost(before[..n], after[..n], s, m),
          if ai.adId.Some? && after[n].adId.None? && Dated(s, ai.businessId, ai.date, ai.currency)
          then Reports(ai, m) else None)
  }

  function AdFilter(s: Scope): Filter { Within(Ad, s, Everything) }

  function Counted(ai: Insight, q: Filter, m: Measure): Option<int> {
    if InsightSelected(q, ai) then Reports(ai, m) else None
  }

  lemma OneRowLoses(before: Insight, after: Insight, s: Scope, m: Measure)
    requires Faded(before, after)
    ensures if before.adId.Some? && after.adId.None? && Dated(s, before.businessId, before.date, before.currency)
            then Counted(before, AdFilter(s), m) == Reports(before, m) && Counted(after, AdFilter(s), m) == None
            else Counted(before, AdFilter(s), m) == Counted(after, AdFilter(s), m)
  {
  }

  /** Totals read rows of grain 'ad' only, so what a row reports drops out with its ad, and nothing
      else does. */
  lemma {:induction false} AdTallyLoses(before: seq<Insight>, after: seq<Insight>, s: Scope, m: Measure)
    requires AllFaded(before, after)
    ensures InsightTally(before, AdFilter(s), m).sum
         == InsightTally(after, AdFilter(s), m).sum + Lost(before, after, s, m).sum
    ensures InsightTally(before, AdFilter(s), m).count
         == InsightTally(after, AdFilter(s), m).count + Lost(before, after, s, m).count
  {
    if before != [] {
      var n := |before| - 1;
      assert Faded(before[n], after[n]);
      AdTallyLoses(before[..n], after[..n], s, m);
      OneRowLoses(before[n], after[n], s, m);
    }
  }

  lemma {:induction false} LostCounts(before: seq<Insight>, after: seq<Insight>, s: Scope, i: nat)
    requires |before| == |after| && i < |before|
    requires before[i].adId.Some? && after[i].adId.None?
    requires Dated(s, before[i].businessId, before[i].date, before[i].currency)
    ensures Lost(before, after, s, Ones).count > 0
  {
    var n := |before| - 1;
    if i < n { LostCounts(before[..n], after[..n], s, i); }
  }

  lemma {:induction false} NothingLost(before: seq<Insight>, after: seq<Insight>, s: Scope, m: Measure)
    requires |before| == |after| && forall i :: 0 <= i < |before| ==> before[i].adId.Some? ==> after[i].adId.Some?
    ensures Lost(before, after, s, m) == NONE
  {
    if before != [] {
      var n := |before| - 1;
      NothingLost(before[..n], after[..n], s, m);
    }
  }

  ghost predicate SameAdTotals(a: Database, b: Database) {
    forall s, m :: AdTotals(a, s, Everything, m) == AdTotals(b, s, Everything, m)
  }

  predicate SomeAdLost(before: seq<Insight>, after: seq<Insight>)
    requires |before| == |after|
  {
    exists i :: 0 <= i < |before| && before[i].adId.Some? && after[i].adId.None?
  }

  lemma TotalsDiffer(before: Database, after: Database, i: nat)
    requires Keyed(before) && Keyed(after) && AllFaded(before.insights, after.insights)
    requires i < |before.insights| && before.insights[i].adId.Some? && after.insights[i].adId.None?
    ensures !SameAdTotals(after, before)
  {
    var ai := before.insights[i];
    var s := Scope(ai.businessId, ai.date, ai.date, ai.currency);
    LostCounts(before.insights, after.insights, s, i);
    AdTallyLoses(before.insights, after.insights, s, Ones);
    InsightOnes(before.insights, AdFilter(s));
    InsightOnes(after.insights, AdFilter(s));
    AdTotalsAgree(before, s, Everything, Ones);
    AdTotalsAgree(after, s, Everything, Ones);
    assert AdTotals(after, s, Everything, Ones) != AdTotals(before, s, Everything, Ones);
  }

  lemma TotalSame(before: Database, after: Database, s: Scope, m: Measure)
    requires Keyed(before) && Keyed(after) && AllFaded(before.insights, after.insights)
    requires !SomeAdLost(before.insights, after.insights)
    ensures AdTotals(after, s, Everything, m) == AdTotals(before, s, Everything, m)
  {
    NothingLost(before.insights, after.insights, s, m);
    AdTallyLoses(before.insights, after.insights, s, m);
    AdTotalsAgree(before, s, Everything, m);
    AdTotalsAgree(after, s, Everything, m);
  }

  lemma TotalsKeptIff(before: Database, after: Database)
    requires Keyed(before) && Keyed(after) && AllFaded(before.insights, after.insights)
    ensures SameAdTotals(after, before) <==> !SomeAdLost(before.insights, after.insights)
  {
    if i :| 0 <= i < |before.insights| && before.insights[i].adId.Some? && after.insights[i].adId.None? {
      TotalsDiffer(before, after, i);
    } else {
      forall s, m ensures AdTotals(after, s, Everything, m) == AdTotals(before, s, Everything, m) {
        TotalSame(before, after, s, m);
      }
    }
  }

  /** The target is an ad that exists, has insights and is not refused. */
  predicate TakesAnAd(h: Hierarchy, t: Target) {
    t.TheAd? && Exists(h, t) && !Refused(h, t) && exists i :: 0 <= i < |h.insights| && h.insights[i].adId == Some(t.id)
  }

  /** One of the deletes is such a one at its turn. */
  predicate TakeAnAd(h: Hierarchy, ts: seq<Target>) {
    ts != [] && (TakeAnAd(h, ts[..|ts| - 1]) || TakesAnAd(DeleteAll(h, ts[..|ts| - 1]), ts[|ts| - 1]))
  }

  lemma OneTakes(h: Hierarchy, t: Target)
    ensures |Delete(h, t).insights| == |h.insights|
    ensures SomeAdLost(h.insights, Delete(h, t).insights) <==> TakesAnAd(h, t)
  {
    var after := Delete(h, t).insights;
    if TakesAnAd(h, t) {
      var i :| 0 <= i < |h.insights| && h.insights[i].adId == Some(t.id);
      assert after[i] == Cleared(h.insights[i], t);
    }
  }

  lemma {:induction false} TheyTake(h: Hierarchy, ts: seq<Target>)
    ensures |DeleteAll(h, ts).insights| == |h.insights|
    ensures SomeAdLost(h.insights, DeleteAll(h, ts).insights) <==> TakeAnAd(h, ts)
  {
    if ts != [] {
      var n := |ts| - 1;
      TheyTake(h, ts[..n]);
      OneTakes(DeleteAll(h, ts[..n]), ts[n]);
      DeletesFade(h, ts[..n]);
      LostInTwo(h.insights, DeleteAll(h, ts[..n]).insights, DeleteAll(h, ts).insights);
    }
  }

  /** A row that has lost its ad does not get it back. */
  lemma LostInTwo(before: seq<Insight>, middle: seq<Insight>, after: seq<Insight>)
    requires AllFaded(before, middle) && AllFaded(middle, after)
    ensures SomeAdLost(before, after) <==> SomeAdLost(before, middle) || SomeAdLost(middle, after)
  {
  }

  /** THE LIMIT OF THAT. Over any sequence of deletes the advertising totals of every scope stay what
      they were if and only if none of them is, at its turn, the accepted delete of an ad with
      insights. */
  lemma AdTotalsKeptIff(h: Hierarchy, ts: seq<Target>, orders: seq<Order>, items: seq<OrderItem>)
    requires Keyed(Database(h.insights, orders, items))
    ensures SameAdTotals(Database(DeleteAll(h, ts).insights, orders, items), Database(h.insights, orders, items))
        <==> !TakeAnAd(h, ts)
  {
    DeletesFade(h, ts);
    AccountsConserved(h, ts, orders, items, 0, Ones);
    TotalsKeptIff(Database(h.insights, orders, items), Database(DeleteAll(h, ts).insights, orders, items));
    TheyTake(h, ts);
  }

  /** Deleting ad sets and campaigns takes no insight its ad. */
  lemma {:induction false} OnlyAdsMatter(h: Hierarchy, ts: seq<Target>, i: nat)
    requires i < |h.insights| && forall k :: 0 <= k < |ts| ==> !ts[k].TheAd?
    ensures |DeleteAll(h, ts).insights| == |h.insights|
    ensures DeleteAll(h, ts).insights[i].adId == h.insights[i].adId
  {
    if ts != [] {
      OnlyAdsMatter(h, ts[..|ts| - 1], i);
    }
  }

  /** One delete changes them exactly if it is the accepted delete of an ad with insights. */
  lemma OneDeleteLosesIff(h: Hierarchy, t: Target, orders: seq<Order>, items: seq<OrderItem>)
    requires Keyed(Database(h.insights, orders, items))
    ensures !SameAdTotals(Database(Delete(h, t).insights, orders, items), Database(h.insights, orders, items))
        <==> t.TheAd? && Exists(h, t) && !Refused(h, t)
             && exists i :: 0 <= i < |h.insights| && h.insights[i].adId == Some(t.id)
  {
    assert [t][..0] == [] && DeleteAll(h, [t]) == Delete(h, t);
    assert TakeAnAd(h, [t]) <==> TakesAnAd(h, t);
    AdTotalsKeptIff(h, [t], orders, items);
  }

  // ---- An ad that takes its spend along ----

  lemma OneFact(ai: Insight, q: Filter)
    ensures Total(Facts(Database([ai], [], [])), q, Spend)
         == if Selects(q, InsightFact(ai)) then Some(ai.spend) else None
  {
    assert [ai][..|[ai]| - 1] == [];
    assert InsightFacts([ai]) == [InsightFact(ai)] && OrderFacts([]) == [] && ItemFacts([], []) == [];
    assert Facts(Database([ai], [], [])) == [InsightFact(ai)];
    assert [InsightFact(ai)][..0] == [];
  }

  const LONE_INSIGHT := Insight(0, 1, 2, None, None, Some(3), "meta", 20, "ad", "EUR",
                                100, None, 10, None, None, 250, None, None)

  const LONE_AD := Hierarchy({}, map[], map[3 := AdParents(None, None)], [LONE_INSIGHT])

  /** One ad with one insight: deleting it is accepted, keeps the spend of the account, and leaves
      nothing in the advertising totals of the day. */
  lemma SpendDisappears()
    ensures Sound(LONE_AD) && !Refused(LONE_AD, TheAd(3))
    ensures var before := Database(LONE_AD.insights, [], []);
      var after := Database(Delete(LONE_AD, TheAd(3)).insights, [], []);
      var s := Scope(1, 20, 20, "EUR");
      && AdTotals(before, s, Everything, Spend) == Some(250)
      && AdTotals(after, s, Everything, Spend) == None
      && Total(Facts(after), OfAccount(2), Spend) == Some(250)
  {
    var h' := Delete(LONE_AD, TheAd(3));
    assert h'.insights == [LONE_INSIGHT.(adId := None)];
    OneFact(LONE_INSIGHT, AdFilter(Scope(1, 20, 20, "EUR")));
    OneFact(LONE_INSIGHT.(adId := None), AdFilter(Scope(1, 20, 20, "EUR")));
    OneFact(LONE_INSIGHT.(adId := None), OfAccount(2));
  }
}
