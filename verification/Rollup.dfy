/** GROUP BY over `metric_facts`: higher advertising grains are roll-ups of the ad rows. */
module Rollup {
  import opened Common
  import opened MetricFacts

  /** One group of a GROUP BY: its key and the SUM over its rows. */
  datatype Group<K> = Group(key: K, value: Option<int>)

  predicate HasKey<K(==)>(gs: seq<Group<K>>, k: K) { exists i :: 0 <= i < |gs| && gs[i].key == k }

  /** One more row: it joins its group, or opens one. */
  function Insert<K(==)>(gs: seq<Group<K>>, g: Group<K>): seq<Group<K>> {
    if gs == [] then [g]
    else if gs[0].key == g.key then [Group(g.key, Plus(gs[0].value, g.value))] + gs[1..]
    else [gs[0]] + Insert(gs[1..], g)
  }

  function GroupBy<K(==)>(facts: seq<Fact>, key: Fact -> K, q: Filter, m: Measure): seq<Group<K>> {
    if facts == [] then []
    else
      var f := facts[|facts| - 1];
      var gs := GroupBy(facts[..|facts| - 1], key, q, m);
      if Selects(q, f) then Insert(gs, Group(key(f), Get(f, m))) else gs
  }

  /** Rolling groups up to a coarser key. */
  function Regroup<K, L(==)>(gs: seq<Group<K>>, up: K -> L): seq<Group<L>> {
    if gs == [] then []
    else
      var g := gs[|gs| - 1];
      Insert(Regroup(gs[..|gs| - 1], up), Group(up(g.key), g.value))
  }

  // ---- Inserting ----

  lemma PlusLaws(x: Option<int>, y: Option<int>, z: Option<int>)
    ensures Plus(x, y) == Plus(y, x) && Plus(Plus(x, y), z) == Plus(x, Plus(y, z))
  {
  }

  lemma {:induction false} InsertSame<K>(gs: seq<Group<K>>, k: K, x: Option<int>, y: Option<int>)
    ensures Insert(Insert(gs, Group(k, x)), Group(k, y)) == Insert(gs, Group(k, Plus(x, y)))
  {
    if gs != [] {
      if gs[0].key == k {
        PlusLaws(gs[0].value, x, y);
      } else {
        InsertSame(gs[1..], k, x, y);
      }
    }
  }

  /** Joining an open group can be put off. */
  lemma {:induction false} InsertCommutes<K>(gs: seq<Group<K>>, a: Group<K>, b: Group<K>)
    requires HasKey(gs, a.key)
    ensures Insert(Insert(gs, a), b) == Insert(Insert(gs, b), a)
  {
    if gs[0].key == a.key && a.key == b.key {
      PlusLaws(gs[0].value, a.value, b.value);
      PlusLaws(gs[0].value, b.value, a.value);
      PlusLaws(a.value, b.value, None);
    } else if gs[0].key != a.key {
      var i :| 0 <= i < |gs| && gs[i].key == a.key;
      assert gs[1..][i - 1].key == a.key;
      if gs[0].key != b.key {
        InsertCommutes(gs[1..], a, b);
      }
    }
  }

  lemma {:induction false} InsertLast<K>(gs: seq<Group<K>>, last: Group<K>, g: Group<K>)
    ensures Insert(gs + [last], g) ==
      if HasKey(gs, g.key) then Insert(gs, g) + [last]
      else if last.key == g.key then gs + [Group(g.key, Plus(last.value, g.value))] else gs + [last, g]
  {
    if gs == [] {
      assert gs + [last] == [last];
    } else if gs[0].key != g.key {
      assert (gs + [last])[1..] == gs[1..] + [last];
      InsertLast(gs[1..], last, g);
      assert HasKey(gs[1..], g.key) <==> HasKey(gs, g.key) by {
        if i :| 0 <= i < |gs| && gs[i].key == g.key { assert gs[1..][i - 1].key == g.key; }
      }
    } else {
      assert (gs + [last])[1..] == gs[1..] + [last];
    }
  }

  lemma {:induction false} InsertKeys<K>(gs: seq<Group<K>>, g: Group<K>, k: K)
    ensures HasKey(Insert(gs, g), k) <==> HasKey(gs, k) || g.key == k
  {
    if gs == [] {
      assert Insert(gs, g)[0] == g;
    } else if gs[0].key == g.key {
      assert Insert(gs, g)[0].key == g.key;
      assert forall i :: 0 <= i < |gs| ==> Insert(gs, g)[i].key == gs[i].key;
    } else {
      InsertKeys(gs[1..], g, k);
      var rest := Insert(gs[1..], g);
      assert Insert(gs, g) == [gs[0]] + rest;
      if i :| 0 <= i < |gs| && gs[i].key == k {
        if i > 0 { assert gs[1..][i - 1].key == k; } else { assert Insert(gs, g)[0].key == k; }
      }
      if HasKey(rest, k) {
        var j :| 0 <= j < |rest| && rest[j].key == k;
        assert Insert(gs, g)[j + 1].key == k;
      }
      if j :| 0 <= j < |Insert(gs, g)| && Insert(gs, g)[j].key == k {
        if j > 0 { assert rest[j - 1].key == k; }
      }
    }
  }

  lemma {:induction false} RegroupKeys<K, L>(gs: seq<Group<K>>, up: K -> L, k: K)
    requires HasKey(gs, k)
    ensures HasKey(Regroup(gs, up), up(k))
  {
    var n := |gs| - 1;
    InsertKeys(Regroup(gs[..n], up), Group(up(gs[n].key), gs[n].value), up(k));
    if gs[n].key != k {
      var i :| 0 <= i < |gs| && gs[i].key == k;
      assert gs[..n][i].key == k;
      RegroupKeys(gs[..n], up, k);
    }
  }

  lemma RegroupAppend<K, L>(gs: seq<Group<K>>, g: Group<K>, up: K -> L)
    ensures Regroup(gs + [g], up) == Insert(Regroup(gs, up), Group(up(g.key), g.value))
  {
    assert (gs + [g])[..|gs|] == gs;
  }

  /** Rolling up one row and then its group is the same as rolling up the row itself. */
  lemma {:induction false} RegroupInsert<K, L>(gs: seq<Group<K>>, g: Group<K>, up: K -> L)
    ensures Regroup(Insert(gs, g), up) == Insert(Regroup(gs, up), Group(up(g.key), g.value))
  {
    var g' := Group(up(g.key), g.value);
    if gs == [] {
      RegroupAppend([], g, up);
      assert [] + [g] == [g];
    } else {
      var n := |gs| - 1;
      var rest, last := gs[..n], gs[n];
      var last' := Group(up(last.key), last.value);
      assert gs == rest + [last];
      InsertLast(rest, last, g);
      if HasKey(rest, g.key) {
        RegroupInsert(rest, g, up);
        RegroupAppend(Insert(rest, g), last, up);
        RegroupKeys(rest, up, g.key);
        InsertCommutes(Regroup(rest, up), g', last');
      } else if last.key == g.key {
        RegroupAppend(rest, Group(g.key, Plus(last.value, g.value)), up);
        InsertSame(Regroup(rest, up), up(g.key), last.value, g.value);
      } else {
        assert rest + [last, g] == gs + [g];
        RegroupAppend(gs, g, up);
      }
    }
  }

  /** ROLL-UP. Grouping by a fine key and rolling the groups up to a coarser one is grouping the rows by
      the coarse key to begin with. */
  lemma {:induction false} RollUp<K, L>(facts: seq<Fact>, fine: Fact -> K, up: K -> L, coarse: Fact -> L,
                                        q: Filter, m: Measure)
    requires forall f :: coarse(f) == up(fine(f))
    ensures Regroup(GroupBy(facts, fine, q, m), up) == GroupBy(facts, coarse, q, m)
  {
    if facts != [] {
      var n := |facts| - 1;
      RollUp(facts[..n], fine, up, coarse, q, m);
      RegroupInsert(GroupBy(facts[..n], fine, q, m), Group(fine(facts[n]), Get(facts[n], m)), up);
    }
  }

  // ---- What GROUP BY gives ----

  /** The SUM over the rows of one group, read off the rows. */
  function SumAt<K(==)>(facts: seq<Fact>, key: Fact -> K, k: K, q: Filter, m: Measure): Option<int> {
    if facts == [] then None
    else
      var f := facts[|facts| - 1];
      Plus(SumAt(facts[..|facts| - 1], key, k, q, m), if Selects(q, f) && key(f) == k then Get(f, m) else None)
  }

  function Value<K(==)>(gs: seq<Group<K>>, k: K): Option<int> {
    if gs == [] then None else if gs[0].key == k then gs[0].value else Value(gs[1..], k)
  }

  function SumOf<K>(gs: seq<Group<K>>): Option<int> {
    if gs == [] then None else Plus(gs[0].value, SumOf(gs[1..]))
  }

  predicate Distinct<K(==)>(gs: seq<Group<K>>) {
    forall i, j :: 0 <= i < j < |gs| ==> gs[i].key != gs[j].key
  }

  lemma {:induction false} InsertValue<K>(gs: seq<Group<K>>, g: Group<K>, k: K)
    ensures Value(Insert(gs, g), k) == if g.key == k then Plus(Value(gs, k), g.value) else Value(gs, k)
  {
    if gs != [] && gs[0].key != g.key {
      InsertValue(gs[1..], g, k);
    }
  }

  lemma {:induction false} InsertSum<K>(gs: seq<Group<K>>, g: Group<K>)
    ensures SumOf(Insert(gs, g)) == Plus(SumOf(gs), g.value)
  {
    if gs != [] {
      PlusLaws(gs[0].value, g.value, SumOf(gs[1..]));
      PlusLaws(gs[0].value, SumOf(gs[1..]), g.value);
      PlusLaws(g.value, SumOf(gs[1..]), None);
      if gs[0].key != g.key {
        InsertSum(gs[1..], g);
      }
    }
  }

  lemma {:induction false} InsertDistinct<K>(gs: seq<Group<K>>, g: Group<K>)
    requires Distinct(gs)
    ensures Distinct(Insert(gs, g))
  {
    if gs != [] && gs[0].key != g.key {
      InsertDistinct(gs[1..], g);
      InsertKeys(gs[1..], g, gs[0].key);
      var rest := Insert(gs[1..], g);
      assert !HasKey(gs[1..], gs[0].key);
      forall i, j | 0 <= i < j < |rest| + 1 ensures ([gs[0]] + rest)[i].key != ([gs[0]] + rest)[j].key {
        if i == 0 { assert !HasKey(rest, gs[0].key); }
      }
    }
  }

  predicate HasRow<K(==)>(facts: seq<Fact>, key: Fact -> K, k: K, q: Filter) {
    exists i :: 0 <= i < |facts| && Selects(q, facts[i]) && key(facts[i]) == k
  }

  lemma HasRowLast<K>(facts: seq<Fact>, key: Fact -> K, k: K, q: Filter)
    requires facts != []
    ensures var n := |facts| - 1;
      HasRow(facts, key, k, q) <==> HasRow(facts[..n], key, k, q) || (Selects(q, facts[n]) && key(facts[n]) == k)
  {
    var n := |facts| - 1;
    if i :| 0 <= i < n && Selects(q, facts[..n][i]) && key(facts[..n][i]) == k {
      assert facts[i] == facts[..n][i];
    }
    if i :| 0 <= i < n && Selects(q, facts[i]) && key(facts[i]) == k {
      assert facts[i] == facts[..n][i];
    }
  }

  lemma {:induction false} GroupKeys<K>(facts: seq<Fact>, key: Fact -> K, q: Filter, m: Measure, k: K)
    ensures HasKey(GroupBy(facts, key, q, m), k) <==> HasRow(facts, key, k, q)
  {
    if facts != [] {
      var n := |facts| - 1;
      GroupKeys(facts[..n], key, q, m, k);
      HasRowLast(facts, key, k, q);
      InsertKeys(GroupBy(facts[..n], key, q, m), Group(key(facts[n]), Get(facts[n], m)), k);
    }
  }

  lemma {:induction false} GroupsDistinct<K>(facts: seq<Fact>, key: Fact -> K, q: Filter, m: Measure)
    ensures Distinct(GroupBy(facts, key, q, m))
  {
    if facts != [] {
      var n := |facts| - 1;
      GroupsDistinct(facts[..n], key, q, m);
      InsertDistinct(GroupBy(facts[..n], key, q, m), Group(key(facts[n]), Get(facts[n], m)));
    }
  }

  lemma {:induction false} GroupValues<K>(facts: seq<Fact>, key: Fact -> K, q: Filter, m: Measure, k: K)
    ensures Value(GroupBy(facts, key, q, m), k) == SumAt(facts, key, k, q, m)
  {
    if facts != [] {
      var n := |facts| - 1;
      GroupValues(facts[..n], key, q, m, k);
      InsertValue(GroupBy(facts[..n], key, q, m), Group(key(facts[n]), Get(facts[n], m)), k);
    }
  }

  /** One group for each key that a selected row has, with the SUM over just its rows. */
  lemma GroupByCorrect<K>(facts: seq<Fact>, key: Fact -> K, q: Filter, m: Measure, k: K)
    ensures Distinct(GroupBy(facts, key, q, m))
    ensures HasKey(GroupBy(facts, key, q, m), k) <==> HasRow(facts, key, k, q)
    ensures Value(GroupBy(facts, key, q, m), k) == SumAt(facts, key, k, q, m)
  {
    GroupsDistinct(facts, key, q, m);
    GroupKeys(facts, key, q, m, k);
    GroupValues(facts, key, q, m, k);
  }

  /** The groups add up to the total, whatever the key. */
  lemma {:induction false} GroupsAddUp<K>(facts: seq<Fact>, key: Fact -> K, q: Filter, m: Measure)
    ensures SumOf(GroupBy(facts, key, q, m)) == Total(facts, q, m)
  {
    if facts != [] {
      var n := |facts| - 1;
      GroupsAddUp(facts[..n], key, q, m);
      InsertSum(GroupBy(facts[..n], key, q, m), Group(key(facts[n]), Get(facts[n], m)));
    }
  }

  // ---- Advertising roll-ups ----

  datatype AdPath = AdPath(campaignId: Option<Id>, adSetId: Option<Id>, adId: Option<Id>)

  datatype AdSetPath = AdSetPath(campaignId: Option<Id>, adSetId: Option<Id>)

  function PathOf(f: Fact): AdPath { AdPath(f.campaignId, f.adSetId, f.adId) }

  function AdSetPathOf(f: Fact): AdSetPath { AdSetPath(f.campaignId, f.adSetId) }

  function CampaignOf(f: Fact): Option<Id> { f.campaignId }

  function AdSetOf(f: Fact): Option<Id> { f.adSetId }

  function AdOf(f: Fact): Option<Id> { f.adId }

  function DateOf(f: Fact): int { f.date }

  function AdRows(s: Scope): Filter { Within(Ad, s, Everything) }

  function CampaignRollups(db: Database, s: Scope, m: Measure): seq<Group<Option<Id>>> {
    GroupBy(Facts(db), CampaignOf, AdRows(s), m)
  }

  function AdSetRollups(db: Database, s: Scope, m: Measure): seq<Group<Option<Id>>> {
    GroupBy(Facts(db), AdSetOf, AdRows(s), m)
  }

  function AdRollups(db: Database, s: Scope, m: Measure): seq<Group<Option<Id>>> {
    GroupBy(Facts(db), AdOf, AdRows(s), m)
  }

  function AdTimeseries(db: Database, s: Scope, m: Measure): seq<Group<int>> {
    GroupBy(Facts(db), DateOf, AdRows(s), m)
  }

  /** Ad by ad, then ad set by ad set, then campaign by campaign: each level is the roll-up of the one
      below, and what the code reads off the ad rows directly. */
  lemma HierarchyRollsUp(db: Database, s: Scope, m: Measure)
    ensures var byAd := GroupBy(Facts(db), PathOf, AdRows(s), m);
      var byAdSet := Regroup(byAd, (p: AdPath) => AdSetPath(p.campaignId, p.adSetId));
      && byAdSet == GroupBy(Facts(db), AdSetPathOf, AdRows(s), m)
      && Regroup(byAdSet, (p: AdSetPath) => p.campaignId) == CampaignRollups(db, s, m)
      && Regroup(byAdSet, (p: AdSetPath) => p.adSetId) == AdSetRollups(db, s, m)
      && Regroup(byAd, (p: AdPath) => p.adId) == AdRollups(db, s, m)
  {
    RollUp(Facts(db), PathOf, (p: AdPath) => AdSetPath(p.campaignId, p.adSetId), AdSetPathOf, AdRows(s), m);
    RollUp(Facts(db), AdSetPathOf, (p: AdSetPath) => p.campaignId, CampaignOf, AdRows(s), m);
    RollUp(Facts(db), AdSetPathOf, (p: AdSetPath) => p.adSetId, AdSetOf, AdRows(s), m);
    RollUp(Facts(db), PathOf, (p: AdPath) => p.adId, AdOf, AdRows(s), m);
  }

  /** Every level comes to the advertising total. */
  lemma LevelsAddUp(db: Database, s: Scope, m: Measure)
    ensures SumOf(CampaignRollups(db, s, m)) == AdTotals(db, s, Everything, m)
    ensures SumOf(AdSetRollups(db, s, m)) == AdTotals(db, s, Everything, m)
    ensures SumOf(AdRollups(db, s, m)) == AdTotals(db, s, Everything, m)
    ensures SumOf(AdTimeseries(db, s, m)) == AdTotals(db, s, Everything, m)
  {
    GroupsAddUp(Facts(db), CampaignOf, AdRows(s), m);
    GroupsAddUp(Facts(db), AdSetOf, AdRows(s), m);
    GroupsAddUp(Facts(db), AdOf, AdRows(s), m);
    GroupsAddUp(Facts(db), DateOf, AdRows(s), m);
  }

  lemma {:induction false} SumAtIsTotal<K>(facts: seq<Fact>, key: Fact -> K, k: K, q: Filter, narrow: Filter,
                                           m: Measure)
    requires forall f :: Selects(narrow, f) <==> Selects(q, f) && key(f) == k
    ensures SumAt(facts, key, k, q, m) == Total(facts, narrow, m)
  {
    if facts != [] {
      SumAtIsTotal(facts[..|facts| - 1], key, k, q, narrow, m);
    }
  }

  /** The line of a roll-up is the total that the code gives for that entity by itself. */
  lemma RollupLines(db: Database, s: Scope, m: Measure, id: Option<Id>)
    ensures Value(CampaignRollups(db, s, m), id) == AdTotals(db, s, OfCampaign(id), m)
    ensures Value(AdSetRollups(db, s, m), id) == AdTotals(db, s, OfAdSet(id), m)
    ensures Value(AdRollups(db, s, m), id) == AdTotals(db, s, OfAd(id), m)
  {
    GroupByCorrect(Facts(db), CampaignOf, AdRows(s), m, id);
    GroupByCorrect(Facts(db), AdSetOf, AdRows(s), m, id);
    GroupByCorrect(Facts(db), AdOf, AdRows(s), m, id);
    SumAtIsTotal(Facts(db), CampaignOf, id, AdRows(s), Within(Ad, s, OfCampaign(id)), m);
    SumAtIsTotal(Facts(db), AdSetOf, id, AdRows(s), Within(Ad, s, OfAdSet(id)), m);
    SumAtIsTotal(Facts(db), AdOf, id, AdRows(s), Within(Ad, s, OfAd(id)), m);
  }

  /** And the point of a time series is the total of that day. */
  lemma TimeseriesPoints(db: Database, s: Scope, m: Measure, date: int)
    requires s.start <= date <= s.end
    ensures Value(AdTimeseries(db, s, m), date) == AdTotals(db, s.(start := date, end := date), Everything, m)
  {
    GroupByCorrect(Facts(db), DateOf, AdRows(s), m, date);
    SumAtIsTotal(Facts(db), DateOf, date, AdRows(s), AdRows(s.(start := date, end := date)), m);
  }

  // ---- Products ----

  function ProductOf(f: Fact): Option<Id> { f.productId }

  function ProductRollups(db: Database, s: Scope, m: Measure): seq<Group<Option<Id>>> {
    GroupBy(Facts(db), ProductOf, Within(Product, s, Everything), m)
  }

  /** What one item adds to the line of a product. */
  function ItemAdds(oi: OrderItem, o: Order, s: Scope, product: Option<Id>, m: Measure): Option<int> {
    if Dated(s, o.businessId, o.orderedOn, o.currency) && oi.productId == product then ItemSells(oi, m) else None
  }

  /** What the items of one product in scope sold, read off the items. */
  function ProductTally(items: seq<OrderItem>, orders: seq<Order>, s: Scope, product: Option<Id>, m: Measure): Tally
    requires AllPlaced(items, orders)
  {
    if items == [] then NONE
    else
      var oi := items[|items| - 1];
      Add(ProductTally(items[..|items| - 1], orders, s, product, m),
          ItemAdds(oi, OrderOf(orders, oi.orderId), s, product, m))
  }

  lemma {:induction false} SumAtConcat<K>(a: seq<Fact>, b: seq<Fact>, key: Fact -> K, k: K, q: Filter, m: Measure)
    ensures SumAt(a + b, key, k, q, m) == Plus(SumAt(a, key, k, q, m), SumAt(b, key, k, q, m))
  {
    if b == [] {
      assert a + b == a;
    } else {
      assert (a + b)[..|a + b| - 1] == a + b[..|b| - 1];
      SumAtConcat(a, b[..|b| - 1], key, k, q, m);
    }
  }

  lemma SumAtLast<K>(facts: seq<Fact>, f: Fact, key: Fact -> K, k: K, q: Filter, m: Measure)
    ensures SumAt(facts + [f], key, k, q, m)
         == Plus(SumAt(facts, key, k, q, m), if Selects(q, f) && key(f) == k then Get(f, m) else None)
  {
    assert (facts + [f])[..|facts|] == facts;
  }

  lemma ItemFactAdds(oi: OrderItem, o: Order, s: Scope, product: Option<Id>, m: Measure)
    ensures ItemAdds(oi, o, s, product, m) ==
      var f := ItemFact(oi, o);
      if Selects(Within(Product, s, Everything), f) && ProductOf(f) == product then Get(f, m) else None
  {
  }

  lemma {:induction false} ItemsAt(items: seq<OrderItem>, orders: seq<Order>, s: Scope, product: Option<Id>, m: Measure)
    requires DistinctOrders(orders) && AllPlaced(items, orders)
    ensures SumAt(ItemFacts(items, orders), ProductOf, product, Within(Product, s, Everything), m)
         == Reported(ProductTally(items, orders, s, product, m))
  {
    if items != [] {
      var rest, oi := items[..|items| - 1], items[|items| - 1];
      var o := OrderOf(orders, oi.orderId);
      ItemsAt(rest, orders, s, product, m);
      LastItem(items, orders);
      SumAtLast(ItemFacts(rest, orders), ItemFact(oi, o), ProductOf, product, Within(Product, s, Everything), m);
      ItemFactAdds(oi, o, s, product, m);
      ReportedAdd(ProductTally(rest, orders, s, product, m), ItemAdds(oi, o, s, product, m));
    }
  }

  lemma {:induction false} InsightsAtNone(insights: seq<Insight>, s: Scope, product: Option<Id>, m: Measure)
    ensures SumAt(InsightFacts(insights), ProductOf, product, Within(Product, s, Everything), m) == None
  {
    if insights != [] {
      var rest, ai := insights[..|insights| - 1], insights[|insights| - 1];
      InsightsAtNone(rest, s, product, m);
      SumAtLast(InsightFacts(rest), InsightFact(ai), ProductOf, product, Within(Product, s, Everything), m);
    }
  }

  lemma {:induction false} OrdersAtNone(orders: seq<Order>, s: Scope, product: Option<Id>, m: Measure)
    ensures SumAt(OrderFacts(orders), ProductOf, product, Within(Product, s, Everything), m) == None
  {
    if orders != [] {
      var rest, o := orders[..|orders| - 1], orders[|orders| - 1];
      OrdersAtNone(rest, s, product, m);
      SumAtLast(OrderFacts(rest), OrderFact(o), ProductOf, product, Within(Product, s, Everything), m);
    }
  }

  lemma SumAtThree<K>(a: seq<Fact>, b: seq<Fact>, c: seq<Fact>, key: Fact -> K, k: K, q: Filter, m: Measure)
    requires SumAt(a, key, k, q, m) == None && SumAt(b, key, k, q, m) == None
    ensures SumAt(a + b + c, key, k, q, m) == SumAt(c, key, k, q, m)
  {
    SumAtConcat(a, b, key, k, q, m);
    SumAtConcat(a + b, c, key, k, q, m);
  }

  /** The line of a product is what its own items in scope sold, and products without items in scope have
      no line; items that have lost their product make up the line without one. */
  lemma ProductLines(db: Database, s: Scope, product: Option<Id>, m: Measure)
    requires Keyed(db)
    ensures Value(ProductRollups(db, s, m), product) == Reported(ProductTally(db.items, db.orders, s, product, m))
    ensures SumOf(ProductRollups(db, s, m))
         == Reported(ItemTally(db.items, db.orders, Within(Product, s, Everything), m))
  {
    var q := Within(Product, s, Everything);
    GroupByCorrect(Facts(db), ProductOf, q, m, product);
    InsightsAtNone(db.insights, s, product, m);
    OrdersAtNone(db.orders, s, product, m);
    SumAtThree(InsightFacts(db.insights), OrderFacts(db.orders), ItemFacts(db.items, db.orders),
               ProductOf, product, q, m);
    ItemsAt(db.items, db.orders, s, product, m);
    GroupsAddUp(Facts(db), ProductOf, q, m);
    OnlyItems(db, q, m);
  }
}
