/** The `metric_facts` view over ad_insights, orders and order_items, and the totals that are read
    from it. Money is counted in hundredths; a missing value is SQL's NULL. */
module MetricFacts {
  import opened Common

  type Id = nat

  // ---- Base tables ----

  datatype Insight = Insight(
    id: Id, businessId: Id, accountId: Id, campaignId: Option<Id>, adSetId: Option<Id>, adId: Option<Id>,
    provider: string, date: int, grain: string, currency: string,
    impressions: int, reach: Option<int>, clicks: int, linkClicks: Option<int>, landingPageViews: Option<int>,
    spend: int, conversions: Option<int>, conversionValue: Option<int>)

  datatype FinancialStatus = Pending | Authorized | PartiallyPaid | Paid | PartiallyRefunded | Refunded | Voided

  /** `orderedOn` is the date of `ordered_at` in the session's time zone. */
  datatype Order = Order(id: Id, businessId: Id, source: string, orderedOn: int, currency: string, total: int,
                         financialStatus: FinancialStatus)

  datatype OrderItem = OrderItem(id: Id, orderId: Id, productId: Option<Id>, quantity: int, lineTotal: int)

  datatype Database = Database(insights: seq<Insight>, orders: seq<Order>, items: seq<OrderItem>)

  predicate DistinctInsights(insights: seq<Insight>) {
    forall i, j :: 0 <= i < j < |insights| ==> insights[i].id != insights[j].id
  }

  predicate DistinctOrders(orders: seq<Order>) {
    forall i, j :: 0 <= i < j < |orders| ==> orders[i].id != orders[j].id
  }

  predicate DistinctItems(items: seq<OrderItem>) {
    forall i, j :: 0 <= i < j < |items| ==> items[i].id != items[j].id
  }

  predicate Placed(orders: seq<Order>, id: Id) {
    exists j :: 0 <= j < |orders| && orders[j].id == id
  }

  predicate AllPlaced(items: seq<OrderItem>, orders: seq<Order>) {
    forall i :: 0 <= i < |items| ==> Placed(orders, items[i].orderId)
  }

  /** Primary keys and the foreign key of order_items. */
  predicate Keyed(db: Database) {
    && DistinctInsights(db.insights) && DistinctOrders(db.orders) && DistinctItems(db.items)
    && AllPlaced(db.items, db.orders)
  }

  // ---- The view ----

  datatype SourceType = FromInsight | FromOrder | FromItem

  datatype Grain = Ad | AdSet | Campaign | AdAccount | Business | Product

  datatype Fact = Fact(
    businessId: Id, provider: string, sourceType: SourceType, sourceId: Id,
    accountId: Option<Id>, campaignId: Option<Id>, adSetId: Option<Id>, adId: Option<Id>, productId: Option<Id>,
    date: int, grain: Grain, currency: string,
    impressions: Option<int>, reach: Option<int>, clicks: Option<int>, linkClicks: Option<int>,
    landingPageViews: Option<int>, purchases: Option<int>, revenue: Option<int>, spend: Option<int>,
    refunds: Option<int>, conversions: Option<int>, conversionValue: Option<int>)

  function GrainOf(ai: Insight): Grain {
    if ai.adId.Some? then Ad
    else if ai.adSetId.Some? then AdSet
    else if ai.campaignId.Some? then Campaign
    else AdAccount
  }

  function InsightFact(ai: Insight): Fact {
    Fact(ai.businessId, ai.provider, FromInsight, ai.id,
         Some(ai.accountId), ai.campaignId, ai.adSetId, ai.adId, None,
         ai.date, GrainOf(ai), ai.currency,
         Some(ai.impressions), ai.reach, Some(ai.clicks), ai.linkClicks, ai.landingPageViews,
         None, None, Some(ai.spend), None, ai.conversions, ai.conversionValue)
  }

  function RefundOf(o: Order): int {
    if o.financialStatus in {Refunded, PartiallyRefunded} then o.total else 0
  }

  function OrderFact(o: Order): Fact {
    Fact(o.businessId, o.source, FromOrder, o.id, None, None, None, None, None, o.orderedOn, Business, o.currency,
         None, None, None, None, None, Some(1), Some(o.total), None, Some(RefundOf(o)), None, None)
  }

  function ItemFact(oi: OrderItem, o: Order): Fact {
    Fact(o.businessId, o.source, FromItem, oi.id, None, None, None, None, oi.productId,
         o.orderedOn, Product, o.currency,
         None, None, None, None, None, Some(oi.quantity), Some(oi.lineTotal), None, None, None, None)
  }

  function InsightFacts(insights: seq<Insight>): seq<Fact> {
    if insights == [] then [] else InsightFacts(insights[..|insights| - 1]) + [InsightFact(insights[|insights| - 1])]
  }

  function OrderFacts(orders: seq<Order>): seq<Fact> {
    if orders == [] then [] else OrderFacts(orders[..|orders| - 1]) + [OrderFact(orders[|orders| - 1])]
  }

  /** One item joined with the orders it belongs to. */
  function Joined(oi: OrderItem, orders: seq<Order>): seq<Fact> {
    if orders == [] then []
    else
      var o := orders[|orders| - 1];
      Joined(oi, orders[..|orders| - 1]) + (if o.id == oi.orderId then [ItemFact(oi, o)] else [])
  }

  function ItemFacts(items: seq<OrderItem>, orders: seq<Order>): seq<Fact> {
    if items == [] then [] else ItemFacts(items[..|items| - 1], orders) + Joined(items[|items| - 1], orders)
  }

  /** The view: UNION ALL of the three. */
  function Facts(db: Database): seq<Fact> {
    InsightFacts(db.insights) + OrderFacts(db.orders) + ItemFacts(db.items, db.orders)
  }

  // ---- Totals ----

  /** SUM, one value at a time: NULLs are skipped, and the sum of nothing is NULL. */
  function Plus(a: Option<int>, b: Option<int>): Option<int> {
    match (a, b)
    case (None, _) => b
    case (_, None) => a
    case (Some(x), Some(y)) => Some(x + y)
  }

  /** `Ones` stands for SUM(1), which is COUNT(*) except that it is NULL, not 0, over no row (CountIsOnes). */
  datatype Measure =
    | Impressions | Reach | Clicks | LinkClicks | LandingPageViews | Purchases | Revenue | Spend | Refunds
    | Conversions | ConversionValue | Ones

  function Get(f: Fact, m: Measure): Option<int> {
    match m
    case Impressions => f.impressions
    case Reach => f.reach
    case Clicks => f.clicks
    case LinkClicks => f.linkClicks
    case LandingPageViews => f.landingPageViews
    case Purchases => f.purchases
    case Revenue => f.revenue
    case Spend => f.spend
    case Refunds => f.refunds
    case Conversions => f.conversions
    case ConversionValue => f.conversionValue
    case Ones => Some(1)
  }

  /** A comparison with NULL is rendered IS NULL. */
  datatype Entity =
    | Everything
    | OfCampaign(campaignId: Option<Id>)
    | OfAdSet(adSetId: Option<Id>)
    | OfAd(adId: Option<Id>)

  datatype Scope = Scope(businessId: Id, start: int, end: int, currency: string)

  /** The WHERE clauses of the aggregate queries; besides, all rows of one grain or of one ad account,
      and no restriction at all. */
  datatype Filter =
    | Whole | OfGrain(grain: Grain) | OfAccount(accountId: Id) | Within(grain: Grain, scope: Scope, entity: Entity)

  predicate About(e: Entity, f: Fact) {
    match e
    case Everything => true
    case OfCampaign(c) => f.campaignId == c
    case OfAdSet(s) => f.adSetId == s
    case OfAd(a) => f.adId == a
  }

  predicate Selects(q: Filter, f: Fact) {
    match q
    case Whole => true
    case OfGrain(g) => f.grain == g
    case OfAccount(a) => f.accountId == Some(a)
    case Within(g, s, e) =>
      && f.businessId == s.businessId && f.grain == g && s.start <= f.date <= s.end
      && f.currency == s.currency && About(e, f)
  }

  function Total(facts: seq<Fact>, q: Filter, m: Measure): Option<int> {
    if facts == [] then None
    else
      var f := facts[|facts| - 1];
      Plus(Total(facts[..|facts| - 1], q, m), if Selects(q, f) then Get(f, m) else None)
  }

  /** COUNT(*) */
  function Count(facts: seq<Fact>, q: Filter): nat {
    if facts == [] then 0 else Count(facts[..|facts| - 1], q) + if Selects(q, facts[|facts| - 1]) then 1 else 0
  }

  function AdTotals(db: Database, s: Scope, e: Entity, m: Measure): Option<int> {
    Total(Facts(db), Within(Ad, s, e), m)
  }

  function CommerceTotals(db: Database, s: Scope, m: Measure): Option<int> {
    Total(Facts(db), Within(Business, s, Everything), m)
  }

  // ---- The same totals taken from the base tables ----

  /** How many values were there, and what do they add up to? */
  datatype Sums = Sums(count: nat, sum: int)

  type Tally = t: Sums | t.count == 0 ==> t.sum == 0 witness Sums(0, 0)

  const NONE: Tally := Sums(0, 0)

  function Add(t: Tally, v: Option<int>): Tally { if v.None? then t else Sums(t.count + 1, t.sum + v.value) }

  /** No row is no fact: NULL, not zero. */
  function Reported(t: Tally): Option<int> { if t.count == 0 then None else Some(t.sum) }

  predicate Dated(s: Scope, businessId: Id, date: int, currency: string) {
    businessId == s.businessId && s.start <= date <= s.end && currency == s.currency
  }

  /** The finest level that the insight still knows. */
  predicate Finest(ai: Insight, g: Grain) {
    match g
    case Ad => ai.adId.Some?
    case AdSet => ai.adId.None? && ai.adSetId.Some?
    case Campaign => ai.adId.None? && ai.adSetId.None? && ai.campaignId.Some?
    case AdAccount => ai.adId.None? && ai.adSetId.None? && ai.campaignId.None?
    case _ => false
  }

  predicate InsightSelected(q: Filter, ai: Insight) {
    match q
    case Whole => true
    case OfGrain(g) => Finest(ai, g)
    case OfAccount(a) => a == ai.accountId
    case Within(g, s, e) =>
      && Finest(ai, g) && Dated(s, ai.businessId, ai.date, ai.currency)
      && (e.OfCampaign? ==> e.campaignId == ai.campaignId)
      && (e.OfAdSet? ==> e.adSetId == ai.adSetId)
      && (e.OfAd? ==> e.adId == ai.adId)
  }

  /** What an insight reports, per measure. */
  function Reports(ai: Insight, m: Measure): Option<int> {
    match m
    case Impressions => Some(ai.impressions)
    case Reach => ai.reach
    case Clicks => Some(ai.clicks)
    case LinkClicks => ai.linkClicks
    case LandingPageViews => ai.landingPageViews
    case Spend => Some(ai.spend)
    case Conversions => ai.conversions
    case ConversionValue => ai.conversionValue
    case Ones => Some(1)
    case _ => None
  }

  function InsightTally(insights: seq<Insight>, q: Filter, m: Measure): Tally {
    if insights == [] then NONE
    else
      var ai := insights[|insights| - 1];
      Add(InsightTally(insights[..|insights| - 1], q, m), if InsightSelected(q, ai) then Reports(ai, m) else None)
  }

  /** An order or an order item belongs to no campaign, ad set or ad. */
  predicate Unattributed(e: Entity) {
    match e
    case Everything => true
    case OfCampaign(c) => c.None?
    case OfAdSet(s) => s.None?
    case OfAd(a) => a.None?
  }

  predicate OrderSelected(q: Filter, o: Order, grain: Grain) {
    match q
    case Whole => true
    case OfGrain(g) => g == grain
    case OfAccount(_) => false
    case Within(g, s, e) => g == grain && Dated(s, o.businessId, o.orderedOn, o.currency) && Unattributed(e)
  }

  predicate Returned(o: Order) { o.financialStatus.Refunded? || o.financialStatus.PartiallyRefunded? }

  function Sells(o: Order, m: Measure): Option<int> {
    match m
    case Purchases => Some(1)
    case Revenue => Some(o.total)
    case Refunds => Some(if Returned(o) then o.total else 0)
    case Ones => Some(1)
    case _ => None
  }

  function OrderTally(orders: seq<Order>, q: Filter, m: Measure): Tally {
    if orders == [] then NONE
    else
      var o := orders[|orders| - 1];
      Add(OrderTally(orders[..|orders| - 1], q, m), if OrderSelected(q, o, Business) then Sells(o, m) else None)
  }

  /** The order with this id. */
  function OrderOf(orders: seq<Order>, id: Id): (o: Order)
    requires Placed(orders, id)
    ensures o in orders && o.id == id
  {
    if orders[|orders| - 1].id == id then orders[|orders| - 1] else OrderOf(orders[..|orders| - 1], id)
  }

  function ItemSells(oi: OrderItem, m: Measure): Option<int> {
    match m
    case Purchases => Some(oi.quantity)
    case Revenue => Some(oi.lineTotal)
    case Ones => Some(1)
    case _ => None
  }

  function ItemTally(items: seq<OrderItem>, orders: seq<Order>, q: Filter, m: Measure): Tally
    requires AllPlaced(items, orders)
  {
    if items == [] then NONE
    else
      var oi := items[|items| - 1];
      Add(ItemTally(items[..|items| - 1], orders, q, m),
          if OrderSelected(q, OrderOf(orders, oi.orderId), Product) then ItemSells(oi, m) else None)
  }

  // ---- They agree ----

  lemma ReportedAdd(t: Tally, v: Option<int>)
    ensures Reported(Add(t, v)) == Plus(Reported(t), v)
  {
  }

  lemma {:induction false} TotalConcat(a: seq<Fact>, b: seq<Fact>, q: Filter, m: Measure)
    ensures Total(a + b, q, m) == Plus(Total(a, q, m), Total(b, q, m))
  {
    if b == [] {
      assert a + b == a;
    } else {
      assert (a + b)[..|a + b| - 1] == a + b[..|b| - 1];
      TotalConcat(a, b[..|b| - 1], q, m);
    }
  }

  lemma TotalAppend(facts: seq<Fact>, f: Fact, q: Filter, m: Measure)
    ensures Total(facts + [f], q, m) == Plus(Total(facts, q, m), if Selects(q, f) then Get(f, m) else None)
  {
    assert (facts + [f])[..|facts|] == facts;
  }

  lemma InsightMatches(q: Filter, ai: Insight, m: Measure)
    ensures (if Selects(q, InsightFact(ai)) then Get(InsightFact(ai), m) else None)
         == (if InsightSelected(q, ai) then Reports(ai, m) else None)
  {
  }

  lemma OrderMatches(q: Filter, o: Order, m: Measure)
    ensures (if Selects(q, OrderFact(o)) then Get(OrderFact(o), m) else None)
         == (if OrderSelected(q, o, Business) then Sells(o, m) else None)
  {
  }

  lemma ItemMatches(q: Filter, oi: OrderItem, o: Order, m: Measure)
    ensures (if Selects(q, ItemFact(oi, o)) then Get(ItemFact(oi, o), m) else None)
         == (if OrderSelected(q, o, Product) then ItemSells(oi, m) else None)
  {
  }

  lemma {:induction false} InsightsAgree(insights: seq<Insight>, q: Filter, m: Measure)
    ensures Total(InsightFacts(insights), q, m) == Reported(InsightTally(insights, q, m))
  {
    if insights != [] {
      var rest, ai := insights[..|insights| - 1], insights[|insights| - 1];
      InsightsAgree(rest, q, m);
      TotalAppend(InsightFacts(rest), InsightFact(ai), q, m);
      InsightMatches(q, ai, m);
      ReportedAdd(InsightTally(rest, q, m), if InsightSelected(q, ai) then Reports(ai, m) else None);
    }
  }

  lemma {:induction false} OrdersAgree(orders: seq<Order>, q: Filter, m: Measure)
    ensures Total(OrderFacts(orders), q, m) == Reported(OrderTally(orders, q, m))
  {
    if orders != [] {
      var rest, o := orders[..|orders| - 1], orders[|orders| - 1];
      OrdersAgree(rest, q, m);
      TotalAppend(OrderFacts(rest), OrderFact(o), q, m);
      OrderMatches(q, o, m);
      ReportedAdd(OrderTally(rest, q, m), if OrderSelected(q, o, Business) then Sells(o, m) else None);
    }
  }

  /** An item whose order is missing joins with nothing. */
  lemma {:induction false} JoinedNever(oi: OrderItem, orders: seq<Order>)
    requires !Placed(orders, oi.orderId)
    ensures Joined(oi, orders) == []
  {
    if orders != [] {
      JoinedNever(oi, orders[..|orders| - 1]);
    }
  }

  /** The join neither loses nor multiplies an item. */
  lemma {:induction false} JoinedOnce(oi: OrderItem, orders: seq<Order>)
    requires DistinctOrders(orders) && Placed(orders, oi.orderId)
    ensures Joined(oi, orders) == [ItemFact(oi, OrderOf(orders, oi.orderId))]
  {
    if orders[|orders| - 1].id == oi.orderId {
      JoinedNever(oi, orders[..|orders| - 1]);
    } else {
      JoinedOnce(oi, orders[..|orders| - 1]);
    }
  }

  lemma LastItem(items: seq<OrderItem>, orders: seq<Order>)
    requires items != [] && DistinctOrders(orders) && AllPlaced(items, orders)
    ensures var n := |items| - 1;
      ItemFacts(items, orders)
      == ItemFacts(items[..n], orders) + [ItemFact(items[n], OrderOf(orders, items[n].orderId))]
  {
    JoinedOnce(items[|items| - 1], orders);
  }

  lemma {:induction false} ItemsAgree(items: seq<OrderItem>, orders: seq<Order>, q: Filter, m: Measure)
    requires DistinctOrders(orders) && AllPlaced(items, orders)
    ensures Total(ItemFacts(items, orders), q, m) == Reported(ItemTally(items, orders, q, m))
  {
    if items != [] {
      var rest, oi := items[..|items| - 1], items[|items| - 1];
      ItemsAgree(rest, orders, q, m);
      LastItem(items, orders);
      var o := OrderOf(orders, oi.orderId);
      TotalAppend(ItemFacts(rest, orders), ItemFact(oi, o), q, m);
      ItemMatches(q, oi, o, m);
      ReportedAdd(ItemTally(rest, orders, q, m), if OrderSelected(q, o, Product) then ItemSells(oi, m) else None);
    }
  }

  /** VIEW CONSERVATION. Whatever is asked of the view, the answer is what the base tables hold. */
  lemma ViewAgrees(db: Database, q: Filter, m: Measure)
    requires Keyed(db)
    ensures Total(Facts(db), q, m) ==
      Plus(Plus(Reported(InsightTally(db.insights, q, m)), Reported(OrderTally(db.orders, q, m))),
           Reported(ItemTally(db.items, db.orders, q, m)))
  {
    ThreeParts(InsightFacts(db.insights), OrderFacts(db.orders), ItemFacts(db.items, db.orders), q, m);
    InsightsAgree(db.insights, q, m);
    OrdersAgree(db.orders, q, m);
    ItemsAgree(db.items, db.orders, q, m);
  }

  lemma ThreeParts(a: seq<Fact>, b: seq<Fact>, c: seq<Fact>, q: Filter, m: Measure)
    ensures Total(a + b + c, q, m) == Plus(Plus(Total(a, q, m), Total(b, q, m)), Total(c, q, m))
  {
    TotalConcat(a, b, q, m);
    TotalConcat(a + b, c, q, m);
  }

  predicate Asks(q: Filter, grain: Grain) {
    q.Whole? || ((q.OfGrain? || q.Within?) && q.grain == grain)
  }

  lemma {:induction false} NoInsightOfGrain(insights: seq<Insight>, q: Filter, m: Measure)
    requires (q.OfGrain? || q.Within?) && (q.grain == Business || q.grain == Product)
    ensures InsightTally(insights, q, m) == NONE
  {
    if insights != [] { NoInsightOfGrain(insights[..|insights| - 1], q, m); }
  }

  lemma {:induction false} NoOrderOfGrain(orders: seq<Order>, q: Filter, m: Measure)
    requires !Asks(q, Business)
    ensures OrderTally(orders, q, m) == NONE
  {
    if orders != [] { NoOrderOfGrain(orders[..|orders| - 1], q, m); }
  }

  lemma {:induction false} NoItemOfGrain(items: seq<OrderItem>, orders: seq<Order>, q: Filter, m: Measure)
    requires AllPlaced(items, orders) && !Asks(q, Product)
    ensures ItemTally(items, orders, q, m) == NONE
  {
    if items != [] { NoItemOfGrain(items[..|items| - 1], orders, q, m); }
  }

  lemma OnlyInsights(db: Database, q: Filter, m: Measure)
    requires Keyed(db) && !Asks(q, Business) && !Asks(q, Product)
    ensures Total(Facts(db), q, m) == Reported(InsightTally(db.insights, q, m))
  {
    ViewAgrees(db, q, m);
    NoOrderOfGrain(db.orders, q, m);
    NoItemOfGrain(db.items, db.orders, q, m);
  }

  lemma OnlyOrders(db: Database, q: Filter, m: Measure)
    requires Keyed(db) && (q.OfGrain? || q.Within?) && q.grain == Business
    ensures Total(Facts(db), q, m) == Reported(OrderTally(db.orders, q, m))
  {
    ViewAgrees(db, q, m);
    NoInsightOfGrain(db.insights, q, m);
    NoItemOfGrain(db.items, db.orders, q, m);
  }

  lemma OnlyItems(db: Database, q: Filter, m: Measure)
    requires Keyed(db) && (q.OfGrain? || q.Within?) && q.grain == Product
    ensures Total(Facts(db), q, m) == Reported(ItemTally(db.items, db.orders, q, m))
  {
    ViewAgrees(db, q, m);
    NoInsightOfGrain(db.insights, q, m);
    NoOrderOfGrain(db.orders, q, m);
  }

  /** Advertising totals are those of the insights that still have their ad, and of nothing else. */
  lemma AdTotalsAgree(db: Database, s: Scope, e: Entity, m: Measure)
    requires Keyed(db)
    ensures AdTotals(db, s, e, m) == Reported(InsightTally(db.insights, Within(Ad, s, e), m))
  {
    OnlyInsights(db, Within(Ad, s, e), m);
  }

  /** Commerce totals are those of the orders: items are never added on top. */
  lemma CommerceTotalsAgree(db: Database, s: Scope, m: Measure)
    requires Keyed(db)
    ensures CommerceTotals(db, s, m) == Reported(OrderTally(db.orders, Within(Business, s, Everything), m))
  {
    OnlyOrders(db, Within(Business, s, Everything), m);
  }

  lemma {:induction false} CountIsOnes(facts: seq<Fact>, q: Filter)
    ensures Total(facts, q, Ones) == if Count(facts, q) == 0 then None else Some(Count(facts, q))
  {
    if facts != [] { CountIsOnes(facts[..|facts| - 1], q); }
  }

  lemma {:induction false} InsightOnes(insights: seq<Insight>, q: Filter)
    ensures InsightTally(insights, q, Ones).sum == InsightTally(insights, q, Ones).count
  {
    if insights != [] { InsightOnes(insights[..|insights| - 1], q); }
  }

  lemma {:induction false} OrderOnes(orders: seq<Order>, q: Filter)
    ensures OrderTally(orders, q, Ones).sum == OrderTally(orders, q, Ones).count
  {
    if orders != [] { OrderOnes(orders[..|orders| - 1], q); }
  }

  /** COUNT(*) beside the totals is the number of those insights, and of those orders; 0 for none. */
  lemma CountsAgree(db: Database, s: Scope, e: Entity)
    requires Keyed(db)
    ensures Count(Facts(db), Within(Ad, s, e)) == InsightTally(db.insights, Within(Ad, s, e), Ones).count
    ensures Count(Facts(db), Within(Business, s, Everything))
         == OrderTally(db.orders, Within(Business, s, Everything), Ones).count
  {
    CountIsOnes(Facts(db), Within(Ad, s, e));
    AdTotalsAgree(db, s, e, Ones);
    InsightOnes(db.insights, Within(Ad, s, e));
    CountIsOnes(Facts(db), Within(Business, s, Everything));
    CommerceTotalsAgree(db, s, Ones);
    OrderOnes(db.orders, Within(Business, s, Everything));
  }

  lemma {:induction false} RefundTally(orders: seq<Order>, q: Filter)
    requires forall i :: 0 <= i < |orders| ==> orders[i].total >= 0
    ensures OrderTally(orders, q, Refunds).count == OrderTally(orders, q, Revenue).count
    ensures 0 <= OrderTally(orders, q, Refunds).sum <= OrderTally(orders, q, Revenue).sum
  {
    if orders != [] { RefundTally(orders[..|orders| - 1], q); }
  }

  /** In every scope refunds never exceed revenue, and they are NULL together. */
  lemma RefundsWithinRevenue(db: Database, s: Scope)
    requires Keyed(db) && forall i :: 0 <= i < |db.orders| ==> db.orders[i].total >= 0
    ensures CommerceTotals(db, s, Refunds).None? <==> CommerceTotals(db, s, Revenue).None?
    ensures CommerceTotals(db, s, Revenue).Some? ==>
      0 <= CommerceTotals(db, s, Refunds).value <= CommerceTotals(db, s, Revenue).value
  {
    CommerceTotalsAgree(db, s, Refunds);
    CommerceTotalsAgree(db, s, Revenue);
    RefundTally(db.orders, Within(Business, s, Everything));
  }

  // ---- Whole columns ----

  function SpendOf(insights: seq<Insight>): int {
    if insights == [] then 0 else SpendOf(insights[..|insights| - 1]) + insights[|insights| - 1].spend
  }

  function RevenueOf(orders: seq<Order>): int {
    if orders == [] then 0 else RevenueOf(orders[..|orders| - 1]) + orders[|orders| - 1].total
  }

  function LinesOf(items: seq<OrderItem>): int {
    if items == [] then 0 else LinesOf(items[..|items| - 1]) + items[|items| - 1].lineTotal
  }

  lemma {:induction false} WholeSpend(insights: seq<Insight>)
    ensures InsightTally(insights, Whole, Spend) == Sums(|insights|, SpendOf(insights))
  {
    if insights != [] { WholeSpend(insights[..|insights| - 1]); }
  }

  lemma {:induction false} WholeRevenue(orders: seq<Order>)
    ensures OrderTally(orders, OfGrain(Business), Revenue) == Sums(|orders|, RevenueOf(orders))
    ensures OrderTally(orders, Whole, Spend) == NONE
  {
    if orders != [] { WholeRevenue(orders[..|orders| - 1]); }
  }

  lemma {:induction false} WholeLines(items: seq<OrderItem>, orders: seq<Order>)
    requires AllPlaced(items, orders)
    ensures ItemTally(items, orders, OfGrain(Product), Revenue) == Sums(|items|, LinesOf(items))
    ensures ItemTally(items, orders, Whole, Spend) == NONE
  {
    if items != [] { WholeLines(items[..|items| - 1], orders); }
  }

  /** All spend of ad_insights is in the view, once, whatever the grain of its rows. */
  lemma SpendConserved(db: Database)
    requires Keyed(db)
    ensures Total(Facts(db), Whole, Spend) == if db.insights == [] then None else Some(SpendOf(db.insights))
  {
    ViewAgrees(db, Whole, Spend);
    WholeSpend(db.insights);
    WholeRevenue(db.orders);
    WholeLines(db.items, db.orders);
  }

  /** Revenue at business grain is what the orders come to. */
  lemma RevenueConserved(db: Database)
    requires Keyed(db)
    ensures Total(Facts(db), OfGrain(Business), Revenue) == if db.orders == [] then None else Some(RevenueOf(db.orders))
  {
    OnlyOrders(db, OfGrain(Business), Revenue);
    WholeRevenue(db.orders);
  }

  /** Revenue at product grain is what the order lines come to. */
  lemma LinesConserved(db: Database)
    requires Keyed(db)
    ensures Total(Facts(db), OfGrain(Product), Revenue) == if db.items == [] then None else Some(LinesOf(db.items))
  {
    OnlyItems(db, OfGrain(Product), Revenue);
    WholeLines(db.items, db.orders);
  }

  // ---- One row each ----

  lemma {:induction false} InsightRows(insights: seq<Insight>)
    ensures |InsightFacts(insights)| == |insights|
    ensures forall i :: 0 <= i < |insights| ==> InsightFacts(insights)[i] == InsightFact(insights[i])
  {
    if insights != [] { InsightRows(insights[..|insights| - 1]); }
  }

  lemma {:induction false} OrderRows(orders: seq<Order>)
    ensures |OrderFacts(orders)| == |orders|
    ensures forall i :: 0 <= i < |orders| ==> OrderFacts(orders)[i] == OrderFact(orders[i])
  {
    if orders != [] { OrderRows(orders[..|orders| - 1]); }
  }

  predicate ItemRow(f: Fact, oi: OrderItem) { f.sourceType == FromItem && f.sourceId == oi.id }

  lemma {:induction false} ItemRows(items: seq<OrderItem>, orders: seq<Order>)
    requires DistinctOrders(orders) && AllPlaced(items, orders)
    ensures |ItemFacts(items, orders)| == |items|
    ensures forall i :: 0 <= i < |items| ==> ItemRow(ItemFacts(items, orders)[i], items[i])
  {
    if items != [] {
      var rest := items[..|items| - 1];
      ItemRows(rest, orders);
      LastItem(items, orders);
      var facts := ItemFacts(items, orders);
      forall i | 0 <= i < |items| ensures ItemRow(facts[i], items[i]) {
        if i < |rest| { assert facts[i] == ItemFacts(rest, orders)[i] && ItemRow(ItemFacts(rest, orders)[i], rest[i]); }
      }
    }
  }

  /** Which base row a row of the view comes from, and what it is filed under. */
  predicate Files(f: Fact, from: SourceType, id: Id, businessId: Id, provider: string, date: int, currency: string) {
    && f.sourceType == from && f.sourceId == id
    && f.businessId == businessId && f.provider == provider && f.date == date && f.currency == currency
  }

  predicate NoHierarchy(f: Fact) { f.accountId.None? && f.campaignId.None? && f.adSetId.None? && f.adId.None? }

  predicate FilesInsight(f: Fact, ai: Insight) {
    && Files(f, FromInsight, ai.id, ai.businessId, ai.provider, ai.date, ai.currency)
    && f.accountId == Some(ai.accountId) && f.campaignId == ai.campaignId && f.adSetId == ai.adSetId
    && f.adId == ai.adId && f.productId.None? && Finest(ai, f.grain)
  }

  predicate FilesOrder(f: Fact, o: Order) {
    && Files(f, FromOrder, o.id, o.businessId, o.source, o.orderedOn, o.currency)
    && f.grain == Business && f.productId.None? && NoHierarchy(f)
  }

  predicate FilesItem(f: Fact, oi: OrderItem, o: Order) {
    && Files(f, FromItem, oi.id, o.businessId, o.source, o.orderedOn, o.currency)
    && f.grain == Product && f.productId == oi.productId && NoHierarchy(f)
  }

  lemma {:induction false} InsightsAreFiled(insights: seq<Insight>)
    ensures |InsightFacts(insights)| == |insights|
    ensures forall i :: 0 <= i < |insights| ==> FilesInsight(InsightFacts(insights)[i], insights[i])
  {
    if insights != [] { InsightsAreFiled(insights[..|insights| - 1]); }
  }

  lemma {:induction false} OrdersAreFiled(orders: seq<Order>)
    ensures |OrderFacts(orders)| == |orders|
    ensures forall i :: 0 <= i < |orders| ==> FilesOrder(OrderFacts(orders)[i], orders[i])
  {
    if orders != [] { OrdersAreFiled(orders[..|orders| - 1]); }
  }

  lemma {:induction false} ItemsAreFiled(items: seq<OrderItem>, orders: seq<Order>, i: nat)
    requires DistinctOrders(orders) && AllPlaced(items, orders) && i < |items|
    ensures |ItemFacts(items, orders)| == |items|
    ensures FilesItem(ItemFacts(items, orders)[i], items[i], OrderOf(orders, items[i].orderId))
  {
    ItemRows(items[..|items| - 1], orders);
    LastItem(items, orders);
    if i < |items| - 1 { ItemsAreFiled(items[..|items| - 1], orders, i); }
  }

  /** Every row of the view is filed under what its base row says: insights under their own business,
      provider, day, currency and hierarchy, orders and items under those of the order, an item
      under its product. */
  lemma RowsAreFiled(db: Database, i: nat)
    requires Keyed(db)
    ensures |Facts(db)| == |db.insights| + |db.orders| + |db.items|
    ensures i < |db.insights| ==> FilesInsight(Facts(db)[i], db.insights[i])
    ensures i < |db.orders| ==> FilesOrder(Facts(db)[|db.insights| + i], db.orders[i])
    ensures i < |db.items| ==>
      FilesItem(Facts(db)[|db.insights| + |db.orders| + i], db.items[i], OrderOf(db.orders, db.items[i].orderId))
  {
    InsightsAreFiled(db.insights);
    OrdersAreFiled(db.orders);
    ItemRows(db.items, db.orders);
    if i < |db.items| { ItemsAreFiled(db.items, db.orders, i); }
  }

  /** The view has exactly one row for each base row, and (source_type, source_id) tells them apart. */
  lemma OneRowEach(db: Database)
    requires Keyed(db)
    ensures |Facts(db)| == |db.insights| + |db.orders| + |db.items|
    ensures forall i, j :: 0 <= i < j < |Facts(db)| ==>
      (Facts(db)[i].sourceType, Facts(db)[i].sourceId) != (Facts(db)[j].sourceType, Facts(db)[j].sourceId)
  {
    InsightRows(db.insights);
    OrderRows(db.orders);
    ItemRows(db.items, db.orders);
  }
}
