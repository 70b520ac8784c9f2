/** An empty database can be taken to revision 6, and back. */
module EmptyDatabase {
  import opened Common
  import opened SchemaNames
  import opened Ddl
  import opened RoundTrip
  import opened Installing
  import opened InstallTables
  import opened MigrationChain
  import M1 = Migration0001
  import M2 = Migration0002
  import M3 = Migration0003
  import M4 = Migration0004
  import M5 = Migration0005
  import M6 = Migration0006
  import M11 = Migration0011
  import M24 = Migration0024

  const EMPTY: Schema := Schema(map[], map[])

  const NOTHING: Mark := Mark(0, 0, 0)
  const REVISION_1: Mark := Mark(6, 24, 16)
  const REVISION_3: Mark := Mark(16, 66, 34)
  const REVISION_4: Mark := Mark(23, 104, 49)
  const REVISION_5: Mark := Mark(29, 132, 70)

  // ---- The scripts, as far as they only make tables ----

  lemma Script0001()
    ensures Extends(M1.Upgrade(), NOTHING, REVISION_1)
  {
    var ops: seq<Statement> := [];
    NothingExtends(NOTHING);
    AddUsers(ops, NOTHING, M1.MakeUsers());
    ops := ops + M1.MakeUsers();
    AddOrganizations(ops, NOTHING, M1.MakeOrganizations());
    ops := ops + M1.MakeOrganizations();
    AddRoles(ops, NOTHING, M1.MakeRoles());
    ops := ops + M1.MakeRoles();
    AddMemberships(ops, NOTHING, M1.MakeMemberships());
    ops := ops + M1.MakeMemberships();
    AddBusinesses(ops, NOTHING, M1.MakeBusinesses());
    ops := ops + M1.MakeBusinesses();
    AddInvitations(ops, NOTHING, M1.MakeInvitations());
    ops := ops + M1.MakeInvitations();
    assert ops == M1.Upgrade();
  }

  lemma Widening0003()
    ensures Extends(M3.WidenBusinesses(), REVISION_1, Mark(6, 27, 16))
  {
    var a, b, c := Opt(DESCRIPTION, TextType), Opt(COUNTRY, Varchar(2)), Opt(WEBSITE_URL, Varchar(500));
    ColumnExtends(BUSINESSES, a, REVISION_1);
    ColumnExtends(BUSINESSES, b, Mark(6, 25, 16));
    ColumnExtends(BUSINESSES, c, Mark(6, 26, 16));
    var first, second := [AddColumn(BUSINESSES, a, map[])], [AddColumn(BUSINESSES, b, map[])];
    ExtendsConcat(first, second, REVISION_1, Mark(6, 25, 16), Mark(6, 26, 16));
    ExtendsConcat(first + second, [AddColumn(BUSINESSES, c, map[])], REVISION_1, Mark(6, 26, 16), Mark(6, 27, 16));
    assert M3.WidenBusinesses() == first + second + [AddColumn(BUSINESSES, c, map[])];
  }

  lemma Script0003()
    ensures Extends(M3.Upgrade(), REVISION_1, REVISION_3)
  {
    Widening0003();
    var ops := M3.WidenBusinesses();
    AddBusinessProfiles(ops, REVISION_1, M3.MakeBusinessProfiles());
    ops := ops + M3.MakeBusinessProfiles();
    AddProducts(ops, REVISION_1, M3.MakeProducts());
    ops := ops + M3.MakeProducts();
    AddProductPrices(ops, REVISION_1, M3.MakeProductPrices());
    ops := ops + M3.MakeProductPrices();
    AddProductCosts(ops, REVISION_1, M3.MakeProductCosts());
    ops := ops + M3.MakeProductCosts();
    AddShippingRules(ops, REVISION_1, M3.MakeShippingRules());
    ops := ops + M3.MakeShippingRules();
    AddDiscounts(ops, REVISION_1, M3.MakeDiscounts());
    ops := ops + M3.MakeDiscounts();
    AddBundles(ops, REVISION_1, M3.MakeBundles());
    ops := ops + M3.MakeBundles();
    AddBundleItems(ops, REVISION_1, M3.MakeBundleItems());
    ops := ops + M3.MakeBundleItems();
    AddInventorySnapshots(ops, REVISION_1, M3.MakeInventorySnapshots());
    ops := ops + M3.MakeInventorySnapshots();
    AddBusinessGoals(ops, REVISION_1, M3.MakeBusinessGoals());
    ops := ops + M3.MakeBusinessGoals();
    assert ops == M3.Upgrade();
  }

  const WIDENED_4: Mark := Mark(16, 68, 35)

  /** Migration 0004 without the columns of products that come first. */
  function Tables0004(): seq<Statement> {
    M4.MakeIntegrationConnections() + M4.MakeIntegrationCredentials() + M4.MakeSyncRuns() + M4.MakeWebhookEvents() +
    M4.MakeCustomers() + M4.MakeOrders() + M4.MakeOrderItems()
  }

  lemma Script0004()
    ensures Extends(Tables0004(), WIDENED_4, REVISION_4)
  {
    var ops: seq<Statement> := [];
    NothingExtends(WIDENED_4);
    AddIntegrationConnections(ops, WIDENED_4, M4.MakeIntegrationConnections());
    ops := ops + M4.MakeIntegrationConnections();
    AddIntegrationCredentials(ops, WIDENED_4, M4.MakeIntegrationCredentials());
    ops := ops + M4.MakeIntegrationCredentials();
    AddSyncRuns(ops, WIDENED_4, M4.MakeSyncRuns());
    ops := ops + M4.MakeSyncRuns();
    AddWebhookEvents(ops, WIDENED_4, M4.MakeWebhookEvents());
    ops := ops + M4.MakeWebhookEvents();
    AddCustomers(ops, WIDENED_4, M4.MakeCustomers());
    ops := ops + M4.MakeCustomers();
    AddOrders(ops, WIDENED_4, M4.MakeOrders());
    ops := ops + M4.MakeOrders();
    AddOrderItems(ops, WIDENED_4, M4.MakeOrderItems());
    ops := ops + M4.MakeOrderItems();
    assert ops == Tables0004();
  }

  const WIDENED_5: Mark := Mark(23, 104, 50)

  /** Migration 0005 without the replacement of a unique constraint that comes first. */
  function Tables0005(): seq<Statement> {
    M5.MakeAdAccounts() + M5.MakeCreatives() + M5.MakeCampaigns() + M5.MakeAdSets() + M5.MakeAds() + M5.MakeAdInsights()
  }

  lemma Script0005()
    ensures Extends(Tables0005(), WIDENED_5, REVISION_5)
  {
    var ops: seq<Statement> := [];
    NothingExtends(WIDENED_5);
    AddAdAccounts(ops, WIDENED_5, M5.MakeAdAccounts());
    ops := ops + M5.MakeAdAccounts();
    AddCreatives(ops, WIDENED_5, M5.MakeCreatives());
    ops := ops + M5.MakeCreatives();
    AddCampaigns(ops, WIDENED_5, M5.MakeCampaigns());
    ops := ops + M5.MakeCampaigns();
    AddAdSets(ops, WIDENED_5, M5.MakeAdSets());
    ops := ops + M5.MakeAdSets();
    AddAds(ops, WIDENED_5, M5.MakeAds());
    ops := ops + M5.MakeAds();
    AddAdInsights(ops, WIDENED_5, M5.MakeAdInsights());
    ops := ops + M5.MakeAdInsights();
    assert ops == Tables0005();
  }

  // ---- What a revision has that the next migration needs ----

  /** The state after migration k of the chain. */
  ghost predicate Ready(s: Schema, k: nat) {
    match k
    case 0 => s == EMPTY
    case 1 => Sound(s) && s.views == map[] && Reached(s, REVISION_1) && HasTable(s, ROLES, M1.RolesTable())
    case 2 => Sound(s) && s.views == map[] && Reached(s, REVISION_1)
    case 3 => Sound(s) && s.views == map[] && Reached(s, REVISION_3) && HasTable(s, PRODUCTS, M3.ProductsTable())
    case 4 =>
      && Sound(s) && s.views == map[] && Reached(s, REVISION_4)
      && HasTable(s, INTEGRATION_CONNECTIONS, M4.IntegrationConnectionsTable())
      && HasTable(s, ORDERS, M4.OrdersTable()) && HasTable(s, ORDER_ITEMS, M4.OrderItemsTable())
    case 5 =>
      && Sound(s) && s.views == map[] && Reached(s, REVISION_5)
      && HasTable(s, ORDERS, M4.OrdersTable()) && HasTable(s, ORDER_ITEMS, M4.OrderItemsTable())
      && HasTable(s, AD_INSIGHTS, M5.AdInsightsTable())
    case _ => Sound(s)
  }

  lemma EmptyIsSound()
    ensures Sound(EMPTY) && Reached(EMPTY, NOTHING)
  {
  }

  lemma Step1(up: seq<Statement>)
    requires up == M1.Upgrade()
    ensures Run(EMPTY, up).Some? && Ready(Run(EMPTY, up).value, 1)
  {
    EmptyIsSound();
    Script0001();
    assert Runs(EMPTY, up, REVISION_1);
    RunKeepsSound(EMPTY, up);
    Creates0001();
    CreatedTable(EMPTY, up, 4, ROLES, M1.RolesTable());
  }

  lemma RolesColumn(t: Table)
    requires t == M1.RolesTable()
    ensures Within([ORGANIZATION_ID], ColumnNames(t.columns)) && M2.CONSTRAINT_NAME in t.foreignKeys
  {
    KnownColumns(t.columns, map[ORGANIZATION_ID := 1]);
  }

  /** The foreign key is there to be dropped, and what it refers to is there still. */
  lemma Step2(s: Schema, up: seq<Statement>)
    requires Ready(s, 1) && up == M2.Upgrade()
    ensures Run(s, up).Some? && Ready(Run(s, up).value, 2)
  {
    var fk := M2.OwnerKey(Cascade);
    RolesColumn(M1.RolesTable());
    assert Under(s.tables[ORGANIZATIONS], REVISION_1);
    ReplacedForeignKey(s, ROLES, M2.CONSTRAINT_NAME, fk);
    assert up == ReplaceForeignKey(ROLES, M2.CONSTRAINT_NAME, fk);
    RunKeepsSound(s, up);
    NewKeyReaches(s, ROLES, M2.CONSTRAINT_NAME, fk, REVISION_1);
  }

  lemma NewKeyReaches(s: Schema, t: TableName, k: ConstraintName, fk: ForeignKey, m: Mark)
    requires Reached(s, m) && t in s.tables && fk.refColumns == [ID]
    ensures Reached(WithForeignKey(s, t, k, fk), m)
  {
    assert Under(s.tables[t], m);
  }

  lemma Creates0003()
    ensures Creates(M3.Upgrade(), 5, PRODUCTS, M3.ProductsTable())
  {
  }

  lemma Step3(s: Schema, up: seq<Statement>)
    requires Ready(s, 2) && up == M3.Upgrade()
    ensures Run(s, up).Some? && Ready(Run(s, up).value, 3)
  {
    Script0003();
    assert Runs(s, up, REVISION_3);
    RunKeepsSound(s, up);
    Creates0003();
    CreatedTable(s, up, 5, PRODUCTS, M3.ProductsTable());
  }

  // ---- Revision 4: products gain columns and an index over an old and a new one ----

  lemma ProductsColumn(t: Table)
    requires t == M3.ProductsTable()
    ensures BUSINESS_ID in ColumnNames(t.columns)
  {
    KnownColumns(t.columns, map[BUSINESS_ID := 1]);
  }

  lemma ProductIndex(op: Statement)
    requires op == M4.WidenProducts()[2]
    ensures Indexes(op, PRODUCTS, 34, {BUSINESS_ID, EXTERNAL_ID})
  {
  }

  function FirstColumn(): seq<Statement> { [AddColumn(PRODUCTS, Opt(EXTERNAL_ID, Varchar(255)), map[])] }

  function SecondColumn(): seq<Statement> { [AddColumn(PRODUCTS, Opt(EXTERNAL_SOURCE, Varchar(20)), map[])] }

  lemma TwoColumnsRun(s: Schema, t: TableName, c: Column, d: Column, m: Mark)
    requires Reached(s, m) && t < m.tables && m.columns <= c.name < d.name
    ensures var ops := [AddColumn(t, c, map[])] + [AddColumn(t, d, map[])];
      && Runs(s, ops, m.(columns := d.name + 1)) && t in Run(s, ops).value.tables
      && ColumnNames(Run(s, ops).value.tables[t].columns) == ColumnNames(s.tables[t].columns) + {c.name, d.name}
  {
    var middle := m.(columns := c.name + 1);
    ColumnRuns(s, t, c, m);
    ColumnRuns(Run(s, [AddColumn(t, c, map[])]).value, t, d, middle);
    RunsThen(s, [AddColumn(t, c, map[])], [AddColumn(t, d, map[])], middle, m.(columns := d.name + 1));
  }

  lemma WideningColumns(s: Schema)
    requires Reached(s, REVISION_3) && BUSINESS_ID in ColumnNames(s.tables[PRODUCTS].columns)
    ensures Runs(s, FirstColumn() + SecondColumn(), Mark(16, 68, 34))
    ensures {BUSINESS_ID, EXTERNAL_ID}
         <= ColumnNames(Run(s, FirstColumn() + SecondColumn()).value.tables[PRODUCTS].columns)
  {
    TwoColumnsRun(s, PRODUCTS, Opt(EXTERNAL_ID, Varchar(255)), Opt(EXTERNAL_SOURCE, Varchar(20)), REVISION_3);
  }

  lemma Widening0004(s: Schema, op: Statement)
    requires Reached(s, REVISION_3) && BUSINESS_ID in ColumnNames(s.tables[PRODUCTS].columns)
    requires op == M4.WidenProducts()[2]
    ensures Runs(s, FirstColumn() + SecondColumn() + [op], WIDENED_4)
  {
    WideningColumns(s);
    ProductIndex(op);
    var first := FirstColumn() + SecondColumn();
    IndexRuns(Run(s, first).value, op, PRODUCTS, Mark(16, 68, 34), {BUSINESS_ID, EXTERNAL_ID});
    RunsThen(s, first, [op], Mark(16, 68, 34), WIDENED_4);
  }

  lemma CreatesOrders(up: seq<Statement>)
    requires up == M4.Upgrade()
    ensures Creates(up, 13, ORDERS, M4.OrdersTable())
  {
  }

  lemma CreatesItems(up: seq<Statement>)
    requires up == M4.Upgrade()
    ensures Creates(up, 17, ORDER_ITEMS, M4.OrderItemsTable())
  {
  }

  lemma Runs0004(s: Schema, up: seq<Statement>, op: Statement)
    requires Reached(s, REVISION_3) && BUSINESS_ID in ColumnNames(s.tables[PRODUCTS].columns)
    requires op == M4.WidenProducts()[2] && up == FirstColumn() + SecondColumn() + [op] + Tables0004()
    ensures Runs(s, up, REVISION_4)
  {
    Widening0004(s, op);
    Script0004();
    RunsConcat(s, FirstColumn() + SecondColumn() + [op], Tables0004(), WIDENED_4, REVISION_4);
  }

  lemma Upgrade0004(up: seq<Statement>, op: Statement)
    requires up == M4.Upgrade() && op == M4.WidenProducts()[2]
    ensures up == FirstColumn() + SecondColumn() + [op] + Tables0004()
  {
    assert M4.WidenProducts() == FirstColumn() + SecondColumn() + [op];
  }

  lemma Step4(s: Schema, up: seq<Statement>)
    requires Ready(s, 3) && up == M4.Upgrade()
    ensures Run(s, up).Some? && Ready(Run(s, up).value, 4)
  {
    ProductsColumn(M3.ProductsTable());
    Upgrade0004(up, M4.WidenProducts()[2]);
    Runs0004(s, up, M4.WidenProducts()[2]);
    RunKeepsSound(s, up);
    Creates0004();
    CreatesOrders(up);
    CreatesItems(up);
    CreatedTable(s, up, 3, INTEGRATION_CONNECTIONS, M4.IntegrationConnectionsTable());
    CreatedTable(s, up, 13, ORDERS, M4.OrdersTable());
    CreatedTable(s, up, 17, ORDER_ITEMS, M4.OrderItemsTable());
  }

  // ---- Revision 5: a unique constraint makes room for an index ----

  function DropAccountKey(): Statement {
    DropUnique(INTEGRATION_CONNECTIONS, UQ_INTEGRATION_CONNECTIONS_BUSINESS_ID_PROVIDER)
  }

  lemma ConnectionsKey(t: Table)
    requires t == M4.IntegrationConnectionsTable()
    ensures UQ_INTEGRATION_CONNECTIONS_BUSINESS_ID_PROVIDER in t.uniques
    ensures {BUSINESS_ID, PROVIDER, EXTERNAL_ACCOUNT_ID} <= ColumnNames(t.columns)
  {
    KnownColumns(t.columns, map[BUSINESS_ID := 1, PROVIDER := 2, EXTERNAL_ACCOUNT_ID := 4]);
  }

  lemma AccountKeyIndex(op: Statement)
    requires op == M5.WidenAccountKey()[0]
    ensures Indexes(op, INTEGRATION_CONNECTIONS, 49, {BUSINESS_ID, PROVIDER, EXTERNAL_ACCOUNT_ID})
  {
  }

  /** Migration 0005 after the drop. */
  lemma Runs0005(s: Schema, op: Statement, rest: seq<Statement>)
    requires Reached(s, REVISION_4) && op == M5.WidenAccountKey()[0] && rest == [op] + Tables0005()
    requires {BUSINESS_ID, PROVIDER, EXTERNAL_ACCOUNT_ID} <= ColumnNames(s.tables[INTEGRATION_CONNECTIONS].columns)
    ensures Runs(s, rest, REVISION_5)
  {
    AccountKeyIndex(op);
    IndexRuns(s, op, INTEGRATION_CONNECTIONS, REVISION_4, {BUSINESS_ID, PROVIDER, EXTERNAL_ACCOUNT_ID});
    Script0005();
    RunsConcat(s, [op], Tables0005(), WIDENED_5, REVISION_5);
  }

  lemma Additions0005(rest: seq<Statement>)
    requires rest == M5.Additions()
    ensures rest == [M5.WidenAccountKey()[0]] + Tables0005()
  {
    assert M5.WidenAccountKey() == [M5.WidenAccountKey()[0]];
  }

  lemma Spares0005(rest: seq<Statement>, t: TableName)
    requires rest == M5.Additions() && t < AD_ACCOUNTS
    ensures forall i :: 0 <= i < |rest| ==> Spares(rest[i], t)
  {
  }

  lemma Creates0005(rest: seq<Statement>)
    requires rest == M5.Additions()
    ensures Creates(rest, 23, AD_INSIGHTS, M5.AdInsightsTable())
  {
  }

  /** What is left of revision 4 once the constraint is dropped. */
  ghost predicate Dropped(s: Schema, orders: Table, items: Table) {
    && Sound(s) && s.views == map[] && Reached(s, REVISION_4)
    && {BUSINESS_ID, PROVIDER, EXTERNAL_ACCOUNT_ID} <= ColumnNames(s.tables[INTEGRATION_CONNECTIONS].columns)
    && HasTable(s, ORDERS, orders) && HasTable(s, ORDER_ITEMS, items)
  }

  lemma Dropping(s: Schema, connections: Table, orders: Table, items: Table)
    requires Sound(s) && s.views == map[] && Reached(s, REVISION_4)
    requires HasTable(s, INTEGRATION_CONNECTIONS, connections)
    requires UQ_INTEGRATION_CONNECTIONS_BUSINESS_ID_PROVIDER in connections.uniques
    requires {BUSINESS_ID, PROVIDER, EXTERNAL_ACCOUNT_ID} <= ColumnNames(connections.columns)
    requires HasTable(s, ORDERS, orders) && HasTable(s, ORDER_ITEMS, items)
    ensures Legal(s, DropAccountKey()) && Dropped(Perform(s, DropAccountKey()), orders, items)
  {
    DropReaches(s, INTEGRATION_CONNECTIONS, UQ_INTEGRATION_CONNECTIONS_BUSINESS_ID_PROVIDER, REVISION_4);
    StatementKeepsSound(s, DropAccountKey());
    OnlyOneTable(s, DropAccountKey(), ORDERS);
    OnlyOneTable(s, DropAccountKey(), ORDER_ITEMS);
  }

  lemma AfterDropping(s: Schema, rest: seq<Statement>)
    requires Dropped(s, M4.OrdersTable(), M4.OrderItemsTable()) && rest == M5.Additions()
    ensures Run(s, rest).Some? && Ready(Run(s, rest).value, 5)
  {
    Additions0005(rest);
    Runs0005(s, M5.WidenAccountKey()[0], rest);
    RunKeepsSound(s, rest);
    Spares0005(rest, ORDERS);
    Spares0005(rest, ORDER_ITEMS);
    SparedByAll(s, rest, ORDERS, M4.OrdersTable());
    SparedByAll(s, rest, ORDER_ITEMS, M4.OrderItemsTable());
    Creates0005(rest);
    CreatedTable(s, rest, 23, AD_INSIGHTS, M5.AdInsightsTable());
  }

  lemma Step5(s: Schema, up: seq<Statement>)
    requires Ready(s, 4) && up == [DropAccountKey()] + M5.Additions()
    ensures Run(s, up).Some? && Ready(Run(s, up).value, 5)
  {
    ConnectionsKey(M4.IntegrationConnectionsTable());
    Dropping(s, M4.IntegrationConnectionsTable(), M4.OrdersTable(), M4.OrderItemsTable());
    AfterDropping(Perform(s, DropAccountKey()), M5.Additions());
    RunConcat(s, [DropAccountKey()], M5.Additions());
    RunOne(s, DropAccountKey());
  }

  // ---- Revision 6: the view and its indexes ----

  function InsightsAt(): map<ColumnName, nat> {
    map[ID := 0, BUSINESS_ID := 1, AD_ACCOUNT_ID := 2, CAMPAIGN_ID := 3, AD_SET_ID := 4, AD_ID := 5, PROVIDER := 6,
        DATE := 7, CURRENCY := 9, IMPRESSIONS := 10, REACH := 11, CLICKS := 13, LINK_CLICKS := 14,
        LANDING_PAGE_VIEWS := 15, SPEND := 16, CONVERSIONS := 17, CONVERSION_VALUE := 18]
  }

  lemma InsightsListed(t: Table)
    requires t == M5.AdInsightsTable()
    ensures At(t.columns, InsightsAt())
  {
  }

  lemma InsightsRead(t: Table)
    requires t == M5.AdInsightsTable()
    ensures M6.InsightColumns() <= ColumnNames(t.columns)
  {
    InsightsListed(t);
    KnownColumns(t.columns, InsightsAt());
    assert M6.InsightColumns() <= InsightsAt().Keys;
  }

  lemma OrdersRead(t: Table)
    requires t == M4.OrdersTable()
    ensures M6.OrderColumns() <= ColumnNames(t.columns)
  {
    KnownColumns(t.columns, map[ID := 0, BUSINESS_ID := 1, SOURCE := 3, CURRENCY := 5, TOTAL := 10,
                                FINANCIAL_STATUS := 11, ORDERED_AT := 13]);
  }

  lemma ItemsRead(t: Table)
    requires t == M4.OrderItemsTable()
    ensures M6.ItemColumns() <= ColumnNames(t.columns)
  {
    KnownColumns(t.columns, map[ID := 0, ORDER_ID := 1, PRODUCT_ID := 2, QUANTITY := 5, LINE_TOTAL := 8]);
  }

  lemma TableReads(s: Schema, t: TableName, def: Table, columns: set<ColumnName>)
    requires HasTable(s, t, def) && columns <= ColumnNames(def.columns)
    ensures ReadsExist(s, View(M6.Reads(t, columns)))
  {
  }

  lemma JointReads(s: Schema, a: set<(TableName, ColumnName)>, b: set<(TableName, ColumnName)>)
    requires ReadsExist(s, View(a)) && ReadsExist(s, View(b))
    ensures ReadsExist(s, View(a + b))
  {
  }


  function Indexes0006(): seq<Statement> { M6.Upgrade()[1..] }

  function IndexedColumns(): set<ColumnName> { {BUSINESS_ID, CAMPAIGN_ID, AD_SET_ID, AD_ID, DATE} }

  lemma InsightIndexes(ops: seq<Statement>)
    requires ops == Indexes0006()
    ensures AllIndex(ops, AD_INSIGHTS, 70, IndexedColumns()) && |ops| == 4
  {
  }

  lemma Viewing(s: Schema, view: View)
    requires s.views == map[] && Reached(s, REVISION_5) && ReadsExist(s, view)
    ensures Legal(s, CreateView(METRIC_FACTS, view)) && Reached(Perform(s, CreateView(METRIC_FACTS, view)), REVISION_5)
  {
  }

  lemma ViewIsLegal(s: Schema)
    requires Ready(s, 5)
    ensures ReadsExist(s, M6.MetricFactsView())
  {
    var insights, orders := M6.Reads(AD_INSIGHTS, M6.InsightColumns()), M6.Reads(ORDERS, M6.OrderColumns());
    InsightsRead(M5.AdInsightsTable());
    TableReads(s, AD_INSIGHTS, M5.AdInsightsTable(), M6.InsightColumns());
    OrdersRead(M4.OrdersTable());
    TableReads(s, ORDERS, M4.OrdersTable(), M6.OrderColumns());
    JointReads(s, insights, orders);
    ItemsRead(M4.OrderItemsTable());
    TableReads(s, ORDER_ITEMS, M4.OrderItemsTable(), M6.ItemColumns());
    JointReads(s, insights + orders, M6.Reads(ORDER_ITEMS, M6.ItemColumns()));
  }

  lemma InsightNames(s: Schema, t: Table)
    requires HasTable(s, AD_INSIGHTS, t) && M6.InsightColumns() <= ColumnNames(t.columns)
    ensures IndexedColumns() <= ColumnNames(s.tables[AD_INSIGHTS].columns)
  {
  }

  lemma Needed6(s: Schema)
    requires Ready(s, 5)
    ensures ReadsExist(s, M6.MetricFactsView()) && IndexedColumns() <= ColumnNames(s.tables[AD_INSIGHTS].columns)
  {
    ViewIsLegal(s);
    InsightsRead(M5.AdInsightsTable());
    InsightNames(s, M5.AdInsightsTable());
  }

  lemma Runs0006(s: Schema, view: View, ops: seq<Statement>)
    requires s.views == map[] && Reached(s, REVISION_5) && ReadsExist(s, view)
    requires IndexedColumns() <= ColumnNames(s.tables[AD_INSIGHTS].columns)
    requires AllIndex(ops, AD_INSIGHTS, 70, IndexedColumns())
    ensures Run(s, [CreateView(METRIC_FACTS, view)] + ops).Some?
  {
    Viewing(s, view);
    IndexesRun(Perform(s, CreateView(METRIC_FACTS, view)), ops, AD_INSIGHTS, REVISION_5, IndexedColumns(), |ops|);
    assert ops[..|ops|] == ops;
    RunConcat(s, [CreateView(METRIC_FACTS, view)], ops);
    RunOne(s, CreateView(METRIC_FACTS, view));
  }

  lemma Step6(s: Schema, up: seq<Statement>)
    requires Ready(s, 5) && up == [CreateView(METRIC_FACTS, M6.MetricFactsView())] + Indexes0006()
    ensures Run(s, up).Some? && Ready(Run(s, up).value, 6)
  {
    Needed6(s);
    InsightIndexes(Indexes0006());
    Runs0006(s, M6.MetricFactsView(), Indexes0006());
    RunKeepsSound(s, up);
  }

  // ---- The whole way ----

  /** `up` applies to whatever is ready for it, and makes it ready for the next migration. */
  ghost predicate Advances(up: seq<Statement>, k: nat) {
    forall s :: Ready(s, k) ==> Run(s, up).Some? && Ready(Run(s, up).value, k + 1)
  }

  lemma Advances1(up: seq<Statement>)
    requires up == M1.Upgrade()
    ensures Advances(up, 0)
  {
    Step1(up);
  }

  lemma Advances2(up: seq<Statement>)
    requires up == M2.Upgrade()
    ensures Advances(up, 1)
  {
    forall s | Ready(s, 1) ensures Run(s, up).Some? && Ready(Run(s, up).value, 2) { Step2(s, up); }
  }

  lemma Advances3(up: seq<Statement>)
    requires up == M3.Upgrade()
    ensures Advances(up, 2)
  {
    forall s | Ready(s, 2) ensures Run(s, up).Some? && Ready(Run(s, up).value, 3) { Step3(s, up); }
  }

  lemma Advances4(up: seq<Statement>)
    requires up == M4.Upgrade()
    ensures Advances(up, 3)
  {
    forall s | Ready(s, 3) ensures Run(s, up).Some? && Ready(Run(s, up).value, 4) { Step4(s, up); }
  }

  lemma Advances5(up: seq<Statement>)
    requires up == [DropAccountKey()] + M5.Additions()
    ensures Advances(up, 4)
  {
    forall s | Ready(s, 4) ensures Run(s, up).Some? && Ready(Run(s, up).value, 5) { Step5(s, up); }
  }

  lemma Advances6(up: seq<Statement>)
    requires up == [CreateView(METRIC_FACTS, M6.MetricFactsView())] + Indexes0006()
    ensures Advances(up, 5)
  {
    forall s | Ready(s, 5) ensures Run(s, up).Some? && Ready(Run(s, up).value, 6) { Step6(s, up); }
  }

  ghost predicate AllAdvance(ms: seq<Migration>) {
    forall k :: 0 <= k < |ms| ==> Advances(ms[k].up, k)
  }

  lemma SixAdvance(a: Migration, b: Migration, c: Migration, d: Migration, e: Migration, f: Migration)
    requires Advances(a.up, 0) && Advances(b.up, 1) && Advances(c.up, 2)
    requires Advances(d.up, 3) && Advances(e.up, 4) && Advances(f.up, 5)
    ensures AllAdvance([a, b, c, d, e, f])
  {
  }

  lemma ChainAdvances()
    ensures AllAdvance(Chain())
  {
    Advances1(M0001().up);
    Advances2(M0002().up);
    Advances3(M0003().up);
    Advances4(M0004().up);
    Advances5(M0005().up);
    Advances6(M0006().up);
    SixAdvance(M0001(), M0002(), M0003(), M0004(), M0005(), M0006());
  }

  lemma {:induction false} Climbing(ms: seq<Migration>, s: Schema, i: nat, j: nat)
    requires AllAdvance(ms) && i <= j <= |ms| && Ready(s, i)
    ensures Run(s, UpFrom(ms, i, j)).Some?
    decreases j - i
  {
    if i < j {
      assert Advances(ms[i].up, i);
      Climbing(ms, Run(s, ms[i].up).value, i + 1, j);
      RunConcat(s, ms[i].up, UpFrom(ms, i + 1, j));
    }
  }

  /** THE CHAIN APPLIES. An empty database can be upgraded to every revision: each statement is legal in
      the order written. */
  lemma ChainApplies(ms: seq<Migration>, j: nat)
    requires ms == Chain() && j <= 6
    ensures Run(EMPTY, UpFrom(ms, 0, j)).Some?
  {
    ChainAdvances();
    Climbing(ms, EMPTY, 0, j);
  }

  /** UP AND BACK. And it comes back from every revision just as empty as it was, and no reference
      dangles after any single statement on the way. */
  lemma EmptyUpAndBack(ms: seq<Migration>, j: nat, n: nat)
    requires ms == Chain() && 0 < j <= 6 && n <= |UpFrom(ms, 0, j) + DownTo(ms, j, 0)|
    ensures Run(EMPTY, UpFrom(ms, 0, j) + DownTo(ms, j, 0)) == Some(EMPTY)
    ensures Run(EMPTY, (UpFrom(ms, 0, j) + DownTo(ms, j, 0))[..n]).Some?
    ensures Sound(Run(EMPTY, (UpFrom(ms, 0, j) + DownTo(ms, j, 0))[..n]).value)
  {
    ChainApplies(ms, j);
    EmptyIsSound();
    ChainRoundTripIff(EMPTY, ms, 0, j);
    ChainNeverDangles(EMPTY, ms, 0, j, n);
    RunConcat(EMPTY, UpFrom(ms, 0, j), DownTo(ms, j, 0));
  }

  // ---- A database that 0005 does not bring back ----

  /** Somebody has widened the old unique constraint by hand. */
  function WideAccountKey(): Statement {
    AddUnique(INTEGRATION_CONNECTIONS, UQ_INTEGRATION_CONNECTIONS_BUSINESS_ID_PROVIDER,
              [BUSINESS_ID, PROVIDER, EXTERNAL_ACCOUNT_ID])
  }

  lemma DroppedIsFree(s: Schema, t: TableName, r: RelationName)
    requires Legal(s, DropUnique(t, r)) && Sound(s)
    ensures RelationFree(Perform(s, DropUnique(t, r)), r)
  {
  }

  lemma WideNeeds(names: set<ColumnName>)
    requires {BUSINESS_ID, PROVIDER, EXTERNAL_ACCOUNT_ID} <= names
    ensures Within(WideAccountKey().columns, names)
  {
  }

  lemma DropsAtFour(s: Schema)
    requires Ready(s, 4)
    ensures Legal(s, DropAccountKey())
    ensures Dropped(Perform(s, DropAccountKey()), M4.OrdersTable(), M4.OrderItemsTable())
    ensures RelationFree(Perform(s, DropAccountKey()), UQ_INTEGRATION_CONNECTIONS_BUSINESS_ID_PROVIDER)
  {
    ConnectionsKey(M4.IntegrationConnectionsTable());
    Dropping(s, M4.IntegrationConnectionsTable(), M4.OrdersTable(), M4.OrderItemsTable());
    DroppedIsFree(s, INTEGRATION_CONNECTIONS, UQ_INTEGRATION_CONNECTIONS_BUSINESS_ID_PROVIDER);
  }

  lemma Widening(s: Schema, d: Schema, orders: Table, items: Table)
    requires Dropped(d, orders, items) && RelationFree(d, UQ_INTEGRATION_CONNECTIONS_BUSINESS_ID_PROVIDER)
    requires INTEGRATION_CONNECTIONS in d.tables && s == Perform(d, WideAccountKey())
    ensures Legal(d, WideAccountKey()) && Sound(s) && Apply(s, DropAccountKey()) == Some(d)
    ensures !Faithful(s, 5)
  {
    WideNeeds(ColumnNames(d.tables[INTEGRATION_CONNECTIONS].columns));
    StatementKeepsSound(d, WideAccountKey());
    UndoRestores(d, WideAccountKey());
    assert |s.tables[INTEGRATION_CONNECTIONS].uniques[UQ_INTEGRATION_CONNECTIONS_BUSINESS_ID_PROVIDER]| == 3;
  }

  lemma Runs0005From(s: Schema, d: Schema, m: Migration)
    requires Dropped(d, M4.OrdersTable(), M4.OrderItemsTable()) && Apply(s, DropAccountKey()) == Some(d)
    requires m == M0005()
    ensures Run(s, m.up).Some?
  {
    AfterDropping(d, M5.Additions());
    RunOne(s, DropAccountKey());
    RunConcat(s, [DropAccountKey()], M5.Additions());
    assert m.up == [DropAccountKey()] + M5.Additions();
  }

  lemma TwoMore(s: Schema, ops: seq<Statement>, a: Statement, b: Statement)
    requires Run(s, ops).Some? && Legal(Run(s, ops).value, a) && Legal(Perform(Run(s, ops).value, a), b)
    ensures Run(s, ops + [a, b]) == Some(Perform(Perform(Run(s, ops).value, a), b))
  {
    RunConcat(s, ops, [a]);
    RunOne(Run(s, ops).value, a);
    RunConcat(s, ops + [a], [b]);
    RunOne(Perform(Run(s, ops).value, a), b);
    assert ops + [a, b] == ops + [a] + [b];
  }

  lemma WidenedByHand(s: Schema, four: Schema, m: Migration)
    requires Ready(four, 4) && m == M0005() && Legal(four, DropAccountKey())
    requires Legal(Perform(four, DropAccountKey()), WideAccountKey())
    requires s == Perform(Perform(four, DropAccountKey()), WideAccountKey())
    ensures Sound(s) && Run(s, m.up).Some? && !Faithful(s, 5)
  {
    DropsAtFour(four);
    Widening(s, Perform(four, DropAccountKey()), M4.OrdersTable(), M4.OrderItemsTable());
    Runs0005From(s, Perform(four, DropAccountKey()), m);
  }

  lemma WideningIsLegal(four: Schema)
    requires Ready(four, 4)
    ensures Legal(four, DropAccountKey()) && Legal(Perform(four, DropAccountKey()), WideAccountKey())
  {
    DropsAtFour(four);
    WideNeeds(ColumnNames(Perform(four, DropAccountKey()).tables[INTEGRATION_CONNECTIONS].columns));
  }

  ghost predicate Arrives(ops: seq<Statement>, k: nat) { Run(EMPTY, ops).Some? && Ready(Run(EMPTY, ops).value, k) }

  lemma ArrivesOn(ops: seq<Statement>, up: seq<Statement>, k: nat)
    requires Arrives(ops, k) && Advances(up, k)
    ensures Arrives(ops + up, k + 1)
  {
    RunConcat(EMPTY, ops, up);
  }

  lemma {:induction false} FourUps(ms: seq<Migration>)
    requires |ms| == 6
    ensures UpFrom(ms, 0, 4) == [] + ms[0].up + ms[1].up + ms[2].up + ms[3].up
  {
    assert UpFrom(ms, 2, 4) == ms[2].up + (ms[3].up + []);
  }

  lemma {:induction false} AtFour(ms: seq<Migration>)
    requires |ms| == 6 && AllAdvance(ms)
    ensures Arrives(UpFrom(ms, 0, 4), 4)
  {
    assert Arrives([], 0);
    ArrivesOn([], ms[0].up, 0);
    ArrivesOn([] + ms[0].up, ms[1].up, 1);
    ArrivesOn([] + ms[0].up + ms[1].up, ms[2].up, 2);
    ArrivesOn([] + ms[0].up + ms[1].up + ms[2].up, ms[3].up, 3);
    FourUps(ms);
  }

  /** An empty database at revision 4 whose account constraint has been replaced by a wider one of the same
      name: 0005 applies, but up and down again leaves the narrow one. */
  lemma RoundTrip0005CanFail(ms: seq<Migration>, m: Migration)
    requires ms == Chain() && m == M0005()
    ensures var s := Run(EMPTY, UpFrom(ms, 0, 4) + [DropAccountKey(), WideAccountKey()]);
      && s.Some? && Sound(s.value) && Run(s.value, m.up).Some?
      && Run(Run(s.value, m.up).value, m.down) == Some(Settled(s.value, 5)) != s
  {
    ChainAdvances();
    AtFour(ms);
    var four := Run(EMPTY, UpFrom(ms, 0, 4)).value;
    WideningIsLegal(four);
    TwoMore(EMPTY, UpFrom(ms, 0, 4), DropAccountKey(), WideAccountKey());
    WidenedByHand(Perform(Perform(four, DropAccountKey()), WideAccountKey()), four, m);
    RoundTrip0005(Perform(Perform(four, DropAccountKey()), WideAccountKey()), m);
  }

  // ---- 0011 and 0024 by themselves ----

  /** Every table that a later migration can count on, cut down to its key. */
  function Bare(): Table { Table([Req(ID, Uuid)], [ID], map[], map[], map[], map[]) }

  function BareTables(n: TableName): Schema
    decreases n as int
  {
    if n == 0 then EMPTY else Put(BareTables(n - 1), n - 1, Bare())
  }

  lemma {:induction false} AllBare(n: TableName, t: TableName)
    ensures t in BareTables(n).tables <==> t < n
    ensures t < n ==> BareTables(n).tables[t] == Bare()
    ensures BareTables(n).views == map[]
    decreases n as int
  {
    if n > 0 { AllBare(n - 1, t); }
  }

  lemma BareStands(t: Table)
    requires t == Bare()
    ensures SelfContained(t)
  {
    StandsAlone(t, map[ID := 0]);
  }

  /** A table without foreign keys and indexes depends on nothing else. */
  predicate Independent(t: Table) { SelfContained(t) && t.foreignKeys == map[] && Relations(t) == {} }

  lemma IndependentSound(s: Schema)
    requires s.views == map[] && forall t :: t in s.tables ==> Independent(s.tables[t])
    ensures Sound(s)
  {
  }

  lemma BareTablesSound(s: Schema, n: TableName)
    requires s == BareTables(n)
    ensures Sound(s)
  {
    BareStands(Bare());
    forall t | t in s.tables ensures Independent(s.tables[t]) { AllBare(n, t); }
    AllBare(n, 0);
    IndependentSound(s);
  }

  lemma BareTablesReach(s: Schema, n: TableName, m: Mark)
    requires s == BareTables(n) && m.tables == n && m.columns > 0
    ensures Reached(s, m)
  {
    assert Under(Bare(), m);
    forall t: TableName ensures (t in s.tables <==> t < n) && (t < n ==> s.tables[t] == Bare()) { AllBare(n, t); }
  }

  const BEFORE_11: Mark := Mark(33, 132, 74)
  const WIDENED_11: Mark := Mark(33, 136, 76)
  const AFTER_11: Mark := Mark(35, 161, 83)
  const BEFORE_24: Mark := Mark(36, 161, 83)
  const AFTER_24: Mark := Mark(37, 169, 85)

  lemma Script0011()
    ensures Extends(M11.MakeResearchCollectionJobs() + M11.MakeResearchCollectionPages(), WIDENED_11, AFTER_11)
  {
    var ops: seq<Statement> := [];
    NothingExtends(WIDENED_11);
    AddResearchCollectionJobs(ops, WIDENED_11, M11.MakeResearchCollectionJobs());
    ops := ops + M11.MakeResearchCollectionJobs();
    AddResearchCollectionPages(ops, WIDENED_11, M11.MakeResearchCollectionPages());
    ops := ops + M11.MakeResearchCollectionPages();
    assert ops == M11.MakeResearchCollectionJobs() + M11.MakeResearchCollectionPages();
  }

  function SourceColumns(): seq<Statement> {
    [AddColumn(RESEARCH_SOURCES, Opt(ORIGINAL_URL, Varchar(2048)), map[])] +
    [AddColumn(RESEARCH_SOURCES, Opt(NORMALIZED_URL, Varchar(2048)), map[])]
  }

  function ProjectKey(): ForeignKey { ForeignKey([RESEARCH_PROJECT_ID], RESEARCH_PROJECTS, [ID], Cascade) }

  function SnapshotKey(): ForeignKey { ForeignKey([SNAPSHOT_ID], RESEARCH_SOURCE_SNAPSHOTS, [ID], SetNull) }

  function ProjectColumn(): seq<Statement> {
    [AddColumn(RESEARCH_EVIDENCE, Opt(RESEARCH_PROJECT_ID, Uuid),
       map[RESEARCH_EVIDENCE_RESEARCH_PROJECT_ID_FKEY := ProjectKey()])]
  }

  function SnapshotColumn(): seq<Statement> {
    [AddColumn(RESEARCH_EVIDENCE, Opt(SNAPSHOT_ID, Uuid), map[RESEARCH_EVIDENCE_SNAPSHOT_ID_FKEY := SnapshotKey()])]
  }

  lemma SourceWidened(s: Schema, c: Column, m: Mark)
    requires Reached(s, m) && RESEARCH_EVIDENCE < m.tables && RESEARCH_SOURCES < m.tables && m.columns <= c.name
    ensures Runs(s, [AddColumn(RESEARCH_SOURCES, c, map[])], m.(columns := c.name + 1))
    ensures var s' := Run(s, [AddColumn(RESEARCH_SOURCES, c, map[])]).value;
      s'.tables[RESEARCH_EVIDENCE] == s.tables[RESEARCH_EVIDENCE]
  {
    ColumnRuns(s, RESEARCH_SOURCES, c, m);
    RunOne(s, AddColumn(RESEARCH_SOURCES, c, map[]));
  }

  lemma SourcesWidened(s: Schema)
    requires Reached(s, BEFORE_11)
    ensures Runs(s, SourceColumns(), Mark(33, 134, 74))
    ensures Run(s, SourceColumns()).value.tables[RESEARCH_EVIDENCE] == s.tables[RESEARCH_EVIDENCE]
  {
    var a := [AddColumn(RESEARCH_SOURCES, Opt(ORIGINAL_URL, Varchar(2048)), map[])];
    var b := [AddColumn(RESEARCH_SOURCES, Opt(NORMALIZED_URL, Varchar(2048)), map[])];
    SourceWidened(s, Opt(ORIGINAL_URL, Varchar(2048)), BEFORE_11);
    SourceWidened(Run(s, a).value, Opt(NORMALIZED_URL, Varchar(2048)), Mark(33, 133, 74));
    RunsThen(s, a, b, Mark(33, 133, 74), Mark(33, 134, 74));
  }

  lemma EvidenceWidened(s: Schema)
    requires Reached(s, Mark(33, 134, 74)) && s.tables[RESEARCH_EVIDENCE] == Bare()
    ensures Runs(s, ProjectColumn() + SnapshotColumn(), Mark(33, 136, 74))
    ensures {RESEARCH_PROJECT_ID, SNAPSHOT_ID}
         <= ColumnNames(Run(s, ProjectColumn() + SnapshotColumn()).value.tables[RESEARCH_EVIDENCE].columns)
  {
    KeyedColumnRuns(s, RESEARCH_EVIDENCE, Opt(RESEARCH_PROJECT_ID, Uuid), RESEARCH_EVIDENCE_RESEARCH_PROJECT_ID_FKEY,
      ProjectKey(), Mark(33, 134, 74));
    KeyedColumnRuns(Run(s, ProjectColumn()).value, RESEARCH_EVIDENCE, Opt(SNAPSHOT_ID, Uuid),
      RESEARCH_EVIDENCE_SNAPSHOT_ID_FKEY, SnapshotKey(), Mark(33, 135, 74));
    RunsThen(s, ProjectColumn(), SnapshotColumn(), Mark(33, 135, 74), Mark(33, 136, 74));
  }

  function EvidenceIndexes(): seq<Statement> { M11.WidenResearch()[4..] }

  lemma EvidenceIndexed(ops: seq<Statement>)
    requires ops == EvidenceIndexes()
    ensures AllIndex(ops, RESEARCH_EVIDENCE, 74, {RESEARCH_PROJECT_ID, SNAPSHOT_ID}) && |ops| == 2
  {
  }

  lemma BothWidened(s: Schema)
    requires Reached(s, BEFORE_11) && s.tables[RESEARCH_EVIDENCE] == Bare()
    ensures Runs(s, SourceColumns() + (ProjectColumn() + SnapshotColumn()), Mark(33, 136, 74))
    ensures var s' := Run(s, SourceColumns() + (ProjectColumn() + SnapshotColumn())).value;
      {RESEARCH_PROJECT_ID, SNAPSHOT_ID} <= ColumnNames(s'.tables[RESEARCH_EVIDENCE].columns)
  {
    SourcesWidened(s);
    EvidenceWidened(Run(s, SourceColumns()).value);
    RunsThen(s, SourceColumns(), ProjectColumn() + SnapshotColumn(), Mark(33, 134, 74), Mark(33, 136, 74));
  }

  lemma ThenIndexed(s: Schema, before: seq<Statement>, indexes: seq<Statement>)
    requires Runs(s, before, Mark(33, 136, 74)) && |indexes| == 2
    requires AllIndex(indexes, RESEARCH_EVIDENCE, 74, {RESEARCH_PROJECT_ID, SNAPSHOT_ID})
    requires {RESEARCH_PROJECT_ID, SNAPSHOT_ID} <= ColumnNames(Run(s, before).value.tables[RESEARCH_EVIDENCE].columns)
    ensures Runs(s, before + indexes, WIDENED_11)
  {
    var names := {RESEARCH_PROJECT_ID, SNAPSHOT_ID};
    IndexesRun(Run(s, before).value, indexes, RESEARCH_EVIDENCE, Mark(33, 136, 74), names, 2);
    assert indexes[..2] == indexes;
    RunsThen(s, before, indexes, Mark(33, 136, 74), WIDENED_11);
  }

  lemma Widens0011(ops: seq<Statement>)
    requires ops == M11.WidenResearch()
    ensures ops == SourceColumns() + (ProjectColumn() + SnapshotColumn()) + EvidenceIndexes()
  {
  }

  lemma BeforeResearchReached(s: Schema)
    requires s == BareTables(RESEARCH_COLLECTION_JOBS)
    ensures Sound(s) && Reached(s, BEFORE_11) && s.tables[RESEARCH_EVIDENCE] == Bare()
  {
    BareTablesSound(s, RESEARCH_COLLECTION_JOBS);
    BareTablesReach(s, RESEARCH_COLLECTION_JOBS, BEFORE_11);
    AllBare(RESEARCH_COLLECTION_JOBS, RESEARCH_EVIDENCE);
  }

  lemma Runs0011(s: Schema)
    requires Reached(s, BEFORE_11) && s.tables[RESEARCH_EVIDENCE] == Bare()
    ensures Runs(s, M11.WidenResearch() + (M11.MakeResearchCollectionJobs() + M11.MakeResearchCollectionPages()),
                 AFTER_11)
  {
    BothWidened(s);
    EvidenceIndexed(EvidenceIndexes());
    ThenIndexed(s, SourceColumns() + (ProjectColumn() + SnapshotColumn()), EvidenceIndexes());
    Widens0011(M11.WidenResearch());
    Script0011();
    RunsConcat(s, M11.WidenResearch(), M11.MakeResearchCollectionJobs() + M11.MakeResearchCollectionPages(),
      WIDENED_11, AFTER_11);
  }

  lemma Upgrade0011(up: seq<Statement>)
    requires up == M11.Upgrade()
    ensures up == M11.WidenResearch() + (M11.MakeResearchCollectionJobs() + M11.MakeResearchCollectionPages())
  {
  }

  /** Migration 0011 applies to bare tables and is taken back exactly. */
  lemma Applies0011(s: Schema, m: Migration)
    requires s == BareTables(RESEARCH_COLLECTION_JOBS) && m == M0011()
    ensures Sound(s) && Run(s, m.up).Some? && Run(Run(s, m.up).value, m.down) == Some(s)
  {
    BeforeResearchReached(s);
    Runs0011(s);
    Upgrade0011(m.up);
    RoundTrip0011();
  }

  function StatusTable(): Table { Table([Req(ID, Uuid), Req(STATUS, Varchar(20))], [ID], map[], map[], map[], map[]) }

  /** The tables before 0024, those of 0012 to 0023 left out; creative_tests has its status. */
  function BeforeActivations(): Schema { Put(BareTables(CREATIVE_TEST_ACTIVATIONS), CREATIVE_TESTS, StatusTable()) }

  lemma StatusStands(t: Table)
    requires t == StatusTable()
    ensures SelfContained(t) && STATUS in ColumnNames(t.columns)
  {
    StandsAlone(t, map[ID := 0]);
    KnownColumns(t.columns, map[STATUS := 1]);
  }

  lemma PutReaches(s: Schema, t: TableName, def: Table, m: Mark)
    requires Reached(s, m) && t < m.tables && Under(def, m)
    ensures Reached(Put(s, t, def), m)
  {
  }

  lemma BeforeActivationsReached(s: Schema)
    requires s == BeforeActivations()
    ensures Sound(s) && Reached(s, BEFORE_24) && HasTable(s, CREATIVE_TESTS, StatusTable())
  {
    var bare := BareTables(CREATIVE_TEST_ACTIVATIONS);
    BareTablesReach(bare, CREATIVE_TEST_ACTIVATIONS, BEFORE_24);
    StatusStands(StatusTable());
    PutReaches(bare, CREATIVE_TESTS, StatusTable(), BEFORE_24);
    StatusSound(s);
  }

  lemma StatusSound(s: Schema)
    requires s == BeforeActivations() && SelfContained(StatusTable())
    ensures Sound(s)
  {
    BareStands(Bare());
    forall t | t in s.tables ensures Independent(s.tables[t]) {
      AllBare(CREATIVE_TEST_ACTIVATIONS, t);
    }
    AllBare(CREATIVE_TEST_ACTIVATIONS, 0);
    IndependentSound(s);
  }

  lemma Script0024()
    ensures Extends(M24.MakeCreativeTestActivations(), BEFORE_24, AFTER_24)
  {
    NothingExtends(BEFORE_24);
    AddCreativeTestActivations([], BEFORE_24, M24.MakeCreativeTestActivations());
    assert [] + M24.MakeCreativeTestActivations() == M24.MakeCreativeTestActivations();
  }

  lemma Spares0024(ops: seq<Statement>)
    requires ops == M24.MakeCreativeTestActivations()
    ensures forall i :: 0 <= i < |ops| ==> Spares(ops[i], CREATIVE_TESTS)
  {
  }

  lemma StatusCheck(op: Statement)
    requires op == M24.NarrowStatus()[0]
    ensures op.AddCheck? && op.table == CREATIVE_TESTS && op.check.Mentions() == {STATUS}
    ensures M24.Upgrade() == M24.MakeCreativeTestActivations() + [op]
  {
  }

  lemma Checking(s: Schema, ops: seq<Statement>, op: Statement, def: Table)
    requires Run(s, ops).Some? && HasTable(Run(s, ops).value, CREATIVE_TESTS, def)
    requires op.AddCheck? && op.table == CREATIVE_TESTS && op.check.Mentions() <= ColumnNames(def.columns)
    requires op.constraint !in def.checks && op.constraint !in def.foreignKeys
    ensures Run(s, ops + [op]).Some?
  {
    RunConcat(s, ops, [op]);
    RunOne(Run(s, ops).value, op);
  }

  /** And so does migration 0024. */
  lemma Applies0024(s: Schema, m: Migration)
    requires s == BeforeActivations() && m == M0024()
    ensures Sound(s) && Run(s, m.up).Some? && Run(Run(s, m.up).value, m.down) == Some(s)
  {
    BeforeActivationsReached(s);
    Script0024();
    var ops, op := M24.MakeCreativeTestActivations(), M24.NarrowStatus()[0];
    assert Runs(s, ops, AFTER_24);
    Spares0024(ops);
    SparedByAll(s, ops, CREATIVE_TESTS, StatusTable());
    StatusStands(StatusTable());
    StatusCheck(op);
    Checking(s, ops, op, StatusTable());
    RoundTrip0024();
  }
}
