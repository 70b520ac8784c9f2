/** The tables of the migrations, one by one: each can be made, with its indexes, where it comes. */
module InstallTables {
  import opened SchemaNames
  import opened Ddl
  import opened Installing
  import M1 = Migration0001
  import M3 = Migration0003
  import M4 = Migration0004
  import M5 = Migration0005
  import M11 = Migration0011
  import M24 = Migration0024

  // ---- 0001 ----

  lemma UsersServes(t: Table)
    requires t == M1.UsersTable()
    ensures Serves(t)
  {
    Serving(t, map[ID := 0, EMAIL := 1]);
  }

  lemma AddUsers(before: seq<Statement>, start: Mark, ops: seq<Statement>)
    requires ops == M1.MakeUsers() && Extends(before, start, Mark(0, 0, 0))
    ensures Extends(before + ops, start, Mark(1, 8, 2))
  {
    UsersServes(ops[0].definition);
    ThenBlock(before, start, ops, map[EMAIL := 1],
      Mark(0, 0, 0), Mark(1, 8, 1));
  }

  lemma OrganizationsServes(t: Table)
    requires t == M1.OrganizationsTable()
    ensures Serves(t)
  {
    Serving(t, map[ID := 0, SLUG := 2, TYPE := 3]);
  }

  lemma AddOrganizations(before: seq<Statement>, start: Mark, ops: seq<Statement>)
    requires ops == M1.MakeOrganizations() && Extends(before, start, Mark(1, 8, 2))
    ensures Extends(before + ops, start, Mark(2, 11, 4))
  {
    OrganizationsServes(ops[0].definition);
    ThenBlock(before, start, ops, map[SLUG := 2],
      Mark(1, 8, 2), Mark(2, 11, 3));
  }

  lemma RolesServes(t: Table)
    requires t == M1.RolesTable()
    ensures Serves(t)
  {
    Serving(t, map[ID := 0, ORGANIZATION_ID := 1, NAME := 2]);
  }

  lemma AddRoles(before: seq<Statement>, start: Mark, ops: seq<Statement>)
    requires ops == M1.MakeRoles() && Extends(before, start, Mark(2, 11, 4))
    ensures Extends(before + ops, start, Mark(3, 13, 6))
  {
    RolesServes(ops[0].definition);
    ThenBlock(before, start, ops, map[ORGANIZATION_ID := 1],
      Mark(2, 11, 4), Mark(3, 13, 5));
  }

  lemma MembershipsServes(t: Table)
    requires t == M1.MembershipsTable()
    ensures Serves(t)
  {
    Serving(t, map[ID := 0, USER_ID := 1, ORGANIZATION_ID := 2, ROLE_ID := 3, STATUS := 4]);
  }

  lemma AddMemberships(before: seq<Statement>, start: Mark, ops: seq<Statement>)
    requires ops == M1.MakeMemberships() && Extends(before, start, Mark(3, 13, 6))
    ensures Extends(before + ops, start, Mark(4, 16, 9))
  {
    MembershipsServes(ops[0].definition);
    ThenBlock(before, start, ops, map[ORGANIZATION_ID := 2, ROLE_ID := 3],
      Mark(3, 13, 6), Mark(4, 16, 7));
  }

  lemma BusinessesServes(t: Table)
    requires t == M1.BusinessesTable()
    ensures Serves(t)
  {
    Serving(t, map[ID := 0, ORGANIZATION_ID := 1, MANAGED_BY_ORGANIZATION_ID := 2, NAME := 3,
        ONBOARDING_STATUS := 7]);
  }

  lemma BusinessesNext(t: Table)
    requires t == M1.BusinessesTable()
    ensures Next(BUSINESSES, t, Mark(4, 16, 9), Mark(5, 21, 10))
  {
  }

  lemma BusinessesIndexed(ops: seq<Statement>, at: map<ColumnName, nat>)
    requires ops == M1.MakeBusinesses()
    requires at == map[ORGANIZATION_ID := 1, MANAGED_BY_ORGANIZATION_ID := 2]
    ensures At(ops[0].definition.columns, at)
  {
  }

  lemma AddBusinesses(before: seq<Statement>, start: Mark, ops: seq<Statement>)
    requires ops == M1.MakeBusinesses() && Extends(before, start, Mark(4, 16, 9))
    ensures Extends(before + ops, start, Mark(5, 21, 12))
  {
    BusinessesServes(ops[0].definition);
    BusinessesNext(ops[0].definition);
    var at := map[ORGANIZATION_ID := 1, MANAGED_BY_ORGANIZATION_ID := 2];
    BusinessesIndexed(ops, at);
    ThenBlock(before, start, ops, at,
      Mark(4, 16, 9), Mark(5, 21, 10));
  }

  lemma InvitationsServes(t: Table)
    requires t == M1.InvitationsTable()
    ensures Serves(t)
  {
    Serving(t, map[ID := 0, ORGANIZATION_ID := 1, EMAIL := 2, ROLE_ID := 3, TOKEN_HASH := 4]);
  }

  lemma AddInvitations(before: seq<Statement>, start: Mark, ops: seq<Statement>)
    requires ops == M1.MakeInvitations() && Extends(before, start, Mark(5, 21, 12))
    ensures Extends(before + ops, start, Mark(6, 24, 16))
  {
    InvitationsServes(ops[0].definition);
    ThenBlock(before, start, ops, map[ORGANIZATION_ID := 1, EMAIL := 2],
      Mark(5, 21, 12), Mark(6, 24, 14));
  }

  // ---- 0003 ----

  lemma BusinessProfilesServes(t: Table)
    requires t == M3.BusinessProfilesTable()
    ensures Serves(t)
  {
    Serving(t, map[ID := 0, BUSINESS_ID := 1]);
  }

  lemma AddBusinessProfiles(before: seq<Statement>, start: Mark, ops: seq<Statement>)
    requires ops == M3.MakeBusinessProfiles() && Extends(before, start, Mark(6, 27, 16))
    ensures Extends(before + ops, start, Mark(7, 34, 18))
  {
    BusinessProfilesServes(ops[0].definition);
    ThenBlock(before, start, ops, map[BUSINESS_ID := 1],
      Mark(6, 27, 16), Mark(7, 34, 17));
  }

  lemma ProductsServes(t: Table)
    requires t == M3.ProductsTable()
    ensures Serves(t)
  {
    Serving(t, map[ID := 0, BUSINESS_ID := 1, STATUS := 5]);
  }

  lemma AddProducts(before: seq<Statement>, start: Mark, ops: seq<Statement>)
    requires ops == M3.MakeProducts() && Extends(before, start, Mark(7, 34, 18))
    ensures Extends(before + ops, start, Mark(8, 35, 20))
  {
    ProductsServes(ops[0].definition);
    ThenBlock(before, start, ops, map[BUSINESS_ID := 1, SKU := 2],
      Mark(7, 34, 18), Mark(8, 35, 18));
  }

  lemma ProductPricesServes(t: Table)
    requires t == M3.ProductPricesTable()
    ensures Serves(t)
  {
    Serving(t, map[ID := 0, PRODUCT_ID := 1, PRICE := 2, EFFECTIVE_FROM := 4, EFFECTIVE_TO := 5]);
  }

  lemma AddProductPrices(before: seq<Statement>, start: Mark, ops: seq<Statement>)
    requires ops == M3.MakeProductPrices() && Extends(before, start, Mark(8, 35, 20))
    ensures Extends(before + ops, start, Mark(9, 39, 22))
  {
    ProductPricesServes(ops[0].definition);
    ThenBlock(before, start, ops, map[PRODUCT_ID := 1, EFFECTIVE_FROM := 4],
      Mark(8, 35, 20), Mark(9, 39, 20));
  }

  function ProductCostsAt(): map<ColumnName, nat> {
    map[ID := 0, PRODUCT_ID := 1, COGS := 2, PACKAGING_COST := 3, PAYMENT_FEE_FIXED := 4,
        PAYMENT_FEE_PERCENT := 5, EFFECTIVE_FROM := 6, EFFECTIVE_TO := 7]
  }

  lemma ProductCostsListed(t: Table)
    requires t == M3.ProductCostsTable()
    ensures At(t.columns, ProductCostsAt())
  {
  }

  lemma ProductCostsDiffer(t: Table, i: nat, j: nat)
    requires t == M3.ProductCostsTable() && i < j < |t.columns|
    ensures t.columns[i].name != t.columns[j].name
  {
  }

  lemma ProductCostsPairwise(t: Table)
    requires t == M3.ProductCostsTable()
    ensures Pairwise(t.columns)
  {
    forall i, j | 0 <= i < j < |t.columns| ensures t.columns[i].name != t.columns[j].name {
      ProductCostsDiffer(t, i, j);
    }
  }

  lemma ProductCostsChecks(t: Table)
    requires t == M3.ProductCostsTable()
    ensures forall c :: c in t.checks ==> t.checks[c].Mentions() <= ProductCostsAt().Keys
  {
  }

  lemma ProductCostsConstrained(t: Table)
    requires t == M3.ProductCostsTable()
    ensures Constrained(t, ProductCostsAt().Keys)
  {
    ProductCostsChecks(t);
  }

  lemma ProductCostsServes(t: Table)
    requires t == M3.ProductCostsTable()
    ensures Serves(t)
  {
    ProductCostsListed(t);
    ProductCostsPairwise(t);
    ProductCostsConstrained(t);
    Serving(t, ProductCostsAt());
  }

  lemma AddProductCosts(before: seq<Statement>, start: Mark, ops: seq<Statement>)
    requires ops == M3.MakeProductCosts() && Extends(before, start, Mark(9, 39, 22))
    ensures Extends(before + ops, start, Mark(10, 43, 24))
  {
    ProductCostsServes(ops[0].definition);
    ThenBlock(before, start, ops, map[PRODUCT_ID := 1, EFFECTIVE_FROM := 6],
      Mark(9, 39, 22), Mark(10, 43, 22));
  }

  function ShippingRulesAt(): map<ColumnName, nat> {
    map[ID := 0, BUSINESS_ID := 1, COST := 6, CUSTOMER_PRICE := 7, FREE_SHIPPING_THRESHOLD := 8]
  }

  lemma ShippingRulesListed(t: Table)
    requires t == M3.ShippingRulesTable()
    ensures At(t.columns, ShippingRulesAt())
  {
  }

  lemma ShippingRulesDiffer(t: Table, i: nat, j: nat)
    requires t == M3.ShippingRulesTable() && i < j < |t.columns|
    ensures t.columns[i].name != t.columns[j].name
  {
  }

  lemma ShippingRulesPairwise(t: Table)
    requires t == M3.ShippingRulesTable()
    ensures Pairwise(t.columns)
  {
    forall i, j | 0 <= i < j < |t.columns| ensures t.columns[i].name != t.columns[j].name {
      ShippingRulesDiffer(t, i, j);
    }
  }

  lemma ShippingRulesChecks(t: Table)
    requires t == M3.ShippingRulesTable()
    ensures forall c :: c in t.checks ==> t.checks[c].Mentions() <= ShippingRulesAt().Keys
  {
  }

  lemma ShippingRulesConstrained(t: Table)
    requires t == M3.ShippingRulesTable()
    ensures Constrained(t, ShippingRulesAt().Keys)
  {
    ShippingRulesChecks(t);
  }

  lemma ShippingRulesServes(t: Table)
    requires t == M3.ShippingRulesTable()
    ensures Serves(t)
  {
    ShippingRulesListed(t);
    ShippingRulesPairwise(t);
    ShippingRulesConstrained(t);
    Serving(t, ShippingRulesAt());
  }

  lemma ShippingRulesNext(t: Table)
    requires t == M3.ShippingRulesTable()
    ensures Next(SHIPPING_RULES, t, Mark(10, 43, 24), Mark(11, 50, 24))
  {
  }

  lemma ShippingRulesIndexes(ops: seq<Statement>)
    requires ops == M3.MakeShippingRules()
    ensures forall i: nat :: 0 < i < |ops| ==>
      Indexes(ops[i], ops[0].table, 24 + (i - 1) as RelationName, ShippingRulesAt().Keys)
  {
  }

  lemma AddShippingRules(before: seq<Statement>, start: Mark, ops: seq<Statement>)
    requires ops == M3.MakeShippingRules() && Extends(before, start, Mark(10, 43, 24))
    ensures Extends(before + ops, start, Mark(11, 50, 25))
  {
    ShippingRulesServes(ops[0].definition);
    ShippingRulesNext(ops[0].definition);
    ShippingRulesListed(ops[0].definition);
    ShippingRulesIndexes(ops);
    ThenBlock(before, start, ops, ShippingRulesAt(),
      Mark(10, 43, 24), Mark(11, 50, 24));
  }

  function DiscountsAt(): map<ColumnName, nat> {
    map[ID := 0, BUSINESS_ID := 1, TYPE := 3, VALUE := 4, MINIMUM_ORDER_VALUE := 5, MAXIMUM_DISCOUNT := 6,
        STARTS_AT := 7, ENDS_AT := 8]
  }

  lemma DiscountsListed(t: Table)
    requires t == M3.DiscountsTable()
    ensures At(t.columns, DiscountsAt())
  {
  }

  lemma DiscountsDiffer(t: Table, i: nat, j: nat)
    requires t == M3.DiscountsTable() && i < j < |t.columns|
    ensures t.columns[i].name != t.columns[j].name
  {
  }

  lemma DiscountsPairwise(t: Table)
    requires t == M3.DiscountsTable()
    ensures Pairwise(t.columns)
  {
    forall i, j | 0 <= i < j < |t.columns| ensures t.columns[i].name != t.columns[j].name {
      DiscountsDiffer(t, i, j);
    }
  }

  lemma DiscountsChecks(t: Table)
    requires t == M3.DiscountsTable()
    ensures forall c :: c in t.checks ==> t.checks[c].Mentions() <= DiscountsAt().Keys
  {
  }

  lemma DiscountsConstrained(t: Table)
    requires t == M3.DiscountsTable()
    ensures Constrained(t, DiscountsAt().Keys)
  {
    DiscountsChecks(t);
  }

  lemma DiscountsServes(t: Table)
    requires t == M3.DiscountsTable()
    ensures Serves(t)
  {
    DiscountsListed(t);
    DiscountsPairwise(t);
    DiscountsConstrained(t);
    Serving(t, DiscountsAt());
  }

  lemma AddDiscounts(before: seq<Statement>, start: Mark, ops: seq<Statement>)
    requires ops == M3.MakeDiscounts() && Extends(before, start, Mark(11, 50, 25))
    ensures Extends(before + ops, start, Mark(12, 55, 26))
  {
    DiscountsServes(ops[0].definition);
    ThenBlock(before, start, ops, map[BUSINESS_ID := 1],
      Mark(11, 50, 25), Mark(12, 55, 25));
  }

  lemma BundlesServes(t: Table)
    requires t == M3.BundlesTable()
    ensures Serves(t)
  {
    Serving(t, map[ID := 0, BUSINESS_ID := 1, PRICE := 4]);
  }

  lemma AddBundles(before: seq<Statement>, start: Mark, ops: seq<Statement>)
    requires ops == M3.MakeBundles() && Extends(before, start, Mark(12, 55, 26))
    ensures Extends(before + ops, start, Mark(13, 55, 27))
  {
    BundlesServes(ops[0].definition);
    ThenBlock(before, start, ops, map[BUSINESS_ID := 1],
      Mark(12, 55, 26), Mark(13, 55, 26));
  }

  lemma BundleItemsServes(t: Table)
    requires t == M3.BundleItemsTable()
    ensures Serves(t)
  {
    Serving(t, map[ID := 0, BUNDLE_ID := 1, PRODUCT_ID := 2, QUANTITY := 3]);
  }

  lemma AddBundleItems(before: seq<Statement>, start: Mark, ops: seq<Statement>)
    requires ops == M3.MakeBundleItems() && Extends(before, start, Mark(13, 55, 27))
    ensures Extends(before + ops, start, Mark(14, 57, 30))
  {
    BundleItemsServes(ops[0].definition);
    ThenBlock(before, start, ops, map[BUNDLE_ID := 1, PRODUCT_ID := 2],
      Mark(13, 55, 27), Mark(14, 57, 28));
  }

  lemma InventorySnapshotsServes(t: Table)
    requires t == M3.InventorySnapshotsTable()
    ensures Serves(t)
  {
    Serving(t, map[ID := 0, PRODUCT_ID := 1, QUANTITY := 2, SOURCE := 3]);
  }

  lemma AddInventorySnapshots(before: seq<Statement>, start: Mark, ops: seq<Statement>)
    requires ops == M3.MakeInventorySnapshots() && Extends(before, start, Mark(14, 57, 30))
    ensures Extends(before + ops, start, Mark(15, 59, 32))
  {
    InventorySnapshotsServes(ops[0].definition);
    ThenBlock(before, start, ops, map[PRODUCT_ID := 1, RECORDED_AT := 4],
      Mark(14, 57, 30), Mark(15, 59, 30));
  }

  function BusinessGoalsAt(): map<ColumnName, nat> {
    map[ID := 0, BUSINESS_ID := 1, PERIOD_START := 2, PERIOD_END := 3, TARGET_REVENUE := 4, TARGET_PROFIT := 5,
        AD_BUDGET := 6, MAXIMUM_CPA := 7, TARGET_ROAS := 8]
  }

  lemma BusinessGoalsListed(t: Table)
    requires t == M3.BusinessGoalsTable()
    ensures At(t.columns, BusinessGoalsAt())
  {
  }

  lemma BusinessGoalsDiffer(t: Table, i: nat, j: nat)
    requires t == M3.BusinessGoalsTable() && i < j < |t.columns|
    ensures t.columns[i].name != t.columns[j].name
  {
  }

  lemma BusinessGoalsPairwise(t: Table)
    requires t == M3.BusinessGoalsTable()
    ensures Pairwise(t.columns)
  {
    forall i, j | 0 <= i < j < |t.columns| ensures t.columns[i].name != t.columns[j].name {
      BusinessGoalsDiffer(t, i, j);
    }
  }

  lemma BusinessGoalsChecks(t: Table)
    requires t == M3.BusinessGoalsTable()
    ensures forall c :: c in t.checks ==> t.checks[c].Mentions() <= BusinessGoalsAt().Keys
  {
  }

  lemma BusinessGoalsConstrained(t: Table)
    requires t == M3.BusinessGoalsTable()
    ensures Constrained(t, BusinessGoalsAt().Keys)
  {
    BusinessGoalsChecks(t);
  }

  lemma BusinessGoalsServes(t: Table)
    requires t == M3.BusinessGoalsTable()
    ensures Serves(t)
  {
    BusinessGoalsListed(t);
    BusinessGoalsPairwise(t);
    BusinessGoalsConstrained(t);
    Serving(t, BusinessGoalsAt());
  }

  lemma BusinessGoalsNext(t: Table)
    requires t == M3.BusinessGoalsTable()
    ensures Next(BUSINESS_GOALS, t, Mark(15, 59, 32), Mark(16, 66, 32))
  {
  }

  lemma BusinessGoalsIndexes(ops: seq<Statement>)
    requires ops == M3.MakeBusinessGoals()
    ensures forall i: nat :: 0 < i < |ops| ==>
      Indexes(ops[i], ops[0].table, 32 + (i - 1) as RelationName, BusinessGoalsAt().Keys)
  {
  }

  lemma AddBusinessGoals(before: seq<Statement>, start: Mark, ops: seq<Statement>)
    requires ops == M3.MakeBusinessGoals() && Extends(before, start, Mark(15, 59, 32))
    ensures Extends(before + ops, start, Mark(16, 66, 34))
  {
    BusinessGoalsServes(ops[0].definition);
    BusinessGoalsNext(ops[0].definition);
    BusinessGoalsListed(ops[0].definition);
    BusinessGoalsIndexes(ops);
    ThenBlock(before, start, ops, BusinessGoalsAt(),
      Mark(15, 59, 32), Mark(16, 66, 32));
  }

  // ---- 0004 ----

  lemma IntegrationConnectionsServes(t: Table)
    requires t == M4.IntegrationConnectionsTable()
    ensures Serves(t)
  {
    Serving(t, map[ID := 0, BUSINESS_ID := 1, PROVIDER := 2, STATUS := 3]);
  }

  lemma AddIntegrationConnections(before: seq<Statement>, start: Mark, ops: seq<Statement>)
    requires ops == M4.MakeIntegrationConnections() && Extends(before, start, Mark(16, 68, 35))
    ensures Extends(before + ops, start, Mark(17, 75, 37))
  {
    IntegrationConnectionsServes(ops[0].definition);
    ThenBlock(before, start, ops, map[BUSINESS_ID := 1],
      Mark(16, 68, 35), Mark(17, 75, 36));
  }

  lemma IntegrationCredentialsServes(t: Table)
    requires t == M4.IntegrationCredentialsTable()
    ensures Serves(t)
  {
    Serving(t, map[ID := 0, CONNECTION_ID := 1]);
  }

  lemma AddIntegrationCredentials(before: seq<Statement>, start: Mark, ops: seq<Statement>)
    requires ops == M4.MakeIntegrationCredentials() && Extends(before, start, Mark(17, 75, 37))
    ensures Extends(before + ops, start, Mark(18, 79, 38))
  {
    IntegrationCredentialsServes(ops[0].definition);
    ThenBlock(before, start, ops, map[],
      Mark(17, 75, 37), Mark(18, 79, 38));
  }

  lemma SyncRunsServes(t: Table)
    requires t == M4.SyncRunsTable()
    ensures Serves(t)
  {
    Serving(t, map[ID := 0, CONNECTION_ID := 1, STATUS := 3, RECORDS_PROCESSED := 6]);
  }

  lemma AddSyncRuns(before: seq<Statement>, start: Mark, ops: seq<Statement>)
    requires ops == M4.MakeSyncRuns() && Extends(before, start, Mark(18, 79, 38))
    ensures Extends(before + ops, start, Mark(19, 85, 39))
  {
    SyncRunsServes(ops[0].definition);
    ThenBlock(before, start, ops, map[CONNECTION_ID := 1, RESOURCE_TYPE := 2],
      Mark(18, 79, 38), Mark(19, 85, 38));
  }

  lemma WebhookEventsServes(t: Table)
    requires t == M4.WebhookEventsTable()
    ensures Serves(t)
  {
    Serving(t, map[ID := 0, STATUS := 4]);
  }

  lemma WebhookEventsNext(t: Table)
    requires t == M4.WebhookEventsTable()
    ensures Next(WEBHOOK_EVENTS, t, Mark(19, 85, 39), Mark(20, 89, 39))
  {
  }

  lemma WebhookEventsIndexed(ops: seq<Statement>, at: map<ColumnName, nat>)
    requires ops == M4.MakeWebhookEvents()
    requires at == map[PROVIDER := 1, EXTERNAL_EVENT_ID := 2]
    ensures At(ops[0].definition.columns, at)
  {
  }

  lemma AddWebhookEvents(before: seq<Statement>, start: Mark, ops: seq<Statement>)
    requires ops == M4.MakeWebhookEvents() && Extends(before, start, Mark(19, 85, 39))
    ensures Extends(before + ops, start, Mark(20, 89, 41))
  {
    WebhookEventsServes(ops[0].definition);
    WebhookEventsNext(ops[0].definition);
    var at := map[PROVIDER := 1, EXTERNAL_EVENT_ID := 2];
    WebhookEventsIndexed(ops, at);
    ThenBlock(before, start, ops, at,
      Mark(19, 85, 39), Mark(20, 89, 39));
  }

  lemma CustomersServes(t: Table)
    requires t == M4.CustomersTable()
    ensures Serves(t)
  {
    Serving(t, map[ID := 0, BUSINESS_ID := 1, EXTERNAL_ID := 2]);
  }

  lemma AddCustomers(before: seq<Statement>, start: Mark, ops: seq<Statement>)
    requires ops == M4.MakeCustomers() && Extends(before, start, Mark(20, 89, 41))
    ensures Extends(before + ops, start, Mark(21, 89, 43))
  {
    CustomersServes(ops[0].definition);
    ThenBlock(before, start, ops, map[BUSINESS_ID := 1],
      Mark(20, 89, 41), Mark(21, 89, 42));
  }

  function OrdersAt(): map<ColumnName, nat> {
    map[ID := 0, BUSINESS_ID := 1, EXTERNAL_ID := 2, SOURCE := 3, CUSTOMER_ID := 4, CURRENCY := 5,
        SUBTOTAL := 6, DISCOUNT_TOTAL := 7, SHIPPING_REVENUE := 8, TAX_TOTAL := 9, TOTAL := 10,
        FINANCIAL_STATUS := 11, FULFILLMENT_STATUS := 12, ORDERED_AT := 13]
  }

  lemma OrdersListed(t: Table)
    requires t == M4.OrdersTable()
    ensures At(t.columns, OrdersAt())
  {
  }

  lemma OrdersDiffer(t: Table, i: nat, j: nat)
    requires t == M4.OrdersTable() && i < j < |t.columns|
    ensures t.columns[i].name != t.columns[j].name
  {
  }

  lemma OrdersPairwise(t: Table)
    requires t == M4.OrdersTable()
    ensures Pairwise(t.columns)
  {
    forall i, j | 0 <= i < j < |t.columns| ensures t.columns[i].name != t.columns[j].name {
      OrdersDiffer(t, i, j);
    }
  }

  lemma OrdersChecks(t: Table)
    requires t == M4.OrdersTable()
    ensures forall c :: c in t.checks ==> t.checks[c].Mentions() <= OrdersAt().Keys
  {
  }

  lemma OrdersConstrained(t: Table)
    requires t == M4.OrdersTable()
    ensures Constrained(t, OrdersAt().Keys)
  {
    OrdersChecks(t);
  }

  lemma OrdersServes(t: Table)
    requires t == M4.OrdersTable()
    ensures Serves(t)
  {
    OrdersListed(t);
    OrdersPairwise(t);
    OrdersConstrained(t);
    Serving(t, OrdersAt());
  }

  lemma OrdersNext(t: Table)
    requires t == M4.OrdersTable()
    ensures Next(ORDERS, t, Mark(21, 89, 43), Mark(22, 98, 44))
  {
  }

  lemma OrdersIndexes(ops: seq<Statement>)
    requires ops == M4.MakeOrders()
    ensures forall i: nat :: 0 < i < |ops| ==>
      Indexes(ops[i], ops[0].table, 44 + (i - 1) as RelationName, OrdersAt().Keys)
  {
  }

  lemma AddOrders(before: seq<Statement>, start: Mark, ops: seq<Statement>)
    requires ops == M4.MakeOrders() && Extends(before, start, Mark(21, 89, 43))
    ensures Extends(before + ops, start, Mark(22, 98, 47))
  {
    OrdersServes(ops[0].definition);
    OrdersNext(ops[0].definition);
    OrdersListed(ops[0].definition);
    OrdersIndexes(ops);
    ThenBlock(before, start, ops, OrdersAt(),
      Mark(21, 89, 43), Mark(22, 98, 44));
  }

  function OrderItemsAt(): map<ColumnName, nat> {
    map[ID := 0, ORDER_ID := 1, PRODUCT_ID := 2, QUANTITY := 5, UNIT_PRICE := 6, DISCOUNT_AMOUNT := 7,
        LINE_TOTAL := 8]
  }

  lemma OrderItemsListed(t: Table)
    requires t == M4.OrderItemsTable()
    ensures At(t.columns, OrderItemsAt())
  {
  }

  lemma OrderItemsDiffer(t: Table, i: nat, j: nat)
    requires t == M4.OrderItemsTable() && i < j < |t.columns|
    ensures t.columns[i].name != t.columns[j].name
  {
  }

  lemma OrderItemsPairwise(t: Table)
    requires t == M4.OrderItemsTable()
    ensures Pairwise(t.columns)
  {
    forall i, j | 0 <= i < j < |t.columns| ensures t.columns[i].name != t.columns[j].name {
      OrderItemsDiffer(t, i, j);
    }
  }

  lemma OrderItemsChecks(t: Table)
    requires t == M4.OrderItemsTable()
    ensures forall c :: c in t.checks ==> t.checks[c].Mentions() <= OrderItemsAt().Keys
  {
  }

  lemma OrderItemsConstrained(t: Table)
    requires t == M4.OrderItemsTable()
    ensures Constrained(t, OrderItemsAt().Keys)
  {
    OrderItemsChecks(t);
  }

  lemma OrderItemsServes(t: Table)
    requires t == M4.OrderItemsTable()
    ensures Serves(t)
  {
    OrderItemsListed(t);
    OrderItemsPairwise(t);
    OrderItemsConstrained(t);
    Serving(t, OrderItemsAt());
  }

  lemma OrderItemsNext(t: Table)
    requires t == M4.OrderItemsTable()
    ensures Next(ORDER_ITEMS, t, Mark(22, 98, 47), Mark(23, 104, 47))
  {
  }

  lemma OrderItemsIndexes(ops: seq<Statement>)
    requires ops == M4.MakeOrderItems()
    ensures forall i: nat :: 0 < i < |ops| ==>
      Indexes(ops[i], ops[0].table, 47 + (i - 1) as RelationName, OrderItemsAt().Keys)
  {
  }

  lemma AddOrderItems(before: seq<Statement>, start: Mark, ops: seq<Statement>)
    requires ops == M4.MakeOrderItems() && Extends(before, start, Mark(22, 98, 47))
    ensures Extends(before + ops, start, Mark(23, 104, 49))
  {
    OrderItemsServes(ops[0].definition);
    OrderItemsNext(ops[0].definition);
    OrderItemsListed(ops[0].definition);
    OrderItemsIndexes(ops);
    ThenBlock(before, start, ops, OrderItemsAt(),
      Mark(22, 98, 47), Mark(23, 104, 47));
  }

  // ---- 0005 ----

  lemma AdAccountsServes(t: Table)
    requires t == M5.AdAccountsTable()
    ensures Serves(t)
  {
    Serving(t, map[ID := 0, BUSINESS_ID := 1, INTEGRATION_CONNECTION_ID := 2, CURRENCY := 5]);
  }

  lemma AdAccountsNext(t: Table)
    requires t == M5.AdAccountsTable()
    ensures Next(AD_ACCOUNTS, t, Mark(23, 104, 50), Mark(24, 106, 50))
  {
  }

  lemma AdAccountsIndexed(ops: seq<Statement>, at: map<ColumnName, nat>)
    requires ops == M5.MakeAdAccounts()
    requires at == map[BUSINESS_ID := 1, INTEGRATION_CONNECTION_ID := 2, EXTERNAL_ID := 3]
    ensures At(ops[0].definition.columns, at)
  {
  }

  lemma AddAdAccounts(before: seq<Statement>, start: Mark, ops: seq<Statement>)
    requires ops == M5.MakeAdAccounts() && Extends(before, start, Mark(23, 104, 50))
    ensures Extends(before + ops, start, Mark(24, 106, 53))
  {
    AdAccountsServes(ops[0].definition);
    AdAccountsNext(ops[0].definition);
    var at := map[BUSINESS_ID := 1, INTEGRATION_CONNECTION_ID := 2, EXTERNAL_ID := 3];
    AdAccountsIndexed(ops, at);
    ThenBlock(before, start, ops, at,
      Mark(23, 104, 50), Mark(24, 106, 50));
  }

  function CreativesAt(): map<ColumnName, nat> {
    map[ID := 0, BUSINESS_ID := 1]
  }

  lemma CreativesListed(t: Table)
    requires t == M5.CreativesTable()
    ensures At(t.columns, CreativesAt())
  {
  }

  lemma CreativesDiffer(t: Table, i: nat, j: nat)
    requires t == M5.CreativesTable() && i < j < |t.columns|
    ensures t.columns[i].name != t.columns[j].name
  {
  }

  lemma CreativesPairwise(t: Table)
    requires t == M5.CreativesTable()
    ensures Pairwise(t.columns)
  {
    forall i, j | 0 <= i < j < |t.columns| ensures t.columns[i].name != t.columns[j].name {
      CreativesDiffer(t, i, j);
    }
  }

  lemma CreativesChecks(t: Table)
    requires t == M5.CreativesTable()
    ensures forall c :: c in t.checks ==> t.checks[c].Mentions() <= CreativesAt().Keys
  {
  }

  lemma CreativesConstrained(t: Table)
    requires t == M5.CreativesTable()
    ensures Constrained(t, CreativesAt().Keys)
  {
    CreativesChecks(t);
  }

  lemma CreativesServes(t: Table)
    requires t == M5.CreativesTable()
    ensures Serves(t)
  {
    CreativesListed(t);
    CreativesPairwise(t);
    CreativesConstrained(t);
    Serving(t, CreativesAt());
  }

  lemma AddCreatives(before: seq<Statement>, start: Mark, ops: seq<Statement>)
    requires ops == M5.MakeCreatives() && Extends(before, start, Mark(24, 106, 53))
    ensures Extends(before + ops, start, Mark(25, 112, 55))
  {
    CreativesServes(ops[0].definition);
    ThenBlock(before, start, ops, map[BUSINESS_ID := 1, PROVIDER := 2, EXTERNAL_ID := 3],
      Mark(24, 106, 53), Mark(25, 112, 53));
  }

  lemma CampaignsServes(t: Table)
    requires t == M5.CampaignsTable()
    ensures Serves(t)
  {
    Serving(t, map[ID := 0, BUSINESS_ID := 1, AD_ACCOUNT_ID := 2]);
  }

  lemma CampaignsNext(t: Table)
    requires t == M5.CampaignsTable()
    ensures Next(CAMPAIGNS, t, Mark(25, 112, 55), Mark(26, 115, 55))
  {
  }

  lemma CampaignsIndexed(ops: seq<Statement>, at: map<ColumnName, nat>)
    requires ops == M5.MakeCampaigns()
    requires at == map[BUSINESS_ID := 1, AD_ACCOUNT_ID := 2, EXTERNAL_ID := 3]
    ensures At(ops[0].definition.columns, at)
  {
  }

  lemma AddCampaigns(before: seq<Statement>, start: Mark, ops: seq<Statement>)
    requires ops == M5.MakeCampaigns() && Extends(before, start, Mark(25, 112, 55))
    ensures Extends(before + ops, start, Mark(26, 115, 58))
  {
    CampaignsServes(ops[0].definition);
    CampaignsNext(ops[0].definition);
    var at := map[BUSINESS_ID := 1, AD_ACCOUNT_ID := 2, EXTERNAL_ID := 3];
    CampaignsIndexed(ops, at);
    ThenBlock(before, start, ops, at,
      Mark(25, 112, 55), Mark(26, 115, 55));
  }

  lemma AdSetsServes(t: Table)
    requires t == M5.AdSetsTable()
    ensures Serves(t)
  {
    Serving(t, map[ID := 0, BUSINESS_ID := 1, AD_ACCOUNT_ID := 2, CAMPAIGN_ID := 3]);
  }

  lemma AdSetsNext(t: Table)
    requires t == M5.AdSetsTable()
    ensures Next(AD_SETS, t, Mark(26, 115, 58), Mark(27, 118, 58))
  {
  }

  lemma AdSetsIndexed(ops: seq<Statement>, at: map<ColumnName, nat>)
    requires ops == M5.MakeAdSets()
    requires at == map[BUSINESS_ID := 1, AD_ACCOUNT_ID := 2, CAMPAIGN_ID := 3, EXTERNAL_ID := 4]
    ensures At(ops[0].definition.columns, at)
  {
  }

  lemma AddAdSets(before: seq<Statement>, start: Mark, ops: seq<Statement>)
    requires ops == M5.MakeAdSets() && Extends(before, start, Mark(26, 115, 58))
    ensures Extends(before + ops, start, Mark(27, 118, 62))
  {
    AdSetsServes(ops[0].definition);
    AdSetsNext(ops[0].definition);
    var at := map[BUSINESS_ID := 1, AD_ACCOUNT_ID := 2, CAMPAIGN_ID := 3, EXTERNAL_ID := 4];
    AdSetsIndexed(ops, at);
    ThenBlock(before, start, ops, at,
      Mark(26, 115, 58), Mark(27, 118, 58));
  }

  function AdsAt(): map<ColumnName, nat> {
    map[ID := 0, BUSINESS_ID := 1, AD_ACCOUNT_ID := 2, CAMPAIGN_ID := 3, AD_SET_ID := 4, CREATIVE_ID := 5,
        EXTERNAL_ID := 6]
  }

  lemma AdsListed(t: Table)
    requires t == M5.AdsTable()
    ensures At(t.columns, AdsAt())
  {
  }

  lemma AdsDiffer(t: Table, i: nat, j: nat)
    requires t == M5.AdsTable() && i < j < |t.columns|
    ensures t.columns[i].name != t.columns[j].name
  {
  }

  lemma AdsPairwise(t: Table)
    requires t == M5.AdsTable()
    ensures Pairwise(t.columns)
  {
    forall i, j | 0 <= i < j < |t.columns| ensures t.columns[i].name != t.columns[j].name {
      AdsDiffer(t, i, j);
    }
  }

  lemma AdsChecks(t: Table)
    requires t == M5.AdsTable()
    ensures forall c :: c in t.checks ==> t.checks[c].Mentions() <= AdsAt().Keys
  {
  }

  lemma AdsConstrained(t: Table)
    requires t == M5.AdsTable()
    ensures Constrained(t, AdsAt().Keys)
  {
    AdsChecks(t);
  }

  lemma AdsServes(t: Table)
    requires t == M5.AdsTable()
    ensures Serves(t)
  {
    AdsListed(t);
    AdsPairwise(t);
    AdsConstrained(t);
    Serving(t, AdsAt());
  }

  lemma AdsNext(t: Table)
    requires t == M5.AdsTable()
    ensures Next(ADS, t, Mark(27, 118, 62), Mark(28, 120, 62))
  {
  }

  lemma AdsIndexes(ops: seq<Statement>)
    requires ops == M5.MakeAds()
    ensures forall i: nat :: 0 < i < |ops| ==>
      Indexes(ops[i], ops[0].table, 62 + (i - 1) as RelationName, AdsAt().Keys)
  {
  }

  lemma AddAds(before: seq<Statement>, start: Mark, ops: seq<Statement>)
    requires ops == M5.MakeAds() && Extends(before, start, Mark(27, 118, 62))
    ensures Extends(before + ops, start, Mark(28, 120, 67))
  {
    AdsServes(ops[0].definition);
    AdsNext(ops[0].definition);
    AdsListed(ops[0].definition);
    AdsIndexes(ops);
    ThenBlock(before, start, ops, AdsAt(),
      Mark(27, 118, 62), Mark(28, 120, 62));
  }

  function AdInsightsAt(): map<ColumnName, nat> {
    map[ID := 0, BUSINESS_ID := 1, AD_ACCOUNT_ID := 2, CAMPAIGN_ID := 3, AD_SET_ID := 4, AD_ID := 5,
        PROVIDER := 6, DATE := 7, GRAIN := 8, CURRENCY := 9, IMPRESSIONS := 10, CLICKS := 13, SPEND := 16,
        CONVERSION_VALUE := 18]
  }

  lemma AdInsightsListed(t: Table)
    requires t == M5.AdInsightsTable()
    ensures At(t.columns, AdInsightsAt())
  {
  }

  lemma AdInsightsDiffer(t: Table, i: nat, j: nat)
    requires t == M5.AdInsightsTable() && i < j < |t.columns|
    ensures t.columns[i].name != t.columns[j].name
  {
  }

  lemma AdInsightsPairwise(t: Table)
    requires t == M5.AdInsightsTable()
    ensures Pairwise(t.columns)
  {
    forall i, j | 0 <= i < j < |t.columns| ensures t.columns[i].name != t.columns[j].name {
      AdInsightsDiffer(t, i, j);
    }
  }

  lemma AdInsightsChecks(t: Table)
    requires t == M5.AdInsightsTable()
    ensures forall c :: c in t.checks ==> t.checks[c].Mentions() <= AdInsightsAt().Keys
  {
  }

  lemma AdInsightsConstrained(t: Table)
    requires t == M5.AdInsightsTable()
    ensures Constrained(t, AdInsightsAt().Keys)
  {
    AdInsightsChecks(t);
  }

  lemma AdInsightsServes(t: Table)
    requires t == M5.AdInsightsTable()
    ensures Serves(t)
  {
    AdInsightsListed(t);
    AdInsightsPairwise(t);
    AdInsightsConstrained(t);
    Serving(t, AdInsightsAt());
  }

  lemma AdInsightsNext(t: Table)
    requires t == M5.AdInsightsTable()
    ensures Next(AD_INSIGHTS, t, Mark(28, 120, 67), Mark(29, 132, 67))
  {
  }

  lemma AdInsightsIndexes(ops: seq<Statement>)
    requires ops == M5.MakeAdInsights()
    ensures forall i: nat :: 0 < i < |ops| ==>
      Indexes(ops[i], ops[0].table, 67 + (i - 1) as RelationName, AdInsightsAt().Keys)
  {
  }

  lemma AddAdInsights(before: seq<Statement>, start: Mark, ops: seq<Statement>)
    requires ops == M5.MakeAdInsights() && Extends(before, start, Mark(28, 120, 67))
    ensures Extends(before + ops, start, Mark(29, 132, 70))
  {
    AdInsightsServes(ops[0].definition);
    AdInsightsNext(ops[0].definition);
    AdInsightsListed(ops[0].definition);
    AdInsightsIndexes(ops);
    ThenBlock(before, start, ops, AdInsightsAt(),
      Mark(28, 120, 67), Mark(29, 132, 67));
  }

  // ---- 0011 ----

  function ResearchCollectionJobsAt(): map<ColumnName, nat> {
    map[ID := 0, ORGANIZATION_ID := 1, BUSINESS_ID := 2, RESEARCH_PROJECT_ID := 3, SOURCE_ID := 4, STATUS := 7,
        IDEMPOTENCY_KEY := 19, CREATED_AT := 21]
  }

  lemma ResearchCollectionJobsListed(t: Table)
    requires t == M11.ResearchCollectionJobsTable()
    ensures At(t.columns, ResearchCollectionJobsAt())
  {
  }

  lemma ResearchCollectionJobsEarly(t: Table, i: nat, j: nat)
    requires t == M11.ResearchCollectionJobsTable() && i < 5 && i < j < |t.columns|
    ensures t.columns[i].name != t.columns[j].name
  {
  }

  lemma ResearchCollectionJobsLate(t: Table, i: nat, j: nat)
    requires t == M11.ResearchCollectionJobsTable() && 5 <= i < j < |t.columns|
    ensures t.columns[i].name != t.columns[j].name
  {
  }

  lemma ResearchCollectionJobsDiffer(t: Table, i: nat, j: nat)
    requires t == M11.ResearchCollectionJobsTable() && i < j < |t.columns|
    ensures t.columns[i].name != t.columns[j].name
  {
    if i < 5 { ResearchCollectionJobsEarly(t, i, j); } else { ResearchCollectionJobsLate(t, i, j); }
  }

  lemma ResearchCollectionJobsPairwise(t: Table)
    requires t == M11.ResearchCollectionJobsTable()
    ensures Pairwise(t.columns)
  {
    forall i, j | 0 <= i < j < |t.columns| ensures t.columns[i].name != t.columns[j].name {
      ResearchCollectionJobsDiffer(t, i, j);
    }
  }

  lemma ResearchCollectionJobsChecks(t: Table)
    requires t == M11.ResearchCollectionJobsTable()
    ensures forall c :: c in t.checks ==> t.checks[c].Mentions() <= ResearchCollectionJobsAt().Keys
  {
  }

  lemma ResearchCollectionJobsConstrained(t: Table)
    requires t == M11.ResearchCollectionJobsTable()
    ensures Constrained(t, ResearchCollectionJobsAt().Keys)
  {
    ResearchCollectionJobsChecks(t);
  }

  lemma ResearchCollectionJobsServes(t: Table)
    requires t == M11.ResearchCollectionJobsTable()
    ensures Serves(t)
  {
    ResearchCollectionJobsListed(t);
    ResearchCollectionJobsPairwise(t);
    ResearchCollectionJobsConstrained(t);
    Serving(t, ResearchCollectionJobsAt());
  }

  lemma ResearchCollectionJobsNext(t: Table)
    requires t == M11.ResearchCollectionJobsTable()
    ensures Next(RESEARCH_COLLECTION_JOBS, t, Mark(33, 136, 76), Mark(34, 150, 76))
  {
  }

  lemma ResearchCollectionJobsIndexes(ops: seq<Statement>)
    requires ops == M11.MakeResearchCollectionJobs()
    ensures forall i: nat :: 0 < i < |ops| ==>
      Indexes(ops[i], ops[0].table, 76 + (i - 1) as RelationName, ResearchCollectionJobsAt().Keys)
  {
  }

  lemma AddResearchCollectionJobs(before: seq<Statement>, start: Mark, ops: seq<Statement>)
    requires ops == M11.MakeResearchCollectionJobs() && Extends(before, start, Mark(33, 136, 76))
    ensures Extends(before + ops, start, Mark(34, 150, 80))
  {
    ResearchCollectionJobsServes(ops[0].definition);
    ResearchCollectionJobsNext(ops[0].definition);
    ResearchCollectionJobsListed(ops[0].definition);
    ResearchCollectionJobsIndexes(ops);
    ThenBlock(before, start, ops, ResearchCollectionJobsAt(),
      Mark(33, 136, 76), Mark(34, 150, 76));
  }

  function ResearchCollectionPagesAt(): map<ColumnName, nat> {
    map[ID := 0, COLLECTION_JOB_ID := 1, SOURCE_ID := 2, NORMALIZED_URL := 4]
  }

  lemma ResearchCollectionPagesListed(t: Table)
    requires t == M11.ResearchCollectionPagesTable()
    ensures At(t.columns, ResearchCollectionPagesAt())
  {
  }

  lemma ResearchCollectionPagesDiffer(t: Table, i: nat, j: nat)
    requires t == M11.ResearchCollectionPagesTable() && i < j < |t.columns|
    ensures t.columns[i].name != t.columns[j].name
  {
  }

  lemma ResearchCollectionPagesPairwise(t: Table)
    requires t == M11.ResearchCollectionPagesTable()
    ensures Pairwise(t.columns)
  {
    forall i, j | 0 <= i < j < |t.columns| ensures t.columns[i].name != t.columns[j].name {
      ResearchCollectionPagesDiffer(t, i, j);
    }
  }

  lemma ResearchCollectionPagesChecks(t: Table)
    requires t == M11.ResearchCollectionPagesTable()
    ensures forall c :: c in t.checks ==> t.checks[c].Mentions() <= ResearchCollectionPagesAt().Keys
  {
  }

  lemma ResearchCollectionPagesConstrained(t: Table)
    requires t == M11.ResearchCollectionPagesTable()
    ensures Constrained(t, ResearchCollectionPagesAt().Keys)
  {
    ResearchCollectionPagesChecks(t);
  }

  lemma ResearchCollectionPagesServes(t: Table)
    requires t == M11.ResearchCollectionPagesTable()
    ensures Serves(t)
  {
    ResearchCollectionPagesListed(t);
    ResearchCollectionPagesPairwise(t);
    ResearchCollectionPagesConstrained(t);
    Serving(t, ResearchCollectionPagesAt());
  }

  lemma ResearchCollectionPagesNext(t: Table)
    requires t == M11.ResearchCollectionPagesTable()
    ensures Next(RESEARCH_COLLECTION_PAGES, t, Mark(34, 150, 80), Mark(35, 161, 80))
  {
  }

  lemma ResearchCollectionPagesIndexes(ops: seq<Statement>)
    requires ops == M11.MakeResearchCollectionPages()
    ensures forall i: nat :: 0 < i < |ops| ==>
      Indexes(ops[i], ops[0].table, 80 + (i - 1) as RelationName, ResearchCollectionPagesAt().Keys)
  {
  }

  lemma AddResearchCollectionPages(before: seq<Statement>, start: Mark, ops: seq<Statement>)
    requires ops == M11.MakeResearchCollectionPages() && Extends(before, start, Mark(34, 150, 80))
    ensures Extends(before + ops, start, Mark(35, 161, 83))
  {
    ResearchCollectionPagesServes(ops[0].definition);
    ResearchCollectionPagesNext(ops[0].definition);
    ResearchCollectionPagesListed(ops[0].definition);
    ResearchCollectionPagesIndexes(ops);
    ThenBlock(before, start, ops, ResearchCollectionPagesAt(),
      Mark(34, 150, 80), Mark(35, 161, 80));
  }

  // ---- 0024 ----

  function CreativeTestActivationsAt(): map<ColumnName, nat> {
    map[ID := 0, ORGANIZATION_ID := 1, BUSINESS_ID := 2, CREATIVE_TEST_ID := 3, PREVIOUS_STATUS := 8,
        NEW_STATUS := 9, ACTIVATED_BY := 10, CREATED_AT := 11]
  }

  lemma CreativeTestActivationsListed(t: Table)
    requires t == M24.CreativeTestActivationsTable()
    ensures At(t.columns, CreativeTestActivationsAt())
  {
  }

  lemma CreativeTestActivationsDiffer(t: Table, i: nat, j: nat)
    requires t == M24.CreativeTestActivationsTable() && i < j < |t.columns|
    ensures t.columns[i].name != t.columns[j].name
  {
  }

  lemma CreativeTestActivationsPairwise(t: Table)
    requires t == M24.CreativeTestActivationsTable()
    ensures Pairwise(t.columns)
  {
    forall i, j | 0 <= i < j < |t.columns| ensures t.columns[i].name != t.columns[j].name {
      CreativeTestActivationsDiffer(t, i, j);
    }
  }

  lemma CreativeTestActivationsChecks(t: Table)
    requires t == M24.CreativeTestActivationsTable()
    ensures forall c :: c in t.checks ==> t.checks[c].Mentions() <= CreativeTestActivationsAt().Keys
  {
  }

  lemma CreativeTestActivationsConstrained(t: Table)
    requires t == M24.CreativeTestActivationsTable()
    ensures Constrained(t, CreativeTestActivationsAt().Keys)
  {
    CreativeTestActivationsChecks(t);
  }

  lemma CreativeTestActivationsServes(t: Table)
    requires t == M24.CreativeTestActivationsTable()
    ensures Serves(t)
  {
    CreativeTestActivationsListed(t);
    CreativeTestActivationsPairwise(t);
    CreativeTestActivationsConstrained(t);
    Serving(t, CreativeTestActivationsAt());
  }

  lemma CreativeTestActivationsNext(t: Table)
    requires t == M24.CreativeTestActivationsTable()
    ensures Next(CREATIVE_TEST_ACTIVATIONS, t, Mark(36, 161, 83), Mark(37, 169, 83))
  {
  }

  lemma CreativeTestActivationsIndexes(ops: seq<Statement>)
    requires ops == M24.MakeCreativeTestActivations()
    ensures forall i: nat :: 0 < i < |ops| ==>
      Indexes(ops[i], ops[0].table, 83 + (i - 1) as RelationName, CreativeTestActivationsAt().Keys)
  {
  }

  lemma AddCreativeTestActivations(before: seq<Statement>, start: Mark, ops: seq<Statement>)
    requires ops == M24.MakeCreativeTestActivations() && Extends(before, start, Mark(36, 161, 83))
    ensures Extends(before + ops, start, Mark(37, 169, 85))
  {
    CreativeTestActivationsServes(ops[0].definition);
    CreativeTestActivationsNext(ops[0].definition);
    CreativeTestActivationsListed(ops[0].definition);
    CreativeTestActivationsIndexes(ops);
    ThenBlock(before, start, ops, CreativeTestActivationsAt(),
      Mark(36, 161, 83), Mark(37, 169, 83));
  }
}
