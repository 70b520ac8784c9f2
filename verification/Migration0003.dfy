/** Migration 0003: business intelligence: three columns and ten tables. */
module Migration0003 {
  import opened Common
  import opened SchemaNames
  import opened Ddl

  function BusinessProfilesTable(): Table {
    Table(
      [
        Req(ID, Uuid), Req(BUSINESS_ID, Uuid), Opt(DESCRIPTION, TextType), Opt(INDUSTRY, Varchar(100)),
        Opt(BUSINESS_MODEL, Varchar(50)), Opt(TARGET_MARKET, Varchar(255)), Opt(BRAND_POSITIONING, TextType),
        Opt(AVERAGE_ORDER_VALUE, Numeric(12, 2)), Opt(PRIMARY_CUSTOMER_TYPE, Varchar(50)),
        Opt(BRAND_VOICE, Varchar(50)), Stamp(CREATED_AT), Stamp(UPDATED_AT)
      ],
      [ID],
      map[
        UQ_BUSINESS_PROFILES_BUSINESS_ID := [BUSINESS_ID]],
      map[],
      map[
        FK_BUSINESS_PROFILES_BUSINESSES_BUSINESS_ID := ForeignKey([BUSINESS_ID], BUSINESSES, [ID], Cascade)],
      map[])
  }

  function ProductsTable(): Table {
    Table(
      [
        Req(ID, Uuid), Req(BUSINESS_ID, Uuid), Opt(SKU, Varchar(100)), Req(NAME, Varchar(255)),
        Opt(DESCRIPTION, TextType), Def(STATUS, Varchar(20), "active"), Def(CURRENCY, Varchar(3), "USD"),
        Stamp(CREATED_AT), Stamp(UPDATED_AT)
      ],
      [ID],
      map[],
      map[
        CK_PRODUCTS_PRODUCT_STATUS := OneOf(STATUS, ["active", "inactive", "archived"])],
      map[
        FK_PRODUCTS_BUSINESSES_BUSINESS_ID := ForeignKey([BUSINESS_ID], BUSINESSES, [ID], Cascade)],
      map[])
  }

  function ProductPricesTable(): Table {
    Table(
      [
        Req(ID, Uuid), Req(PRODUCT_ID, Uuid), Req(PRICE, Numeric(12, 2)), Req(CURRENCY, Varchar(3)),
        Req(EFFECTIVE_FROM, Timestamptz), Opt(EFFECTIVE_TO, Timestamptz), Stamp(CREATED_AT)
      ],
      [ID],
      map[],
      map[
        CK_PRODUCT_PRICES_PRICE_NON_NEGATIVE := AtLeastZero(PRICE),
        CK_PRODUCT_PRICES_PRICE_PERIOD := NullOr(EFFECTIVE_TO, After(EFFECTIVE_TO, EFFECTIVE_FROM))],
      map[
        FK_PRODUCT_PRICES_PRODUCTS_PRODUCT_ID := ForeignKey([PRODUCT_ID], PRODUCTS, [ID], Cascade)],
      map[])
  }

  function ProductCostsTable(): Table {
    Table(
      [
        Req(ID, Uuid), Req(PRODUCT_ID, Uuid), Def(COGS, Numeric(12, 2), "0"),
        Def(PACKAGING_COST, Numeric(12, 2), "0"), Def(PAYMENT_FEE_FIXED, Numeric(12, 2), "0"),
        Def(PAYMENT_FEE_PERCENT, Numeric(8, 4), "0"), Req(EFFECTIVE_FROM, Timestamptz),
        Opt(EFFECTIVE_TO, Timestamptz), Stamp(CREATED_AT)
      ],
      [ID],
      map[],
      map[
        CK_PRODUCT_COSTS_COGS_NON_NEGATIVE := AtLeastZero(COGS),
        CK_PRODUCT_COSTS_PACKAGING_NON_NEGATIVE := AtLeastZero(PACKAGING_COST),
        CK_PRODUCT_COSTS_PAYMENT_FEE_FIXED_NON_NEGATIVE := AtLeastZero(PAYMENT_FEE_FIXED),
        CK_PRODUCT_COSTS_PAYMENT_FEE_PERCENT_RANGE := Percent(PAYMENT_FEE_PERCENT),
        CK_PRODUCT_COSTS_COST_PERIOD := NullOr(EFFECTIVE_TO, After(EFFECTIVE_TO, EFFECTIVE_FROM))],
      map[
        FK_PRODUCT_COSTS_PRODUCTS_PRODUCT_ID := ForeignKey([PRODUCT_ID], PRODUCTS, [ID], Cascade)],
      map[])
  }

  function ShippingRulesTable(): Table {
    Table(
      [
        Req(ID, Uuid), Req(BUSINESS_ID, Uuid), Req(NAME, Varchar(100)), Req(COUNTRY, Varchar(100)),
        Opt(REGION, Varchar(100)), Req(METHOD, Varchar(50)), Def(COST, Numeric(12, 2), "0"),
        Def(CUSTOMER_PRICE, Numeric(12, 2), "0"), Opt(FREE_SHIPPING_THRESHOLD, Numeric(12, 2)),
        Def(IS_DEFAULT, Boolean, "false"), Def(ACTIVE, Boolean, "true"), Stamp(CREATED_AT), Stamp(UPDATED_AT)
      ],
      [ID],
      map[],
      map[
        CK_SHIPPING_RULES_SHIPPING_COST_NON_NEGATIVE := AtLeastZero(COST),
        CK_SHIPPING_RULES_SHIPPING_CUSTOMER_PRICE_NON_NEGATIVE := AtLeastZero(CUSTOMER_PRICE),
        CK_SHIPPING_RULES_SHIPPING_FREE_THRESHOLD_NON_NEGATIVE := NullOr(FREE_SHIPPING_THRESHOLD,
          AtLeastZero(FREE_SHIPPING_THRESHOLD))],
      map[
        FK_SHIPPING_RULES_BUSINESSES_BUSINESS_ID := ForeignKey([BUSINESS_ID], BUSINESSES, [ID], Cascade)],
      map[])
  }

  function DiscountsTable(): Table {
    Table(
      [
        Req(ID, Uuid), Req(BUSINESS_ID, Uuid), Req(NAME, Varchar(100)), Req(TYPE, Varchar(20)),
        Req(VALUE, Numeric(12, 2)), Opt(MINIMUM_ORDER_VALUE, Numeric(12, 2)),
        Opt(MAXIMUM_DISCOUNT, Numeric(12, 2)), Req(STARTS_AT, Timestamptz), Req(ENDS_AT, Timestamptz),
        Def(ACTIVE, Boolean, "true"), Stamp(CREATED_AT), Stamp(UPDATED_AT)
      ],
      [ID],
      map[],
      map[
        CK_DISCOUNTS_DISCOUNT_TYPE := OneOf(TYPE, ["percentage", "fixed_amount"]),
        CK_DISCOUNTS_DISCOUNT_VALUE_POSITIVE := Positive(VALUE),
        CK_DISCOUNTS_DISCOUNT_PERCENTAGE_MAX := AtMost100When(VALUE, TYPE, "percentage"),
        CK_DISCOUNTS_DISCOUNT_MINIMUM_ORDER_VALUE_NON_NEGATIVE := NullOr(MINIMUM_ORDER_VALUE,
          AtLeastZero(MINIMUM_ORDER_VALUE)),
        CK_DISCOUNTS_DISCOUNT_MAXIMUM_DISCOUNT_POSITIVE := NullOr(MAXIMUM_DISCOUNT, Positive(MAXIMUM_DISCOUNT)),
        CK_DISCOUNTS_DISCOUNT_PERIOD := After(ENDS_AT, STARTS_AT)],
      map[
        FK_DISCOUNTS_BUSINESSES_BUSINESS_ID := ForeignKey([BUSINESS_ID], BUSINESSES, [ID], Cascade)],
      map[])
  }

  function BundlesTable(): Table {
    Table(
      [
        Req(ID, Uuid), Req(BUSINESS_ID, Uuid), Req(NAME, Varchar(255)), Opt(DESCRIPTION, TextType),
        Req(PRICE, Numeric(12, 2)), Req(CURRENCY, Varchar(3)), Def(ACTIVE, Boolean, "true"), Stamp(CREATED_AT),
        Stamp(UPDATED_AT)
      ],
      [ID],
      map[],
      map[
        CK_BUNDLES_BUNDLE_PRICE_NON_NEGATIVE := AtLeastZero(PRICE)],
      map[
        FK_BUNDLES_BUSINESSES_BUSINESS_ID := ForeignKey([BUSINESS_ID], BUSINESSES, [ID], Cascade)],
      map[])
  }

  function BundleItemsTable(): Table {
    Table(
      [
        Req(ID, Uuid), Req(BUNDLE_ID, Uuid), Req(PRODUCT_ID, Uuid), Req(QUANTITY, Integer), Stamp(CREATED_AT)
      ],
      [ID],
      map[
        UQ_BUNDLE_ITEMS_BUNDLE_ID_PRODUCT_ID := [BUNDLE_ID, PRODUCT_ID]],
      map[
        CK_BUNDLE_ITEMS_BUNDLE_ITEM_QUANTITY_POSITIVE := Positive(QUANTITY)],
      map[
        FK_BUNDLE_ITEMS_BUNDLES_BUNDLE_ID := ForeignKey([BUNDLE_ID], BUNDLES, [ID], Cascade),
        FK_BUNDLE_ITEMS_PRODUCTS_PRODUCT_ID := ForeignKey([PRODUCT_ID], PRODUCTS, [ID], Cascade)],
      map[])
  }

  function InventorySnapshotsTable(): Table {
    Table(
      [
        Req(ID, Uuid), Req(PRODUCT_ID, Uuid), Req(QUANTITY, Integer), Req(SOURCE, Varchar(20)),
        Def(RECORDED_AT, Timestamptz, "now()")
      ],
      [ID],
      map[],
      map[
        CK_INVENTORY_SNAPSHOTS_INVENTORY_QUANTITY_NON_NEGATIVE := AtLeastZero(QUANTITY),
        CK_INVENTORY_SNAPSHOTS_INVENTORY_SOURCE := OneOf(SOURCE, ["manual", "system", "shopify"])],
      map[
        FK_INVENTORY_SNAPSHOTS_PRODUCTS_PRODUCT_ID := ForeignKey([PRODUCT_ID], PRODUCTS, [ID], Cascade)],
      map[])
  }

  function BusinessGoalsTable(): Table {
    Table(
      [
        Req(ID, Uuid), Req(BUSINESS_ID, Uuid), Req(PERIOD_START, Timestamptz), Req(PERIOD_END, Timestamptz),
        Opt(TARGET_REVENUE, Numeric(14, 2)), Opt(TARGET_PROFIT, Numeric(14, 2)), Opt(AD_BUDGET, Numeric(14, 2)),
        Opt(MAXIMUM_CPA, Numeric(14, 2)), Opt(TARGET_ROAS, Numeric(14, 2)), Req(CURRENCY, Varchar(3)),
        Stamp(CREATED_AT), Stamp(UPDATED_AT)
      ],
      [ID],
      map[],
      map[
        CK_BUSINESS_GOALS_GOAL_PERIOD := After(PERIOD_END, PERIOD_START),
        CK_BUSINESS_GOALS_GOAL_REVENUE_NON_NEGATIVE := NullOr(TARGET_REVENUE, AtLeastZero(TARGET_REVENUE)),
        CK_BUSINESS_GOALS_GOAL_PROFIT_NON_NEGATIVE := NullOr(TARGET_PROFIT, AtLeastZero(TARGET_PROFIT)),
        CK_BUSINESS_GOALS_GOAL_AD_BUDGET_POSITIVE := NullOr(AD_BUDGET, Positive(AD_BUDGET)),
        CK_BUSINESS_GOALS_GOAL_MAX_CPA_POSITIVE := NullOr(MAXIMUM_CPA, Positive(MAXIMUM_CPA)),
        CK_BUSINESS_GOALS_GOAL_ROAS_POSITIVE := NullOr(TARGET_ROAS, Positive(TARGET_ROAS))],
      map[
        FK_BUSINESS_GOALS_BUSINESSES_BUSINESS_ID := ForeignKey([BUSINESS_ID], BUSINESSES, [ID], Cascade)],
      map[])
  }

  function WidenBusinesses(): seq<Statement> {
    [
      AddColumn(BUSINESSES, Opt(DESCRIPTION, TextType), map[]),
      AddColumn(BUSINESSES, Opt(COUNTRY, Varchar(2)), map[]),
      AddColumn(BUSINESSES, Opt(WEBSITE_URL, Varchar(500)), map[])
    ]
  }

  function MakeBusinessProfiles(): seq<Statement> {
    [
      CreateTable(BUSINESS_PROFILES, BusinessProfilesTable()),
      CreateIndex(BUSINESS_PROFILES, IX_BUSINESS_PROFILES_BUSINESS_ID, Index([Plain(BUSINESS_ID)], true, None))
    ]
  }

  function MakeProducts(): seq<Statement> {
    [
      CreateTable(PRODUCTS, ProductsTable()),
      CreateIndex(PRODUCTS, IX_PRODUCTS_BUSINESS_ID, Index([Plain(BUSINESS_ID)], false, None)),
      CreateIndex(PRODUCTS, UQ_PRODUCTS_BUSINESS_SKU, Index([Plain(BUSINESS_ID), Plain(SKU)], true, Some(SKU)))
    ]
  }

  function MakeProductPrices(): seq<Statement> {
    [
      CreateTable(PRODUCT_PRICES, ProductPricesTable()),
      CreateIndex(PRODUCT_PRICES, IX_PRODUCT_PRICES_PRODUCT_ID, Index([Plain(PRODUCT_ID)], false, None)),
      CreateIndex(PRODUCT_PRICES, IX_PRODUCT_PRICES_EFFECTIVE_FROM, Index([Plain(EFFECTIVE_FROM)], false, None))
    ]
  }

  function MakeProductCosts(): seq<Statement> {
    [
      CreateTable(PRODUCT_COSTS, ProductCostsTable()),
      CreateIndex(PRODUCT_COSTS, IX_PRODUCT_COSTS_PRODUCT_ID, Index([Plain(PRODUCT_ID)], false, None)),
      CreateIndex(PRODUCT_COSTS, IX_PRODUCT_COSTS_EFFECTIVE_FROM, Index([Plain(EFFECTIVE_FROM)], false, None))
    ]
  }

  function MakeShippingRules(): seq<Statement> {
    [
      CreateTable(SHIPPING_RULES, ShippingRulesTable()),
      CreateIndex(SHIPPING_RULES, IX_SHIPPING_RULES_BUSINESS_ID, Index([Plain(BUSINESS_ID)], false, None))
    ]
  }

  function MakeDiscounts(): seq<Statement> {
    [
      CreateTable(DISCOUNTS, DiscountsTable()),
      CreateIndex(DISCOUNTS, IX_DISCOUNTS_BUSINESS_ID, Index([Plain(BUSINESS_ID)], false, None))
    ]
  }

  function MakeBundles(): seq<Statement> {
    [
      CreateTable(BUNDLES, BundlesTable()),
      CreateIndex(BUNDLES, IX_BUNDLES_BUSINESS_ID, Index([Plain(BUSINESS_ID)], false, None))
    ]
  }

  function MakeBundleItems(): seq<Statement> {
    [
      CreateTable(BUNDLE_ITEMS, BundleItemsTable()),
      CreateIndex(BUNDLE_ITEMS, IX_BUNDLE_ITEMS_BUNDLE_ID, Index([Plain(BUNDLE_ID)], false, None)),
      CreateIndex(BUNDLE_ITEMS, IX_BUNDLE_ITEMS_PRODUCT_ID, Index([Plain(PRODUCT_ID)], false, None))
    ]
  }

  function MakeInventorySnapshots(): seq<Statement> {
    [
      CreateTable(INVENTORY_SNAPSHOTS, InventorySnapshotsTable()),
      CreateIndex(INVENTORY_SNAPSHOTS, IX_INVENTORY_SNAPSHOTS_PRODUCT_ID, Index([Plain(PRODUCT_ID)], false, None)),
      CreateIndex(INVENTORY_SNAPSHOTS, IX_INVENTORY_SNAPSHOTS_RECORDED_AT, Index([Plain(RECORDED_AT)], false, None))
    ]
  }

  function MakeBusinessGoals(): seq<Statement> {
    [
      CreateTable(BUSINESS_GOALS, BusinessGoalsTable()),
      CreateIndex(BUSINESS_GOALS, IX_BUSINESS_GOALS_BUSINESS_ID, Index([Plain(BUSINESS_ID)], false, None)),
      CreateIndex(BUSINESS_GOALS, IX_BUSINESS_GOALS_PERIOD_START, Index([Plain(PERIOD_START)], false, None))
    ]
  }

  function Upgrade(): seq<Statement> {
    WidenBusinesses() + MakeBusinessProfiles() + MakeProducts() + MakeProductPrices() + MakeProductCosts() +
    MakeShippingRules() + MakeDiscounts() + MakeBundles() + MakeBundleItems() + MakeInventorySnapshots() +
    MakeBusinessGoals()
  }

  function UnwidenBusinesses(): seq<Statement> {
    [
      DropColumn(BUSINESSES, WEBSITE_URL),
      DropColumn(BUSINESSES, COUNTRY),
      DropColumn(BUSINESSES, DESCRIPTION)
    ]
  }

  function DropTables(): seq<Statement> {
    [
      DropTable(BUSINESS_GOALS),
      DropTable(INVENTORY_SNAPSHOTS),
      DropTable(BUNDLE_ITEMS),
      DropTable(BUNDLES),
      DropTable(DISCOUNTS),
      DropTable(SHIPPING_RULES),
      DropTable(PRODUCT_COSTS),
      DropTable(PRODUCT_PRICES),
      DropTable(PRODUCTS),
      DropTable(BUSINESS_PROFILES)
    ]
  }

  function Downgrade(): seq<Statement> { DropTables() + UnwidenBusinesses() }
}
