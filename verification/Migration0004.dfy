/** Migration 0004: integrations, customers and orders; products gain external identifiers. */
module Migration0004 {
  import opened Common
  import opened SchemaNames
  import opened Ddl

  function IntegrationConnectionsTable(): Table {
    Table(
      [
        Req(ID, Uuid), Req(BUSINESS_ID, Uuid), Req(PROVIDER, Varchar(50)), Def(STATUS, Varchar(20), "pending"),
        Opt(EXTERNAL_ACCOUNT_ID, Varchar(255)), Opt(EXTERNAL_ACCOUNT_NAME, Varchar(255)),
        Def(SCOPES, Json, "'[]'::json"), Opt(PROVIDER_METADATA, Json), Opt(CONNECTED_AT, Timestamptz),
        Opt(LAST_SYNC_AT, Timestamptz), Stamp(CREATED_AT), Stamp(UPDATED_AT)
      ],
      [ID],
      map[
        UQ_INTEGRATION_CONNECTIONS_BUSINESS_ID_PROVIDER := [BUSINESS_ID, PROVIDER]],
      map[
        CK_INTEGRATION_CONNECTIONS_INTEGRATION_CONNECTION_STATUS := OneOf(STATUS,
          ["pending", "connected", "disconnected", "error"])],
      map[
        FK_INTEGRATION_CONNECTIONS_BUSINESSES_BUSINESS_ID := ForeignKey([BUSINESS_ID], BUSINESSES, [ID], Cascade)],
      map[])
  }

  function IntegrationCredentialsTable(): Table {
    Table(
      [
        Req(ID, Uuid), Req(CONNECTION_ID, Uuid), Req(ACCESS_TOKEN_ENCRYPTED, TextType),
        Opt(REFRESH_TOKEN_ENCRYPTED, TextType), Opt(EXPIRES_AT, Timestamptz), Def(KEY_VERSION, Integer, "1"),
        Stamp(CREATED_AT), Stamp(UPDATED_AT)
      ],
      [ID],
      map[
        UQ_INTEGRATION_CREDENTIALS_CONNECTION_ID := [CONNECTION_ID]],
      map[],
      map[
        FK_CREDENTIALS_CONNECTION_ID := ForeignKey([CONNECTION_ID], INTEGRATION_CONNECTIONS, [ID], Cascade)],
      map[])
  }

  function SyncRunsTable(): Table {
    Table(
      [
        Req(ID, Uuid), Req(CONNECTION_ID, Uuid), Req(RESOURCE_TYPE, Varchar(50)),
        Def(STATUS, Varchar(20), "running"), Def(STARTED_AT, Timestamptz, "now()"),
        Opt(FINISHED_AT, Timestamptz), Def(RECORDS_PROCESSED, Integer, "0"), Opt(ERROR_SUMMARY, TextType),
        Opt(CURSOR, TextType), Stamp(CREATED_AT)
      ],
      [ID],
      map[],
      map[
        CK_SYNC_RUNS_SYNC_RUN_STATUS := OneOf(STATUS, ["running", "success", "partial", "failed"]),
        CK_SYNC_RUNS_SYNC_RUN_RECORDS_PROCESSED_NON_NEGATIVE := AtLeastZero(RECORDS_PROCESSED)],
      map[
        FK_SYNC_RUNS_INTEGRATION_CONNECTIONS_CONNECTION_ID := ForeignKey([CONNECTION_ID], INTEGRATION_CONNECTIONS,
          [ID], Cascade)],
      map[])
  }

  function WebhookEventsTable(): Table {
    Table(
      [
        Req(ID, Uuid), Req(PROVIDER, Varchar(50)), Opt(EXTERNAL_EVENT_ID, Varchar(255)),
        Req(PAYLOAD_HASH, Varchar(64)), Def(STATUS, Varchar(20), "received"),
        Def(RECEIVED_AT, Timestamptz, "now()"), Opt(PROCESSED_AT, Timestamptz), Opt(ERROR_SUMMARY, TextType)
      ],
      [ID],
      map[],
      map[
        CK_WEBHOOK_EVENTS_WEBHOOK_EVENT_STATUS := OneOf(STATUS,
          ["received", "processing", "processed", "failed", "ignored"])],
      map[],
      map[])
  }

  function CustomersTable(): Table {
    Table(
      [
        Req(ID, Uuid), Req(BUSINESS_ID, Uuid), Req(EXTERNAL_ID, Varchar(255)), Opt(EMAIL, Varchar(320)),
        Stamp(CREATED_AT), Stamp(UPDATED_AT)
      ],
      [ID],
      map[
        UQ_CUSTOMERS_BUSINESS_ID_EXTERNAL_ID := [BUSINESS_ID, EXTERNAL_ID]],
      map[],
      map[
        FK_CUSTOMERS_BUSINESSES_BUSINESS_ID := ForeignKey([BUSINESS_ID], BUSINESSES, [ID], Cascade)],
      map[])
  }

  function OrdersTable(): Table {
    Table(
      [
        Req(ID, Uuid), Req(BUSINESS_ID, Uuid), Req(EXTERNAL_ID, Varchar(255)), Req(SOURCE, Varchar(20)),
        Opt(CUSTOMER_ID, Uuid), Req(CURRENCY, Varchar(3)), Req(SUBTOTAL, Numeric(14, 2)),
        Def(DISCOUNT_TOTAL, Numeric(14, 2), "0"), Def(SHIPPING_REVENUE, Numeric(14, 2), "0"),
        Opt(TAX_TOTAL, Numeric(14, 2)), Req(TOTAL, Numeric(14, 2)), Req(FINANCIAL_STATUS, Varchar(30)),
        Opt(FULFILLMENT_STATUS, Varchar(30)), Req(ORDERED_AT, Timestamptz), Stamp(CREATED_AT), Stamp(UPDATED_AT)
      ],
      [ID],
      map[
        UQ_ORDERS_BUSINESS_ID_SOURCE_EXTERNAL_ID := [BUSINESS_ID, SOURCE, EXTERNAL_ID]],
      map[
        CK_ORDERS_ORDER_FINANCIAL_STATUS := OneOf(FINANCIAL_STATUS,
          ["pending", "authorized", "partially_paid", "paid", "partially_refunded", "refunded", "voided"]),
        CK_ORDERS_ORDER_FULFILLMENT_STATUS := NullOr(FULFILLMENT_STATUS,
          OneOf(FULFILLMENT_STATUS, ["unfulfilled", "partial", "scheduled", "fulfilled"])),
        CK_ORDERS_ORDER_SUBTOTAL_NON_NEGATIVE := AtLeastZero(SUBTOTAL),
        CK_ORDERS_ORDER_DISCOUNT_TOTAL_NON_NEGATIVE := AtLeastZero(DISCOUNT_TOTAL),
        CK_ORDERS_ORDER_SHIPPING_REVENUE_NON_NEGATIVE := AtLeastZero(SHIPPING_REVENUE),
        CK_ORDERS_ORDER_TAX_TOTAL_NON_NEGATIVE := NullOr(TAX_TOTAL, AtLeastZero(TAX_TOTAL)),
        CK_ORDERS_ORDER_TOTAL_NON_NEGATIVE := AtLeastZero(TOTAL),
        CK_ORDERS_ORDER_CURRENCY_FORMAT := CurrencyCode(CURRENCY)],
      map[
        FK_ORDERS_BUSINESSES_BUSINESS_ID := ForeignKey([BUSINESS_ID], BUSINESSES, [ID], Cascade),
        FK_ORDERS_CUSTOMERS_CUSTOMER_ID := ForeignKey([CUSTOMER_ID], CUSTOMERS, [ID], SetNull)],
      map[])
  }

  function OrderItemsTable(): Table {
    Table(
      [
        Req(ID, Uuid), Req(ORDER_ID, Uuid), Opt(PRODUCT_ID, Uuid), Req(EXTERNAL_PRODUCT_ID, Varchar(255)),
        Opt(EXTERNAL_VARIANT_ID, Varchar(255)), Req(QUANTITY, Integer), Req(UNIT_PRICE, Numeric(14, 2)),
        Def(DISCOUNT_AMOUNT, Numeric(14, 2), "0"), Req(LINE_TOTAL, Numeric(14, 2))
      ],
      [ID],
      map[],
      map[
        CK_ORDER_ITEMS_ORDER_ITEM_QUANTITY_POSITIVE := Positive(QUANTITY),
        CK_ORDER_ITEMS_ORDER_ITEM_UNIT_PRICE_NON_NEGATIVE := AtLeastZero(UNIT_PRICE),
        CK_ORDER_ITEMS_ORDER_ITEM_DISCOUNT_NON_NEGATIVE := AtLeastZero(DISCOUNT_AMOUNT),
        CK_ORDER_ITEMS_ORDER_ITEM_LINE_TOTAL_NON_NEGATIVE := AtLeastZero(LINE_TOTAL)],
      map[
        FK_ORDER_ITEMS_ORDERS_ORDER_ID := ForeignKey([ORDER_ID], ORDERS, [ID], Cascade),
        FK_ORDER_ITEMS_PRODUCTS_PRODUCT_ID := ForeignKey([PRODUCT_ID], PRODUCTS, [ID], SetNull)],
      map[])
  }

  function WidenProducts(): seq<Statement> {
    [
      AddColumn(PRODUCTS, Opt(EXTERNAL_ID, Varchar(255)), map[]),
      AddColumn(PRODUCTS, Opt(EXTERNAL_SOURCE, Varchar(20)), map[]),
      CreateIndex(PRODUCTS, UQ_PRODUCTS_BUSINESS_EXTERNAL_ID,
        Index([Plain(BUSINESS_ID), Plain(EXTERNAL_ID)], true, Some(EXTERNAL_ID)))
    ]
  }

  function MakeIntegrationConnections(): seq<Statement> {
    [
      CreateTable(INTEGRATION_CONNECTIONS, IntegrationConnectionsTable()),
      CreateIndex(INTEGRATION_CONNECTIONS, IX_INTEGRATION_CONNECTIONS_BUSINESS_ID,
        Index([Plain(BUSINESS_ID)], false, None))
    ]
  }

  function MakeIntegrationCredentials(): seq<Statement> {
    [
      CreateTable(INTEGRATION_CREDENTIALS, IntegrationCredentialsTable())
    ]
  }

  function MakeSyncRuns(): seq<Statement> {
    [
      CreateTable(SYNC_RUNS, SyncRunsTable()),
      CreateIndex(SYNC_RUNS, IX_SYNC_RUNS_CONNECTION_ID_RESOURCE_TYPE,
        Index([Plain(CONNECTION_ID), Plain(RESOURCE_TYPE)], false, None))
    ]
  }

  function MakeWebhookEvents(): seq<Statement> {
    [
      CreateTable(WEBHOOK_EVENTS, WebhookEventsTable()),
      CreateIndex(WEBHOOK_EVENTS, IX_WEBHOOK_EVENTS_PROVIDER, Index([Plain(PROVIDER)], false, None)),
      CreateIndex(WEBHOOK_EVENTS, UQ_WEBHOOK_EVENTS_PROVIDER_EXTERNAL_EVENT_ID,
        Index([Plain(PROVIDER), Plain(EXTERNAL_EVENT_ID)], true, Some(EXTERNAL_EVENT_ID)))
    ]
  }

  function MakeCustomers(): seq<Statement> {
    [
      CreateTable(CUSTOMERS, CustomersTable()),
      CreateIndex(CUSTOMERS, IX_CUSTOMERS_BUSINESS_ID, Index([Plain(BUSINESS_ID)], false, None))
    ]
  }

  function MakeOrders(): seq<Statement> {
    [
      CreateTable(ORDERS, OrdersTable()),
      CreateIndex(ORDERS, IX_ORDERS_BUSINESS_ID, Index([Plain(BUSINESS_ID)], false, None)),
      CreateIndex(ORDERS, IX_ORDERS_CUSTOMER_ID, Index([Plain(CUSTOMER_ID)], false, None)),
      CreateIndex(ORDERS, IX_ORDERS_BUSINESS_ID_ORDERED_AT,
        Index([Plain(BUSINESS_ID), Plain(ORDERED_AT)], false, None))
    ]
  }

  function MakeOrderItems(): seq<Statement> {
    [
      CreateTable(ORDER_ITEMS, OrderItemsTable()),
      CreateIndex(ORDER_ITEMS, IX_ORDER_ITEMS_ORDER_ID, Index([Plain(ORDER_ID)], false, None)),
      CreateIndex(ORDER_ITEMS, IX_ORDER_ITEMS_PRODUCT_ID, Index([Plain(PRODUCT_ID)], false, None))
    ]
  }

  function Upgrade(): seq<Statement> {
    WidenProducts() + MakeIntegrationConnections() + MakeIntegrationCredentials() + MakeSyncRuns() +
    MakeWebhookEvents() + MakeCustomers() + MakeOrders() + MakeOrderItems()
  }

  function UnwidenProducts(): seq<Statement> {
    [
      DropIndex(PRODUCTS, UQ_PRODUCTS_BUSINESS_EXTERNAL_ID),
      DropColumn(PRODUCTS, EXTERNAL_SOURCE),
      DropColumn(PRODUCTS, EXTERNAL_ID)
    ]
  }

  function DropTables(): seq<Statement> {
    [
      DropTable(ORDER_ITEMS),
      DropTable(ORDERS),
      DropTable(CUSTOMERS),
      DropTable(WEBHOOK_EVENTS),
      DropTable(SYNC_RUNS),
      DropTable(INTEGRATION_CREDENTIALS),
      DropTable(INTEGRATION_CONNECTIONS)
    ]
  }

  function Downgrade(): seq<Statement> { DropTables() + UnwidenProducts() }
}
