/** The names that the modelled migrations use: `ix_users_email` is IX_USERS_EMAIL, and so on. Each kind
    is numbered in the order in which the migrations come to need its names. */
module SchemaNames {
  /** Tables. */
  newtype TableName = n: int | 0 <= n

  const USERS: TableName := 0
  const ORGANIZATIONS: TableName := 1
  const ROLES: TableName := 2
  const MEMBERSHIPS: TableName := 3
  const BUSINESSES: TableName := 4
  const INVITATIONS: TableName := 5
  const BUSINESS_PROFILES: TableName := 6
  const PRODUCTS: TableName := 7
  const PRODUCT_PRICES: TableName := 8
  const PRODUCT_COSTS: TableName := 9
  const SHIPPING_RULES: TableName := 10
  const DISCOUNTS: TableName := 11
  const BUNDLES: TableName := 12
  const BUNDLE_ITEMS: TableName := 13
  const INVENTORY_SNAPSHOTS: TableName := 14
  const BUSINESS_GOALS: TableName := 15
  const INTEGRATION_CONNECTIONS: TableName := 16
  const INTEGRATION_CREDENTIALS: TableName := 17
  const SYNC_RUNS: TableName := 18
  const WEBHOOK_EVENTS: TableName := 19
  const CUSTOMERS: TableName := 20
  const ORDERS: TableName := 21
  const ORDER_ITEMS: TableName := 22
  const AD_ACCOUNTS: TableName := 23
  const CREATIVES: TableName := 24
  const CAMPAIGNS: TableName := 25
  const AD_SETS: TableName := 26
  const ADS: TableName := 27
  const AD_INSIGHTS: TableName := 28
  const RESEARCH_SOURCES: TableName := 29
  const RESEARCH_EVIDENCE: TableName := 30
  const RESEARCH_PROJECTS: TableName := 31
  const RESEARCH_SOURCE_SNAPSHOTS: TableName := 32
  const RESEARCH_COLLECTION_JOBS: TableName := 33
  const RESEARCH_COLLECTION_PAGES: TableName := 34
  const CREATIVE_TESTS: TableName := 35
  const CREATIVE_TEST_ACTIVATIONS: TableName := 36

  /** Columns of any table. */
  newtype ColumnName = n: int | 0 <= n

  const ID: ColumnName := 0
  const EMAIL: ColumnName := 1
  const PASSWORD_HASH: ColumnName := 2
  const NAME: ColumnName := 3
  const LOCALE: ColumnName := 4
  const IS_ACTIVE: ColumnName := 5
  const CREATED_AT: ColumnName := 6
  const UPDATED_AT: ColumnName := 7
  const SLUG: ColumnName := 8
  const TYPE: ColumnName := 9
  const LOCALE_DEFAULT: ColumnName := 10
  const ORGANIZATION_ID: ColumnName := 11
  const PERMISSIONS_JSON: ColumnName := 12
  const USER_ID: ColumnName := 13
  const ROLE_ID: ColumnName := 14
  const STATUS: ColumnName := 15
  const MANAGED_BY_ORGANIZATION_ID: ColumnName := 16
  const INDUSTRY: ColumnName := 17
  const TIMEZONE: ColumnName := 18
  const CURRENCY: ColumnName := 19
  const ONBOARDING_STATUS: ColumnName := 20
  const TOKEN_HASH: ColumnName := 21
  const EXPIRES_AT: ColumnName := 22
  const ACCEPTED_AT: ColumnName := 23
  const DESCRIPTION: ColumnName := 24
  const COUNTRY: ColumnName := 25
  const WEBSITE_URL: ColumnName := 26
  const BUSINESS_ID: ColumnName := 27
  const BUSINESS_MODEL: ColumnName := 28
  const TARGET_MARKET: ColumnName := 29
  const BRAND_POSITIONING: ColumnName := 30
  const AVERAGE_ORDER_VALUE: ColumnName := 31
  const PRIMARY_CUSTOMER_TYPE: ColumnName := 32
  const BRAND_VOICE: ColumnName := 33
  const SKU: ColumnName := 34
  const PRODUCT_ID: ColumnName := 35
  const PRICE: ColumnName := 36
  const EFFECTIVE_FROM: ColumnName := 37
  const EFFECTIVE_TO: ColumnName := 38
  const COGS: ColumnName := 39
  const PACKAGING_COST: ColumnName := 40
  const PAYMENT_FEE_FIXED: ColumnName := 41
  const PAYMENT_FEE_PERCENT: ColumnName := 42
  const REGION: ColumnName := 43
  const METHOD: ColumnName := 44
  const COST: ColumnName := 45
  const CUSTOMER_PRICE: ColumnName := 46
  const FREE_SHIPPING_THRESHOLD: ColumnName := 47
  const IS_DEFAULT: ColumnName := 48
  const ACTIVE: ColumnName := 49
  const VALUE: ColumnName := 50
  const MINIMUM_ORDER_VALUE: ColumnName := 51
  const MAXIMUM_DISCOUNT: ColumnName := 52
  const STARTS_AT: ColumnName := 53
  const ENDS_AT: ColumnName := 54
  const BUNDLE_ID: ColumnName := 55
  const QUANTITY: ColumnName := 56
  const SOURCE: ColumnName := 57
  const RECORDED_AT: ColumnName := 58
  const PERIOD_START: ColumnName := 59
  const PERIOD_END: ColumnName := 60
  const TARGET_REVENUE: ColumnName := 61
  const TARGET_PROFIT: ColumnName := 62
  const AD_BUDGET: ColumnName := 63
  const MAXIMUM_CPA: ColumnName := 64
  const TARGET_ROAS: ColumnName := 65
  const EXTERNAL_ID: ColumnName := 66
  const EXTERNAL_SOURCE: ColumnName := 67
  const PROVIDER: ColumnName := 68
  const EXTERNAL_ACCOUNT_ID: ColumnName := 69
  const EXTERNAL_ACCOUNT_NAME: ColumnName := 70
  const SCOPES: ColumnName := 71
  const PROVIDER_METADATA: ColumnName := 72
  const CONNECTED_AT: ColumnName := 73
  const LAST_SYNC_AT: ColumnName := 74
  const CONNECTION_ID: ColumnName := 75
  const ACCESS_TOKEN_ENCRYPTED: ColumnName := 76
  const REFRESH_TOKEN_ENCRYPTED: ColumnName := 77
  const KEY_VERSION: ColumnName := 78
  const RESOURCE_TYPE: ColumnName := 79
  const STARTED_AT: ColumnName := 80
  const FINISHED_AT: ColumnName := 81
  const RECORDS_PROCESSED: ColumnName := 82
  const ERROR_SUMMARY: ColumnName := 83
  const CURSOR: ColumnName := 84
  const EXTERNAL_EVENT_ID: ColumnName := 85
  const PAYLOAD_HASH: ColumnName := 86
  const RECEIVED_AT: ColumnName := 87
  const PROCESSED_AT: ColumnName := 88
  const CUSTOMER_ID: ColumnName := 89
  const SUBTOTAL: ColumnName := 90
  const DISCOUNT_TOTAL: ColumnName := 91
  const SHIPPING_REVENUE: ColumnName := 92
  const TAX_TOTAL: ColumnName := 93
  const TOTAL: ColumnName := 94
  const FINANCIAL_STATUS: ColumnName := 95
  const FULFILLMENT_STATUS: ColumnName := 96
  const ORDERED_AT: ColumnName := 97
  const ORDER_ID: ColumnName := 98
  const EXTERNAL_PRODUCT_ID: ColumnName := 99
  const EXTERNAL_VARIANT_ID: ColumnName := 100
  const UNIT_PRICE: ColumnName := 101
  const DISCOUNT_AMOUNT: ColumnName := 102
  const LINE_TOTAL: ColumnName := 103
  const INTEGRATION_CONNECTION_ID: ColumnName := 104
  const TIMEZONE_OFFSET_HOURS_UTC: ColumnName := 105
  const TITLE: ColumnName := 106
  const BODY: ColumnName := 107
  const CALL_TO_ACTION: ColumnName := 108
  const THUMBNAIL_URL: ColumnName := 109
  const CREATED_TIME: ColumnName := 110
  const UPDATED_TIME: ColumnName := 111
  const AD_ACCOUNT_ID: ColumnName := 112
  const OBJECTIVE: ColumnName := 113
  const BUYING_TYPE: ColumnName := 114
  const CAMPAIGN_ID: ColumnName := 115
  const OPTIMIZATION_GOAL: ColumnName := 116
  const BILLING_EVENT: ColumnName := 117
  const AD_SET_ID: ColumnName := 118
  const CREATIVE_ID: ColumnName := 119
  const AD_ID: ColumnName := 120
  const DATE: ColumnName := 121
  const GRAIN: ColumnName := 122
  const IMPRESSIONS: ColumnName := 123
  const REACH: ColumnName := 124
  const FREQUENCY: ColumnName := 125
  const CLICKS: ColumnName := 126
  const LINK_CLICKS: ColumnName := 127
  const LANDING_PAGE_VIEWS: ColumnName := 128
  const SPEND: ColumnName := 129
  const CONVERSIONS: ColumnName := 130
  const CONVERSION_VALUE: ColumnName := 131
  const ORIGINAL_URL: ColumnName := 132
  const NORMALIZED_URL: ColumnName := 133
  const RESEARCH_PROJECT_ID: ColumnName := 134
  const SNAPSHOT_ID: ColumnName := 135
  const SOURCE_ID: ColumnName := 136
  const MODE: ColumnName := 137
  const MAX_PAGES: ColumnName := 138
  const MAX_DEPTH: ColumnName := 139
  const SAME_DOMAIN: ColumnName := 140
  const REFRESH: ColumnName := 141
  const REQUESTED_URLS: ColumnName := 142
  const PAGES_COLLECTED: ColumnName := 143
  const CHANGE_STATUS: ColumnName := 144
  const ATTEMPTS: ColumnName := 145
  const ERROR: ColumnName := 146
  const COMPLETED_AT: ColumnName := 147
  const IDEMPOTENCY_KEY: ColumnName := 148
  const CREATED_BY: ColumnName := 149
  const COLLECTION_JOB_ID: ColumnName := 150
  const HTTP_STATUS: ColumnName := 151
  const CONTENT_TYPE: ColumnName := 152
  const CANONICAL_URL: ColumnName := 153
  const CONTENT_HASH: ColumnName := 154
  const CONTENT: ColumnName := 155
  const METADATA_JSON: ColumnName := 156
  const RESPONSE_SIZE: ColumnName := 157
  const DURATION_MS: ColumnName := 158
  const DEPTH: ColumnName := 159
  const RETRIEVED_AT: ColumnName := 160
  const CREATIVE_TEST_ID: ColumnName := 161
  const CREATIVE_TEST_EXTERNAL_REF: ColumnName := 162
  const SOURCE_ACTION_DRAFT_ID: ColumnName := 163
  const SOURCE_OPPORTUNITY_ID: ColumnName := 164
  const SOURCE_PLAN_FINGERPRINT: ColumnName := 165
  const PREVIOUS_STATUS: ColumnName := 166
  const NEW_STATUS: ColumnName := 167
  const ACTIVATED_BY: ColumnName := 168

  /** Indexes and unique constraints, which share one name space per schema in PostgreSQL. */
  newtype RelationName = n: int | 0 <= n

  const UQ_USERS_EMAIL: RelationName := 0
  const IX_USERS_EMAIL: RelationName := 1
  const UQ_ORGANIZATIONS_SLUG: RelationName := 2
  const IX_ORGANIZATIONS_SLUG: RelationName := 3
  const UQ_ROLES_ORGANIZATION_ID_NAME: RelationName := 4
  const IX_ROLES_ORGANIZATION_ID: RelationName := 5
  const UQ_MEMBERSHIPS_USER_ID_ORGANIZATION_ID: RelationName := 6
  const IX_MEMBERSHIPS_ORGANIZATION_ID: RelationName := 7
  const IX_MEMBERSHIPS_ROLE_ID: RelationName := 8
  const UQ_BUSINESSES_ORGANIZATION_ID_NAME: RelationName := 9
  const IX_BUSINESSES_ORGANIZATION_ID: RelationName := 10
  const IX_BUSINESSES_MANAGED_BY_ORGANIZATION_ID: RelationName := 11
  const UQ_INVITATIONS_ORGANIZATION_ID_EMAIL: RelationName := 12
  const UQ_INVITATIONS_TOKEN_HASH: RelationName := 13
  const IX_INVITATIONS_ORGANIZATION_ID: RelationName := 14
  const IX_INVITATIONS_EMAIL: RelationName := 15
  const UQ_BUSINESS_PROFILES_BUSINESS_ID: RelationName := 16
  const IX_BUSINESS_PROFILES_BUSINESS_ID: RelationName := 17
  const IX_PRODUCTS_BUSINESS_ID: RelationName := 18
  const UQ_PRODUCTS_BUSINESS_SKU: RelationName := 19
  const IX_PRODUCT_PRICES_PRODUCT_ID: RelationName := 20
  const IX_PRODUCT_PRICES_EFFECTIVE_FROM: RelationName := 21
  const IX_PRODUCT_COSTS_PRODUCT_ID: RelationName := 22
  const IX_PRODUCT_COSTS_EFFECTIVE_FROM: RelationName := 23
  const IX_SHIPPING_RULES_BUSINESS_ID: RelationName := 24
  const IX_DISCOUNTS_BUSINESS_ID: RelationName := 25
  const IX_BUNDLES_BUSINESS_ID: RelationName := 26
  const UQ_BUNDLE_ITEMS_BUNDLE_ID_PRODUCT_ID: RelationName := 27
  const IX_BUNDLE_ITEMS_BUNDLE_ID: RelationName := 28
  const IX_BUNDLE_ITEMS_PRODUCT_ID: RelationName := 29
  const IX_INVENTORY_SNAPSHOTS_PRODUCT_ID: RelationName := 30
  const IX_INVENTORY_SNAPSHOTS_RECORDED_AT: RelationName := 31
  const IX_BUSINESS_GOALS_BUSINESS_ID: RelationName := 32
  const IX_BUSINESS_GOALS_PERIOD_START: RelationName := 33
  const UQ_PRODUCTS_BUSINESS_EXTERNAL_ID: RelationName := 34
  const UQ_INTEGRATION_CONNECTIONS_BUSINESS_ID_PROVIDER: RelationName := 35
  const IX_INTEGRATION_CONNECTIONS_BUSINESS_ID: RelationName := 36
  const UQ_INTEGRATION_CREDENTIALS_CONNECTION_ID: RelationName := 37
  const IX_SYNC_RUNS_CONNECTION_ID_RESOURCE_TYPE: RelationName := 38
  const IX_WEBHOOK_EVENTS_PROVIDER: RelationName := 39
  const UQ_WEBHOOK_EVENTS_PROVIDER_EXTERNAL_EVENT_ID: RelationName := 40
  const UQ_CUSTOMERS_BUSINESS_ID_EXTERNAL_ID: RelationName := 41
  const IX_CUSTOMERS_BUSINESS_ID: RelationName := 42
  const UQ_ORDERS_BUSINESS_ID_SOURCE_EXTERNAL_ID: RelationName := 43
  const IX_ORDERS_BUSINESS_ID: RelationName := 44
  const IX_ORDERS_CUSTOMER_ID: RelationName := 45
  const IX_ORDERS_BUSINESS_ID_ORDERED_AT: RelationName := 46
  const IX_ORDER_ITEMS_ORDER_ID: RelationName := 47
  const IX_ORDER_ITEMS_PRODUCT_ID: RelationName := 48
  const UQ_INTEGRATION_CONNECTIONS_BUSINESS_PROVIDER_ACCOUNT: RelationName := 49
  const IX_AD_ACCOUNTS_BUSINESS_ID: RelationName := 50
  const UQ_AD_ACCOUNTS_BUSINESS_EXTERNAL_ID: RelationName := 51
  const UQ_AD_ACCOUNTS_CONNECTION_ID: RelationName := 52
  const IX_CREATIVES_BUSINESS_ID: RelationName := 53
  const UQ_CREATIVES_BUSINESS_PROVIDER_EXTERNAL_ID: RelationName := 54
  const IX_CAMPAIGNS_BUSINESS_ID: RelationName := 55
  const IX_CAMPAIGNS_AD_ACCOUNT_ID: RelationName := 56
  const UQ_CAMPAIGNS_BUSINESS_ACCOUNT_EXTERNAL_ID: RelationName := 57
  const IX_AD_SETS_BUSINESS_ID: RelationName := 58
  const IX_AD_SETS_AD_ACCOUNT_ID: RelationName := 59
  const IX_AD_SETS_CAMPAIGN_ID: RelationName := 60
  const UQ_AD_SETS_BUSINESS_ACCOUNT_EXTERNAL_ID: RelationName := 61
  const IX_ADS_BUSINESS_ID: RelationName := 62
  const IX_ADS_AD_ACCOUNT_ID: RelationName := 63
  const IX_ADS_CAMPAIGN_ID: RelationName := 64
  const IX_ADS_AD_SET_ID: RelationName := 65
  const UQ_ADS_BUSINESS_ACCOUNT_EXTERNAL_ID: RelationName := 66
  const IX_AD_INSIGHTS_BUSINESS_ID: RelationName := 67
  const IX_AD_INSIGHTS_ACCOUNT_DATE: RelationName := 68
  const UQ_AD_INSIGHTS_BUSINESS_ACCOUNT_HIERARCHY: RelationName := 69
  const IX_AD_INSIGHTS_CAMPAIGN_ID: RelationName := 70
  const IX_AD_INSIGHTS_AD_SET_ID: RelationName := 71
  const IX_AD_INSIGHTS_AD_ID: RelationName := 72
  const IX_AD_INSIGHTS_BUSINESS_DATE: RelationName := 73
  const IX_RESEARCH_EVIDENCE_PROJECT: RelationName := 74
  const IX_RESEARCH_EVIDENCE_SNAPSHOT: RelationName := 75
  const IX_RESEARCH_COLLECTION_JOBS_BUSINESS_CREATED: RelationName := 76
  const IX_RESEARCH_COLLECTION_JOBS_PROJECT_STATUS: RelationName := 77
  const IX_RESEARCH_COLLECTION_JOBS_SOURCE_CREATED: RelationName := 78
  const UQ_RESEARCH_COLLECTION_IDEMPOTENCY: RelationName := 79
  const UQ_RESEARCH_COLLECTION_PAGE_URL: RelationName := 80
  const IX_RESEARCH_COLLECTION_PAGES_JOB: RelationName := 81
  const IX_RESEARCH_COLLECTION_PAGES_SOURCE: RelationName := 82
  const IX_CREATIVE_TEST_ACTIVATIONS_TEST_CREATED: RelationName := 83
  const IX_CREATIVE_TEST_ACTIVATIONS_BUSINESS_CREATED: RelationName := 84

  /** Checks and foreign keys, named per table; inline references get PostgreSQL's default name. */
  newtype ConstraintName = n: int | 0 <= n

  const CK_ORGANIZATIONS_TYPE: ConstraintName := 0
  const FK_ROLES_ORGANIZATIONS_ORGANIZATION_ID: ConstraintName := 1
  const FK_MEMBERSHIPS_USERS_USER_ID: ConstraintName := 2
  const FK_MEMBERSHIPS_ORGANIZATIONS_ORGANIZATION_ID: ConstraintName := 3
  const FK_MEMBERSHIPS_ROLES_ROLE_ID: ConstraintName := 4
  const CK_MEMBERSHIPS_STATUS: ConstraintName := 5
  const FK_BUSINESSES_ORGANIZATIONS_ORGANIZATION_ID: ConstraintName := 6
  const FK_BUSINESSES_ORGANIZATIONS_MANAGED_BY_ORGANIZATION_ID: ConstraintName := 7
  const CK_BUSINESSES_ONBOARDING_STATUS: ConstraintName := 8
  const FK_INVITATIONS_ORGANIZATIONS_ORGANIZATION_ID: ConstraintName := 9
  const FK_INVITATIONS_ROLES_ROLE_ID: ConstraintName := 10
  const FK_BUSINESS_PROFILES_BUSINESSES_BUSINESS_ID: ConstraintName := 11
  const FK_PRODUCTS_BUSINESSES_BUSINESS_ID: ConstraintName := 12
  const CK_PRODUCTS_PRODUCT_STATUS: ConstraintName := 13
  const FK_PRODUCT_PRICES_PRODUCTS_PRODUCT_ID: ConstraintName := 14
  const CK_PRODUCT_PRICES_PRICE_NON_NEGATIVE: ConstraintName := 15
  const CK_PRODUCT_PRICES_PRICE_PERIOD: ConstraintName := 16
  const FK_PRODUCT_COSTS_PRODUCTS_PRODUCT_ID: ConstraintName := 17
  const CK_PRODUCT_COSTS_COGS_NON_NEGATIVE: ConstraintName := 18
  const CK_PRODUCT_COSTS_PACKAGING_NON_NEGATIVE: ConstraintName := 19
  const CK_PRODUCT_COSTS_PAYMENT_FEE_FIXED_NON_NEGATIVE: ConstraintName := 20
  const CK_PRODUCT_COSTS_PAYMENT_FEE_PERCENT_RANGE: ConstraintName := 21
  const CK_PRODUCT_COSTS_COST_PERIOD: ConstraintName := 22
  const FK_SHIPPING_RULES_BUSINESSES_BUSINESS_ID: ConstraintName := 23
  const CK_SHIPPING_RULES_SHIPPING_COST_NON_NEGATIVE: ConstraintName := 24
  const CK_SHIPPING_RULES_SHIPPING_CUSTOMER_PRICE_NON_NEGATIVE: ConstraintName := 25
  const CK_SHIPPING_RULES_SHIPPING_FREE_THRESHOLD_NON_NEGATIVE: ConstraintName := 26
  const FK_DISCOUNTS_BUSINESSES_BUSINESS_ID: ConstraintName := 27
  const CK_DISCOUNTS_DISCOUNT_TYPE: ConstraintName := 28
  const CK_DISCOUNTS_DISCOUNT_VALUE_POSITIVE: ConstraintName := 29
  const CK_DISCOUNTS_DISCOUNT_PERCENTAGE_MAX: ConstraintName := 30
  const CK_DISCOUNTS_DISCOUNT_MINIMUM_ORDER_VALUE_NON_NEGATIVE: ConstraintName := 31
  const CK_DISCOUNTS_DISCOUNT_MAXIMUM_DISCOUNT_POSITIVE: ConstraintName := 32
  const CK_DISCOUNTS_DISCOUNT_PERIOD: ConstraintName := 33
  const FK_BUNDLES_BUSINESSES_BUSINESS_ID: ConstraintName := 34
  const CK_BUNDLES_BUNDLE_PRICE_NON_NEGATIVE: ConstraintName := 35
  const FK_BUNDLE_ITEMS_BUNDLES_BUNDLE_ID: ConstraintName := 36
  const FK_BUNDLE_ITEMS_PRODUCTS_PRODUCT_ID: ConstraintName := 37
  const CK_BUNDLE_ITEMS_BUNDLE_ITEM_QUANTITY_POSITIVE: ConstraintName := 38
  const FK_INVENTORY_SNAPSHOTS_PRODUCTS_PRODUCT_ID: ConstraintName := 39
  const CK_INVENTORY_SNAPSHOTS_INVENTORY_QUANTITY_NON_NEGATIVE: ConstraintName := 40
  const CK_INVENTORY_SNAPSHOTS_INVENTORY_SOURCE: ConstraintName := 41
  const FK_BUSINESS_GOALS_BUSINESSES_BUSINESS_ID: ConstraintName := 42
  const CK_BUSINESS_GOALS_GOAL_PERIOD: ConstraintName := 43
  const CK_BUSINESS_GOALS_GOAL_REVENUE_NON_NEGATIVE: ConstraintName := 44
  const CK_BUSINESS_GOALS_GOAL_PROFIT_NON_NEGATIVE: ConstraintName := 45
  const CK_BUSINESS_GOALS_GOAL_AD_BUDGET_POSITIVE: ConstraintName := 46
  const CK_BUSINESS_GOALS_GOAL_MAX_CPA_POSITIVE: ConstraintName := 47
  const CK_BUSINESS_GOALS_GOAL_ROAS_POSITIVE: ConstraintName := 48
  const FK_INTEGRATION_CONNECTIONS_BUSINESSES_BUSINESS_ID: ConstraintName := 49
  const CK_INTEGRATION_CONNECTIONS_INTEGRATION_CONNECTION_STATUS: ConstraintName := 50
  const FK_CREDENTIALS_CONNECTION_ID: ConstraintName := 51
  const FK_SYNC_RUNS_INTEGRATION_CONNECTIONS_CONNECTION_ID: ConstraintName := 52
  const CK_SYNC_RUNS_SYNC_RUN_STATUS: ConstraintName := 53
  const CK_SYNC_RUNS_SYNC_RUN_RECORDS_PROCESSED_NON_NEGATIVE: ConstraintName := 54
  const CK_WEBHOOK_EVENTS_WEBHOOK_EVENT_STATUS: ConstraintName := 55
  const FK_CUSTOMERS_BUSINESSES_BUSINESS_ID: ConstraintName := 56
  const FK_ORDERS_BUSINESSES_BUSINESS_ID: ConstraintName := 57
  const FK_ORDERS_CUSTOMERS_CUSTOMER_ID: ConstraintName := 58
  const CK_ORDERS_ORDER_FINANCIAL_STATUS: ConstraintName := 59
  const CK_ORDERS_ORDER_FULFILLMENT_STATUS: ConstraintName := 60
  const CK_ORDERS_ORDER_SUBTOTAL_NON_NEGATIVE: ConstraintName := 61
  const CK_ORDERS_ORDER_DISCOUNT_TOTAL_NON_NEGATIVE: ConstraintName := 62
  const CK_ORDERS_ORDER_SHIPPING_REVENUE_NON_NEGATIVE: ConstraintName := 63
  const CK_ORDERS_ORDER_TAX_TOTAL_NON_NEGATIVE: ConstraintName := 64
  const CK_ORDERS_ORDER_TOTAL_NON_NEGATIVE: ConstraintName := 65
  const CK_ORDERS_ORDER_CURRENCY_FORMAT: ConstraintName := 66
  const FK_ORDER_ITEMS_ORDERS_ORDER_ID: ConstraintName := 67
  const FK_ORDER_ITEMS_PRODUCTS_PRODUCT_ID: ConstraintName := 68
  const CK_ORDER_ITEMS_ORDER_ITEM_QUANTITY_POSITIVE: ConstraintName := 69
  const CK_ORDER_ITEMS_ORDER_ITEM_UNIT_PRICE_NON_NEGATIVE: ConstraintName := 70
  const CK_ORDER_ITEMS_ORDER_ITEM_DISCOUNT_NON_NEGATIVE: ConstraintName := 71
  const CK_ORDER_ITEMS_ORDER_ITEM_LINE_TOTAL_NON_NEGATIVE: ConstraintName := 72
  const FK_AD_ACCOUNTS_BUSINESSES_BUSINESS_ID: ConstraintName := 73
  const FK_AD_ACCOUNTS_CONNECTIONS_CONNECTION_ID: ConstraintName := 74
  const CK_AD_ACCOUNTS_CURRENCY_FORMAT: ConstraintName := 75
  const FK_CREATIVES_BUSINESSES_BUSINESS_ID: ConstraintName := 76
  const FK_CAMPAIGNS_BUSINESSES_BUSINESS_ID: ConstraintName := 77
  const FK_CAMPAIGNS_AD_ACCOUNTS_AD_ACCOUNT_ID: ConstraintName := 78
  const FK_AD_SETS_BUSINESSES_BUSINESS_ID: ConstraintName := 79
  const FK_AD_SETS_AD_ACCOUNTS_AD_ACCOUNT_ID: ConstraintName := 80
  const FK_AD_SETS_CAMPAIGNS_CAMPAIGN_ID: ConstraintName := 81
  const FK_ADS_BUSINESSES_BUSINESS_ID: ConstraintName := 82
  const FK_ADS_AD_ACCOUNTS_AD_ACCOUNT_ID: ConstraintName := 83
  const FK_ADS_CAMPAIGNS_CAMPAIGN_ID: ConstraintName := 84
  const FK_ADS_AD_SETS_AD_SET_ID: ConstraintName := 85
  const FK_ADS_CREATIVES_CREATIVE_ID: ConstraintName := 86
  const FK_AD_INSIGHTS_BUSINESSES_BUSINESS_ID: ConstraintName := 87
  const FK_AD_INSIGHTS_AD_ACCOUNTS_AD_ACCOUNT_ID: ConstraintName := 88
  const FK_AD_INSIGHTS_CAMPAIGNS_CAMPAIGN_ID: ConstraintName := 89
  const FK_AD_INSIGHTS_AD_SETS_AD_SET_ID: ConstraintName := 90
  const FK_AD_INSIGHTS_ADS_AD_ID: ConstraintName := 91
  const CK_AD_INSIGHTS_IMPRESSIONS_NON_NEGATIVE: ConstraintName := 92
  const CK_AD_INSIGHTS_CLICKS_NON_NEGATIVE: ConstraintName := 93
  const CK_AD_INSIGHTS_SPEND_NON_NEGATIVE: ConstraintName := 94
  const CK_AD_INSIGHTS_CONVERSION_VALUE_NON_NEGATIVE: ConstraintName := 95
  const CK_AD_INSIGHTS_CURRENCY_FORMAT: ConstraintName := 96
  const RESEARCH_EVIDENCE_RESEARCH_PROJECT_ID_FKEY: ConstraintName := 97
  const RESEARCH_EVIDENCE_SNAPSHOT_ID_FKEY: ConstraintName := 98
  const RESEARCH_COLLECTION_JOBS_ORGANIZATION_ID_FKEY: ConstraintName := 99
  const RESEARCH_COLLECTION_JOBS_BUSINESS_ID_FKEY: ConstraintName := 100
  const RESEARCH_COLLECTION_JOBS_RESEARCH_PROJECT_ID_FKEY: ConstraintName := 101
  const RESEARCH_COLLECTION_JOBS_SOURCE_ID_FKEY: ConstraintName := 102
  const RESEARCH_COLLECTION_PAGES_COLLECTION_JOB_ID_FKEY: ConstraintName := 103
  const RESEARCH_COLLECTION_PAGES_SOURCE_ID_FKEY: ConstraintName := 104
  const CREATIVE_TEST_ACTIVATIONS_ORGANIZATION_ID_FKEY: ConstraintName := 105
  const CREATIVE_TEST_ACTIVATIONS_BUSINESS_ID_FKEY: ConstraintName := 106
  const CREATIVE_TEST_ACTIVATIONS_ACTIVATED_BY_FKEY: ConstraintName := 107
  const CK_ACTIVATION_PREVIOUS_STATUS_ALLOWED: ConstraintName := 108
  const CK_ACTIVATION_NEW_STATUS_ALLOWED: ConstraintName := 109
  const CK_CREATIVE_TESTS_STATUS_ALLOWED: ConstraintName := 110

  newtype ViewName = n: int | 0 <= n

  const METRIC_FACTS: ViewName := 0
}
