/** Migration 0006: the metric_facts view and its roll-up indexes. */
module Migration0006 {
  import opened Common
  import opened SchemaNames
  import opened Ddl

  /** The columns that the three branches of the view read. */
  function InsightColumns(): set<ColumnName> {
    {
      BUSINESS_ID, PROVIDER, ID, AD_ACCOUNT_ID, CAMPAIGN_ID, AD_SET_ID, AD_ID, DATE, CURRENCY, IMPRESSIONS,
      REACH, CLICKS, LINK_CLICKS, LANDING_PAGE_VIEWS, SPEND, CONVERSIONS, CONVERSION_VALUE
    }
  }

  function OrderColumns(): set<ColumnName> {
    {
      ID, BUSINESS_ID, SOURCE, ORDERED_AT, CURRENCY, TOTAL, FINANCIAL_STATUS
    }
  }

  function ItemColumns(): set<ColumnName> {
    {
      ID, ORDER_ID, PRODUCT_ID, QUANTITY, LINE_TOTAL
    }
  }

  function Reads(t: TableName, columns: set<ColumnName>): set<(TableName, ColumnName)> {
    set c | c in columns :: (t, c)
  }

  function MetricFactsView(): View {
    View(Reads(AD_INSIGHTS, InsightColumns()) + Reads(ORDERS, OrderColumns()) + Reads(ORDER_ITEMS, ItemColumns()))
  }

  function Upgrade(): seq<Statement> {
    [
      CreateView(METRIC_FACTS, MetricFactsView()),
      CreateIndex(AD_INSIGHTS, IX_AD_INSIGHTS_CAMPAIGN_ID, Index([Plain(CAMPAIGN_ID)], false, None)),
      CreateIndex(AD_INSIGHTS, IX_AD_INSIGHTS_AD_SET_ID, Index([Plain(AD_SET_ID)], false, None)),
      CreateIndex(AD_INSIGHTS, IX_AD_INSIGHTS_AD_ID, Index([Plain(AD_ID)], false, None)),
      CreateIndex(AD_INSIGHTS, IX_AD_INSIGHTS_BUSINESS_DATE, Index([Plain(BUSINESS_ID), Plain(DATE)], false, None))
    ]
  }

  function Downgrade(): seq<Statement> {
    [
      DropIndex(AD_INSIGHTS, IX_AD_INSIGHTS_BUSINESS_DATE),
      DropIndex(AD_INSIGHTS, IX_AD_INSIGHTS_AD_ID),
      DropIndex(AD_INSIGHTS, IX_AD_INSIGHTS_AD_SET_ID),
      DropIndex(AD_INSIGHTS, IX_AD_INSIGHTS_CAMPAIGN_ID),
      DropViewIfExists(METRIC_FACTS)
    ]
  }
}
