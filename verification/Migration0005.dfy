/** Migration 0005: Meta ads: the ad hierarchy, daily insights, several accounts per business. */
module Migration0005 {
  import opened Common
  import opened SchemaNames
  import opened Ddl

  function AdAccountsTable(): Table {
    Table(
      [
        Req(ID, Uuid), Req(BUSINESS_ID, Uuid), Req(INTEGRATION_CONNECTION_ID, Uuid),
        Req(EXTERNAL_ID, Varchar(50)), Opt(NAME, Varchar(255)), Def(CURRENCY, Varchar(3), "USD"),
        Opt(TIMEZONE, Varchar(100)), Opt(TIMEZONE_OFFSET_HOURS_UTC, Numeric(8, 4)),
        Def(STATUS, Varchar(20), "ACTIVE"), Stamp(CREATED_AT), Stamp(UPDATED_AT)
      ],
      [ID],
      map[],
      map[
        CK_AD_ACCOUNTS_CURRENCY_FORMAT := CurrencyCode(CURRENCY)],
      map[
        FK_AD_ACCOUNTS_BUSINESSES_BUSINESS_ID := ForeignKey([BUSINESS_ID], BUSINESSES, [ID], Cascade),
        FK_AD_ACCOUNTS_CONNECTIONS_CONNECTION_ID := ForeignKey([INTEGRATION_CONNECTION_ID], INTEGRATION_CONNECTIONS,
          [ID], Cascade)],
      map[])
  }

  function CreativesTable(): Table {
    Table(
      [
        Req(ID, Uuid), Req(BUSINESS_ID, Uuid), Req(PROVIDER, Varchar(20)), Req(EXTERNAL_ID, Varchar(50)),
        Opt(NAME, Varchar(255)), Opt(TYPE, Varchar(50)), Opt(TITLE, Varchar(255)), Opt(BODY, TextType),
        Opt(CALL_TO_ACTION, Varchar(50)), Opt(THUMBNAIL_URL, TextType), Opt(CREATED_TIME, Timestamptz),
        Opt(UPDATED_TIME, Timestamptz), Stamp(CREATED_AT), Stamp(UPDATED_AT)
      ],
      [ID],
      map[],
      map[],
      map[
        FK_CREATIVES_BUSINESSES_BUSINESS_ID := ForeignKey([BUSINESS_ID], BUSINESSES, [ID], Cascade)],
      map[])
  }

  function CampaignsTable(): Table {
    Table(
      [
        Req(ID, Uuid), Req(BUSINESS_ID, Uuid), Req(AD_ACCOUNT_ID, Uuid), Req(EXTERNAL_ID, Varchar(50)),
        Req(NAME, Varchar(255)), Req(STATUS, Varchar(30)), Opt(OBJECTIVE, Varchar(50)),
        Opt(BUYING_TYPE, Varchar(30)), Opt(CREATED_TIME, Timestamptz), Opt(UPDATED_TIME, Timestamptz),
        Stamp(CREATED_AT), Stamp(UPDATED_AT)
      ],
      [ID],
      map[],
      map[],
      map[
        FK_CAMPAIGNS_BUSINESSES_BUSINESS_ID := ForeignKey([BUSINESS_ID], BUSINESSES, [ID], Cascade),
        FK_CAMPAIGNS_AD_ACCOUNTS_AD_ACCOUNT_ID := ForeignKey([AD_ACCOUNT_ID], AD_ACCOUNTS, [ID], Cascade)],
      map[])
  }

  function AdSetsTable(): Table {
    Table(
      [
        Req(ID, Uuid), Req(BUSINESS_ID, Uuid), Req(AD_ACCOUNT_ID, Uuid), Opt(CAMPAIGN_ID, Uuid),
        Req(EXTERNAL_ID, Varchar(50)), Req(NAME, Varchar(255)), Req(STATUS, Varchar(30)),
        Opt(OPTIMIZATION_GOAL, Varchar(100)), Opt(BILLING_EVENT, Varchar(50)), Opt(CREATED_TIME, Timestamptz),
        Opt(UPDATED_TIME, Timestamptz), Stamp(CREATED_AT), Stamp(UPDATED_AT)
      ],
      [ID],
      map[],
      map[],
      map[
        FK_AD_SETS_BUSINESSES_BUSINESS_ID := ForeignKey([BUSINESS_ID], BUSINESSES, [ID], Cascade),
        FK_AD_SETS_AD_ACCOUNTS_AD_ACCOUNT_ID := ForeignKey([AD_ACCOUNT_ID], AD_ACCOUNTS, [ID], Cascade),
        FK_AD_SETS_CAMPAIGNS_CAMPAIGN_ID := ForeignKey([CAMPAIGN_ID], CAMPAIGNS, [ID], SetNull)],
      map[])
  }

  function AdsTable(): Table {
    Table(
      [
        Req(ID, Uuid), Req(BUSINESS_ID, Uuid), Req(AD_ACCOUNT_ID, Uuid), Opt(CAMPAIGN_ID, Uuid),
        Opt(AD_SET_ID, Uuid), Opt(CREATIVE_ID, Uuid), Req(EXTERNAL_ID, Varchar(50)), Req(NAME, Varchar(255)),
        Req(STATUS, Varchar(30)), Opt(CREATED_TIME, Timestamptz), Opt(UPDATED_TIME, Timestamptz),
        Stamp(CREATED_AT), Stamp(UPDATED_AT)
      ],
      [ID],
      map[],
      map[],
      map[
        FK_ADS_BUSINESSES_BUSINESS_ID := ForeignKey([BUSINESS_ID], BUSINESSES, [ID], Cascade),
        FK_ADS_AD_ACCOUNTS_AD_ACCOUNT_ID := ForeignKey([AD_ACCOUNT_ID], AD_ACCOUNTS, [ID], Cascade),
        FK_ADS_CAMPAIGNS_CAMPAIGN_ID := ForeignKey([CAMPAIGN_ID], CAMPAIGNS, [ID], SetNull),
        FK_ADS_AD_SETS_AD_SET_ID := ForeignKey([AD_SET_ID], AD_SETS, [ID], SetNull),
        FK_ADS_CREATIVES_CREATIVE_ID := ForeignKey([CREATIVE_ID], CREATIVES, [ID], SetNull)],
      map[])
  }

  function AdInsightsTable(): Table {
    Table(
      [
        Req(ID, Uuid), Req(BUSINESS_ID, Uuid), Req(AD_ACCOUNT_ID, Uuid), Opt(CAMPAIGN_ID, Uuid),
        Opt(AD_SET_ID, Uuid), Opt(AD_ID, Uuid), Req(PROVIDER, Varchar(20)), Req(DATE, DateType),
        Def(GRAIN, Varchar(10), "daily"), Req(CURRENCY, Varchar(3)), Def(IMPRESSIONS, Integer, "0"),
        Opt(REACH, Integer), Opt(FREQUENCY, Numeric(14, 4)), Def(CLICKS, Integer, "0"),
        Opt(LINK_CLICKS, Integer), Opt(LANDING_PAGE_VIEWS, Integer), Def(SPEND, Numeric(14, 2), "0"),
        Opt(CONVERSIONS, Integer), Opt(CONVERSION_VALUE, Numeric(14, 2)), Stamp(CREATED_AT), Stamp(UPDATED_AT)
      ],
      [ID],
      map[],
      map[
        CK_AD_INSIGHTS_IMPRESSIONS_NON_NEGATIVE := AtLeastZero(IMPRESSIONS),
        CK_AD_INSIGHTS_CLICKS_NON_NEGATIVE := AtLeastZero(CLICKS),
        CK_AD_INSIGHTS_SPEND_NON_NEGATIVE := AtLeastZero(SPEND),
        CK_AD_INSIGHTS_CONVERSION_VALUE_NON_NEGATIVE := NullOr(CONVERSION_VALUE, AtLeastZero(CONVERSION_VALUE)),
        CK_AD_INSIGHTS_CURRENCY_FORMAT := CurrencyCode(CURRENCY)],
      map[
        FK_AD_INSIGHTS_BUSINESSES_BUSINESS_ID := ForeignKey([BUSINESS_ID], BUSINESSES, [ID], Cascade),
        FK_AD_INSIGHTS_AD_ACCOUNTS_AD_ACCOUNT_ID := ForeignKey([AD_ACCOUNT_ID], AD_ACCOUNTS, [ID], Cascade),
        FK_AD_INSIGHTS_CAMPAIGNS_CAMPAIGN_ID := ForeignKey([CAMPAIGN_ID], CAMPAIGNS, [ID], SetNull),
        FK_AD_INSIGHTS_AD_SETS_AD_SET_ID := ForeignKey([AD_SET_ID], AD_SETS, [ID], SetNull),
        FK_AD_INSIGHTS_ADS_AD_ID := ForeignKey([AD_ID], ADS, [ID], SetNull)],
      map[])
  }

  /** The one-account-per-provider rule, replaced by a partial unique index with the account. */
  function SingleAccountKey(): seq<ColumnName> { [BUSINESS_ID, PROVIDER] }

  function AccountIndex(): Index {
    Index([Plain(BUSINESS_ID), Plain(PROVIDER), Plain(EXTERNAL_ACCOUNT_ID)], true, Some(EXTERNAL_ACCOUNT_ID))
  }

  function WidenAccountKey(): seq<Statement> {
    [
      CreateIndex(INTEGRATION_CONNECTIONS, UQ_INTEGRATION_CONNECTIONS_BUSINESS_PROVIDER_ACCOUNT, AccountIndex())
    ]
  }

  function MakeAdAccounts(): seq<Statement> {
    [
      CreateTable(AD_ACCOUNTS, AdAccountsTable()),
      CreateIndex(AD_ACCOUNTS, IX_AD_ACCOUNTS_BUSINESS_ID, Index([Plain(BUSINESS_ID)], false, None)),
      CreateIndex(AD_ACCOUNTS, UQ_AD_ACCOUNTS_BUSINESS_EXTERNAL_ID,
        Index([Plain(BUSINESS_ID), Plain(EXTERNAL_ID)], true, None)),
      CreateIndex(AD_ACCOUNTS, UQ_AD_ACCOUNTS_CONNECTION_ID, Index([Plain(INTEGRATION_CONNECTION_ID)], true, None))
    ]
  }

  function MakeCreatives(): seq<Statement> {
    [
      CreateTable(CREATIVES, CreativesTable()),
      CreateIndex(CREATIVES, IX_CREATIVES_BUSINESS_ID, Index([Plain(BUSINESS_ID)], false, None)),
      CreateIndex(CREATIVES, UQ_CREATIVES_BUSINESS_PROVIDER_EXTERNAL_ID,
        Index([Plain(BUSINESS_ID), Plain(PROVIDER), Plain(EXTERNAL_ID)], true, None))
    ]
  }

  function MakeCampaigns(): seq<Statement> {
    [
      CreateTable(CAMPAIGNS, CampaignsTable()),
      CreateIndex(CAMPAIGNS, IX_CAMPAIGNS_BUSINESS_ID, Index([Plain(BUSINESS_ID)], false, None)),
      CreateIndex(CAMPAIGNS, IX_CAMPAIGNS_AD_ACCOUNT_ID, Index([Plain(AD_ACCOUNT_ID)], false, None)),
      CreateIndex(CAMPAIGNS, UQ_CAMPAIGNS_BUSINESS_ACCOUNT_EXTERNAL_ID,
        Index([Plain(BUSINESS_ID), Plain(AD_ACCOUNT_ID), Plain(EXTERNAL_ID)], true, None))
    ]
  }

  function MakeAdSets(): seq<Statement> {
    [
      CreateTable(AD_SETS, AdSetsTable()),
      CreateIndex(AD_SETS, IX_AD_SETS_BUSINESS_ID, Index([Plain(BUSINESS_ID)], false, None)),
      CreateIndex(AD_SETS, IX_AD_SETS_AD_ACCOUNT_ID, Index([Plain(AD_ACCOUNT_ID)], false, None)),
      CreateIndex(AD_SETS, IX_AD_SETS_CAMPAIGN_ID, Index([Plain(CAMPAIGN_ID)], false, None)),
      CreateIndex(AD_SETS, UQ_AD_SETS_BUSINESS_ACCOUNT_EXTERNAL_ID,
        Index([Plain(BUSINESS_ID), Plain(AD_ACCOUNT_ID), Plain(EXTERNAL_ID)], true, None))
    ]
  }

  function MakeAds(): seq<Statement> {
    [
      CreateTable(ADS, AdsTable()),
      CreateIndex(ADS, IX_ADS_BUSINESS_ID, Index([Plain(BUSINESS_ID)], false, None)),
      CreateIndex(ADS, IX_ADS_AD_ACCOUNT_ID, Index([Plain(AD_ACCOUNT_ID)], false, None)),
      CreateIndex(ADS, IX_ADS_CAMPAIGN_ID, Index([Plain(CAMPAIGN_ID)], false, None)),
      CreateIndex(ADS, IX_ADS_AD_SET_ID, Index([Plain(AD_SET_ID)], false, None)),
      CreateIndex(ADS, UQ_ADS_BUSINESS_ACCOUNT_EXTERNAL_ID,
        Index([Plain(BUSINESS_ID), Plain(AD_ACCOUNT_ID), Plain(EXTERNAL_ID)], true, None))
    ]
  }

  function MakeAdInsights(): seq<Statement> {
    [
      CreateTable(AD_INSIGHTS, AdInsightsTable()),
      CreateIndex(AD_INSIGHTS, IX_AD_INSIGHTS_BUSINESS_ID, Index([Plain(BUSINESS_ID)], false, None)),
      CreateIndex(AD_INSIGHTS, IX_AD_INSIGHTS_ACCOUNT_DATE, Index([Plain(AD_ACCOUNT_ID), Plain(DATE)], false, None)),
      CreateIndex(AD_INSIGHTS, UQ_AD_INSIGHTS_BUSINESS_ACCOUNT_HIERARCHY,
        Index([Plain(BUSINESS_ID), Plain(AD_ACCOUNT_ID), Plain(PROVIDER), Plain(DATE), Plain(GRAIN),
               Coalesced(CAMPAIGN_ID), Coalesced(AD_SET_ID), Coalesced(AD_ID)], true, None))
    ]
  }

  function Upgrade(): seq<Statement> {
    [DropUnique(INTEGRATION_CONNECTIONS, UQ_INTEGRATION_CONNECTIONS_BUSINESS_ID_PROVIDER)] + Additions()
  }

  function Additions(): seq<Statement> {
    WidenAccountKey() + MakeAdAccounts() + MakeCreatives() + MakeCampaigns() + MakeAdSets() + MakeAds() +
    MakeAdInsights()
  }

  function UnmakeAdInsights(): seq<Statement> {
    [
      DropIndex(AD_INSIGHTS, UQ_AD_INSIGHTS_BUSINESS_ACCOUNT_HIERARCHY),
      DropIndex(AD_INSIGHTS, IX_AD_INSIGHTS_ACCOUNT_DATE),
      DropIndex(AD_INSIGHTS, IX_AD_INSIGHTS_BUSINESS_ID),
      DropTable(AD_INSIGHTS)
    ]
  }

  function UnmakeAds(): seq<Statement> {
    [
      DropIndex(ADS, UQ_ADS_BUSINESS_ACCOUNT_EXTERNAL_ID),
      DropIndex(ADS, IX_ADS_AD_SET_ID),
      DropIndex(ADS, IX_ADS_CAMPAIGN_ID),
      DropIndex(ADS, IX_ADS_AD_ACCOUNT_ID),
      DropIndex(ADS, IX_ADS_BUSINESS_ID),
      DropTable(ADS)
    ]
  }

  function UnmakeAdSets(): seq<Statement> {
    [
      DropIndex(AD_SETS, UQ_AD_SETS_BUSINESS_ACCOUNT_EXTERNAL_ID),
      DropIndex(AD_SETS, IX_AD_SETS_CAMPAIGN_ID),
      DropIndex(AD_SETS, IX_AD_SETS_AD_ACCOUNT_ID),
      DropIndex(AD_SETS, IX_AD_SETS_BUSINESS_ID),
      DropTable(AD_SETS)
    ]
  }

  function UnmakeCampaigns(): seq<Statement> {
    [
      DropIndex(CAMPAIGNS, UQ_CAMPAIGNS_BUSINESS_ACCOUNT_EXTERNAL_ID),
      DropIndex(CAMPAIGNS, IX_CAMPAIGNS_AD_ACCOUNT_ID),
      DropIndex(CAMPAIGNS, IX_CAMPAIGNS_BUSINESS_ID),
      DropTable(CAMPAIGNS)
    ]
  }

  function UnmakeCreatives(): seq<Statement> {
    [
      DropIndex(CREATIVES, UQ_CREATIVES_BUSINESS_PROVIDER_EXTERNAL_ID),
      DropIndex(CREATIVES, IX_CREATIVES_BUSINESS_ID),
      DropTable(CREATIVES)
    ]
  }

  function UnmakeAdAccounts(): seq<Statement> {
    [
      DropIndex(AD_ACCOUNTS, UQ_AD_ACCOUNTS_CONNECTION_ID),
      DropIndex(AD_ACCOUNTS, UQ_AD_ACCOUNTS_BUSINESS_EXTERNAL_ID),
      DropIndex(AD_ACCOUNTS, IX_AD_ACCOUNTS_BUSINESS_ID),
      DropTable(AD_ACCOUNTS)
    ]
  }

  function UnwidenAccountKey(): seq<Statement> {
    [
      DropIndex(INTEGRATION_CONNECTIONS, UQ_INTEGRATION_CONNECTIONS_BUSINESS_PROVIDER_ACCOUNT)
    ]
  }

  function Downgrade(): seq<Statement> {
    Removals() +
    [AddUnique(INTEGRATION_CONNECTIONS, UQ_INTEGRATION_CONNECTIONS_BUSINESS_ID_PROVIDER, SingleAccountKey())]
  }

  function Removals(): seq<Statement> {
    UnmakeAdInsights() + UnmakeAds() + UnmakeAdSets() + UnmakeCampaigns() + UnmakeCreatives() +
    UnmakeAdAccounts() + UnwidenAccountKey()
  }
}
