/** Migration 0024: creative test activations and the status vocabulary. */
module Migration0024 {
  import opened Common
  import opened SchemaNames
  import opened Ddl

  function CreativeTestActivationsTable(): Table {
    Table(
      [
        Req(ID, Uuid), Req(ORGANIZATION_ID, Uuid), Req(BUSINESS_ID, Uuid), Req(CREATIVE_TEST_ID, Uuid),
        Req(CREATIVE_TEST_EXTERNAL_REF, Varchar(80)), Req(SOURCE_ACTION_DRAFT_ID, Uuid),
        Req(SOURCE_OPPORTUNITY_ID, Varchar(200)), Req(SOURCE_PLAN_FINGERPRINT, Varchar(64)),
        Req(PREVIOUS_STATUS, Varchar(20)), Req(NEW_STATUS, Varchar(20)), Opt(ACTIVATED_BY, Uuid),
        Stamp(CREATED_AT)
      ],
      [ID],
      map[],
      map[
        CK_ACTIVATION_PREVIOUS_STATUS_ALLOWED := OneOf(PREVIOUS_STATUS,
          ["draft", "active", "completed", "cancelled"]),
        CK_ACTIVATION_NEW_STATUS_ALLOWED := OneOf(NEW_STATUS, ["draft", "active", "completed", "cancelled"])],
      map[
        CREATIVE_TEST_ACTIVATIONS_ORGANIZATION_ID_FKEY := ForeignKey([ORGANIZATION_ID], ORGANIZATIONS, [ID], Cascade),
        CREATIVE_TEST_ACTIVATIONS_BUSINESS_ID_FKEY := ForeignKey([BUSINESS_ID], BUSINESSES, [ID], Cascade),
        CREATIVE_TEST_ACTIVATIONS_ACTIVATED_BY_FKEY := ForeignKey([ACTIVATED_BY], USERS, [ID], SetNull)],
      map[])
  }

  function MakeCreativeTestActivations(): seq<Statement> {
    [
      CreateTable(CREATIVE_TEST_ACTIVATIONS, CreativeTestActivationsTable()),
      CreateIndex(CREATIVE_TEST_ACTIVATIONS, IX_CREATIVE_TEST_ACTIVATIONS_TEST_CREATED,
        Index([Plain(CREATIVE_TEST_ID), Plain(CREATED_AT)], false, None)),
      CreateIndex(CREATIVE_TEST_ACTIVATIONS, IX_CREATIVE_TEST_ACTIVATIONS_BUSINESS_CREATED,
        Index([Plain(BUSINESS_ID), Plain(CREATED_AT)], false, None))
    ]
  }

  function NarrowStatus(): seq<Statement> {
    [
      AddCheck(CREATIVE_TESTS, CK_CREATIVE_TESTS_STATUS_ALLOWED,
        OneOf(STATUS, ["draft", "active", "completed", "cancelled"]))
    ]
  }

  function Upgrade(): seq<Statement> {
    MakeCreativeTestActivations() + NarrowStatus()
  }

  function FreeStatus(): seq<Statement> {
    [
      DropCheck(CREATIVE_TESTS, CK_CREATIVE_TESTS_STATUS_ALLOWED)
    ]
  }

  function UnmakeCreativeTestActivations(): seq<Statement> {
    [
      DropIndex(CREATIVE_TEST_ACTIVATIONS, IX_CREATIVE_TEST_ACTIVATIONS_BUSINESS_CREATED),
      DropIndex(CREATIVE_TEST_ACTIVATIONS, IX_CREATIVE_TEST_ACTIVATIONS_TEST_CREATED),
      DropTable(CREATIVE_TEST_ACTIVATIONS)
    ]
  }

  function Downgrade(): seq<Statement> {
    FreeStatus() + UnmakeCreativeTestActivations()
  }
}
