/** Migration 0011: research collection jobs and pages. */
module Migration0011 {
  import opened Common
  import opened SchemaNames
  import opened Ddl

  function ResearchCollectionJobsTable(): Table {
    Table(
      [
        Req(ID, Uuid), Req(ORGANIZATION_ID, Uuid), Req(BUSINESS_ID, Uuid), Req(RESEARCH_PROJECT_ID, Uuid),
        Opt(SOURCE_ID, Uuid), Req(PROVIDER, Varchar(40)), Req(MODE, Varchar(30)),
        Def(STATUS, Varchar(20), "queued"), Def(MAX_PAGES, Integer, "1"), Def(MAX_DEPTH, Integer, "0"),
        Def(SAME_DOMAIN, Boolean, "true"), Def(REFRESH, Boolean, "false"), Def(REQUESTED_URLS, Jsonb, "[]"),
        Def(PAGES_COLLECTED, Integer, "0"), Opt(CHANGE_STATUS, Varchar(20)), Def(ATTEMPTS, Integer, "0"),
        Opt(ERROR, TextType), Opt(STARTED_AT, Timestamptz), Opt(COMPLETED_AT, Timestamptz),
        Opt(IDEMPOTENCY_KEY, Varchar(255)), Opt(CREATED_BY, Uuid), Stamp(CREATED_AT), Stamp(UPDATED_AT)
      ],
      [ID],
      map[],
      map[],
      map[
        RESEARCH_COLLECTION_JOBS_ORGANIZATION_ID_FKEY := ForeignKey([ORGANIZATION_ID], ORGANIZATIONS, [ID], Cascade),
        RESEARCH_COLLECTION_JOBS_BUSINESS_ID_FKEY := ForeignKey([BUSINESS_ID], BUSINESSES, [ID], Cascade),
        RESEARCH_COLLECTION_JOBS_RESEARCH_PROJECT_ID_FKEY := ForeignKey([RESEARCH_PROJECT_ID], RESEARCH_PROJECTS,
          [ID], Cascade),
        RESEARCH_COLLECTION_JOBS_SOURCE_ID_FKEY := ForeignKey([SOURCE_ID], RESEARCH_SOURCES, [ID], SetNull)],
      map[])
  }

  function ResearchCollectionPagesTable(): Table {
    Table(
      [
        Req(ID, Uuid), Req(COLLECTION_JOB_ID, Uuid), Req(SOURCE_ID, Uuid), Req(ORIGINAL_URL, Varchar(2048)),
        Req(NORMALIZED_URL, Varchar(2048)), Req(HTTP_STATUS, Integer), Opt(CONTENT_TYPE, Varchar(255)),
        Opt(TITLE, Varchar(255)), Opt(CANONICAL_URL, Varchar(2048)), Req(CONTENT_HASH, Varchar(64)),
        Req(CONTENT, TextType), Def(METADATA_JSON, Jsonb, "{}"), Def(RESPONSE_SIZE, Integer, "0"),
        Def(DURATION_MS, Integer, "0"), Def(DEPTH, Integer, "0"), Def(RETRIEVED_AT, Timestamptz, "now()"),
        Stamp(CREATED_AT)
      ],
      [ID],
      map[],
      map[],
      map[
        RESEARCH_COLLECTION_PAGES_COLLECTION_JOB_ID_FKEY := ForeignKey([COLLECTION_JOB_ID],
          RESEARCH_COLLECTION_JOBS, [ID], Cascade),
        RESEARCH_COLLECTION_PAGES_SOURCE_ID_FKEY := ForeignKey([SOURCE_ID], RESEARCH_SOURCES, [ID], Cascade)],
      map[])
  }

  function WidenResearch(): seq<Statement> {
    [
      AddColumn(RESEARCH_SOURCES, Opt(ORIGINAL_URL, Varchar(2048)), map[]),
      AddColumn(RESEARCH_SOURCES, Opt(NORMALIZED_URL, Varchar(2048)), map[]),
      AddColumn(RESEARCH_EVIDENCE, Opt(RESEARCH_PROJECT_ID, Uuid),
        map[RESEARCH_EVIDENCE_RESEARCH_PROJECT_ID_FKEY :=
          ForeignKey([RESEARCH_PROJECT_ID], RESEARCH_PROJECTS, [ID], Cascade)]),
      AddColumn(RESEARCH_EVIDENCE, Opt(SNAPSHOT_ID, Uuid),
        map[RESEARCH_EVIDENCE_SNAPSHOT_ID_FKEY := ForeignKey([SNAPSHOT_ID], RESEARCH_SOURCE_SNAPSHOTS, [ID], SetNull)]),
      CreateIndex(RESEARCH_EVIDENCE, IX_RESEARCH_EVIDENCE_PROJECT, Index([Plain(RESEARCH_PROJECT_ID)], false, None)),
      CreateIndex(RESEARCH_EVIDENCE, IX_RESEARCH_EVIDENCE_SNAPSHOT, Index([Plain(SNAPSHOT_ID)], false, None))
    ]
  }

  function MakeResearchCollectionJobs(): seq<Statement> {
    [
      CreateTable(RESEARCH_COLLECTION_JOBS, ResearchCollectionJobsTable()),
      CreateIndex(RESEARCH_COLLECTION_JOBS, IX_RESEARCH_COLLECTION_JOBS_BUSINESS_CREATED,
        Index([Plain(BUSINESS_ID), Plain(CREATED_AT)], false, None)),
      CreateIndex(RESEARCH_COLLECTION_JOBS, IX_RESEARCH_COLLECTION_JOBS_PROJECT_STATUS,
        Index([Plain(RESEARCH_PROJECT_ID), Plain(STATUS)], false, None)),
      CreateIndex(RESEARCH_COLLECTION_JOBS, IX_RESEARCH_COLLECTION_JOBS_SOURCE_CREATED,
        Index([Plain(SOURCE_ID), Plain(CREATED_AT)], false, None)),
      AddUnique(RESEARCH_COLLECTION_JOBS, UQ_RESEARCH_COLLECTION_IDEMPOTENCY,
        [ORGANIZATION_ID, BUSINESS_ID, IDEMPOTENCY_KEY])
    ]
  }

  function MakeResearchCollectionPages(): seq<Statement> {
    [
      CreateTable(RESEARCH_COLLECTION_PAGES, ResearchCollectionPagesTable()),
      AddUnique(RESEARCH_COLLECTION_PAGES, UQ_RESEARCH_COLLECTION_PAGE_URL, [COLLECTION_JOB_ID, NORMALIZED_URL]),
      CreateIndex(RESEARCH_COLLECTION_PAGES, IX_RESEARCH_COLLECTION_PAGES_JOB,
        Index([Plain(COLLECTION_JOB_ID)], false, None)),
      CreateIndex(RESEARCH_COLLECTION_PAGES, IX_RESEARCH_COLLECTION_PAGES_SOURCE,
        Index([Plain(SOURCE_ID)], false, None))
    ]
  }

  function Upgrade(): seq<Statement> {
    WidenResearch() + MakeResearchCollectionJobs() + MakeResearchCollectionPages()
  }

  function UnmakeResearchCollectionPages(): seq<Statement> {
    [
      DropIndex(RESEARCH_COLLECTION_PAGES, IX_RESEARCH_COLLECTION_PAGES_SOURCE),
      DropIndex(RESEARCH_COLLECTION_PAGES, IX_RESEARCH_COLLECTION_PAGES_JOB),
      DropUnique(RESEARCH_COLLECTION_PAGES, UQ_RESEARCH_COLLECTION_PAGE_URL),
      DropTable(RESEARCH_COLLECTION_PAGES)
    ]
  }

  function UnmakeResearchCollectionJobs(): seq<Statement> {
    [
      DropUnique(RESEARCH_COLLECTION_JOBS, UQ_RESEARCH_COLLECTION_IDEMPOTENCY),
      DropIndex(RESEARCH_COLLECTION_JOBS, IX_RESEARCH_COLLECTION_JOBS_SOURCE_CREATED),
      DropIndex(RESEARCH_COLLECTION_JOBS, IX_RESEARCH_COLLECTION_JOBS_PROJECT_STATUS),
      DropIndex(RESEARCH_COLLECTION_JOBS, IX_RESEARCH_COLLECTION_JOBS_BUSINESS_CREATED),
      DropTable(RESEARCH_COLLECTION_JOBS)
    ]
  }

  function UnwidenResearch(): seq<Statement> {
    [
      DropIndex(RESEARCH_EVIDENCE, IX_RESEARCH_EVIDENCE_SNAPSHOT),
      DropIndex(RESEARCH_EVIDENCE, IX_RESEARCH_EVIDENCE_PROJECT),
      DropColumn(RESEARCH_EVIDENCE, SNAPSHOT_ID),
      DropColumn(RESEARCH_EVIDENCE, RESEARCH_PROJECT_ID),
      DropColumn(RESEARCH_SOURCES, NORMALIZED_URL),
      DropColumn(RESEARCH_SOURCES, ORIGINAL_URL)
    ]
  }

  function Downgrade(): seq<Statement> {
    UnmakeResearchCollectionPages() + UnmakeResearchCollectionJobs() + UnwidenResearch()
  }
}
