/** Migration 0001: initial schema: users, organizations, roles, memberships, businesses, invitations. */
module Migration0001 {
  import opened Common
  import opened SchemaNames
  import opened Ddl

  function UsersTable(): Table {
    Table(
      [
        Req(ID, Uuid), Req(EMAIL, Varchar(320)), Req(PASSWORD_HASH, Varchar(255)), Req(NAME, Varchar(255)),
        Def(LOCALE, Varchar(10), "en"), Def(IS_ACTIVE, Boolean, "true"), Stamp(CREATED_AT), Stamp(UPDATED_AT)
      ],
      [ID],
      map[
        UQ_USERS_EMAIL := [EMAIL]],
      map[],
      map[],
      map[])
  }

  function OrganizationsTable(): Table {
    Table(
      [
        Req(ID, Uuid), Req(NAME, Varchar(255)), Req(SLUG, Varchar(100)), Def(TYPE, Varchar(20), "business"),
        Def(LOCALE_DEFAULT, Varchar(10), "en"), Stamp(CREATED_AT), Stamp(UPDATED_AT)
      ],
      [ID],
      map[
        UQ_ORGANIZATIONS_SLUG := [SLUG]],
      map[
        CK_ORGANIZATIONS_TYPE := OneOf(TYPE, ["agency", "business"])],
      map[],
      map[])
  }

  function RolesTable(): Table {
    Table(
      [
        Req(ID, Uuid), Opt(ORGANIZATION_ID, Uuid), Req(NAME, Varchar(50)),
        Def(PERMISSIONS_JSON, Json, "'[]'::json"), Stamp(CREATED_AT), Stamp(UPDATED_AT)
      ],
      [ID],
      map[
        UQ_ROLES_ORGANIZATION_ID_NAME := [ORGANIZATION_ID, NAME]],
      map[],
      map[
        FK_ROLES_ORGANIZATIONS_ORGANIZATION_ID := ForeignKey([ORGANIZATION_ID], ORGANIZATIONS, [ID], NoAction)],
      map[])
  }

  function MembershipsTable(): Table {
    Table(
      [
        Req(ID, Uuid), Req(USER_ID, Uuid), Req(ORGANIZATION_ID, Uuid), Req(ROLE_ID, Uuid),
        Def(STATUS, Varchar(20), "active"), Stamp(CREATED_AT), Stamp(UPDATED_AT)
      ],
      [ID],
      map[
        UQ_MEMBERSHIPS_USER_ID_ORGANIZATION_ID := [USER_ID, ORGANIZATION_ID]],
      map[
        CK_MEMBERSHIPS_STATUS := OneOf(STATUS, ["active", "invited", "suspended"])],
      map[
        FK_MEMBERSHIPS_USERS_USER_ID := ForeignKey([USER_ID], USERS, [ID], Cascade),
        FK_MEMBERSHIPS_ORGANIZATIONS_ORGANIZATION_ID := ForeignKey([ORGANIZATION_ID], ORGANIZATIONS, [ID], Cascade),
        FK_MEMBERSHIPS_ROLES_ROLE_ID := ForeignKey([ROLE_ID], ROLES, [ID], NoAction)],
      map[])
  }

  function BusinessesTable(): Table {
    Table(
      [
        Req(ID, Uuid), Req(ORGANIZATION_ID, Uuid), Opt(MANAGED_BY_ORGANIZATION_ID, Uuid),
        Req(NAME, Varchar(255)), Opt(INDUSTRY, Varchar(100)), Def(TIMEZONE, Varchar(64), "UTC"),
        Def(CURRENCY, Varchar(3), "USD"), Def(ONBOARDING_STATUS, Varchar(30), "not_started"), Stamp(CREATED_AT),
        Stamp(UPDATED_AT)
      ],
      [ID],
      map[
        UQ_BUSINESSES_ORGANIZATION_ID_NAME := [ORGANIZATION_ID, NAME]],
      map[
        CK_BUSINESSES_ONBOARDING_STATUS := OneOf(ONBOARDING_STATUS, ["not_started", "in_progress", "completed"])],
      map[
        FK_BUSINESSES_ORGANIZATIONS_ORGANIZATION_ID := ForeignKey([ORGANIZATION_ID], ORGANIZATIONS, [ID], Cascade),
        FK_BUSINESSES_ORGANIZATIONS_MANAGED_BY_ORGANIZATION_ID := ForeignKey([MANAGED_BY_ORGANIZATION_ID],
          ORGANIZATIONS, [ID], NoAction)],
      map[])
  }

  function InvitationsTable(): Table {
    Table(
      [
        Req(ID, Uuid), Req(ORGANIZATION_ID, Uuid), Req(EMAIL, Varchar(320)), Req(ROLE_ID, Uuid),
        Req(TOKEN_HASH, Varchar(128)), Req(EXPIRES_AT, Timestamptz), Opt(ACCEPTED_AT, Timestamptz),
        Stamp(CREATED_AT)
      ],
      [ID],
      map[
        UQ_INVITATIONS_ORGANIZATION_ID_EMAIL := [ORGANIZATION_ID, EMAIL],
        UQ_INVITATIONS_TOKEN_HASH := [TOKEN_HASH]],
      map[],
      map[
        FK_INVITATIONS_ORGANIZATIONS_ORGANIZATION_ID := ForeignKey([ORGANIZATION_ID], ORGANIZATIONS, [ID], Cascade),
        FK_INVITATIONS_ROLES_ROLE_ID := ForeignKey([ROLE_ID], ROLES, [ID], NoAction)],
      map[])
  }

  function MakeUsers(): seq<Statement> {
    [
      CreateTable(USERS, UsersTable()),
      CreateIndex(USERS, IX_USERS_EMAIL, Index([Plain(EMAIL)], true, None))
    ]
  }

  function MakeOrganizations(): seq<Statement> {
    [
      CreateTable(ORGANIZATIONS, OrganizationsTable()),
      CreateIndex(ORGANIZATIONS, IX_ORGANIZATIONS_SLUG, Index([Plain(SLUG)], true, None))
    ]
  }

  function MakeRoles(): seq<Statement> {
    [
      CreateTable(ROLES, RolesTable()),
      CreateIndex(ROLES, IX_ROLES_ORGANIZATION_ID, Index([Plain(ORGANIZATION_ID)], false, None))
    ]
  }

  function MakeMemberships(): seq<Statement> {
    [
      CreateTable(MEMBERSHIPS, MembershipsTable()),
      CreateIndex(MEMBERSHIPS, IX_MEMBERSHIPS_ORGANIZATION_ID, Index([Plain(ORGANIZATION_ID)], false, None)),
      CreateIndex(MEMBERSHIPS, IX_MEMBERSHIPS_ROLE_ID, Index([Plain(ROLE_ID)], false, None))
    ]
  }

  function MakeBusinesses(): seq<Statement> {
    [
      CreateTable(BUSINESSES, BusinessesTable()),
      CreateIndex(BUSINESSES, IX_BUSINESSES_ORGANIZATION_ID, Index([Plain(ORGANIZATION_ID)], false, None)),
      CreateIndex(BUSINESSES, IX_BUSINESSES_MANAGED_BY_ORGANIZATION_ID,
        Index([Plain(MANAGED_BY_ORGANIZATION_ID)], false, None))
    ]
  }

  function MakeInvitations(): seq<Statement> {
    [
      CreateTable(INVITATIONS, InvitationsTable()),
      CreateIndex(INVITATIONS, IX_INVITATIONS_ORGANIZATION_ID, Index([Plain(ORGANIZATION_ID)], false, None)),
      CreateIndex(INVITATIONS, IX_INVITATIONS_EMAIL, Index([Plain(EMAIL)], false, None))
    ]
  }

  function Upgrade(): seq<Statement> {
    MakeUsers() + MakeOrganizations() + MakeRoles() + MakeMemberships() + MakeBusinesses() + MakeInvitations()
  }

  function Downgrade(): seq<Statement> {
    [
      DropTable(INVITATIONS),
      DropTable(BUSINESSES),
      DropTable(MEMBERSHIPS),
      DropTable(ROLES),
      DropTable(ORGANIZATIONS),
      DropTable(USERS)
    ]
  }
}
