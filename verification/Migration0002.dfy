/** Migration 0002: roles.organization_id gains ON DELETE CASCADE. */
module Migration0002 {
  import opened SchemaNames
  import opened Ddl

  const CONSTRAINT_NAME := FK_ROLES_ORGANIZATIONS_ORGANIZATION_ID

  function OwnerKey(onDelete: OnDelete): ForeignKey { ForeignKey([ORGANIZATION_ID], ORGANIZATIONS, [ID], onDelete) }

  function Upgrade(): seq<Statement> {
    [DropForeignKey(ROLES, CONSTRAINT_NAME), AddForeignKey(ROLES, CONSTRAINT_NAME, OwnerKey(Cascade))]
  }

  function Downgrade(): seq<Statement> {
    [DropForeignKey(ROLES, CONSTRAINT_NAME), AddForeignKey(ROLES, CONSTRAINT_NAME, OwnerKey(NoAction))]
  }
}
