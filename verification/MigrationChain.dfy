/** The migration chain 0001 to 0006, and 0011 and 0024 by themselves: what upgrading and then
    downgrading does to a schema. Revision n is the state after migration n. */
module MigrationChain {
  import opened Common
  import opened SchemaNames
  import opened Ddl
  import opened RoundTrip
  import M1 = Migration0001
  import M2 = Migration0002
  import M3 = Migration0003
  import M4 = Migration0004
  import M5 = Migration0005
  import M6 = Migration0006
  import M11 = Migration0011
  import M24 = Migration0024

  function M0001(): Migration { Migration(M1.Upgrade(), M1.Downgrade()) }

  function M0002(): Migration { Migration(M2.Upgrade(), M2.Downgrade()) }

  function M0003(): Migration { Migration(M3.Upgrade(), M3.Downgrade()) }

  function M0004(): Migration { Migration(M4.Upgrade(), M4.Downgrade()) }

  function M0005(): Migration { Migration(M5.Upgrade(), M5.Downgrade()) }

  function M0006(): Migration { Migration(M6.Upgrade(), M6.Downgrade()) }

  function M0011(): Migration { Migration(M11.Upgrade(), M11.Downgrade()) }

  function M0024(): Migration { Migration(M24.Upgrade(), M24.Downgrade()) }

  // ---- The scripts reverse each other ----

  function Spent0001(): seq<nat> { [6, 5, 5, 4, 4, 3, 3, 2, 2, 2, 1, 1, 1, 0, 0, 0] }

  function Spent0003(): seq<nat> {
    [13, 12, 11, 10, 9, 9, 8, 8, 8, 7, 7, 7, 6, 6, 6] + [5, 5, 4, 4, 3, 3, 2, 2, 2, 1, 1, 1, 0, 0, 0]
  }

  function Spent0004(): seq<nat> {
    [10, 9, 8, 7, 6, 6, 5, 4, 4, 3, 3] + [3, 2, 2, 1, 1, 1, 1, 0, 0, 0]
  }

  lemma Reverses0001()
    ensures Reverses(M1.Upgrade(), M1.Downgrade(), Spent0001())
  {
  }

  lemma Reverses0003Beginning(i: nat)
    requires 0 < i <= 9
    ensures Undone(M3.Upgrade(), M3.Downgrade(), Spent0003(), i)
  {
  }

  lemma Reverses0003Middle(i: nat)
    requires 9 < i <= 19
    ensures Undone(M3.Upgrade(), M3.Downgrade(), Spent0003(), i)
  {
  }

  lemma Reverses0003End(i: nat)
    requires 19 < i <= 29
    ensures Undone(M3.Upgrade(), M3.Downgrade(), Spent0003(), i)
  {
  }

  lemma Reverses0003()
    ensures Reverses(M3.Upgrade(), M3.Downgrade(), Spent0003())
  {
    forall i | 0 < i <= |M3.Upgrade()| ensures Undone(M3.Upgrade(), M3.Downgrade(), Spent0003(), i) {
      if i <= 9 {
        Reverses0003Beginning(i);
      } else if i <= 19 {
        Reverses0003Middle(i);
      } else {
        Reverses0003End(i);
      }
    }
  }

  lemma Reverses0004FirstHalf(i: nat)
    requires 0 < i <= 10
    ensures Undone(M4.Upgrade(), M4.Downgrade(), Spent0004(), i)
  {
  }

  lemma Reverses0004SecondHalf(i: nat)
    requires 10 < i <= 20
    ensures Undone(M4.Upgrade(), M4.Downgrade(), Spent0004(), i)
  {
  }

  lemma Reverses0004()
    ensures Reverses(M4.Upgrade(), M4.Downgrade(), Spent0004())
  {
    forall i | 0 < i <= |M4.Upgrade()| ensures Undone(M4.Upgrade(), M4.Downgrade(), Spent0004(), i) {
      if i <= 10 { Reverses0004FirstHalf(i); } else { Reverses0004SecondHalf(i); }
    }
  }

  lemma Mirrors0005()
    ensures Mirrors(M5.Additions(), M5.Removals())
  {
  }

  lemma Mirrors0006()
    ensures Mirrors(M6.Upgrade(), M6.Downgrade())
  {
  }

  lemma Mirrors0011()
    ensures Mirrors(M11.Upgrade(), M11.Downgrade())
  {
  }

  lemma Mirrors0024()
    ensures Mirrors(M24.Upgrade(), M24.Downgrade())
  {
  }

  // ---- Six of them are taken back exactly, whatever schema they were applied to ----

  lemma RoundTrip0001()
    ensures Restores(M0001())
  {
    Reverses0001();
    RestoresByReversal(M0001(), Spent0001());
  }

  lemma RoundTrip0003()
    ensures Restores(M0003())
  {
    Reverses0003();
    RestoresByReversal(M0003(), Spent0003());
  }

  lemma RoundTrip0004()
    ensures Restores(M0004())
  {
    Reverses0004();
    RestoresByReversal(M0004(), Spent0004());
  }

  lemma RoundTrip0006()
    ensures Restores(M0006())
  {
    Mirrors0006();
    RestoresByMirror(M0006());
  }

  lemma RoundTrip0011()
    ensures Restores(M0011())
  {
    Mirrors0011();
    RestoresByMirror(M0011());
  }

  lemma RoundTrip0024()
    ensures Restores(M0024())
  {
    Mirrors0024();
    RestoresByMirror(M0024());
  }

  // ---- Two of them replace a constraint ----

  /** The two migrations that replace a constraint bring back a fixed definition, whatever was there
      before: this is what migration n, up and down, makes of a schema. */
  function Settled(s: Schema, n: nat): Schema {
    if n == 2 && ROLES in s.tables then WithForeignKey(s, ROLES, M2.CONSTRAINT_NAME, M2.OwnerKey(NoAction))
    else if n == 5 && INTEGRATION_CONNECTIONS in s.tables then
      WithUnique(s, INTEGRATION_CONNECTIONS, UQ_INTEGRATION_CONNECTIONS_BUSINESS_ID_PROVIDER, M5.SingleAccountKey())
    else s
  }

  /** What the schema must hold before migration n for that definition to be the one it had. */
  predicate Faithful(s: Schema, n: nat) {
    && (n == 2 && ROLES in s.tables && M2.CONSTRAINT_NAME in s.tables[ROLES].foreignKeys ==>
          s.tables[ROLES].foreignKeys[M2.CONSTRAINT_NAME] == M2.OwnerKey(NoAction))
    && (n == 5 && INTEGRATION_CONNECTIONS in s.tables
        && UQ_INTEGRATION_CONNECTIONS_BUSINESS_ID_PROVIDER in s.tables[INTEGRATION_CONNECTIONS].uniques ==>
          s.tables[INTEGRATION_CONNECTIONS].uniques[UQ_INTEGRATION_CONNECTIONS_BUSINESS_ID_PROVIDER]
          == M5.SingleAccountKey())
  }

  lemma RoundTrip0002(s: Schema, m: Migration)
    requires m == M0002() && Sound(s) && Run(s, m.up).Some?
    ensures Run(Run(s, m.up).value, m.down) == Some(Settled(s, 2))
    ensures Settled(s, 2) == s <==> Faithful(s, 2)
  {
    assert m.up == ReplaceForeignKey(ROLES, M2.CONSTRAINT_NAME, M2.OwnerKey(Cascade));
    assert m.down == ReplaceForeignKey(ROLES, M2.CONSTRAINT_NAME, M2.OwnerKey(NoAction));
    ReplaceAndBack(s, ROLES, M2.CONSTRAINT_NAME, M2.OwnerKey(Cascade), NoAction);
    SameForeignKey(s, ROLES, M2.CONSTRAINT_NAME, M2.OwnerKey(NoAction));
  }

  /** Migration 0005 goes on to index the columns of the constraint it drops, so they exist. */
  lemma SingleAccountColumnsExist(s: Schema, additions: seq<Statement>)
    requires additions == M5.Additions()
    requires Run(s, [DropUnique(INTEGRATION_CONNECTIONS, UQ_INTEGRATION_CONNECTIONS_BUSINESS_ID_PROVIDER)]
                    + additions).Some?
    ensures INTEGRATION_CONNECTIONS in s.tables
    ensures Within(M5.SingleAccountKey(), ColumnNames(s.tables[INTEGRATION_CONNECTIONS].columns))
  {
    var drop := DropUnique(INTEGRATION_CONNECTIONS, UQ_INTEGRATION_CONNECTIONS_BUSINESS_ID_PROVIDER);
    RunConcat(s, [drop], additions);
    RunOne(s, drop);
    var s1 := Perform(s, drop);
    assert s1.tables[INTEGRATION_CONNECTIONS].columns == s.tables[INTEGRATION_CONNECTIONS].columns;
    FirstIndexColumnsExist(s1, additions);
  }

  lemma AccountIndexMentions()
    ensures BUSINESS_ID in M5.AccountIndex().Mentions() && PROVIDER in M5.AccountIndex().Mentions()
  {
    var keys := M5.AccountIndex().keys;
    assert keys[0].column == BUSINESS_ID && keys[1].column == PROVIDER;
  }

  lemma FirstIndexColumnsExist(s: Schema, ops: seq<Statement>)
    requires ops != [] && Run(s, ops).Some?
    requires ops[0] == CreateIndex(INTEGRATION_CONNECTIONS, UQ_INTEGRATION_CONNECTIONS_BUSINESS_PROVIDER_ACCOUNT,
                                   M5.AccountIndex())
    ensures INTEGRATION_CONNECTIONS in s.tables
    ensures Within(M5.SingleAccountKey(), ColumnNames(s.tables[INTEGRATION_CONNECTIONS].columns))
  {
    IndexedColumnsExist(s, ops, INTEGRATION_CONNECTIONS, UQ_INTEGRATION_CONNECTIONS_BUSINESS_PROVIDER_ACCOUNT,
                        M5.AccountIndex());
    AccountIndexMentions();
  }

  lemma RoundTrip0005(s: Schema, m: Migration)
    requires m == M0005() && Sound(s) && Run(s, m.up).Some?
    ensures Run(Run(s, m.up).value, m.down) == Some(Settled(s, 5))
    ensures Settled(s, 5) == s <==> Faithful(s, 5)
  {
    Mirrors0005();
    SingleAccountColumnsExist(s, M5.Additions());
    AroundMirror(s, INTEGRATION_CONNECTIONS, UQ_INTEGRATION_CONNECTIONS_BUSINESS_ID_PROVIDER, M5.SingleAccountKey(),
      M5.Additions(), M5.Removals());
    SameUnique(s, INTEGRATION_CONNECTIONS, UQ_INTEGRATION_CONNECTIONS_BUSINESS_ID_PROVIDER, M5.SingleAccountKey());
  }

  /** Wherever migration n applies, its downgrade runs, and what comes back is known: the schema
      itself unless it replaces a constraint that was different before. */
  ghost predicate Settles(m: Migration, n: nat) {
    forall s :: Sound(s) && Run(s, m.up).Some? ==>
      Run(Run(s, m.up).value, m.down) == Some(Settled(s, n)) && (Settled(s, n) == s <==> Faithful(s, n))
  }

  lemma RestoringSettles(m: Migration, n: nat)
    requires Restores(m) && n != 2 && n != 5
    ensures Settles(m, n)
  {
  }

  lemma Settles0002(m: Migration)
    requires m == M0002()
    ensures Settles(m, 2)
  {
    forall s | Sound(s) && Run(s, m.up).Some?
      ensures Run(Run(s, m.up).value, m.down) == Some(Settled(s, 2)) && (Settled(s, 2) == s <==> Faithful(s, 2))
    {
      RoundTrip0002(s, m);
    }
  }

  lemma Settles0005(m: Migration)
    requires m == M0005()
    ensures Settles(m, 5)
  {
    forall s | Sound(s) && Run(s, m.up).Some?
      ensures Run(Run(s, m.up).value, m.down) == Some(Settled(s, 5)) && (Settled(s, 5) == s <==> Faithful(s, 5))
    {
      RoundTrip0005(s, m);
    }
  }

  // ---- The chain ----

  function Chain(): seq<Migration> { [M0001(), M0002(), M0003(), M0004(), M0005(), M0006()] }

  lemma Creates0001()
    ensures Creates(M1.Upgrade(), 4, ROLES, M1.RolesTable())
  {
  }

  lemma Creates0004()
    ensures Creates(M4.Upgrade(), 3, INTEGRATION_CONNECTIONS, M4.IntegrationConnectionsTable())
  {
  }

  /** After `up` the schema is faithful for the migration that comes next, number n + 1. */
  ghost predicate LeadsTo(up: seq<Statement>, n: nat) {
    forall s :: Run(s, up).Some? ==> Faithful(Run(s, up).value, n + 1)
  }

  /** 0001 creates the foreign key that 0002 replaces in just the form that 0002 brings back. */
  lemma LeadsTo0002(up: seq<Statement>)
    requires up == M1.Upgrade()
    ensures LeadsTo(up, 1)
  {
    Creates0001();
    forall s | Run(s, up).Some? ensures Faithful(Run(s, up).value, 2) {
      CreatedTable(s, up, 4, ROLES, M1.RolesTable());
    }
  }

  /** 0004 creates the unique constraint that 0005 replaces in just the form that 0005 brings back. */
  lemma LeadsTo0005(up: seq<Statement>)
    requires up == M4.Upgrade()
    ensures LeadsTo(up, 4)
  {
    Creates0004();
    forall s | Run(s, up).Some? ensures Faithful(Run(s, up).value, 5) {
      CreatedTable(s, up, 3, INTEGRATION_CONNECTIONS, M4.IntegrationConnectionsTable());
    }
  }

  /** What the chain's migrations do one by one. */
  ghost predicate WellKept(ms: seq<Migration>) {
    && (forall k :: 0 <= k < |ms| ==> Settles(ms[k], k + 1))
    && (forall k :: 0 <= k < |ms| ==> LeadsTo(ms[k].up, k + 1))
  }

  lemma SixWellKept(a: Migration, b: Migration, c: Migration, d: Migration, e: Migration, f: Migration)
    requires Settles(a, 1) && Settles(b, 2) && Settles(c, 3) && Settles(d, 4) && Settles(e, 5) && Settles(f, 6)
    requires LeadsTo(a.up, 1) && LeadsTo(d.up, 4)
    ensures WellKept([a, b, c, d, e, f])
  {
  }

  lemma RestoringOnesSettle()
    ensures Settles(M0001(), 1) && Settles(M0003(), 3) && Settles(M0004(), 4) && Settles(M0006(), 6)
  {
    RoundTrip0001();
    RoundTrip0003();
    RoundTrip0004();
    RoundTrip0006();
    RestoringSettles(M0001(), 1);
    RestoringSettles(M0003(), 3);
    RestoringSettles(M0004(), 4);
    RestoringSettles(M0006(), 6);
  }

  lemma ChainIsWellKept()
    ensures WellKept(Chain())
  {
    RestoringOnesSettle();
    Settles0002(M0002());
    Settles0005(M0005());
    LeadsTo0002(M0001().up);
    LeadsTo0005(M0004().up);
    SixWellKept(M0001(), M0002(), M0003(), M0004(), M0005(), M0006());
  }

  /** A migration around a script that is taken back. */
  lemma SettlesAround(m: Migration, n: nat, s: Schema, inner: seq<Statement>, innerDown: seq<Statement>)
    requires Settles(m, n) && Sound(s) && Run(s, m.up).Some? && Run(Run(s, m.up).value, inner).Some?
    requires Run(Run(Run(s, m.up).value, inner).value, innerDown) == Run(s, m.up)
    ensures Run(s, m.up + inner).Some?
    ensures Run(Run(s, m.up + inner).value, innerDown + m.down) == Some(Settled(s, n))
    ensures Settled(s, n) == s <==> Faithful(s, n)
  {
    RunNested(s, m.up, inner, innerDown, m.down);
  }

  lemma NextIsFaithful(up: seq<Statement>, n: nat, s: Schema)
    requires LeadsTo(up, n) && Sound(s) && Run(s, up).Some?
    ensures Faithful(Run(s, up).value, n + 1) && Sound(Run(s, up).value)
  {
    RunKeepsSound(s, up);
  }

  lemma FirstAround(ms: seq<Migration>, i: nat, j: nat)
    requires i < j <= |ms|
    ensures UpFrom(ms, i, j) == ms[i].up + UpFrom(ms, i + 1, j) && DownTo(ms, j, i) == DownTo(ms, j, i + 1) + ms[i].down
  {
  }

  /** From any sound schema on which revisions i+1 to j apply, going up and down again runs to its
      end and gives `Settled(s, i + 1)`: no migration but the first of the stretch can find anything
      but what its predecessor left. */
  lemma {:induction false} ChainSettles(ms: seq<Migration>, s: Schema, i: nat, j: nat)
    requires WellKept(ms) && i < j <= |ms| && Sound(s) && Run(s, UpFrom(ms, i, j)).Some?
    ensures Run(Run(s, UpFrom(ms, i, j)).value, DownTo(ms, j, i)) == Some(Settled(s, i + 1))
    ensures Settled(s, i + 1) == s <==> Faithful(s, i + 1)
    decreases j - i, 1
  {
    var m, inner, innerDown := ms[i], UpFrom(ms, i + 1, j), DownTo(ms, j, i + 1);
    FirstAround(ms, i, j);
    RunConcat(s, m.up, inner);
    InnerTakenBack(ms, s, i, j);
    SettlesAround(m, i + 1, s, inner, innerDown);
  }

  lemma {:induction false} InnerTakenBack(ms: seq<Migration>, s: Schema, i: nat, j: nat)
    requires WellKept(ms) && i < j <= |ms| && Sound(s) && Run(s, ms[i].up).Some?
    requires Run(Run(s, ms[i].up).value, UpFrom(ms, i + 1, j)).Some?
    ensures Settles(ms[i], i + 1)
    ensures Run(Run(Run(s, ms[i].up).value, UpFrom(ms, i + 1, j)).value, DownTo(ms, j, i + 1)) == Run(s, ms[i].up)
    decreases j - i, 0
  {
    if i + 1 < j {
      NextIsFaithful(ms[i].up, i + 1, s);
      ChainSettles(ms, Run(s, ms[i].up).value, i + 1, j);
    }
  }

  /** MIGRATION ROUND TRIP. Going up and down gives back exactly the schema it started from if and
      only if that schema held the constraint which the first migration of the stretch replaces in
      its original form; for a stretch that starts anywhere but at revision 1 or 4 there is no
      condition. */
  lemma ChainRoundTripIff(s: Schema, ms: seq<Migration>, i: nat, j: nat)
    requires ms == Chain() && i < j <= 6 && Sound(s) && Run(s, UpFrom(ms, i, j)).Some?
    ensures Run(Run(s, UpFrom(ms, i, j)).value, DownTo(ms, j, i)) == Some(s) <==> Faithful(s, i + 1)
    ensures i != 1 && i != 4 ==> Faithful(s, i + 1)
  {
    ChainIsWellKept();
    ChainSettles(ms, s, i, j);
  }

  /** NO DANGLING REFERENCES, over the whole way up and down and after every single statement: each
      one is legal in the order written. */
  lemma ChainNeverDangles(s: Schema, ms: seq<Migration>, i: nat, j: nat, n: nat)
    requires ms == Chain() && i < j <= 6 && Sound(s) && Run(s, UpFrom(ms, i, j)).Some?
    requires n <= |UpFrom(ms, i, j) + DownTo(ms, j, i)|
    ensures Run(s, (UpFrom(ms, i, j) + DownTo(ms, j, i))[..n]).Some?
    ensures Sound(Run(s, (UpFrom(ms, i, j) + DownTo(ms, j, i))[..n]).value)
  {
    ChainIsWellKept();
    ChainSettles(ms, s, i, j);
    RunConcat(s, UpFrom(ms, i, j), DownTo(ms, j, i));
    ScriptKeepsSound(s, UpFrom(ms, i, j) + DownTo(ms, j, i), n);
  }

  /** Revision 1 cut down to what 0002 touches; in the repository's own history `onDelete` is NoAction. */
  function Owned(): Table { Table([Req(ID, Uuid)], [ID], map[], map[], map[], map[]) }

  function Owning(onDelete: OnDelete): Table {
    Table([Req(ID, Uuid), Opt(ORGANIZATION_ID, Uuid)], [ID], map[], map[],
          map[M2.CONSTRAINT_NAME := M2.OwnerKey(onDelete)], map[])
  }

  function TwoTables(onDelete: OnDelete): Schema {
    Schema(map[ORGANIZATIONS := Owned(), ROLES := Owning(onDelete)], map[])
  }

  lemma TheirColumns(onDelete: OnDelete)
    ensures ColumnNames(Owned().columns) == {ID} && DistinctColumns(Owned().columns)
    ensures ColumnNames(Owning(onDelete).columns) == {ID, ORGANIZATION_ID} && DistinctColumns(Owning(onDelete).columns)
  {
    assert Owned().columns[1..] == [];
    assert Owning(onDelete).columns[1..] == [Opt(ORGANIZATION_ID, Uuid)] && [Opt(ORGANIZATION_ID, Uuid)][1..] == [];
  }

  lemma TheyAreSelfContained(onDelete: OnDelete)
    ensures SelfContained(Owned()) && SelfContained(Owning(onDelete))
  {
    TheirColumns(onDelete);
  }

  lemma TwoTablesKeys(s: Schema, onDelete: OnDelete, t: TableName, k: ConstraintName)
    requires s == TwoTables(onDelete) && t in s.tables && k in s.tables[t].foreignKeys
    ensures KeyExists(s, s.tables[t].foreignKeys[k])
  {
    assert t == ROLES && s.tables[t].foreignKeys[k] == M2.OwnerKey(onDelete);
  }

  lemma TwoTablesEach(s: Schema, onDelete: OnDelete, t: TableName)
    requires s == TwoTables(onDelete) && t in s.tables
    ensures SelfContained(s.tables[t]) && Relations(s.tables[t]) == {}
  {
    TheyAreSelfContained(onDelete);
    assert s.tables[t] == Owned() || s.tables[t] == Owning(onDelete);
  }

  lemma TwoTablesSound(s: Schema, onDelete: OnDelete)
    requires s == TwoTables(onDelete)
    ensures Sound(s)
  {
    forall t | t in s.tables ensures SelfContained(s.tables[t]) && Relations(s.tables[t]) == {} {
      TwoTablesEach(s, onDelete, t);
    }
    forall t, k | t in s.tables && k in s.tables[t].foreignKeys ensures KeyExists(s, s.tables[t].foreignKeys[k]) {
      TwoTablesKeys(s, onDelete, t, k);
    }
  }

  /** Where roles already go with their organization, up to revision 2 and down again loses that. */
  lemma RoundTripCanFail(s: Schema, m: Migration)
    requires m == M0002() && s == TwoTables(Cascade)
    ensures Sound(s) && Run(s, m.up).Some?
    ensures Run(Run(s, m.up).value, m.down) == Some(TwoTables(NoAction)) != Some(s)
  {
    TwoTablesSound(s, Cascade);
    Upgrades0002(s, m);
    RoundTrip0002(s, m);
    ReplacedInTwoTables(s);
    assert Owning(NoAction).foreignKeys != Owning(Cascade).foreignKeys by {
      assert Owning(NoAction).foreignKeys[M2.CONSTRAINT_NAME] != Owning(Cascade).foreignKeys[M2.CONSTRAINT_NAME];
    }
  }

  lemma Upgrades0002(s: Schema, m: Migration)
    requires m == M0002() && s == TwoTables(Cascade) && Sound(s)
    ensures Run(s, m.up).Some?
  {
    TheirColumns(Cascade);
    ReplacedForeignKey(s, ROLES, M2.CONSTRAINT_NAME, M2.OwnerKey(Cascade));
    assert m.up == ReplaceForeignKey(ROLES, M2.CONSTRAINT_NAME, M2.OwnerKey(Cascade));
  }

  lemma ReplacedInTwoTables(s: Schema)
    requires s == TwoTables(Cascade)
    ensures Settled(s, 2) == TwoTables(NoAction)
  {
    assert Owning(Cascade).foreignKeys[M2.CONSTRAINT_NAME := M2.OwnerKey(NoAction)] == Owning(NoAction).foreignKeys;
    assert Settled(s, 2).tables == TwoTables(NoAction).tables;
  }

  // ---- Running it ----

  function Script(i: nat, j: nat): seq<Statement>
    requires i <= 6 && j <= 6
  {
    if i <= j then UpFrom(Chain(), i, j) else DownTo(Chain(), i, j)
  }

  lemma {:induction false} StopsAtFirstFailure(s: Schema, ops: seq<Statement>, n: nat)
    requires n < |ops| && Run(s, ops[..n]).Some? && Apply(Run(s, ops[..n]).value, ops[n]).None?
    ensures Run(s, ops).None?
  {
    RunConcat(s, ops[..n + 1], ops[n + 1..]);
    assert ops == ops[..n + 1] + ops[n + 1..] && ops[..n + 1][..n] == ops[..n];
  }

  /** A database and the revision that Alembic has recorded in it. */
  class Database {
    var schema: Schema
    var revision: nat

    constructor (schema: Schema, revision: nat)
      ensures this.schema == schema && this.revision == revision
    {
      this.schema, this.revision := schema, revision;
    }

    /** All statements run inside one transaction: the first illegal one undoes them all. */
    method Execute(script: seq<Statement>) returns (ok: bool)
      modifies this`schema
      ensures ok <==> Run(old(schema), script).Some?
      ensures schema == if ok then Run(old(schema), script).value else old(schema)
    {
      var draft, n := schema, 0;
      while n < |script|
        invariant 0 <= n <= |script| && Run(schema, script[..n]) == Some(draft) && schema == old(schema)
      {
        if !Legal(draft, script[n]) {
          StopsAtFirstFailure(schema, script, n);
          return false;
        }
        assert script[..n + 1][..n] == script[..n];
        draft, n := Perform(draft, script[n]), n + 1;
      }
      assert script[..n] == script;
      schema, ok := draft, true;
    }

    method Migrate(target: nat) returns (ok: bool)
      requires revision <= 6 && target <= 6
      modifies this
      ensures ok <==> Run(old(schema), Script(old(revision), target)).Some?
      ensures ok ==> schema == Run(old(schema), Script(old(revision), target)).value && revision == target
      ensures !ok ==> schema == old(schema) && revision == old(revision)
    {
      ok := Execute(Script(revision, target));
      if ok {
        revision := target;
      }
    }

    /** The two commands in a row: up from a schema without dangling references, and down again. */
    method UpAndDown(target: nat) returns (up: bool)
      requires revision < target <= 6 && Sound(schema)
      modifies this
      ensures revision == old(revision) && Sound(schema)
      ensures up <==> Run(old(schema), Script(old(revision), target)).Some?
      ensures up ==> (schema == old(schema) <==> Faithful(old(schema), old(revision) + 1))
      ensures !up ==> schema == old(schema)
    {
      var from := revision;
      ghost var s := schema;
      up := Migrate(target);
      if up {
        ChainIsWellKept();
        ChainSettles(Chain(), s, from, target);
        RunKeepsSound(s, Script(from, target));
        RunKeepsSound(schema, Script(target, from));
        var down := Migrate(from);
      }
    }
  }
}
