/** The schema changes that the Alembic migrations use, as PostgreSQL carries them out.

    A statement is legal or it is refused whole; what makes it illegal are the dependencies
    PostgreSQL tracks: a foreign key needs the key it refers to, a view needs the columns it reads,
    and indexes and unique constraints share one name space. */
module Ddl {
  import opened Common
  import opened SchemaNames

  datatype SqlType =
    | Uuid | Varchar(length: nat) | TextType | Boolean | Integer | Numeric(precision: nat, scale: nat)
    | Timestamptz | DateType | Json | Jsonb

  datatype Column = Column(name: ColumnName, sqlType: SqlType, nullable: bool, default: Option<string>)

  datatype OnDelete = NoAction | Cascade | SetNull

  datatype ForeignKey = ForeignKey(columns: seq<ColumnName>, refTable: TableName, refColumns: seq<ColumnName>,
                                   onDelete: OnDelete)

  /** The row conditions of the CHECK constraints. */
  datatype Check =
    | AtLeastZero(column: ColumnName)
    | Positive(column: ColumnName)
    | Percent(column: ColumnName)                          // between 0 and 100
    | After(column: ColumnName, earlier: ColumnName)
    | OneOf(column: ColumnName, values: seq<string>)
    | CurrencyCode(column: ColumnName)                     // three capital letters
    | AtMost100When(column: ColumnName, kind: ColumnName, value: string)
    | NullOr(column: ColumnName, check: Check)
  {
    function Mentions(): set<ColumnName> {
      match this
      case After(c, e) => {c, e}
      case AtMost100When(c, k, _) => {c, k}
      case NullOr(c, check) => {c} + check.Mentions()
      case _ => {column}
    }
  }

  /** An index column, or COALESCE(column::text, ''). */
  datatype IndexKey = Plain(column: ColumnName) | Coalesced(column: ColumnName)

  /** `whereNotNull` is the column of a partial index's `IS NOT NULL` predicate. */
  datatype Index = Index(keys: seq<IndexKey>, unique: bool, whereNotNull: Option<ColumnName>) {
    function Mentions(): set<ColumnName> {
      (set k | k in keys :: k.column) + (if whereNotNull.Some? then {whereNotNull.value} else {})
    }
  }

  datatype Table = Table(columns: seq<Column>, primaryKey: seq<ColumnName>,
                         uniques: map<RelationName, seq<ColumnName>>, checks: map<ConstraintName, Check>,
                         foreignKeys: map<ConstraintName, ForeignKey>, indexes: map<RelationName, Index>)

  /** A view depends on the columns it reads. */
  datatype View = View(dependsOn: set<(TableName, ColumnName)>)

  datatype Schema = Schema(tables: map<TableName, Table>, views: map<ViewName, View>)

  datatype Statement =
    | CreateTable(table: TableName, definition: Table)
    | DropTable(table: TableName)
    | AddColumn(table: TableName, column: Column, references: map<ConstraintName, ForeignKey>)
    | DropColumn(table: TableName, columnName: ColumnName)
    | AddUnique(table: TableName, relation: RelationName, columns: seq<ColumnName>)
    | DropUnique(table: TableName, relation: RelationName)
    | AddCheck(table: TableName, constraint: ConstraintName, check: Check)
    | DropCheck(table: TableName, constraint: ConstraintName)
    | AddForeignKey(table: TableName, constraint: ConstraintName, foreignKey: ForeignKey)
    | DropForeignKey(table: TableName, constraint: ConstraintName)
    | CreateIndex(table: TableName, relation: RelationName, index: Index)
    | DropIndex(table: TableName, relation: RelationName)
    | CreateView(view: ViewName, query: View)
    | DropViewIfExists(view: ViewName)

  // ---- Dependencies ----

  function ColumnNames(cs: seq<Column>): set<ColumnName> {
    if cs == [] then {} else {cs[0].name} + ColumnNames(cs[1..])
  }

  predicate DistinctColumns(cs: seq<Column>) {
    cs == [] || (cs[0].name !in ColumnNames(cs[1..]) && DistinctColumns(cs[1..]))
  }

  predicate Within(columns: seq<ColumnName>, names: set<ColumnName>) {
    forall i :: 0 <= i < |columns| ==> columns[i] in names
  }

  /** A foreign key may refer to the primary key or to a unique constraint's columns. */
  predicate IsKey(t: Table, columns: seq<ColumnName>) {
    columns == t.primaryKey || columns in t.uniques.Values
  }

  /** `t` taken by itself: its constraints and indexes speak of its own columns. */
  predicate SelfContained(t: Table) {
    var names := ColumnNames(t.columns);
    && DistinctColumns(t.columns)
    && Within(t.primaryKey, names)
    && (forall u :: u in t.uniques ==> Within(t.uniques[u], names))
    && (forall c :: c in t.checks ==> t.checks[c].Mentions() <= names)
    && (forall k :: k in t.foreignKeys ==> Within(t.foreignKeys[k].columns, names))
    && (forall i :: i in t.indexes ==> t.indexes[i].Mentions() <= names)
    && t.uniques.Keys !! t.indexes.Keys
    && t.checks.Keys !! t.foreignKeys.Keys
  }

  function Relations(t: Table): set<RelationName> { t.uniques.Keys + t.indexes.Keys }

  predicate RelationFree(s: Schema, r: RelationName) {
    forall t :: t in s.tables ==> r !in Relations(s.tables[t])
  }

  predicate KeyExists(s: Schema, fk: ForeignKey) {
    fk.refTable in s.tables && IsKey(s.tables[fk.refTable], fk.refColumns)
  }

  predicate ReadsExist(s: Schema, v: View) {
    forall r :: r in v.dependsOn ==> r.0 in s.tables && r.1 in ColumnNames(s.tables[r.0].columns)
  }

  /** NO DANGLING REFERENCES: every constraint, index and view refers to what exists. */
  ghost predicate Sound(s: Schema) {
    && (forall t :: t in s.tables ==> SelfContained(s.tables[t]))
    && (forall t, k :: t in s.tables && k in s.tables[t].foreignKeys ==> KeyExists(s, s.tables[t].foreignKeys[k]))
    && (forall v :: v in s.views ==> ReadsExist(s, s.views[v]))
    && (forall t, u :: t in s.tables && u in s.tables && t != u ==> Relations(s.tables[t]) !! Relations(s.tables[u]))
  }

  // ---- Statements ----

  function WithoutColumn(cs: seq<Column>, c: ColumnName): seq<Column> {
    if cs == [] then [] else (if cs[0].name == c then [] else [cs[0]]) + WithoutColumn(cs[1..], c)
  }

  /** Dropping a column takes along this table's constraints and indexes that mention it. */
  function CutColumn(t: Table, c: ColumnName): Table {
    Table(WithoutColumn(t.columns, c),
          if c in t.primaryKey then [] else t.primaryKey,
          map u | u in t.uniques && c !in t.uniques[u] :: t.uniques[u],
          map k | k in t.checks && c !in t.checks[k].Mentions() :: t.checks[k],
          map k | k in t.foreignKeys && c !in t.foreignKeys[k].columns :: t.foreignKeys[k],
          map i | i in t.indexes && c !in t.indexes[i].Mentions() :: t.indexes[i])
  }

  predicate ConstraintFree(t: Table, name: ConstraintName) { name !in t.checks && name !in t.foreignKeys }

  /** No other table's foreign key and no view needs `t`. */
  predicate NobodyNeeds(s: Schema, t: TableName) {
    && (forall u, k :: u in s.tables && u != t && k in s.tables[u].foreignKeys ==>
          s.tables[u].foreignKeys[k].refTable != t)
    && (forall v, r :: v in s.views && r in s.views[v].dependsOn ==> r.0 != t)
  }

  predicate NobodyNeedsColumn(s: Schema, t: TableName, c: ColumnName) {
    && (forall u, k :: u in s.tables && k in s.tables[u].foreignKeys && s.tables[u].foreignKeys[k].refTable == t ==>
          c !in s.tables[u].foreignKeys[k].refColumns)
    && (forall v, r :: v in s.views && r in s.views[v].dependsOn ==> r != (t, c))
  }

  /** Foreign keys into `t` still find their key if `t` becomes `t'`. */
  predicate KeysKept(s: Schema, t: TableName, t': Table) {
    forall u, k :: u in s.tables && k in s.tables[u].foreignKeys && s.tables[u].foreignKeys[k].refTable == t ==>
      IsKey(t', s.tables[u].foreignKeys[k].refColumns)
  }

  function DropUniqueFrom(t: Table, r: RelationName): Table { t.(uniques := t.uniques - {r}) }

  predicate LegalCreate(s: Schema, name: TableName, t: Table) {
    && name !in s.tables && SelfContained(t)
    && (forall r :: r in Relations(t) ==> RelationFree(s, r))
    && (forall k :: k in t.foreignKeys ==>
          if t.foreignKeys[k].refTable == name then IsKey(t, t.foreignKeys[k].refColumns)
          else KeyExists(s, t.foreignKeys[k]))
  }

  predicate LegalAddColumn(s: Schema, name: TableName, c: Column, fks: map<ConstraintName, ForeignKey>) {
    && name in s.tables && c.name !in ColumnNames(s.tables[name].columns)
    && (forall k :: k in fks ==>
          ConstraintFree(s.tables[name], k) && fks[k].columns == [c.name] && KeyExists(s, fks[k]))
  }

  predicate Legal(s: Schema, op: Statement) {
    match op
    case CreateTable(t, def) => LegalCreate(s, t, def)
    case DropTable(t) => t in s.tables && NobodyNeeds(s, t)
    case AddColumn(t, c, fks) => LegalAddColumn(s, t, c, fks)
    case DropColumn(t, c) =>
      t in s.tables && c in ColumnNames(s.tables[t].columns) && NobodyNeedsColumn(s, t, c)
    case AddUnique(t, r, cs) => t in s.tables && RelationFree(s, r) && Within(cs, ColumnNames(s.tables[t].columns))
    case DropUnique(t, r) =>
      t in s.tables && r in s.tables[t].uniques && KeysKept(s, t, DropUniqueFrom(s.tables[t], r))
    case AddCheck(t, k, c) =>
      t in s.tables && ConstraintFree(s.tables[t], k) && c.Mentions() <= ColumnNames(s.tables[t].columns)
    case DropCheck(t, k) => t in s.tables && k in s.tables[t].checks
    case AddForeignKey(t, k, fk) =>
      && t in s.tables && ConstraintFree(s.tables[t], k) && KeyExists(s, fk)
      && Within(fk.columns, ColumnNames(s.tables[t].columns))
    case DropForeignKey(t, k) => t in s.tables && k in s.tables[t].foreignKeys
    case CreateIndex(t, r, i) =>
      t in s.tables && RelationFree(s, r) && i.Mentions() <= ColumnNames(s.tables[t].columns)
    case DropIndex(t, r) => t in s.tables && r in s.tables[t].indexes
    case CreateView(v, def) => v !in s.views && ReadsExist(s, def)
    case DropViewIfExists(_) => true
  }

  function Put(s: Schema, t: TableName, def: Table): Schema { s.(tables := s.tables[t := def]) }

  function Perform(s: Schema, op: Statement): Schema
    requires Legal(s, op)
  {
    match op
    case CreateTable(t, def) => Put(s, t, def)
    case DropTable(t) => s.(tables := s.tables - {t})
    case AddColumn(t, c, fks) =>
      Put(s, t, s.tables[t].(columns := s.tables[t].columns + [c], foreignKeys := s.tables[t].foreignKeys + fks))
    case DropColumn(t, c) => Put(s, t, CutColumn(s.tables[t], c))
    case AddUnique(t, r, cs) => Put(s, t, s.tables[t].(uniques := s.tables[t].uniques[r := cs]))
    case DropUnique(t, r) => Put(s, t, DropUniqueFrom(s.tables[t], r))
    case AddCheck(t, k, c) => Put(s, t, s.tables[t].(checks := s.tables[t].checks[k := c]))
    case DropCheck(t, k) => Put(s, t, s.tables[t].(checks := s.tables[t].checks - {k}))
    case AddForeignKey(t, k, fk) => Put(s, t, s.tables[t].(foreignKeys := s.tables[t].foreignKeys[k := fk]))
    case DropForeignKey(t, k) => Put(s, t, s.tables[t].(foreignKeys := s.tables[t].foreignKeys - {k}))
    case CreateIndex(t, r, i) => Put(s, t, s.tables[t].(indexes := s.tables[t].indexes[r := i]))
    case DropIndex(t, r) => Put(s, t, s.tables[t].(indexes := s.tables[t].indexes - {r}))
    case CreateView(v, def) => s.(views := s.views[v := def])
    case DropViewIfExists(v) => s.(views := s.views - {v})
  }

  function Apply(s: Schema, op: Statement): Option<Schema> {
    if Legal(s, op) then Some(Perform(s, op)) else None
  }

  /** A whole script: it stops at the first illegal statement. */
  function Run(s: Schema, ops: seq<Statement>): Option<Schema> {
    if ops == [] then Some(s)
    else
      var s' := Run(s, ops[..|ops| - 1]);
      if s'.None? then None else Apply(s'.value, ops[|ops| - 1])
  }

  // ---- Soundness is kept ----

  lemma {:induction false} WithoutColumnNames(cs: seq<Column>, c: ColumnName)
    requires DistinctColumns(cs)
    ensures ColumnNames(WithoutColumn(cs, c)) == ColumnNames(cs) - {c}
    ensures DistinctColumns(WithoutColumn(cs, c))
  {
    if cs != [] {
      WithoutColumnNames(cs[1..], c);
      var rest := WithoutColumn(cs[1..], c);
      if cs[0].name == c {
        assert [] + rest == rest;
      } else {
        assert ([cs[0]] + rest)[1..] == rest;
      }
    }
  }

  lemma {:induction false} AppendedColumn(cs: seq<Column>, c: Column)
    requires DistinctColumns(cs) && c.name !in ColumnNames(cs)
    ensures ColumnNames(cs + [c]) == ColumnNames(cs) + {c.name} && DistinctColumns(cs + [c])
    ensures WithoutColumn(cs + [c], c.name) == cs
  {
    if cs == [] {
      assert [c][1..] == [] && cs + [c] == [c];
    } else {
      AppendedColumn(cs[1..], c);
      assert (cs + [c])[1..] == cs[1..] + [c];
    }
  }

  /** What a statement does to one table, when the table exists before and after. */
  lemma OnlyOneTable(s: Schema, op: Statement, u: TableName)
    requires Legal(s, op)
    requires op.CreateView? || op.DropViewIfExists? || op.table != u
    ensures u in Perform(s, op).tables <==> u in s.tables
    ensures u in s.tables ==> Perform(s, op).tables[u] == s.tables[u]
  {
  }

  lemma CutKeepsSelfContained(t: Table, c: ColumnName)
    requires SelfContained(t)
    ensures SelfContained(CutColumn(t, c))
  {
    WithoutColumnNames(t.columns, c);
  }

  lemma AddedColumnSelfContained(t: Table, c: Column, fks: map<ConstraintName, ForeignKey>)
    requires SelfContained(t) && c.name !in ColumnNames(t.columns)
    requires forall k :: k in fks ==> ConstraintFree(t, k) && fks[k].columns == [c.name]
    ensures SelfContained(t.(columns := t.columns + [c], foreignKeys := t.foreignKeys + fks))
  {
    AppendedColumn(t.columns, c);
  }

  /** Statements that leave the columns of `t` alone. */
  lemma OtherwiseSelfContained(s: Schema, op: Statement, t: TableName)
    requires Legal(s, op) && t in Perform(s, op).tables && t in s.tables && SelfContained(s.tables[t])
    requires !op.CreateTable? && !op.AddColumn? && !op.DropColumn? && !op.CreateView? && !op.DropViewIfExists?
    requires op.table == t
    ensures SelfContained(Perform(s, op).tables[t])
  {
    assert ColumnNames(Perform(s, op).tables[t].columns) == ColumnNames(s.tables[t].columns);
  }

  lemma KeepsSelfContained(s: Schema, op: Statement, t: TableName)
    requires Sound(s) && Legal(s, op) && t in Perform(s, op).tables
    ensures SelfContained(Perform(s, op).tables[t])
  {
    if op.CreateView? || op.DropViewIfExists? || op.table != t {
      OnlyOneTable(s, op, t);
    } else if op.AddColumn? {
      AddedColumnSelfContained(s.tables[t], op.column, op.references);
    } else if op.DropColumn? {
      CutKeepsSelfContained(s.tables[t], op.columnName);
    } else if !op.CreateTable? {
      OtherwiseSelfContained(s, op, t);
    }
  }

  /** What is left of a table that existed before: keys that others still need, and its own keys. */
  lemma ForeignKeyOrigin(s: Schema, op: Statement, t: TableName, k: ConstraintName)
    requires Legal(s, op) && t in Perform(s, op).tables && k in Perform(s, op).tables[t].foreignKeys
    ensures var fk := Perform(s, op).tables[t].foreignKeys[k];
      || (t in s.tables && k in s.tables[t].foreignKeys && s.tables[t].foreignKeys[k] == fk)
      || (op.CreateTable? && op.table == t && fk == op.definition.foreignKeys[k])
      || (op.AddColumn? && op.table == t && KeyExists(s, fk))
      || (op.AddForeignKey? && op.table == t && KeyExists(s, fk))
  {
    if op.CreateView? || op.DropViewIfExists? || op.table != t {
      OnlyOneTable(s, op, t);
    }
  }

  /** A key that a surviving foreign key refers to survives. */
  lemma KeySurvives(s: Schema, op: Statement, fk: ForeignKey)
    requires Legal(s, op) && KeyExists(s, fk)
    requires op.DropTable? ==> op.table != fk.refTable
    requires op.DropColumn? && op.table == fk.refTable ==> op.columnName !in fk.refColumns
    requires op.DropUnique? && op.table == fk.refTable ==>
      IsKey(DropUniqueFrom(s.tables[op.table], op.relation), fk.refColumns)
    ensures KeyExists(Perform(s, op), fk)
  {
    var r := fk.refTable;
    if op.CreateView? || op.DropViewIfExists? || op.table != r {
      OnlyOneTable(s, op, r);
    } else if fk.refColumns != s.tables[r].primaryKey {
      var u :| u in s.tables[r].uniques && s.tables[r].uniques[u] == fk.refColumns;
      if op.AddUnique? {
        assert u != op.relation;
        assert Perform(s, op).tables[r].uniques[u] == fk.refColumns;
      } else if op.DropColumn? {
        assert Perform(s, op).tables[r].uniques[u] == fk.refColumns;
      }
    }
  }

  /** A drop is refused while a foreign key that stays needs what it would take away. */
  lemma OldKeySurvives(s: Schema, op: Statement, t: TableName, k: ConstraintName)
    requires Legal(s, op) && t in s.tables && k in s.tables[t].foreignKeys && KeyExists(s, s.tables[t].foreignKeys[k])
    requires op.DropTable? ==> op.table != t
    ensures KeyExists(Perform(s, op), s.tables[t].foreignKeys[k])
  {
    var fk := s.tables[t].foreignKeys[k];
    match op
    case DropTable(d) => assert NobodyNeeds(s, d); KeySurvives(s, op, fk);
    case DropColumn(d, c) => assert NobodyNeedsColumn(s, d, c); KeySurvives(s, op, fk);
    case DropUnique(d, r) => assert KeysKept(s, d, DropUniqueFrom(s.tables[d], r)); KeySurvives(s, op, fk);
    case _ => KeySurvives(s, op, fk);
  }

  lemma KeepsKeys(s: Schema, op: Statement, t: TableName, k: ConstraintName)
    requires Legal(s, op) && t in Perform(s, op).tables && k in Perform(s, op).tables[t].foreignKeys
    requires t in s.tables && k in s.tables[t].foreignKeys ==> KeyExists(s, s.tables[t].foreignKeys[k])
    ensures KeyExists(Perform(s, op), Perform(s, op).tables[t].foreignKeys[k])
  {
    var fk := Perform(s, op).tables[t].foreignKeys[k];
    ForeignKeyOrigin(s, op, t, k);
    if t in s.tables && k in s.tables[t].foreignKeys && s.tables[t].foreignKeys[k] == fk {
      OldKeySurvives(s, op, t, k);
    } else if op.CreateTable? && fk.refTable == t {
      assert IsKey(op.definition, fk.refColumns);
    } else {
      KeySurvives(s, op, fk);
    }
  }

  lemma ColumnsSurvive(s: Schema, op: Statement, t: TableName, c: ColumnName)
    requires Sound(s) && Legal(s, op) && t in s.tables && c in ColumnNames(s.tables[t].columns)
    requires op.DropTable? ==> op.table != t
    requires op.DropColumn? ==> (op.table, op.columnName) != (t, c)
    ensures t in Perform(s, op).tables && c in ColumnNames(Perform(s, op).tables[t].columns)
  {
    if op.CreateView? || op.DropViewIfExists? || op.table != t {
      OnlyOneTable(s, op, t);
    } else if op.AddColumn? {
      AppendedColumn(s.tables[t].columns, op.column);
    } else if op.DropColumn? {
      WithoutColumnNames(s.tables[t].columns, op.columnName);
    }
  }

  lemma KeepsViews(s: Schema, op: Statement, v: ViewName)
    requires Sound(s) && Legal(s, op) && v in Perform(s, op).views
    ensures ReadsExist(Perform(s, op), Perform(s, op).views[v])
  {
    var view := Perform(s, op).views[v];
    forall r | r in view.dependsOn
      ensures r.0 in Perform(s, op).tables && r.1 in ColumnNames(Perform(s, op).tables[r.0].columns)
    {
      if v in s.views && s.views[v] == view {
        ColumnsSurvive(s, op, r.0, r.1);
      } else {
        assert op.CreateView?;
      }
    }
  }

  lemma KeepsRelationsApart(s: Schema, op: Statement, t: TableName, u: TableName)
    requires Legal(s, op) && t in Perform(s, op).tables && u in Perform(s, op).tables && t != u
    requires t in s.tables && u in s.tables ==> Relations(s.tables[t]) !! Relations(s.tables[u])
    ensures Relations(Perform(s, op).tables[t]) !! Relations(Perform(s, op).tables[u])
  {
    var rt, ru := Relations(Perform(s, op).tables[t]), Relations(Perform(s, op).tables[u]);
    forall r | r in rt && r in ru ensures false {
      RelationsOrigin(s, op, t);
      RelationsOrigin(s, op, u);
    }
  }

  /** A relation of a table was there before or is new to the whole schema. */
  lemma RelationsOrigin(s: Schema, op: Statement, t: TableName)
    requires Legal(s, op) && t in Perform(s, op).tables
    ensures if (op.CreateTable? || op.AddUnique? || op.CreateIndex?) && op.table == t
            then forall r :: r in Relations(Perform(s, op).tables[t]) ==>
                   RelationFree(s, r) || (t in s.tables && r in Relations(s.tables[t]))
            else t in s.tables && Relations(Perform(s, op).tables[t]) <= Relations(s.tables[t])
  {
    if op.CreateView? || op.DropViewIfExists? || op.table != t {
      OnlyOneTable(s, op, t);
    }
  }

  /** Every legal statement keeps the schema free of dangling references. */
  lemma StatementKeepsSound(s: Schema, op: Statement)
    requires Sound(s) && Legal(s, op)
    ensures Sound(Perform(s, op))
  {
    var s' := Perform(s, op);
    forall t | t in s'.tables ensures SelfContained(s'.tables[t]) { KeepsSelfContained(s, op, t); }
    forall t, k | t in s'.tables && k in s'.tables[t].foreignKeys ensures KeyExists(s', s'.tables[t].foreignKeys[k]) {
      KeepsKeys(s, op, t, k);
    }
    forall v | v in s'.views ensures ReadsExist(s', s'.views[v]) { KeepsViews(s, op, v); }
    forall t, u | t in s'.tables && u in s'.tables && t != u
      ensures Relations(s'.tables[t]) !! Relations(s'.tables[u])
    {
      KeepsRelationsApart(s, op, t, u);
    }
  }

  /** After every single statement of a script that runs, no reference dangles. */
  lemma {:induction false} ScriptKeepsSound(s: Schema, ops: seq<Statement>, n: nat)
    requires Sound(s) && Run(s, ops).Some? && n <= |ops|
    ensures Run(s, ops[..n]).Some? && Sound(Run(s, ops[..n]).value)
    decreases |ops|
  {
    if n < |ops| {
      ScriptKeepsSound(s, ops[..|ops| - 1], n);
      assert ops[..|ops| - 1][..n] == ops[..n];
    } else if ops != [] {
      ScriptKeepsSound(s, ops[..|ops| - 1], |ops| - 1);
      assert ops[..|ops| - 1][..|ops| - 1] == ops[..|ops| - 1] && ops[..n] == ops;
      StatementKeepsSound(Run(s, ops[..|ops| - 1]).value, ops[|ops| - 1]);
    } else {
      assert ops[..n] == [];
    }
  }

  // ---- Shorthands for the migration scripts ----

  function Req(name: ColumnName, sqlType: SqlType): Column { Column(name, sqlType, false, None) }

  function Opt(name: ColumnName, sqlType: SqlType): Column { Column(name, sqlType, true, None) }

  function Def(name: ColumnName, sqlType: SqlType, default: string): Column {
    Column(name, sqlType, false, Some(default))
  }

  function Stamp(name: ColumnName): Column { Def(name, Timestamptz, "now()") }
}
