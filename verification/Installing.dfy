/** When does an upgrade script apply? A script is followed by counting how many tables, columns and
    relations of `SchemaNames` have been used: a name beyond the count is free, a table below it exists. */
module Installing {
  import opened Common
  import opened SchemaNames
  import opened Ddl
  import opened RoundTrip

  datatype Mark = Mark(tables: TableName, columns: ColumnName, relations: RelationName)

  predicate AtMost(m: Mark, n: Mark) {
    m.tables <= n.tables && m.columns <= n.columns && m.relations <= n.relations
  }

  /** `t` has the key `id`, refers to that of others, and uses no name beyond the mark. */
  predicate Under(t: Table, m: Mark) {
    && t.primaryKey == [ID]
    && (forall i :: 0 <= i < |t.columns| ==> t.columns[i].name < m.columns)
    && (forall r :: r in t.uniques ==> r < m.relations)
    && (forall r :: r in t.indexes ==> r < m.relations)
    && (forall k :: k in t.foreignKeys ==> t.foreignKeys[k].refColumns == [ID])
  }

  /** `s` has just the tables below the mark. */
  ghost predicate Reached(s: Schema, m: Mark) {
    && (forall t :: t in s.tables <==> t < m.tables)
    && (forall t :: t in s.tables ==> Under(s.tables[t], m))
  }

  lemma UnderMore(t: Table, m: Mark, n: Mark)
    requires Under(t, m) && AtMost(m, n)
    ensures Under(t, n)
  {
  }

  lemma {:induction false} NameAt(cs: seq<Column>, c: ColumnName) returns (i: nat)
    requires c in ColumnNames(cs)
    ensures i < |cs| && cs[i].name == c
  {
    if cs[0].name == c {
      i := 0;
    } else {
      var j := NameAt(cs[1..], c);
      i := j + 1;
    }
  }

  lemma {:induction false} Listed(cs: seq<Column>, i: nat)
    requires i < |cs|
    ensures cs[i].name in ColumnNames(cs)
  {
    if i > 0 { Listed(cs[1..], i - 1); }
  }

  lemma {:induction false} NamesAppended(cs: seq<Column>, c: Column)
    ensures ColumnNames(cs + [c]) == ColumnNames(cs) + {c.name}
  {
    if cs == [] {
      assert cs + [c] == [c] && [c][1..] == [];
    } else {
      NamesAppended(cs[1..], c);
      assert (cs + [c])[1..] == cs[1..] + [c];
    }
  }

  // ---- A table by itself ----

  predicate Pairwise(cs: seq<Column>) {
    forall i, j :: 0 <= i < j < |cs| ==> cs[i].name != cs[j].name
  }

  lemma {:induction false} PairwiseDistinct(cs: seq<Column>)
    requires Pairwise(cs)
    ensures DistinctColumns(cs)
  {
    if cs != [] {
      PairwiseDistinct(cs[1..]);
      forall c | c in ColumnNames(cs[1..]) ensures c != cs[0].name {
        var i := NameAt(cs[1..], c);
        assert cs[i + 1].name == c;
      }
    }
  }

  /** Where some of the columns stand. */
  predicate At(cs: seq<Column>, at: map<ColumnName, nat>) {
    forall c :: c in at ==> at[c] < |cs| && cs[at[c]].name == c
  }

  /** The constraints of `t`, which has no index yet, mention `names` only. */
  predicate Constrained(t: Table, names: set<ColumnName>) {
    && t.indexes == map[]
    && Within(t.primaryKey, names)
    && (forall u :: u in t.uniques ==> Within(t.uniques[u], names))
    && (forall k :: k in t.foreignKeys ==> k !in t.checks && Within(t.foreignKeys[k].columns, names))
    && (forall c :: c in t.checks ==> t.checks[c].Mentions() <= names)
  }

  lemma KnownColumns(cs: seq<Column>, at: map<ColumnName, nat>)
    requires At(cs, at)
    ensures at.Keys <= ColumnNames(cs)
  {
    forall c | c in at ensures c in ColumnNames(cs) { Listed(cs, at[c]); }
  }

  lemma StandsAlone(t: Table, at: map<ColumnName, nat>)
    requires Constrained(t, at.Keys) && At(t.columns, at) && Pairwise(t.columns)
    ensures SelfContained(t)
  {
    PairwiseDistinct(t.columns);
    KnownColumns(t.columns, at);
  }

  // ---- Single statements ----

  /** `t` is the next table, and `n` counts it in. */
  predicate Next(t: TableName, def: Table, m: Mark, n: Mark) {
    && t == m.tables && n.tables == t + 1 && AtMost(m, n)
    && def.primaryKey == [ID] && def.indexes == map[]
    && (forall i :: 0 <= i < |def.columns| ==> def.columns[i].name < n.columns)
    && (forall r :: r in def.uniques ==> m.relations <= r < n.relations)
    && (forall k :: k in def.foreignKeys ==> def.foreignKeys[k].refTable <= t && def.foreignKeys[k].refColumns == [ID])
  }

  lemma NextIsLegal(s: Schema, t: TableName, def: Table, m: Mark, n: Mark)
    requires Reached(s, m) && SelfContained(def) && Next(t, def, m, n)
    ensures Legal(s, CreateTable(t, def))
  {
    forall k | k in def.foreignKeys
      ensures if def.foreignKeys[k].refTable == t then IsKey(def, def.foreignKeys[k].refColumns)
              else KeyExists(s, def.foreignKeys[k])
    {
      assert def.foreignKeys[k].refColumns == [ID];
    }
  }

  lemma NextReaches(s: Schema, t: TableName, def: Table, m: Mark, n: Mark)
    requires Reached(s, m) && Next(t, def, m, n)
    ensures Reached(Put(s, t, def), n)
  {
    forall u | u in s.tables ensures Under(s.tables[u], n) { UnderMore(s.tables[u], m, n); }
  }

  lemma ColumnIsLegal(s: Schema, t: TableName, c: Column, m: Mark)
    requires Reached(s, m) && t < m.tables && m.columns <= c.name
    ensures Legal(s, AddColumn(t, c, map[]))
  {
    forall d | d in ColumnNames(s.tables[t].columns) ensures d != c.name {
      var i := NameAt(s.tables[t].columns, d);
      assert Under(s.tables[t], m);
    }
  }

  lemma ColumnReaches(s: Schema, t: TableName, c: Column, m: Mark)
    requires Reached(s, m) && t < m.tables && m.columns <= c.name
    ensures Legal(s, AddColumn(t, c, map[]))
    ensures Reached(Perform(s, AddColumn(t, c, map[])), m.(columns := c.name + 1))
    ensures Perform(s, AddColumn(t, c, map[])).tables[t].columns == s.tables[t].columns + [c]
  {
    var n := m.(columns := c.name + 1);
    ColumnIsLegal(s, t, c, m);
    forall u | u in s.tables ensures Under(s.tables[u], n) { UnderMore(s.tables[u], m, n); }
  }

  /** `op` gives table `t` the index or unique constraint numbered `r`. */
  predicate Indexes(op: Statement, t: TableName, r: RelationName, names: set<ColumnName>) {
    match op
    case CreateIndex(u, q, i) => u == t && q == r && i.Mentions() <= names
    case AddUnique(u, q, cs) => u == t && q == r && Within(cs, names)
    case _ => false
  }

  lemma IndexIsLegal(s: Schema, op: Statement, t: TableName, m: Mark, names: set<ColumnName>)
    requires Reached(s, m) && t < m.tables && names <= ColumnNames(s.tables[t].columns)
    requires Indexes(op, t, m.relations, names)
    ensures Legal(s, op)
  {
    forall u | u in s.tables ensures m.relations !in Relations(s.tables[u]) { assert Under(s.tables[u], m); }
  }

  lemma IndexReaches(s: Schema, op: Statement, t: TableName, m: Mark, names: set<ColumnName>)
    requires Reached(s, m) && t < m.tables && names <= ColumnNames(s.tables[t].columns)
    requires Indexes(op, t, m.relations, names)
    ensures Legal(s, op) && Reached(Perform(s, op), m.(relations := m.relations + 1))
    ensures Perform(s, op).tables[t].columns == s.tables[t].columns && Perform(s, op).views == s.views
  {
    var n := m.(relations := m.relations + 1);
    IndexIsLegal(s, op, t, m, names);
    forall u | u in s.tables ensures Under(s.tables[u], n) { UnderMore(s.tables[u], m, n); }
  }

  /** All foreign keys refer to primary keys, so a unique constraint can go. */
  lemma DropReaches(s: Schema, t: TableName, r: RelationName, m: Mark)
    requires Reached(s, m) && t in s.tables && r in s.tables[t].uniques
    ensures Legal(s, DropUnique(t, r)) && Reached(Perform(s, DropUnique(t, r)), m)
    ensures Perform(s, DropUnique(t, r)).views == s.views
  {
    var dropped := DropUniqueFrom(s.tables[t], r);
    forall u, k | u in s.tables && k in s.tables[u].foreignKeys && s.tables[u].foreignKeys[k].refTable == t
      ensures IsKey(dropped, s.tables[u].foreignKeys[k].refColumns)
    {
      assert Under(s.tables[u], m) && Under(s.tables[t], m);
    }
    assert Under(s.tables[t], m);
  }

  // ---- Scripts ----

  /** From every schema at mark m the script runs, to mark n, and leaves the views alone. */
  ghost predicate Extends(ops: seq<Statement>, m: Mark, n: Mark) {
    forall s :: Reached(s, m) ==> Runs(s, ops, n)
  }

  ghost predicate Runs(s: Schema, ops: seq<Statement>, n: Mark) {
    Run(s, ops).Some? && Reached(Run(s, ops).value, n) && Run(s, ops).value.views == s.views
  }

  lemma RunsOne(s: Schema, op: Statement, n: Mark)
    requires Legal(s, op) && Reached(Perform(s, op), n) && Perform(s, op).views == s.views
    ensures Runs(s, [op], n) && Run(s, [op]) == Some(Perform(s, op))
  {
    RunOne(s, op);
  }

  lemma RunsThen(s: Schema, a: seq<Statement>, b: seq<Statement>, n: Mark, o: Mark)
    requires Runs(s, a, n) && Runs(Run(s, a).value, b, o)
    ensures Runs(s, a + b, o) && Run(s, a + b) == Run(Run(s, a).value, b)
  {
    RunConcat(s, a, b);
  }

  lemma RunsConcat(s: Schema, a: seq<Statement>, b: seq<Statement>, n: Mark, o: Mark)
    requires Runs(s, a, n) && Extends(b, n, o)
    ensures Runs(s, a + b, o)
  {
    RunConcat(s, a, b);
    assert Runs(Run(s, a).value, b, o);
  }

  lemma ExtendsConcat(a: seq<Statement>, b: seq<Statement>, m: Mark, n: Mark, o: Mark)
    requires Extends(a, m, n) && Extends(b, n, o)
    ensures Extends(a + b, m, o)
  {
    forall s | Reached(s, m) ensures Runs(s, a + b, o) {
      assert Runs(s, a, n);
      RunsConcat(s, a, b, n, o);
    }
  }

  /** A new column, beyond the mark. */
  lemma ColumnExtends(t: TableName, c: Column, m: Mark)
    requires t < m.tables && m.columns <= c.name
    ensures Extends([AddColumn(t, c, map[])], m, m.(columns := c.name + 1))
  {
    forall s | Reached(s, m) ensures Runs(s, [AddColumn(t, c, map[])], m.(columns := c.name + 1)) {
      ColumnRuns(s, t, c, m);
    }
  }

  lemma ColumnRuns(s: Schema, t: TableName, c: Column, m: Mark)
    requires Reached(s, m) && t < m.tables && m.columns <= c.name
    ensures Runs(s, [AddColumn(t, c, map[])], m.(columns := c.name + 1))
    ensures var s' := Run(s, [AddColumn(t, c, map[])]).value;
      t in s'.tables && ColumnNames(s'.tables[t].columns) == ColumnNames(s.tables[t].columns) + {c.name}
  {
    ColumnReaches(s, t, c, m);
    RunsOne(s, AddColumn(t, c, map[]), m.(columns := c.name + 1));
    NamesAppended(s.tables[t].columns, c);
  }

  /** A new column that refers to another table. */
  lemma KeyedColumnRuns(s: Schema, t: TableName, c: Column, k: ConstraintName, fk: ForeignKey, m: Mark)
    requires Reached(s, m) && t < m.tables && m.columns <= c.name && ConstraintFree(s.tables[t], k)
    requires fk.columns == [c.name] && fk.refTable < m.tables && fk.refColumns == [ID]
    ensures Runs(s, [AddColumn(t, c, map[k := fk])], m.(columns := c.name + 1))
    ensures var s' := Run(s, [AddColumn(t, c, map[k := fk])]).value;
      && t in s'.tables && ColumnNames(s'.tables[t].columns) == ColumnNames(s.tables[t].columns) + {c.name}
      && s'.tables[t].checks == s.tables[t].checks && s'.tables[t].foreignKeys == s.tables[t].foreignKeys[k := fk]
  {
    var op := AddColumn(t, c, map[k := fk]);
    ColumnReaches(s, t, c, m);
    assert Under(s.tables[fk.refTable], m) && KeyExists(s, fk);
    assert Legal(s, op);
    KeyedColumnReaches(s, t, c, k, fk, m);
    RunsOne(s, op, m.(columns := c.name + 1));
    NamesAppended(s.tables[t].columns, c);
  }

  lemma KeyedColumnReaches(s: Schema, t: TableName, c: Column, k: ConstraintName, fk: ForeignKey, m: Mark)
    requires Legal(s, AddColumn(t, c, map[k := fk])) && Reached(s, m) && m.columns <= c.name && fk.refColumns == [ID]
    ensures Reached(Perform(s, AddColumn(t, c, map[k := fk])), m.(columns := c.name + 1))
    ensures s.tables[t].foreignKeys + map[k := fk] == s.tables[t].foreignKeys[k := fk]
  {
    var n := m.(columns := c.name + 1);
    var s' := Perform(s, AddColumn(t, c, map[k := fk]));
    WiderUnder(s.tables[t], c, k, fk, m);
    forall u | u in s'.tables ensures Under(s'.tables[u], n) {
      if u != t { UnderMore(s.tables[u], m, n); }
    }
  }

  lemma WiderUnder(t: Table, c: Column, k: ConstraintName, fk: ForeignKey, m: Mark)
    requires Under(t, m) && m.columns <= c.name && fk.refColumns == [ID]
    ensures Under(t.(columns := t.columns + [c], foreignKeys := t.foreignKeys + map[k := fk]),
                  m.(columns := c.name + 1))
    ensures t.foreignKeys + map[k := fk] == t.foreignKeys[k := fk]
  {
  }

  lemma IndexRuns(s: Schema, op: Statement, t: TableName, m: Mark, names: set<ColumnName>)
    requires Reached(s, m) && t < m.tables && names <= ColumnNames(s.tables[t].columns)
    requires Indexes(op, t, m.relations, names)
    ensures Runs(s, [op], m.(relations := m.relations + 1))
    ensures var s' := Run(s, [op]).value; t in s'.tables && s'.tables[t].columns == s.tables[t].columns
  {
    IndexReaches(s, op, t, m, names);
    RunsOne(s, op, m.(relations := m.relations + 1));
  }

  function Counted(n: Mark, more: nat): Mark { n.(relations := n.relations + more as RelationName) }

  predicate AllIndex(ops: seq<Statement>, t: TableName, r: RelationName, names: set<ColumnName>) {
    forall i :: 0 <= i < |ops| ==> Indexes(ops[i], t, r + i as RelationName, names)
  }

  lemma OneMoreIndex(s: Schema, before: seq<Statement>, op: Statement, t: TableName, m: Mark, k: nat,
                     names: set<ColumnName>)
    requires Runs(s, before, Counted(m, k)) && t < m.tables
    requires names <= ColumnNames(Run(s, before).value.tables[t].columns)
    requires Indexes(op, t, m.relations + k as RelationName, names)
    ensures Runs(s, before + [op], Counted(m, k + 1))
    ensures Run(s, before + [op]).value.tables[t].columns == Run(s, before).value.tables[t].columns
  {
    IndexRuns(Run(s, before).value, op, t, Counted(m, k), names);
    RunsThen(s, before, [op], Counted(m, k), Counted(m, k + 1));
  }

  lemma NextIndexRuns(s: Schema, ops: seq<Statement>, t: TableName, m: Mark, names: set<ColumnName>, n: nat)
    requires t < m.tables && AllIndex(ops, t, m.relations, names) && 0 < n <= |ops|
    requires Runs(s, ops[..n - 1], Counted(m, n - 1))
    requires names <= ColumnNames(Run(s, ops[..n - 1]).value.tables[t].columns)
    ensures Runs(s, ops[..n], Counted(m, n))
    ensures Run(s, ops[..n]).value.tables[t].columns == Run(s, ops[..n - 1]).value.tables[t].columns
  {
    assert ops[..n] == ops[..n - 1] + [ops[n - 1]];
    OneMoreIndex(s, ops[..n - 1], ops[n - 1], t, m, n - 1, names);
  }

  lemma {:induction false} IndexesRun(s: Schema, ops: seq<Statement>, t: TableName, m: Mark,
                                      names: set<ColumnName>, n: nat)
    requires Reached(s, m) && t < m.tables && names <= ColumnNames(s.tables[t].columns)
    requires AllIndex(ops, t, m.relations, names) && n <= |ops|
    ensures Runs(s, ops[..n], Counted(m, n))
    ensures Run(s, ops[..n]).value.tables[t].columns == s.tables[t].columns
  {
    if n == 0 {
      assert ops[..0] == [] && Counted(m, 0) == m;
    } else {
      IndexesRun(s, ops, t, m, names, n - 1);
      NextIndexRuns(s, ops, t, m, names, n);
    }
  }

  // ---- Blocks: a table and the indexes made for it right afterwards ----

  predicate Block(ops: seq<Statement>, at: map<ColumnName, nat>, m: Mark, n: Mark) {
    && ops != [] && ops[0].CreateTable?
    && (forall i :: 0 < i < |ops| ==> Indexes(ops[i], ops[0].table, n.relations + (i - 1) as RelationName, at.Keys))
    && At(ops[0].definition.columns, at)
    && Next(ops[0].table, ops[0].definition, m, n)
  }

  /** `s` is at the mark and has `t`, with these columns. */
  ghost predicate Has(s: Schema, t: TableName, columns: seq<Column>, m: Mark) {
    Reached(s, m) && t in s.tables && s.tables[t].columns == columns
  }

  lemma BlockStarts(s: Schema, op: Statement, m: Mark, n: Mark)
    requires op.CreateTable? && Reached(s, m) && SelfContained(op.definition) && Next(op.table, op.definition, m, n)
    ensures Legal(s, op) && Has(Perform(s, op), op.table, op.definition.columns, n) && Perform(s, op).views == s.views
  {
    NextIsLegal(s, op.table, op.definition, m, n);
    NextReaches(s, op.table, op.definition, m, n);
  }

  lemma BlockGoesOn(s: Schema, op: Statement, t: TableName, columns: seq<Column>, n: Mark, k: nat,
                    names: set<ColumnName>)
    requires Has(s, t, columns, Counted(n, k)) && names <= ColumnNames(columns)
    requires Indexes(op, t, n.relations + k as RelationName, names)
    ensures Legal(s, op) && Has(Perform(s, op), t, columns, Counted(n, k + 1)) && Perform(s, op).views == s.views
  {
    IndexReaches(s, op, t, Counted(n, k), names);
  }

  lemma {:induction false} BlockRuns(s: Schema, ops: seq<Statement>, at: map<ColumnName, nat>, m: Mark, n: Mark, i: nat)
    requires Reached(s, m) && Block(ops, at, m, n) && i < |ops|
    requires SelfContained(ops[0].definition) && at.Keys <= ColumnNames(ops[0].definition.columns)
    ensures Run(s, ops[..i + 1]).Some? && Run(s, ops[..i + 1]).value.views == s.views
    ensures Has(Run(s, ops[..i + 1]).value, ops[0].table, ops[0].definition.columns, Counted(n, i))
  {
    assert ops[..i + 1][..i] == ops[..i];
    if i == 0 {
      BlockStarts(s, ops[0], m, n);
      assert ops[..0] == [] && Counted(n, 0) == n;
    } else {
      BlockRuns(s, ops, at, m, n, i - 1);
      assert Indexes(ops[i], ops[0].table, n.relations + (i - 1) as RelationName, at.Keys);
      BlockGoesOn(Run(s, ops[..i]).value, ops[i], ops[0].table, ops[0].definition.columns, n, i - 1, at.Keys);
    }
  }

  lemma BlockExtends(ops: seq<Statement>, at: map<ColumnName, nat>, m: Mark, n: Mark)
    requires Block(ops, at, m, n) && SelfContained(ops[0].definition)
    ensures Extends(ops, m, Counted(n, |ops| - 1))
  {
    KnownColumns(ops[0].definition.columns, at);
    assert ops[..|ops|] == ops;
    forall s | Reached(s, m) ensures Runs(s, ops, Counted(n, |ops| - 1)) {
      BlockRuns(s, ops, at, m, n, |ops| - 1);
    }
  }

  /** Every block that makes `t` runs. */
  ghost predicate Serves(t: Table) {
    forall ops: seq<Statement>, at, m, n :: Block(ops, at, m, n) && ops[0].definition == t ==>
      Extends(ops, m, Counted(n, |ops| - 1))
  }

  /** A table serves if its columns differ and its constraints mention columns that it has. */
  lemma Serving(t: Table, at: map<ColumnName, nat>)
    requires Constrained(t, at.Keys) && At(t.columns, at) && Pairwise(t.columns)
    ensures Serves(t)
  {
    StandsAlone(t, at);
    forall ops: seq<Statement>, known, m, n | Block(ops, known, m, n) && ops[0].definition == t
      ensures Extends(ops, m, Counted(n, |ops| - 1))
    {
      BlockExtends(ops, known, m, n);
    }
  }

  /** A script that has come to mark m goes on with a block. */
  lemma ThenBlock(before: seq<Statement>, start: Mark, ops: seq<Statement>, at: map<ColumnName, nat>, m: Mark, n: Mark)
    requires Extends(before, start, m) && Block(ops, at, m, n) && Serves(ops[0].definition)
    ensures Extends(before + ops, start, Counted(n, |ops| - 1))
  {
    ExtendsConcat(before, ops, start, m, Counted(n, |ops| - 1));
  }

  lemma NothingExtends(m: Mark)
    ensures Extends([], m, m)
  {
  }
}
