/** Undoing schema changes: when does a downgrade script take back an upgrade script? */
module RoundTrip {
  import opened Common
  import opened SchemaNames
  import opened Ddl

  /** Statements that only add something; their inverse needs no memory of the schema. */
  predicate Additive(op: Statement) {
    || op.CreateTable? || op.AddColumn? || op.AddUnique? || op.AddCheck? || op.AddForeignKey? || op.CreateIndex?
    || op.CreateView?
  }

  function Undo(op: Statement): Statement
    requires Additive(op)
  {
    match op
    case CreateTable(t, _) => DropTable(t)
    case AddColumn(t, c, _) => DropColumn(t, c.name)
    case AddUnique(t, r, _) => DropUnique(t, r)
    case AddCheck(t, k, _) => DropCheck(t, k)
    case AddForeignKey(t, k, _) => DropForeignKey(t, k)
    case CreateIndex(t, r, _) => DropIndex(t, r)
    case CreateView(v, _) => DropViewIfExists(v)
  }

  lemma KeptMentions(t: Table, c: ColumnName)
    requires SelfContained(t) && c !in ColumnNames(t.columns)
    ensures c !in t.primaryKey
    ensures forall u :: u in t.uniques ==> c !in t.uniques[u]
    ensures forall k :: k in t.checks ==> c !in t.checks[k].Mentions()
    ensures forall i :: i in t.indexes ==> c !in t.indexes[i].Mentions()
    ensures forall k :: k in t.foreignKeys ==> c !in t.foreignKeys[k].columns
  {
  }

  lemma KeepsUniques(t: Table, c: ColumnName)
    requires SelfContained(t) && c !in ColumnNames(t.columns)
    ensures (map u | u in t.uniques && c !in t.uniques[u] :: t.uniques[u]) == t.uniques
  {
    KeptMentions(t, c);
  }

  lemma KeepsChecks(t: Table, c: ColumnName)
    requires SelfContained(t) && c !in ColumnNames(t.columns)
    ensures (map k | k in t.checks && c !in t.checks[k].Mentions() :: t.checks[k]) == t.checks
  {
    KeptMentions(t, c);
  }

  lemma KeepsIndexes(t: Table, c: ColumnName)
    requires SelfContained(t) && c !in ColumnNames(t.columns)
    ensures (map i | i in t.indexes && c !in t.indexes[i].Mentions() :: t.indexes[i]) == t.indexes
  {
    KeptMentions(t, c);
  }

  lemma KeepsForeignKeys(t: Table, fks: map<ConstraintName, ForeignKey>, c: ColumnName)
    requires SelfContained(t) && c !in ColumnNames(t.columns)
    requires forall k :: k in fks ==> ConstraintFree(t, k) && fks[k].columns == [c]
    ensures var all := t.foreignKeys + fks;
      (map k | k in all && c !in all[k].columns :: all[k]) == t.foreignKeys
  {
    KeptMentions(t, c);
  }

  lemma CutAddedColumn(t: Table, c: Column, fks: map<ConstraintName, ForeignKey>)
    requires SelfContained(t) && c.name !in ColumnNames(t.columns)
    requires forall k :: k in fks ==> ConstraintFree(t, k) && fks[k].columns == [c.name]
    ensures CutColumn(t.(columns := t.columns + [c], foreignKeys := t.foreignKeys + fks), c.name) == t
  {
    AppendedColumn(t.columns, c);
    KeptMentions(t, c.name);
    KeepsUniques(t, c.name);
    KeepsChecks(t, c.name);
    KeepsIndexes(t, c.name);
    KeepsForeignKeys(t, fks, c.name);
  }

  lemma PutBack(s: Schema, t: TableName, changed: Table)
    requires t in s.tables
    ensures Put(Put(s, t, changed), t, s.tables[t]) == s
  {
    assert s.tables[t := changed][t := s.tables[t]] == s.tables;
  }

  /** Nothing refers to a table that is not there yet. */
  lemma UndoCreateTable(s: Schema, t: TableName, def: Table)
    requires Sound(s) && Legal(s, CreateTable(t, def))
    ensures Apply(Perform(s, CreateTable(t, def)), DropTable(t)) == Some(s)
  {
    var s' := Perform(s, CreateTable(t, def));
    forall u, k | u in s'.tables && u != t && k in s'.tables[u].foreignKeys
      ensures s'.tables[u].foreignKeys[k].refTable != t
    {
      assert s'.tables[u] == s.tables[u];
      assert KeyExists(s, s.tables[u].foreignKeys[k]);
    }
    forall v, r | v in s'.views && r in s'.views[v].dependsOn ensures r.0 != t { assert ReadsExist(s, s.views[v]); }
    assert s'.tables - {t} == s.tables;
  }

  lemma KeyIsOld(t: Table, key: seq<ColumnName>, c: ColumnName)
    requires SelfContained(t) && IsKey(t, key) && c !in ColumnNames(t.columns)
    ensures c !in key
  {
    if key != t.primaryKey {
      var u :| u in t.uniques && t.uniques[u] == key;
    }
  }

  lemma NobodyNeedsNewColumn(s: Schema, t: TableName, c: Column, fks: map<ConstraintName, ForeignKey>)
    requires Sound(s) && Legal(s, AddColumn(t, c, fks))
    ensures NobodyNeedsColumn(Perform(s, AddColumn(t, c, fks)), t, c.name)
  {
    var op := AddColumn(t, c, fks);
    var s' := Perform(s, op);
    forall u, k | u in s'.tables && k in s'.tables[u].foreignKeys && s'.tables[u].foreignKeys[k].refTable == t
      ensures c.name !in s'.tables[u].foreignKeys[k].refColumns
    {
      ForeignKeyOrigin(s, op, u, k);
      assert KeyExists(s, s'.tables[u].foreignKeys[k]);
      KeyIsOld(s.tables[t], s'.tables[u].foreignKeys[k].refColumns, c.name);
    }
    forall v, r | v in s'.views && r in s'.views[v].dependsOn ensures r != (t, c.name) {
      assert ReadsExist(s, s.views[v]);
    }
  }

  lemma UndoAddColumn(s: Schema, t: TableName, c: Column, fks: map<ConstraintName, ForeignKey>)
    requires Sound(s) && Legal(s, AddColumn(t, c, fks))
    ensures Apply(Perform(s, AddColumn(t, c, fks)), DropColumn(t, c.name)) == Some(s)
  {
    NobodyNeedsNewColumn(s, t, c, fks);
    AppendedColumn(s.tables[t].columns, c);
    CutAddedColumn(s.tables[t], c, fks);
    PutBack(s, t, Perform(s, AddColumn(t, c, fks)).tables[t]);
  }

  lemma UniqueRemoved(t: Table, r: RelationName, cs: seq<ColumnName>)
    requires r !in t.uniques
    ensures DropUniqueFrom(t.(uniques := t.uniques[r := cs]), r) == t
  {
    assert t.uniques[r := cs] - {r} == t.uniques;
  }

  /** No foreign key relies on a unique constraint that is not there yet. */
  lemma KeysKeptWithout(s: Schema, t: TableName, r: RelationName, cs: seq<ColumnName>)
    requires Sound(s) && t in s.tables && Legal(s, AddUnique(t, r, cs))
    ensures KeysKept(Perform(s, AddUnique(t, r, cs)), t, s.tables[t])
  {
    var s' := Perform(s, AddUnique(t, r, cs));
    forall u, k | u in s'.tables && k in s'.tables[u].foreignKeys && s'.tables[u].foreignKeys[k].refTable == t
      ensures IsKey(s.tables[t], s'.tables[u].foreignKeys[k].refColumns)
    {
      ForeignKeyOrigin(s, AddUnique(t, r, cs), u, k);
      assert KeyExists(s, s.tables[u].foreignKeys[k]);
    }
  }

  lemma UndoAddUnique(s: Schema, t: TableName, r: RelationName, cs: seq<ColumnName>)
    requires Sound(s) && Legal(s, AddUnique(t, r, cs))
    ensures Apply(Perform(s, AddUnique(t, r, cs)), DropUnique(t, r)) == Some(s)
  {
    var changed := s.tables[t].(uniques := s.tables[t].uniques[r := cs]);
    var s' := Put(s, t, changed);
    assert Perform(s, AddUnique(t, r, cs)) == s';
    assert r !in Relations(s.tables[t]);
    UniqueRemoved(s.tables[t], r, cs);
    KeysKeptWithout(s, t, r, cs);
    PutBack(s, t, changed);
    assert Legal(s', DropUnique(t, r));
  }

  lemma UndoAddCheck(s: Schema, t: TableName, k: ConstraintName, c: Check)
    requires Legal(s, AddCheck(t, k, c))
    ensures Apply(Perform(s, AddCheck(t, k, c)), DropCheck(t, k)) == Some(s)
  {
    var s' := Perform(s, AddCheck(t, k, c));
    assert s'.tables[t].checks - {k} == s.tables[t].checks;
    PutBack(s, t, s'.tables[t]);
  }

  lemma UndoAddForeignKey(s: Schema, t: TableName, k: ConstraintName, fk: ForeignKey)
    requires Legal(s, AddForeignKey(t, k, fk))
    ensures Apply(Perform(s, AddForeignKey(t, k, fk)), DropForeignKey(t, k)) == Some(s)
  {
    var s' := Perform(s, AddForeignKey(t, k, fk));
    assert s'.tables[t].foreignKeys - {k} == s.tables[t].foreignKeys;
    PutBack(s, t, s'.tables[t]);
  }

  lemma UndoCreateIndex(s: Schema, t: TableName, r: RelationName, i: Index)
    requires Legal(s, CreateIndex(t, r, i))
    ensures Apply(Perform(s, CreateIndex(t, r, i)), DropIndex(t, r)) == Some(s)
  {
    var s' := Perform(s, CreateIndex(t, r, i));
    assert r !in Relations(s.tables[t]);
    assert s'.tables[t].indexes - {r} == s.tables[t].indexes;
    PutBack(s, t, s'.tables[t]);
  }

  lemma UndoCreateView(s: Schema, v: ViewName, def: View)
    requires Legal(s, CreateView(v, def))
    ensures Apply(Perform(s, CreateView(v, def)), DropViewIfExists(v)) == Some(s)
  {
    assert s.views[v := def] - {v} == s.views;
  }

  /** INVERSION. Any legal additive statement on any sound schema is taken back exactly. */
  lemma UndoRestores(s: Schema, op: Statement)
    requires Sound(s) && Legal(s, op) && Additive(op)
    ensures Apply(Perform(s, op), Undo(op)) == Some(s)
  {
    match op
    case CreateTable(t, def) => UndoCreateTable(s, t, def);
    case AddColumn(t, c, fks) => UndoAddColumn(s, t, c, fks);
    case AddUnique(t, r, cs) => UndoAddUnique(s, t, r, cs);
    case AddCheck(t, k, c) => UndoAddCheck(s, t, k, c);
    case AddForeignKey(t, k, fk) => UndoAddForeignKey(s, t, k, fk);
    case CreateIndex(t, r, i) => UndoCreateIndex(s, t, r, i);
    case CreateView(v, def) => UndoCreateView(s, v, def);
  }

  // ---- Scripts ----

  lemma {:induction false} RunConcat(s: Schema, a: seq<Statement>, b: seq<Statement>)
    ensures Run(s, a + b) == if Run(s, a).None? then None else Run(Run(s, a).value, b)
  {
    if b == [] {
      assert a + b == a;
    } else {
      assert (a + b)[..|a + b| - 1] == a + b[..|b| - 1];
      RunConcat(s, a, b[..|b| - 1]);
    }
  }

  lemma RunFirst(s: Schema, ops: seq<Statement>)
    requires ops != []
    ensures Run(s, ops) == if Apply(s, ops[0]).None? then None else Run(Apply(s, ops[0]).value, ops[1..])
  {
    assert ops == [ops[0]] + ops[1..] && [ops[0]][..0] == [];
    RunConcat(s, [ops[0]], ops[1..]);
  }

  lemma RunLast(s: Schema, ops: seq<Statement>, n: nat)
    requires 0 < n <= |ops| && Run(s, ops[..n]).Some?
    ensures Run(s, ops[..n - 1]).Some? && Legal(Run(s, ops[..n - 1]).value, ops[n - 1])
    ensures Run(s, ops[..n]).value == Perform(Run(s, ops[..n - 1]).value, ops[n - 1])
  {
    assert ops[..n][..n - 1] == ops[..n - 1];
  }

  lemma RunKeepsSound(s: Schema, ops: seq<Statement>)
    requires Sound(s) && Run(s, ops).Some?
    ensures Sound(Run(s, ops).value)
  {
    ScriptKeepsSound(s, ops, |ops|);
    assert ops[..|ops|] == ops;
  }

  /** `spent[i]` says how many statements of `down` have run when the first i statements of `up`
      are still standing. Each statement of `up` is undone by the next one of `down`, except that an
      index need not be dropped by hand when the next thing to go is its table. */
  predicate Undone(up: seq<Statement>, down: seq<Statement>, spent: seq<nat>, i: nat)
    requires 0 < i <= |up| && |spent| == |up| + 1
  {
    var op := up[i - 1];
    && Additive(op) && spent[i] < |down|
    && if spent[i - 1] == spent[i] + 1 then down[spent[i]] == Undo(op)
       else spent[i - 1] == spent[i] && op.CreateIndex? && down[spent[i]] == DropTable(op.table)
  }

  predicate Reverses(up: seq<Statement>, down: seq<Statement>, spent: seq<nat>) {
    && |spent| == |up| + 1 && spent[|up|] == 0 && spent[0] == |down|
    && forall i :: 0 < i <= |up| ==> Undone(up, down, spent, i)
  }

  predicate Opposite(up: seq<Statement>, down: seq<Statement>, i: nat)
    requires i < |up| == |down|
  {
    Additive(up[i]) && down[|up| - 1 - i] == Undo(up[i])
  }

  /** The plain case: `down` is `up` backwards, inverse by inverse. */
  predicate Mirrors(up: seq<Statement>, down: seq<Statement>) {
    |up| == |down| && forall i :: 0 <= i < |up| ==> Opposite(up, down, i)
  }

  lemma SameNeeds(s: Schema, t: TableName, changed: Table)
    requires t in s.tables && changed.foreignKeys == s.tables[t].foreignKeys
    ensures NobodyNeeds(Put(s, t, changed), t) <==> NobodyNeeds(s, t)
    ensures Put(s, t, changed).tables - {t} == s.tables - {t}
  {
    var s' := Put(s, t, changed);
    assert forall u :: u in s.tables ==> s'.tables[u].foreignKeys == s.tables[u].foreignKeys;
  }

  /** Dropping a table takes its indexes along. */
  lemma IndexGoesWithTable(s: Schema, op: Statement)
    requires op.CreateIndex? && Legal(s, op)
    ensures Apply(Perform(s, op), DropTable(op.table)) == Apply(s, DropTable(op.table))
  {
    SameNeeds(s, op.table, Perform(s, op).tables[op.table]);
  }

  lemma UndoneByHand(s: Schema, op: Statement, rest: seq<Statement>)
    requires Sound(s) && Legal(s, op) && Additive(op) && rest != [] && rest[0] == Undo(op)
    ensures Run(Perform(s, op), rest) == Run(s, rest[1..])
  {
    RunFirst(Perform(s, op), rest);
    UndoRestores(s, op);
  }

  lemma UndoneByTable(s: Schema, op: Statement, rest: seq<Statement>)
    requires Legal(s, op) && op.CreateIndex? && rest != [] && rest[0] == DropTable(op.table)
    ensures Run(Perform(s, op), rest) == Run(s, rest)
  {
    RunFirst(Perform(s, op), rest);
    RunFirst(s, rest);
    IndexGoesWithTable(s, op);
  }

  lemma {:induction false} ReversalRestoresFrom(s: Schema, up: seq<Statement>, down: seq<Statement>, spent: seq<nat>,
                                                i: nat)
    requires Reverses(up, down, spent) && i <= |up|
    requires Sound(s) && Run(s, up[..i]).Some?
    ensures spent[i] <= |down| && Run(Run(s, up[..i]).value, down[spent[i]..]) == Some(s)
    decreases i
  {
    if i == 0 {
      assert up[..0] == [] && down[spent[0]..] == [];
    } else {
      assert Undone(up, down, spent, i);
      RunLast(s, up, i);
      RunKeepsSound(s, up[..i - 1]);
      ReversalRestoresFrom(s, up, down, spent, i - 1);
      var s1 := Run(s, up[..i - 1]).value;
      if spent[i - 1] == spent[i] + 1 {
        UndoneByHand(s1, up[i - 1], down[spent[i]..]);
        assert down[spent[i]..][1..] == down[spent[i - 1]..];
      } else {
        UndoneByTable(s1, up[i - 1], down[spent[i]..]);
      }
    }
  }

  /** ROUND TRIP. A script reversed in this sense is taken back exactly, from every sound schema on
      which it runs: columns in order, constraints, indexes and views. */
  lemma ReversalRestores(s: Schema, up: seq<Statement>, down: seq<Statement>, spent: seq<nat>)
    requires Sound(s) && Run(s, up).Some? && Reverses(up, down, spent)
    ensures Run(Run(s, up).value, down) == Some(s)
  {
    assert up[..|up|] == up && down[0..] == down;
    ReversalRestoresFrom(s, up, down, spent, |up|);
  }

  lemma MirrorRestores(s: Schema, up: seq<Statement>, down: seq<Statement>)
    requires Sound(s) && Run(s, up).Some? && Mirrors(up, down)
    ensures Run(Run(s, up).value, down) == Some(s)
  {
    var spent: seq<nat> := seq(|up| + 1, i requires 0 <= i <= |up| => |up| - i);
    forall i | 0 < i <= |up| ensures Undone(up, down, spent, i) {
      assert Opposite(up, down, i - 1);
    }
    ReversalRestores(s, up, down, spent);
  }

  // ---- Replaced constraints ----

  function WithForeignKey(s: Schema, t: TableName, k: ConstraintName, fk: ForeignKey): Schema
    requires t in s.tables
  {
    Put(s, t, s.tables[t].(foreignKeys := s.tables[t].foreignKeys[k := fk]))
  }

  function WithUnique(s: Schema, t: TableName, r: RelationName, cs: seq<ColumnName>): Schema
    requires t in s.tables
  {
    Put(s, t, s.tables[t].(uniques := s.tables[t].uniques[r := cs]))
  }

  lemma KeysSeeOnlyKeys(s: Schema, t: TableName, changed: Table, fk: ForeignKey)
    requires t in s.tables && changed.primaryKey == s.tables[t].primaryKey && changed.uniques == s.tables[t].uniques
    ensures KeyExists(Put(s, t, changed), fk) <==> KeyExists(s, fk)
  {
  }

  lemma PutTwice(s: Schema, t: TableName, first: Table, second: Table)
    requires t in s.tables
    ensures Put(Put(s, t, first), t, second) == Put(s, t, second)
  {
    assert s.tables[t := first][t := second] == s.tables[t := second];
  }

  lemma ReAddForeignKey(s: Schema, t: TableName, k: ConstraintName, fk: ForeignKey)
    requires Legal(s, DropForeignKey(t, k)) && SelfContained(s.tables[t])
    ensures var s1 := Perform(s, DropForeignKey(t, k));
      Apply(s1, AddForeignKey(t, k, fk)) ==
        if KeyExists(s, fk) && Within(fk.columns, ColumnNames(s.tables[t].columns))
        then Some(WithForeignKey(s, t, k, fk)) else None
  {
    var before := s.tables[t];
    var cut := before.(foreignKeys := before.foreignKeys - {k});
    var after := before.(foreignKeys := before.foreignKeys[k := fk]);
    var s1 := Put(s, t, cut);
    assert Perform(s, DropForeignKey(t, k)) == s1;
    KeysSeeOnlyKeys(s, t, cut, fk);
    assert ConstraintFree(cut, k);
    assert cut.foreignKeys[k := fk] == before.foreignKeys[k := fk];
    PutTwice(s, t, cut, after);
  }

  lemma RunTwo(s: Schema, a: Statement, b: Statement)
    ensures Run(s, [a, b]) == if Apply(s, a).None? then None else Apply(Apply(s, a).value, b)
  {
    assert [a, b][..1] == [a] && [a][..0] == [];
    assert Run(s, [a]) == Apply(s, a);
  }

  function ReplaceForeignKey(t: TableName, k: ConstraintName, fk: ForeignKey): seq<Statement> {
    [DropForeignKey(t, k), AddForeignKey(t, k, fk)]
  }

  /** Drop a foreign key and create it anew: afterwards it is the new one, whatever it was. */
  lemma ReplacedForeignKey(s: Schema, t: TableName, k: ConstraintName, fk: ForeignKey)
    requires Sound(s)
    ensures Run(s, ReplaceForeignKey(t, k, fk)) ==
      if t in s.tables && k in s.tables[t].foreignKeys && KeyExists(s, fk)
         && Within(fk.columns, ColumnNames(s.tables[t].columns))
      then Some(WithForeignKey(s, t, k, fk)) else None
  {
    RunTwo(s, DropForeignKey(t, k), AddForeignKey(t, k, fk));
    if Legal(s, DropForeignKey(t, k)) {
      assert SelfContained(s.tables[t]);
      ReAddForeignKey(s, t, k, fk);
    }
  }

  lemma ReplacedTwice(s: Schema, t: TableName, k: ConstraintName, first: ForeignKey, second: ForeignKey)
    requires t in s.tables
    ensures WithForeignKey(WithForeignKey(s, t, k, first), t, k, second) == WithForeignKey(s, t, k, second)
  {
    var keys := s.tables[t].foreignKeys;
    assert keys[k := first][k := second] == keys[k := second];
    PutTwice(s, t, s.tables[t].(foreignKeys := keys[k := first]), s.tables[t].(foreignKeys := keys[k := second]));
  }

  /** Replacing a foreign key and then replacing it back by one that differs in ON DELETE only. */
  lemma ReplaceAndBack(s: Schema, t: TableName, k: ConstraintName, fk: ForeignKey, back: OnDelete)
    requires Sound(s) && Run(s, ReplaceForeignKey(t, k, fk)).Some?
    ensures t in s.tables && k in s.tables[t].foreignKeys
    ensures Run(Run(s, ReplaceForeignKey(t, k, fk)).value, ReplaceForeignKey(t, k, fk.(onDelete := back)))
         == Some(WithForeignKey(s, t, k, fk.(onDelete := back)))
  {
    var old' := fk.(onDelete := back);
    ReplacedForeignKey(s, t, k, fk);
    var s' := WithForeignKey(s, t, k, fk);
    SoundWith(s, t, k, fk);
    KeysSeeOnlyKeys(s, t, s'.tables[t], old');
    ReplacedForeignKey(s', t, k, old');
    ReplacedTwice(s, t, k, fk, old');
  }

  lemma SoundWith(s: Schema, t: TableName, k: ConstraintName, fk: ForeignKey)
    requires Sound(s) && Run(s, ReplaceForeignKey(t, k, fk)).Some?
    ensures Sound(Run(s, ReplaceForeignKey(t, k, fk)).value)
  {
    var ops := ReplaceForeignKey(t, k, fk);
    ScriptKeepsSound(s, ops, 2);
    assert ops[..2] == ops;
  }

  /** The replacement changes nothing exactly when the key was that one already. */
  lemma SameForeignKey(s: Schema, t: TableName, k: ConstraintName, fk: ForeignKey)
    requires t in s.tables && k in s.tables[t].foreignKeys
    ensures WithForeignKey(s, t, k, fk) == s <==> s.tables[t].foreignKeys[k] == fk
  {
    var keys := s.tables[t].foreignKeys;
    if keys[k] == fk {
      assert keys[k := fk] == keys;
      assert s.tables[t := s.tables[t]] == s.tables;
    } else {
      assert WithForeignKey(s, t, k, fk).tables[t].foreignKeys[k] == fk;
    }
  }

  lemma SameUnique(s: Schema, t: TableName, r: RelationName, cs: seq<ColumnName>)
    requires t in s.tables && r in s.tables[t].uniques
    ensures WithUnique(s, t, r, cs) == s <==> s.tables[t].uniques[r] == cs
  {
    var uniques := s.tables[t].uniques;
    if uniques[r] == cs {
      assert uniques[r := cs] == uniques;
      assert s.tables[t := s.tables[t]] == s.tables;
    } else {
      assert WithUnique(s, t, r, cs).tables[t].uniques[r] == cs;
    }
  }

  /** Once a unique constraint is dropped its name is free again. */
  lemma NameFreed(s: Schema, t: TableName, r: RelationName)
    requires Sound(s) && Legal(s, DropUnique(t, r))
    ensures RelationFree(Perform(s, DropUnique(t, r)), r)
  {
    var s1 := Perform(s, DropUnique(t, r));
    assert SelfContained(s.tables[t]);
    forall u | u in s1.tables ensures r !in Relations(s1.tables[u]) {
      if u != t {
        assert s1.tables[u] == s.tables[u];
        assert r in Relations(s.tables[t]);
        assert Relations(s.tables[u]) !! Relations(s.tables[t]);
      }
    }
  }

  lemma RecreatedUnique(s: Schema, t: TableName, r: RelationName, cs: seq<ColumnName>)
    requires Sound(s) && Legal(s, DropUnique(t, r))
    ensures Apply(Perform(s, DropUnique(t, r)), AddUnique(t, r, cs)) ==
      if Within(cs, ColumnNames(s.tables[t].columns)) then Some(WithUnique(s, t, r, cs)) else None
  {
    NameFreed(s, t, r);
    var dropped := DropUniqueFrom(s.tables[t], r);
    var s1 := Put(s, t, dropped);
    assert Perform(s, DropUnique(t, r)) == s1;
    assert Legal(s1, AddUnique(t, r, cs)) <==> Within(cs, ColumnNames(s.tables[t].columns));
    UniqueReplaced(s.tables[t], r, cs);
    PutTwice(s, t, dropped, dropped.(uniques := dropped.uniques[r := cs]));
  }

  lemma UniqueReplaced(t: Table, r: RelationName, cs: seq<ColumnName>)
    ensures DropUniqueFrom(t, r).(uniques := DropUniqueFrom(t, r).uniques[r := cs]) == t.(uniques := t.uniques[r := cs])
  {
    assert (t.uniques - {r})[r := cs] == t.uniques[r := cs];
  }

  lemma RunOne(s: Schema, op: Statement)
    ensures Run(s, [op]) == Apply(s, op)
  {
    assert [op][..0] == [];
  }

  /** A unique constraint dropped first and re-created last, around a script and its mirror image:
      what comes back is `s` with the constraint as it was re-created. */
  lemma AroundMirror(s: Schema, t: TableName, r: RelationName, cs: seq<ColumnName>,
                     up: seq<Statement>, down: seq<Statement>)
    requires Sound(s) && Mirrors(up, down) && Run(s, [DropUnique(t, r)] + up).Some?
    ensures t in s.tables && r in s.tables[t].uniques
    ensures Run(Run(s, [DropUnique(t, r)] + up).value, down + [AddUnique(t, r, cs)]) ==
      if Within(cs, ColumnNames(s.tables[t].columns)) then Some(WithUnique(s, t, r, cs)) else None
  {
    RunConcat(s, [DropUnique(t, r)], up);
    RunOne(s, DropUnique(t, r));
    var s1 := Perform(s, DropUnique(t, r));
    StatementKeepsSound(s, DropUnique(t, r));
    MirrorRestores(s1, up, down);
    RunConcat(Run(s1, up).value, down, [AddUnique(t, r, cs)]);
    RunOne(s1, AddUnique(t, r, cs));
    RecreatedUnique(s, t, r, cs);
  }

  // ---- Chains of migrations ----

  datatype Migration = Migration(up: seq<Statement>, down: seq<Statement>)

  /** The statements that take revision i to revision j, and back; migration n is `ms[n - 1]`. */
  function UpFrom(ms: seq<Migration>, i: nat, j: nat): seq<Statement>
    requires j <= |ms|
    decreases j - i
  {
    if j <= i then [] else ms[i].up + UpFrom(ms, i + 1, j)
  }

  function DownTo(ms: seq<Migration>, j: nat, i: nat): seq<Statement>
    requires j <= |ms|
    decreases j - i
  {
    if j <= i then [] else DownTo(ms, j, i + 1) + ms[i].down
  }

  /** A script inside another: once the inner one is taken back, the outer one is. */
  lemma RunNested(s: Schema, up: seq<Statement>, inner: seq<Statement>, innerDown: seq<Statement>, down: seq<Statement>)
    requires Run(s, up).Some? && Run(Run(s, up).value, inner).Some?
    requires Run(Run(Run(s, up).value, inner).value, innerDown) == Run(s, up)
    ensures Run(s, up + inner).Some?
    ensures Run(Run(s, up + inner).value, innerDown + down) == Run(Run(s, up).value, down)
  {
    RunConcat(s, up, inner);
    RunConcat(Run(s, up + inner).value, innerDown, down);
  }

  /** Wherever the upgrade applies, the downgrade takes it back exactly. */
  ghost predicate Restores(m: Migration) {
    forall s :: Sound(s) && Run(s, m.up).Some? ==> Run(Run(s, m.up).value, m.down) == Some(s)
  }

  lemma RestoresByReversal(m: Migration, spent: seq<nat>)
    requires Reverses(m.up, m.down, spent)
    ensures Restores(m)
  {
    forall s | Sound(s) && Run(s, m.up).Some? ensures Run(Run(s, m.up).value, m.down) == Some(s) {
      ReversalRestores(s, m.up, m.down, spent);
    }
  }

  lemma RestoresByMirror(m: Migration)
    requires Mirrors(m.up, m.down)
    ensures Restores(m)
  {
    forall s | Sound(s) && Run(s, m.up).Some? ensures Run(Run(s, m.up).value, m.down) == Some(s) {
      MirrorRestores(s, m.up, m.down);
    }
  }

  // ---- What a script leaves behind ----

  /** What the statement declares is in the schema, just as declared. */
  predicate Declared(s: Schema, op: Statement)
    requires Additive(op)
  {
    if op.CreateView? then op.view in s.views && s.views[op.view] == op.query
    else
      op.table in s.tables &&
      var t := s.tables[op.table];
      match op
      case CreateTable(_, def) => Contains(t, def)
      case AddColumn(_, c, fks) =>
        c in t.columns && forall k :: k in fks ==> k in t.foreignKeys && t.foreignKeys[k] == fks[k]
      case AddUnique(_, r, cs) => r in t.uniques && t.uniques[r] == cs
      case AddCheck(_, k, c) => k in t.checks && t.checks[k] == c
      case AddForeignKey(_, k, fk) => k in t.foreignKeys && t.foreignKeys[k] == fk
      case CreateIndex(_, r, i) => r in t.indexes && t.indexes[r] == i
  }

  /** All of `def` is in `t`. */
  predicate Contains(t: Table, def: Table) {
    && t.primaryKey == def.primaryKey && def.columns <= t.columns
    && (forall u :: u in def.uniques ==> u in t.uniques && t.uniques[u] == def.uniques[u])
    && (forall k :: k in def.checks ==> k in t.checks && t.checks[k] == def.checks[k])
    && (forall k :: k in def.foreignKeys ==> k in t.foreignKeys && t.foreignKeys[k] == def.foreignKeys[k])
    && (forall i :: i in def.indexes ==> i in t.indexes && t.indexes[i] == def.indexes[i])
  }

  /** `later` drops nothing of what `op` declares: not the thing, nor its table, nor a column it mentions. */
  predicate Leaves(op: Statement, later: Statement)
    requires Additive(op)
  {
    if op.CreateView? then later != DropViewIfExists(op.view)
    else
      match later
      case DropTable(t) => t != op.table
      case DropColumn(t, c) => t != op.table || !Uses(op, c)
      case DropUnique(t, r) => t != op.table || !(DropsUnique(op, r))
      case DropCheck(t, k) => t != op.table || !(DropsCheck(op, k))
      case DropForeignKey(t, k) => t != op.table || !(DropsForeignKey(op, k))
      case DropIndex(t, r) => t != op.table || !(DropsIndex(op, r))
      case _ => true
  }

  predicate Uses(op: Statement, c: ColumnName) {
    match op
    case CreateTable(_, _) => true
    case AddColumn(_, d, _) => d.name == c
    case AddUnique(_, _, cs) => c in cs
    case AddCheck(_, _, check) => c in check.Mentions()
    case AddForeignKey(_, _, fk) => c in fk.columns
    case CreateIndex(_, _, i) => c in i.Mentions()
    case _ => false
  }

  predicate DropsUnique(op: Statement, r: RelationName) {
    (op.AddUnique? && op.relation == r) || (op.CreateTable? && r in op.definition.uniques)
  }

  predicate DropsCheck(op: Statement, k: ConstraintName) {
    (op.AddCheck? && op.constraint == k) || (op.CreateTable? && k in op.definition.checks)
  }

  predicate DropsForeignKey(op: Statement, k: ConstraintName) {
    || (op.AddForeignKey? && op.constraint == k)
    || (op.AddColumn? && k in op.references)
    || (op.CreateTable? && k in op.definition.foreignKeys)
  }

  predicate DropsIndex(op: Statement, r: RelationName) {
    (op.CreateIndex? && op.relation == r) || (op.CreateTable? && r in op.definition.indexes)
  }

  lemma PerformDeclares(s: Schema, op: Statement)
    requires Legal(s, op) && Additive(op)
    ensures Declared(Perform(s, op), op)
  {
    if op.AddColumn? {
      var cs := s.tables[op.table].columns + [op.column];
      assert cs[|cs| - 1] == op.column;
    }
  }

  lemma {:induction false} OtherColumnStays(cs: seq<Column>, c: ColumnName, d: Column)
    requires d in cs && d.name != c
    ensures d in WithoutColumn(cs, c)
  {
    if cs[0] != d {
      assert d in cs[1..];
      OtherColumnStays(cs[1..], c, d);
    }
  }

  /** A reference declared with a column is a reference of just that column. */
  predicate OwnReferences(op: Statement) {
    op.AddColumn? ==> forall k :: k in op.references ==> op.references[k].columns == [op.column.name]
  }

  lemma CutLeaves(s: Schema, op: Statement, c: ColumnName)
    requires Additive(op) && !op.CreateView? && !op.CreateTable? && Declared(s, op) && !Uses(op, c)
    requires OwnReferences(op)
    requires Legal(s, DropColumn(op.table, c))
    ensures Declared(Perform(s, DropColumn(op.table, c)), op)
  {
    if op.AddColumn? { OtherColumnStays(s.tables[op.table].columns, c, op.column); }
  }

  lemma AddingLeaves(s: Schema, op: Statement, later: Statement)
    requires Additive(op) && !op.CreateView? && Declared(s, op) && Legal(s, later)
    requires Additive(later) && !later.CreateView? && later.table == op.table
    ensures Declared(Perform(s, later), op)
  {
  }

  lemma DroppingLeaves(s: Schema, op: Statement, later: Statement)
    requires Additive(op) && !op.CreateView? && Declared(s, op) && Leaves(op, later) && Legal(s, later)
    requires later.DropUnique? || later.DropCheck? || later.DropForeignKey? || later.DropIndex?
    requires later.table == op.table
    ensures Declared(Perform(s, later), op)
  {
  }

  lemma StatementLeaves(s: Schema, op: Statement, later: Statement)
    requires Additive(op) && OwnReferences(op) && Declared(s, op) && Leaves(op, later) && Legal(s, later)
    ensures Declared(Perform(s, later), op)
  {
    if op.CreateView? {
    } else if later.CreateView? || later.DropViewIfExists? || later.table != op.table {
      OnlyOneTable(s, later, op.table);
    } else if Additive(later) {
      AddingLeaves(s, op, later);
    } else if later.DropColumn? {
      CutLeaves(s, op, later.columnName);
    } else {
      DroppingLeaves(s, op, later);
    }
  }

  /** A unique constraint is a key like the primary key: foreign keys of any table may refer to it. */
  lemma UniqueServesAsKey(s: Schema, t: TableName, r: RelationName, cs: seq<ColumnName>, u: TableName, c: Column,
                          k: ConstraintName, onDelete: OnDelete)
    requires Legal(s, AddUnique(t, r, cs)) && |cs| == 1
    requires u in s.tables && ConstraintFree(s.tables[u], k) && c.name !in ColumnNames(s.tables[u].columns)
    ensures Legal(Perform(s, AddUnique(t, r, cs)), AddColumn(u, c, map[k := ForeignKey([c.name], t, cs, onDelete)]))
  {
    var s' := Perform(s, AddUnique(t, r, cs));
    assert s'.tables[t].uniques[r] == cs;
  }

  predicate Drops(op: Statement) {
    op.DropTable? || op.DropColumn? || op.DropUnique? || op.DropCheck? || op.DropForeignKey? || op.DropIndex?
  }

  /** Dropping what is not there, or no longer there, is an error, except for the view. */
  lemma DropTwiceFails(s: Schema, op: Statement)
    requires Sound(s) && Legal(s, op) && Drops(op)
    ensures Apply(Perform(s, op), op).None?
  {
    if op.DropColumn? { WithoutColumnNames(s.tables[op.table].columns, op.columnName); }
  }

  /** WHAT IS DECLARED STAYS. In any script that runs, whatever a statement declares, be it a table, a column
      with its references, a constraint, an index or a view, is there in the end just as declared, unless
      a later statement drops it, its table or a column it uses. */
  lemma {:induction false} DeclaredStays(s: Schema, ops: seq<Statement>, k: nat, n: nat)
    requires k < n <= |ops| && Additive(ops[k]) && Run(s, ops[..n]).Some?
    requires forall i :: k < i < |ops| ==> Leaves(ops[k], ops[i])
    ensures Declared(Run(s, ops[..n]).value, ops[k])
    decreases n
  {
    RunLast(s, ops, n);
    if k == n - 1 {
      PerformDeclares(Run(s, ops[..k]).value, ops[k]);
    } else {
      DeclaredStays(s, ops, k, n - 1);
      ReferencesOwn(s, ops, k, n);
      StatementLeaves(Run(s, ops[..n - 1]).value, ops[k], ops[n - 1]);
    }
  }

  lemma {:induction false} ReferencesOwn(s: Schema, ops: seq<Statement>, k: nat, n: nat)
    requires k < n <= |ops| && Run(s, ops[..n]).Some?
    ensures OwnReferences(ops[k])
    decreases n
  {
    RunLast(s, ops, n);
    if k < n - 1 { ReferencesOwn(s, ops, k, n - 1); }
  }

  // ---- What a script does not touch ----

  /** `op` leaves the columns and keys of table `t` as they are. */
  predicate Spares(op: Statement, t: TableName) {
    op.CreateIndex? || (op.CreateTable? && op.table != t)
  }

  /** `t` exists and is as `def` gives it, more indexes aside. */
  predicate HasTable(s: Schema, t: TableName, def: Table) {
    && t in s.tables && s.tables[t].columns == def.columns && s.tables[t].checks == def.checks
    && s.tables[t].foreignKeys == def.foreignKeys && s.tables[t].uniques == def.uniques
  }

  /** Statement k of the script creates `t`, and the rest spares it. */
  predicate Creates(ops: seq<Statement>, k: nat, t: TableName, def: Table) {
    k < |ops| && ops[k] == CreateTable(t, def) && forall i :: k < i < |ops| ==> Spares(ops[i], t)
  }

  lemma SparedTable(s: Schema, op: Statement, t: TableName, def: Table)
    requires Legal(s, op) && Spares(op, t) && HasTable(s, t, def)
    ensures HasTable(Perform(s, op), t, def)
  {
  }

  /** A table created by a script stays as it was created while the rest spares it. */
  lemma {:induction false} CreatedTableStays(s: Schema, ops: seq<Statement>, k: nat, t: TableName, def: Table, n: nat)
    requires Creates(ops, k, t, def) && k < n <= |ops| && Run(s, ops[..n]).Some?
    ensures HasTable(Run(s, ops[..n]).value, t, def)
    decreases n
  {
    RunLast(s, ops, n);
    if k < n - 1 {
      CreatedTableStays(s, ops, k, t, def, n - 1);
      SparedTable(Run(s, ops[..n - 1]).value, ops[n - 1], t, def);
    }
  }

  lemma CreatedTable(s: Schema, ops: seq<Statement>, k: nat, t: TableName, def: Table)
    requires Creates(ops, k, t, def) && Run(s, ops).Some?
    ensures HasTable(Run(s, ops).value, t, def)
  {
    assert ops[..|ops|] == ops;
    CreatedTableStays(s, ops, k, t, def, |ops|);
  }

  lemma {:induction false} SparedTableStays(s: Schema, ops: seq<Statement>, t: TableName, def: Table, n: nat)
    requires HasTable(s, t, def) && n <= |ops| && Run(s, ops[..n]).Some?
    requires forall i :: 0 <= i < |ops| ==> Spares(ops[i], t)
    ensures HasTable(Run(s, ops[..n]).value, t, def)
  {
    if n > 0 {
      RunLast(s, ops, n);
      SparedTableStays(s, ops, t, def, n - 1);
      SparedTable(Run(s, ops[..n - 1]).value, ops[n - 1], t, def);
    }
  }

  lemma SparedByAll(s: Schema, ops: seq<Statement>, t: TableName, def: Table)
    requires HasTable(s, t, def) && Run(s, ops).Some?
    requires forall i :: 0 <= i < |ops| ==> Spares(ops[i], t)
    ensures HasTable(Run(s, ops).value, t, def)
  {
    assert ops[..|ops|] == ops;
    SparedTableStays(s, ops, t, def, |ops|);
  }

  /** A script that starts by indexing columns of an existing table. */
  lemma IndexedColumnsExist(s: Schema, ops: seq<Statement>, t: TableName, r: RelationName, i: Index)
    requires ops != [] && ops[0] == CreateIndex(t, r, i) && Run(s, ops).Some?
    ensures t in s.tables && i.Mentions() <= ColumnNames(s.tables[t].columns)
  {
    RunFirst(s, ops);
    assert Legal(s, CreateIndex(t, r, i));
  }
}
