/** The unique index that migration 0005 makes over the advertising hierarchy, and what it means for the
    insights that HierarchyDeletes is about. */
module HierarchyIndex {
  import opened Common
  import opened SchemaNames
  import opened Ddl
  import opened RoundTrip
  import opened MigrationChain
  import opened EmptyDatabase
  import M5 = Migration0005
  import F = MetricFacts
  import H = HierarchyDeletes

  function HierarchyKeys(): seq<IndexKey> {
    [Plain(BUSINESS_ID), Plain(AD_ACCOUNT_ID), Plain(PROVIDER), Plain(DATE), Plain(GRAIN),
     Coalesced(CAMPAIGN_ID), Coalesced(AD_SET_ID), Coalesced(AD_ID)]
  }

  /** The index is there: unique, over these keys, and over all rows. */
  predicate HierarchyIsUnique(s: Schema) {
    && AD_INSIGHTS in s.tables && UQ_AD_INSIGHTS_BUSINESS_ACCOUNT_HIERARCHY in s.tables[AD_INSIGHTS].indexes
    && s.tables[AD_INSIGHTS].indexes[UQ_AD_INSIGHTS_BUSINESS_ACCOUNT_HIERARCHY] == Index(HierarchyKeys(), true, None)
  }

  lemma LastOf0005(up: seq<Statement>)
    requires up == M5.Upgrade()
    ensures up != []
    ensures up[|up| - 1] ==
      CreateIndex(AD_INSIGHTS, UQ_AD_INSIGHTS_BUSINESS_ACCOUNT_HIERARCHY, Index(HierarchyKeys(), true, None))
  {
  }

  /** Wherever 0005 applies, it leaves the index. */
  lemma UniqueAfter0005(s: Schema, m: Migration)
    requires m == M0005() && Run(s, m.up).Some?
    ensures HierarchyIsUnique(Run(s, m.up).value)
  {
    LastOf0005(m.up);
    var n := |m.up|;
    assert m.up[..n] == m.up;
    DeclaredStays(s, m.up, n - 1, n);
  }

  lemma Leaves0006(up: seq<Statement>, op: Statement, i: nat)
    requires up == M0006().up && i < |up| && op.CreateIndex?
    ensures Leaves(op, up[i])
  {
  }

  lemma {:induction false} UniqueKept(s: Schema, up: seq<Statement>, n: nat)
    requires up == M0006().up && HierarchyIsUnique(s) && n <= |up| && Run(s, up[..n]).Some?
    ensures HierarchyIsUnique(Run(s, up[..n]).value)
  {
    if n > 0 {
      var op := CreateIndex(AD_INSIGHTS, UQ_AD_INSIGHTS_BUSINESS_ACCOUNT_HIERARCHY, Index(HierarchyKeys(), true, None));
      RunLast(s, up, n);
      UniqueKept(s, up, n - 1);
      Leaves0006(up, op, n - 1);
      StatementLeaves(Run(s, up[..n - 1]).value, op, up[n - 1]);
    }
  }

  /** And 0006 leaves it alone. */
  lemma UniqueAfter0006(s: Schema, m: Migration)
    requires m == M0006() && HierarchyIsUnique(s) && Run(s, m.up).Some?
    ensures HierarchyIsUnique(Run(s, m.up).value)
  {
    assert m.up[..|m.up|] == m.up;
    UniqueKept(s, m.up, |m.up|);
  }

  lemma {:induction false} UpFromSplit(ms: seq<Migration>, i: nat, k: nat)
    requires i <= k < |ms|
    ensures UpFrom(ms, i, k + 1) == UpFrom(ms, i, k) + ms[k].up
    decreases k - i
  {
    if i < k {
      UpFromSplit(ms, i + 1, k);
    } else {
      assert UpFrom(ms, k + 1, k + 1) == [] && ms[k].up + [] == ms[k].up == [] + ms[k].up;
    }
  }

  lemma FifthAndSixth(ms: seq<Migration>)
    requires ms == Chain()
    ensures |ms| == 6 && ms[4] == M0005() && ms[5] == M0006()
  {
  }

  /** So an empty database that is upgraded to revision 5 or 6 has it. */
  lemma UniqueFromEmpty(ms: seq<Migration>, j: nat)
    requires ms == Chain() && 5 <= j <= 6
    ensures Run(EMPTY, UpFrom(ms, 0, j)).Some? && HierarchyIsUnique(Run(EMPTY, UpFrom(ms, 0, j)).value)
  {
    FifthAndSixth(ms);
    ChainApplies(ms, j);
    UpFromSplit(ms, 0, j - 1);
    RunConcat(EMPTY, UpFrom(ms, 0, j - 1), ms[j - 1].up);
    if j == 5 {
      UniqueAfter0005(Run(EMPTY, UpFrom(ms, 0, 4)).value, ms[4]);
    } else {
      UniqueFromEmpty(ms, 5);
      UniqueAfter0006(Run(EMPTY, UpFrom(ms, 0, 5)).value, ms[5]);
    }
  }

  // ---- What the index compares ----

  /** The value of one key of the index. An id and its text say the same; no id's text is empty. */
  datatype Value = Id(id: F.Id) | Text(text: string) | Day(date: int) | Other

  function TextOf(id: Option<F.Id>): Value { if id.Some? then Id(id.value) else Text("") }

  function KeyValue(ai: F.Insight, key: IndexKey): Value {
    if key == Plain(BUSINESS_ID) then Id(ai.businessId)
    else if key == Plain(AD_ACCOUNT_ID) then Id(ai.accountId)
    else if key == Plain(PROVIDER) then Text(ai.provider)
    else if key == Plain(DATE) then Day(ai.date)
    else if key == Plain(GRAIN) then Text(ai.grain)
    else if key == Coalesced(CAMPAIGN_ID) then TextOf(ai.campaignId)
    else if key == Coalesced(AD_SET_ID) then TextOf(ai.adSetId)
    else if key == Coalesced(AD_ID) then TextOf(ai.adId)
    else Other
  }

  /** Two rows conflict in the index. */
  predicate Conflict(keys: seq<IndexKey>, a: F.Insight, b: F.Insight) {
    forall i :: 0 <= i < |keys| ==> KeyValue(a, keys[i]) == KeyValue(b, keys[i])
  }

  lemma KeysAre(keys: seq<IndexKey>, a: F.Insight, b: F.Insight)
    requires keys == HierarchyKeys()
    ensures Conflict(keys, a, b) <==>
      && a.businessId == b.businessId && a.accountId == b.accountId && a.provider == b.provider && a.date == b.date
      && a.grain == b.grain && TextOf(a.campaignId) == TextOf(b.campaignId) && TextOf(a.adSetId) == TextOf(b.adSetId)
      && TextOf(a.adId) == TextOf(b.adId)
  {
    if Conflict(keys, a, b) {
      assert KeyValue(a, keys[0]) == KeyValue(b, keys[0]) && KeyValue(a, keys[1]) == KeyValue(b, keys[1]);
      assert KeyValue(a, keys[2]) == KeyValue(b, keys[2]) && KeyValue(a, keys[3]) == KeyValue(b, keys[3]);
      assert KeyValue(a, keys[4]) == KeyValue(b, keys[4]) && KeyValue(a, keys[5]) == KeyValue(b, keys[5]);
      assert KeyValue(a, keys[6]) == KeyValue(b, keys[6]) && KeyValue(a, keys[7]) == KeyValue(b, keys[7]);
    }
  }

  /** The rows of ad_insights meet the migrated index exactly when they are unique in the sense of
      HierarchyDeletes. */
  lemma IndexMeansUnique(s: Schema, insights: seq<F.Insight>)
    requires HierarchyIsUnique(s)
    ensures var index := s.tables[AD_INSIGHTS].indexes[UQ_AD_INSIGHTS_BUSINESS_ACCOUNT_HIERARCHY];
      H.Unique(insights) <==>
        forall i, j :: 0 <= i < j < |insights| ==> !Conflict(index.keys, insights[i], insights[j])
  {
    forall i, j | 0 <= i < j < |insights|
      ensures Conflict(HierarchyKeys(), insights[i], insights[j]) <==> H.SlotOf(insights[i]) == H.SlotOf(insights[j])
    {
      KeysAre(HierarchyKeys(), insights[i], insights[j]);
    }
  }
}
