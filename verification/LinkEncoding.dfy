/** Links between creatives and provider objects: four nullable columns that encode a pair. */
module LinkEncoding {
  import opened Common

  type Id = nat

  datatype Link = Link(businessId: Id, conceptId: Option<Id>, variantId: Option<Id>,
                       adId: Option<Id>, creativeId: Option<Id>)

  datatype Internal = Concept(id: Id) | Variant(id: Id)

  datatype Provider = Ad(id: Id) | Creative(id: Id)

  datatype Mapping = Mapping(businessId: Id, from: Internal, to: Provider)

  function Present(x: Option<Id>): nat { if x.Some? then 1 else 0 }

  /** The two CHECK constraints. */
  predicate Admitted(l: Link) {
    Present(l.conceptId) + Present(l.variantId) == 1 && Present(l.adId) + Present(l.creativeId) == 1
  }

  function Encode(m: Mapping): Link {
    Link(m.businessId,
         if m.from.Concept? then Some(m.from.id) else None, if m.from.Variant? then Some(m.from.id) else None,
         if m.to.Ad? then Some(m.to.id) else None, if m.to.Creative? then Some(m.to.id) else None)
  }

  function Decode(l: Link): Mapping
    requires Admitted(l)
  {
    Mapping(l.businessId, if l.conceptId.Some? then Concept(l.conceptId.value) else Variant(l.variantId.value),
            if l.adId.Some? then Ad(l.adId.value) else Creative(l.creativeId.value))
  }

  /** ONE TO ONE: the admitted rows are exactly the mappings. */
  lemma Bijection(l: Link, m: Mapping)
    ensures Admitted(Encode(m)) && Decode(Encode(m)) == m
    ensures Admitted(l) <==> exists n :: Encode(n) == l
    ensures Admitted(l) ==> Encode(Decode(l)) == l
  {
    if Admitted(l) {
      assert Encode(Decode(l)) == l;
    }
  }

  // ---- The table ----

  /** The unique index: COALESCE(x::text, '') makes two NULLs equal. */
  predicate SameSlot(a: Link, b: Link) {
    && a.businessId == b.businessId && a.conceptId == b.conceptId && a.variantId == b.variantId
    && a.adId == b.adId && a.creativeId == b.creativeId
  }

  /** A unique index on the bare columns, to which a NULL differs from every NULL. */
  predicate SamePlainSlot(a: Link, b: Link) {
    && a.businessId == b.businessId && a.conceptId.Some? && a.conceptId == b.conceptId
    && a.variantId.Some? && a.variantId == b.variantId && a.adId.Some? && a.adId == b.adId
    && a.creativeId.Some? && a.creativeId == b.creativeId
  }

  predicate Taken(rows: seq<Link>, l: Link) { exists i :: 0 <= i < |rows| && SameSlot(rows[i], l) }

  datatype Change = Insert(link: Link) | Delete(slot: nat)

  /** A row that breaks a check or the index is refused. */
  function Perform(rows: seq<Link>, c: Change): seq<Link> {
    match c
    case Insert(l) => if Admitted(l) && !Taken(rows, l) then rows + [l] else rows
    case Delete(i) => if i < |rows| then rows[..i] + rows[i + 1..] else rows
  }

  function PerformAll(cs: seq<Change>): seq<Link> {
    if cs == [] then [] else Perform(PerformAll(cs[..|cs| - 1]), cs[|cs| - 1])
  }

  predicate AllAdmitted(rows: seq<Link>) { forall i :: 0 <= i < |rows| ==> Admitted(rows[i]) }

  /** At most one row for each mapping. */
  predicate OneRowPerMapping(rows: seq<Link>)
    requires AllAdmitted(rows)
  {
    forall i, j :: 0 <= i < j < |rows| ==> Decode(rows[i]) != Decode(rows[j])
  }

  lemma SlotIsMapping(a: Link, b: Link)
    requires Admitted(a) && Admitted(b)
    ensures SameSlot(a, b) <==> Decode(a) == Decode(b)
  {
  }

  lemma InsertKeeps(rows: seq<Link>, l: Link)
    requires AllAdmitted(rows) && OneRowPerMapping(rows)
    ensures AllAdmitted(Perform(rows, Insert(l))) && OneRowPerMapping(Perform(rows, Insert(l)))
  {
    if Admitted(l) && !Taken(rows, l) {
      forall i | 0 <= i < |rows| ensures Decode(rows[i]) != Decode(l) { SlotIsMapping(rows[i], l); }
    }
  }

  /** Whatever is inserted and deleted, the table never holds two rows for one mapping. */
  lemma {:induction false} TableIsASet(cs: seq<Change>)
    ensures AllAdmitted(PerformAll(cs)) && OneRowPerMapping(PerformAll(cs))
  {
    if cs != [] {
      TableIsASet(cs[..|cs| - 1]);
      if cs[|cs| - 1].Insert? {
        InsertKeeps(PerformAll(cs[..|cs| - 1]), cs[|cs| - 1].link);
      }
    }
  }

  predicate Holds(rows: seq<Link>, m: Mapping)
    requires AllAdmitted(rows)
  {
    exists i :: 0 <= i < |rows| && Decode(rows[i]) == m
  }

  /** An insert is refused exactly if a check fails or the mapping is there already. */
  lemma {:induction false} RefusedIff(cs: seq<Change>, l: Link)
    ensures AllAdmitted(PerformAll(cs))
    ensures Perform(PerformAll(cs), Insert(l)) == PerformAll(cs)
        <==> !Admitted(l) || Holds(PerformAll(cs), Decode(l))
  {
    TableIsASet(cs);
    var rows := PerformAll(cs);
    if Admitted(l) {
      if i :| 0 <= i < |rows| && SameSlot(rows[i], l) { SlotIsMapping(rows[i], l); }
      if i :| 0 <= i < |rows| && Decode(rows[i]) == Decode(l) { SlotIsMapping(rows[i], l); }
    }
  }

  /** A delete takes just the row it names. */
  lemma DeleteTakesOne(rows: seq<Link>, i: nat)
    requires i < |rows|
    ensures multiset(Perform(rows, Delete(i))) == multiset(rows) - multiset{rows[i]}
  {
    assert rows == rows[..i] + [rows[i]] + rows[i + 1..];
  }

  /** An admitted new mapping is one row more, and anything else changes nothing. */
  lemma InsertAddsOne(cs: seq<Change>, l: Link)
    ensures AllAdmitted(PerformAll(cs))
    ensures var rows := PerformAll(cs);
      multiset(Perform(rows, Insert(l)))
      == if Admitted(l) && !Holds(rows, Decode(l)) then multiset(rows) + multiset{l} else multiset(rows)
  {
    RefusedIff(cs, l);
  }

  /** Why COALESCE: every admitted row has NULLs, so without it no two of them ever conflict. */
  lemma PlainIndexNeverRefuses(a: Link, b: Link)
    requires Admitted(a) && Admitted(b)
    ensures !SamePlainSlot(a, b)
  {
  }
}
