/**
  The entity store above its trees and bitmaps: ordinals and the in-memory secondary
  indexes, each against a scan of what is stored. Trees are finite maps and bitmaps
  finite sets here, as `BTrees` and `Roaring` prove them to be.
*/
module Store {
  import opened Options

  type Id = nat
  type Slot = nat
  type Name = seq<nat>
  type Index<!K> = map<K, set<nat>>

  const ENTITY_TYPE := 2
  const NAME_MAX := 63

  datatype Header = Header(id: Id, kind: nat, schemaRef: Id, name: Name, rest: seq<nat>)

  datatype Blob = Blob(header: Header, body: seq<nat>)

  datatype State = State(
    primary: map<Id, Slot>,
    ordinalOf: map<Id, nat>,
    idOf: map<nat, Id>,
    next: nat,
    slots: map<Slot, Blob>,
    byKind: Index<nat>,
    bySchema: Index<Id>,
    byName: Index<Name>)

  /** Encoding a header keeps at most 63 bytes of the name. */
  function Stored(h: Header): Header {
    if |h.name| <= NAME_MAX then h else h.(name := h.name[..NAME_MAX])
  }

  // ---------- one secondary index ----------

  function Lookup<K>(ix: Index<K>, k: K): set<nat> {
    if k in ix then ix[k] else {}
  }

  function Added<K>(ix: Index<K>, key: Option<K>, o: nat): Index<K> {
    if key.None? then ix else ix[key.value := Lookup(ix, key.value) + {o}]
  }

  /** Removing the last member of a bucket removes the bucket. */
  function Removed<K>(ix: Index<K>, key: Option<K>, o: nat): Index<K> {
    if key.None? || key.value !in ix then ix
    else if ix[key.value] - {o} == {} then ix - {key.value}
    else ix[key.value := ix[key.value] - {o}]
  }

  function KindKey(h: Header): Option<nat> { Some(h.kind) }

  function SchemaKey(h: Header): Option<Id> { Some(h.schemaRef) }

  /** Only entity types are found by name. */
  function NameKey(h: Header): Option<Name> {
    if h.kind == ENTITY_TYPE then Some(h.name) else None
  }

  ghost predicate NoEmptyBucket<K(!new)>(ix: Index<K>) {
    forall k :: k in ix ==> ix[k] != {}
  }

  /** The index holds exactly the ordinals whose header has that key, and no empty bucket. */
  ghost predicate Exact<K(!new)>(ix: Index<K>, headers: map<nat, Header>, key: Header -> Option<K>) {
    NoEmptyBucket(ix) && forall k: K, o: nat :: o in Lookup(ix, k) <==> o in headers && key(headers[o]) == Some(k)
  }

  lemma AddExact<K(!new)>(ix: Index<K>, headers: map<nat, Header>, key: Header -> Option<K>, o: nat, h: Header)
    requires Exact(ix, headers, key) && o !in headers
    ensures Exact(Added(ix, key(h), o), headers[o := h], key)
  {
    var ix', headers' := Added(ix, key(h), o), headers[o := h];
    forall k, x ensures x in Lookup(ix', k) <==> x in headers' && key(headers'[x]) == Some(k) {
      assert x in Lookup(ix, k) <==> x in headers && key(headers[x]) == Some(k);
    }
  }

  lemma RemoveExact<K(!new)>(ix: Index<K>, headers: map<nat, Header>, key: Header -> Option<K>, o: nat)
    requires Exact(ix, headers, key) && o in headers
    ensures Exact(Removed(ix, key(headers[o]), o), headers - {o}, key)
  {
    var ix', headers' := Removed(ix, key(headers[o]), o), headers - {o};
    forall k, x ensures x in Lookup(ix', k) <==> x in headers' && key(headers'[x]) == Some(k) {
      assert x in Lookup(ix, k) <==> x in headers && key(headers[x]) == Some(k);
    }
  }

  /** The headers determine the index. */
  lemma IndexDetermined<K(!new)>(a: Index<K>, b: Index<K>, headers: map<nat, Header>, key: Header -> Option<K>)
    requires Exact(a, headers, key) && Exact(b, headers, key)
    ensures a == b
  {
    forall k ensures Lookup(a, k) == Lookup(b, k) {
      forall o: nat ensures o in Lookup(a, k) <==> o in Lookup(b, k) {
        assert o in Lookup(a, k) <==> o in headers && key(headers[o]) == Some(k);
      }
    }
    forall k ensures (k in a <==> k in b) && (k in a ==> a[k] == b[k]) {
      assert Lookup(a, k) == Lookup(b, k);
    }
  }

  /** Swapping a header for one with the same key changes nothing. */
  lemma SameKeyExact<K(!new)>(ix: Index<K>, headers: map<nat, Header>, key: Header -> Option<K>, o: nat, h: Header)
    requires o in headers && key(headers[o]) == key(h)
    ensures Exact(ix, headers, key) <==> Exact(ix, headers[o := h], key)
  {
    var headers' := headers[o := h];
    forall k, x ensures (x in headers && key(headers[x]) == Some(k)) <==> (x in headers' && key(headers'[x]) == Some(k)) {
    }
  }

  // ---------- what is stored ----------

  /** Live ids and ordinals pair up one to one, below the next ordinal. */
  ghost predicate OrdinalsOk(ids: set<Id>, ordinalOf: map<Id, nat>, idOf: map<nat, Id>, next: nat) {
    && ordinalOf.Keys == ids
    && (forall id :: id in ordinalOf ==> ordinalOf[id] in idOf && idOf[ordinalOf[id]] == id)
    && (forall o :: o in idOf ==> o < next && idOf[o] in ordinalOf && ordinalOf[idOf[o]] == o)
  }

  /** Each live id has a slot of its own holding it, and no slot is held for anything else. */
  ghost predicate SlotsOk(primary: map<Id, Slot>, slots: map<Slot, Blob>) {
    && (forall id :: id in primary ==> primary[id] in slots && slots[primary[id]].header.id == id)
    && (forall p :: p in slots ==> slots[p].header.id in primary && primary[slots[p].header.id] == p)
  }

  ghost predicate Linked(s: State) {
    OrdinalsOk(s.primary.Keys, s.ordinalOf, s.idOf, s.next) && SlotsOk(s.primary, s.slots)
  }

  /** What the slots of the live ids hold. */
  ghost function Scan(primary: map<Id, Slot>, slots: map<Slot, Blob>): map<Id, Blob> {
    map id | id in primary && primary[id] in slots :: slots[primary[id]]
  }

  ghost function HeadersOf(idOf: map<nat, Id>, entities: map<Id, Blob>): map<nat, Header> {
    map o | o in idOf && idOf[o] in entities :: entities[idOf[o]].header
  }

  /** The entities, as a scan of the primary index reads them. */
  ghost function Entities(s: State): map<Id, Blob> {
    Scan(s.primary, s.slots)
  }

  /** The stored header of each live ordinal. */
  ghost function Headers(s: State): map<nat, Header> {
    HeadersOf(s.idOf, Entities(s))
  }

  /** Every index holds exactly the ordinals of matching stored headers. */
  ghost predicate Valid(s: State) {
    && Linked(s)
    && Exact(s.byKind, Headers(s), KindKey)
    && Exact(s.bySchema, Headers(s), SchemaKey)
    && Exact(s.byName, Headers(s), NameKey)
  }

  // ---------- insert and delete ----------

  function IndexHeader(s: State, h: Header, o: nat): State {
    s.(byKind := Added(s.byKind, KindKey(h), o), bySchema := Added(s.bySchema, SchemaKey(h), o),
       byName := Added(s.byName, NameKey(h), o))
  }

  function DeindexHeader(s: State, h: Header, o: nat): State {
    s.(byKind := Removed(s.byKind, KindKey(h), o), bySchema := Removed(s.bySchema, SchemaKey(h), o),
       byName := Removed(s.byName, NameKey(h), o))
  }

  function WithOrdinal(s: State, id: Id): State {
    if id in s.ordinalOf then s
    else s.(ordinalOf := s.ordinalOf[id := s.next], idOf := s.idOf[s.next := id], next := s.next + 1)
  }

  /** The previous version of an entity leaves the indexes and gives back its slot. */
  function WithoutOld(s: State, id: Id, o: nat): State {
    if id in s.primary && s.primary[id] in s.slots then
      var was := s.primary[id];
      DeindexHeader(s, s.slots[was].header, o).(slots := s.slots - {was})
    else s
  }

  function Inserted(s: State, h: Header, body: seq<nat>, slot: Slot): State {
    var s1 := WithOrdinal(s.(slots := s.slots[slot := Blob(Stored(h), body)]), h.id);
    var o := s1.ordinalOf[h.id];
    var s2 := IndexHeader(WithoutOld(s1, h.id, o), h, o);
    s2.(primary := s2.primary[h.id := slot])
  }

  function Deleted(s: State, id: Id): State {
    if id !in s.primary || s.primary[id] !in s.slots then s else
    var slot := s.primary[id];
    var s1 := s.(primary := s.primary - {id});
    var s2 := if id !in s.ordinalOf then s1 else
              var o := s.ordinalOf[id];
              DeindexHeader(s1.(ordinalOf := s1.ordinalOf - {id}, idOf := s1.idOf - {o}), s.slots[slot].header, o);
    s2.(slots := s2.slots - {slot})
  }

  // ---------- ordinals and slots ----------

  lemma SlotReplaced(primary: map<Id, Slot>, slots: map<Slot, Blob>, id: Id, slot: Slot, b: Blob)
    requires SlotsOk(primary, slots) && slot !in slots && b.header.id == id
    ensures SlotsOk(primary[id := slot], (if id in primary then slots - {primary[id]} else slots)[slot := b])
  {
  }

  lemma SlotDropped(primary: map<Id, Slot>, slots: map<Slot, Blob>, id: Id)
    requires SlotsOk(primary, slots) && id in primary
    ensures SlotsOk(primary - {id}, slots - {primary[id]})
  {
  }

  lemma OrdinalGiven(ids: set<Id>, ordinalOf: map<Id, nat>, idOf: map<nat, Id>, next: nat, id: Id)
    requires OrdinalsOk(ids, ordinalOf, idOf, next) && id !in ids
    ensures OrdinalsOk(ids + {id}, ordinalOf[id := next], idOf[next := id], next + 1) && next !in idOf
  {
  }

  lemma OrdinalRetired(ids: set<Id>, ordinalOf: map<Id, nat>, idOf: map<nat, Id>, next: nat, id: Id)
    requires OrdinalsOk(ids, ordinalOf, idOf, next) && id in ids
    ensures OrdinalsOk(ids - {id}, ordinalOf - {id}, idOf - {ordinalOf[id]}, next)
  {
  }

  /** The ordinal an insert files the entity under: its old one, or the next never used. */
  function OrdinalFor(s: State, id: Id): nat { if id in s.ordinalOf then s.ordinalOf[id] else s.next }

  lemma InsertFields(s: State, h: Header, body: seq<nat>, slot: Slot)
    requires Linked(s) && slot !in s.slots
    ensures var s' := Inserted(s, h, body, slot);
            && s'.primary == s.primary[h.id := slot]
            && s'.slots == (if h.id in s.primary then s.slots - {s.primary[h.id]} else s.slots)[slot := Blob(Stored(h), body)]
            && s'.ordinalOf == s.ordinalOf[h.id := OrdinalFor(s, h.id)]
            && s'.idOf == s.idOf[OrdinalFor(s, h.id) := h.id]
            && s'.next == if h.id in s.ordinalOf then s.next else s.next + 1
  {
    hide Added, Removed, Stored, KindKey, SchemaKey, NameKey;
    if h.id in s.primary {
      assert s.primary[h.id] in s.slots && s.primary[h.id] != slot;
    }
  }

  lemma InsertLinks(s: State, h: Header, body: seq<nat>, slot: Slot)
    requires Linked(s) && slot !in s.slots
    ensures Linked(Inserted(s, h, body, slot))
    ensures h.id in s.ordinalOf <==> OrdinalFor(s, h.id) in s.idOf
  {
    InsertFields(s, h, body, slot);
    var s' := Inserted(s, h, body, slot);
    hide Inserted, SlotsOk, Stored;
    assert Blob(Stored(h), body).header.id == h.id by { StoredId(h); }
    SlotReplaced(s.primary, s.slots, h.id, slot, Blob(Stored(h), body));
    assert s'.primary.Keys == s.primary.Keys + {h.id};
    OrdinalKept(s.primary.Keys, s.ordinalOf, s.idOf, s.next, h.id);
  }

  lemma StoredId(h: Header)
    ensures Stored(h).id == h.id
  {
  }

  lemma OrdinalKept(ids: set<Id>, ordinalOf: map<Id, nat>, idOf: map<nat, Id>, next: nat, id: Id)
    requires OrdinalsOk(ids, ordinalOf, idOf, next)
    ensures var o := if id in ordinalOf then ordinalOf[id] else next;
            && OrdinalsOk(ids + {id}, ordinalOf[id := o], idOf[o := id], if id in ordinalOf then next else next + 1)
            && (id in ordinalOf <==> o in idOf)
  {
    if id !in ordinalOf {
      OrdinalGiven(ids, ordinalOf, idOf, next, id);
    } else {
      assert ids + {id} == ids && ordinalOf[id := ordinalOf[id]] == ordinalOf;
    }
  }

  lemma OtherSlots(primary: map<Id, Slot>, slots: map<Slot, Blob>, id: Id)
    requires SlotsOk(primary, slots)
    ensures forall x :: x in primary ==> primary[x] in slots
    ensures forall x :: x in primary && id in primary && x != id ==> primary[x] != primary[id]
  {
  }

  lemma ScanReplaced(primary: map<Id, Slot>, slots: map<Slot, Blob>, id: Id, slot: Slot, b: Blob)
    requires SlotsOk(primary, slots) && slot !in slots
    ensures Scan(primary[id := slot], (if id in primary then slots - {primary[id]} else slots)[slot := b])
            == Scan(primary, slots)[id := b]
  {
    hide SlotsOk;
    OtherSlots(primary, slots, id);
  }

  lemma ScanDropped(primary: map<Id, Slot>, slots: map<Slot, Blob>, id: Id)
    requires SlotsOk(primary, slots) && id in primary
    ensures Scan(primary - {id}, slots - {primary[id]}) == Scan(primary, slots) - {id}
  {
  }

  lemma HeaderPut(idOf: map<nat, Id>, entities: map<Id, Blob>, o: nat, id: Id, b: Blob)
    requires forall x :: x in idOf && x != o ==> idOf[x] != id
    ensures HeadersOf(idOf[o := id], entities[id := b]) == HeadersOf(idOf, entities)[o := b.header]
  {
  }

  lemma HeaderDropped(idOf: map<nat, Id>, entities: map<Id, Blob>, o: nat)
    requires o in idOf && forall x :: x in idOf && x != o ==> idOf[x] != idOf[o]
    ensures HeadersOf(idOf - {o}, entities - {idOf[o]}) == HeadersOf(idOf, entities) - {o}
  {
  }

  lemma OwnOrdinal(s: State, id: Id)
    requires Linked(s)
    ensures forall x :: x in s.idOf && x != OrdinalFor(s, id) ==> s.idOf[x] != id
    ensures id in s.ordinalOf ==> s.ordinalOf[id] in s.idOf && s.idOf[s.ordinalOf[id]] == id
  {
    hide SlotsOk;
  }

  lemma InsertViews(s: State, h: Header, body: seq<nat>, slot: Slot)
    requires Linked(s) && slot !in s.slots
    ensures Entities(Inserted(s, h, body, slot)) == Entities(s)[h.id := Blob(Stored(h), body)]
    ensures Headers(Inserted(s, h, body, slot)) == Headers(s)[OrdinalFor(s, h.id) := Stored(h)]
  {
    InsertFields(s, h, body, slot);
    ScanReplaced(s.primary, s.slots, h.id, slot, Blob(Stored(h), body));
    OwnOrdinal(s, h.id);
    hide Inserted, Stored, Linked, Scan, HeadersOf, OrdinalFor;
    HeaderPut(s.idOf, Entities(s), OrdinalFor(s, h.id), h.id, Blob(Stored(h), body));
  }

  /** What happens to the indexes: the old header's entries go, the given header's come. */
  lemma InsertIndexes(s: State, h: Header, body: seq<nat>, slot: Slot)
    requires Linked(s) && slot !in s.slots
    ensures var s' := Inserted(s, h, body, slot);
            var o := OrdinalFor(s, h.id);
            if h.id in s.ordinalOf then
              && o in Headers(s)
              && s'.byKind == Added(Removed(s.byKind, KindKey(Headers(s)[o]), o), KindKey(h), o)
              && s'.bySchema == Added(Removed(s.bySchema, SchemaKey(Headers(s)[o]), o), SchemaKey(h), o)
              && s'.byName == Added(Removed(s.byName, NameKey(Headers(s)[o]), o), NameKey(h), o)
            else
              && s'.byKind == Added(s.byKind, KindKey(h), o)
              && s'.bySchema == Added(s.bySchema, SchemaKey(h), o)
              && s'.byName == Added(s.byName, NameKey(h), o)
  {
    hide Added, Removed, Stored, KindKey, SchemaKey, NameKey;
    if h.id in s.primary {
      assert s.primary[h.id] in s.slots && s.primary[h.id] != slot;
    }
  }

  /** One index after an insert is exact for the header as given. */
  lemma ReindexExact<K(!new)>(ix: Index<K>, headers: map<nat, Header>, key: Header -> Option<K>, o: nat, h: Header)
    requires Exact(ix, headers, key)
    ensures Exact(if o in headers then Added(Removed(ix, key(headers[o]), o), key(h), o) else Added(ix, key(h), o),
                  headers[o := h], key)
  {
    hide Exact, Added, Removed;
    if o in headers {
      RemoveExact(ix, headers, key, o);
      AddExact(Removed(ix, key(headers[o]), o), headers - {o}, key, o, h);
      assert (headers - {o})[o := h] == headers[o := h];
    } else {
      AddExact(ix, headers, key, o, h);
    }
  }

  predicate NameFits(h: Header) { h.kind == ENTITY_TYPE ==> |h.name| <= NAME_MAX }

  lemma StoredKeys(h: Header)
    ensures KindKey(Stored(h)) == KindKey(h) && SchemaKey(Stored(h)) == SchemaKey(h)
    ensures NameKey(Stored(h)) == NameKey(h) <==> NameFits(h)
  {
  }

  /** An index filed under a key other than the stored one is not exact. */
  lemma WrongKey<K(!new)>(ix: Index<K>, headers: map<nat, Header>, key: Header -> Option<K>, o: nat, h: Header, h': Header)
    requires Exact(ix, headers[o := h], key) && key(h) != key(h') && key(h).Some?
    ensures !Exact(ix, headers[o := h'], key)
  {
    var k, given: map<nat, Header>, kept: map<nat, Header> := key(h).value, headers[o := h], headers[o := h'];
    assert o in Lookup(ix, k) <==> o in given && key(given[o]) == Some(k);
    assert !(o in kept && key(kept[o]) == Some(k));
  }

  lemma HeaderKeys(s: State)
    requires Linked(s)
    ensures Headers(s).Keys == s.idOf.Keys
  {
  }

  /**
    An insert or overwrite changes that entity alone, and leaves every index exact
    precisely when the header survives storage with the name it is indexed under.
  */
  lemma InsertKeeps(s: State, h: Header, body: seq<nat>, slot: Slot)
    requires Valid(s) && slot !in s.slots
    ensures Linked(Inserted(s, h, body, slot))
    ensures Entities(Inserted(s, h, body, slot)) == Entities(s)[h.id := Blob(Stored(h), body)]
    ensures Valid(Inserted(s, h, body, slot)) <==> NameFits(h)
  {
    hide Exact, Added, Removed, Stored, Inserted, Linked, KindKey, SchemaKey, NameKey, NameFits, Headers, Entities;
    var s', o, hv := Inserted(s, h, body, slot), OrdinalFor(s, h.id), Headers(s);
    InsertLinks(s, h, body, slot);
    InsertViews(s, h, body, slot);
    InsertIndexes(s, h, body, slot);
    HeaderKeys(s);
    StoredKeys(h);
    ReindexExact(s.byKind, hv, KindKey, o, h);
    ReindexExact(s.bySchema, hv, SchemaKey, o, h);
    ReindexExact(s.byName, hv, NameKey, o, h);
    SameKeyExact(s'.byKind, hv[o := h], KindKey, o, Stored(h));
    SameKeyExact(s'.bySchema, hv[o := h], SchemaKey, o, Stored(h));
    Overwritten(hv, o, h, Stored(h));
    if NameFits(h) {
      SameKeyExact(s'.byName, hv[o := h], NameKey, o, Stored(h));
    } else {
      LongName(h);
      WrongKey(s'.byName, hv, NameKey, o, h, Stored(h));
    }
  }

  lemma Overwritten(headers: map<nat, Header>, o: nat, h: Header, h': Header)
    ensures var once: map<nat, Header> := headers[o := h]; once[o := h'] == headers[o := h'] && o in once && once[o] == h
  {
  }

  lemma LongName(h: Header)
    requires !NameFits(h)
    ensures NameKey(h).Some?
  {
  }

  lemma DeleteFields(s: State, id: Id)
    requires Linked(s) && id in s.primary
    ensures var s', o := Deleted(s, id), s.ordinalOf[id];
            && s'.primary == s.primary - {id} && s'.slots == s.slots - {s.primary[id]}
            && s'.ordinalOf == s.ordinalOf - {id} && s'.idOf == s.idOf - {o} && s'.next == s.next
            && o in Headers(s)
            && s'.byKind == Removed(s.byKind, KindKey(Headers(s)[o]), o)
            && s'.bySchema == Removed(s.bySchema, SchemaKey(Headers(s)[o]), o)
            && s'.byName == Removed(s.byName, NameKey(Headers(s)[o]), o)
  {
    hide Removed, KindKey, SchemaKey, NameKey;
    assert s.primary[id] in s.slots;
  }

  lemma DeleteViews(s: State, id: Id)
    requires Linked(s) && id in s.primary
    ensures Entities(Deleted(s, id)) == Entities(s) - {id}
    ensures Headers(Deleted(s, id)) == Headers(s) - {s.ordinalOf[id]}
  {
    DeleteFields(s, id);
    ScanDropped(s.primary, s.slots, id);
    OwnOrdinal(s, id);
    hide Deleted, Scan, HeadersOf;
    HeaderDropped(s.idOf, Entities(s), s.ordinalOf[id]);
  }

  /** A delete removes that entity alone, and leaves every index exact. */
  lemma DeleteKeeps(s: State, id: Id)
    requires Valid(s)
    ensures Valid(Deleted(s, id)) && Entities(Deleted(s, id)) == Entities(s) - {id}
  {
    if id in s.primary {
      DeleteFields(s, id);
      SlotDropped(s.primary, s.slots, id);
      OrdinalRetired(s.primary.Keys, s.ordinalOf, s.idOf, s.next, id);
      var s', o, hv := Deleted(s, id), s.ordinalOf[id], Headers(s);
      hide Exact, Removed, Deleted, OrdinalsOk, SlotsOk, KindKey, SchemaKey, NameKey, Headers, Entities;
      assert s'.primary.Keys == s.primary.Keys - {id};
      DeleteViews(s, id);
      RemoveExact(s.byKind, hv, KindKey, o);
      RemoveExact(s.bySchema, hv, SchemaKey, o);
      RemoveExact(s.byName, hv, NameKey, o);
    }
  }

  /** What is stored determines every index: rebuilding from a scan gives what was there. */
  lemma IndexesDetermined(s: State, t: State)
    requires Valid(s) && Valid(t)
    requires t.primary == s.primary && t.slots == s.slots && t.idOf == s.idOf
    ensures t.byKind == s.byKind && t.bySchema == s.bySchema && t.byName == s.byName
  {
    assert Headers(t) == Headers(s);
    hide Exact, Linked, Headers, KindKey, SchemaKey, NameKey;
    IndexDetermined(s.byKind, t.byKind, Headers(s), KindKey);
    IndexDetermined(s.bySchema, t.bySchema, Headers(s), SchemaKey);
    IndexDetermined(s.byName, t.byName, Headers(s), NameKey);
  }

  // ---------- any sequence of changes since opening ----------

  datatype Change = Insertion(header: Header, body: seq<nat>, slot: Slot) | Deletion(id: Id)

  function Changed(s: State, c: Change): State {
    match c
    case Insertion(h, body, slot) => Inserted(s, h, body, slot)
    case Deletion(id) => Deleted(s, id)
  }

  function ChangedAll(s: State, cs: seq<Change>): State {
    if cs == [] then s else Changed(ChangedAll(s, cs[..|cs| - 1]), cs[|cs| - 1])
  }

  /** Every insert is given a slot not in use. */
  ghost predicate Placed(s: State, cs: seq<Change>) {
    forall i :: 0 <= i < |cs| && cs[i].Insertion? ==> cs[i].slot !in ChangedAll(s, cs[..i]).slots
  }

  predicate Fits(c: Change) { c.Insertion? ==> NameFits(c.header) }

  /** No stored name is longer than a header can hold. */
  ghost predicate ShortNames(slots: map<Slot, Blob>) {
    forall p :: p in slots ==> |slots[p].header.name| <= NAME_MAX
  }

  /** Something is filed under a name no header can hold. */
  ghost predicate Misfiled(ix: Index<Name>) {
    exists k :: |k| > NAME_MAX && Lookup(ix, k) != {}
  }

  lemma MisfiledIsWrong(s: State)
    requires Linked(s) && ShortNames(s.slots) && Misfiled(s.byName)
    ensures !Exact(s.byName, Headers(s), NameKey)
  {
    hide OrdinalsOk;
    var k: Name :| |k| > NAME_MAX && Lookup(s.byName, k) != {};
    var o :| o in Lookup(s.byName, k);
    ShortKeys(s);
    var hv := Headers(s);
    assert !(o in hv && NameKey(hv[o]) == Some(k));
  }

  lemma ShortKeys(s: State)
    requires Linked(s) && ShortNames(s.slots)
    ensures forall o :: o in Headers(s) ==> |Headers(s)[o].name| <= NAME_MAX
  {
  }

  lemma MisfiledStays(ix: Index<Name>, key: Option<Name>, o: nat)
    requires Misfiled(ix)
    ensures Misfiled(Added(ix, key, o))
    ensures key.None? || |key.value| <= NAME_MAX ==> Misfiled(Removed(ix, key, o))
  {
    var k: Name :| |k| > NAME_MAX && Lookup(ix, k) != {};
    var x :| x in Lookup(ix, k);
    assert x in Lookup(Added(ix, key, o), k);
    if key.None? || |key.value| <= NAME_MAX {
      assert Lookup(Removed(ix, key, o), k) == Lookup(ix, k);
    }
  }

  lemma InsertShort(s: State, h: Header, body: seq<nat>, slot: Slot)
    requires Linked(s) && slot !in s.slots && ShortNames(s.slots)
    ensures ShortNames(Inserted(s, h, body, slot).slots)
  {
    InsertFields(s, h, body, slot);
    hide Inserted, Linked;
  }

  /** The name index after an insert: the old header's entry goes, the given header's comes. */
  lemma InsertNames(s: State, h: Header, body: seq<nat>, slot: Slot)
    requires Linked(s) && slot !in s.slots && ShortNames(s.slots)
    ensures Misfiled(s.byName) || !NameFits(h) ==> Misfiled(Inserted(s, h, body, slot).byName)
  {
    hide Inserted, Linked, Added, Removed, Headers, Misfiled, NameKey, ShortNames;
    var o, hv := OrdinalFor(s, h.id), Headers(s);
    InsertIndexes(s, h, body, slot);
    ShortKeys(s);
    if h.id in s.ordinalOf {
      ShortKey(hv[o]);
      if Misfiled(s.byName) {
        MisfiledStays(s.byName, NameKey(hv[o]), o);
        MisfiledStays(Removed(s.byName, NameKey(hv[o]), o), NameKey(h), o);
      }
      if !NameFits(h) {
        LongFiled(Removed(s.byName, NameKey(hv[o]), o), h, o);
      }
    } else {
      if Misfiled(s.byName) {
        MisfiledStays(s.byName, NameKey(h), o);
      }
      if !NameFits(h) {
        LongFiled(s.byName, h, o);
      }
    }
  }

  lemma ShortKey(h: Header)
    requires |h.name| <= NAME_MAX
    ensures NameKey(h).None? || |NameKey(h).value| <= NAME_MAX
  {
  }

  lemma LongFiled(ix: Index<Name>, h: Header, o: nat)
    requires !NameFits(h)
    ensures Misfiled(Added(ix, NameKey(h), o))
  {
    assert o in Lookup(Added(ix, NameKey(h), o), h.name);
  }

  lemma DeleteLinks(s: State, id: Id)
    requires Linked(s) && ShortNames(s.slots)
    ensures Linked(Deleted(s, id)) && ShortNames(Deleted(s, id).slots)
    ensures Misfiled(s.byName) ==> Misfiled(Deleted(s, id).byName)
  {
    if id in s.primary {
      DeleteFields(s, id);
      SlotDropped(s.primary, s.slots, id);
      OrdinalRetired(s.primary.Keys, s.ordinalOf, s.idOf, s.next, id);
      ShortKeys(s);
      var o, hv := s.ordinalOf[id], Headers(s);
      hide Removed, Deleted, OrdinalsOk, SlotsOk, Headers, Misfiled, NameKey;
      assert Deleted(s, id).primary.Keys == s.primary.Keys - {id};
      ShortKey(hv[o]);
      if Misfiled(s.byName) {
        MisfiledStays(s.byName, NameKey(hv[o]), o);
      }
    }
  }

  lemma PlacedInit(s: State, cs: seq<Change>)
    requires Placed(s, cs) && cs != []
    ensures Placed(s, cs[..|cs| - 1])
  {
    var init := cs[..|cs| - 1];
    forall i | 0 <= i < |init| && init[i].Insertion? ensures init[i].slot !in ChangedAll(s, init[..i]).slots {
      assert init[..i] == cs[..i] && init[i] == cs[i];
    }
  }

  /**
    After any inserts, overwrites and deletes since opening, the indexes are exact
    precisely when every entity type inserted had a name that fits its header.
  */
  lemma {:induction false} ExactThroughout(s: State, cs: seq<Change>)
    requires Valid(s) && ShortNames(s.slots) && Placed(s, cs)
    ensures var t := ChangedAll(s, cs);
            && Linked(t) && ShortNames(t.slots)
            && (Valid(t) <==> forall i :: 0 <= i < |cs| ==> Fits(cs[i]))
            && ((exists i :: 0 <= i < |cs| && !Fits(cs[i])) ==> Misfiled(t.byName))
    decreases |cs|
  {
    hide Exact, Linked, Misfiled, ShortNames, Inserted, Deleted, Headers, NameFits;
    if cs != [] {
      var init, c := cs[..|cs| - 1], cs[|cs| - 1];
      PlacedInit(s, cs);
      ExactThroughout(s, init);
      var t := ChangedAll(s, init);
      match c {
        case Insertion(h, body, slot) =>
          InsertLinks(t, h, body, slot);
          InsertShort(t, h, body, slot);
          InsertNames(t, h, body, slot);
          if Valid(t) {
            InsertKeeps(t, h, body, slot);
          }
        case Deletion(id) =>
          DeleteLinks(t, id);
          if Valid(t) {
            DeleteKeeps(t, id);
          }
      }
      if exists i :: 0 <= i < |cs| && !Fits(cs[i]) {
        var i :| 0 <= i < |cs| && !Fits(cs[i]);
        assert i < |init| ==> init[i] == cs[i];
        MisfiledIsWrong(ChangedAll(s, cs));
      }
    }
  }
}
