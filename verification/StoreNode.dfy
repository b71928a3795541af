/**
  The store as it runs: maps and indexes updated in place, rebuilt by a scan when it is
  opened, and queried through the indexes. Updates are proved to be the functions of
  `Store`, queries to answer what a full scan would.
*/
module StoreNode {
  import Containers
  import opened Store
  import opened Options

  // ---------- queries ----------

  datatype Literal = Word(name: Name) | Other

  datatype Filter = In(onType: bool, values: seq<Literal>) | Unsupported

  datatype Query = Query(fromEntities: bool, ordered: bool, filter: Option<Filter>, limit: Option<nat>)

  /** No filter, or a single `type IN (...)` over names; no ordering; the one source there is. */
  predicate Supported(q: Query) {
    && q.fromEntities && !q.ordered
    && (q.filter.Some? ==> q.filter.value.In? && q.filter.value.onType
                           && forall i :: 0 <= i < |q.filter.value.values| ==> q.filter.value.values[i].Word?)
  }

  /** By a scan: an entity type of that name, the one filed first if several share it. */
  ghost predicate IsTypeNamed(s: State, name: Name, id: Id)
    requires Linked(s)
  {
    && id in Entities(s) && NameKey(Entities(s)[id].header) == Some(name)
    && forall x :: x in Entities(s) && NameKey(Entities(s)[x].header) == Some(name) ==> s.ordinalOf[id] <= s.ordinalOf[x]
  }

  /** By a scan: the entity is of a type the filter names. */
  ghost predicate OfTypes(s: State, values: seq<Literal>, id: Id)
    requires Linked(s) && id in Entities(s)
  {
    exists i :: 0 <= i < |values| && values[i].Word? && IsTypeNamed(s, values[i].name, Entities(s)[id].header.schemaRef)
  }

  ghost predicate Wanted(s: State, q: Query, id: Id)
    requires Linked(s)
  {
    id in Entities(s) && (q.filter.Some? && q.filter.value.In? ==> OfTypes(s, q.filter.value.values, id))
  }

  /** The wanted ids in ascending order without repeats, the lowest `limit` of them if limited. */
  ghost predicate Answers(s: State, q: Query, out: seq<Id>)
    requires Linked(s)
  {
    && Containers.Ascending(out)
    && (forall id :: id in out ==> Wanted(s, q, id))
    && (q.limit.Some? ==> |out| <= q.limit.value)
    && (forall id: Id :: Wanted(s, q, id) && id !in out ==>
          q.limit.Some? && |out| == q.limit.value && forall x :: x in out ==> x < id)
  }

  // ---------- lists ----------

  lemma PlacedAscending(v: seq<nat>, p: nat, x: nat)
    requires Containers.Ascending(v) && p <= |v| && (forall i :: 0 <= i < p ==> v[i] < x) && (forall i :: p <= i < |v| ==> v[i] > x)
    ensures Containers.Ascending(v[..p] + [x] + v[p..]) && forall y :: y in v[..p] + [x] + v[p..] <==> y == x || y in v
  {
    var w := v[..p] + [x] + v[p..];
    forall y | y == x || y in v ensures y in w {
      if y == x {
        assert w[p] == x;
      } else {
        var i :| 0 <= i < |v| && v[i] == y;
        assert w[if i < p then i else i + 1] == y;
      }
    }
  }

  method Place(v: seq<nat>, x: nat) returns (w: seq<nat>)
    requires Containers.Ascending(v) && x !in v
    ensures Containers.Ascending(w) && |w| == |v| + 1 && forall y :: y in w <==> y == x || y in v
  {
    var p := 0;
    while p < |v| && v[p] < x
      invariant p <= |v| && forall i :: 0 <= i < p ==> v[i] < x
    {
      p := p + 1;
    }
    if p < |v| { assert v[p] in v; }
    PlacedAscending(v, p, x);
    w := v[..p] + [x] + v[p..];
  }

  /** A bitmap's members in ascending order. */
  method ToVec(s: set<nat>) returns (v: seq<nat>)
    ensures Containers.Ascending(v) && forall x :: x in v <==> x in s
  {
    var todo := s;
    v := [];
    while todo != {}
      invariant todo <= s && Containers.Ascending(v) && forall x :: x in v <==> x in s && x !in todo
      decreases todo
    {
      var x :| x in todo;
      v := Place(v, x);
      todo := todo - {x};
    }
  }

  method Sort(v: seq<nat>) returns (w: seq<nat>)
    requires forall i, j :: 0 <= i < j < |v| ==> v[i] != v[j]
    ensures Containers.Ascending(w) && |w| == |v| && forall x :: x in w <==> x in v
  {
    w := [];
    for i := 0 to |v|
      invariant Containers.Ascending(w) && |w| == i && forall x :: x in w <==> x in v[..i]
    {
      assert v[..i + 1] == v[..i] + [v[i]];
      w := Place(w, v[i]);
    }
    assert v[..|v|] == v;
  }

  // ---------- the store ----------

  class EntityStore {
    var primary: map<Id, Slot>
    var ordinalOf: map<Id, nat>
    var idOf: map<nat, Id>
    var next: nat
    var slots: map<Slot, Blob>
    var byKind: Index<nat>
    var bySchema: Index<Id>
    var byName: Index<Name>

    function Now(): State
      reads this
    {
      State(primary, ordinalOf, idOf, next, slots, byKind, bySchema, byName)
    }

    constructor ()
      ensures Valid(Now()) && Entities(Now()) == map[]
    {
      primary, ordinalOf, idOf, next, slots := map[], map[], map[], 0, map[];
      byKind, bySchema, byName := map[], map[], map[];
    }

    /** What is on disk, with nothing indexed yet. */
    constructor OnDisk(primary: map<Id, Slot>, ordinalOf: map<Id, nat>, idOf: map<nat, Id>, slots: map<Slot, Blob>)
      ensures Now() == State(primary, ordinalOf, idOf, 0, slots, map[], map[], map[])
    {
      this.primary, this.ordinalOf, this.idOf, this.slots, next := primary, ordinalOf, idOf, slots, 0;
      byKind, bySchema, byName := map[], map[], map[];
    }

    method FileUnder(h: Header, o: nat)
      modifies this
      ensures Now() == IndexHeader(old(Now()), h, o)
    {
      byKind := Added(byKind, KindKey(h), o);
      bySchema := Added(bySchema, SchemaKey(h), o);
      byName := Added(byName, NameKey(h), o);
    }

    method Unfile(h: Header, o: nat)
      modifies this
      ensures Now() == DeindexHeader(old(Now()), h, o)
    {
      byKind := Removed(byKind, KindKey(h), o);
      bySchema := Removed(bySchema, SchemaKey(h), o);
      byName := Removed(byName, NameKey(h), o);
    }

    method AssignOrdinal(id: Id) returns (o: nat)
      modifies this
      ensures Now() == WithOrdinal(old(Now()), id) && id in ordinalOf && o == ordinalOf[id]
    {
      if id in ordinalOf {
        return ordinalOf[id];
      }
      o := next;
      next := next + 1;
      ordinalOf := ordinalOf[id := o];
      idOf := idOf[o := id];
    }

    /** `slot` is where the allocator put the blob: some slot not in use. */
    method Insert(h: Header, body: seq<nat>, slot: Slot)
      requires Valid(Now()) && slot !in slots
      modifies this
      ensures Now() == Inserted(old(Now()), h, body, slot)
      ensures Linked(Now()) && Entities(Now()) == Entities(old(Now()))[h.id := Blob(Stored(h), body)]
      ensures Valid(Now()) <==> NameFits(h)
    {
      InsertKeeps(Now(), h, body, slot);
      hide *;
      PutIn(h, body, slot);
    }

    method PutIn(h: Header, body: seq<nat>, slot: Slot)
      modifies this
      ensures Now() == Inserted(old(Now()), h, body, slot)
    {
      hide Stored, WithOrdinal, WithoutOld, IndexHeader;
      slots := slots[slot := Blob(Stored(h), body)];
      var o := AssignOrdinal(h.id);
      DropOld(h.id, o);
      FileUnder(h, o);
      primary := primary[h.id := slot];
    }

    method DropOld(id: Id, o: nat)
      modifies this
      ensures Now() == WithoutOld(old(Now()), id, o)
    {
      hide Removed, KindKey, SchemaKey, NameKey;
      if id in primary && primary[id] in slots {
        var was := primary[id];
        Unfile(slots[was].header, o);
        slots := slots - {was};
      }
    }

    method Delete(id: Id) returns (existed: bool)
      requires Valid(Now())
      modifies this
      ensures Now() == Deleted(old(Now()), id) && existed == (id in old(primary))
      ensures Valid(Now()) && Entities(Now()) == Entities(old(Now())) - {id}
    {
      SlotLive(Now(), id);
      DeleteKeeps(Now(), id);
      hide *;
      existed := id in primary;
      TakeOut(id);
    }

    method TakeOut(id: Id)
      requires id in primary ==> primary[id] in slots
      modifies this
      ensures Now() == Deleted(old(Now()), id)
    {
      hide DeindexHeader;
      if id !in primary {
        return;
      }
      var slot := primary[id];
      primary := primary - {id};
      var h := slots[slot].header;
      if id in ordinalOf {
        var o := ordinalOf[id];
        ordinalOf := ordinalOf - {id};
        idOf := idOf - {o};
        Unfile(h, o);
      }
      slots := slots - {slot};
    }

    /**
      Scans what is stored and files every header again. The indexes come out exact, and
      the next ordinal is the least above every live one.
    */
    method Rebuild() returns (ok: bool)
      requires byKind == map[] && bySchema == map[] && byName == map[] && next == 0
      requires SlotsOk(primary, slots) && OrdinalsOk(primary.Keys, ordinalOf, idOf, Bound(idOf))
      modifies this
      ensures ok && Valid(Now())
      ensures primary == old(primary) && ordinalOf == old(ordinalOf) && idOf == old(idOf) && slots == old(slots)
      ensures next == Bound(idOf)
    {
      hide Filed, Above, Bound, OrdinalsOk;
      var todo := primary.Keys;
      ghost var entities := Scan(primary, slots);
      NothingFiled(idOf, entities, ordinalOf, {});
      assert primary.Keys - todo == {};
      while todo != {}
        invariant todo <= primary.Keys
        invariant primary == old(primary) && ordinalOf == old(ordinalOf) && idOf == old(idOf) && slots == old(slots)
        invariant Filed(byKind, bySchema, byName, idOf, entities, primary.Keys - todo)
        invariant next == Above(ordinalOf, primary.Keys - todo)
        decreases todo
      {
        var id :| id in todo;
        ghost var done := primary.Keys - todo;
        LiveOrdinal(primary.Keys, ordinalOf, idOf, Bound(idOf), id);
        if id !in ordinalOf {
          return false;
        }
        var o := ordinalOf[id];
        AboveMore(ordinalOf, done, id);
        next := if next == 0 || next - 1 < o then o + 1 else next;
        var h := slots[primary[id]].header;
        FiledMore(Now(), entities, done, id, o);
        FileUnder(h, o);
        todo := todo - {id};
        assert primary.Keys - todo == done + {id};
      }
      assert primary.Keys - todo == primary.Keys;
      AllFiled(Now(), entities);
      BoundIsAbove(primary.Keys, ordinalOf, idOf);
      ok := true;
    }

    /** Ids for a set of ordinals, lowest ordinal first. */
    method Resolve(ordinals: set<nat>) returns (ids: seq<Id>)
      requires Linked(Now()) && forall o :: o in ordinals ==> o in idOf
      ensures forall id :: id in ids <==> id in ordinalOf && ordinalOf[id] in ordinals
      ensures forall i, j :: 0 <= i < j < |ids| ==> ordinalOf[ids[i]] < ordinalOf[ids[j]]
      ensures forall i :: 0 <= i < |ids| ==> ids[i] in ordinalOf
    {
      hide SlotsOk;
      var v := ToVec(ordinals);
      ids := [];
      for i := 0 to |v|
        invariant |ids| == i && forall j :: 0 <= j < i ==> v[j] in idOf && ids[j] == idOf[v[j]]
      {
        assert v[i] in v;
        ids := ids + [idOf[v[i]]];
      }
      Resolved(Now(), ordinals, v, ids);
    }

    /** The entity type of a name, the one filed first if several have it. */
    method FindType(name: Name) returns (id: Option<Id>)
      requires Valid(Now())
      ensures id.Some? ==> IsTypeNamed(Now(), name, id.value)
      ensures id.None? ==> forall x :: !IsTypeNamed(Now(), name, x)
    {
      var found := Lookup(byName, name);
      NamedOrdinals(Now(), name);
      hide Exact, Entities;
      var ids := Resolve(found);
      assert forall x :: x in Entities(Now()) && NameKey(Entities(Now())[x].header) == Some(name) ==> x in ids;
      if ids == [] {
        id := None;
      } else {
        id := Some(ids[0]);
        assert ids[0] in ids;
        forall x | x in Entities(Now()) && NameKey(Entities(Now())[x].header) == Some(name)
          ensures ordinalOf[ids[0]] <= ordinalOf[x]
        {
          assert x in ids;
          var i :| 0 <= i < |ids| && ids[i] == x;
        }
      }
    }

    /** Ids of the entities of the named types, or an error if something listed is not a name. */
    method EvalTypeIn(values: seq<Literal>) returns (ids: Option<seq<Id>>)
      requires Valid(Now())
      ensures ids.None? <==> exists i :: 0 <= i < |values| && values[i].Other?
      ensures ids.Some? ==>
                && (forall id :: id in ids.value <==> id in Entities(Now()) && OfTypes(Now(), values, id))
                && (forall i, j :: 0 <= i < j < |ids.value| ==> ids.value[i] != ids.value[j])
    {
      hide Exact, Entities, IsTypeNamed, OfTypes;
      var matched := {};
      for i := 0 to |values|
        invariant forall j :: 0 <= j < i ==> values[j].Word?
        invariant forall o :: o in matched <==> InTypes(Now(), values[..i], o)
      {
        assert values[..i + 1] == values[..i] + [values[i]];
        if values[i].Other? {
          return None;
        }
        var t := FindType(values[i].name);
        if t.Some? {
          TypeJoined(Now(), values[..i], values[i], t);
          matched := matched + Lookup(bySchema, t.value);
        } else {
          TypeJoined(Now(), values[..i], values[i], t);
        }
      }
      assert values[..|values|] == values;
      var found := Resolve(matched);
      MatchedIds(Now(), values, matched, found);
      ids := Some(found);
    }

    /** Compile and run: exactly what a full scan with the filter, sorted and cut, would give. */
    method RunQuery(q: Query) returns (r: Option<seq<Id>>)
      requires Valid(Now())
      ensures r.Some? <==> Supported(q)
      ensures r.Some? ==> Answers(Now(), q, r.value)
    {
      if !q.fromEntities || q.ordered {
        return None;
      }
      var ids;
      if q.filter.None? {
        ids := ScanIds();
      } else {
        if q.filter.value.Unsupported? || !q.filter.value.onType {
          return None;
        }
        var found := EvalTypeIn(q.filter.value.values);
        if found.None? {
          return None;
        }
        ids := found.value;
      }
      hide Valid, OfTypes, Entities;
      var sorted := Sort(ids);
      var out := if q.limit.Some? && q.limit.value < |sorted| then sorted[..q.limit.value] else sorted;
      Cut(Now(), q, sorted, out);
      r := Some(out);
    }

    method ScanIds() returns (ids: seq<Id>)
      requires Valid(Now())
      ensures (forall id :: id in ids <==> id in Entities(Now())) && forall i, j :: 0 <= i < j < |ids| ==> ids[i] != ids[j]
    {
      ids := ToVec(primary.Keys);
    }
  }

  // ---------- rebuilding, step by step ----------

  /** The least number above every ordinal in use. */
  ghost function Bound(idOf: map<nat, Id>): nat { Max(idOf.Keys) }

  ghost function Max(s: set<nat>): (m: nat)
    ensures forall x: nat :: x in s ==> x < m
    ensures m > 0 ==> m - 1 in s
  {
    if s == {} then 0 else
    var x: nat :| x in s;
    var m := Max(s - {x});
    assert forall y: nat :: y in s ==> y == x || y in s - {x};
    if m > x then m else x + 1
  }

  ghost function Above(ordinalOf: map<Id, nat>, ids: set<Id>): nat {
    Max(set id | id in ids && id in ordinalOf :: ordinalOf[id])
  }

  lemma MaxUnique(s: set<nat>, m: nat)
    requires (forall x: nat :: x in s ==> x < m) && (m > 0 ==> m - 1 in s)
    ensures Max(s) == m
  {
  }

  lemma AboveMore(ordinalOf: map<Id, nat>, ids: set<Id>, id: Id)
    requires id in ordinalOf
    ensures var m, o := Above(ordinalOf, ids), ordinalOf[id];
            Above(ordinalOf, ids + {id}) == if m == 0 || m - 1 < o then o + 1 else m
  {
    var m, o := Above(ordinalOf, ids), ordinalOf[id];
    var all := set x | x in ids + {id} && x in ordinalOf :: ordinalOf[x];
    var some := set x | x in ids && x in ordinalOf :: ordinalOf[x];
    assert all == some + {o};
    MaxUnique(all, if m == 0 || m - 1 < o then o + 1 else m);
  }

  lemma BoundIsAbove(ids: set<Id>, ordinalOf: map<Id, nat>, idOf: map<nat, Id>)
    requires OrdinalsOk(ids, ordinalOf, idOf, Bound(idOf))
    ensures Above(ordinalOf, ids) == Bound(idOf)
  {
    assert (set id | id in ids && id in ordinalOf :: ordinalOf[id]) == idOf.Keys;
  }

  /** The headers of the entities filed so far. */
  ghost function HeadersSoFar(idOf: map<nat, Id>, entities: map<Id, Blob>, done: set<Id>): map<nat, Header> {
    map o | o in idOf && idOf[o] in entities && idOf[o] in done :: entities[idOf[o]].header
  }

  /** The three indexes hold exactly what has been filed so far. */
  ghost predicate Filed(byKind: Index<nat>, bySchema: Index<Id>, byName: Index<Name>,
                        idOf: map<nat, Id>, entities: map<Id, Blob>, done: set<Id>) {
    && Exact(byKind, HeadersSoFar(idOf, entities, done), KindKey)
    && Exact(bySchema, HeadersSoFar(idOf, entities, done), SchemaKey)
    && Exact(byName, HeadersSoFar(idOf, entities, done), NameKey)
  }

  lemma NothingFiled(idOf: map<nat, Id>, entities: map<Id, Blob>, ordinalOf: map<Id, nat>, none: set<Id>)
    requires none == {}
    ensures Filed(map[], map[], map[], idOf, entities, none) && Above(ordinalOf, none) == 0
  {
    assert HeadersSoFar(idOf, entities, none) == map[];
  }

  lemma OneFiled(idOf: map<nat, Id>, entities: map<Id, Blob>, done: set<Id>, id: Id, o: nat)
    requires o in idOf && idOf[o] == id && id in entities && id !in done
    requires forall x :: x in idOf && idOf[x] == id ==> x == o
    ensures o !in HeadersSoFar(idOf, entities, done)
    ensures HeadersSoFar(idOf, entities, done + {id}) == HeadersSoFar(idOf, entities, done)[o := entities[id].header]
  {
  }

  lemma FiledMore(s: State, entities: map<Id, Blob>, done: set<Id>, id: Id, o: nat)
    requires Filed(s.byKind, s.bySchema, s.byName, s.idOf, entities, done)
    requires o in s.idOf && s.idOf[o] == id && id in entities && id !in done
    requires forall x :: x in s.idOf && s.idOf[x] == id ==> x == o
    ensures var s' := IndexHeader(s, entities[id].header, o);
            Filed(s'.byKind, s'.bySchema, s'.byName, s.idOf, entities, done + {id})
  {
    hide Exact, Added, KindKey, SchemaKey, NameKey, HeadersSoFar;
    var h, headers := entities[id].header, HeadersSoFar(s.idOf, entities, done);
    OneFiled(s.idOf, entities, done, id, o);
    AddExact(s.byKind, headers, KindKey, o, h);
    AddExact(s.bySchema, headers, SchemaKey, o, h);
    AddExact(s.byName, headers, NameKey, o, h);
  }

  lemma AllFiled(s: State, entities: map<Id, Blob>)
    requires entities == Entities(s) && Filed(s.byKind, s.bySchema, s.byName, s.idOf, entities, s.primary.Keys)
    ensures Exact(s.byKind, Headers(s), KindKey) && Exact(s.bySchema, Headers(s), SchemaKey)
    ensures Exact(s.byName, Headers(s), NameKey)
  {
    hide Exact, KindKey, SchemaKey, NameKey, HeadersSoFar, HeadersOf;
    AllHeaders(s.idOf, entities, s.primary.Keys);
  }

  lemma AllHeaders(idOf: map<nat, Id>, entities: map<Id, Blob>, done: set<Id>)
    requires entities.Keys <= done
    ensures HeadersSoFar(idOf, entities, done) == HeadersOf(idOf, entities)
  {
  }

  lemma LiveOrdinal(ids: set<Id>, ordinalOf: map<Id, nat>, idOf: map<nat, Id>, next: nat, id: Id)
    requires OrdinalsOk(ids, ordinalOf, idOf, next) && id in ids
    ensures id in ordinalOf && ordinalOf[id] in idOf && idOf[ordinalOf[id]] == id
    ensures forall x :: x in idOf && idOf[x] == id ==> x == ordinalOf[id]
  {
  }

  lemma SlotLive(s: State, id: Id)
    requires Linked(s)
    ensures id in s.primary ==> s.primary[id] in s.slots
  {
  }

  /** Reopening a store gives back the very indexes it had; only unused ordinals are forgotten. */
  lemma ReopenSame(s: State, t: State)
    requires Valid(s) && Valid(t) && t.primary == s.primary && t.slots == s.slots && t.idOf == s.idOf && t.ordinalOf == s.ordinalOf
    requires t.next == Bound(t.idOf)
    ensures t == s.(next := t.next) && t.next <= s.next
  {
    IndexesDetermined(s, t);
  }

  // ---------- queries, step by step ----------

  lemma Resolved(s: State, ordinals: set<nat>, v: seq<nat>, ids: seq<Id>)
    requires Linked(s) && (forall o :: o in ordinals ==> o in s.idOf)
    requires Containers.Ascending(v) && (forall x :: x in v <==> x in ordinals)
    requires |ids| == |v| && forall j :: 0 <= j < |v| ==> v[j] in s.idOf && ids[j] == s.idOf[v[j]]
    ensures forall id :: id in ids <==> id in s.ordinalOf && s.ordinalOf[id] in ordinals
    ensures forall i, j :: 0 <= i < j < |ids| ==> ids[i] in s.ordinalOf && ids[j] in s.ordinalOf && s.ordinalOf[ids[i]] < s.ordinalOf[ids[j]]
    ensures forall i :: 0 <= i < |ids| ==> ids[i] in s.ordinalOf
  {
    hide SlotsOk;
    forall i | 0 <= i < |ids| ensures ids[i] in s.ordinalOf && s.ordinalOf[ids[i]] == v[i] {
    }
    forall id | id in s.ordinalOf && s.ordinalOf[id] in ordinals ensures id in ids {
      var j :| 0 <= j < |v| && v[j] == s.ordinalOf[id];
      assert ids[j] == id;
    }
    forall id | id in ids ensures id in s.ordinalOf && s.ordinalOf[id] in ordinals {
      var j :| 0 <= j < |ids| && ids[j] == id;
      assert v[j] in v;
    }
  }

  /** The stored header of a live id is the one its ordinal is filed under. */
  lemma HeaderOfId(s: State, id: Id)
    requires Linked(s)
    ensures id in Entities(s) <==> id in s.ordinalOf
    ensures id in s.ordinalOf ==> s.ordinalOf[id] in s.idOf && s.ordinalOf[id] in Headers(s)
                                  && Headers(s)[s.ordinalOf[id]] == Entities(s)[id].header
  {
  }

  lemma NamedOrdinals(s: State, name: Name)
    requires Valid(s)
    ensures forall o :: o in Lookup(s.byName, name) ==> o in s.idOf
    ensures forall id :: id in s.ordinalOf ==>
              (s.ordinalOf[id] in Lookup(s.byName, name) <==> id in Entities(s) && NameKey(Entities(s)[id].header) == Some(name))
    ensures forall id :: id in Entities(s) <==> id in s.ordinalOf
  {
    forall id ensures id in Entities(s) <==> id in s.ordinalOf {
      HeaderOfId(s, id);
    }
    forall id | id in s.ordinalOf
      ensures s.ordinalOf[id] in Lookup(s.byName, name) <==> id in Entities(s) && NameKey(Entities(s)[id].header) == Some(name)
    {
      HeaderOfId(s, id);
      hide Linked, Entities, Headers, NameKey;
    }
    HeaderKeys(s);
  }

  lemma SchemaOrdinals(s: State, t: Id, o: nat)
    requires Valid(s)
    ensures o in Lookup(s.bySchema, t) <==> o in s.idOf && o in Headers(s) && Headers(s)[o].schemaRef == t
  {
    HeaderKeys(s);
    hide Linked, Headers;
    assert o in Lookup(s.bySchema, t) <==> o in Headers(s) && SchemaKey(Headers(s)[o]) == Some(t);
  }

  /** The ordinal belongs to an entity of one of the named types. */
  ghost predicate InTypes(s: State, values: seq<Literal>, o: nat)
    requires Linked(s)
  {
    && o in s.idOf && o in Headers(s)
    && exists i :: 0 <= i < |values| && values[i].Word? && IsTypeNamed(s, values[i].name, Headers(s)[o].schemaRef)
  }

  /** There is at most one entity type of a name. */
  lemma OneType(s: State, name: Name, a: Id, b: Id)
    requires Linked(s) && IsTypeNamed(s, name, a) && IsTypeNamed(s, name, b)
    ensures a == b
  {
    HeaderOfId(s, a);
    HeaderOfId(s, b);
    hide Entities, Headers;
  }

  lemma TypeJoined(s: State, values: seq<Literal>, v: Literal, t: Option<Id>)
    requires Valid(s) && v.Word?
    requires t.Some? ==> IsTypeNamed(s, v.name, t.value)
    requires t.None? ==> forall x :: !IsTypeNamed(s, v.name, x)
    ensures forall o: nat :: InTypes(s, values + [v], o) <==> InTypes(s, values, o) || (t.Some? && o in Lookup(s.bySchema, t.value))
  {
    forall o: nat
      ensures InTypes(s, values + [v], o) <==> InTypes(s, values, o) || (t.Some? && o in Lookup(s.bySchema, t.value))
    {
      JoinedOne(s, values, v, t, o);
    }
  }

  lemma JoinedOne(s: State, values: seq<Literal>, v: Literal, t: Option<Id>, o: nat)
    requires Valid(s) && v.Word?
    requires t.Some? ==> IsTypeNamed(s, v.name, t.value)
    requires t.None? ==> forall x :: !IsTypeNamed(s, v.name, x)
    ensures InTypes(s, values + [v], o) <==> InTypes(s, values, o) || (t.Some? && o in Lookup(s.bySchema, t.value))
  {
    if t.Some? {
      SchemaOrdinals(s, t.value, o);
    }
    if o in s.idOf && o in Headers(s) {
      var r := Headers(s)[o].schemaRef;
      if t.Some? && IsTypeNamed(s, v.name, r) { OneType(s, v.name, t.value, r); }
      hide Exact, Linked, Headers, IsTypeNamed;
      var more := values + [v];
      if InTypes(s, values, o) {
        var i :| 0 <= i < |values| && values[i].Word? && IsTypeNamed(s, values[i].name, r);
        assert more[i] == values[i];
      }
      if t.Some? && r == t.value {
        assert more[|values|] == v;
      }
      if InTypes(s, more, o) {
        var i :| 0 <= i < |more| && more[i].Word? && IsTypeNamed(s, more[i].name, r);
        if i < |values| { assert more[i] == values[i]; }
      }
    }
  }

  lemma MatchedIds(s: State, values: seq<Literal>, matched: set<nat>, ids: seq<Id>)
    requires Valid(s) && forall o: nat :: o in matched <==> InTypes(s, values, o)
    requires forall id :: id in ids <==> id in s.ordinalOf && s.ordinalOf[id] in matched
    requires forall i :: 0 <= i < |ids| ==> ids[i] in s.ordinalOf
    requires forall i, j :: 0 <= i < j < |ids| ==> s.ordinalOf[ids[i]] < s.ordinalOf[ids[j]]
    ensures forall id :: id in ids <==> id in Entities(s) && OfTypes(s, values, id)
    ensures forall i, j :: 0 <= i < j < |ids| ==> ids[i] != ids[j]
  {
    hide Exact, IsTypeNamed;
    forall id ensures id in ids <==> id in Entities(s) && OfTypes(s, values, id) {
      HeaderOfId(s, id);
      hide Linked, Entities, Headers;
    }
  }

  /** Cutting the sorted list of wanted ids leaves the lowest ones. */
  lemma Cut(s: State, q: Query, sorted: seq<Id>, out: seq<Id>)
    requires Linked(s) && Containers.Ascending(sorted) && (forall id :: id in sorted <==> Wanted(s, q, id))
    requires out == if q.limit.Some? && q.limit.value < |sorted| then sorted[..q.limit.value] else sorted
    ensures Answers(s, q, out)
  {
    hide Wanted, Linked;
    forall id: Id | Wanted(s, q, id) && id !in out
      ensures q.limit.Some? && |out| == q.limit.value && forall x :: x in out ==> x < id
    {
      var i :| 0 <= i < |sorted| && sorted[i] == id;
      assert out != sorted;
      assert forall j :: 0 <= j < |out| ==> out[j] == sorted[j];
    }
    forall id | id in out ensures Wanted(s, q, id) {
      assert id in sorted;
    }
  }
}
