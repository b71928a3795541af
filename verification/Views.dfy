/**
  Count views kept up to date record by record, against the same count taken over the
  store. Looking up an attribute in a body is any function of the body and the attribute.
*/
module Views {
  import opened Options
  import opened Bytes
  import opened Wire
  import opened Replay

  const KIND_AT := 394
  const SCHEMA_AT := 395

  type Reader = (seq<byte>, nat) -> Option<seq<byte>>

  datatype ViewPredicate =
    | EntityKind(kind: byte)
    | SchemaRef(typeId: Id)
    | AttributeEquals(attribute: nat, value: seq<byte>)

  predicate Matches(q: ViewPredicate, e: Entity, read: Reader) {
    match q
    case EntityKind(kind) => |e.header| > KIND_AT && e.header[KIND_AT] == kind
    case SchemaRef(typeId) => |e.header| >= SCHEMA_AT + TUID_LEN && e.header[SCHEMA_AT..SCHEMA_AT + TUID_LEN] == typeId
    case AttributeEquals(attribute, value) => read(e.body, attribute) == Some(value)
  }

  datatype CountView = CountView(query: ViewPredicate, members: set<Id>)

  /** Whether the entity a record is about is in the view after it. */
  predicate Joins(q: ViewPredicate, r: Record, read: Reader) {
    match Effect(r) case Some(e) => Matches(q, e, read) case None => false
  }

  function Updated(v: CountView, r: Record, read: Reader): CountView {
    v.(members := if Joins(v.query, r, read) then v.members + {Key(r)} else v.members - {Key(r)})
  }

  // ---------- the engine ----------

  ghost predicate Distinct<T>(s: seq<T>) {
    forall i, j :: 0 <= i < j < |s| ==> s[i] != s[j]
  }

  class ViewEngine {
    const read: Reader
    var views: map<nat, CountView>
    var nextId: nat

    ghost predicate Valid()
      reads this
    {
      forall v :: v in views ==> v < nextId
    }

    constructor (read: Reader)
      ensures Valid() && views == map[] && this.read == read
    {
      this.read := read;
      views, nextId := map[], 0;
    }

    /** A view starts empty, under an id no view has had. */
    method CreateView(q: ViewPredicate) returns (id: nat)
      requires Valid()
      modifies this
      ensures Valid() && id == old(nextId) && id !in old(views) && views == old(views)[id := CountView(q, {})]
      ensures nextId == old(nextId) + 1
    {
      id := nextId;
      nextId := nextId + 1;
      views := views[id := CountView(q, {})];
    }

    method DropView(id: nat) returns (existed: bool)
      requires Valid()
      modifies this
      ensures Valid() && existed == (id in old(views)) && views == old(views) - {id} && nextId == old(nextId)
    {
      existed := id in views;
      views := views - {id};
    }

    method Count(id: nat) returns (n: Option<nat>)
      ensures n == if id in views then Some(|views[id].members|) else None
    {
      n := if id in views then Some(|views[id].members|) else None;
    }

    /** One record against one view: does its membership change, and to what count. */
    method Touch(id: nat, r: Record) returns (changed: Option<nat>)
      requires id in views
      modifies this`views
      ensures views == old(views)[id := Updated(old(views)[id], r, read)]
      ensures changed == if |views[id].members| != |old(views)[id].members| then Some(|views[id].members|) else None
    {
      var view, k := views[id], Key(r);
      var joins := match r case Insert(header, body) => Matches(view.query, Entity(header, body), read) case Delete(_) => false;
      var was := k in view.members;
      changed := None;
      if joins && !was {
        view := view.(members := view.members + {k});
        changed := Some(|view.members|);
      } else if !joins && was {
        view := view.(members := view.members - {k});
        changed := Some(|view.members|);
      }
      OneMember(views[id].members, k);
      views := views[id := view];
    }

    /** Every view takes the record, in whatever order; those whose count changed are reported once. */
    method Process(r: Record) returns (changed: seq<(nat, nat)>)
      requires Valid()
      modifies this`views
      ensures Valid() && views == map v | v in old(views) :: Updated(old(views)[v], r, read)
      ensures forall v, n :: (v, n) in changed <==>
                v in views && n == |views[v].members| && n != |old(views)[v].members|
      ensures Distinct(changed)
    {
      changed := [];
      var todo := views.Keys;
      hide Updated;
      while todo != {}
        invariant todo <= old(views).Keys && views.Keys == old(views).Keys
        invariant forall v :: v in views ==>
                    views[v] == if v in todo then old(views)[v] else Updated(old(views)[v], r, read)
        invariant forall v, n :: (v, n) in changed <==>
                    v in views && v !in todo && n == |views[v].members| && n != |old(views)[v].members|
        invariant Distinct(changed)
        decreases |todo|
      {
        var v :| v in todo;
        todo := todo - {v};
        var n := Touch(v, r);
        if n.Some? {
          changed := changed + [(v, n.value)];
        }
      }
    }
  }

  lemma OneMember(s: set<Id>, k: Id)
    ensures k in s ==> s + {k} == s && |s - {k}| == |s| - 1
    ensures k !in s ==> s - {k} == s && |s + {k}| == |s| + 1
  {
  }

  // ---------- against the store ----------

  function Folded(v: CountView, log: seq<Record>, read: Reader): CountView {
    if log == [] then v else Updated(Folded(v, log[..|log| - 1], read), log[|log| - 1], read)
  }

  /** A member is an entity whose latest record matches, or one there from before with no record since. */
  lemma {:induction false} LatestDecides(v: CountView, log: seq<Record>, read: Reader, id: Id)
    ensures Folded(v, log, read).query == v.query
    ensures id in Folded(v, log, read).members <==>
            match LastOn(log, id) case Some(r) => Joins(v.query, r, read) case None => id in v.members
  {
    if log != [] {
      LatestDecides(v, log[..|log| - 1], read, id);
    }
  }

  ghost function Matching(c: Contents, q: ViewPredicate, read: Reader): set<Id> {
    set id | id in c && Matches(q, c[id], read)
  }

  /** A view made before the first record counts exactly the matching entities of the store. */
  lemma ViewIsQuery(q: ViewPredicate, log: seq<Record>, read: Reader)
    ensures Folded(CountView(q, {}), log, read).members == Matching(Replayed(map[], log), q, read)
  {
    var v := Folded(CountView(q, {}), log, read);
    forall id ensures id in v.members <==> id in Matching(Replayed(map[], log), q, read) {
      LatestDecides(CountView(q, {}), log, read, id);
      LastDecides(map[], log, id);
    }
  }

  /**
    A view made later agrees with the store exactly when every entity that matched at its
    creation has had a record since.
  */
  lemma LateViewExact(q: ViewPredicate, log: seq<Record>, k: nat, read: Reader)
    requires k <= |log|
    ensures Folded(CountView(q, {}), log[k..], read).members == Matching(Replayed(map[], log), q, read) <==>
            forall id :: id in Matching(Replayed(map[], log[..k]), q, read) ==> LastOn(log[k..], id).Some?
  {
    hide Folded, Matching, LastOn, Replayed;
    var v, now := Folded(CountView(q, {}), log[k..], read), Matching(Replayed(map[], log), q, read);
    var before := Matching(Replayed(map[], log[..k]), q, read);
    if v.members == now {
      forall id | id in before ensures LastOn(log[k..], id).Some? {
        LateAt(q, log, k, read, id);
      }
    } else {
      var id :| (id in v.members) != (id in now);
      LateAt(q, log, k, read, id);
    }
  }

  lemma LateAt(q: ViewPredicate, log: seq<Record>, k: nat, read: Reader, id: Id)
    requires k <= |log|
    ensures (id in Folded(CountView(q, {}), log[k..], read).members <==> id in Matching(Replayed(map[], log), q, read)) <==>
            (id in Matching(Replayed(map[], log[..k]), q, read) ==> LastOn(log[k..], id).Some?)
  {
    hide Replayed, LastOn, Folded, Matches;
    LatestDecides(CountView(q, {}), log[k..], read, id);
    LastDecides(map[], log[..k], id);
    LastDecides(map[], log, id);
    LastOfTwo(log[..k], log[k..], id);
    assert log == log[..k] + log[k..];
  }
}
