/**
  SWIM membership as pure data: a node's view of the others, its gossip queue and
  its timers, with one function per operation. `SwimNode` (the stateful object) is
  proved to compute exactly these functions.
*/
module Swim {
  import opened Options

  type NodeId = nat
  type Incarnation = nat

  datatype Status = Alive | Suspect | Dead

  datatype Member = Member(status: Status, incarnation: Incarnation)

  /** A fact about a member, as gossip carries it. */
  datatype Item = Item(member: NodeId, status: Status, incarnation: Incarnation)

  datatype Message =
    | Ping(seqNo: nat, incarnation: Incarnation, gossip: seq<Item>)
    | Ack(seqNo: nat, incarnation: Incarnation, gossip: seq<Item>)

  datatype Envelope = Envelope(from: NodeId, to: NodeId, message: Message)

  datatype Awaited = Awaited(target: NodeId, seqNo: nat, waited: nat)

  datatype Queued = Queued(item: Item, remaining: nat)

  datatype Core = Core(
    id: NodeId,
    incarnation: Incarnation,
    members: map<NodeId, Member>,
    pingOrder: seq<NodeId>,
    nextPing: nat,
    nextSeq: nat,
    protocolPeriod: nat,
    periodElapsed: nat,
    pingTimeout: nat,
    suspicionTimeout: nat,
    awaiting: Option<Awaited>,
    timers: map<NodeId, nat>,
    queue: seq<Queued>)

  const RETRANSMITS := 4
  const MAX_PER_MESSAGE := 8

  function New(id: NodeId, peers: seq<NodeId>, protocolPeriod: nat, pingTimeout: nat, suspicionTimeout: nat): Core {
    Core(id, 0, Newcomers([id] + peers), peers, 0, 0,
         protocolPeriod, 0, pingTimeout, suspicionTimeout, None, map[], [])
  }

  function Newcomers(ns: seq<NodeId>): map<NodeId, Member> {
    map n | n in ns :: Member(Alive, 0)
  }

  function Severity(s: Status): nat {
    match s case Alive => 0 case Suspect => 1 case Dead => 2
  }

  // ---------- the gossip queue ----------

  function Without(q: seq<Queued>, m: NodeId): seq<Queued> {
    if q == [] then [] else (if q[0].item.member == m then [] else [q[0]]) + Without(q[1..], m)
  }

  function Enqueued(q: seq<Queued>, item: Item): seq<Queued> {
    Without(q, item.member) + [Queued(item, RETRANSMITS)]
  }

  function QueueGossip(c: Core, item: Item): Core {
    c.(queue := Enqueued(c.queue, item))
  }

  ghost predicate Positive(q: seq<Queued>) { forall i :: 0 <= i < |q| ==> q[i].remaining > 0 }

  /** The items attached to the next message when `n` are attached already. */
  function Taken(q: seq<Queued>, n: nat): seq<Item> {
    if q == [] || n >= MAX_PER_MESSAGE then [] else [q[0].item] + Taken(q[1..], n + 1)
  }

  /** What stays queued once they are. */
  function Left(q: seq<Queued>, n: nat): seq<Queued>
    requires Positive(q)
  {
    if q == [] then []
    else if n >= MAX_PER_MESSAGE then q
    else (if q[0].remaining > 1 then [q[0].(remaining := q[0].remaining - 1)] else []) + Left(q[1..], n + 1)
  }

  function TakeGossip(c: Core): (Core, seq<Item>)
    requires Positive(c.queue)
  {
    (c.(queue := Left(c.queue, 0)), Taken(c.queue, 0))
  }

  // ---------- merging ----------

  /** The incoming fact is about a member not yet known, or outranks a view that is not final. */
  predicate Outranks(item: Item, view: Member) {
    && view.status != Dead
    && (item.incarnation > view.incarnation
        || (item.incarnation == view.incarnation && Severity(item.status) > Severity(view.status)))
  }

  function RefuteSelf(c: Core, item: Item): (Core, bool) {
    if item.status == Alive || item.incarnation < c.incarnation then (c, false) else
    var inc := item.incarnation + 1;
    var c' := c.(incarnation := inc, members := c.members[c.id := Member(Alive, inc)]);
    (QueueGossip(c', Item(c.id, Alive, inc)), true)
  }

  function Merge(c: Core, item: Item): (Core, bool) {
    if item.member == c.id then RefuteSelf(c, item)
    else if item.member in c.members && !Outranks(item, c.members[item.member]) then (c, false)
    else
      var c' := c.(members := c.members[item.member := Member(item.status, item.incarnation)],
                   timers := if item.status == Suspect then c.timers[item.member := 0] else c.timers - {item.member});
      (QueueGossip(c', item), true)
  }

  function MergeAll(c: Core, items: seq<Item>): Core {
    if items == [] then c else Merge(MergeAll(c, items[..|items| - 1]), items[|items| - 1]).0
  }

  // ---------- time ----------

  function Aged(c: Core): Core {
    c.(timers := map m | m in c.timers :: c.timers[m] + 1)
  }

  function Expired(c: Core): set<NodeId> {
    set m | m in c.timers && c.timers[m] >= c.suspicionTimeout
  }

  /** The order in which expired suspicions are handled is up to the hash map. */
  ghost predicate IsOrder(order: seq<NodeId>, s: set<NodeId>) {
    && (forall m :: m in order <==> m in s)
    && (forall i, j :: 0 <= i < j < |order| ==> order[i] != order[j])
  }

  function Bury(c: Core, m: NodeId): Core {
    var c' := c.(timers := c.timers - {m});
    if m in c.members && c.members[m].status == Suspect then
      var inc := c.members[m].incarnation;
      QueueGossip(c'.(members := c.members[m := Member(Dead, inc)]), Item(m, Dead, inc))
    else c'
  }

  function BuryAll(c: Core, order: seq<NodeId>): Core {
    if order == [] then c else Bury(BuryAll(c, order[..|order| - 1]), order[|order| - 1])
  }

  predicate Unanswered(c: Core) {
    c.awaiting.Some? && c.awaiting.value.waited + 1 >= c.pingTimeout
  }

  function AgePing(c: Core): Core {
    if c.awaiting.None? then c
    else if !Unanswered(c) then c.(awaiting := Some(c.awaiting.value.(waited := c.awaiting.value.waited + 1)))
    else
      var target := c.awaiting.value.target;
      var c' := c.(awaiting := None);
      if target in c'.members && c'.members[target].status == Alive
      then Merge(c', Item(target, Suspect, c'.members[target].incarnation)).0
      else c'
  }

  predicate IsDead(c: Core, m: NodeId) { m in c.members && c.members[m].status == Dead }

  function NextTarget(c: Core, tries: nat): (Core, Option<NodeId>)
    requires c.nextPing < |c.pingOrder|
    decreases tries
  {
    if tries == 0 then (c, None) else
    var candidate := c.pingOrder[c.nextPing];
    var c' := c.(nextPing := (c.nextPing + 1) % |c.pingOrder|);
    if IsDead(c', candidate) then NextTarget(c', tries - 1) else (c', Some(candidate))
  }

  predicate InTurn(c: Core) { c.pingOrder != [] ==> c.nextPing < |c.pingOrder| }

  function PingTarget(c: Core): (Core, Option<NodeId>)
    requires InTurn(c)
  {
    if c.pingOrder == [] then (c, None) else NextTarget(c, |c.pingOrder|)
  }

  datatype Outcome = Outcome(core: Core, out: seq<Envelope>)

  function SendPing(c: Core, target: NodeId): Outcome
    requires Positive(c.queue)
  {
    var seqNo := c.nextSeq + 1;
    var (c', gossip) := TakeGossip(c.(nextSeq := seqNo, awaiting := Some(Awaited(target, seqNo, 0))));
    Outcome(c', [Envelope(c.id, target, Ping(seqNo, c.incarnation, gossip))])
  }

  function StartPeriod(c: Core): Outcome
    requires InTurn(c) && Positive(c.queue)
  {
    var c1 := c.(periodElapsed := c.periodElapsed + 1);
    if c1.periodElapsed >= c1.protocolPeriod && c1.awaiting.None? then
      var (c2, target) := PingTarget(c1.(periodElapsed := 0));
      TargetKeeps(c1.(periodElapsed := 0));
      if target.Some? then SendPing(c2, target.value) else Outcome(c2, [])
    else Outcome(c1, [])
  }

  lemma {:induction false} NextTargetKeeps(c: Core, tries: nat)
    requires c.nextPing < |c.pingOrder|
    ensures var c' := NextTarget(c, tries).0; c' == c.(nextPing := c'.nextPing) && c'.nextPing < |c.pingOrder|
    decreases tries
  {
    if tries > 0 {
      NextTargetKeeps(c.(nextPing := (c.nextPing + 1) % |c.pingOrder|), tries - 1);
    }
  }

  lemma TargetKeeps(c: Core)
    requires InTurn(c)
    ensures var c' := PingTarget(c).0; c' == c.(nextPing := c'.nextPing) && InTurn(c')
  {
    if c.pingOrder != [] {
      NextTargetKeeps(c, |c.pingOrder|);
    }
  }

  /** A core whose tick cannot index or count out of range. */
  ghost predicate Sane(c: Core) { InTurn(c) && Positive(c.queue) }

  lemma {:induction false} WithoutKeeps(q: seq<Queued>, m: NodeId)
    ensures forall x :: x in Without(q, m) <==> x in q && x.item.member != m
  {
    if q != [] {
      WithoutKeeps(q[1..], m);
    }
  }

  lemma EnqueuedKeeps(q: seq<Queued>, item: Item)
    ensures forall x :: x in Enqueued(q, item) <==> x == Queued(item, RETRANSMITS) || (x in q && x.item.member != item.member)
  {
    WithoutKeeps(q, item.member);
  }

  lemma MergeSane(c: Core, item: Item)
    requires Sane(c)
    ensures Sane(Merge(c, item).0)
  {
    var c' := Merge(c, item).0;
    EnqueuedKeeps(c.queue, item);
    EnqueuedKeeps(c.queue, Item(c.id, Alive, item.incarnation + 1));
    forall i | 0 <= i < |c'.queue| ensures c'.queue[i].remaining > 0 {
      assert c'.queue[i] in c'.queue;
    }
  }

  lemma {:induction false} MergeAllSane(c: Core, items: seq<Item>)
    requires Sane(c)
    ensures Sane(MergeAll(c, items))
  {
    if items != [] {
      MergeAllSane(c, items[..|items| - 1]);
      MergeSane(MergeAll(c, items[..|items| - 1]), items[|items| - 1]);
    }
  }

  lemma {:induction false} BuryAllSane(c: Core, order: seq<NodeId>)
    requires Sane(c)
    ensures Sane(BuryAll(c, order))
  {
    if order != [] {
      var m := order[|order| - 1];
      var b := BuryAll(c, order[..|order| - 1]);
      BuryAllSane(c, order[..|order| - 1]);
      if m in b.members {
        EnqueuedKeeps(b.queue, Item(m, Dead, b.members[m].incarnation));
      }
      var c' := Bury(b, m);
      forall i | 0 <= i < |c'.queue| ensures c'.queue[i].remaining > 0 {
        assert c'.queue[i] in c'.queue;
      }
    }
  }

  lemma AgePingSane(c: Core)
    requires Sane(c)
    ensures Sane(AgePing(c))
  {
    if Unanswered(c) {
      var c' := c.(awaiting := None);
      var target := c.awaiting.value.target;
      if target in c'.members {
        MergeSane(c', Item(target, Suspect, c'.members[target].incarnation));
      }
    }
  }

  function Tick(c: Core, order: seq<NodeId>): Outcome
    requires Sane(c)
  {
    BuryAllSane(Aged(c), order);
    AgePingSane(BuryAll(Aged(c), order));
    StartPeriod(AgePing(BuryAll(Aged(c), order)))
  }

  function Answered(c: Core, from: NodeId, seqNo: nat): Core {
    if c.awaiting.Some? && c.awaiting.value.target == from && c.awaiting.value.seqNo == seqNo
    then c.(awaiting := None) else c
  }

  /** The facts a message brings: its sender is alive, then its gossip in order. */
  function Facts(env: Envelope): seq<Item> {
    [Item(env.from, Alive, env.message.incarnation)] + env.message.gossip
  }

  function Receive(c: Core, env: Envelope): Outcome
    requires Sane(c)
  {
    MergeAllSane(c, Facts(env));
    var c1 := MergeAll(c, Facts(env));
    match env.message
    case Ping(seqNo, _, _) =>
      var (c2, gossip) := TakeGossip(c1);
      Outcome(c2, [Envelope(c.id, env.from, Ack(seqNo, c2.incarnation, gossip))])
    case Ack(seqNo, _, _) => Outcome(Answered(c1, env.from, seqNo), [])
  }
}
