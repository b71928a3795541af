/**
  The stateful membership core. Every method is proved to move the object's fields
  exactly as the corresponding function of `Swim` moves a `Core`.
*/
module SwimNode {
  import opened Swim
  import opened Options

  class SwimCore {
    const id: NodeId
    var incarnation: Incarnation
    var members: map<NodeId, Member>
    const pingOrder: seq<NodeId>
    var nextPing: nat
    var nextSeq: nat
    const protocolPeriod: nat
    var periodElapsed: nat
    const pingTimeout: nat
    const suspicionTimeout: nat
    var awaiting: Option<Awaited>
    var timers: map<NodeId, nat>
    var queue: seq<Queued>

    function State(): Core
      reads this
    {
      Core(id, incarnation, members, pingOrder, nextPing, nextSeq, protocolPeriod, periodElapsed,
           pingTimeout, suspicionTimeout, awaiting, timers, queue)
    }

    constructor (id: NodeId, peers: seq<NodeId>, protocolPeriod: nat, pingTimeout: nat, suspicionTimeout: nat)
      ensures State() == New(id, peers, protocolPeriod, pingTimeout, suspicionTimeout)
    {
      this.id, incarnation, pingOrder := id, 0, peers;
      nextPing, nextSeq, periodElapsed := 0, 0, 0;
      this.protocolPeriod, this.pingTimeout, this.suspicionTimeout := protocolPeriod, pingTimeout, suspicionTimeout;
      awaiting, timers, queue := None, map[], [];
      new;
      hide Newcomers;
      members := map[id := Member(Alive, 0)];
      OnlyOne(id);
      for i := 0 to |peers|
        invariant State() == New(id, peers, protocolPeriod, pingTimeout, suspicionTimeout).(members := members)
        invariant members == Newcomers([id] + peers[..i])
      {
        OneMore([id] + peers[..i], peers[i]);
        assert [id] + peers[..i] + [peers[i]] == [id] + peers[..i + 1];
        members := members[peers[i] := Member(Alive, 0)];
      }
      assert peers[..|peers|] == peers;
    }

    static lemma OnlyOne(id: NodeId)
      ensures map[id := Member(Alive, 0)] == Newcomers([id]) && forall peers: seq<NodeId> :: [id] + peers[..0] == [id]
    {
    }

    static lemma OneMore(ns: seq<NodeId>, n: NodeId)
      ensures Newcomers(ns)[n := Member(Alive, 0)] == Newcomers(ns + [n])
    {
    }

    method Enqueue(item: Item)
      modifies this
      ensures State() == QueueGossip(old(State()), item)
    {
      hide Without;
      var kept := [];
      WithoutEnds(queue, item.member);
      for i := 0 to |queue|
        invariant State() == old(State())
        invariant kept + Without(queue[i..], item.member) == Without(queue, item.member)
      {
        assert queue[i..][1..] == queue[i + 1..];
        WithoutOne(queue[i..], item.member);
        if queue[i].item.member != item.member {
          kept := kept + [queue[i]];
        }
      }
      queue := kept + [Queued(item, RETRANSMITS)];
    }

    static lemma WithoutEnds(q: seq<Queued>, m: NodeId)
      ensures q[0..] == q && Without(q[|q|..], m) == []
    {
    }

    static lemma WithoutOne(q: seq<Queued>, m: NodeId)
      requires q != []
      ensures Without(q, m) == (if q[0].item.member == m then [] else [q[0]]) + Without(q[1..], m)
    {
    }

    method TakeFromQueue() returns (out: seq<Item>)
      requires Positive(queue)
      modifies this
      ensures (State(), out) == TakeGossip(old(State()))
    {
      hide Taken, Left, Positive;
      out := [];
      var pending := [];
      ghost var all := queue;
      while queue != []
        invariant Positive(queue) && State() == old(State()).(queue := queue)
        invariant out + Taken(queue, |out|) == Taken(all, 0)
        invariant pending + Left(queue, |out|) == Left(all, 0)
        decreases |queue|
      {
        var entry := queue[0];
        ghost var n := |out|;
        TakeOne(queue, n);
        queue := queue[1..];
        if |out| < MAX_PER_MESSAGE {
          out := out + [entry.item];
          entry := entry.(remaining := entry.remaining - 1);
          if entry.remaining > 0 {
            pending := pending + [entry];
          }
        } else {
          pending := pending + [entry];
        }
      }
      TakeNone(|out|);
      assert queue == [] && out + [] == out && pending + [] == pending;
      queue := pending;
    }

    static lemma TakeNone(n: nat)
      ensures Positive([]) && Taken([], n) == [] && Left([], n) == []
    {
    }

    static lemma TakeOne(q: seq<Queued>, n: nat)
      requires q != [] && Positive(q)
      ensures Positive(q[1..]) && q[0].remaining > 0
      ensures n < MAX_PER_MESSAGE ==>
                && Taken(q, n) == [q[0].item] + Taken(q[1..], n + 1)
                && Left(q, n) == (if q[0].remaining > 1 then [q[0].(remaining := q[0].remaining - 1)] else []) + Left(q[1..], n + 1)
      ensures n >= MAX_PER_MESSAGE ==>
                Taken(q, n) == Taken(q[1..], n) == [] && Left(q, n) == [q[0]] + Left(q[1..], n)
    {
      if n >= MAX_PER_MESSAGE {
        assert Left(q[1..], n) == q[1..];
        assert q == [q[0]] + q[1..];
      }
    }

    method MergeItem(item: Item) returns (changed: bool)
      modifies this
      ensures (State(), changed) == Merge(old(State()), item)
    {
      if item.member == id {
        changed := MaybeRefuteSelf(item);
        return;
      }
      if item.member in members && !Outranks(item, members[item.member]) {
        return false;
      }
      members := members[item.member := Member(item.status, item.incarnation)];
      if item.status == Suspect {
        timers := timers[item.member := 0];
      } else {
        timers := timers - {item.member};
      }
      Enqueue(item);
      changed := true;
    }

    method MaybeRefuteSelf(item: Item) returns (changed: bool)
      modifies this
      ensures (State(), changed) == RefuteSelf(old(State()), item)
    {
      if item.status == Alive || item.incarnation < incarnation {
        return false;
      }
      incarnation := item.incarnation + 1;
      members := members[id := Member(Alive, incarnation)];
      Enqueue(Item(id, Alive, incarnation));
      changed := true;
    }

    method NextPingTarget() returns (target: Option<NodeId>)
      requires InTurn(State())
      modifies this
      ensures (State(), target) == PingTarget(old(State()))
    {
      if pingOrder == [] {
        return None;
      }
      for i := 0 to |pingOrder|
        invariant nextPing < |pingOrder|
        invariant NextTarget(State(), |pingOrder| - i) == NextTarget(old(State()), |pingOrder|)
      {
        var candidate := pingOrder[nextPing];
        nextPing := (nextPing + 1) % |pingOrder|;
        if !(candidate in members && members[candidate].status == Dead) {
          return Some(candidate);
        }
      }
      target := None;
    }

    method BuryOne(m: NodeId)
      modifies this
      ensures State() == Bury(old(State()), m)
    {
      timers := timers - {m};
      if m in members && members[m].status == Suspect {
        var inc := members[m].incarnation;
        members := members[m := Member(Dead, inc)];
        Enqueue(Item(m, Dead, inc));
      }
    }

    /** Ages the suspicions and buries the expired ones, in whatever order the map yields them. */
    method AgeSuspicions() returns (ghost order: seq<NodeId>)
      modifies this
      ensures IsOrder(order, Expired(Aged(old(State()))))
      ensures State() == BuryAll(Aged(old(State())), order)
    {
      timers := map m | m in timers :: timers[m] + 1;
      var timedOut := set m | m in timers && timers[m] >= suspicionTimeout;
      ghost var aged := State();
      order := [];
      while timedOut != {}
        invariant timedOut <= Expired(aged)
        invariant IsOrder(order, Expired(aged) - timedOut)
        invariant State() == BuryAll(aged, order)
        decreases timedOut
      {
        var m :| m in timedOut;
        timedOut := timedOut - {m};
        ghost var longer := order + [m];
        assert longer[..|order|] == order;
        BuryOne(m);
        order := longer;
      }
    }

    method AgeOutstandingPing()
      modifies this
      ensures State() == AgePing(old(State()))
    {
      if awaiting.Some? {
        var ping := awaiting.value.(waited := awaiting.value.waited + 1);
        awaiting := Some(ping);
        if ping.waited >= pingTimeout {
          awaiting := None;
          if ping.target in members && members[ping.target].status == Alive {
            var _ := MergeItem(Item(ping.target, Suspect, members[ping.target].incarnation));
          }
        }
      }
    }

    method MaybePing() returns (out: seq<Envelope>)
      requires Sane(State())
      modifies this
      ensures Outcome(State(), out) == StartPeriod(old(State()))
    {
      periodElapsed := periodElapsed + 1;
      out := [];
      if periodElapsed >= protocolPeriod && awaiting.None? {
        periodElapsed := 0;
        TargetKeeps(State());
        var target := NextPingTarget();
        if target.Some? {
          nextSeq := nextSeq + 1;
          awaiting := Some(Awaited(target.value, nextSeq, 0));
          var gossip := TakeFromQueue();
          out := [Envelope(id, target.value, Ping(nextSeq, incarnation, gossip))];
        }
      }
    }

    method Tick() returns (out: seq<Envelope>, ghost order: seq<NodeId>)
      requires Sane(State())
      modifies this
      ensures IsOrder(order, Expired(Aged(old(State()))))
      ensures Outcome(State(), out) == Swim.Tick(old(State()), order)
    {
      ghost var c := State();
      order := AgeSuspicions();
      BuryAllSane(Aged(c), order);
      AgePingSane(State());
      AgeOutstandingPing();
      out := MaybePing();
    }

    method MergeFacts(ghost env: Envelope, from: NodeId, inc: Incarnation, gossip: seq<Item>)
      requires from == env.from && inc == env.message.incarnation && gossip == env.message.gossip
      modifies this
      ensures State() == MergeAll(old(State()), Facts(env))
    {
      ghost var facts := Facts(env);
      assert facts[..1] == [Item(from, Alive, inc)] && facts[..1][..0] == [];
      var _ := MergeItem(Item(from, Alive, inc));
      for i := 0 to |gossip|
        invariant State() == MergeAll(old(State()), facts[..i + 1])
      {
        assert facts[..i + 2][..i + 1] == facts[..i + 1] && facts[i + 1] == gossip[i];
        var _ := MergeItem(gossip[i]);
      }
      assert facts[..|gossip| + 1] == facts;
    }

    method Receive(env: Envelope) returns (out: seq<Envelope>)
      requires Sane(State())
      modifies this
      ensures Outcome(State(), out) == Swim.Receive(old(State()), env)
    {
      ghost var c := State();
      MergeFacts(env, env.from, env.message.incarnation, env.message.gossip);
      MergeAllSane(c, Facts(env));
      match env.message
      case Ping(seqNo, _, _) =>
        var gossip := TakeFromQueue();
        out := [Envelope(id, env.from, Ack(seqNo, incarnation, gossip))];
      case Ack(seqNo, _, _) =>
        if awaiting.Some? && awaiting.value.target == env.from && awaiting.value.seqNo == seqNo {
          awaiting := None;
        }
        out := [];
    }
  }
}
