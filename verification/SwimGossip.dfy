/**
  How far one piece of news travels from one node: over a whole run, each fact is
  attached to at most four of the messages a node sends.
*/
module SwimGossip {
  import opened Options
  import opened Swim
  import opened SwimLocal
  import opened SwimRuns

  // ---------- what is left to send ----------

  /**
    The most messages that may yet carry fact `x`: what the queue has left for it while
    it is the view, four if the view may still come to it, none once the view is past it.
  */
  ghost function Remaining(members: map<NodeId, Member>, q: seq<Queued>, x: Item): nat {
    if x.member !in members then RETRANSMITS
    else if members[x.member] == Member(x.status, x.incarnation) then Budget(q, x.member)
    else if Outranks(x, members[x.member]) then RETRANSMITS
    else 0
  }

  lemma {:induction false} BudgetAtMost(q: seq<Queued>, m: NodeId)
    requires Distinct(q) && forall e :: e in q ==> e.remaining <= RETRANSMITS
    ensures Budget(q, m) <= RETRANSMITS
    ensures (forall e :: e in q ==> e.item.member != m) ==> Budget(q, m) == 0
  {
    if q != [] {
      HeadApart(q);
      assert q[0] in q;
      BudgetAtMost(q[1..], m);
    }
  }

  lemma RemainingAtMost(c: Core, x: Item)
    requires Valid(c)
    ensures Remaining(c.members, c.queue, x) <= RETRANSMITS
  {
    BudgetAtMost(c.queue, x.member);
  }

  /** News replaces an outranked view: what may yet be sent of any fact does not rise. */
  lemma NewsRemaining(members: map<NodeId, Member>, q: seq<Queued>, item: Item, x: Item)
    requires item.member in members ==> Outranks(item, members[item.member])
    ensures Remaining(members[item.member := Member(item.status, item.incarnation)], Enqueued(q, item), x)
            <= Remaining(members, q, x)
  {
    FreshBudget(q, item, x.member);
    hide Budget, Enqueued;
  }

  lemma MergeRemaining(c: Core, item: Item, x: Item)
    requires Valid(c)
    ensures var c' := Merge(c, item).0; Remaining(c'.members, c'.queue, x) <= Remaining(c.members, c.queue, x)
  {
    hide Budget, Enqueued, Remaining, QueueOk;
    if item.member == c.id {
      if item.status != Alive && item.incarnation >= c.incarnation {
        NewsRemaining(c.members, c.queue, Item(c.id, Alive, item.incarnation + 1), x);
      }
    } else if item.member !in c.members || Outranks(item, c.members[item.member]) {
      NewsRemaining(c.members, c.queue, item, x);
    }
  }

  lemma {:induction false} MergeAllRemaining(c: Core, items: seq<Item>, x: Item)
    requires Valid(c)
    ensures var c' := MergeAll(c, items);
            Valid(c') && Remaining(c'.members, c'.queue, x) <= Remaining(c.members, c.queue, x)
  {
    hide Valid, Merge, Remaining;
    MergeAllKeeps(c, items);
    if items != [] {
      var init, last := items[..|items| - 1], items[|items| - 1];
      MergeAllRemaining(c, init, x);
      MergeRemaining(MergeAll(c, init), last, x);
    }
  }

  lemma {:induction false} BuryAllRemaining(c: Core, order: seq<NodeId>, x: Item)
    requires Valid(c) && (forall m :: m in order ==> m in c.timers)
    requires forall i, j :: 0 <= i < j < |order| ==> order[i] != order[j]
    ensures var c' := BuryAll(c, order); Remaining(c'.members, c'.queue, x) <= Remaining(c.members, c.queue, x)
  {
    hide Remaining, Rises, Enqueued, QueueOk;
    if order != [] {
      var init, last := order[..|order| - 1], order[|order| - 1];
      BuryAllRemaining(c, init, x);
      BuryAllKeeps(c, init);
      var b := BuryAll(c, init);
      assert last in b.timers by { StillTimed(c, init, b, last); }
      NewsRemaining(b.members, b.queue, Item(last, Dead, b.members[last].incarnation), x);
    }
  }

  lemma StillTimed(c: Core, init: seq<NodeId>, b: Core, m: NodeId)
    requires Buried(c, init, b) && m in c.timers && m !in init
    ensures m in b.timers
  {
    assert m in b.timers.Keys;
  }

  lemma AgePingRemaining(c: Core, x: Item)
    requires Valid(c)
    ensures var c' := AgePing(c); Remaining(c'.members, c'.queue, x) <= Remaining(c.members, c.queue, x)
  {
    hide Remaining, QueueOk, Merge;
    if Unanswered(c) {
      var target := c.awaiting.value.target;
      if target in c.members {
        MergeRemaining(c.(awaiting := None), Item(target, Suspect, c.members[target].incarnation), x);
      }
    }
  }

  // ---------- taking from the queue ----------

  /** How many of the messages carry the fact. */
  ghost function Sent(out: seq<Envelope>, x: Item): nat {
    if out == [] then 0 else (if x in out[0].message.gossip then 1 else 0) + Sent(out[1..], x)
  }

  lemma {:induction false} MentionedIsCounted(items: seq<Item>, x: Item)
    ensures x in items ==> Mentions(items, x.member) >= 1
  {
    if items != [] {
      MentionedIsCounted(items[1..], x);
    }
  }

  /** A fact that goes out is the view, and has been paid for. */
  lemma TakeRemaining(c: Core, x: Item)
    requires Valid(c)
    ensures Positive(c.queue)
    ensures var (c', gossip) := TakeGossip(c);
            Remaining(c'.members, c'.queue, x) + (if x in gossip then 1 else 0) <= Remaining(c.members, c.queue, x)
  {
    TakeKeeps(c);
    MentionsArePaid(c.queue, 0, x.member);
    MentionedIsCounted(Taken(c.queue, 0), x);
    hide Budget, Mentions, Valid, Taken, Left;
    if x in TakeGossip(c).1 {
      assert Current(x, c.members);
    }
  }

  lemma StartPeriodRemaining(c: Core, x: Item)
    requires Valid(c)
    ensures Sane(c)
    ensures var o := StartPeriod(c);
            Remaining(o.core.members, o.core.queue, x) + Sent(o.out, x) <= Remaining(c.members, c.queue, x)
  {
    ValidSane(c);
    TakeRemaining(c, x);
    hide Budget, Remaining, QueueOk, Taken, Left;
    var c1 := c.(periodElapsed := c.periodElapsed + 1);
    if c1.periodElapsed >= c1.protocolPeriod && c1.awaiting.None? {
      TargetKeeps(c1.(periodElapsed := 0));
      hide PingTarget;
    }
  }

  // ---------- one call ----------

  lemma TickRemaining(c: Core, order: seq<NodeId>, x: Item)
    requires Valid(c) && TickOrder(c, order)
    ensures Sane(c)
    ensures var o := Tick(c, order);
            Remaining(o.core.members, o.core.queue, x) + Sent(o.out, x) <= Remaining(c.members, c.queue, x)
  {
    hide *;
    ValidSane(c);
    AgedKeeps(c);
    var a := Aged(c);
    TimersMeanSuspect(c, order);
    BuryAllKeeps(a, order);
    BuryAllRemaining(a, order, x);
    var b := BuryAll(a, order);
    AgePingKeeps(b);
    AgePingRemaining(b, x);
    StartPeriodRemaining(AgePing(b), x);
    TickSteps(c, order);
  }

  lemma ReceiveRemaining(c: Core, env: Envelope, x: Item)
    requires Valid(c)
    ensures Sane(c)
    ensures var o := Receive(c, env);
            Remaining(o.core.members, o.core.queue, x) + Sent(o.out, x) <= Remaining(c.members, c.queue, x)
  {
    ValidSane(c);
    MergeAllRemaining(c, Facts(env), x);
    TakeRemaining(MergeAll(c, Facts(env)), x);
    hide Remaining, MergeAll, Valid, Taken, Left;
  }

  // ---------- along a run ----------

  /** The messages `n` has sent with fact `x` in their gossip by the `i`th state. */
  ghost function TimesSent(r: Run, i: nat, n: NodeId, x: Item): nat
    requires IsRun(r) && i < |r.states|
  {
    if i == 0 then 0
    else
      var s, step := r.states[i - 1], r.steps[i - 1];
      assert Enabled(s, step);
      TimesSent(r, i - 1, n, x) + if Actor(step) == n then Sent(Call(s, step).out, x) else 0
  }

  lemma StepRemaining(s: Cluster, step: Step, n: NodeId, x: Item)
    requires Truthful(s) && Enabled(s, step) && n in s.nodes
    ensures n in Apply(s, step).nodes
    ensures var c, c' := s.nodes[n], Apply(s, step).nodes[n];
            Remaining(c'.members, c'.queue, x) + (if Actor(step) == n then Sent(Call(s, step).out, x) else 0)
            <= Remaining(c.members, c.queue, x)
  {
    hide Remaining, Sent, Valid, Tick, Receive;
    assert NodeOk(s, Actor(step));
    if Actor(step) == n {
      match step {
        case Clock(_, order) => TickRemaining(s.nodes[n], order, x);
        case Deliver(env) => ReceiveRemaining(s.nodes[n], env, x);
      }
    }
  }

  lemma {:induction false} SentAndLeft(r: Run, i: nat, n: NodeId, x: Item)
    requires IsRun(r) && i < |r.states| && n in r.states[0].nodes
    ensures n in r.states[i].nodes
    ensures TimesSent(r, i, n, x) + Remaining(r.states[i].nodes[n].members, r.states[i].nodes[n].queue, x) <= RETRANSMITS
  {
    hide Remaining, Sent, Call, Truthful, Apply, Enabled;
    if i == 0 {
      IncarnationsAreTrue(r, 0);
      FirstOk(r.states[0], n);
      RemainingAtMost(r.states[0].nodes[n], x);
    } else {
      SentAndLeft(r, i - 1, n, x);
      IncarnationsAreTrue(r, i - 1);
      assert Enabled(r.states[i - 1], r.steps[i - 1]) && r.states[i - 1 + 1] == Apply(r.states[i - 1], r.steps[i - 1]);
      StepRemaining(r.states[i - 1], r.steps[i - 1], n, x);
    }
  }

  lemma FirstOk(s: Cluster, n: NodeId)
    requires Truthful(s) && n in s.nodes
    ensures Valid(s.nodes[n])
  {
    assert NodeOk(s, n);
  }

  /** In every run, however often it is heard again, a node sends a fact on in at most four messages. */
  lemma FourTimesAtMost(r: Run, i: nat, n: NodeId, x: Item)
    requires IsRun(r) && i < |r.states| && n in r.states[0].nodes
    ensures TimesSent(r, i, n, x) <= RETRANSMITS
  {
    SentAndLeft(r, i, n, x);
    hide *;
  }
}
