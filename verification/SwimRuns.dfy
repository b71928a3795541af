/**
  Runs of a membership cluster without restarts, over a network that may lose,
  repeat and reorder messages. Incarnation numbers never run ahead of their owner,
  only the suspect itself clears a suspicion, and every accusation anywhere can be
  traced to a node that waited in vain.
*/
module SwimRuns {
  import opened Swim
  import opened SwimLocal

  datatype Cluster = Cluster(nodes: map<NodeId, Core>, network: set<Envelope>)

  datatype Step = Clock(node: NodeId, order: seq<NodeId>) | Deliver(env: Envelope)

  function Actor(step: Step): NodeId {
    match step case Clock(n, _) => n case Deliver(env) => env.to
  }

  ghost predicate Fresh(n: NodeId, c: Core) {
    c == New(n, c.pingOrder, c.protocolPeriod, c.pingTimeout, c.suspicionTimeout)
  }

  ghost predicate Init(s: Cluster) {
    s.network == {} && forall n :: n in s.nodes ==> Fresh(n, s.nodes[n])
  }

  ghost predicate Enabled(s: Cluster, step: Step) {
    && Actor(step) in s.nodes && Sane(s.nodes[Actor(step)])
    && match step
       case Clock(n, order) => TickOrder(s.nodes[n], order)
       case Deliver(env) => env in s.network
  }

  ghost function Call(s: Cluster, step: Step): Outcome
    requires Enabled(s, step)
  {
    match step
    case Clock(n, order) => Tick(s.nodes[n], order)
    case Deliver(env) => Receive(s.nodes[env.to], env)
  }

  ghost function Apply(s: Cluster, step: Step): Cluster
    requires Enabled(s, step)
  {
    var o := Call(s, step);
    Cluster(s.nodes[Actor(step) := o.core], s.network + set e | e in o.out)
  }

  datatype Run = Run(states: seq<Cluster>, steps: seq<Step>)

  ghost predicate IsRun(r: Run) {
    && |r.states| == |r.steps| + 1
    && Init(r.states[0])
    && forall i :: 0 <= i < |r.steps| ==>
         Enabled(r.states[i], r.steps[i]) && r.states[i + 1] == Apply(r.states[i], r.steps[i])
  }

  /** The incarnation `m` itself is at; a name no node answers to stays at 0. */
  ghost function Own(s: Cluster, m: NodeId): nat {
    if m in s.nodes then s.nodes[m].incarnation else 0
  }

  // ---------- nobody is ahead of the owner ----------

  ghost predicate ViewsWithin(s: Cluster, c: Core) {
    forall m :: m in c.members && m != c.id ==> c.members[m].incarnation <= Own(s, m)
  }

  ghost predicate FactsWithin(s: Cluster, items: seq<Item>) {
    forall x :: x in items ==> x.incarnation <= Own(s, x.member)
  }

  ghost predicate NodeOk(s: Cluster, n: NodeId)
    requires n in s.nodes
  {
    s.nodes[n].id == n && Valid(s.nodes[n]) && ViewsWithin(s, s.nodes[n])
  }

  ghost predicate Truthful(s: Cluster) {
    && (forall n :: n in s.nodes ==> NodeOk(s, n))
    && (forall e :: e in s.network ==> e.from in s.nodes && FactsWithin(s, Facts(e)))
  }

  /** `m` has been told, or concluded itself, that it is not thought alive at its present incarnation. */
  ghost predicate Accused(c: Core, step: Step) {
    match step
    case Clock(_, _) => Unanswered(c) && c.awaiting.value.target == c.id
    case Deliver(env) => Told(c.id, c.incarnation, Facts(env))
  }

  ghost predicate Told(m: NodeId, inc: nat, items: seq<Item>) {
    exists x :: x in items && x.member == m && x.status != Alive && x.incarnation == inc
  }

  lemma MergeWithin(s: Cluster, c: Core, item: Item)
    requires ViewsWithin(s, c) && item.incarnation <= Own(s, item.member)
    requires Own(s, c.id) <= c.incarnation <= Own(s, c.id) + 1
    ensures var c' := Merge(c, item).0;
            && c'.id == c.id && ViewsWithin(s, c')
            && Own(s, c.id) <= c'.incarnation <= Own(s, c.id) + 1
            && (c'.incarnation != c.incarnation ==>
                  c'.incarnation == Own(s, c.id) + 1 && Told(c.id, Own(s, c.id), [item]))
  {
    if item.member == c.id {
      if item.status != Alive && item.incarnation == c.incarnation {
        assert item in [item];
      }
    } else {
      MergeIsJoin(c, item);
    }
  }

  lemma ToldMore(m: NodeId, inc: nat, items: seq<Item>, more: seq<Item>)
    requires Told(m, inc, items) || Told(m, inc, more)
    ensures Told(m, inc, items + more)
  {
    var x :| (x in items || x in more) && x.member == m && x.status != Alive && x.incarnation == inc;
    assert x in items + more;
  }

  lemma {:induction false} MergeAllWithin(s: Cluster, c: Core, items: seq<Item>)
    requires ViewsWithin(s, c) && c.incarnation == Own(s, c.id) && FactsWithin(s, items)
    ensures var c' := MergeAll(c, items);
            && c'.id == c.id && ViewsWithin(s, c')
            && c.incarnation <= c'.incarnation <= c.incarnation + 1
            && (c'.incarnation != c.incarnation ==> Told(c.id, c.incarnation, items))
  {
    if items != [] {
      hide ViewsWithin, Told, Merge;
      var init, last := items[..|items| - 1], items[|items| - 1];
      assert items == init + [last] && last in items;
      MergeAllWithin(s, c, init);
      MergeWithin(s, MergeAll(c, init), last);
      if MergeAll(c, items).incarnation != c.incarnation {
        ToldMore(c.id, c.incarnation, init, [last]);
      }
    }
  }

  /** A tick raises a node's incarnation only if it was pinging itself in vain. */
  lemma TickIncarnation(c: Core, order: seq<NodeId>)
    requires Valid(c) && TickOrder(c, order)
    ensures Sane(c)
    ensures var c' := Tick(c, order).core;
            c'.incarnation == if Unanswered(c) && c.awaiting.value.target == c.id then c.incarnation + 1 else c.incarnation
  {
    hide Valid, StartPeriod;
    ValidSane(c);
    AgedKeeps(c);
    TimersMeanSuspect(c, order);
    BuryAllKeeps(Aged(c), order);
    var b := BuryAll(Aged(c), order);
    AgePingKeeps(b);
    StartPeriodKeeps(AgePing(b));
    TickSteps(c, order);
    hide BuryAll, Aged, Rises, Above;
    SelfPing(b);
  }

  lemma SelfPing(c: Core)
    requires Valid(c)
    ensures AgePing(c).incarnation == if Unanswered(c) && c.awaiting.value.target == c.id then c.incarnation + 1 else c.incarnation
  {
  }

  /** One step at one node, as seen against everybody's incarnation before it. */
  lemma StepWithin(s: Cluster, step: Step)
    requires Truthful(s) && Enabled(s, step)
    ensures var n := Actor(step);
            var c, c' := s.nodes[n], Call(s, step).core;
            && c'.id == n && Valid(c') && Rises(c, c') && ViewsWithin(s, c')
            && AllSentOk(c', Call(s, step).out)
            && c.incarnation <= c'.incarnation <= c.incarnation + 1
            && (c'.incarnation != c.incarnation ==> Accused(c, step))
  {
    var n := Actor(step);
    var c := s.nodes[n];
    assert NodeOk(s, n);
    hide Valid, Rises, AllSentOk, Sane;
    match step {
      case Clock(_, order) =>
        TickExact(c, order);
        TickIncarnation(c, order);
        hide Tick;
      case Deliver(env) =>
        ReceiveKeeps(c, env);
        MergeAllWithin(s, c, Facts(env));
        hide Receive, MergeAll;
    }
  }

  lemma StepKeeps(s: Cluster, step: Step)
    requires Truthful(s) && Enabled(s, step)
    ensures Truthful(Apply(s, step))
    ensures forall m :: Own(s, m) <= Own(Apply(s, step), m)
    ensures forall m :: Own(Apply(s, step), m) != Own(s, m) ==>
              && m == Actor(step) && Own(Apply(s, step), m) == Own(s, m) + 1 && Accused(s.nodes[m], step)
  {
    hide Call, Valid, Rises, Accused, ViewsWithin, FactsWithin, AllSentOk;
    StepWithin(s, step);
    ActorIn(s, step);
    var s', n, o := Apply(s, step), Actor(step), Call(s, step);
    StepOwn(s, step);
    forall m | m in s'.nodes ensures NodeOk(s', m) {
      if m != n {
        assert NodeOk(s, m);
        WithinLater(s, s', s.nodes[m]);
      } else {
        WithinLater(s, s', o.core);
      }
    }
    forall e | e in s'.network ensures e.from in s'.nodes && FactsWithin(s', Facts(e)) {
      if e in s.network {
        FactsLater(s, s', Facts(e));
      } else {
        SentBy(o.core, o.out, e);
        SentWithin(s, s', o.core, e);
      }
    }
  }

  lemma StepOwn(s: Cluster, step: Step)
    requires Enabled(s, step)
    ensures forall m :: Own(Apply(s, step), m) == if m == Actor(step) then Call(s, step).core.incarnation else Own(s, m)
  {
    hide Call;
  }

  lemma WithinLater(s: Cluster, s': Cluster, c: Core)
    requires ViewsWithin(s, c) && forall m :: Own(s, m) <= Own(s', m)
    ensures ViewsWithin(s', c)
  {
  }

  lemma FactsLater(s: Cluster, s': Cluster, items: seq<Item>)
    requires FactsWithin(s, items) && forall m :: Own(s, m) <= Own(s', m)
    ensures FactsWithin(s', items)
  {
  }

  lemma SentBy(c: Core, out: seq<Envelope>, e: Envelope)
    requires AllSentOk(c, out) && e in out
    ensures SentOk(c, e) && e.from == c.id
  {
  }

  lemma SentWithin(s: Cluster, s': Cluster, c: Core, e: Envelope)
    requires ViewsWithin(s, c) && SentOk(c, e) && c.id in s'.nodes && s'.nodes[c.id] == c && Valid(c)
    requires forall m :: m != c.id ==> Own(s', m) == Own(s, m)
    ensures FactsWithin(s', Facts(e))
  {
    forall x | x in Facts(e) ensures x.incarnation <= Own(s', x.member) {
      if x in e.message.gossip {
        assert Current(x, c.members);
      }
    }
  }

  lemma InitTruthful(s: Cluster)
    requires Init(s)
    ensures Truthful(s)
  {
    forall n | n in s.nodes ensures NodeOk(s, n) {
      assert Fresh(n, s.nodes[n]);
    }
  }

  /** In every run, no view, queued fact or message holds an incarnation of a member above the member's own. */
  lemma {:induction false} IncarnationsAreTrue(r: Run, i: nat)
    requires IsRun(r) && i < |r.states|
    ensures Truthful(r.states[i])
  {
    hide Truthful, Apply, Enabled;
    if i == 0 {
      InitTruthful(r.states[0]);
    } else {
      IncarnationsAreTrue(r, i - 1);
      assert Enabled(r.states[i - 1], r.steps[i - 1]) && r.states[i - 1 + 1] == Apply(r.states[i - 1], r.steps[i - 1]);
      StepKeeps(r.states[i - 1], r.steps[i - 1]);
    }
  }

  /** What a queue holds is what the node's views say, so the same goes for queued facts. */
  lemma QueuedIsTrue(r: Run, i: nat, n: NodeId, q: Queued)
    requires IsRun(r) && i < |r.states| && n in r.states[i].nodes && q in r.states[i].nodes[n].queue
    ensures q.item.incarnation <= Own(r.states[i], q.item.member)
  {
    hide IsRun;
    IncarnationsAreTrue(r, i);
    assert NodeOk(r.states[i], n);
    assert Current(q.item, r.states[i].nodes[n].members);
  }

  // ---------- along a run ----------

  /** No node is ever in a state its tick cannot handle. */
  lemma NeverStuck(r: Run, i: nat, n: NodeId)
    requires IsRun(r) && i < |r.states| && n in r.states[i].nodes
    ensures Sane(r.states[i].nodes[n])
  {
    hide IsRun;
    IncarnationsAreTrue(r, i);
    assert NodeOk(r.states[i], n);
    ValidSane(r.states[i].nodes[n]);
  }

  /** A refutation: accused at its own incarnation, `m` moves to the next. */
  ghost predicate RefutesAt(r: Run, k: nat, m: NodeId, inc: nat)
    requires IsRun(r) && k < |r.steps|
  {
    && Actor(r.steps[k]) == m && m in r.states[k].nodes
    && Own(r.states[k], m) + 1 == inc == Own(r.states[k + 1], m)
    && Accused(r.states[k].nodes[m], r.steps[k])
  }

  /** Every incarnation a member has reached, it reached by refuting the one before. */
  lemma {:induction false} RefutedBefore(r: Run, i: nat, m: NodeId, inc: nat) returns (k: nat)
    requires IsRun(r) && i < |r.states| && 1 <= inc <= Own(r.states[i], m)
    ensures k < i && k < |r.steps| && RefutesAt(r, k, m, inc)
    decreases i
  {
    hide Apply, Enabled, Accused, Truthful;
    FreshIncarnation(r.states[0], m);
    if i == 0 {
      assert false;
    } else {
      var s, step := r.states[i - 1], r.steps[i - 1];
      IncarnationsAreTrue(r, i - 1);
      assert Enabled(s, step) && r.states[i - 1 + 1] == Apply(s, step);
      StepKeeps(s, step);
      ActorIn(s, step);
      if inc <= Own(s, m) {
        k := RefutedBefore(r, i - 1, m, inc);
      } else {
        k := i - 1;
      }
    }
  }

  lemma ActorIn(s: Cluster, step: Step)
    requires Enabled(s, step)
    ensures Actor(step) in s.nodes
  {
  }

  lemma FreshIncarnation(s: Cluster, m: NodeId)
    requires Init(s)
    ensures Own(s, m) == 0
  {
    if m in s.nodes { assert Fresh(m, s.nodes[m]); }
  }

  /**
    Only the suspect clears a suspicion: when an observer stops suspecting `m` and calls it
    alive, `m` itself has earlier refuted an accusation at the suspected incarnation or a later one.
  */
  lemma OnlyTheSuspectClears(r: Run, i: nat, n: NodeId, m: NodeId) returns (k: nat)
    requires IsRun(r) && i < |r.steps|
    requires n in r.states[i].nodes && n in r.states[i + 1].nodes
    requires m in r.states[i].nodes[n].members && m in r.states[i + 1].nodes[n].members
    requires r.states[i].nodes[n].members[m].status == Suspect && r.states[i + 1].nodes[n].members[m].status == Alive
    ensures m != n && k < i
    ensures var was, now := r.states[i].nodes[n].members[m].incarnation, r.states[i + 1].nodes[n].members[m].incarnation;
            was < now && RefutesAt(r, k, m, now)
  {
    var s, s', step := r.states[i], r.states[i + 1], r.steps[i];
    assert Enabled(s, step) && s' == Apply(s, step);
    hide IsRun, Apply, Enabled, Truthful;
    IncarnationsAreTrue(r, i);
    IncarnationsAreTrue(r, i + 1);
    StepKeeps(s, step);
    ClearedHigher(s, s', n, m, step);
    k := RefutedBefore(r, i, m, s'.nodes[n].members[m].incarnation);
  }

  lemma SelfAlive(c: Core)
    requires Valid(c)
    ensures c.id in c.members && c.members[c.id].status == Alive
  {
  }

  lemma ClearedHigher(s: Cluster, s': Cluster, n: NodeId, m: NodeId, step: Step)
    requires Truthful(s) && Truthful(s') && Enabled(s, step) && s' == Apply(s, step)
    requires n in s.nodes && n in s'.nodes && m in s.nodes[n].members && m in s'.nodes[n].members
    requires s.nodes[n].members[m].status == Suspect && s'.nodes[n].members[m].status == Alive
    ensures m != n && s.nodes[n].members[m].incarnation < s'.nodes[n].members[m].incarnation <= Own(s, m)
  {
    hide Call, Valid, AllSentOk, Sane, FactsWithin;
    StepWithin(s, step);
    assert NodeOk(s, n) && NodeOk(s', n);
    assert n == Actor(step);
    SelfAlive(s.nodes[n]);
    var c, c' := s.nodes[n], s'.nodes[n];
    assert Above(c'.members[m], c.members[m]);
  }

  /** Views only rise, across any stretch of any run; a death, once believed, stays. */
  lemma {:induction false} ViewsRise(r: Run, i: nat, j: nat, n: NodeId)
    requires IsRun(r) && i <= j < |r.states| && n in r.states[i].nodes
    ensures n in r.states[j].nodes && Rises(r.states[i].nodes[n], r.states[j].nodes[n])
    decreases j
  {
    hide Truthful, Rises, Apply, Enabled;
    if i < j {
      ViewsRise(r, i, j - 1, n);
      IncarnationsAreTrue(r, j - 1);
      assert Enabled(r.states[j - 1], r.steps[j - 1]) && r.states[j - 1 + 1] == Apply(r.states[j - 1], r.steps[j - 1]);
      StepRises(r.states[j - 1], r.steps[j - 1], n);
      RisesTransitive(r.states[i].nodes[n], r.states[j - 1].nodes[n], r.states[j].nodes[n]);
    } else {
      RisesSelf(r.states[i].nodes[n]);
    }
  }

  lemma RisesSelf(c: Core)
    ensures Rises(c, c)
  {
  }

  lemma StepRises(s: Cluster, step: Step, n: NodeId)
    requires Truthful(s) && Enabled(s, step) && n in s.nodes
    ensures n in Apply(s, step).nodes && Rises(s.nodes[n], Apply(s, step).nodes[n])
  {
    StepWithin(s, step);
    RisesSelf(s.nodes[n]);
    hide Call, Rises;
  }

  // ---------- accusations have an origin ----------

  /** Someone holds or carries the claim that a member is suspect or dead. */
  ghost predicate ClaimedIn(s: Cluster, x: Item) {
    && x.status != Alive
    && ((exists n :: n in s.nodes && x in Accusations(s.nodes[n])) || (exists e :: e in s.network && x in e.message.gossip))
  }

  /** A node waited in vain: for an ack (suspicion), or out the whole suspicion window (death). */
  ghost predicate WaitedInVain(s: Cluster, step: Step, x: Item) {
    && step.Clock? && step.node in s.nodes
    && var c := s.nodes[step.node];
    && x.member in c.members && x.member != c.id && c.members[x.member].incarnation == x.incarnation
    && if x.status == Suspect then
         Unanswered(c) && c.awaiting.value.target == x.member && c.members[x.member].status == Alive
       else
         && x.status == Dead && c.members[x.member].status == Suspect
         && x.member in c.timers && c.timers[x.member] + 1 >= c.suspicionTimeout
  }

  lemma StepClaims(s: Cluster, step: Step, x: Item)
    requires Truthful(s) && Enabled(s, step) && ClaimedIn(Apply(s, step), x)
    ensures ClaimedIn(s, x) || WaitedInVain(s, step, x)
  {
    StepWithin(s, step);
    var n, o := Actor(step), Call(s, step);
    var c := s.nodes[n];
    assert NodeOk(s, n);
    if x in Accusations(o.core) || (exists e :: e in o.out && x in e.message.gossip) {
      SentAreHeld(o.core, o.out, x);
      match step {
        case Clock(_, order) => TickClaims(s, n, order, x);
        case Deliver(env) => ReceiveClaims(s, c, env, x);
      }
    } else {
      hide Call, Accusations;
      ClaimedElsewhere(s, step, x);
    }
  }

  lemma SentAreHeld(c: Core, out: seq<Envelope>, x: Item)
    requires AllSentOk(c, out) && x.status != Alive
    ensures (exists e :: e in out && x in e.message.gossip) ==> x in Accusations(c)
  {
    if exists e :: e in out && x in e.message.gossip {
      var e :| e in out && x in e.message.gossip;
      assert SentOk(c, e) && Current(x, c.members);
    }
  }

  lemma ClaimedElsewhere(s: Cluster, step: Step, x: Item)
    requires Enabled(s, step) && ClaimedIn(Apply(s, step), x)
    requires x !in Accusations(Call(s, step).core)
    requires !exists e :: e in Call(s, step).out && x in e.message.gossip
    ensures ClaimedIn(s, x)
  {
    hide Call, Accusations, Sane;
    var s' := Apply(s, step);
    if exists n :: n in s'.nodes && x in Accusations(s'.nodes[n]) {
      var n :| n in s'.nodes && x in Accusations(s'.nodes[n]);
      assert s'.nodes[n] == s.nodes[n];
    } else {
      var e :| e in s'.network && x in e.message.gossip;
      assert e in s.network;
    }
  }

  lemma TickClaims(s: Cluster, n: NodeId, order: seq<NodeId>, x: Item)
    requires n in s.nodes && Valid(s.nodes[n]) && TickOrder(s.nodes[n], order) && Sane(s.nodes[n])
    requires x in Accusations(Tick(s.nodes[n], order).core)
    ensures ClaimedIn(s, x) || WaitedInVain(s, Clock(n, order), x)
  {
    var c := s.nodes[n];
    TickExact(c, order);
    hide Tick;
    assert x.member in c.members;
    var c' := Tick(c, order).core;
    assert x.member != c'.id;
    assert c'.members[x.member] == Ticked(c, x.member);
    if c'.members[x.member] == c.members[x.member] {
      assert x in Accusations(c);
    }
  }

  lemma ReceiveClaims(s: Cluster, c: Core, env: Envelope, x: Item)
    requires env in s.network && env.to in s.nodes && s.nodes[env.to] == c && Valid(c) && Sane(c)
    requires x in Accusations(Receive(c, env).core)
    ensures ClaimedIn(s, x)
  {
    ReceiveKeeps(c, env);
    hide Receive;
  }

  lemma NothingClaimed(s: Cluster, x: Item)
    requires Init(s)
    ensures !ClaimedIn(s, x)
  {
    forall n | n in s.nodes ensures x !in Accusations(s.nodes[n]) || x.status == Alive {
      assert Fresh(n, s.nodes[n]);
    }
  }

  /**
    No accusation comes out of thin air: whenever anyone holds or carries the claim that a
    member is suspect (or dead) at some incarnation, a node earlier waited in vain for that
    member's ack (or out its suspicion window) while viewing it at exactly that incarnation.
  */
  lemma {:induction false} AccusationHasOrigin(r: Run, i: nat, x: Item) returns (k: nat)
    requires IsRun(r) && i < |r.states| && ClaimedIn(r.states[i], x)
    ensures k < i && k < |r.steps| && WaitedInVain(r.states[k], r.steps[k], x)
    decreases i
  {
    hide Apply, Enabled, Truthful, ClaimedIn, WaitedInVain;
    NothingClaimed(r.states[0], x);
    if i == 0 {
      assert false;
    } else {
      var s, step := r.states[i - 1], r.steps[i - 1];
      IncarnationsAreTrue(r, i - 1);
      assert Enabled(s, step) && r.states[i - 1 + 1] == Apply(s, step);
      StepClaims(s, step, x);
      if ClaimedIn(s, x) {
        k := AccusationHasOrigin(r, i - 1, x);
      } else {
        k := i - 1;
      }
    }
  }

  /** A death is never declared without a suspicion first, and a missed ack before that. */
  lemma DeathFollowsSuspicion(r: Run, i: nat, m: NodeId, inc: nat) returns (j: nat, k: nat)
    requires IsRun(r) && i < |r.states| && ClaimedIn(r.states[i], Item(m, Dead, inc))
    ensures j < k < i && k < |r.steps|
    ensures WaitedInVain(r.states[j], r.steps[j], Item(m, Suspect, inc))
    ensures WaitedInVain(r.states[k], r.steps[k], Item(m, Dead, inc))
  {
    hide IsRun;
    k := AccusationHasOrigin(r, i, Item(m, Dead, inc));
    var c := r.states[k].nodes[r.steps[k].node];
    assert Item(m, Suspect, inc) in Accusations(c);
    j := AccusationHasOrigin(r, k, Item(m, Suspect, inc));
  }
}
