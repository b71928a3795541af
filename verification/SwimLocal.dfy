/**
  What every operation of one membership core keeps, whatever messages it is fed:
  views only move up, a node always sees itself alive, suspicion timers run for
  exactly the suspects, and the gossip queue says exactly what the views say.
*/
module SwimLocal {
  import opened Swim
  import opened Options

  // ---------- the invariant of a node ----------

  ghost predicate Distinct(q: seq<Queued>) {
    forall i, j :: 0 <= i < j < |q| ==> q[i].item.member != q[j].item.member
  }

  /** The view of the item's member is what the item says. */
  ghost predicate Current(item: Item, members: map<NodeId, Member>) {
    item.member in members && members[item.member] == Member(item.status, item.incarnation)
  }

  ghost predicate QueueOk(q: seq<Queued>, members: map<NodeId, Member>) {
    && Distinct(q)
    && forall x :: x in q ==> 1 <= x.remaining <= RETRANSMITS && Current(x.item, members)
  }

  ghost predicate Valid(c: Core) {
    && InTurn(c)
    && c.id in c.members && c.members[c.id] == Member(Alive, c.incarnation)
    && (forall m :: m in c.timers <==> m in c.members && c.members[m].status == Suspect)
    && QueueOk(c.queue, c.members)
  }

  /** A view moves up in (incarnation, severity), and never once it is final. */
  ghost predicate Above(now: Member, was: Member) {
    now == was || Outranks(Item(0, now.status, now.incarnation), was)
  }

  ghost predicate Rises(c: Core, c': Core) {
    && c'.id == c.id && c'.incarnation >= c.incarnation
    && forall m :: m in c.members ==> m in c'.members && Above(c'.members[m], c.members[m])
  }

  lemma RisesTransitive(c: Core, c': Core, c'': Core)
    requires Rises(c, c') && Rises(c', c'')
    ensures Rises(c, c'')
  {
    forall m | m in c.members ensures m in c''.members && Above(c''.members[m], c.members[m]) {
      assert Above(c'.members[m], c.members[m]) && Above(c''.members[m], c'.members[m]);
    }
  }

  /** What a node says of others that is not that they are alive. */
  ghost function Accusations(c: Core): set<Item> {
    set m | m in c.members && c.members[m].status != Alive :: Item(m, c.members[m].status, c.members[m].incarnation)
  }

  ghost function Accusing(items: seq<Item>): set<Item> {
    set x | x in items && x.status != Alive
  }

  // ---------- the queue ----------

  lemma ConsDistinct(x: Queued, w: seq<Queued>)
    requires Distinct(w) && forall y :: y in w ==> y.item.member != x.item.member
    ensures Distinct([x] + w)
  {
    forall j | 0 <= j < |w| ensures x.item.member != w[j].item.member {
      assert w[j] in w;
    }
  }

  lemma HeadApart(q: seq<Queued>)
    requires q != [] && Distinct(q)
    ensures Distinct(q[1..]) && forall y :: y in q[1..] ==> y.item.member != q[0].item.member
  {
    forall y | y in q[1..] ensures y.item.member != q[0].item.member {
      var k :| 0 <= k < |q[1..]| && q[1..][k] == y;
      assert q[k + 1] == y;
    }
  }

  lemma {:induction false} WithoutDistinct(q: seq<Queued>, m: NodeId)
    requires Distinct(q)
    ensures Distinct(Without(q, m))
  {
    if q != [] {
      HeadApart(q);
      WithoutDistinct(q[1..], m);
      WithoutKeeps(q[1..], m);
      ConsDistinct(q[0], Without(q[1..], m));
      assert [] + Without(q[1..], m) == Without(q[1..], m);
    }
  }

  /** Queueing the new view of one member keeps the queue in step with the views. */
  lemma EnqueuedOk(q: seq<Queued>, members: map<NodeId, Member>, item: Item)
    requires QueueOk(q, members)
    ensures QueueOk(Enqueued(q, item), members[item.member := Member(item.status, item.incarnation)])
  {
    WithoutDistinct(q, item.member);
    WithoutKeeps(q, item.member);
    var w := Without(q, item.member);
    forall i | 0 <= i < |w| ensures w[i].item.member != item.member {
      assert w[i] in w;
    }
  }

  /** `x` is an entry of `q`, perhaps with fewer sends left. */
  ghost predicate Spent(x: Queued, q: seq<Queued>) {
    exists y :: y in q && y.item == x.item && 1 <= x.remaining <= y.remaining
  }

  lemma {:induction false} LeftFrom(q: seq<Queued>, n: nat)
    requires Positive(q)
    ensures forall x :: x in Left(q, n) ==> Spent(x, q)
  {
    if q != [] && n < MAX_PER_MESSAGE {
      LeftFrom(q[1..], n + 1);
      forall x | x in Left(q, n) ensures Spent(x, q) {
        if x in Left(q[1..], n + 1) {
          var y :| y in q[1..] && y.item == x.item && 1 <= x.remaining <= y.remaining;
          assert y in q;
        } else {
          assert q[0] in q;
        }
      }
    } else {
      forall x | x in Left(q, n) ensures Spent(x, q) {
        assert x in q;
      }
    }
  }

  lemma SpentApart(x: Queued, w: seq<Queued>, q: seq<Queued>)
    requires (forall y :: y in w ==> Spent(y, q)) && (forall y :: y in q ==> y.item.member != x.item.member)
    ensures forall y :: y in w ==> y.item.member != x.item.member
  {
  }

  lemma {:induction false} LeftDistinct(q: seq<Queued>, n: nat)
    requires Positive(q) && Distinct(q)
    ensures Distinct(Left(q, n))
  {
    if q != [] && n < MAX_PER_MESSAGE {
      HeadApart(q);
      LeftDistinct(q[1..], n + 1);
      LeftFrom(q[1..], n + 1);
      var w, head := Left(q[1..], n + 1), q[0].(remaining := q[0].remaining - 1);
      assert Left(q, n) == (if q[0].remaining > 1 then [head] else []) + w;
      hide Distinct, Left, Spent, Positive;
      SpentApart(head, w, q[1..]);
      ConsDistinct(head, w);
      assert [] + w == w;
    }
  }

  lemma {:induction false} TakenFrom(q: seq<Queued>, n: nat)
    requires n <= MAX_PER_MESSAGE
    ensures |Taken(q, n)| <= MAX_PER_MESSAGE - n && |Taken(q, n)| <= |q|
    ensures forall i :: 0 <= i < |Taken(q, n)| ==> Taken(q, n)[i] == q[i].item
    decreases |q|
  {
    if q != [] && n < MAX_PER_MESSAGE {
      TakenFrom(q[1..], n + 1);
    }
  }

  lemma TakeKeeps(c: Core)
    requires Valid(c)
    ensures Positive(c.queue) && Valid(TakeGossip(c).0)
    ensures GossipOk(TakeGossip(c).1, c.members)
  {
    var q := c.queue;
    forall i | 0 <= i < |q| ensures q[i].remaining > 0 {
      assert q[i] in q;
    }
    LeftDistinct(q, 0);
    LeftFrom(q, 0);
    TakenFrom(q, 0);
    forall i | 0 <= i < |Taken(q, 0)| ensures Current(Taken(q, 0)[i], c.members) {
      assert q[i] in q;
    }
  }

  /** At most eight facts, each about another member, each what the sender's view says. */
  ghost predicate GossipOk(gossip: seq<Item>, members: map<NodeId, Member>) {
    && |gossip| <= MAX_PER_MESSAGE
    && (forall x :: x in gossip ==> Current(x, members))
    && (forall i, j :: 0 <= i < j < |gossip| ==> gossip[i].member != gossip[j].member)
  }

  // ---------- how often a fact is sent ----------

  /** How many more messages may carry facts about `m`. */
  ghost function Budget(q: seq<Queued>, m: NodeId): nat {
    if q == [] then 0 else (if q[0].item.member == m then q[0].remaining else 0) + Budget(q[1..], m)
  }

  ghost function Mentions(items: seq<Item>, m: NodeId): nat {
    if items == [] then 0 else (if items[0].member == m then 1 else 0) + Mentions(items[1..], m)
  }

  ghost function Total(q: seq<Queued>): nat {
    if q == [] then 0 else q[0].remaining + Total(q[1..])
  }

  /** Every mention of a member in a message is paid for out of its budget, and nothing else is. */
  lemma {:induction false} MentionsArePaid(q: seq<Queued>, n: nat, m: NodeId)
    requires Positive(q)
    ensures Budget(Left(q, n), m) + Mentions(Taken(q, n), m) == Budget(q, m)
  {
    if q != [] && n < MAX_PER_MESSAGE {
      MentionsArePaid(q[1..], n + 1, m);
      var rest, head := Left(q[1..], n + 1), q[0].(remaining := q[0].remaining - 1);
      assert ([head] + rest)[1..] == rest && [] + rest == rest;
      assert ([q[0].item] + Taken(q[1..], n + 1))[1..] == Taken(q[1..], n + 1);
    }
  }

  /** Queued gossip dies out: every non-empty take lowers what is left to send. */
  lemma {:induction false} TakesRunOut(q: seq<Queued>, n: nat)
    requires Positive(q)
    ensures Total(Left(q, n)) + |Taken(q, n)| == Total(q)
  {
    if q != [] && n < MAX_PER_MESSAGE {
      TakesRunOut(q[1..], n + 1);
      var rest, head := Left(q[1..], n + 1), q[0].(remaining := q[0].remaining - 1);
      assert ([head] + rest)[1..] == rest && [] + rest == rest;
    }
  }

  lemma {:induction false} BudgetWithout(q: seq<Queued>, m: NodeId, x: NodeId)
    ensures Budget(Without(q, m), x) == if x == m then 0 else Budget(q, x)
  {
    if q != [] {
      BudgetWithout(q[1..], m, x);
      var rest := Without(q[1..], m);
      assert ([q[0]] + rest)[1..] == rest && [] + rest == rest;
    }
  }

  lemma {:induction false} BudgetSnoc(q: seq<Queued>, e: Queued, x: NodeId)
    ensures Budget(q + [e], x) == Budget(q, x) + if e.item.member == x then e.remaining else 0
  {
    if q == [] {
      assert [] + [e] == [e] && [e][1..] == [];
    } else {
      assert (q + [e])[1..] == q[1..] + [e];
      BudgetSnoc(q[1..], e, x);
    }
  }

  /** Fresh news gets exactly four sends, replacing whatever its member had left; other members keep theirs. */
  lemma FreshBudget(q: seq<Queued>, item: Item, x: NodeId)
    ensures Budget(Enqueued(q, item), x) == if x == item.member then RETRANSMITS else Budget(q, x)
  {
    BudgetWithout(q, item.member, x);
    BudgetSnoc(Without(q, item.member), Queued(item, RETRANSMITS), x);
  }

  // ---------- merging ----------

  lemma MergeKeeps(c: Core, item: Item)
    requires Valid(c)
    ensures var (c', changed) := Merge(c, item);
            && Valid(c') && Rises(c, c')
            && Accusations(c') <= Accusations(c) + Accusing([item])
            && (!changed ==> c' == c)
  {
    if item.member == c.id {
      RefuteKeeps(c, item);
    } else {
      NewsKeeps(c, item);
    }
  }

  lemma RefuteKeeps(c: Core, item: Item)
    requires Valid(c)
    ensures var (c', changed) := RefuteSelf(c, item);
            && Valid(c') && Rises(c, c') && Accusations(c') <= Accusations(c) && (!changed ==> c' == c)
  {
    EnqueuedOk(c.queue, c.members, Item(c.id, Alive, item.incarnation + 1));
    hide Enqueued, QueueOk;
  }

  lemma NewsKeeps(c: Core, item: Item)
    requires Valid(c) && item.member != c.id
    ensures var (c', changed) := Merge(c, item);
            && Valid(c') && Rises(c, c')
            && Accusations(c') <= Accusations(c) + Accusing([item])
            && (!changed ==> c' == c)
  {
    EnqueuedOk(c.queue, c.members, item);
    hide Enqueued, QueueOk;
    var c' := Merge(c, item).0;
    forall x | x in Accusations(c') ensures x in Accusations(c) + Accusing([item]) {
      if x !in Accusations(c) { assert x == item && item in [item]; }
    }
  }

  lemma {:induction false} MergeAllKeeps(c: Core, items: seq<Item>)
    requires Valid(c)
    ensures Valid(MergeAll(c, items)) && Rises(c, MergeAll(c, items))
    ensures Accusations(MergeAll(c, items)) <= Accusations(c) + Accusing(items)
  {
    if items != [] {
      var init, last := items[..|items| - 1], items[|items| - 1];
      MergeAllKeeps(c, init);
      MergeKeeps(MergeAll(c, init), last);
      hide Valid, Merge, Accusations;
      RisesTransitive(c, MergeAll(c, init), MergeAll(c, items));
      assert items == init + [last];
    }
  }

  // ---------- when order matters ----------

  /** The view of `m` after merging `item` into a view `v` of it, `None` meaning not yet known. */
  function Joined(v: Option<Member>, item: Item): Option<Member> {
    if v.None? || Outranks(item, v.value) then Some(Member(item.status, item.incarnation)) else v
  }

  lemma MergeIsJoin(c: Core, item: Item)
    requires item.member != c.id
    ensures var m, c' := item.member, Merge(c, item).0;
            && m in c'.members
            && Some(c'.members[m]) == Joined(if m in c.members then Some(c.members[m]) else None, item)
            && forall x :: x != m ==> (x in c'.members <==> x in c.members)
                                      && (x in c.members ==> c'.members[x] == c.members[x])
  {
  }

  /** `a` would close the file on a view that `b`, at a later incarnation, could otherwise still raise. */
  ghost predicate CutsOff(v: Option<Member>, a: Item, b: Item) {
    && a.status == Dead && b.incarnation > a.incarnation
    && (v.None? || Outranks(a, v.value))
  }

  /**
    Higher incarnations do not always win: two reports about one member give the same
    view in either order except exactly when one is a death that the view would accept
    and the other carries a later incarnation.
  */
  lemma OrderMatters(v: Option<Member>, a: Item, b: Item)
    requires a.member == b.member
    ensures Joined(Joined(v, a), b) == Joined(Joined(v, b), a) <==> !CutsOff(v, a, b) && !CutsOff(v, b, a)
  {
    ViewOrder(v, a, b);
    ViewOrder(v, b, a);
  }

  lemma ViewOrder(v: Option<Member>, a: Item, b: Item)
    ensures CutsOff(v, a, b) ==> Joined(Joined(v, a), b) == Some(Member(Dead, a.incarnation))
    ensures CutsOff(v, a, b) ==> Joined(Joined(v, b), a) == Joined(v, b) && Joined(v, b).value.incarnation > a.incarnation
  {
  }

  // ---------- time ----------

  lemma AgedKeeps(c: Core)
    requires Valid(c)
    ensures Valid(Aged(c)) && Aged(c) == c.(timers := Aged(c).timers) && Rises(c, Aged(c))
  {
  }

  lemma BuryKeeps(c: Core, m: NodeId)
    requires Valid(c) && m in c.timers
    ensures Valid(Bury(c, m)) && Rises(c, Bury(c, m))
    ensures Bury(c, m).members == c.members[m := Member(Dead, c.members[m].incarnation)]
    ensures Bury(c, m).timers == c.timers - {m}
    ensures Bury(c, m) == c.(members := Bury(c, m).members, timers := Bury(c, m).timers, queue := Bury(c, m).queue)
  {
    EnqueuedOk(c.queue, c.members, Item(m, Dead, c.members[m].incarnation));
  }

  /** Exactly the members of `order` went from suspect to dead, and nothing else about the others moved. */
  ghost predicate Buried(c: Core, order: seq<NodeId>, c': Core) {
    && c' == c.(members := c'.members, timers := c'.timers, queue := c'.queue)
    && c'.timers.Keys == c.timers.Keys - (set m | m in order)
    && c'.members.Keys == c.members.Keys
    && (forall m :: m in c.members ==>
          c'.members[m] == if m in order then Member(Dead, c.members[m].incarnation) else c.members[m])
  }

  lemma BuriedMore(c: Core, init: seq<NodeId>, b: Core, last: NodeId)
    requires Buried(c, init, b) && Valid(b) && last in c.timers && last !in init
    ensures last in b.timers && Buried(c, init + [last], Bury(b, last))
  {
    assert last in b.timers.Keys;
    BuryKeeps(b, last);
    hide Valid, Rises, Bury;
  }

  lemma BuriedNone(c: Core)
    ensures Buried(c, [], c) && Rises(c, c)
  {
  }

  /** Burying a list of suspects makes exactly those dead, in whatever order they come. */
  lemma {:induction false} BuryAllKeeps(c: Core, order: seq<NodeId>)
    requires Valid(c) && (forall m :: m in order ==> m in c.timers)
    requires forall i, j :: 0 <= i < j < |order| ==> order[i] != order[j]
    ensures var c' := BuryAll(c, order); Valid(c') && Rises(c, c') && Buried(c, order, c')
  {
    hide Valid, Above, Rises, Bury, Buried;
    if order == [] {
      BuriedNone(c);
    } else {
      var init, last := order[..|order| - 1], order[|order| - 1];
      BuryAllKeeps(c, init);
      var b := BuryAll(c, init);
      assert order == init + [last] && last !in init;
      BuriedMore(c, init, b, last);
      BuryKeeps(b, last);
      RisesTransitive(c, b, Bury(b, last));
    }
  }

  lemma BuriedFields(c: Core, order: seq<NodeId>, b: Core)
    requires Buried(c, order, b)
    ensures b.id == c.id && b.awaiting == c.awaiting && b.pingTimeout == c.pingTimeout && b.incarnation == c.incarnation
    ensures b.members.Keys == c.members.Keys
    ensures forall m :: m in c.members ==>
              b.members[m] == if m in order then Member(Dead, c.members[m].incarnation) else c.members[m]
  {
  }

  lemma AgePingKeeps(c: Core)
    requires Valid(c)
    ensures Valid(AgePing(c)) && Rises(c, AgePing(c))
    ensures AgePing(c).members.Keys == c.members.Keys
    ensures Unanswered(c) ==> c.awaiting.Some?
    ensures forall m :: m in c.members && m != c.id ==>
              AgePing(c).members[m] == if Unanswered(c) && m == c.awaiting.value.target && c.members[m].status == Alive
                                       then Member(Suspect, c.members[m].incarnation) else c.members[m]
  {
    if Unanswered(c) {
      var c1 := c.(awaiting := None);
      var target := c.awaiting.value.target;
      if target in c.members && c.members[target].status == Alive {
        MergeKeeps(c1, Item(target, Suspect, c.members[target].incarnation));
      }
    }
  }

  /** A message as sent: truthful about the sender's incarnation and about its views. */
  ghost predicate SentOk(c: Core, env: Envelope) {
    env.from == c.id && env.message.incarnation == c.incarnation && GossipOk(env.message.gossip, c.members)
  }

  ghost predicate AllSentOk(c: Core, out: seq<Envelope>) {
    forall e :: e in out ==> SentOk(c, e)
  }

  lemma StartPeriodKeeps(c: Core)
    requires Valid(c)
    ensures Sane(c)
    ensures var o := StartPeriod(c);
            && Valid(o.core) && o.core.members == c.members && o.core.id == c.id && o.core.incarnation == c.incarnation
            && AllSentOk(o.core, o.out)
  {
    TakeKeeps(c);
    var c1 := c.(periodElapsed := c.periodElapsed + 1);
    if c1.periodElapsed >= c1.protocolPeriod && c1.awaiting.None? {
      TargetKeeps(c1.(periodElapsed := 0));
      var (c2, target) := PingTarget(c1.(periodElapsed := 0));
      if target.Some? {
        TakeKeeps(c2.(nextSeq := c2.nextSeq + 1, awaiting := Some(Awaited(target.value, c2.nextSeq + 1, 0))));
      }
    }
  }

  ghost predicate TickOrder(c: Core, order: seq<NodeId>) {
    IsOrder(order, Expired(Aged(c)))
  }

  lemma ValidSane(c: Core)
    requires Valid(c)
    ensures Sane(c)
  {
    TakeKeeps(c);
  }

  function Ticked(c: Core, m: NodeId): Member
    requires m in c.members
  {
    if m in c.timers && c.timers[m] + 1 >= c.suspicionTimeout then Member(Dead, c.members[m].incarnation)
    else if Unanswered(c) && m == c.awaiting.value.target && c.members[m].status == Alive
    then Member(Suspect, c.members[m].incarnation)
    else c.members[m]
  }

  /**
    One tick, exactly: every suspect whose window has elapsed is dead, the target of an
    unanswered ping is suspect if it was thought alive, and no other view of another member moves.
  */
  lemma TickExact(c: Core, order: seq<NodeId>)
    requires Valid(c) && TickOrder(c, order)
    ensures Sane(c)
    ensures var o := Tick(c, order);
            && Valid(o.core) && Rises(c, o.core) && AllSentOk(o.core, o.out)
            && o.core.members.Keys == c.members.Keys
            && forall m :: m in c.members && m != c.id ==> o.core.members[m] == Ticked(c, m)
  {
    hide *;
    ValidSane(c);
    AgedKeeps(c);
    var a := Aged(c);
    TimersMeanSuspect(c, order);
    BuryAllKeeps(a, order);
    var b := BuryAll(a, order);
    BuriedFields(a, order, b);
    AgePingKeeps(b);
    var d := AgePing(b);
    StartPeriodKeeps(d);
    TickSteps(c, order);
    StillUnanswered(c, b);
    RisesTransitive(c, a, b);
    RisesTransitive(c, b, d);
    RisesAs(c, d, Tick(c, order).core);
    forall m | m in c.members && m != c.id ensures Tick(c, order).core.members[m] == Ticked(c, m) {
      TickedAs(c, m);
    }
  }

  lemma TickSteps(c: Core, order: seq<NodeId>)
    requires Sane(c)
    ensures Sane(AgePing(BuryAll(Aged(c), order))) && Tick(c, order) == StartPeriod(AgePing(BuryAll(Aged(c), order)))
  {
    BuryAllSane(Aged(c), order);
    AgePingSane(BuryAll(Aged(c), order));
  }

  lemma TimersMeanSuspect(c: Core, order: seq<NodeId>)
    requires Valid(c) && TickOrder(c, order)
    ensures forall m :: m in order ==> m in Aged(c).timers
    ensures forall m :: m in order <==> m in c.timers && c.timers[m] + 1 >= c.suspicionTimeout
    ensures forall i, j :: 0 <= i < j < |order| ==> order[i] != order[j]
    ensures forall m :: m in c.timers ==> m in c.members && c.members[m].status == Suspect
  {
    assert forall m :: m in Expired(Aged(c)) <==> m in c.timers && c.timers[m] + 1 >= c.suspicionTimeout;
  }

  lemma StillUnanswered(c: Core, b: Core)
    requires b.awaiting == c.awaiting && b.pingTimeout == c.pingTimeout
    ensures Unanswered(b) == Unanswered(c) && (Unanswered(c) ==> c.awaiting.Some?)
  {
  }

  lemma RisesAs(c: Core, d: Core, e: Core)
    requires Rises(c, d) && e.id == d.id && e.members == d.members && e.incarnation == d.incarnation
    ensures Rises(c, e)
  {
  }

  lemma TickedAs(c: Core, m: NodeId)
    requires m in c.members
    ensures Unanswered(c) ==> c.awaiting.Some?
    ensures Ticked(c, m) ==
            if m in c.timers && c.timers[m] + 1 >= c.suspicionTimeout then Member(Dead, c.members[m].incarnation)
            else if Unanswered(c) && m == c.awaiting.value.target && c.members[m].status == Alive
            then Member(Suspect, c.members[m].incarnation)
            else c.members[m]
  {
  }

  lemma ReceiveKeeps(c: Core, env: Envelope)
    requires Valid(c)
    ensures Sane(c)
    ensures var o := Receive(c, env);
            && Valid(o.core) && Rises(c, o.core) && AllSentOk(o.core, o.out)
            && o.core.members == MergeAll(c, Facts(env)).members
            && o.core.incarnation == MergeAll(c, Facts(env)).incarnation
            && Accusations(o.core) <= Accusations(c) + Accusing(env.message.gossip)
  {
    ValidSane(c);
    MergeAllKeeps(c, Facts(env));
    var c1 := MergeAll(c, Facts(env));
    TakeKeeps(c1);
    assert Accusing(Facts(env)) <= Accusing(env.message.gossip);
  }

  // ---------- round robin ----------

  /** How many pings from now position `p` comes up if nobody is skipped. */
  function Distance(c: Core, p: nat): nat
    requires p < |c.pingOrder| && c.nextPing < |c.pingOrder|
  {
    if p >= c.nextPing then p - c.nextPing else p + |c.pingOrder| - c.nextPing
  }

  /**
    Only the dead are skipped: each ping either goes to the peer at position `p`, if it is
    not dead, or brings its turn strictly closer, so each is probed within one cycle.
  */
  lemma {:induction false} TurnComes(c: Core, p: nat, tries: nat)
    requires c.nextPing < |c.pingOrder| && p < |c.pingOrder| && !IsDead(c, c.pingOrder[p])
    requires Distance(c, p) < tries
    ensures var (c', target) := NextTarget(c, tries);
            && target.Some? && c'.pingOrder == c.pingOrder && c'.nextPing < |c.pingOrder| && !IsDead(c, target.value)
            && (target.value == c.pingOrder[p] || Distance(c', p) < Distance(c, p))
    decreases tries
  {
    NextTargetKeeps(c, tries);
    var c1 := c.(nextPing := (c.nextPing + 1) % |c.pingOrder|);
    Advance(c, p);
    if IsDead(c, c.pingOrder[c.nextPing]) {
      TurnComes(c1, p, tries - 1);
    }
  }

  lemma Wraps(i: nat, n: nat)
    requires i < n
    ensures (i + 1) % n == if i + 1 == n then 0 else i + 1
  {
  }

  lemma Advance(c: Core, p: nat)
    requires c.nextPing < |c.pingOrder| && p < |c.pingOrder|
    ensures var next := (c.nextPing + 1) % |c.pingOrder|;
            next < |c.pingOrder| && (p != c.nextPing ==> Distance(c.(nextPing := next), p) == Distance(c, p) - 1)
  {
    Wraps(c.nextPing, |c.pingOrder|);
  }

  /** Nobody is pinged exactly when every peer is known dead. */
  lemma PingsSomeone(c: Core)
    requires InTurn(c)
    ensures PingTarget(c).1.None? <==> forall p :: p in c.pingOrder ==> IsDead(c, p)
  {
    if exists p :: p in c.pingOrder && !IsDead(c, p) {
      var p :| p in c.pingOrder && !IsDead(c, p);
      var i :| 0 <= i < |c.pingOrder| && c.pingOrder[i] == p;
      TurnComes(c, i, |c.pingOrder|);
    } else if c.pingOrder != [] {
      AllDead(c, |c.pingOrder|);
    }
  }

  lemma {:induction false} AllDead(c: Core, tries: nat)
    requires c.nextPing < |c.pingOrder| && forall p :: p in c.pingOrder ==> IsDead(c, p)
    ensures NextTarget(c, tries).1.None?
    decreases tries
  {
    if tries > 0 {
      AllDead(c.(nextPing := (c.nextPing + 1) % |c.pingOrder|), tries - 1);
    }
  }
}
