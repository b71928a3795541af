/**
  Building runs. Lemmas that extend a run by one engine iteration, an election, a round
  of accepted appends or a round of reports, for any members and whatever the others do.
*/
module RaftScript {
  import opened Raft
  import opened Options
  import opened RaftCluster
  import opened RaftHistory
  import opened RaftRuns
  import opened RaftCommit
  import opened RaftSafety

  // ---------- where a run stands ----------

  ghost function Last(r: Run): Cluster
    requires |r.states| > 0
  {
    r.states[|r.states| - 1]
  }

  ghost predicate HostUp(n: NodeId, host: Host, members: set<NodeId>) {
    && host.running.Some?
    && var c := host.running.value;
    && host.disk == PersistentState(c)
    && c.id == n && PeersOk(n, c.peers, members)
    && c.electionTimeout == 1 && c.heartbeatInterval == 1
  }

  /** A run of these members, all of them up, with timers that fire at every tick. */
  ghost predicate Up(r: Run, members: set<NodeId>) {
    && IsRun(r) && r.members == members && |r.states| > 0
    && Last(r).hosts.Keys == members
    && forall n :: n in members ==> HostUp(n, Last(r).hosts[n], members)
  }

  ghost function CoreOf(r: Run, n: NodeId): Core
    requires Up(r, r.members) && n in r.members
  {
    Last(r).hosts[n].running.value
  }

  /** From `r` to `r'` only the cores of `who` have changed; messages and releases stay. */
  ghost predicate Moves(r: Run, r': Run, who: set<NodeId>) {
    && Up(r, r.members) && Up(r', r.members) && r'.members == r.members
    && (forall n :: n in r.members && n !in who ==> CoreOf(r', n) == CoreOf(r, n))
    && Last(r).network <= Last(r').network && Last(r).released <= Last(r').released
  }

  lemma MovesOn(r: Run, r': Run, r'': Run, who: set<NodeId>, more: set<NodeId>)
    requires Moves(r, r', who) && Moves(r', r'', more)
    ensures Moves(r, r'', who + more)
  {
    hide Up;
  }

  ghost function Longer(r: Run, step: Step): Run
    requires IsRun(r) && Enabled(r.states[|r.steps|], step)
  {
    Run(r.members, r.states + [Apply(r.states[|r.steps|], step)], r.steps + [step])
  }

  lemma LongerIsRun(r: Run, step: Step)
    requires IsRun(r) && Enabled(r.states[|r.steps|], step)
    ensures IsRun(Longer(r, step))
  {
    var q := Longer(r, step);
    hide Init, Apply, Enabled;
    forall i | 0 <= i < |q.steps|
      ensures Enabled(q.states[i], q.steps[i]) && q.states[i + 1] == Apply(q.states[i], q.steps[i])
    {
      if i < |r.steps| {
        assert q.states[i] == r.states[i] && q.steps[i] == r.steps[i] && q.states[i + 1] == r.states[i + 1];
      }
    }
  }

  /** The call that member `n` would make now on this input. */
  ghost predicate Calls(r: Run, n: NodeId, input: Input, c': Core, out: seq<Envelope>)
    requires Up(r, r.members) && n in r.members
  {
    var c := CoreOf(r, n);
    && (input.Inbound? ==> input.env in Last(r).network && input.env.to == n)
    && CoreCall(c, input) == Done(c', out) && CanDrain(c')
    && c'.id == c.id && c'.peers == c.peers
    && c'.electionTimeout == c.electionTimeout && c'.heartbeatInterval == c.heartbeatInterval
  }

  /** One engine iteration. */
  lemma Go(r: Run, n: NodeId, input: Input, c': Core, out: seq<Envelope>) returns (r': Run)
    requires Up(r, r.members) && n in r.members && Calls(r, n, input, c', out)
    ensures Moves(r, r', {n}) && CoreOf(r', n) == AfterDrain(c')
    ensures forall e :: e in out ==> e in Last(r').network
    ensures Releases(c') <= Last(r').released
  {
    hide CoreCall, Init, PeersOk, HostUp, PersistentState;
    var step := Engine(n, input);
    var s := Last(r);
    assert HostUp(n, s.hosts[n], r.members);
    Running(n, s.hosts[n], r.members);
    LongerIsRun(r, step);
    r' := Longer(r, step);
    assert Last(r') == Iterate(s, n, input);
    StaysHostUp(n, s.hosts[n], r.members, input, c', out);
    assert Last(r').hosts.Keys == r.members;
  }

  lemma Running(n: NodeId, host: Host, members: set<NodeId>)
    requires HostUp(n, host, members)
    ensures host.running.Some?
  {
  }

  lemma StaysHostUp(n: NodeId, host: Host, members: set<NodeId>, input: Input, c': Core, out: seq<Envelope>)
    requires HostUp(n, host, members)
    requires var c := host.running.value;
             && CoreCall(c, input) == Done(c', out)
             && c'.id == c.id && c'.peers == c.peers
             && c'.electionTimeout == c.electionTimeout && c'.heartbeatInterval == c.heartbeatInterval
    ensures var disk := if Persists(host.running.value, c', input) then PersistentState(c') else host.disk;
            HostUp(n, Host(Some(AfterDrain(c')), disk), members)
  {
    hide CoreCall, PeersOk;
    DiskIsCurrent(host.running.value, input);
  }

  // ---------- starting ----------

  ghost function SeqOf(s: set<NodeId>): seq<NodeId> {
    if s == {} then [] else var x :| x in s; [x] + SeqOf(s - {x})
  }

  lemma {:induction false} SeqOfLists(s: set<NodeId>)
    ensures |SeqOf(s)| == |s| && (forall x :: x in SeqOf(s) <==> x in s)
    ensures forall i, j :: 0 <= i < j < |s| ==> SeqOf(s)[i] != SeqOf(s)[j]
  {
    if s != {} {
      var x :| x in s && SeqOf(s) == [x] + SeqOf(s - {x});
      SeqOfLists(s - {x});
    }
  }

  ghost function FirstCore(n: NodeId, members: set<NodeId>): Core {
    New(n, SeqOf(members - {n}), 1, 1)
  }

  /** The run that has not begun: everybody a follower in term 0 with an empty log. */
  lemma Begin(members: set<NodeId>) returns (r: Run)
    ensures r.members == members && Up(r, members)
    ensures forall n :: n in members ==> CoreOf(r, n) == FirstCore(n, members)
  {
    hide FirstBoot, HostUp, FirstCore;
    var hosts := map n | n in members :: FirstHost(n, members);
    r := Run(members, [Cluster(hosts, {}, {})], []);
    forall n | n in members
      ensures FirstBoot(n, hosts[n], members) && HostUp(n, hosts[n], members) && hosts[n].running == Some(FirstCore(n, members))
    {
      Boots(n, members);
    }
    assert Init(r.states[0], members);
  }

  ghost function FirstHost(n: NodeId, members: set<NodeId>): Host {
    Host(Some(FirstCore(n, members)), Persisted(0, None, []))
  }

  lemma Boots(n: NodeId, members: set<NodeId>)
    requires n in members
    ensures FirstBoot(n, FirstHost(n, members), members) && HostUp(n, FirstHost(n, members), members)
  {
    hide SeqOf;
    SeqOfLists(members - {n});
    assert |members - {n}| == |members| - 1;
  }

  lemma {:induction false} SomeOf(s: set<NodeId>, k: nat) returns (t: set<NodeId>)
    requires k <= |s|
    ensures t <= s && |t| == k
  {
    if k == 0 {
      t := {};
    } else {
      var x :| x in s;
      t := SomeOf(s - {x}, k - 1);
      t := t + {x};
    }
  }

  // ---------- elections ----------

  /** Nothing waits to be applied. */
  predicate Settled(c: Core) { c.lastApplied == c.commitIndex }

  lemma NothingReleased(c: Core)
    requires Settled(c)
    ensures CanDrain(c) && AfterDrain(c) == c
  {
  }

  function AskFor(c: Core): Rpc { RequestVote(c.currentTerm, c.id, |c.log|, LastTerm(c.log)) }

  lemma StandsFor(c: Core)
    requires c.role != Leader && c.electionTimeout == 1 && |c.peers| >= 1
    ensures CoreCall(c, Timeout) == Done(Campaigner(c), VoteRequests(Campaigner(c)))
    ensures forall p :: p in c.peers ==> Envelope(c.id, p, AskFor(Campaigner(c))) in VoteRequests(Campaigner(c))
  {
    var d := Campaigner(c);
    assert d == Campaigner(c.(electionElapsed := c.electionElapsed + 1));
    assert |d.votesReceived| == 1;
    assert VoteRequests(d) + [] == VoteRequests(d);
    forall p | p in c.peers ensures Envelope(c.id, p, AskFor(d)) in VoteRequests(d) {
      var i :| 0 <= i < |c.peers| && c.peers[i] == p;
      assert VoteRequests(d)[i] == Envelope(c.id, p, AskFor(d));
    }
  }

  /** A follower that has granted its vote in term `term`. */
  function Granted(c: Core, term: Term, candidate: NodeId): Core {
    c.(currentTerm := term, votedFor := Some(candidate), role := Follower, electionElapsed := 0)
  }

  ghost predicate WillGrant(c: Core, ask: Rpc) {
    ask.RequestVote? && c.currentTerm < ask.term && Settled(c) && UpToDate(ask.lastLogIndex, ask.lastLogTerm, c.log)
  }

  lemma Grants(c: Core, env: Envelope)
    requires WillGrant(c, env.rpc)
    ensures Receive(c, env)
            == Done(Granted(c, env.rpc.term, env.rpc.candidate), [Envelope(c.id, env.from, VoteReply(env.rpc.term, true, c.id))])
  {
  }

  lemma {:induction false} AllGrant(r: Run, ask: Rpc, voters: set<NodeId>) returns (r': Run)
    requires Up(r, r.members) && voters <= r.members && ask.RequestVote?
    requires forall v :: v in voters ==> Envelope(ask.candidate, v, ask) in Last(r).network && WillGrant(CoreOf(r, v), ask)
    ensures Moves(r, r', voters)
    ensures forall v :: v in voters ==> CoreOf(r', v) == Granted(CoreOf(r, v), ask.term, ask.candidate)
    ensures forall v :: v in voters ==> Envelope(v, ask.candidate, VoteReply(ask.term, true, v)) in Last(r').network
    decreases |voters|
  {
    hide HostUp, WillGrant, IsRun;
    if voters == {} {
      r' := r;
    } else {
      var v :| v in voters;
      var r1 := OneGrants(r, v, Envelope(ask.candidate, v, ask));
      r' := AllGrant(r1, ask, voters - {v});
      MovesOn(r, r1, r', {v}, voters - {v});
    }
  }

  lemma OneGrants(r: Run, v: NodeId, env: Envelope) returns (r': Run)
    requires Up(r, r.members) && v in r.members && env in Last(r).network && env.to == v
    requires env.rpc.RequestVote? && WillGrant(CoreOf(r, v), env.rpc)
    ensures Moves(r, r', {v}) && CoreOf(r', v) == Granted(CoreOf(r, v), env.rpc.term, env.rpc.candidate)
    ensures Envelope(v, env.from, VoteReply(env.rpc.term, true, v)) in Last(r').network
  {
    hide HostUp, CoreCall, WillGrant, IsRun;
    var c' := Granted(CoreOf(r, v), env.rpc.term, env.rpc.candidate);
    var reply := Envelope(v, env.from, VoteReply(env.rpc.term, true, v));
    GrantCalls(r, v, env);
    r' := Go(r, v, Inbound(env), c', [reply]);
    assert reply in [reply];
    NothingReleased(c');
  }

  lemma IdOf(r: Run, n: NodeId)
    requires Up(r, r.members) && n in r.members
    ensures CoreOf(r, n).id == n && PeersOk(n, CoreOf(r, n).peers, r.members)
    ensures CoreOf(r, n).electionTimeout == 1 && CoreOf(r, n).heartbeatInterval == 1
  {
    assert HostUp(n, Last(r).hosts[n], r.members);
  }

  lemma GrantCalls(r: Run, v: NodeId, env: Envelope)
    requires Up(r, r.members) && v in r.members && env in Last(r).network && env.to == v && WillGrant(CoreOf(r, v), env.rpc)
    ensures Settled(Granted(CoreOf(r, v), env.rpc.term, env.rpc.candidate))
    ensures Calls(r, v, Inbound(env), Granted(CoreOf(r, v), env.rpc.term, env.rpc.candidate),
                  [Envelope(v, env.from, VoteReply(env.rpc.term, true, v))])
  {
    IdOf(r, v);
    Grants(CoreOf(r, v), env);
    hide Up, HostUp, Receive;
  }

  /** What a leader that has just been elected tells each peer. */
  function Hello(c: Core): Rpc {
    AppendEntries(c.currentTerm, c.id, |c.log|, TermAt(c.log, |c.log|), [], c.commitIndex)
  }

  lemma NewLeaderSends(c: Core)
    ensures var l := BecomeLeader(c);
            CanReplicate(l) && forall p :: p in c.peers ==> Envelope(c.id, p, Hello(c)) in Replicate(l)
  {
    var l := BecomeLeader(c);
    assert CanReplicate(l);
    forall p | p in c.peers ensures Envelope(c.id, p, Hello(c)) in Replicate(l) {
      var i :| 0 <= i < |c.peers| && c.peers[i] == p;
      assert l.log[|l.log|..] == [];
      assert Replicate(l)[i] == Envelope(c.id, p, Hello(c));
    }
  }

  function Voted(c: Core, v: NodeId): Core { c.(votesReceived := c.votesReceived + {v}) }

  lemma CountsOne(c: Core, v: NodeId)
    requires c.role == Candidate
    ensures var env := Envelope(v, c.id, VoteReply(c.currentTerm, true, v));
            Receive(c, env) ==
            if |Voted(c, v).votesReceived| >= MajorityOf(|c.peers| + 1)
            then Done(BecomeLeader(Voted(c, v)), Replicate(BecomeLeader(Voted(c, v)))) else Done(Voted(c, v), [])
  {
    NewLeaderSends(Voted(c, v));
  }

  /** The votes that are still missing come in one by one, and the last of them wins. */
  lemma {:induction false} AllCounted(r: Run, n: NodeId, voters: set<NodeId>) returns (r': Run)
    requires Up(r, r.members) && n in r.members && voters <= r.members && voters != {}
    requires var c := CoreOf(r, n);
             && c.role == Candidate && Settled(c) && c.votesReceived !! voters
             && |c.votesReceived| + |voters| == MajorityOf(|r.members|)
             && forall v :: v in voters ==> Envelope(v, n, VoteReply(c.currentTerm, true, v)) in Last(r).network
    ensures Moves(r, r', {n})
    ensures var c := CoreOf(r, n);
            var l := c.(votesReceived := c.votesReceived + voters);
            && CoreOf(r', n) == BecomeLeader(l)
            && forall p :: p in c.peers ==> Envelope(n, p, Hello(c)) in Last(r').network
    decreases |voters|
  {
    hide HostUp, CoreCall, IsRun, Hello;
    var v :| v in voters;
    var c := CoreOf(r, n);
    IdOf(r, n);
    CountsOne(c, v);
    var env := Envelope(v, n, VoteReply(c.currentTerm, true, v));
    assert |c.votesReceived + {v}| == |c.votesReceived| + 1;
    assert c.votesReceived + voters == c.votesReceived + {v} + (voters - {v});
    if |voters| == 1 {
      assert voters == {v} by { OnlyOne(voters, v); }
      var l := BecomeLeader(Voted(c, v));
      NewLeaderSends(Voted(c, v));
      VoteCalls(r, n, env, l, Replicate(l));
      r' := Go(r, n, Inbound(env), l, Replicate(l));
      NothingReleased(l);
      assert Hello(Voted(c, v)) == Hello(c) by { SameHello(c, v); }
    } else {
      assert |voters - {v}| == |voters| - 1;
      VoteCalls(r, n, env, Voted(c, v), []);
      var r1 := Go(r, n, Inbound(env), Voted(c, v), []);
      NothingReleased(Voted(c, v));
      r' := AllCounted(r1, n, voters - {v});
      MovesOn(r, r1, r', {n}, {n});
      assert Hello(Voted(c, v)) == Hello(c) by { SameHello(c, v); }
    }
  }

  lemma SameHello(c: Core, v: NodeId)
    ensures Hello(Voted(c, v)) == Hello(c)
  {
  }

  lemma OnlyOne(s: set<NodeId>, v: NodeId)
    requires v in s && |s| == 1
    ensures s == {v}
  {
    assert |s - {v}| == 0;
    assert s == {v} + (s - {v});
  }

  lemma VoteCalls(r: Run, n: NodeId, env: Envelope, c': Core, out: seq<Envelope>)
    requires Up(r, r.members) && n in r.members && env in Last(r).network && env.to == n
    requires Receive(CoreOf(r, n), env) == Done(c', out) && Settled(c')
    requires var c := CoreOf(r, n);
             && c'.id == c.id && c'.peers == c.peers
             && c'.electionTimeout == c.electionTimeout && c'.heartbeatInterval == c.heartbeatInterval
    ensures Calls(r, n, Inbound(env), c', out)
  {
    hide Up, Receive;
  }

  /** The leader that `c` becomes when it stands next and `voters` vote for it. */
  function Winner(c: Core, voters: set<NodeId>): Core {
    BecomeLeader(Campaigner(c).(votesReceived := {c.id} + voters))
  }

  ghost predicate Electable(r: Run, n: NodeId, voters: set<NodeId>)
    requires Up(r, r.members)
  {
    && n in r.members && voters <= r.members && n !in voters && voters != {}
    && |voters| + 1 == MajorityOf(|r.members|)
    && CoreOf(r, n).role != Leader && Settled(CoreOf(r, n))
    && forall v :: v in voters ==> WillGrant(CoreOf(r, v), AskFor(Campaigner(CoreOf(r, n))))
  }

  /** Member `n` stands, `voters` vote for it, it wins and greets its peers. */
  lemma Elects(r: Run, n: NodeId, voters: set<NodeId>) returns (r': Run)
    requires Up(r, r.members) && Electable(r, n, voters)
    ensures Moves(r, r', {n} + voters)
    ensures var c := CoreOf(r, n);
            && CoreOf(r', n) == Winner(c, voters)
            && (forall v :: v in voters ==> CoreOf(r', v) == Granted(CoreOf(r, v), c.currentTerm + 1, n))
            && (forall p :: p in r.members && p != n ==> Envelope(n, p, Hello(Campaigner(c))) in Last(r').network)
  {
    hide HostUp, CoreCall, IsRun, Hello, WillGrant;
    var c := CoreOf(r, n);
    var d, ask := Campaigner(c), AskFor(Campaigner(c));
    IdOf(r, n);
    assert |c.peers| >= 1;
    StandsFor(c);
    StandCalls(r, n);
    var r1 := Go(r, n, Timeout, d, VoteRequests(d));
    NothingReleased(d);
    var r2 := AllGrant(r1, ask, voters);
    MovesOn(r, r1, r2, {n}, voters);
    assert CoreOf(r2, n) == d;
    r' := AllCounted(r2, n, voters);
    MovesOn(r, r2, r', {n} + voters, {n});
    assert {n} + voters + {n} == {n} + voters;
  }

  lemma StandCalls(r: Run, n: NodeId)
    requires Up(r, r.members) && n in r.members && Settled(CoreOf(r, n)) && CoreOf(r, n).role != Leader
    requires |CoreOf(r, n).peers| >= 1
    ensures Calls(r, n, Timeout, Campaigner(CoreOf(r, n)), VoteRequests(Campaigner(CoreOf(r, n))))
  {
    IdOf(r, n);
    StandsFor(CoreOf(r, n));
    hide Up, CoreCall;
  }

  // ---------- proposals and appends ----------

  /** A leader that has heard nothing yet: every peer is to be sent what comes after the log. */
  ghost predicate Fresh(c: Core) {
    && c.role == Leader && c.commitIndex == 0 && c.lastApplied == 0
    && c.nextIndex == (map p | p in c.peers :: |c.log| + 1)
    && c.matchIndex == (map p | p in c.peers :: 0)
  }

  function WithEntry(c: Core, command: Command): Core {
    c.(log := c.log + [Entry(c.currentTerm, command)])
  }

  /** What the new entry is sent in. */
  function News(c: Core, command: Command): Rpc {
    AppendEntries(c.currentTerm, c.id, |c.log|, TermAt(c.log, |c.log|), [Entry(c.currentTerm, command)], 0)
  }

  lemma ProposalSends(c: Core, command: Command)
    requires Fresh(c) && c.peers != []
    ensures var l := WithEntry(c, command);
            && CanReplicate(l) && CoreCall(c, Client(command)) == Done(l, Replicate(l))
            && forall p :: p in c.peers ==> Envelope(c.id, p, News(c, command)) in Replicate(l)
  {
    var l := WithEntry(c, command);
    assert CanReplicate(l);
    forall p | p in c.peers ensures Envelope(c.id, p, News(c, command)) in Replicate(l) {
      var i :| 0 <= i < |c.peers| && c.peers[i] == p;
      assert l.log[|c.log|..] == [Entry(c.currentTerm, command)];
      assert Replicate(l)[i] == Envelope(c.id, p, News(c, command));
    }
  }

  lemma OneProposes(r: Run, n: NodeId, command: Command) returns (r': Run)
    requires Up(r, r.members) && n in r.members && |r.members| >= 2 && Fresh(CoreOf(r, n))
    ensures Moves(r, r', {n}) && CoreOf(r', n) == WithEntry(CoreOf(r, n), command)
    ensures forall p :: p in r.members && p != n ==> Envelope(n, p, News(CoreOf(r, n), command)) in Last(r').network
  {
    hide HostUp, CoreCall, IsRun, News;
    var c := CoreOf(r, n);
    IdOf(r, n);
    ProposalSends(c, command);
    var l := WithEntry(c, command);
    r' := Go(r, n, Client(command), l, Replicate(l));
    NothingReleased(l);
  }

  /** The append will be accepted, and commits nothing. */
  ghost predicate WillTake(c: Core, rpc: Rpc) {
    && rpc.AppendEntries? && c.currentTerm <= rpc.term && PrevMatches(c.log, rpc.prevLogIndex, rpc.prevLogTerm)
    && rpc.leaderCommit <= c.commitIndex && Settled(c)
  }

  function Taken(c: Core, rpc: Rpc): Core
    requires rpc.AppendEntries? && rpc.prevLogIndex <= |c.log|
  {
    BecomeFollower(c, rpc.term).(log := Reconcile(c.log, rpc.prevLogIndex, rpc.entries))
  }

  ghost predicate Took(c: Core, c': Core, rpc: Rpc) {
    rpc.AppendEntries? && rpc.prevLogIndex <= |c.log| && c' == Taken(c, rpc)
  }

  lemma Takes(c: Core, env: Envelope)
    requires WillTake(c, env.rpc)
    ensures env.rpc.prevLogIndex <= |c.log| && Settled(Taken(c, env.rpc))
    ensures var c' := Taken(c, env.rpc);
            Receive(c, env) == Done(c', [Envelope(c.id, env.from, AppendReply(env.rpc.term, true, |c'.log|, c.id))])
  {
    hide Reconcile;
  }

  lemma OneTakes(r: Run, v: NodeId, env: Envelope) returns (r': Run)
    requires Up(r, r.members) && v in r.members && env in Last(r).network && env.to == v && WillTake(CoreOf(r, v), env.rpc)
    ensures Moves(r, r', {v}) && Took(CoreOf(r, v), CoreOf(r', v), env.rpc)
    ensures Envelope(v, env.from, AppendReply(env.rpc.term, true, |CoreOf(r', v).log|, v)) in Last(r').network
  {
    hide HostUp, CoreCall, WillTake, IsRun, Reconcile;
    var c := CoreOf(r, v);
    IdOf(r, v);
    Takes(c, env);
    var c' := Taken(c, env.rpc);
    var reply := Envelope(v, env.from, AppendReply(env.rpc.term, true, |c'.log|, v));
    VoteCalls(r, v, env, c', [reply]);
    r' := Go(r, v, Inbound(env), c', [reply]);
    assert reply in [reply];
    NothingReleased(c');
  }

  lemma {:induction false} AllTake(r: Run, rpc: Rpc, followers: set<NodeId>) returns (r': Run)
    requires Up(r, r.members) && followers <= r.members && rpc.AppendEntries?
    requires forall v :: v in followers ==> Envelope(rpc.leader, v, rpc) in Last(r).network && WillTake(CoreOf(r, v), rpc)
    ensures Moves(r, r', followers)
    ensures forall v :: v in followers ==> Took(CoreOf(r, v), CoreOf(r', v), rpc)
    ensures forall v :: v in followers ==>
              Envelope(v, rpc.leader, AppendReply(rpc.term, true, |CoreOf(r', v).log|, v)) in Last(r').network
    decreases |followers|
  {
    hide HostUp, WillTake, IsRun, Took;
    if followers == {} {
      r' := r;
    } else {
      var v :| v in followers;
      var r1 := OneTakes(r, v, Envelope(rpc.leader, v, rpc));
      r' := AllTake(r1, rpc, followers - {v});
      MovesOn(r, r1, r', {v}, followers - {v});
    }
  }

  // ---------- reports ----------

  /** A leader with nothing committed that believes exactly `who` of its peers to hold `k` entries. */
  ghost predicate Believing(c: Core, who: set<NodeId>, k: nat) {
    && c.role == Leader && c.commitIndex == 0 && c.lastApplied == 0
    && k == |c.log| >= 1 && Ordered(c.log, c.currentTerm) && c.log[k - 1].term == c.currentTerm
    && (forall p :: p in c.peers ==> MatchOf(c, p) == if p in who then k else 0)
    && (forall p :: p in c.peers ==> NextIndexFor(c, p) <= k + 1)
    && forall p :: p in who ==> p in c.peers
  }

  lemma BelievedNow(c: Core, who: set<NodeId>, k: nat, j: nat)
    requires Believing(c, who, k)
    ensures 1 <= j <= k ==> Believed(c, j) == who + {c.id}
    ensures Believed(c, k + 1) == {}
  {
  }

  lemma CommitsAt(c: Core, who: set<NodeId>, k: nat)
    requires Believing(c, who, k) && DistinctPeers(c) && c.currentTerm >= 1
    ensures AdvanceCommit(c) == if |who| + 1 >= MajorityOf(|c.peers| + 1) then c.(commitIndex := k) else c
  {
    hide AdvanceCommit, Believed;
    CommitIndexExact(c);
    BelievedNow(c, who, k, k);
    assert c.id !in who;
    assert |who + {c.id}| == |who| + 1;
    if |who| + 1 >= MajorityOf(|c.peers| + 1) {
      assert Committable(c, k);
    } else {
      forall j: nat | 1 <= j <= k ensures !Committable(c, j) {
        BelievedNow(c, who, k, j);
      }
    }
  }

  lemma ReportBelieved(c: Core, who: set<NodeId>, k: nat, f: NodeId)
    requires Believing(c, who, k) && f in c.peers
    ensures Believing(WithReport(c, f, k), who + {f}, k)
  {
  }

  lemma Reported(c: Core, who: set<NodeId>, k: nat, env: Envelope)
    requires Believing(c, who, k) && DistinctPeers(c) && c.currentTerm >= 1
    requires env.from in c.peers && env.from !in who && env.rpc == AppendReply(c.currentTerm, true, k, env.from)
    ensures var c1 := WithReport(c, env.from, k);
            var c2 := c1.(commitIndex := k);
            && (|who| + 2 < MajorityOf(|c.peers| + 1) ==> Receive(c, env) == Done(c1, []))
            && (|who| + 2 >= MajorityOf(|c.peers| + 1) ==> CanReplicate(c2) && Receive(c, env) == Done(c2, Replicate(c2)))
  {
    hide AdvanceCommit;
    var c1 := WithReport(c, env.from, k);
    ReportBelieved(c, who, k, env.from);
    CommitsAt(c1, who + {env.from}, k);
    assert |who + {env.from}| == |who| + 1;
    Sendable(c1, who + {env.from}, k);
  }

  lemma Sendable(c: Core, who: set<NodeId>, k: nat)
    requires Believing(c, who, k)
    ensures CanReplicate(c.(commitIndex := k))
  {
    var c2 := c.(commitIndex := k);
    forall i | 0 <= i < |c2.peers| ensures CanAppendFor(c2, c2.peers[i]) {
      assert c2.peers[i] in c.peers && NextIndexFor(c, c2.peers[i]) <= k + 1;
    }
  }

  /** The reports that are still missing come in one by one, and with the last the whole log is committed. */
  lemma {:induction false} AllReport(r: Run, n: NodeId, who: set<NodeId>, missing: set<NodeId>, k: nat) returns (r': Run)
    requires Up(r, r.members) && n in r.members && missing <= r.members - {n} && missing != {} && missing !! who
    requires var c := CoreOf(r, n);
             && Believing(c, who, k) && c.currentTerm >= 1
             && |who| + |missing| + 1 == MajorityOf(|r.members|)
             && forall f :: f in missing ==> Envelope(f, n, AppendReply(c.currentTerm, true, k, f)) in Last(r).network
    ensures Moves(r, r', {n})
    ensures var c := CoreOf(r, n);
            k == |c.log| && forall i :: 0 <= i < k ==> Release(n, i + 1, c.log[i].command) in Last(r').released
    decreases |missing|
  {
    hide HostUp, CoreCall, IsRun, Believing;
    var f :| f in missing;
    var c := CoreOf(r, n);
    IdOf(r, n);
    DistinctOf(c, r.members);
    var env := Envelope(f, n, AppendReply(c.currentTerm, true, k, f));
    Reported(c, who, k, env);
    ReportBelieved(c, who, k, f);
    Unapplied(c, who, k);
    var c1 := WithReport(c, f, k);
    if |missing| == 1 {
      r' := CommitsNow(r, n, env, c1.(commitIndex := k));
    } else {
      assert |missing - {f}| == |missing| - 1 && |who + {f}| == |who| + 1;
      VoteCalls(r, n, env, c1, []);
      var r1 := Go(r, n, Inbound(env), c1, []);
      NothingReleased(c1);
      r' := AllReport(r1, n, who + {f}, missing - {f}, k);
      MovesOn(r, r1, r', {n}, {n});
    }
  }

  lemma DistinctOf(c: Core, members: set<NodeId>)
    requires PeersOk(c.id, c.peers, members)
    ensures DistinctPeers(c) && |c.peers| + 1 == |members| && forall p :: p in members && p != c.id ==> p in c.peers
  {
  }

  lemma Unapplied(c: Core, who: set<NodeId>, k: nat)
    requires Believing(c, who, k)
    ensures c.commitIndex == 0 == c.lastApplied && k == |c.log| && k >= 1
  {
  }

  /** A call that commits the whole of a log of which nothing was applied releases all of it. */
  lemma CommitsNow(r: Run, n: NodeId, env: Envelope, c': Core) returns (r': Run)
    requires Up(r, r.members) && n in r.members && env in Last(r).network && env.to == n
    requires CanReplicate(c') && Receive(CoreOf(r, n), env) == Done(c', Replicate(c'))
    requires var c := CoreOf(r, n);
             && c'.id == c.id && c'.peers == c.peers && c'.log == c.log
             && c'.electionTimeout == c.electionTimeout && c'.heartbeatInterval == c.heartbeatInterval
             && c'.lastApplied == 0 && c'.commitIndex == |c.log|
    ensures Moves(r, r', {n})
    ensures var log := CoreOf(r, n).log;
            forall i :: 0 <= i < |log| ==> Release(n, i + 1, log[i].command) in Last(r').released
  {
    hide HostUp, IsRun, Receive, CanReplicate, Replicate;
    IdOf(r, n);
    r' := Go(r, n, Inbound(env), c', Replicate(c'));
    forall i | 0 <= i < |c'.log| ensures Release(n, i + 1, c'.log[i].command) in Last(r').released {
      assert Release(n, i + 1, c'.log[i].command) in Releases(c');
    }
  }

  // ---------- catching up ----------

  lemma Refuses(c: Core, env: Envelope)
    requires env.rpc.AppendEntries? && c.currentTerm <= env.rpc.term
    requires !PrevMatches(c.log, env.rpc.prevLogIndex, env.rpc.prevLogTerm)
    ensures Receive(c, env) == Done(BecomeFollower(c, env.rpc.term), [Envelope(c.id, env.from, AppendReply(env.rpc.term, false, 0, c.id))])
  {
  }

  lemma OneRefuses(r: Run, v: NodeId, env: Envelope) returns (r': Run)
    requires Up(r, r.members) && v in r.members && env in Last(r).network && env.to == v && Settled(CoreOf(r, v))
    requires env.rpc.AppendEntries? && CoreOf(r, v).currentTerm <= env.rpc.term
    requires !PrevMatches(CoreOf(r, v).log, env.rpc.prevLogIndex, env.rpc.prevLogTerm)
    ensures Moves(r, r', {v}) && CoreOf(r', v) == BecomeFollower(CoreOf(r, v), env.rpc.term)
    ensures Envelope(v, env.from, AppendReply(env.rpc.term, false, 0, v)) in Last(r').network
  {
    hide HostUp, CoreCall, IsRun;
    var c := CoreOf(r, v);
    IdOf(r, v);
    Refuses(c, env);
    var c' := BecomeFollower(c, env.rpc.term);
    var reply := Envelope(v, env.from, AppendReply(env.rpc.term, false, 0, v));
    VoteCalls(r, v, env, c', [reply]);
    r' := Go(r, v, Inbound(env), c', [reply]);
    assert reply in [reply];
    NothingReleased(c');
  }

  /** A leader told of a refusal steps back by one and sends again. */
  lemma StepsBack(r: Run, n: NodeId, v: NodeId) returns (r': Run)
    requires Up(r, r.members) && n in r.members
    requires var c := CoreOf(r, n);
             && c.role == Leader && Settled(c) && v in c.nextIndex && c.nextIndex[v] == 2
             && Envelope(v, n, AppendReply(c.currentTerm, false, 0, v)) in Last(r).network
    ensures var c := CoreOf(r, n);
            && Moves(r, r', {n}) && CoreOf(r', n) == c.(nextIndex := c.nextIndex[v := 1])
            && Envelope(n, v, AppendEntries(c.currentTerm, n, 0, 0, c.log, c.commitIndex)) in Last(r').network
  {
    hide HostUp, IsRun;
    var c := CoreOf(r, n);
    IdOf(r, n);
    var c' := c.(nextIndex := c.nextIndex[v := 1]);
    var env := Envelope(v, n, AppendReply(c.currentTerm, false, 0, v));
    var again := Envelope(n, v, AppendEntries(c.currentTerm, n, 0, 0, c.log, c.commitIndex));
    assert c.log[0..] == c.log;
    assert Receive(c, env) == Done(c', [again]);
    hide Receive, CoreCall;
    VoteCalls(r, n, env, c', [again]);
    r' := Go(r, n, Inbound(env), c', [again]);
    assert again in [again];
    NothingReleased(c');
  }
}
