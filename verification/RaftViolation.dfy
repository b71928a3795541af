/**
  What over-reporting leads to. A follower reports its whole log length, so one that
  still holds an entry of a dead term answers an empty heartbeat with a length its
  leader never sent. In any cluster of three members or more a leader can be led past
  the end of its log; in one of three, or of five or more, it can be led to commit what
  too few hold, and another member later commits something else.
*/
module RaftViolation {
  import opened Raft
  import opened Options
  import opened RaftCluster
  import opened RaftCommit
  import opened RaftSafety
  import opened RaftScript

  const X := Insert(1, [1])
  const Y := Insert(2, [2])
  const Z := Delete(3)

  // ---------- one over-report ----------

  function Stale(): Core {
    New(3, [1, 2], 1, 1).(currentTerm := 1, votedFor := Some(3), role := Leader, votesReceived := {1, 3},
                          nextIndex := map[1 := 1, 2 := 1], matchIndex := map[1 := 0, 2 := 0], log := [Entry(1, X)])
  }

  function SteppedDown(): Core { BecomeFollower(Stale(), 2) }

  function Heartbeat(to: NodeId): Envelope { Envelope(1, to, AppendEntries(2, 1, 0, 0, [], 0)) }

  function Report(from: NodeId, length: nat): Envelope { Envelope(from, 1, AppendReply(2, true, length, from)) }

  /** Member 3 answers an empty heartbeat with length 1: more than the nothing it was sent. */
  lemma OverReport()
    ensures WouldAccept(Stale(), Heartbeat(3))
    ensures Receive(Stale(), Heartbeat(3)) == Done(SteppedDown(), [Report(3, 1)])
    ensures Heartbeat(3).rpc.prevLogIndex + |Heartbeat(3).rpc.entries| == 0
  {
  }

  // ---------- term 1: an entry that only the stale members receive ----------

  /** The parts: `a` leads term 1, `stale` are the members it reaches, `b` will lead term 2. */
  ghost predicate Cast(members: set<NodeId>, a: NodeId, stale: set<NodeId>, b: NodeId) {
    && a in stale && stale <= members && b in members && b !in stale
    && |stale| + MajorityOf(|members|) <= |members| && |members| >= 3
  }

  function News1(a: NodeId): Rpc { AppendEntries(1, a, 0, 0, [Entry(1, X)], 0) }

  /** In term `term` or earlier, a follower that has committed nothing, with this log. */
  ghost predicate Quietly(c: Core, term: Term, log: seq<Entry>) {
    c.role != Leader && c.commitIndex == 0 && c.lastApplied == 0 && c.currentTerm <= term && c.log == log
  }

  /** All of `who` are quiet. */
  ghost predicate AllQuiet(r: Run, who: set<NodeId>, term: Term, log: seq<Entry>)
    requires Up(r, r.members)
  {
    who <= r.members && forall v :: v in who ==> Quietly(CoreOf(r, v), term, log)
  }

  lemma QuietStays(r: Run, r': Run, moved: set<NodeId>, who: set<NodeId>, term: Term, log: seq<Entry>)
    requires Moves(r, r', moved) && AllQuiet(r, who, term, log) && moved !! who
    ensures AllQuiet(r', who, term, log)
  {
    hide Up;
  }

  /** After term 1 the stale members hold X, everybody else holds nothing, and `b` is in term 1 too. */
  ghost predicate AfterFirst(r: Run, a: NodeId, stale: set<NodeId>, b: NodeId)
    requires Up(r, r.members) && Cast(r.members, a, stale, b)
  {
    && CoreOf(r, a).commitIndex == 0 == CoreOf(r, a).lastApplied
    && CoreOf(r, a).currentTerm == 1 && CoreOf(r, a).log == [Entry(1, X)]
    && AllQuiet(r, stale - {a}, 1, [Entry(1, X)])
    && AllQuiet(r, r.members - stale, 1, [])
    && CoreOf(r, b).currentTerm == 1
  }

  /** `a` leads term 1 with nothing in its log, and `b` voted for it. */
  ghost predicate FirstLed(r: Run, a: NodeId, b: NodeId)
    requires Up(r, r.members) && a in r.members && b in r.members
  {
    && Fresh(CoreOf(r, a)) && CoreOf(r, a).currentTerm == 1 && CoreOf(r, a).log == [] && CoreOf(r, a).id == a
    && AllQuiet(r, r.members - {a}, 1, [])
    && CoreOf(r, b).currentTerm == 1
  }

  lemma FirstElection(members: set<NodeId>, a: NodeId, b: NodeId) returns (r: Run)
    requires a in members && b in members && a != b && |members| >= 3
    ensures r.members == members && Up(r, members) && FirstLed(r, a, b)
  {
    hide HostUp, IsRun, PeersOk, SeqOf;
    var r0 := Begin(members);
    assert |members - {a}| == |members| - 1;
    var voters := SomeWith(members - {a}, b, MajorityOf(|members|) - 1);
    assert Electable(r0, a, voters) by { FirstElectable(r0, a, voters); }
    hide Electable;
    r := Elects(r0, a, voters);
    FirstWon(r0, r, a, b, voters);
  }

  lemma FirstElectable(r: Run, a: NodeId, voters: set<NodeId>)
    requires Up(r, r.members) && a in r.members && voters <= r.members - {a} && voters != {}
    requires |voters| + 1 == MajorityOf(|r.members|)
    requires forall n :: n in r.members ==> CoreOf(r, n) == FirstCore(n, r.members)
    ensures Electable(r, a, voters)
  {
    hide Up, SeqOf;
  }

  lemma FirstWon(r: Run, r': Run, a: NodeId, b: NodeId, voters: set<NodeId>)
    requires Up(r, r.members) && a in r.members && b in voters && voters <= r.members - {a}
    requires forall n :: n in r.members ==> CoreOf(r, n) == FirstCore(n, r.members)
    requires Moves(r, r', {a} + voters) && CoreOf(r', a) == Winner(CoreOf(r, a), voters)
    requires forall v :: v in voters ==> CoreOf(r', v) == Granted(CoreOf(r, v), CoreOf(r, a).currentTerm + 1, a)
    ensures FirstLed(r', a, b)
  {
    hide HostUp, IsRun, SeqOf;
  }

  lemma FirstTerm(members: set<NodeId>, a: NodeId, stale: set<NodeId>, b: NodeId) returns (r: Run)
    requires Cast(members, a, stale, b)
    ensures r.members == members && Up(r, members) && AfterFirst(r, a, stale, b)
  {
    hide Up, Quietly, News, Fresh;
    var r1 := FirstElection(members, a, b);
    var r2 := OneProposes(r1, a, X);
    FirstNews(CoreOf(r1, a));
    QuietStays(r1, r2, {a}, members - {a}, 1, []);
    Listening(r2, stale - {a}, a);
    var r3 := AllTake(r2, News1(a), stale - {a});
    QuietStays(r2, r3, stale - {a}, members - stale, 1, []);
    FirstTaken(r2, r3, stale - {a}, a);
    r := r3;
  }

  lemma SomeWith(s: set<NodeId>, x: NodeId, k: nat) returns (t: set<NodeId>)
    requires x in s && 1 <= k <= |s|
    ensures t <= s && |t| == k && x in t
  {
    t := SomeOf(s - {x}, k - 1);
    t := t + {x};
  }

  lemma FirstNews(c: Core)
    requires Fresh(c) && c.currentTerm == 1 && c.log == []
    ensures News(c, X) == News1(c.id)
    ensures var c' := WithEntry(c, X);
            c'.log == [Entry(1, X)] && c'.currentTerm == 1 && c'.commitIndex == 0 == c'.lastApplied
  {
  }

  /** Quiet members take the first entry of term 1. */
  lemma Listening(r: Run, who: set<NodeId>, a: NodeId)
    requires Up(r, r.members) && AllQuiet(r, who, 1, [])
    ensures forall v :: v in who ==> WillTake(CoreOf(r, v), News1(a))
  {
    hide Up;
  }

  lemma FirstTaken(r: Run, r': Run, who: set<NodeId>, a: NodeId)
    requires Moves(r, r', who) && AllQuiet(r, who, 1, [])
    requires forall v :: v in who ==> Took(CoreOf(r, v), CoreOf(r', v), News1(a))
    ensures AllQuiet(r', who, 1, [Entry(1, X)])
  {
    hide Up;
    assert [Entry(1, X)][1..] == [];
    assert Reconcile([], 0, [Entry(1, X)]) == [Entry(1, X)];
  }

  // ---------- term 2: a leader with an empty log, greeting the stale members ----------

  function Hello2(b: NodeId): Rpc { AppendEntries(2, b, 0, 0, [], 0) }

  ghost predicate Told(r: Run, from: NodeId, to: set<NodeId>, rpc: Rpc)
    requires |r.states| > 0
  {
    forall v :: v in to ==> Envelope(from, v, rpc) in Last(r).network
  }

  /** `b` leads term 2 with nothing in its log; the stale members still hold X. */
  ghost predicate SecondLed(r: Run, a: NodeId, stale: set<NodeId>, b: NodeId)
    requires Up(r, r.members) && Cast(r.members, a, stale, b)
  {
    && Fresh(CoreOf(r, b)) && CoreOf(r, b).currentTerm == 2 && CoreOf(r, b).log == [] && CoreOf(r, b).id == b
    && CoreOf(r, a).commitIndex == 0 == CoreOf(r, a).lastApplied
    && CoreOf(r, a).currentTerm == 1 && CoreOf(r, a).log == [Entry(1, X)]
    && AllQuiet(r, stale - {a}, 1, [Entry(1, X)])
    && AllQuiet(r, r.members - stale - {b}, 2, [])
    && Told(r, b, r.members - {b}, Hello2(b))
  }

  lemma SecondTerm(r: Run, a: NodeId, stale: set<NodeId>, b: NodeId) returns (r': Run)
    requires Up(r, r.members) && Cast(r.members, a, stale, b) && AfterFirst(r, a, stale, b)
    ensures r'.members == r.members && Up(r', r.members) && SecondLed(r', a, stale, b)
  {
    hide Up, Quietly, AllQuiet, Electable, Hello;
    var rest := r.members - stale - {b};
    RestSize(r.members, stale, b);
    var voters := SomeOf(rest, MajorityOf(|r.members|) - 1);
    SecondElectable(r, a, stale, b, voters);
    r' := Elects(r, b, voters);
    QuietStays(r, r', {b} + voters, stale - {a}, 1, [Entry(1, X)]);
    OneQuiet(r, r.members - stale, 1, [], b);
    SecondWon(r, r', a, stale, b, voters);
  }

  lemma OneQuiet(r: Run, who: set<NodeId>, term: Term, log: seq<Entry>, v: NodeId)
    requires Up(r, r.members) && AllQuiet(r, who, term, log) && v in who
    ensures Quietly(CoreOf(r, v), term, log)
  {
    hide Up, Quietly;
  }

  lemma RestSize(members: set<NodeId>, stale: set<NodeId>, b: NodeId)
    requires stale <= members && b in members && b !in stale
    ensures |members - stale - {b}| == |members| - |stale| - 1
  {
    assert |members - stale| == |members| - |stale|;
  }

  lemma SecondElectable(r: Run, a: NodeId, stale: set<NodeId>, b: NodeId, voters: set<NodeId>)
    requires Up(r, r.members) && Cast(r.members, a, stale, b) && AfterFirst(r, a, stale, b)
    requires voters <= r.members - stale - {b} && |voters| + 1 == MajorityOf(|r.members|)
    ensures Electable(r, b, voters)
  {
    hide Up;
  }

  lemma SecondWon(r: Run, r': Run, a: NodeId, stale: set<NodeId>, b: NodeId, voters: set<NodeId>)
    requires Up(r, r.members) && Cast(r.members, a, stale, b) && AfterFirst(r, a, stale, b)
    requires voters <= r.members - stale - {b}
    requires Moves(r, r', {b} + voters) && CoreOf(r', b) == Winner(CoreOf(r, b), voters)
    requires forall v :: v in voters ==> CoreOf(r', v) == Granted(CoreOf(r, v), CoreOf(r, b).currentTerm + 1, b)
    requires forall p :: p in r.members && p != b ==> Envelope(b, p, Hello(Campaigner(CoreOf(r, b)))) in Last(r').network
    requires AllQuiet(r', stale - {a}, 1, [Entry(1, X)]) && Quietly(CoreOf(r, b), 1, [])
    ensures SecondLed(r', a, stale, b)
  {
    hide Up, Quietly, Hello, AllQuiet;
    IdOf(r, b);
    SecondCore(CoreOf(r, b), voters);
    SecondVoters(r, r', stale, b, voters);
  }

  lemma SecondCore(c: Core, voters: set<NodeId>)
    requires Quietly(c, 1, []) && c.currentTerm == 1
    ensures var l := Winner(c, voters);
            Fresh(l) && l.currentTerm == 2 && l.log == [] && l.id == c.id
    ensures Hello(Campaigner(c)) == Hello2(c.id)
  {
  }

  lemma SecondVoters(r: Run, r': Run, stale: set<NodeId>, b: NodeId, voters: set<NodeId>)
    requires Up(r, r.members) && AllQuiet(r, r.members - stale, 1, []) && voters <= r.members - stale - {b}
    requires Moves(r, r', {b} + voters)
    requires forall v :: v in voters ==> CoreOf(r', v) == Granted(CoreOf(r, v), 2, b)
    ensures AllQuiet(r', r.members - stale - {b}, 2, [])
  {
    hide Up;
  }

  // ---------- a leader led past the end of its log ----------

  lemma HearsHello(c: Core, b: NodeId)
    requires c.commitIndex == 0 == c.lastApplied && c.currentTerm <= 2
    ensures WillTake(c, Hello2(b)) && Taken(c, Hello2(b)) == BecomeFollower(c, 2)
  {
  }

  /** One report of an entry it does not have, and the leader's next heartbeat slices past its log. */
  lemma StopsNext(c: Core, f: NodeId)
    requires Fresh(c) && c.log == [] && f in c.peers && c.heartbeatInterval == 1 && c.currentTerm == 2
    ensures var c' := WithReport(c, f, 1);
            && Receive(c, Envelope(f, c.id, AppendReply(2, true, 1, f))) == Done(c', [])
            && CoreCall(c', Timeout) == Stopped
  {
    var c' := WithReport(c, f, 1);
    assert !CanAppendFor(c', f);
    var i :| 0 <= i < |c.peers| && c.peers[i] == f;
    assert !CanReplicate(c');
    NoCommitOnEmpty(c');
    var d := c'.(heartbeatElapsed := 0);
    assert CanAppendFor(d, c.peers[i]) == CanAppendFor(c', c.peers[i]);
    assert !CanReplicate(d);
    hide AdvanceCommit, CanReplicate;
  }

  lemma NoCommitOnEmpty(c: Core)
    requires c.log == [] && c.currentTerm > 0
    ensures AdvanceCommit(c) == c
  {
    hide MatchIndices, SortDescending;
  }

  /** In any cluster of three or more some run stops a member in the middle of an engine iteration. */
  lemma StoppingRun(members: set<NodeId>) returns (r: Run)
    requires |members| >= 3
    ensures IsRun(r) && r.members == members && |r.steps| > 0 && !StaysUp(r, |r.steps| - 1)
  {
    hide Up, SecondLed, AfterFirst, CoreCall;
    var a :| a in members;
    assert |members - {a}| == |members| - 1;
    var b :| b in members - {a};
    var r0 := FirstTerm(members, a, {a}, b);
    var r1 := SecondTerm(r0, a, {a}, b);
    var r2 := Misleads(r1, a, b);
    r := StopNow(r2, b);
  }

  /** The stale member reports its entry to the leader with the empty log. */
  lemma Misleads(r: Run, a: NodeId, b: NodeId) returns (r': Run)
    requires Up(r, r.members) && Cast(r.members, a, {a}, b) && SecondLed(r, a, {a}, b)
    ensures r'.members == r.members && Up(r', r.members) && CoreCall(CoreOf(r', b), Timeout) == Stopped
  {
    hide Up, AllQuiet, Fresh, CoreCall, WillTake;
    var env := Envelope(b, a, Hello2(b));
    HearsHello(CoreOf(r, a), b);
    var r1 := OneTakes(r, a, env);
    IdOf(r, b);
    DistinctOf(CoreOf(r, b), r.members);
    StopsNext(CoreOf(r, b), a);
    var report := Envelope(a, b, AppendReply(2, true, 1, a));
    var c' := WithReport(CoreOf(r, b), a, 1);
    SettledReport(CoreOf(r, b), a);
    VoteCalls(r1, b, report, c', []);
    r' := Go(r1, b, Inbound(report), c', []);
    NothingReleased(c');
  }

  lemma SettledReport(c: Core, f: NodeId)
    requires Fresh(c)
    ensures Settled(WithReport(c, f, 1))
  {
  }

  lemma StopNow(r: Run, n: NodeId) returns (r': Run)
    requires Up(r, r.members) && n in r.members && CoreCall(CoreOf(r, n), Timeout) == Stopped
    ensures IsRun(r') && r'.members == r.members && |r'.steps| > 0 && !StaysUp(r', |r'.steps| - 1)
  {
    hide CoreCall, Init, PeersOk, IsRun;
    assert HostUp(n, Last(r).hosts[n], r.members);
    Lengthens(r);
    LongerIsRun(r, Engine(n, Timeout));
    r' := Longer(r, Engine(n, Timeout));
  }

  lemma Lengthens(r: Run)
    requires IsRun(r)
    ensures |r.states| == |r.steps| + 1
  {
  }

  // ---------- a leader led to commit what too few hold ----------

  function News2(b: NodeId): Rpc { AppendEntries(2, b, 0, 0, [Entry(2, Y)], 0) }

  /** Each of `who` has reported `k` entries to `to` in term `term`. */
  ghost predicate Reports(r: Run, who: set<NodeId>, to: NodeId, term: Term, k: nat)
    requires |r.states| > 0
  {
    forall v :: v in who ==> Envelope(v, to, AppendReply(term, true, k, v)) in Last(r).network
  }

  lemma ReportsStay(r: Run, r': Run, moved: set<NodeId>, who: set<NodeId>, to: NodeId, term: Term, k: nat)
    requires Moves(r, r', moved) && Reports(r, who, to, term, k)
    ensures Reports(r', who, to, term, k)
  {
    hide Up;
  }

  /** The stale members have heard the leader of term 2, and told it that they hold one entry. */
  lemma StaleReport(r: Run, a: NodeId, stale: set<NodeId>, b: NodeId) returns (r': Run)
    requires Up(r, r.members) && Cast(r.members, a, stale, b) && SecondLed(r, a, stale, b)
    ensures Moves(r, r', stale) && AllQuiet(r', stale, 2, [Entry(1, X)]) && CoreOf(r', a).currentTerm == 2
    ensures Reports(r', stale, b, 2, 1)
  {
    hide Up, Fresh, Took;
    StaleListens(r, a, stale, b);
    r' := AllTake(r, Hello2(b), stale);
    StaleHeard(r, r', a, stale, b);
  }

  lemma StaleListens(r: Run, a: NodeId, stale: set<NodeId>, b: NodeId)
    requires Up(r, r.members) && Cast(r.members, a, stale, b) && SecondLed(r, a, stale, b)
    ensures forall v :: v in stale ==> WillTake(CoreOf(r, v), Hello2(b)) && CoreOf(r, v).log == [Entry(1, X)]
  {
    hide Up, Fresh;
    forall v | v in stale ensures WillTake(CoreOf(r, v), Hello2(b)) && CoreOf(r, v).log == [Entry(1, X)] {
      HearsHello(CoreOf(r, v), b);
    }
  }

  lemma StaleHeard(r: Run, r': Run, a: NodeId, stale: set<NodeId>, b: NodeId)
    requires Up(r, r.members) && Cast(r.members, a, stale, b) && SecondLed(r, a, stale, b) && Moves(r, r', stale)
    requires forall v :: v in stale ==> Took(CoreOf(r, v), CoreOf(r', v), Hello2(b))
    ensures AllQuiet(r', stale, 2, [Entry(1, X)]) && CoreOf(r', a).currentTerm == 2
  {
    hide Up, Fresh;
    forall v | v in stale ensures CoreOf(r', v) == BecomeFollower(CoreOf(r, v), 2) {
      HearsHello(CoreOf(r, v), b);
    }
  }

  lemma SecondNews(c: Core)
    requires Fresh(c) && c.currentTerm == 2 && c.log == []
    ensures News(c, Y) == News2(c.id)
    ensures Believing(WithEntry(c, Y), {}, 1) && WithEntry(c, Y).log == [Entry(2, Y)]
  {
  }

  /** Members with empty logs take the first entry of term 2. */
  lemma HoldersTake(r: Run, who: set<NodeId>, b: NodeId) returns (r': Run)
    requires Up(r, r.members) && AllQuiet(r, who, 2, []) && Told(r, b, who, News2(b))
    ensures Moves(r, r', who) && Reports(r', who, b, 2, 1)
  {
    hide Up;
    r' := AllTake(r, News2(b), who);
    assert [Entry(2, Y)][1..] == [];
    assert Reconcile([], 0, [Entry(2, Y)]) == [Entry(2, Y)];
  }

  /** `b` has released Y at index 1, though a majority without it can still elect `a`. */
  ghost predicate Betrayed(r: Run, a: NodeId, stale: set<NodeId>, rest: set<NodeId>, b: NodeId)
    requires Up(r, r.members) && Cast(r.members, a, stale, b)
  {
    && Release(b, 1, Y) in Last(r).released
    && AllQuiet(r, stale, 2, [Entry(1, X)]) && AllQuiet(r, rest, 2, []) && stale !! rest && b !in rest
    && CoreOf(r, a).currentTerm == 2
    && |stale| + |rest| == MajorityOf(|r.members|)
  }

  lemma FalseCommit(r: Run, a: NodeId, stale: set<NodeId>, b: NodeId) returns (r': Run, rest: set<NodeId>)
    requires Up(r, r.members) && Cast(r.members, a, stale, b) && SecondLed(r, a, stale, b)
    requires |stale| + |r.members| == 2 * MajorityOf(|r.members|)
    ensures r'.members == r.members && Up(r', r.members) && Betrayed(r', a, stale, rest, b)
  {
    hide Up, AllQuiet, Fresh, News, Believing;
    var others := r.members - stale - {b};
    RestSize(r.members, stale, b);
    var holders := SomeOf(others, MajorityOf(|r.members|) - 1 - |stale|);
    rest := others - holders;
    assert |rest| == |others| - |holders|;
    var r1 := StaleReport(r, a, stale, b);
    QuietStays(r, r1, stale, others, 2, []);
    SecondNews(CoreOf(r1, b));
    var r2 := OneProposes(r1, b, Y);
    QuietFew(r1, others, holders, 2, []);
    QuietFew(r1, others, rest, 2, []);
    var r3 := CommitsFalsely(r2, stale, holders, b, r1);
    QuietStays(r1, r3, {b} + holders, stale, 2, [Entry(1, X)]);
    QuietStays(r1, r3, {b} + holders, rest, 2, []);
    r' := r3;
  }

  lemma QuietFew(r: Run, who: set<NodeId>, few: set<NodeId>, term: Term, log: seq<Entry>)
    requires Up(r, r.members) && AllQuiet(r, who, term, log) && few <= who
    ensures AllQuiet(r, few, term, log)
  {
    hide Up;
  }

  /** From just before `b` proposed, to after it has counted the stale members with the holders. */
  lemma CommitsFalsely(r: Run, stale: set<NodeId>, holders: set<NodeId>, b: NodeId, before: Run) returns (r': Run)
    requires Moves(before, r, {b}) && b in r.members && stale !! holders && stale != {}
    requires stale <= r.members - {b} && holders <= r.members - {b}
    requires |stale| + |holders| + 1 == MajorityOf(|r.members|)
    requires Believing(CoreOf(r, b), {}, 1) && CoreOf(r, b).currentTerm == 2 && CoreOf(r, b).log == [Entry(2, Y)]
    requires AllQuiet(before, holders, 2, []) && Told(r, b, r.members - {b}, News2(b)) && Reports(before, stale, b, 2, 1)
    ensures Moves(before, r', {b} + holders) && Release(b, 1, Y) in Last(r').released
  {
    hide Up, Believing, AllQuiet;
    QuietStays(before, r, {b}, holders, 2, []);
    ReportsStay(before, r, {b}, stale, b, 2, 1);
    var r1 := HoldersTake(r, holders, b);
    MovesOn(before, r, r1, {b}, holders);
    ReportsStay(r, r1, holders, stale, b, 2, 1);
    assert |stale + holders| == |stale| + |holders|;
    r' := AllReport(r1, b, {}, stale + holders, 1);
    MovesOn(before, r1, r', {b} + holders, {b});
    assert {b} + holders + {b} == {b} + holders;
    UpIsRun(r');
    assert Release(b, 0 + 1, [Entry(2, Y)][0].command) in Last(r').released;
  }

  // ---------- term 3: the stale entry is committed after all ----------

  const Rewritten := [Entry(1, X), Entry(3, Z)]

  function News3(a: NodeId): Rpc { AppendEntries(3, a, 1, 1, [Entry(3, Z)], 0) }

  function Whole3(a: NodeId): Rpc { AppendEntries(3, a, 0, 0, Rewritten, 0) }

  /** `a` leads term 3 and has told the others of its second entry. */
  ghost predicate ThirdLed(r: Run, a: NodeId, who: set<NodeId>)
    requires Up(r, r.members) && a in r.members
  {
    && Believing(CoreOf(r, a), {}, 2) && CoreOf(r, a).currentTerm == 3 && CoreOf(r, a).log == Rewritten
    && (forall v :: v in who ==> v in CoreOf(r, a).nextIndex && CoreOf(r, a).nextIndex[v] == 2)
    && Told(r, a, who, News3(a))
  }

  /** `a` has just been elected in term 3. */
  ghost predicate ThirdWon(r: Run, a: NodeId)
    requires Up(r, r.members) && a in r.members
  {
    var l := CoreOf(r, a);
    && Fresh(l) && News(l, Z) == News3(a) && Believing(WithEntry(l, Z), {}, 2)
    && WithEntry(l, Z).currentTerm == 3 && WithEntry(l, Z).log == Rewritten
    && forall p :: p in r.members && p != a ==> p in l.nextIndex && l.nextIndex[p] == 2
  }

  lemma ThirdElection(r: Run, a: NodeId, stale: set<NodeId>, rest: set<NodeId>, b: NodeId) returns (r': Run)
    requires Up(r, r.members) && Cast(r.members, a, stale, b) && Betrayed(r, a, stale, rest, b)
    ensures Moves(r, r', {a} + (stale - {a} + rest)) && ThirdWon(r', a)
    ensures AllQuiet(r', stale - {a}, 3, [Entry(1, X)]) && AllQuiet(r', rest, 3, [])
  {
    hide Up, Quietly, News, Fresh, Believing, AllQuiet;
    var voters := stale - {a} + rest;
    ThirdElectable(r, a, stale, rest, b);
    r' := Elects(r, a, voters);
    QuietFew(r, stale, stale - {a}, 2, [Entry(1, X)]);
    ThirdVoters(r, r', a, stale - {a}, rest);
    OneQuiet(r, stale, 2, [Entry(1, X)], a);
    ThirdCore(CoreOf(r, a), voters);
    IdOf(r, a);
    DistinctOf(CoreOf(r, a), r.members);
  }

  lemma ThirdTerm(r: Run, a: NodeId, stale: set<NodeId>, rest: set<NodeId>, b: NodeId) returns (r': Run)
    requires Up(r, r.members) && Cast(r.members, a, stale, b) && Betrayed(r, a, stale, rest, b)
    ensures r'.members == r.members && Up(r', r.members) && ThirdLed(r', a, r.members - {a})
    ensures AllQuiet(r', stale - {a}, 3, [Entry(1, X)]) && AllQuiet(r', rest, 3, [])
    ensures Last(r).released <= Last(r').released
  {
    hide Up, Quietly, News, Fresh, Believing, AllQuiet, Betrayed;
    NotAmong(r, a, stale, rest, b);
    var r1 := ThirdElection(r, a, stale, rest, b);
    r' := OneProposes(r1, a, Z);
    QuietStays(r1, r', {a}, stale - {a}, 3, [Entry(1, X)]);
    QuietStays(r1, r', {a}, rest, 3, []);
  }

  lemma NotAmong(r: Run, a: NodeId, stale: set<NodeId>, rest: set<NodeId>, b: NodeId)
    requires Up(r, r.members) && Cast(r.members, a, stale, b) && Betrayed(r, a, stale, rest, b)
    ensures a !in rest && stale - {a} !! rest && |stale - {a}| + |rest| + 1 == MajorityOf(|r.members|)
    ensures Release(b, 1, Y) in Last(r).released
  {
    hide Up, AllQuiet;
    assert |stale - {a}| == |stale| - 1;
  }

  lemma ThirdElectable(r: Run, a: NodeId, stale: set<NodeId>, rest: set<NodeId>, b: NodeId)
    requires Up(r, r.members) && Cast(r.members, a, stale, b) && Betrayed(r, a, stale, rest, b)
    ensures Electable(r, a, stale - {a} + rest)
  {
    hide Up;
    assert |stale - {a} + rest| == |stale| - 1 + |rest|;
    assert |stale - {a} + rest| >= 1;
  }

  lemma ThirdVoters(r: Run, r': Run, a: NodeId, some: set<NodeId>, rest: set<NodeId>)
    requires Up(r, r.members) && a in r.members && a !in some && a !in rest && Moves(r, r', {a} + (some + rest))
    requires AllQuiet(r, some, 2, [Entry(1, X)]) && AllQuiet(r, rest, 2, [])
    requires forall v :: v in some + rest ==> CoreOf(r', v) == Granted(CoreOf(r, v), CoreOf(r, a).currentTerm + 1, a)
    requires CoreOf(r, a).currentTerm == 2
    ensures AllQuiet(r', some, 3, [Entry(1, X)]) && AllQuiet(r', rest, 3, [])
  {
    hide Up;
  }

  lemma ThirdCore(c: Core, voters: set<NodeId>)
    requires Quietly(c, 2, [Entry(1, X)]) && c.currentTerm == 2
    ensures var l := Winner(c, voters);
            var l' := WithEntry(l, Z);
            && Fresh(l) && News(l, Z) == News3(c.id)
            && Believing(l', {}, 2) && l'.currentTerm == 3 && l'.log == Rewritten
            && forall p :: p in c.peers ==> p in l'.nextIndex && l'.nextIndex[p] == 2
  {
  }

  /** A member with nothing refuses the second entry, and then takes both. */
  lemma CatchesUp(r: Run, a: NodeId, v: NodeId, who: set<NodeId>) returns (r': Run)
    requires Up(r, r.members) && a in r.members && v in who && ThirdLed(r, a, who) && v in r.members && v != a
    requires Quietly(CoreOf(r, v), 3, [])
    ensures Moves(r, r', {a, v}) && ThirdLed(r', a, who - {v})
    ensures Envelope(v, a, AppendReply(3, true, 2, v)) in Last(r').network
  {
    hide Up, Believing;
    var r1 := OneRefuses(r, v, Envelope(a, v, News3(a)));
    Unapplied(CoreOf(r, a), {}, 2);
    LeaderStill(CoreOf(r, a));
    var r2 := StepsBack(r1, a, v);
    MovesOn(r, r1, r2, {v}, {a});
    BelievesStill(CoreOf(r1, a), v);
    TakesBoth(CoreOf(r2, v), a);
    var r3 := OneTakes(r2, v, Envelope(a, v, Whole3(a)));
    MovesOn(r, r2, r3, {v} + {a}, {v});
    assert {v} + {a} + {v} == {a, v};
    r' := r3;
  }

  lemma LeaderStill(c: Core)
    requires Believing(c, {}, 2)
    ensures c.role == Leader && Settled(c)
  {
  }

  lemma BelievesStill(c: Core, v: NodeId)
    requires Believing(c, {}, 2)
    ensures Believing(c.(nextIndex := c.nextIndex[v := 1]), {}, 2)
  {
  }

  lemma TakesBoth(c: Core, a: NodeId)
    requires c.log == [] && c.commitIndex == 0 == c.lastApplied && c.currentTerm <= 3
    ensures WillTake(c, Whole3(a)) && Taken(c, Whole3(a)).log == Rewritten
  {
    var e := Rewritten;
    assert e[1..] == [Entry(3, Z)] && e[1..][1..] == [];
    assert Reconcile([Entry(1, X)], 1, [Entry(3, Z)]) == [Entry(1, X)] + [Entry(3, Z)];
    assert Reconcile([], 0, e) == Reconcile([] + [Entry(1, X)], 1, e[1..]);
  }

  lemma {:induction false} AllCatchUp(r: Run, a: NodeId, who: set<NodeId>) returns (r': Run)
    requires Up(r, r.members) && a in r.members && ThirdLed(r, a, who) && a !in who
    requires AllQuiet(r, who, 3, [])
    ensures Moves(r, r', {a} + who) && ThirdLed(r', a, {}) && Reports(r', who, a, 3, 2)
    decreases |who|
  {
    hide Up, Believing, Quietly;
    if who == {} {
      r' := r;
    } else {
      var v :| v in who;
      var r1 := CatchesUp(r, a, v, who);
      QuietFew(r, who, who - {v}, 3, []);
      QuietStays(r, r1, {a, v}, who - {v}, 3, []);
      r' := AllCatchUp(r1, a, who - {v});
      MovesOn(r, r1, r', {a, v}, {a} + (who - {v}));
      assert {a, v} + ({a} + (who - {v})) == {a} + who;
    }
  }

  /** Members that hold X take the second entry at once. */
  lemma StaleTake(r: Run, a: NodeId, who: set<NodeId>) returns (r': Run)
    requires Up(r, r.members) && AllQuiet(r, who, 3, [Entry(1, X)]) && Told(r, a, who, News3(a))
    ensures Moves(r, r', who) && Reports(r', who, a, 3, 2)
  {
    hide Up;
    r' := AllTake(r, News3(a), who);
    assert [Entry(3, Z)][1..] == [];
    assert Reconcile([Entry(1, X)], 1, [Entry(3, Z)]) == [Entry(1, X)] + [Entry(3, Z)];
  }

  lemma LedFewer(r: Run, r': Run, a: NodeId, who: set<NodeId>, few: set<NodeId>, moved: set<NodeId>)
    requires Up(r, r.members) && a in r.members && ThirdLed(r, a, who) && few <= who
    requires Moves(r, r', moved) && a !in moved
    ensures ThirdLed(r', a, few)
  {
    hide Up, Believing;
  }

  /** `a` counts a true majority for its log and releases X at index 1. */
  lemma CommitsTheOther(r: Run, a: NodeId, some: set<NodeId>, rest: set<NodeId>) returns (r': Run)
    requires Up(r, r.members) && a in r.members && ThirdLed(r, a, r.members - {a})
    requires AllQuiet(r, some, 3, [Entry(1, X)]) && AllQuiet(r, rest, 3, []) && some !! rest && a !in some && a !in rest
    requires |some| + |rest| + 1 == MajorityOf(|r.members|) && |r.members| >= 3
    ensures r'.members == r.members && IsRun(r') && |r'.states| > 0
    ensures Last(r).released <= Last(r').released && Release(a, 1, X) in Last(r').released
  {
    hide Up, Believing, Quietly;
    var r1 := StaleTake(r, a, some);
    LedFewer(r, r1, a, r.members - {a}, rest, some);
    QuietStays(r, r1, some, rest, 3, []);
    var r2 := AllCatchUp(r1, a, rest);
    ReportsStay(r1, r2, {a} + rest, some, a, 3, 2);
    assert |some + rest| == |some| + |rest|;
    r' := AllReport(r2, a, {}, some + rest, 2);
    UpIsRun(r');
    assert Release(a, 0 + 1, Rewritten[0].command) in Last(r').released;
  }

  lemma UpIsRun(r: Run)
    requires Up(r, r.members)
    ensures IsRun(r) && |r.states| == |r.steps| + 1
  {
  }

  /**
    With three members, or five and more, State Machine Safety fails: in this run `b` and
    then `a` release different commands for index 1.
  */
  lemma UnsafeRunOf(members: set<NodeId>, a: NodeId, b: NodeId) returns (r: Run)
    requires 3 * MajorityOf(|members|) <= 2 * |members| && a in members && b in members && a != b
    ensures IsRun(r) && r.members == members
    ensures Release(b, 1, Y) in r.states[|r.steps|].released && Release(a, 1, X) in r.states[|r.steps|].released
    ensures X != Y
  {
    hide Up, AfterFirst, SecondLed, AllQuiet, ThirdLed, Betrayed;
    var m := MajorityOf(|members|);
    assert |members - {b}| == |members| - 1;
    var stale := SomeWith(members - {b}, a, 2 * m - |members|);
    var r1 := FirstTerm(members, a, stale, b);
    var r2 := SecondTerm(r1, a, stale, b);
    var r3, rest := FalseCommit(r2, a, stale, b);
    var r4 := ThirdTerm(r3, a, stale, rest, b);
    NotAmong(r3, a, stale, rest, b);
    r := CommitsTheOther(r4, a, stale - {a}, rest);
    Lengthens(r);
  }

  /** The three-member case. */
  lemma UnsafeRun() returns (r: Run)
    ensures IsRun(r)
    ensures Release(1, 1, Y) in r.states[|r.steps|].released && Release(3, 1, X) in r.states[|r.steps|].released
    ensures X != Y
  {
    assert |{1, 2, 3}| == 3;
    r := UnsafeRunOf({1, 2, 3}, 3, 1);
  }
}
