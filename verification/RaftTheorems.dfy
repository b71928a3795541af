/**
  Safety of whole runs: commands released at one index agree, committed prefixes
  agree, and no member goes down on its own, either because every report is truthful
  or because the cluster is small enough for a leader's own voters to decide.
*/
module RaftTheorems {
  import opened Raft
  import opened RaftCluster
  import opened RaftHistory
  import opened RaftInvariance
  import opened RaftSteps
  import opened RaftRuns
  import opened RaftCommit
  import opened RaftSafety

  // ---------- one step ----------

  lemma OthersCommit(h: History, h': History, s: Cluster, trust: Trust)
    requires CommitInv(h, s, trust) && Later(h, h')
    ensures CommitInv(h', s, trust)
  {
    hide CommitMessage, ReleaseOk, CommitNode, Later;
    forall n | n in s.hosts && s.hosts[n].running.Some?
      ensures CommitNode(h', s.hosts[n].running.value, trust)
    {
      NodeCommitsLater(h, h', s.hosts[n].running.value, trust);
    }
    forall e | e in s.network ensures CommitMessage(h', e, trust) {
      CommitMessageLater(h, h', e, trust);
    }
    forall r | r in s.released ensures ReleaseOk(h', r) {
      ReleaseLater(h, h', r);
    }
  }

  lemma NodeCommitsLater(h: History, h': History, c: Core, trust: Trust)
    requires CommitNode(h, c, trust) && Later(h, h')
    ensures CommitNode(h', c, trust)
  {
    if c.role == Leader {
      FollowersLater(h, h', c, c, trust);
    }
    CommitQuiet(h, h', c, c, trust);
  }

  lemma DrainCommits(h: History, c: Core, trust: Trust)
    requires CommitNode(h, c, trust)
    ensures CanDrain(c) && CommitNode(h, AfterDrain(c), trust)
    ensures forall r :: r in Releases(c) ==> ReleaseOk(h, r)
  {
    hide Chosen;
    var p := c.log[..c.commitIndex];
    forall r | r in Releases(c) ensures ReleaseOk(h, r) {
      var i :| c.lastApplied <= i < c.commitIndex && r == Release(c.id, i + 1, c.log[i].command);
      assert Safe(h, p, c.currentTerm) && 1 <= r.index <= |p| && p[r.index - 1].command == r.command;
    }
    assert c.log[..AfterDrain(c).commitIndex] == p;
  }

  lemma ExtendsLater(h: History, h': History, n: NodeId)
    requires Extends(h, h', n)
    ensures Later(h, h')
  {
  }

  lemma IterationCommits(h: History, h': History, s: Cluster, n: NodeId, input: Input, trust: Trust)
    requires ClusterInv(h, s) && CommitInv(h, s, trust) && Enabled(s, Engine(n, input))
    requires Noted(h, h', s, Engine(n, input)) && Enough(|h.members|, trust)
    requires trust.Everyone? ==> TruthfulIn(h, s.hosts[n].running.value, input)
    requires CoreCall(s.hosts[n].running.value, input).Done?
    ensures CanDrain(CoreCall(s.hosts[n].running.value, input).core)
    ensures CommitInv(h', Iterate(s, n, input), trust)
  {
    hide HistoryInv, NodeInv, MessageInv, CoreCall, Recorded, TruthfulIn, CommitMessage, ReleaseOk, CommitNode, Extends, Enough;
    var c := s.hosts[n].running.value;
    assert HostInv(h, n, s.hosts[n]);
    var o := CoreCall(c, input);
    SameMembers(h, h', n);
    ExtendsLater(h, h', n);
    assert CallDone(h, h', c, input, trust);
    CallCommits(h, h', c, input, trust);
    DrainCommits(h', o.core, trust);
    OthersCommit(h, h', s, trust);
  }

  /** With everybody truthful the call completes at all. */
  lemma IterationCompletes(h: History, s: Cluster, n: NodeId, input: Input)
    requires ClusterInv(h, s) && CommitInv(h, s, Everyone) && Enabled(s, Engine(n, input))
    ensures CoreCall(s.hosts[n].running.value, input).Done?
  {
    hide HistoryInv, NodeInv, MessageInv, CoreCall, CommitMessage, ReleaseOk, CommitNode;
    assert HostInv(h, n, s.hosts[n]);
    NeverStops(h, s.hosts[n].running.value, input, Everyone);
  }

  /** Going down, coming up, and a call that stops its node commit nothing. */
  lemma QuietStepCommits(h: History, s: Cluster, step: Step, trust: Trust)
    requires CommitInv(h, s, trust) && Enabled(s, step)
    requires step.Engine? ==> CoreCall(s.hosts[step.node].running.value, step.input).Stopped?
    ensures CommitInv(h, Apply(s, step), trust)
  {
    hide CommitMessage, ReleaseOk, CoreCall;
  }

  // ---------- truthful reports, read off the run ----------

  lemma ReportIsLeaders(h: History, c: Core, env: Envelope)
    requires HistoryInv(h) && NodeInv(h, c) && MessageInv(h, env) && env.to == c.id && WouldAccept(c, env)
    requires || |ReportedLog(c, env)| <= env.rpc.prevLogIndex + |env.rpc.entries|
             || LastTerm(ReportedLog(c, env)) == env.rpc.term
    ensures TruthfulIn(h, c, Inbound(env))
  {
    hide HistoryInv, Reconcile, AcksKeep, VoteOk, RoleOk;
    AppendResult(h, c, env);
    PrefixOfLeaders(h.logs, env.rpc.term, c.log, env.rpc.prevLogIndex + |env.rpc.entries|, ReportedLog(c, env));
  }

  lemma PrefixOfLeaders(logs: map<Term, seq<Entry>>, t: Term, log: seq<Entry>, end: nat, log': seq<Entry>)
    requires t in logs && end <= |logs[t]| && Grounded(log', logs)
    requires log' == if logs[t][..end] <= log then log else logs[t][..end]
    requires |log'| <= end || LastTerm(log') == t
    ensures log' <= logs[t]
  {
    if |log'| <= end {
      assert log' == logs[t][..end];
    } else {
      assert log'[..|log'| - 1 + 1] == log';
    }
  }

  lemma TruthAt(r: Run, hs: seq<History>, i: nat)
    requires IsRun(r) && Chronicle(hs, r) && i < |r.steps| && TruthfulAt(r, i)
    requires r.steps[i].Engine?
    ensures TruthfulIn(hs[i], r.states[i].hosts[r.steps[i].node].running.value, r.steps[i].input)
  {
    hide HistoryInv, NodeInv, MessageInv, Noted, Init, Known;
    var s, step, h := r.states[i], r.steps[i], hs[i];
    assert Enabled(s, step) && ClusterInv(h, s);
    var c := s.hosts[step.node].running.value;
    assert HostInv(h, step.node, s.hosts[step.node]);
    if step.input.Inbound? && WouldAccept(c, step.input.env) {
      var env := step.input.env;
      if LeaderHeld(r, i, env.rpc.term, ReportedLog(c, env)) {
        var j, n :| 0 <= j <= i && j < |r.states| && Leads(r.states[j], n, env.rpc.term)
                    && ReportedLog(c, env) <= LogOf(r.states[j], n);
        Remembered(hs, r, j, i, n);
        HeldByLeader(h, r.states[j], n, env.rpc.term, ReportedLog(c, env));
      } else {
        ReportIsLeaders(h, c, env);
      }
    }
  }

  lemma HeldByLeader(h: History, s: Cluster, n: NodeId, term: Term, log: seq<Entry>)
    requires n in s.hosts && Known(h, s, n) && Leads(s, n, term) && log <= LogOf(s, n)
    ensures term in h.logs && log <= h.logs[term]
  {
    hide Grounded;
    PrefixChain(log, LogOf(s, n), h.logs[term]);
  }

  // ---------- whole runs ----------

  /** What step `i` was told to report, its leader has. */
  ghost predicate TruthfulStep(hs: seq<History>, r: Run, i: nat)
    requires IsRun(r) && i < |r.steps| && i < |hs|
  {
    r.steps[i].Engine? ==>
      assert Enabled(r.states[i], r.steps[i]);
      TruthfulIn(hs[i], r.states[i].hosts[r.steps[i].node].running.value, r.steps[i].input)
  }

  lemma Lengths(hs: seq<History>, r: Run)
    requires IsRun(r) && Chronicle(hs, r)
    ensures |hs| == |r.states| == |r.steps| + 1 && Init(r.states[0], r.members)
  {
  }

  lemma TruthfulSteps(hs: seq<History>, r: Run)
    requires IsRun(r) && Chronicle(hs, r) && TruthfulReports(r)
    ensures forall i :: 0 <= i < |r.steps| ==> TruthfulStep(hs, r, i)
  {
    hide IsRun, Chronicle, TruthfulIn, TruthfulAt;
    Lengths(hs, r);
    forall i | 0 <= i < |r.steps| ensures TruthfulStep(hs, r, i) {
      assert TruthfulAt(r, i);
      if r.steps[i].Engine? {
        TruthAt(r, hs, i);
      }
    }
  }

  lemma MembersKnown(r: Run, hs: seq<History>, i: nat)
    requires IsRun(r) && Chronicle(hs, r) && i < |hs|
    ensures hs[i].members == r.members
  {
    hide HistoryInv, HostInv, MessageInv, Noted, Enabled, Apply;
    assert ClusterInv(hs[0], r.states[0]);
    LaterInChronicle(hs, r, 0, i);
  }

  lemma {:induction false} CommitsThroughout(r: Run, hs: seq<History>, i: nat, trust: Trust)
    requires IsRun(r) && Chronicle(hs, r) && i < |hs| && Enough(|r.members|, trust)
    requires trust.Everyone? ==> forall j :: 0 <= j < i ==> TruthfulStep(hs, r, j)
    ensures CommitInv(hs[i], r.states[i], trust)
    decreases i
  {
    hide IsRun, Chronicle, TruthfulStep, CommitInv, Enough;
    Lengths(hs, r);
    if i == 0 {
      FirstCommits(hs[0], r.states[0], r.members, trust);
    } else {
      CommitsThroughout(r, hs, i - 1, trust);
      StepCommits(r, hs, i - 1, trust);
    }
  }

  lemma FirstCommits(h: History, s: Cluster, members: set<NodeId>, trust: Trust)
    requires Init(s, members)
    ensures CommitInv(h, s, trust)
  {
    forall n | n in s.hosts && s.hosts[n].running.Some? ensures CommitNode(h, s.hosts[n].running.value, trust) {
      assert FirstBoot(n, s.hosts[n], members);
    }
  }

  lemma StepCommits(r: Run, hs: seq<History>, i: nat, trust: Trust)
    requires IsRun(r) && Chronicle(hs, r) && i < |r.steps| && Enough(|r.members|, trust)
    requires trust.Everyone? ==> TruthfulStep(hs, r, i)
    requires CommitInv(hs[i], r.states[i], trust)
    ensures CommitInv(hs[i + 1], r.states[i + 1], trust)
    ensures trust.Everyone? && r.steps[i].Engine? ==>
              var o := CoreCall(r.states[i].hosts[r.steps[i].node].running.value, r.steps[i].input);
              o.Done? && CanDrain(o.core)
  {
    hide HistoryInv, NodeInv, MessageInv, CommitInv, TruthfulIn, HostInv, Init, CoreCall, Recorded, Enough;
    var h, h', s, step := hs[i], hs[i + 1], r.states[i], r.steps[i];
    assert Noted(h, h', s, step) && ClusterInv(h, s) && Enabled(s, step);
    assert r.states[i + 1] == Apply(s, step);
    MembersKnown(r, hs, i);
    if step.Engine? && trust.Everyone? {
      IterationCompletes(h, s, step.node, step.input);
    }
    if step.Engine? && CoreCall(s.hosts[step.node].running.value, step.input).Done? {
      IterationCommits(h, h', s, step.node, step.input, trust);
    } else {
      QuietStepCommits(h, s, step, trust);
      ExtendsLater(h, h', step.node);
      OthersCommit(h, h', r.states[i + 1], trust);
    }
  }

  /** Releases at one index agree whenever enough members can be trusted to report what the leader has. */
  lemma ReleasesAgree(r: Run, hs: seq<History>, a: Release, b: Release, trust: Trust)
    requires IsRun(r) && Chronicle(hs, r) && Enough(|r.members|, trust)
    requires trust.Everyone? ==> forall j :: 0 <= j < |r.steps| ==> TruthfulStep(hs, r, j)
    requires a in r.states[|r.steps|].released && b in r.states[|r.steps|].released
    requires a.index == b.index
    ensures a.command == b.command
  {
    hide IsRun, TruthfulStep, HistoryInv, NodeInv, MessageInv, Noted, CommitMessage, CommitNode, HostInv, Safe, Enough;
    Lengths(hs, r);
    var h := hs[|r.steps|];
    CommitsThroughout(r, hs, |r.steps|, trust);
    assert ClusterInv(h, r.states[|r.steps|]);
    assert ReleaseOk(h, a) && ReleaseOk(h, b);
    SameRelease(h, a, b);
  }

  /** State Machine Safety, in any cluster whose followers report truthfully. */
  lemma StateMachineSafety(r: Run, a: Release, b: Release)
    requires IsRun(r) && TruthfulReports(r)
    requires a in r.states[|r.steps|].released && b in r.states[|r.steps|].released
    requires a.index == b.index
    ensures a.command == b.command
  {
    var hs := RunHistory(r);
    hide IsRun, Chronicle, TruthfulReports, TruthfulStep;
    TruthfulSteps(hs, r);
    ReleasesAgree(r, hs, a, b, Everyone);
  }

  lemma SameRelease(h: History, a: Release, b: Release)
    requires HistoryInv(h) && ReleaseOk(h, a) && ReleaseOk(h, b) && a.index == b.index
    ensures a.command == b.command
  {
    hide HistoryInv, Safe;
    var p: seq<Entry>, x: Term :|
      Safe(h, p, x) && 1 <= a.index <= |p| && p[a.index - 1].command == a.command;
    var q: seq<Entry>, y: Term :|
      Safe(h, q, y) && 1 <= b.index <= |q| && q[b.index - 1].command == b.command;
    SafeAgree(h, p, x, q, y);
  }

  /** The prefix a running member considers committed. */
  ghost function CommittedOf(s: Cluster, n: NodeId): seq<Entry>
    requires n in s.hosts && s.hosts[n].running.Some?
  {
    var c := s.hosts[n].running.value;
    if c.commitIndex <= |c.log| then c.log[..c.commitIndex] else c.log
  }

  lemma PrefixesAgree(r: Run, hs: seq<History>, i: nat, a: NodeId, j: nat, b: NodeId, trust: Trust)
    requires IsRun(r) && Chronicle(hs, r) && Enough(|r.members|, trust) && i < |r.states| && j < |r.states|
    requires trust.Everyone? ==> forall k :: 0 <= k < |r.steps| ==> TruthfulStep(hs, r, k)
    requires a in r.states[i].hosts && r.states[i].hosts[a].running.Some?
    requires b in r.states[j].hosts && r.states[j].hosts[b].running.Some?
    ensures CommittedOf(r.states[i], a) <= CommittedOf(r.states[j], b)
            || CommittedOf(r.states[j], b) <= CommittedOf(r.states[i], a)
  {
    hide IsRun, TruthfulStep, HistoryInv, NodeInv, MessageInv, Noted, HostInv, Safe, Enough;
    var p, b1 := SafeAtEnd(r, hs, i, a, trust);
    var q, b2 := SafeAtEnd(r, hs, j, b, trust);
    assert ClusterInv(hs[|hs| - 1], r.states[|hs| - 1]);
    SafeAgree(hs[|hs| - 1], p, b1, q, b2);
  }

  lemma SafeAtEnd(r: Run, hs: seq<History>, i: nat, n: NodeId, trust: Trust) returns (p: seq<Entry>, bound: Term)
    requires IsRun(r) && Chronicle(hs, r) && Enough(|r.members|, trust) && i < |hs|
    requires trust.Everyone? ==> forall j :: 0 <= j < |r.steps| ==> TruthfulStep(hs, r, j)
    requires n in r.states[i].hosts && r.states[i].hosts[n].running.Some?
    ensures p == CommittedOf(r.states[i], n) && Safe(hs[|hs| - 1], p, bound)
  {
    hide TruthfulStep, ClusterInv, Noted, Safe, CommitMessage, ReleaseOk, Init, Enabled, Apply, Enough;
    CommitsThroughout(r, hs, i, trust);
    LaterInChronicle(hs, r, i, |hs| - 1);
    var c := r.states[i].hosts[n].running.value;
    p, bound := CommittedOf(r.states[i], n), c.currentTerm;
    assert CommitNode(hs[i], c, trust);
    SafeGrows(hs[i], hs[|hs| - 1], p, bound, bound);
  }

  /** Committed prefixes of any two members at any two moments never disagree. */
  lemma CommittedPrefixesAgree(r: Run, i: nat, a: NodeId, j: nat, b: NodeId)
    requires IsRun(r) && TruthfulReports(r) && i < |r.states| && j < |r.states|
    requires a in r.states[i].hosts && r.states[i].hosts[a].running.Some?
    requires b in r.states[j].hosts && r.states[j].hosts[b].running.Some?
    ensures CommittedOf(r.states[i], a) <= CommittedOf(r.states[j], b)
            || CommittedOf(r.states[j], b) <= CommittedOf(r.states[i], a)
  {
    var hs := RunHistory(r);
    hide IsRun, Chronicle, TruthfulReports, TruthfulStep, CommittedOf;
    TruthfulSteps(hs, r);
    PrefixesAgree(r, hs, i, a, j, b, Everyone);
  }

  lemma MemberRuns(r: Run, hs: seq<History>, i: nat)
    requires IsRun(r) && Chronicle(hs, r) && i < |r.steps|
    requires forall j :: 0 <= j < |r.steps| ==> TruthfulStep(hs, r, j)
    ensures StaysUp(r, i)
  {
    hide TruthfulStep, HistoryInv, NodeInv, MessageInv, Noted, HostInv, CommitMessage, CommitNode, ReleaseOk, CoreCall, Init;
    CommitsThroughout(r, hs, i, Everyone);
    StepCommits(r, hs, i, Everyone);
    assert r.states[i + 1] == Apply(r.states[i], r.steps[i]);
  }

  /** No member slices past its log: an engine iteration always leaves the node running. */
  lemma NoMemberStops(r: Run, i: nat)
    requires IsRun(r) && TruthfulReports(r) && i < |r.steps|
    ensures StaysUp(r, i)
  {
    var hs := RunHistory(r);
    TruthfulSteps(hs, r);
    MemberRuns(r, hs, i);
    hide *;
  }

  // ---------- small clusters, whatever is reported ----------

  /** In a cluster of one, two or four members releases agree with no assumption on reports. */
  lemma SmallClustersAgree(r: Run, a: Release, b: Release)
    requires IsRun(r) && 3 * MajorityOf(|r.members|) > 2 * |r.members|
    requires a in r.states[|r.steps|].released && b in r.states[|r.steps|].released
    requires a.index == b.index
    ensures a.command == b.command
  {
    var hs := RunHistory(r);
    ReleasesAgree(r, hs, a, b, Voters);
  }

  lemma SmallPrefixesAgree(r: Run, i: nat, a: NodeId, j: nat, b: NodeId)
    requires IsRun(r) && 3 * MajorityOf(|r.members|) > 2 * |r.members| && i < |r.states| && j < |r.states|
    requires a in r.states[i].hosts && r.states[i].hosts[a].running.Some?
    requires b in r.states[j].hosts && r.states[j].hosts[b].running.Some?
    ensures CommittedOf(r.states[i], a) <= CommittedOf(r.states[j], b)
            || CommittedOf(r.states[j], b) <= CommittedOf(r.states[i], a)
  {
    var hs := RunHistory(r);
    PrefixesAgree(r, hs, i, a, j, b, Voters);
  }

  /** Of two members both elect every leader, so every report is true. */
  lemma PairReportsTruly(r: Run, hs: seq<History>, i: nat)
    requires IsRun(r) && Chronicle(hs, r) && i < |r.steps| && |r.members| <= 2
    ensures TruthfulStep(hs, r, i)
  {
    hide NodeInv, MessageInv, Noted, Init, CommitNode, CommitMessage, ReleaseOk, HistoryInv, TruthfulIn;
    CommitsThroughout(r, hs, i, Voters);
    MembersKnown(r, hs, i);
    var s, step, h := r.states[i], r.steps[i], hs[i];
    assert Enabled(s, step) && ClusterInv(h, s);
    if step.Engine? {
      var c := s.hosts[step.node].running.value;
      assert HostInv(h, step.node, s.hosts[step.node]);
      PairReport(h, c, step.input);
    }
  }

  lemma PairReport(h: History, c: Core, input: Input)
    requires Before(h, c) && Deliverable(h, c, input) && CommitInput(h, input, Voters) && |h.members| <= 2
    ensures TruthfulIn(h, c, input)
  {
    hide BallotsKeep, ElectionsKeep, NodeInv, Reconcile, Grounded, Ordered, Safe;
    if input.Inbound? && WouldAccept(c, input.env) {
      var env := input.env;
      AppendTerm(h, env);
      assert ElectionOk(h, env.rpc.term);
      var voters := h.elections[env.rpc.term].voters;
      MemberOf(h, c);
      AllVote(voters, h.members, c.id);
      VoterReportsLeaders(h, c, env);
    }
  }

  lemma MemberOf(h: History, c: Core)
    requires NodeInv(h, c)
    ensures c.id in h.members
  {
  }

  lemma AllVote(voters: set<NodeId>, members: set<NodeId>, n: NodeId)
    requires voters <= members && 2 * |voters| > |members| && |members| <= 2 && n in members
    ensures n in voters
  {
    if n !in voters {
      SubsetSize(voters + {n}, members);
    }
  }

  /** In a cluster of at most two members no engine iteration stops its member. */
  lemma PairNeverStops(r: Run, i: nat)
    requires IsRun(r) && |r.members| <= 2 && i < |r.steps|
    ensures StaysUp(r, i)
  {
    var hs := RunHistory(r);
    forall j | 0 <= j < |r.steps| ensures TruthfulStep(hs, r, j) {
      PairReportsTruly(r, hs, j);
    }
    MemberRuns(r, hs, i);
    hide *;
  }
}
