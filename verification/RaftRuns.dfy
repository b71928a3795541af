/**
  Whole runs of the cluster. Election Safety and Log Matching hold in every run,
  across time as well as between nodes, with no assumption on what followers report.
*/
module RaftRuns {
  import opened Raft
  import opened Options
  import opened RaftCluster
  import opened RaftHistory
  import opened RaftInvariance
  import opened RaftSteps

  // ---------- the invariant of a cluster ----------

  /** A member's core, or what it would restart as if it is down. */
  ghost function Resident(n: NodeId, host: Host): Core {
    if host.running.Some? then host.running.value else Restore(n, [], 0, 0, host.disk)
  }

  ghost predicate HostInv(h: History, n: NodeId, host: Host) {
    && Resident(n, host).id == n
    && NodeInv(h, Resident(n, host))
    && (host.running.Some? ==>
          && PeersOk(n, host.running.value.peers, h.members)
          && host.disk == PersistentState(host.running.value))
  }

  ghost predicate ClusterInv(h: History, s: Cluster) {
    && h.members == s.hosts.Keys
    && HistoryInv(h)
    && (forall n :: n in s.hosts ==> HostInv(h, n, s.hosts[n]))
    && (forall e :: e in s.network ==> MessageInv(h, e))
  }

  // ---------- one step of the cluster ----------

  /** What restarts from disk is the node that wrote it, as a follower with nothing applied. */
  lemma RestoreKeeps(h: History, c: Core, peers: seq<NodeId>, electionTimeout: nat, heartbeatInterval: nat)
    requires NodeInv(h, c)
    ensures NodeInv(h, Restore(c.id, peers, electionTimeout, heartbeatInterval, PersistentState(c)))
  {
    QuietKeeps(h, c, Restore(c.id, peers, electionTimeout, heartbeatInterval, PersistentState(c)));
  }

  /** Skipping the write when a tick changed neither term, role nor vote loses nothing. */
  lemma DiskIsCurrent(c: Core, input: Input)
    requires CoreCall(c, input).Done?
    ensures var c' := CoreCall(c, input).core;
            !Persists(c, c', input) ==> PersistentState(c') == PersistentState(c)
  {
  }

  lemma OthersKeep(h: History, h': History, n: NodeId, s: Cluster)
    requires ClusterInv(h, s) && Extends(h, h', n)
    ensures forall m :: m in s.hosts && m != n ==> HostInv(h', m, s.hosts[m])
    ensures forall e :: e in s.network ==> MessageInv(h', e)
  {
    forall m | m in s.hosts && m != n ensures HostInv(h', m, s.hosts[m]) {
      assert HostInv(h, m, s.hosts[m]);
      NodeUndisturbed(h, h', n, Resident(m, s.hosts[m]));
    }
    forall e | e in s.network ensures MessageInv(h', e) {
      MessageUndisturbed(h, h', n, e);
    }
  }

  lemma NodeDown(h: History, s: Cluster, n: NodeId)
    requires ClusterInv(h, s) && n in s.hosts
    ensures ClusterInv(h, s.(hosts := s.hosts[n := s.hosts[n].(running := None)]))
  {
    hide HistoryInv, NodeInv, MessageInv;
    var host := s.hosts[n];
    assert HostInv(h, n, host);
    if host.running.Some? {
      RestoreKeeps(h, host.running.value, [], 0, 0);
    }
  }

  lemma NodeUp(h: History, s: Cluster, step: Step)
    requires ClusterInv(h, s) && Enabled(s, step) && step.Restart?
    ensures ClusterInv(h, Apply(s, step))
  {
    hide HistoryInv, NodeInv, MessageInv;
    var n := step.node;
    var c := Resident(n, s.hosts[n]);
    assert HostInv(h, n, s.hosts[n]);
    RestoreKeeps(h, c, step.peers, step.electionTimeout, step.heartbeatInterval);
  }

  /** The drain only moves the applied mark. */
  lemma DrainKeeps(h: History, c: Core)
    requires NodeInv(h, c)
    ensures NodeInv(h, AfterDrain(c))
  {
    QuietKeeps(h, c, AfterDrain(c));
  }

  /** What a completed engine iteration adds to the history. */
  ghost predicate Noted(h: History, h': History, s: Cluster, step: Step) {
    && Extends(h, h', step.node)
    && (Enabled(s, step) && step.Engine? ==>
          var c := s.hosts[step.node].running.value;
          match CoreCall(c, step.input)
          case Stopped => true
          case Done(c', out) => After(h, h', c, c', out) && Recorded(h', c'))
  }

  lemma IterationKeeps(h: History, s: Cluster, n: NodeId, input: Input) returns (h': History)
    requires ClusterInv(h, s) && Enabled(s, Engine(n, input))
    requires CoreCall(s.hosts[n].running.value, input).Done?
    ensures ClusterInv(h', Iterate(s, n, input)) && Noted(h, h', s, Engine(n, input))
  {
    hide HistoryInv, NodeInv, MessageInv, Extends, CoreCall, Recorded;
    var c := s.hosts[n].running.value;
    assert HostInv(h, n, s.hosts[n]);
    h' := CallKeeps(h, c, input);
    var o := CoreCall(c, input);
    OthersKeep(h, h', n, s);
    SameMembers(h, h', n);
    DiskIsCurrent(c, input);
    DrainKeeps(h', o.core);
    RestoreKeeps(h', o.core, [], 0, 0);
  }

  lemma StepKeeps(h: History, s: Cluster, step: Step) returns (h': History)
    requires ClusterInv(h, s) && Enabled(s, step)
    ensures ClusterInv(h', Apply(s, step)) && Noted(h, h', s, step)
  {
    hide ClusterInv, CoreCall, Recorded;
    match step {
      case Engine(n, input) =>
        if CoreCall(s.hosts[n].running.value, input).Done? {
          h' := IterationKeeps(h, s, n, input);
        } else {
          NodeDown(h, s, n);
          h' := h;
        }
      case Crash(n) =>
        NodeDown(h, s, n);
        h' := h;
      case Restart(_, _, _, _) =>
        NodeUp(h, s, step);
        h' := h;
    }
  }

  // ---------- whole runs ----------

  lemma InitKeeps(s: Cluster, members: set<NodeId>) returns (h: History)
    requires Init(s, members)
    ensures ClusterInv(h, s)
  {
    h := History(members, map[], map[], map[], {});
    forall n | n in s.hosts ensures HostInv(h, n, s.hosts[n]) {
      assert FirstBoot(n, s.hosts[n], members);
    }
  }

  ghost predicate Chronicle(hs: seq<History>, r: Run) {
    && |hs| == |r.states|
    && (forall i :: 0 <= i < |hs| ==> ClusterInv(hs[i], r.states[i]))
    && (forall i :: 0 <= i < |r.steps| && i + 1 < |hs| ==> Noted(hs[i], hs[i + 1], r.states[i], r.steps[i]))
  }

  ghost function Shorter(r: Run): Run
    requires |r.steps| > 0 && |r.states| == |r.steps| + 1
  {
    Run(r.members, r.states[..|r.steps|], r.steps[..|r.steps| - 1])
  }

  lemma ShorterIsRun(r: Run)
    requires IsRun(r) && |r.steps| > 0
    ensures IsRun(Shorter(r))
  {
    var q := Shorter(r);
    forall i | 0 <= i < |q.steps|
      ensures Enabled(q.states[i], q.steps[i]) && q.states[i + 1] == Apply(q.states[i], q.steps[i])
    {
      assert q.states[i] == r.states[i] && q.steps[i] == r.steps[i] && q.states[i + 1] == r.states[i + 1];
    }
  }

  lemma {:induction false} RunHistory(r: Run) returns (hs: seq<History>)
    requires IsRun(r)
    ensures Chronicle(hs, r)
    decreases |r.steps|
  {
    hide ClusterInv, Noted, Init, Enabled, Apply;
    var n := |r.steps|;
    if n == 0 {
      var h := InitKeeps(r.states[0], r.members);
      hs := [h];
    } else {
      ShorterIsRun(r);
      var q := Shorter(r);
      var hs0 := RunHistory(q);
      assert q.states[n - 1] == r.states[n - 1];
      var h' := StepKeeps(hs0[n - 1], r.states[n - 1], r.steps[n - 1]);
      hs := hs0 + [h'];
      assert r.states[n] == Apply(r.states[n - 1], r.steps[n - 1]);
      forall i | 0 <= i < |hs| ensures ClusterInv(hs[i], r.states[i]) {
        if i < n {
          assert hs[i] == hs0[i] && q.states[i] == r.states[i];
        }
      }
      forall i | 0 <= i < n && i + 1 < |hs| ensures Noted(hs[i], hs[i + 1], r.states[i], r.steps[i]) {
        if i < n - 1 {
          assert hs[i] == hs0[i] && hs[i + 1] == hs0[i + 1];
          assert q.states[i] == r.states[i] && q.steps[i] == r.steps[i];
        }
      }
    }
  }

  ghost predicate Later(h: History, h': History) {
    ElectionsGrow(h, h') && LogsGrow(h, h') && h.acks <= h'.acks && h.members == h'.members
  }

  lemma {:induction false} LaterInChronicle(hs: seq<History>, r: Run, i: nat, j: nat)
    requires IsRun(r) && Chronicle(hs, r) && i <= j < |hs|
    ensures Later(hs[i], hs[j])
    decreases j
  {
    hide ClusterInv, Init, Enabled, Apply;
    if i < j {
      LaterInChronicle(hs, r, i, j - 1);
      assert Noted(hs[j - 1], hs[j - 1 + 1], r.states[j - 1], r.steps[j - 1]);
      LaterTransitive(hs[i], hs[j - 1], hs[j]);
    }
  }

  lemma LaterTransitive(h: History, h': History, h'': History)
    requires Later(h, h') && Later(h', h'')
    ensures Later(h, h'')
  {
    forall t | t in h.logs ensures t in h''.logs && h.logs[t] <= h''.logs[t] {
      assert h.logs[t] <= h'.logs[t] && h'.logs[t] <= h''.logs[t];
    }
  }

  /** The history knows the member's log, and everything it did as a leader. */
  ghost predicate Known(h: History, s: Cluster, n: NodeId)
    requires n in s.hosts
  {
    && Grounded(LogOf(s, n), h.logs)
    && (forall t :: Leads(s, n, t) ==>
          t in h.elections && h.elections[t].leader == n && t in h.logs && LogOf(s, n) <= h.logs[t])
  }

  lemma KnownNow(h: History, s: Cluster, n: NodeId)
    requires n in s.hosts && HostInv(h, n, s.hosts[n])
    ensures Known(h, s, n)
  {
    hide VoteOk, AcksKeep, Ordered, PeersOk, Grounded;
  }

  lemma KnownLater(h: History, h': History, s: Cluster, n: NodeId)
    requires n in s.hosts && Known(h, s, n) && Later(h, h')
    ensures Known(h', s, n)
  {
    GroundedGrows(LogOf(s, n), h, h');
    hide Grounded;
    forall t | Leads(s, n, t)
      ensures t in h'.elections && h'.elections[t].leader == n && t in h'.logs && LogOf(s, n) <= h'.logs[t]
    {
      assert LogOf(s, n) <= h.logs[t] && h.logs[t] <= h'.logs[t];
    }
  }

  /** A history still knows every member as it was at any earlier point of the run. */
  lemma Remembered(hs: seq<History>, r: Run, i: nat, j: nat, n: NodeId)
    requires IsRun(r) && Chronicle(hs, r) && i <= j < |hs| && n in r.states[i].hosts
    ensures Known(hs[j], r.states[i], n)
  {
    LaterInChronicle(hs, r, i, j);
    hide IsRun, HostInv, Known, Later, HistoryInv, Noted, MessageInv;
    assert ClusterInv(hs[i], r.states[i]);
    KnownNow(hs[i], r.states[i], n);
    KnownLater(hs[i], hs[j], r.states[i], n);
  }

  // ---------- Election Safety ----------

  /** At most one member is ever leader in a term, at any two moments of any run. */
  lemma ElectionSafety(r: Run, i: nat, a: NodeId, j: nat, b: NodeId, term: Term)
    requires IsRun(r) && i < |r.states| && j < |r.states|
    requires Leads(r.states[i], a, term) && Leads(r.states[j], b, term)
    ensures a == b
  {
    hide IsRun, ClusterInv, Noted, Grounded;
    var hs := RunHistory(r);
    Remembered(hs, r, i, |hs| - 1, a);
    Remembered(hs, r, j, |hs| - 1, b);
  }

  // ---------- Log Matching ----------

  /** Logs that agree on the term at one index agree on everything up to it, at any two moments. */
  lemma LogMatching(r: Run, i: nat, a: NodeId, j: nat, b: NodeId, k: nat)
    requires IsRun(r) && i < |r.states| && j < |r.states|
    requires a in r.states[i].hosts && b in r.states[j].hosts
    requires 1 <= k <= |LogOf(r.states[i], a)| && k <= |LogOf(r.states[j], b)|
    requires LogOf(r.states[i], a)[k - 1].term == LogOf(r.states[j], b)[k - 1].term
    ensures LogOf(r.states[i], a)[..k] == LogOf(r.states[j], b)[..k]
  {
    hide IsRun, ClusterInv, Noted, Grounded;
    var hs := RunHistory(r);
    Remembered(hs, r, i, |hs| - 1, a);
    Remembered(hs, r, j, |hs| - 1, b);
    MatchingPrefix(LogOf(r.states[i], a), LogOf(r.states[j], b), hs[|hs| - 1].logs, k);
  }

  lemma LeaderLog(h: History, s: Cluster, n: NodeId, term: Term)
    requires ClusterInv(h, s) && Leads(s, n, term)
    ensures term in h.logs && LogOf(s, n) == h.logs[term]
  {
    hide HistoryInv, MessageInv;
    assert HostInv(h, n, s.hosts[n]);
  }

  /** While a member leads a term its log only ever grows at the end. */
  lemma LeaderAppendOnly(r: Run, i: nat, a: NodeId, j: nat, b: NodeId, term: Term)
    requires IsRun(r) && i <= j < |r.states|
    requires Leads(r.states[i], a, term) && Leads(r.states[j], b, term)
    ensures a == b && LogOf(r.states[i], a) <= LogOf(r.states[j], b)
  {
    hide IsRun, ClusterInv, Noted, Leads;
    ElectionSafety(r, i, a, j, b, term);
    var hs := RunHistory(r);
    LaterInChronicle(hs, r, i, j);
    LeaderLog(hs[i], r.states[i], a, term);
    LeaderLog(hs[j], r.states[j], a, term);
    assert hs[i].logs[term] <= hs[j].logs[term];
  }
}
