/**
  What commit indexes, reports and releases mean, kept by every handler. A leader may
  trust everybody's reports, if they are truthful, or only those of the members that
  elected it, who never over-report to it.
*/
module RaftSafety {
  import opened Raft
  import opened RaftCluster
  import opened RaftHistory
  import opened RaftInvariance
  import opened RaftSteps
  import opened RaftRuns
  import opened RaftCommit

  // ---------- what commit indexes and reports mean ----------

  ghost predicate Acked(h: History, t: Term, n: NodeId, k: nat) {
    k == 0 || Ack(t, n, k) in h.acks
  }

  /** Whose reports in a term are taken to be true: everybody's, or those of the members that elected its leader. */
  datatype Trust = Everyone | Voters

  predicate Trusted(h: History, t: Term, n: NodeId, trust: Trust) {
    trust.Everyone? || (t in h.elections && n in h.elections[t].voters)
  }

  /** Believing `MajorityOf(n)` members, the trusted among them still meet every majority. */
  predicate Enough(n: nat, trust: Trust) {
    trust.Everyone? || 3 * MajorityOf(n) > 2 * n
  }

  ghost predicate Followers(h: History, c: Core, trust: Trust) {
    && c.currentTerm in h.elections
    && (forall p :: p in c.matchIndex && Trusted(h, c.currentTerm, p, trust) ==> Acked(h, c.currentTerm, p, c.matchIndex[p]))
    && (trust.Everyone? ==> forall p :: p in c.nextIndex ==> c.nextIndex[p] <= |c.log| + 1)
  }

  ghost predicate CommitNode(h: History, c: Core, trust: Trust) {
    && c.lastApplied <= c.commitIndex <= |c.log|
    && Safe(h, c.log[..c.commitIndex], c.currentTerm)
    && (c.role == Leader ==> Followers(h, c, trust))
  }

  ghost predicate CommitMessage(h: History, e: Envelope, trust: Trust) {
    && (e.rpc.AppendEntries? ==>
          && e.rpc.term in h.logs && e.rpc.term in h.elections
          && |h.elections[e.rpc.term].log| <= e.rpc.prevLogIndex + |e.rpc.entries| <= |h.logs[e.rpc.term]|
          && e.rpc.leaderCommit <= e.rpc.prevLogIndex + |e.rpc.entries|
          && Safe(h, h.logs[e.rpc.term][..e.rpc.leaderCommit], e.rpc.term))
    && (e.rpc.AppendReply? && e.rpc.success ==>
          && e.rpc.term in h.elections
          && (Trusted(h, e.rpc.term, e.rpc.follower, trust) ==> Acked(h, e.rpc.term, e.rpc.follower, e.rpc.matchIndex)))
  }

  ghost predicate AllCommitMessages(h: History, out: seq<Envelope>, trust: Trust) {
    forall e :: e in out ==> CommitMessage(h, e, trust)
  }

  ghost predicate ReleaseOk(h: History, r: Release) {
    exists p: seq<Entry>, b: Term ::
      Safe(h, p, b) && 1 <= r.index <= |p| && p[r.index - 1].command == r.command
  }

  ghost predicate CommitInv(h: History, s: Cluster, trust: Trust) {
    && (forall n :: n in s.hosts && s.hosts[n].running.Some? ==> CommitNode(h, s.hosts[n].running.value, trust))
    && (forall e :: e in s.network ==> CommitMessage(h, e, trust))
    && (forall r :: r in s.released ==> ReleaseOk(h, r))
  }

  // ---------- the facts outlive the steps of others ----------

  lemma CommitMessageLater(h: History, h': History, e: Envelope, trust: Trust)
    requires Later(h, h') && CommitMessage(h, e, trust)
    ensures CommitMessage(h', e, trust)
  {
    if e.rpc.AppendEntries? {
      var t, k := e.rpc.term, e.rpc.leaderCommit;
      assert h.logs[t] <= h'.logs[t];
      assert h'.logs[t][..k] == h.logs[t][..k];
      SafeGrows(h, h', h.logs[t][..k], t, t);
    }
  }

  lemma ReleaseLater(h: History, h': History, r: Release)
    requires Later(h, h') && ReleaseOk(h, r)
    ensures ReleaseOk(h', r)
  {
    var p: seq<Entry>, b: Term :|
      Safe(h, p, b) && 1 <= r.index <= |p| && p[r.index - 1].command == r.command;
    SafeGrows(h, h', p, b, b);
  }

  lemma FollowersLater(h: History, h': History, c: Core, c': Core, trust: Trust)
    requires Later(h, h') && Followers(h, c, trust)
    requires c'.matchIndex == c.matchIndex && c'.nextIndex == c.nextIndex
    requires c'.currentTerm == c.currentTerm && |c'.log| >= |c.log|
    ensures Followers(h', c', trust)
  {
  }

  /** Nothing committed, nothing lost. */
  lemma CommitQuiet(h: History, h': History, c: Core, c': Core, trust: Trust)
    requires Later(h, h') && CommitNode(h, c, trust)
    requires c.log <= c'.log && c'.currentTerm >= c.currentTerm
    requires c'.commitIndex == c.commitIndex && c'.lastApplied == c.lastApplied
    requires c'.role == Leader ==> Followers(h', c', trust)
    ensures CommitNode(h', c', trust)
  {
    assert c'.log[..c'.commitIndex] == c.log[..c.commitIndex];
    SafeGrows(h, h', c.log[..c.commitIndex], c.currentTerm, c'.currentTerm);
  }

  // ---------- no slice is out of range ----------

  lemma SlicesInRange(h: History, c: Core, trust: Trust)
    requires Followers(h, c, trust) && trust.Everyone?
    ensures forall f :: CanAppendFor(c, f)
    ensures CanReplicate(c)
  {
  }

  lemma ReportInRange(h: History, c: Core, n: NodeId, k: nat)
    requires (forall a :: a in h.acks ==> AckOk(h, a)) && RoleOk(h, c) && c.role == Leader
    requires Acked(h, c.currentTerm, n, k)
    ensures k <= |c.log|
  {
    if k > 0 {
      assert AckOk(h, Ack(c.currentTerm, n, k));
    }
  }

  ghost predicate CommitInput(h: History, input: Input, trust: Trust) {
    input.Inbound? ==> CommitMessage(h, input.env, trust)
  }

  /** The leader's tables after a truthful success report. */
  function WithReport(c: Core, follower: NodeId, reported: nat): Core {
    c.(matchIndex := c.matchIndex[follower := reported], nextIndex := c.nextIndex[follower := reported + 1])
  }

  lemma SuccessNeverStops(h: History, c: Core, follower: NodeId, reported: nat, trust: Trust)
    requires Followers(h, c, trust) && trust.Everyone? && reported <= |c.log|
    ensures CanReplicate(AdvanceCommit(WithReport(c, follower, reported)))
  {
    hide AdvanceCommit;
    var c1 := WithReport(c, follower, reported);
    assert forall p :: p in c1.nextIndex ==> c1.nextIndex[p] <= |c1.log| + 1;
    AdvanceKeepsTables(c1);
  }

  lemma SuccessInRange(h: History, c: Core, env: Envelope, trust: Trust)
    requires Before(h, c) && env.rpc.AppendReply? && env.rpc.success && CommitMessage(h, env, trust) && trust.Everyone?
    requires c.role == Leader && env.rpc.term == c.currentTerm
    ensures env.rpc.matchIndex <= |c.log|
  {
    LeaderRole(h, c);
    hide Before;
    ReportInRange(h, c, env.rpc.follower, env.rpc.matchIndex);
  }

  lemma ReplyNeverStops(h: History, c: Core, env: Envelope, trust: Trust)
    requires Before(h, c) && CommitNode(h, c, trust) && env.rpc.AppendReply? && CommitMessage(h, env, trust) && trust.Everyone?
    ensures Receive(c, env).Done?
  {
    hide Before, Safe, AdvanceCommit, CanReplicate, CommitMessage;
    var m := env.rpc;
    if m.term == c.currentTerm && c.role == Leader {
      if m.success {
        SuccessInRange(h, c, env, trust);
        SuccessNeverStops(h, c, m.follower, m.matchIndex, trust);
      } else {
        SlicesInRange(h, c, trust);
      }
    }
  }

  lemma AdvanceKeepsTables(c: Core)
    requires CanReplicate(c)
    ensures CanReplicate(AdvanceCommit(c))
  {
    hide MatchIndices, SortDescending;
    forall i | 0 <= i < |c.peers| ensures CanAppendFor(AdvanceCommit(c), c.peers[i]) {
      assert CanAppendFor(c, c.peers[i]);
    }
  }

  lemma NeverStops(h: History, c: Core, input: Input, trust: Trust)
    requires Before(h, c) && CommitNode(h, c, trust) && Deliverable(h, c, input) && CommitInput(h, input, trust)
    requires trust.Everyone?
    ensures CoreCall(c, input).Done?
  {
    hide Before, MessageInv, Safe, HandleRequestVote, HandleAppendEntries, HandleAppendReply, AdvanceCommit;
    match input {
      case Timeout =>
        if c.role == Leader { SlicesInRange(h, c, trust); }
      case Client(command) =>
        if c.role == Leader {
          SlicesInRange(h, c.(log := c.log + [Entry(c.currentTerm, command)]), trust);
        }
      case Inbound(env) =>
        if env.rpc.AppendReply? { ReplyNeverStops(h, c, env, trust); }
    }
  }

  lemma LeaderRole(h: History, c: Core)
    requires Before(h, c)
    ensures RoleOk(h, c) && (forall a :: a in h.acks ==> AckOk(h, a))
    ensures c.currentTerm in h.logs ==> c.role == Leader ==> h.logs[c.currentTerm] == c.log
    ensures c.role == Leader ==> c.currentTerm >= 1 && c.currentTerm in h.logs && Elected(h, c)
  {
    hide BallotsKeep, ElectionsKeep, AcksKeep, Grounded, Ordered;
    if c.role == Leader {
      assert ElectionOk(h, c.currentTerm);
    }
  }

  // ---------- what is sent ----------

  /** The term's log is this node's, from the one it was elected with, by a majority. */
  ghost predicate Elected(h: History, c: Core) {
    && c.currentTerm in h.elections && c.currentTerm in h.logs && h.logs[c.currentTerm] == c.log
    && h.elections[c.currentTerm].log <= c.log
    && h.elections[c.currentTerm].voters <= h.members
    && |h.elections[c.currentTerm].voters| >= MajorityOf(|h.members|)
  }

  lemma AppendCommitSound(h: History, c: Core, follower: NodeId, trust: Trust)
    requires CommitNode(h, c, trust) && Elected(h, c)
    requires CanAppendFor(c, follower)
    ensures CommitMessage(h, Envelope(c.id, follower, AppendEntriesFor(c, follower)), trust)
  {
  }

  lemma ReplicateCommitSound(h: History, c: Core, trust: Trust)
    requires CommitNode(h, c, trust) && Elected(h, c)
    requires CanReplicate(c)
    ensures AllCommitMessages(h, Replicate(c), trust)
  {
    hide CommitMessage, CommitNode;
    forall e | e in Replicate(c) ensures CommitMessage(h, e, trust) {
      var i :| 0 <= i < |c.peers| && e == Replicate(c)[i];
      AppendCommitSound(h, c, c.peers[i], trust);
    }
  }

  // ---------- the leader commits only what is chosen ----------

  lemma PeersDistinct(c: Core, members: set<NodeId>)
    requires PeersOk(c.id, c.peers, members)
    ensures DistinctPeers(c) && |members| == |c.peers| + 1
  {
  }

  ghost function TrustedMembers(h: History, t: Term, trust: Trust): set<NodeId>
    requires t in h.elections
  {
    if trust.Everyone? then h.members else h.elections[t].voters
  }

  /** What the leader believes of the trusted members' logs, they have put on record. */
  lemma BelievedHold(h: History, c: Core, k: nat, trust: Trust)
    requires Ack(c.currentTerm, c.id, |c.log|) in h.acks && Followers(h, c, trust) && 1 <= k
    ensures Believed(c, k) * TrustedMembers(h, c.currentTerm, trust) <= Holders(h, c.currentTerm, k)
  {
    forall p | p in Believed(c, k) && p in TrustedMembers(h, c.currentTerm, trust) ensures p in Holders(h, c.currentTerm, k) {
      if p == c.id && |c.log| >= k {
        assert Ack(c.currentTerm, c.id, |c.log|).length >= k;
      } else {
        assert Acked(h, c.currentTerm, p, c.matchIndex[p]);
        assert Ack(c.currentTerm, p, c.matchIndex[p]).length >= k;
      }
    }
  }

  /** Of a believed majority, enough are trusted. */
  lemma EnoughHolders(believed: set<NodeId>, trusted: set<NodeId>, members: set<NodeId>, trust: Trust)
    requires believed <= members && trusted <= members && |believed| >= MajorityOf(|members|)
    requires Enough(|members|, trust)
    requires if trust.Everyone? then trusted == members else |trusted| >= MajorityOf(|members|)
    ensures |believed * trusted| + MajorityOf(|members|) > |members|
  {
    SubsetSize(believed + trusted, members);
    assert |believed + trusted| == |believed| + |trusted| - |believed * trusted|;
  }

  lemma BelievedAreMembers(c: Core, k: nat, members: set<NodeId>)
    requires PeersOk(c.id, c.peers, members)
    ensures Believed(c, k) <= members
  {
  }

  lemma PickIsChosen(h: History, c: Core, trust: Trust)
    requires Elected(h, c) && c.currentTerm >= 1 && Enough(|h.members|, trust)
    requires Ack(c.currentTerm, c.id, |c.log|) in h.acks
    requires PeersOk(c.id, c.peers, h.members) && Ordered(c.log, c.currentTerm) && Followers(h, c, trust)
    requires forall a :: a in h.acks ==> AckOk(h, a)
    requires AdvanceCommit(c).commitIndex != c.commitIndex
    ensures Chosen(h, c.currentTerm, AdvanceCommit(c).commitIndex)
    ensures c.commitIndex < AdvanceCommit(c).commitIndex
  {
    PeersDistinct(c, h.members);
    CommitIndexExact(c);
    hide AdvanceCommit, Ordered;
    var k := AdvanceCommit(c).commitIndex;
    assert Committable(c, k);
    BelievedHold(h, c, k, trust);
    BelievedAreMembers(c, k, h.members);
    hide Believed, Holders, Followers, PeersOk;
    var trusted := TrustedMembers(h, c.currentTerm, trust);
    EnoughHolders(Believed(c, k), trusted, h.members, trust);
    SubsetSize(Believed(c, k) * trusted, Holders(h, c.currentTerm, k));
  }

  lemma AdvanceSafe(h: History, c: Core, trust: Trust)
    requires Elected(h, c) && c.currentTerm >= 1 && Enough(|h.members|, trust)
    requires Ack(c.currentTerm, c.id, |c.log|) in h.acks && forall a :: a in h.acks ==> AckOk(h, a)
    requires PeersOk(c.id, c.peers, h.members) && Ordered(c.log, c.currentTerm)
    requires CommitNode(h, c, trust) && c.role == Leader
    ensures CommitNode(h, AdvanceCommit(c), trust)
  {
    hide PeersOk, Ordered, MatchIndices, SortDescending;
    var c' := AdvanceCommit(c);
    if c'.commitIndex != c.commitIndex {
      PickIsChosen(h, c, trust);
      assert Safe(h, c'.log[..c'.commitIndex], c'.currentTerm);
    }
    assert Followers(h, c', trust);
  }

  // ---------- the follower commits only what its leader has ----------

  ghost predicate TruthfulIn(h: History, c: Core, input: Input) {
    input.Inbound? && WouldAccept(c, input.env) ==>
      input.env.rpc.term in h.logs && ReportedLog(c, input.env) <= h.logs[input.env.rpc.term]
  }

  lemma AppendTerm(h: History, env: Envelope)
    requires MessageInv(h, env) && env.rpc.AppendEntries?
    ensures env.rpc.term in h.elections && env.rpc.term in h.logs
  {
  }

  lemma CommittedInLeader(h: History, c: Core, term: Term, trust: Trust)
    requires HistoryInv(h) && CommitNode(h, c, trust) && c.currentTerm <= term && term in h.elections && term in h.logs
    ensures c.log[..c.commitIndex] <= h.logs[term]
  {
    hide HistoryInv, Safe;
    SafeInLeader(h, c.log[..c.commitIndex], c.currentTerm, term);
  }

  /** What a member has committed survives reconciliation with any later leader. */
  lemma CommittedSurvives(h: History, c: Core, env: Envelope, trust: Trust)
    requires Before(h, c) && CommitNode(h, c, trust)
    requires MessageInv(h, env) && env.to == c.id && WouldAccept(c, env)
    ensures c.log[..c.commitIndex] <= ReportedLog(c, env)
  {
    hide HistoryInv, NodeInv, MessageInv, Safe, Reconcile;
    var m := env.rpc;
    AppendTerm(h, env);
    CommittedInLeader(h, c, m.term, trust);
    AppendResult(h, c, env);
    SharedPrefixSurvives(c.log[..c.commitIndex], c.log, h.logs[m.term], m.prevLogIndex + |m.entries|);
  }

  /** The commit index a follower takes over lies within what it was sent. */
  lemma TakenCommitSafe(h: History, c: Core, term: Term, leaderCommit: nat, end: nat, log': seq<Entry>, commit': nat, trust: Trust)
    requires CommitNode(h, c, trust) && c.currentTerm <= term && term in h.logs
    requires leaderCommit <= end <= |h.logs[term]| && Safe(h, h.logs[term][..leaderCommit], term)
    requires h.logs[term][..end] <= log' && c.log[..c.commitIndex] <= log'
    requires commit' == if leaderCommit > c.commitIndex then Min(leaderCommit, |log'|) else c.commitIndex
    ensures c.lastApplied <= commit' <= |log'| && Safe(h, log'[..commit'], term)
  {
    hide Chosen;
    if leaderCommit > c.commitIndex {
      assert log'[..commit'] == h.logs[term][..end][..commit'] == h.logs[term][..leaderCommit];
    } else {
      assert log'[..commit'] == c.log[..c.commitIndex];
      assert Later(h, h);
      SafeGrows(h, h, c.log[..c.commitIndex], c.currentTerm, term);
    }
  }

  lemma FollowerCommits(h: History, c: Core, env: Envelope, trust: Trust)
    requires Before(h, c) && CommitNode(h, c, trust) && CommitMessage(h, env, trust)
    requires MessageInv(h, env) && env.to == c.id && WouldAccept(c, env)
    ensures Receive(c, env).Done? && CommitNode(h, Receive(c, env).core, trust)
  {
    hide HistoryInv, NodeInv, MessageInv, Safe, Reconcile;
    CommittedSurvives(h, c, env, trust);
    AppendResult(h, c, env);
    var m := env.rpc;
    var c' := Receive(c, env).core;
    TakenCommitSafe(h, c, m.term, m.leaderCommit, m.prevLogIndex + |m.entries|, ReportedLog(c, env), c'.commitIndex, trust);
  }

  // ---------- whoever elected a leader reports to it truthfully ----------

  /** A log that starts with the winner's and that the winner's was up to date with is the winner's. */
  lemma NoLongerThanWinner(winner: seq<Entry>, voter: seq<Entry>, term: Term)
    requires winner <= voter && Ordered(voter, term) && UpToDate(|winner|, LastTerm(winner), voter)
    ensures voter == winner
  {
    if winner != [] {
      assert voter[|winner| - 1] == winner[|winner| - 1];
    }
    assert |winner| >= |voter|;
  }

  lemma VotersHoldLeaders(h: History, c: Core, t: Term, end: nat)
    requires HistoryInv(h) && NodeInv(h, c) && t in h.elections && t in h.logs && c.id in h.elections[t].voters
    requires c.currentTerm <= t && |h.elections[t].log| <= end <= |h.logs[t]| && h.logs[t][..end] <= c.log
    ensures c.log <= h.logs[t]
  {
    hide BallotsKeep, ElectionsKeep, Grounded, Ordered, AcksKeep, RoleOk, UpToDate;
    var L, e := h.logs[t], h.elections[t];
    assert ElectionOk(h, t);
    assert BallotOk(h, Seat(t, c.id)) && BallotOk(h, Seat(t, e.leader));
    var b := h.ballots[Seat(t, c.id)];
    if !(c.log <= L) {
      assert c.log == b.log;
      assert e.log == L[..end][..|e.log|];
      NoLongerThanWinner(e.log, b.log, t);
    }
  }

  /**
    A member that voted for the leader of a term holds, and so reports, only what the
    leader has: every append reaches the end of the log the leader was elected with.
  */
  lemma VoterReportsLeaders(h: History, c: Core, env: Envelope)
    requires Before(h, c) && MessageInv(h, env) && env.to == c.id && WouldAccept(c, env)
    requires CommitMessage(h, env, Voters) && c.id in h.elections[env.rpc.term].voters
    ensures ReportedLog(c, env) <= h.logs[env.rpc.term]
  {
    hide HistoryInv, NodeInv, Reconcile, Safe;
    var t, end := env.rpc.term, env.rpc.prevLogIndex + |env.rpc.entries|;
    AppendResult(h, c, env);
    if h.logs[t][..end] <= c.log {
      VotersHoldLeaders(h, c, t, end);
    }
  }

  // ---------- each handler ----------

  /** What must hold of the core and messages a call leaves behind. */
  ghost predicate CommitAfter(h': History, o: Outcome, trust: Trust)
    requires o.Done?
  {
    CommitNode(h', o.core, trust) && AllCommitMessages(h', o.out, trust)
  }

  /** What is known of a completed call before looking at commits. */
  ghost predicate CallDone(h: History, h': History, c: Core, input: Input, trust: Trust) {
    && Before(h, c) && CommitNode(h, c, trust) && Deliverable(h, c, input) && CommitInput(h, input, trust)
    && CoreCall(c, input).Done?
    && Later(h, h')
    && Before(h', CoreCall(c, input).core)
    && Recorded(h', CoreCall(c, input).core)
    && Enough(|h'.members|, trust)
  }

  lemma NewLeaderCommits(h: History, h': History, c: Core, o: Outcome, trust: Trust)
    requires CommitNode(h, c, trust) && Later(h, h') && c.role == Candidate
    requires o == CheckElectionWin(c) && o.Done? && Before(h', o.core)
    ensures CommitAfter(h', o, trust)
  {
    hide HistoryInv, NodeInv;
    var c' := o.core;
    LeaderRole(h', c');
    CommitQuiet(h, h', c, c', trust);
    if c'.role == Leader {
      ReplicateCommitSound(h', c', trust);
    }
  }

  lemma HeartbeatCommits(h: History, h': History, c: Core, c': Core, trust: Trust)
    requires CommitNode(h, c, trust) && Later(h, h') && Before(h', c') && c.role == Leader
    requires c' == c.(heartbeatElapsed := c'.heartbeatElapsed)
    requires CanReplicate(c')
    ensures CommitNode(h', c', trust) && AllCommitMessages(h', Replicate(c'), trust)
  {
    hide HistoryInv, NodeInv, CommitMessage, Safe;
    FollowersLater(h, h', c, c', trust);
    CommitQuiet(h, h', c, c', trust);
    LeaderRole(h', c');
    ReplicateCommitSound(h', c', trust);
  }

  lemma HeartbeatWaits(h: History, h': History, c: Core, c': Core, trust: Trust)
    requires CommitNode(h, c, trust) && Later(h, h') && c.role == Leader
    requires c' == c.(heartbeatElapsed := c'.heartbeatElapsed)
    ensures CommitNode(h', c', trust)
  {
    hide Safe;
    FollowersLater(h, h', c, c', trust);
    CommitQuiet(h, h', c, c', trust);
  }

  lemma TickCommits(h: History, h': History, c: Core, trust: Trust)
    requires CallDone(h, h', c, Timeout, trust)
    ensures CommitAfter(h', CoreCall(c, Timeout), trust)
  {
    hide Before, Recorded, CommitMessage, CommitNode;
    var c' := CoreCall(c, Timeout).core;
    if c.role == Leader {
      if c.heartbeatElapsed + 1 >= c.heartbeatInterval {
        HeartbeatCommits(h, h', c, c', trust);
      } else {
        HeartbeatWaits(h, h', c, c', trust);
      }
    } else {
      TimerCommits(h, h', c, trust);
    }
  }

  lemma TimerCommits(h: History, h': History, c: Core, trust: Trust)
    requires CallDone(h, h', c, Timeout, trust) && c.role != Leader
    ensures CommitAfter(h', CoreCall(c, Timeout), trust)
  {
    hide Before, Recorded, CommitMessage, CommitNode, CheckElectionWin, VoteRequests;
    var c' := CoreCall(c, Timeout).core;
    var c1 := c.(electionElapsed := c.electionElapsed + 1);
    assert Later(h, h);
    if c1.electionElapsed >= c1.electionTimeout {
      var campaigner := Campaigner(c1);
      CommitQuiet(h, h, c, campaigner, trust);
      NewLeaderCommits(h, h', campaigner, CheckElectionWin(campaigner), trust);
      RequestsAreNoCommits(h', campaigner, trust);
    } else {
      CommitQuiet(h, h', c, c', trust);
    }
  }

  lemma RequestsAreNoCommits(h: History, c: Core, trust: Trust)
    ensures AllCommitMessages(h, VoteRequests(c), trust)
  {
    hide CommitMessage;
    forall e | e in VoteRequests(c) ensures CommitMessage(h, e, trust) {
      var i :| 0 <= i < |c.peers| && e == VoteRequests(c)[i];
      NoCommit(h, e, trust);
    }
  }

  lemma NoCommit(h: History, e: Envelope, trust: Trust)
    requires e.rpc.RequestVote? || e.rpc.VoteReply? || (e.rpc.AppendReply? && !e.rpc.success)
    ensures CommitMessage(h, e, trust)
  {
  }

  /** The leader's own tables, with its log put on record, after its commit index moved. */
  lemma AdvancedNode(h': History, c: Core, trust: Trust)
    requires CommitNode(h', c, trust) && c.role == Leader && Enough(|h'.members|, trust)
    requires Before(h', AdvanceCommit(c)) && Recorded(h', AdvanceCommit(c))
    ensures CommitNode(h', AdvanceCommit(c), trust)
  {
    hide AdvanceCommit, Before, CommitNode, Elected, Ordered, Enough;
    var c' := AdvanceCommit(c);
    LeaderRole(h', c');
    AdvanceKeepsLog(c);
    BeforeFacts(h', c');
    AdvanceElected(h', c, c');
    AdvanceSafe(h', c, trust);
  }

  lemma AdvanceKeepsLog(c: Core)
    ensures AdvanceCommit(c) == c.(commitIndex := AdvanceCommit(c).commitIndex)
  {
    hide MatchIndices, SortDescending;
  }

  lemma BeforeFacts(h: History, c: Core)
    requires Before(h, c)
    ensures PeersOk(c.id, c.peers, h.members) && Ordered(c.log, c.currentTerm)
  {
    hide HistoryInv, PeersOk, Ordered;
  }

  lemma AdvanceElected(h: History, c: Core, c': Core)
    requires Elected(h, c') && c' == c.(commitIndex := c'.commitIndex)
    ensures Elected(h, c)
  {
  }

  lemma ProposeCommits(h: History, h': History, c: Core, command: Command, trust: Trust)
    requires CallDone(h, h', c, Client(command), trust)
    ensures CommitAfter(h', CoreCall(c, Client(command)), trust)
  {
    hide HistoryInv, NodeInv, Recorded, CommitMessage, AdvanceCommit;
    if c.role == Leader {
      var c1 := c.(log := c.log + [Entry(c.currentTerm, command)]);
      FollowersLater(h, h', c, c1, trust);
      CommitQuiet(h, h', c, c1, trust);
      if c.peers == [] {
        AdvancedNode(h', c1, trust);
      } else {
        LeaderRole(h', c1);
        ReplicateCommitSound(h', c1, trust);
      }
    } else {
      CommitQuiet(h, h', c, c, trust);
    }
  }

  /** The leader's tables with the new report in them, before it looks at its commit index. */
  lemma ReportCommits(h: History, h': History, c: Core, env: Envelope, trust: Trust)
    requires Before(h, c) && CommitNode(h, c, trust) && CommitMessage(h, env, trust) && Later(h, h')
    requires env.rpc.AppendReply? && env.rpc.success && c.role == Leader && env.rpc.term == c.currentTerm
    ensures CommitNode(h', WithReport(c, env.rpc.follower, env.rpc.matchIndex), trust)
  {
    hide Before, Safe, Elected;
    var m := env.rpc;
    var c1 := WithReport(c, m.follower, m.matchIndex);
    LeaderRole(h, c);
    if trust.Everyone? {
      ReportInRange(h, c, m.follower, m.matchIndex);
    }
    assert Followers(h, c1, trust);
    FollowersLater(h, h', c1, c1, trust);
    CommitQuiet(h, h', c, c1, trust);
  }

  lemma SuccessCommits(h: History, h': History, c: Core, env: Envelope, trust: Trust)
    requires CallDone(h, h', c, Inbound(env), trust) && env.rpc.AppendReply?
    requires c.role == Leader && env.rpc.term == c.currentTerm && env.rpc.success
    ensures CommitAfter(h', CoreCall(c, Inbound(env)), trust)
  {
    hide Before, CommitNode, CommitMessage, Recorded, AdvanceCommit;
    var c' := CoreCall(c, Inbound(env)).core;
    var c1 := WithReport(c, env.rpc.follower, env.rpc.matchIndex);
    ReportCommits(h, h', c, env, trust);
    AdvancedNode(h', c1, trust);
    AdvanceKeepsRole(c1);
    LeaderRole(h', c');
    if c'.commitIndex > c.commitIndex {
      ReplicateCommitSound(h', c', trust);
    }
  }

  lemma AppendReplyCommits(h: History, h': History, c: Core, env: Envelope, trust: Trust)
    requires CallDone(h, h', c, Inbound(env), trust) && env.rpc.AppendReply?
    ensures CommitAfter(h', CoreCall(c, Inbound(env)), trust)
  {
    hide HistoryInv, NodeInv, MessageInv, Recorded, AdvanceCommit, Safe;
    var m := env.rpc;
    var c' := CoreCall(c, Inbound(env)).core;
    if m.term > c.currentTerm || c.role != Leader || m.term != c.currentTerm {
      if c'.role == Leader { FollowersLater(h, h', c, c', trust); }
      CommitQuiet(h, h', c, c', trust);
    } else if m.success {
      SuccessCommits(h, h', c, env, trust);
    } else {
      assert Followers(h', c', trust);
      CommitQuiet(h, h', c, c', trust);
      LeaderRole(h', c');
      AppendCommitSound(h', c', m.follower, trust);
    }
  }

  lemma AdvanceKeepsRole(c: Core)
    ensures AdvanceCommit(c).role == c.role
  {
  }

  lemma AppendEntriesCommits(h: History, h': History, c: Core, env: Envelope, trust: Trust)
    requires CallDone(h, h', c, Inbound(env), trust) && env.rpc.AppendEntries?
    requires trust.Everyone? ==> TruthfulIn(h, c, Inbound(env))
    ensures CommitAfter(h', CoreCall(c, Inbound(env)), trust)
  {
    hide HistoryInv, NodeInv, MessageInv, Safe;
    var m := env.rpc;
    var c' := CoreCall(c, Inbound(env)).core;
    if WouldAccept(c, env) {
      FollowerCommits(h, c, env, trust);
      CommitQuiet(h, h', c', c', trust);
      assert h.logs[m.term] <= h'.logs[m.term];
      if Trusted(h, m.term, c.id, trust) {
        if trust.Voters? {
          VoterReportsLeaders(h, c, env);
        }
        PrefixChain(c'.log, h.logs[m.term], h'.logs[m.term]);
      }
    } else {
      if c'.role == Leader { FollowersLater(h, h', c, c', trust); }
      CommitQuiet(h, h', c, c', trust);
    }
  }

  lemma VotingCommits(h: History, h': History, c: Core, env: Envelope, trust: Trust)
    requires CallDone(h, h', c, Inbound(env), trust) && (env.rpc.RequestVote? || env.rpc.VoteReply?)
    ensures CommitAfter(h', CoreCall(c, Inbound(env)), trust)
  {
    hide HistoryInv, NodeInv, MessageInv, Safe, Recorded;
    var m := env.rpc;
    var c' := CoreCall(c, Inbound(env)).core;
    if m.VoteReply? && m.term == c.currentTerm && c.role == Candidate {
      var c1 := if m.granted then c.(votesReceived := c.votesReceived + {m.voter}) else c;
      CommitQuiet(h, h, c, c1, trust);
      NewLeaderCommits(h, h', c1, CheckElectionWin(c1), trust);
    } else {
      if c'.role == Leader { FollowersLater(h, h', c, c', trust); }
      CommitQuiet(h, h', c, c', trust);
    }
  }

  lemma CallCommits(h: History, h': History, c: Core, input: Input, trust: Trust)
    requires CallDone(h, h', c, input, trust) && (trust.Everyone? ==> TruthfulIn(h, c, input))
    ensures CommitAfter(h', CoreCall(c, input), trust)
  {
    hide CallDone, TruthfulIn, CommitAfter, CoreCall;
    match input {
      case Timeout => TickCommits(h, h', c, trust);
      case Client(command) => ProposeCommits(h, h', c, command, trust);
      case Inbound(env) =>
        match env.rpc {
          case RequestVote(_, _, _, _) => VotingCommits(h, h', c, env, trust);
          case VoteReply(_, _, _) => VotingCommits(h, h', c, env, trust);
          case AppendEntries(_, _, _, _, _, _) => AppendEntriesCommits(h, h', c, env, trust);
          case AppendReply(_, _, _, _) => AppendReplyCommits(h, h', c, env, trust);
        }
    }
  }
}
