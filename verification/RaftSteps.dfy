/**
  Every handler of a node, fed any message the cluster may hold, keeps the
  invariants of the node, of the history and of every message it sends.
*/
module RaftSteps {
  import opened Raft
  import opened Options
  import opened RaftCluster
  import opened RaftHistory
  import opened RaftInvariance

  // ---------- what a leader or candidate sends ----------

  lemma AppendSound(h: History, c: Core, follower: NodeId)
    requires NodeInv(h, c) && c.role == Leader && follower in h.members && follower != c.id
    requires CanAppendFor(c, follower)
    ensures MessageInv(h, Envelope(c.id, follower, AppendEntriesFor(c, follower)))
  {
    var prev := PrevIndexFor(c, follower);
    assert c.log[prev..] == c.log[prev..prev + |c.log[prev..]|];
  }

  ghost predicate AllSound(h: History, out: seq<Envelope>) {
    forall e :: e in out ==> MessageInv(h, e)
  }

  lemma ReplicateSound(h: History, c: Core)
    requires NodeInv(h, c) && c.role == Leader && PeersOk(c.id, c.peers, h.members) && CanReplicate(c)
    ensures AllSound(h, Replicate(c))
  {
    hide NodeInv;
    forall e | e in Replicate(c) ensures MessageInv(h, e) {
      var i :| 0 <= i < |c.peers| && e == Replicate(c)[i];
      assert c.peers[i] in c.peers;
      AppendSound(h, c, c.peers[i]);
    }
  }

  lemma RequestsSound(h: History, c: Core)
    requires NodeInv(h, c) && c.role == Candidate && PeersOk(c.id, c.peers, h.members)
    ensures AllSound(h, VoteRequests(c))
  {
    forall e | e in VoteRequests(c) ensures MessageInv(h, e) {
      var i :| 0 <= i < |c.peers| && e == VoteRequests(c)[i];
      assert c.peers[i] in c.peers;
    }
  }

  lemma SoundGrows(h: History, h': History, n: NodeId, out: seq<Envelope>)
    requires AllSound(h, out) && Extends(h, h', n)
    ensures AllSound(h', out)
  {
    forall e | e in out ensures MessageInv(h', e) {
      MessageUndisturbed(h, h', n, e);
    }
  }

  // ---------- what a handler call must establish ----------

  ghost predicate Before(h: History, c: Core) {
    HistoryInv(h) && NodeInv(h, c) && PeersOk(c.id, c.peers, h.members)
  }

  ghost predicate After(h: History, h': History, c: Core, c': Core, out: seq<Envelope>) {
    && HistoryInv(h') && Extends(h, h', c.id)
    && NodeInv(h', c') && c'.id == c.id && c'.peers == c.peers
    && AllSound(h', out)
  }

  lemma QuietAfter(h: History, c: Core, c': Core)
    requires Before(h, c) && Quiet(c, c') && c'.peers == c.peers
    ensures Before(h, c') && After(h, h, c, c', [])
  {
    QuietKeeps(h, c, c');
  }

  lemma BroadcastAfter(h: History, c: Core, c': Core)
    requires Before(h, c) && Quiet(c, c') && c'.peers == c.peers && c'.role == Leader
    requires CanReplicate(c')
    ensures After(h, h, c, c', Replicate(c'))
  {
    QuietKeeps(h, c, c');
    ReplicateSound(h, c');
  }

  lemma ElectionCheckKeeps(h: History, c: Core) returns (h': History)
    requires Before(h, c) && CheckElectionWin(c).Done?
    ensures After(h, h', c, CheckElectionWin(c).core, CheckElectionWin(c).out)
  {
    if c.role == Candidate && |c.votesReceived| >= MajorityOf(|c.peers| + 1) {
      h' := Wins(h, c);
      hide HistoryInv, Extends;
      ReplicateSound(h', BecomeLeader(c));
    } else {
      h' := h;
    }
  }

  lemma TickKeeps(h: History, c: Core) returns (h': History)
    requires Before(h, c) && Tick(c).Done?
    ensures After(h, h', c, Tick(c).core, Tick(c).out)
  {
    hide HistoryInv, NodeInv, Extends, MessageInv;
    if c.role == Leader {
      var c' := c.(heartbeatElapsed := c.heartbeatElapsed + 1);
      if c'.heartbeatElapsed >= c'.heartbeatInterval {
        BroadcastAfter(h, c, c'.(heartbeatElapsed := 0));
      } else {
        QuietAfter(h, c, c');
      }
      h' := h;
    } else {
      var c' := c.(electionElapsed := c.electionElapsed + 1);
      QuietAfter(h, c, c');
      if c'.electionElapsed >= c'.electionTimeout {
        h' := CampaignKeeps(h, c');
      } else {
        h' := h;
      }
    }
  }

  lemma CampaignKeeps(h: History, c: Core) returns (h': History)
    requires Before(h, c) && StartElection(c).Done?
    ensures After(h, h', c, StartElection(c).core, StartElection(c).out)
  {
    hide HistoryInv, NodeInv, Extends, MessageInv;
    var c' := Campaigner(c);
    var h1 := Campaigns(h, c);
    assert h1.members == h.members by { SameMembers(h, h1, c.id); }
    h' := ElectionCheckKeeps(h1, c');
    ExtendsTransitive(h, h1, h', c.id);
    RequestsSound(h1, c');
    SoundGrows(h1, h', c.id, VoteRequests(c'));
  }

  lemma SameMembers(h: History, h': History, n: NodeId)
    requires Extends(h, h', n)
    ensures h'.members == h.members
  {
  }

  lemma ProposeKeeps(h: History, c: Core, command: Command) returns (h': History)
    requires Before(h, c) && CoreCall(c, Client(command)).Done?
    ensures var o := CoreCall(c, Client(command)); After(h, h', c, o.core, o.out)
  {
    hide HistoryInv, NodeInv, Extends, MessageInv;
    if c.role == Leader {
      var c' := c.(log := c.log + [Entry(c.currentTerm, command)]);
      h' := Proposes(h, c, command);
      assert h'.members == h.members by { SameMembers(h, h', c.id); }
      if c.peers == [] {
        QuietKeeps(h', c', AdvanceCommit(c'));
      } else {
        ReplicateSound(h', c');
      }
    } else {
      QuietAfter(h, c, c);
      h' := h;
    }
  }

  // ---------- incoming messages ----------

  lemma VoteReplySound(h: History, c: Core, to: NodeId, granted: bool)
    requires NodeInv(h, c) && to in h.members && (granted ==> c.votedFor == Some(to))
    ensures MessageInv(h, Envelope(c.id, to, VoteReply(c.currentTerm, granted, c.id)))
  {
  }

  lemma FirstVote(h: History, c: Core, env: Envelope) returns (h': History)
    requires Before(h, c) && MessageInv(h, env) && env.to == c.id && env.rpc.RequestVote?
    requires var m := env.rpc; WouldGrant(c, m.term, m.candidate, m.lastLogIndex, m.lastLogTerm)
    requires c.votedFor == None
    ensures HistoryInv(h') && Extends(h, h', c.id)
    ensures NodeInv(h', c.(votedFor := Some(env.rpc.candidate)))
  {
    hide AcksKeep, BallotsKeep, ElectionsKeep, Grounded, Ordered;
    var m := env.rpc;
    assert c.role == Follower;
    assert m.term >= 1 by { assert BallotOk(h, Seat(m.term, m.candidate)); }
    h' := Votes(h, c, m.candidate);
  }

  lemma GrantKeeps(h: History, c: Core, env: Envelope) returns (h': History)
    requires Before(h, c) && MessageInv(h, env) && env.to == c.id && env.rpc.RequestVote?
    requires var m := env.rpc; WouldGrant(c, m.term, m.candidate, m.lastLogIndex, m.lastLogTerm)
    ensures var c' := c.(votedFor := Some(env.rpc.candidate), electionElapsed := 0);
            After(h, h', c, c', [Envelope(c.id, env.from, VoteReply(c'.currentTerm, true, c.id))])
  {
    hide HistoryInv, NodeInv, Extends;
    var c1 := c.(votedFor := Some(env.rpc.candidate));
    var c2 := c1.(electionElapsed := 0);
    if c.votedFor == None {
      h' := FirstVote(h, c, env);
      SameMembers(h, h', c.id);
      QuietAfter(h', c1, c2);
    } else {
      h' := h;
      QuietAfter(h, c, c2);
    }
    VoteReplySound(h', c2, env.from, true);
  }

  lemma RequestVoteKeeps(h: History, c: Core, env: Envelope) returns (h': History)
    requires Before(h, c) && MessageInv(h, env) && env.to == c.id && env.rpc.RequestVote?
    ensures var o := Receive(c, env); After(h, h', c, o.core, o.out)
  {
    hide HistoryInv, NodeInv, Extends;
    var m := env.rpc;
    var c1 := if m.term > c.currentTerm then BecomeFollower(c, m.term) else c;
    QuietAfter(h, c, c1);
    if WouldGrant(c1, m.term, m.candidate, m.lastLogIndex, m.lastLogTerm) {
      h' := GrantKeeps(h, c1, env);
    } else {
      h' := h;
      VoteReplySound(h, c1, env.from, false);
    }
  }

  lemma VoteReplyKeeps(h: History, c: Core, env: Envelope) returns (h': History)
    requires Before(h, c) && MessageInv(h, env) && env.to == c.id && env.rpc.VoteReply?
    requires Receive(c, env).Done?
    ensures var o := Receive(c, env); After(h, h', c, o.core, o.out)
  {
    hide HistoryInv, NodeInv, Extends;
    var m := env.rpc;
    if m.term > c.currentTerm {
      QuietAfter(h, c, BecomeFollower(c, m.term));
      h' := h;
    } else if c.role != Candidate || m.term != c.currentTerm {
      QuietAfter(h, c, c);
      h' := h;
    } else {
      if m.granted {
        CountsVote(h, c, m.voter);
        h' := ElectionCheckKeeps(h, c.(votesReceived := c.votesReceived + {m.voter}));
      } else {
        h' := ElectionCheckKeeps(h, c);
      }
    }
  }

  /** An accepted append leaves the follower with its own longer log or exactly the leader's prefix. */
  lemma AppendResult(h: History, c: Core, env: Envelope)
    requires HistoryInv(h) && NodeInv(h, c) && MessageInv(h, env) && env.to == c.id && env.rpc.AppendEntries?
    requires env.rpc.term >= c.currentTerm
    requires PrevMatches(c.log, env.rpc.prevLogIndex, env.rpc.prevLogTerm)
    ensures var m := env.rpc;
            var c1 := BecomeFollower(c, m.term);
            var L, end := h.logs[m.term], m.prevLogIndex + |m.entries|;
            var log' := if L[..end] <= c.log then c.log else L[..end];
            && end <= |L|
            && Reconcile(c.log, m.prevLogIndex, m.entries) == log'
            && NodeInv(h, c1.(log := log'))
  {
    hide HistoryInv, NodeInv;
    var m := env.rpc;
    var c1 := BecomeFollower(c, m.term);
    QuietKeeps(h, c, c1);
    Accepts(h, c1, m.prevLogIndex, m.prevLogIndex + |m.entries|);
  }

  lemma AppendEntriesNode(h: History, c: Core, env: Envelope)
    requires Before(h, c) && MessageInv(h, env) && env.to == c.id && env.rpc.AppendEntries?
    ensures var c' := Receive(c, env).core; NodeInv(h, c') && c'.id == c.id && c'.peers == c.peers
  {
    hide HistoryInv, NodeInv, MessageInv, Reconcile;
    var m := env.rpc;
    var c' := Receive(c, env).core;
    if m.term < c.currentTerm || !PrevMatches(c.log, m.prevLogIndex, m.prevLogTerm) {
      QuietKeeps(h, c, c');
    } else {
      AppendResult(h, c, env);
      var log' := Reconcile(c.log, m.prevLogIndex, m.entries);
      QuietKeeps(h, BecomeFollower(c, m.term).(log := log'), c');
    }
  }

  lemma AppendEntriesKeeps(h: History, c: Core, env: Envelope) returns (h': History)
    requires Before(h, c) && MessageInv(h, env) && env.to == c.id && env.rpc.AppendEntries?
    ensures var o := Receive(c, env); After(h, h', c, o.core, o.out)
  {
    hide HistoryInv, NodeInv, Extends, HandleAppendEntries;
    AppendEntriesNode(h, c, env);
    QuietAfter(h, c, c);
    LeaderIsAnother(h, env);
    h' := h;
  }

  lemma LeaderIsAnother(h: History, env: Envelope)
    requires MessageInv(h, env) && env.rpc.AppendEntries?
    ensures env.from in h.members && env.from != env.to
  {
  }

  lemma AppendReplyKeeps(h: History, c: Core, env: Envelope)
    requires Before(h, c) && MessageInv(h, env) && env.to == c.id && env.rpc.AppendReply?
    requires Receive(c, env).Done?
    ensures var o := Receive(c, env); After(h, h, c, o.core, o.out)
  {
    hide HistoryInv, NodeInv, Extends;
    var m := env.rpc;
    var c' := Receive(c, env).core;
    QuietAfter(h, c, c');
    if m.term > c.currentTerm || c.role != Leader || m.term != c.currentTerm {
    } else if m.success {
      if c'.commitIndex > c.commitIndex {
        ReplicateSound(h, c');
      }
    } else {
      AppendSound(h, c', m.follower);
    }
  }

  lemma ReceiveKeeps(h: History, c: Core, env: Envelope) returns (h': History)
    requires Before(h, c) && MessageInv(h, env) && env.to == c.id && Receive(c, env).Done?
    ensures var o := Receive(c, env); After(h, h', c, o.core, o.out)
  {
    hide HistoryInv, NodeInv, Extends, MessageInv, Receive;
    match env.rpc
    case RequestVote(_, _, _, _) => h' := RequestVoteKeeps(h, c, env);
    case VoteReply(_, _, _) => h' := VoteReplyKeeps(h, c, env);
    case AppendEntries(_, _, _, _, _, _) => h' := AppendEntriesKeeps(h, c, env);
    case AppendReply(_, _, _, _) => AppendReplyKeeps(h, c, env); h' := h;
  }

  /** Inputs a running node can be given. */
  ghost predicate Deliverable(h: History, c: Core, input: Input) {
    input.Inbound? ==> MessageInv(h, input.env) && input.env.to == c.id
  }

  /** One call into the core, with the node's holdings put on record afterwards. */
  lemma CallKeeps(h: History, c: Core, input: Input) returns (h': History)
    requires Before(h, c) && Deliverable(h, c, input) && CoreCall(c, input).Done?
    ensures var o := CoreCall(c, input); After(h, h', c, o.core, o.out) && Recorded(h', o.core)
  {
    hide HistoryInv, NodeInv, Extends, MessageInv, Receive, Tick, Recorded;
    var h1;
    match input {
      case Timeout => h1 := TickKeeps(h, c);
      case Inbound(env) => h1 := ReceiveKeeps(h, c, env);
      case Client(command) => h1 := ProposeKeeps(h, c, command);
    }
    var o := CoreCall(c, input);
    h' := Acknowledges(h1, o.core);
    ExtendsTransitive(h, h1, h', c.id);
    SoundGrows(h1, h', c.id, o.out);
  }
}
