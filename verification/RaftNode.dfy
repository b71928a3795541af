/**
  The stateful replication core. Every method is proved to move the object's
  fields exactly as the corresponding function of `Raft` moves a `Core`, and to
  report `None` exactly when the function says the node goes down.
*/
module RaftNode {
  import opened Raft
  import opened Options

  class RaftCore {
    const id: NodeId
    const peers: seq<NodeId>
    var currentTerm: Term
    var votedFor: Option<NodeId>
    var log: seq<Entry>
    var commitIndex: nat
    var lastApplied: nat
    var role: Role
    var votesReceived: set<NodeId>
    var nextIndex: map<NodeId, nat>
    var matchIndex: map<NodeId, nat>
    var electionElapsed: nat
    var electionTimeout: nat
    var heartbeatElapsed: nat
    var heartbeatInterval: nat

    function State(): Core
      reads this
    {
      Core(id, peers, currentTerm, votedFor, log, commitIndex, lastApplied, role, votesReceived,
           nextIndex, matchIndex, electionElapsed, electionTimeout, heartbeatElapsed, heartbeatInterval)
    }

    /** The object ended up where `o` says, having handed out the messages of `o`. */
    ghost predicate Reached(o: Outcome, out: Option<seq<Envelope>>)
      reads this
    {
      match o
      case Stopped => out == None
      case Done(c, msgs) => out == Some(msgs) && State() == c
    }

    constructor (id: NodeId, peers: seq<NodeId>, electionTimeout: nat, heartbeatInterval: nat,
                 disk: Persisted)
      ensures State() == Restore(id, peers, electionTimeout, heartbeatInterval, disk)
    {
      this.id, this.peers := id, peers;
      currentTerm, votedFor, log := disk.currentTerm, disk.votedFor, disk.log;
      commitIndex, lastApplied, role, votesReceived := 0, 0, Follower, {};
      nextIndex, matchIndex := map[], map[];
      electionElapsed, heartbeatElapsed := 0, 0;
      this.electionTimeout, this.heartbeatInterval := electionTimeout, heartbeatInterval;
    }

    method StepDown(term: Term)
      modifies this
      ensures State() == BecomeFollower(old(State()), term)
    {
      if term > currentTerm {
        currentTerm := term;
        votedFor := None;
      }
      role := Follower;
      electionElapsed := 0;
    }

    method ReplicateToAllPeers() returns (msgs: Option<seq<Envelope>>)
      ensures msgs == if CanReplicate(State()) then Some(Replicate(State())) else None
    {
      var out := [];
      for i := 0 to |peers|
        invariant |out| == i
        invariant forall j :: 0 <= j < i ==> CanAppendFor(State(), peers[j])
        invariant forall j :: 0 <= j < i ==>
          out[j] == Envelope(id, peers[j], AppendEntriesFor(State(), peers[j]))
      {
        var rpc := MakeAppendEntries(peers[i]);
        if rpc == None {
          return None;
        }
        out := out + [Envelope(id, peers[i], rpc.value)];
      }
      assert out == Replicate(State());
      msgs := Some(out);
    }

    method MakeAppendEntries(follower: NodeId) returns (rpc: Option<Rpc>)
      ensures rpc == if CanAppendFor(State(), follower)
                     then Some(AppendEntriesFor(State(), follower)) else None
    {
      var next := if follower in nextIndex then nextIndex[follower] else |log| + 1;
      var prev := if next == 0 then 0 else next - 1;
      if prev > |log| {
        return None;
      }
      rpc := Some(AppendEntries(currentTerm, id, prev, TermAt(log, prev), log[prev..], commitIndex));
    }

    method TakeLead()
      modifies this
      ensures State() == BecomeLeader(old(State()))
    {
      role := Leader;
      nextIndex := map p | p in peers :: |log| + 1;
      matchIndex := map p | p in peers :: 0;
      heartbeatElapsed := 0;
    }

    method WinIfElected() returns (msgs: Option<seq<Envelope>>)
      modifies this
      ensures Reached(CheckElectionWin(old(State())), msgs)
    {
      hide CanReplicate, Replicate, BecomeLeader, MajorityOf;
      if role != Candidate {
        return Some([]);
      }
      var majority := MajorityOf(|peers| + 1);
      if |votesReceived| >= majority {
        TakeLead();
        msgs := ReplicateToAllPeers();
      } else {
        msgs := Some([]);
      }
    }

    method Campaign() returns (msgs: Option<seq<Envelope>>)
      modifies this
      ensures Reached(StartElection(old(State())), msgs)
    {
      hide CheckElectionWin, VoteRequests;
      role := Candidate;
      currentTerm := currentTerm + 1;
      votedFor := Some(id);
      votesReceived := {id};
      electionElapsed := 0;
      var requests := VoteRequests(State());
      var more := WinIfElected();
      msgs := if more == None then None else Some(requests + more.value);
    }

    method Tick() returns (msgs: Option<seq<Envelope>>)
      modifies this
      ensures Reached(Raft.Tick(old(State())), msgs)
    {
      if role == Leader {
        heartbeatElapsed := heartbeatElapsed + 1;
        if heartbeatElapsed >= heartbeatInterval {
          heartbeatElapsed := 0;
          msgs := ReplicateToAllPeers();
        } else {
          msgs := Some([]);
        }
      } else {
        electionElapsed := electionElapsed + 1;
        if electionElapsed >= electionTimeout {
          msgs := Campaign();
        } else {
          msgs := Some([]);
        }
      }
    }

    method AdvanceCommitIndex()
      modifies this
      ensures State() == AdvanceCommit(old(State()))
    {
      var sorted := SortDescending(MatchIndices(State()));
      SortDescendingLength(MatchIndices(State()));
      var candidate := sorted[MajorityOf(|sorted|) - 1];
      if candidate > commitIndex && TermAt(log, candidate) == currentTerm {
        commitIndex := candidate;
      }
    }

    /** A refusal leaves the object as it was. */
    method Propose(command: Command) returns (index: Option<nat>, msgs: Option<seq<Envelope>>)
      modifies this
      ensures match Raft.Propose(old(State()), command)
              case NotLeader => index == None && msgs == Some([]) && State() == old(State())
              case Accepted(i, o) => index == Some(i) && Reached(o, msgs)
    {
      if role != Leader {
        return None, Some([]);
      }
      log := log + [Entry(currentTerm, command)];
      index := Some(|log|);
      if peers == [] {
        AdvanceCommitIndex();
        msgs := Some([]);
      } else {
        msgs := ReplicateToAllPeers();
      }
    }

    method OnRequestVote(term: Term, candidate: NodeId, lastLogIndex: nat, lastLogTerm: Term)
      returns (granted: bool)
      modifies this
      ensures (State(), granted)
              == HandleRequestVote(old(State()), term, candidate, lastLogIndex, lastLogTerm)
    {
      if term > currentTerm {
        StepDown(term);
      }
      granted := false;
      if term == currentTerm && (votedFor == None || votedFor == Some(candidate))
         && UpToDate(lastLogIndex, lastLogTerm, log) {
        votedFor := Some(candidate);
        granted := true;
        electionElapsed := 0;
      }
    }

    method OnVoteReply(term: Term, granted: bool, voter: NodeId) returns (msgs: Option<seq<Envelope>>)
      modifies this
      ensures Reached(HandleVoteReply(old(State()), term, granted, voter), msgs)
    {
      if term > currentTerm {
        StepDown(term);
        return Some([]);
      }
      if role != Candidate || term != currentTerm {
        return Some([]);
      }
      if granted {
        votesReceived := votesReceived + {voter};
      }
      msgs := WinIfElected();
    }

    method OnAppendEntries(term: Term, prev: nat, prevTerm: Term, entries: seq<Entry>, leaderCommit: nat)
      returns (success: bool, reported: nat)
      modifies this
      ensures (State(), success, reported)
              == HandleAppendEntries(old(State()), term, prev, prevTerm, entries, leaderCommit)
    {
      if term < currentTerm {
        return false, 0;
      }
      StepDown(term);
      if prev > 0 && (prev > |log| || TermAt(log, prev) != prevTerm) {
        return false, 0;
      }
      ghost var before := State();
      ghost var goal := Reconcile(log, prev, entries);
      for i := 0 to |entries|
        invariant prev + i <= |log|
        invariant Reconcile(log, prev + i, entries[i..]) == goal
        invariant State() == before.(log := log)
      {
        var index := prev + 1 + i;
        assert entries[i..][1..] == entries[i + 1..];
        if index <= |log| {
          if TermAt(log, index) != entries[i].term {
            log := log[..index - 1];
            log := log + [entries[i]];
          }
        } else {
          assert log[..prev + i] == log;
          log := log + [entries[i]];
        }
      }
      if leaderCommit > commitIndex {
        commitIndex := Min(leaderCommit, |log|);
      }
      return true, |log|;
    }

    method OnAppendReply(term: Term, success: bool, reported: nat, follower: NodeId)
      returns (msgs: Option<seq<Envelope>>)
      modifies this
      ensures Reached(HandleAppendReply(old(State()), term, success, reported, follower), msgs)
    {
      if term > currentTerm {
        StepDown(term);
        return Some([]);
      }
      if role != Leader || term != currentTerm {
        return Some([]);
      }
      if success {
        matchIndex := matchIndex[follower := reported];
        nextIndex := nextIndex[follower := reported + 1];
        var previousCommit := commitIndex;
        AdvanceCommitIndex();
        if commitIndex > previousCommit {
          msgs := ReplicateToAllPeers();
        } else {
          msgs := Some([]);
        }
      } else {
        var next := if follower in nextIndex then nextIndex[follower] else |log| + 1;
        nextIndex := nextIndex[follower := if next > 1 then next - 1 else next];
        var rpc := MakeAppendEntries(follower);
        msgs := if rpc == None then None else Some([Envelope(id, follower, rpc.value)]);
      }
    }

    method Receive(env: Envelope) returns (msgs: Option<seq<Envelope>>)
      modifies this
      ensures Reached(Raft.Receive(old(State()), env), msgs)
    {
      match env.rpc
      case RequestVote(term, candidate, lastLogIndex, lastLogTerm) =>
        var granted := OnRequestVote(term, candidate, lastLogIndex, lastLogTerm);
        msgs := Some([Envelope(id, env.from, VoteReply(currentTerm, granted, id))]);
      case VoteReply(term, granted, voter) =>
        msgs := OnVoteReply(term, granted, voter);
      case AppendEntries(term, leader, prev, prevTerm, entries, leaderCommit) =>
        var success, reported := OnAppendEntries(term, prev, prevTerm, entries, leaderCommit);
        msgs := Some([Envelope(id, env.from, AppendReply(currentTerm, success, reported, id))]);
      case AppendReply(term, success, reported, follower) =>
        msgs := OnAppendReply(term, success, reported, follower);
    }

    method TakeNewlyCommitted() returns (out: Option<seq<Entry>>)
      modifies this
      ensures if CanDrain(old(State()))
              then out == Some(Drained(old(State()))) && State() == AfterDrain(old(State()))
              else out == None
    {
      var taken := [];
      while lastApplied < commitIndex
        invariant old(lastApplied) <= lastApplied
        invariant lastApplied == old(lastApplied) || lastApplied <= commitIndex
        invariant lastApplied == old(lastApplied) || lastApplied <= |log|
        invariant taken == if old(lastApplied) < lastApplied then log[old(lastApplied)..lastApplied] else []
        invariant State() == old(State()).(lastApplied := lastApplied)
      {
        if lastApplied >= |log| {
          return None;
        }
        taken := taken + [log[lastApplied]];
        lastApplied := lastApplied + 1;
      }
      out := Some(taken);
    }
  }
}
