/**
  The replication core as pure data: messages, node state, and one function per
  handler. `RaftNode` (the stateful object) is proved to compute exactly these
  functions; the cluster and every safety proof are stated over them.
*/
module Raft {
  import opened Options

  type NodeId = nat
  type Term = nat

  datatype Role = Follower | Candidate | Leader

  /** What the store applies: an upsert of an entity or its removal. */
  datatype Command = Insert(id: nat, payload: seq<nat>) | Delete(id: nat)

  datatype Entry = Entry(term: Term, command: Command)

  datatype Rpc =
    | RequestVote(term: Term, candidate: NodeId, lastLogIndex: nat, lastLogTerm: Term)
    | VoteReply(term: Term, granted: bool, voter: NodeId)
    | AppendEntries(term: Term, leader: NodeId, prevLogIndex: nat, prevLogTerm: Term,
                    entries: seq<Entry>, leaderCommit: nat)
    | AppendReply(term: Term, success: bool, matchIndex: nat, follower: NodeId)

  datatype Envelope = Envelope(from: NodeId, to: NodeId, rpc: Rpc)

  datatype Core = Core(
    id: NodeId,
    peers: seq<NodeId>,
    currentTerm: Term,
    votedFor: Option<NodeId>,
    log: seq<Entry>,
    commitIndex: nat,
    lastApplied: nat,
    role: Role,
    votesReceived: set<NodeId>,
    nextIndex: map<NodeId, nat>,
    matchIndex: map<NodeId, nat>,
    electionElapsed: nat,
    electionTimeout: nat,
    heartbeatElapsed: nat,
    heartbeatInterval: nat)

  /** A handler either finishes, or slices past the end of the log and takes the node down. */
  datatype Outcome = Stopped | Done(core: Core, out: seq<Envelope>)

  datatype Persisted = Persisted(currentTerm: Term, votedFor: Option<NodeId>, log: seq<Entry>)

  function New(id: NodeId, peers: seq<NodeId>, electionTimeout: nat, heartbeatInterval: nat): Core {
    Core(id, peers, 0, None, [], 0, 0, Follower, {}, map[], map[],
         0, electionTimeout, 0, heartbeatInterval)
  }

  function Restore(id: NodeId, peers: seq<NodeId>, electionTimeout: nat, heartbeatInterval: nat,
                   disk: Persisted): Core
  {
    New(id, peers, electionTimeout, heartbeatInterval)
      .(currentTerm := disk.currentTerm, votedFor := disk.votedFor, log := disk.log)
  }

  function PersistentState(c: Core): Persisted {
    Persisted(c.currentTerm, c.votedFor, c.log)
  }

  function LastTerm(log: seq<Entry>): Term {
    if |log| == 0 then 0 else log[|log| - 1].term
  }

  /** Log indices are 1-based; index 0 and indices past the end have term 0. */
  function TermAt(log: seq<Entry>, index: nat): Term {
    if index == 0 || index > |log| then 0 else log[index - 1].term
  }

  function BecomeFollower(c: Core, term: Term): Core {
    var c' := if term > c.currentTerm then c.(currentTerm := term, votedFor := None) else c;
    c'.(role := Follower, electionElapsed := 0)
  }

  function BecomeLeader(c: Core): Core {
    c.(role := Leader,
       nextIndex := map p | p in c.peers :: |c.log| + 1,
       matchIndex := map p | p in c.peers :: 0,
       heartbeatElapsed := 0)
  }

  function NextIndexFor(c: Core, follower: NodeId): nat {
    if follower in c.nextIndex then c.nextIndex[follower] else |c.log| + 1
  }

  function PrevIndexFor(c: Core, follower: NodeId): nat {
    var next := NextIndexFor(c, follower);
    if next == 0 then 0 else next - 1
  }

  /** The slice taken for a follower is in range. */
  predicate CanAppendFor(c: Core, follower: NodeId) {
    PrevIndexFor(c, follower) <= |c.log|
  }

  function AppendEntriesFor(c: Core, follower: NodeId): Rpc
    requires CanAppendFor(c, follower)
  {
    var prev := PrevIndexFor(c, follower);
    AppendEntries(c.currentTerm, c.id, prev, TermAt(c.log, prev), c.log[prev..], c.commitIndex)
  }

  predicate CanReplicate(c: Core) {
    forall i :: 0 <= i < |c.peers| ==> CanAppendFor(c, c.peers[i])
  }

  function Replicate(c: Core): seq<Envelope>
    requires CanReplicate(c)
  {
    seq(|c.peers|, i requires 0 <= i < |c.peers| =>
      Envelope(c.id, c.peers[i], AppendEntriesFor(c, c.peers[i])))
  }

  function Broadcast(c: Core): Outcome {
    if CanReplicate(c) then Done(c, Replicate(c)) else Stopped
  }

  function MajorityOf(total: nat): nat { total / 2 + 1 }

  function CheckElectionWin(c: Core): Outcome {
    if c.role == Candidate && |c.votesReceived| >= MajorityOf(|c.peers| + 1)
    then Broadcast(BecomeLeader(c))
    else Done(c, [])
  }

  function VoteRequests(c: Core): seq<Envelope> {
    seq(|c.peers|, i requires 0 <= i < |c.peers| =>
      Envelope(c.id, c.peers[i], RequestVote(c.currentTerm, c.id, |c.log|, LastTerm(c.log))))
  }

  /** The candidate that an expired election timer produces, before any vote is counted. */
  function Campaigner(c: Core): Core {
    c.(role := Candidate, currentTerm := c.currentTerm + 1, votedFor := Some(c.id),
       votesReceived := {c.id}, electionElapsed := 0)
  }

  function StartElection(c: Core): Outcome {
    var c' := Campaigner(c);
    match CheckElectionWin(c')
    case Stopped => Stopped
    case Done(c'', more) => Done(c'', VoteRequests(c') + more)
  }

  function Tick(c: Core): Outcome {
    if c.role == Leader then
      var c' := c.(heartbeatElapsed := c.heartbeatElapsed + 1);
      if c'.heartbeatElapsed >= c'.heartbeatInterval
      then Broadcast(c'.(heartbeatElapsed := 0))
      else Done(c', [])
    else
      var c' := c.(electionElapsed := c.electionElapsed + 1);
      if c'.electionElapsed >= c'.electionTimeout then StartElection(c') else Done(c', [])
  }

  /** Insert into a descending sequence, keeping it descending. */
  function InsertDescending(x: nat, s: seq<nat>): seq<nat> {
    if s == [] || x >= s[0] then [x] + s else [s[0]] + InsertDescending(x, s[1..])
  }

  function SortDescending(s: seq<nat>): (r: seq<nat>)
  {
    if s == [] then [] else InsertDescending(s[0], SortDescending(s[1..]))
  }

  function MatchOf(c: Core, p: NodeId): nat {
    if p in c.matchIndex then c.matchIndex[p] else 0
  }

  function MatchesOf(c: Core, ps: seq<NodeId>): seq<nat> {
    seq(|ps|, i requires 0 <= i < |ps| => MatchOf(c, ps[i]))
  }

  /** What each member is believed to hold, the leader itself last. */
  function MatchIndices(c: Core): seq<nat> {
    MatchesOf(c, c.peers) + [|c.log|]
  }

  function AdvanceCommit(c: Core): Core {
    var sorted := SortDescending(MatchIndices(c));
    SortDescendingLength(MatchIndices(c));
    var candidate := sorted[MajorityOf(|sorted|) - 1];
    if candidate > c.commitIndex && TermAt(c.log, candidate) == c.currentTerm
    then c.(commitIndex := candidate)
    else c
  }

  datatype Proposal = NotLeader | Accepted(index: nat, outcome: Outcome)

  function Propose(c: Core, command: Command): Proposal {
    if c.role != Leader then NotLeader else
    var c' := c.(log := c.log + [Entry(c.currentTerm, command)]);
    Accepted(|c'.log|, if c.peers == [] then Done(AdvanceCommit(c'), []) else Broadcast(c'))
  }

  /** Section 5.4.1 of the Raft paper: later last term, or same last term and at least as long. */
  predicate UpToDate(lastLogIndex: nat, lastLogTerm: Term, log: seq<Entry>) {
    lastLogTerm > LastTerm(log) || (lastLogTerm == LastTerm(log) && lastLogIndex >= |log|)
  }

  predicate WouldGrant(c: Core, term: Term, candidate: NodeId, lastLogIndex: nat, lastLogTerm: Term) {
    && term == c.currentTerm
    && (c.votedFor == None || c.votedFor == Some(candidate))
    && UpToDate(lastLogIndex, lastLogTerm, c.log)
  }

  function HandleRequestVote(c: Core, term: Term, candidate: NodeId,
                             lastLogIndex: nat, lastLogTerm: Term): (Core, bool)
  {
    var c' := if term > c.currentTerm then BecomeFollower(c, term) else c;
    if WouldGrant(c', term, candidate, lastLogIndex, lastLogTerm)
    then (c'.(votedFor := Some(candidate), electionElapsed := 0), true)
    else (c', false)
  }

  function HandleVoteReply(c: Core, term: Term, granted: bool, voter: NodeId): Outcome {
    if term > c.currentTerm then Done(BecomeFollower(c, term), [])
    else if c.role != Candidate || term != c.currentTerm then Done(c, [])
    else CheckElectionWin(if granted then c.(votesReceived := c.votesReceived + {voter}) else c)
  }

  /** The follower's loop over received entries, one entry at a time. */
  function Reconcile(log: seq<Entry>, prev: nat, entries: seq<Entry>): seq<Entry>
    requires prev <= |log|
    decreases |entries|
  {
    if entries == [] then log else
    var log' := if prev < |log| && log[prev].term == entries[0].term then log
                else log[..prev] + [entries[0]];
    Reconcile(log', prev + 1, entries[1..])
  }

  /** The consistency check on the entry before the new ones. */
  predicate PrevMatches(log: seq<Entry>, prev: nat, prevTerm: Term) {
    prev == 0 || (prev <= |log| && TermAt(log, prev) == prevTerm)
  }

  function Min(a: nat, b: nat): nat { if a <= b then a else b }

  /** Returns the new state, the success flag, and the log length reported back. */
  function HandleAppendEntries(c: Core, term: Term, prev: nat, prevTerm: Term,
                               entries: seq<Entry>, leaderCommit: nat): (Core, bool, nat)
  {
    if term < c.currentTerm then (c, false, 0) else
    var c' := BecomeFollower(c, term);
    if !PrevMatches(c'.log, prev, prevTerm) then (c', false, 0) else
    var log' := Reconcile(c'.log, prev, entries);
    var c'' := c'.(log := log',
                   commitIndex := if leaderCommit > c'.commitIndex then Min(leaderCommit, |log'|)
                                  else c'.commitIndex);
    (c'', true, |log'|)
  }

  function HandleAppendReply(c: Core, term: Term, success: bool, matchIndex: nat,
                             follower: NodeId): Outcome
  {
    if term > c.currentTerm then Done(BecomeFollower(c, term), [])
    else if c.role != Leader || term != c.currentTerm then Done(c, [])
    else if success then
      var c' := AdvanceCommit(c.(matchIndex := c.matchIndex[follower := matchIndex],
                                 nextIndex := c.nextIndex[follower := matchIndex + 1]));
      if c'.commitIndex > c.commitIndex then Broadcast(c') else Done(c', [])
    else
      var next := NextIndexFor(c, follower);
      var c' := c.(nextIndex := c.nextIndex[follower := if next > 1 then next - 1 else next]);
      if CanAppendFor(c', follower)
      then Done(c', [Envelope(c.id, follower, AppendEntriesFor(c', follower))])
      else Stopped
  }

  function Receive(c: Core, env: Envelope): Outcome {
    match env.rpc
    case RequestVote(term, candidate, lastLogIndex, lastLogTerm) =>
      var (c', granted) := HandleRequestVote(c, term, candidate, lastLogIndex, lastLogTerm);
      Done(c', [Envelope(c.id, env.from, VoteReply(c'.currentTerm, granted, c.id))])
    case VoteReply(term, granted, voter) => HandleVoteReply(c, term, granted, voter)
    case AppendEntries(term, leader, prev, prevTerm, entries, leaderCommit) =>
      var (c', success, reported) := HandleAppendEntries(c, term, prev, prevTerm, entries, leaderCommit);
      Done(c', [Envelope(c.id, env.from, AppendReply(c'.currentTerm, success, reported, c.id))])
    case AppendReply(term, success, matchIndex, follower) =>
      HandleAppendReply(c, term, success, matchIndex, follower)
  }

  /** Draining runs off the log exactly when something is due and the log is too short for it. */
  predicate CanDrain(c: Core) {
    c.lastApplied < c.commitIndex ==> c.commitIndex <= |c.log|
  }

  function Drained(c: Core): seq<Entry>
    requires CanDrain(c)
  {
    if c.lastApplied < c.commitIndex then c.log[c.lastApplied..c.commitIndex] else []
  }

  function AfterDrain(c: Core): Core {
    c.(lastApplied := if c.lastApplied < c.commitIndex then c.commitIndex else c.lastApplied)
  }

  lemma InsertDescendingLength(x: nat, s: seq<nat>)
    ensures |InsertDescending(x, s)| == |s| + 1
  {
  }

  lemma SortDescendingLength(s: seq<nat>)
    ensures |SortDescending(s)| == |s|
  {
    if s != [] {
      SortDescendingLength(s[1..]);
      InsertDescendingLength(s[0], SortDescending(s[1..]));
    }
  }
}
