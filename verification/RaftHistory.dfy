/**
  What a run has done so far, kept only for the proofs: who voted for whom and
  with which log, who won which term, how far each term's log has grown, and
  which prefixes of it members have held. Every invariant of the cluster is a
  statement about one node and this history, one message and this history, or
  this history alone, so a step of one node never disturbs the others.
*/
module RaftHistory {
  import opened Raft

  datatype Seat = Seat(term: Term, voter: NodeId)

  /** A cast vote and the voter's log at that moment. */
  datatype Ballot = Ballot(candidate: NodeId, log: seq<Entry>)

  /** A won election and the winner's log when it won. */
  datatype Election = Election(leader: NodeId, voters: set<NodeId>, log: seq<Entry>)

  /** `node`, while in `term`, held the first `length` entries of that term's log. */
  datatype Ack = Ack(term: Term, node: NodeId, length: nat)

  datatype History = History(
    members: set<NodeId>,
    ballots: map<Seat, Ballot>,
    elections: map<Term, Election>,
    logs: map<Term, seq<Entry>>,
    acks: set<Ack>)

  // ---------- logs ----------

  ghost predicate Ordered(log: seq<Entry>, term: Term) {
    && (forall i, j :: 0 <= i <= j < |log| ==> log[i].term <= log[j].term)
    && (forall i :: 0 <= i < |log| ==> 1 <= log[i].term <= term)
  }

  /** Each entry, with everything before it, is how the log of the entry's term starts. */
  ghost predicate Grounded(log: seq<Entry>, logs: map<Term, seq<Entry>>) {
    forall i :: 0 <= i < |log| ==>
      log[i].term in logs && log[..i + 1] <= logs[log[i].term]
  }

  // ---------- the history on its own ----------

  ghost predicate BallotOk(h: History, s: Seat)
    requires s in h.ballots
  {
    var b := h.ballots[s];
    var own := Seat(s.term, b.candidate);
    && s.voter in h.members
    && s.term >= 1
    && own in h.ballots
    && h.ballots[own].candidate == b.candidate
    && UpToDate(|h.ballots[own].log|, LastTerm(h.ballots[own].log), b.log)
    && Grounded(b.log, h.logs)
    && Ordered(b.log, s.term)
    && (s.voter == b.candidate ==> Ordered(b.log, s.term - 1))
  }

  ghost predicate ElectionOk(h: History, t: Term)
    requires t in h.elections && t in h.logs
  {
    var e := h.elections[t];
    && t >= 1
    && e.leader in h.members
    && e.voters <= h.members
    && 2 * |e.voters| > |h.members|
    && (forall v :: v in e.voters ==>
          Seat(t, v) in h.ballots && h.ballots[Seat(t, v)].candidate == e.leader)
    && Seat(t, e.leader) in h.ballots
    && h.ballots[Seat(t, e.leader)] == Ballot(e.leader, e.log)
    && Ordered(e.log, t - 1)
    && e.log <= h.logs[t]
    && (forall i :: |e.log| <= i < |h.logs[t]| ==> h.logs[t][i].term == t)
    && Grounded(h.logs[t], h.logs)
  }

  ghost predicate AckOk(h: History, a: Ack) {
    a.node in h.members && a.term in h.logs && a.length <= |h.logs[a.term]|
  }

  /** Some leader after term `t`, no later than `bound`, started without the first `k` entries of `t`. */
  ghost predicate Superseded(h: History, t: Term, k: nat, bound: int)
    requires t in h.logs && k <= |h.logs[t]|
  {
    exists w :: t < w <= bound && w in h.elections && !(h.logs[t][..k] <= h.elections[w].log)
  }

  /** A held entry of its own term is still in `log` unless a later leader started without it. */
  ghost predicate Kept(h: History, a: Ack, k: nat, log: seq<Entry>, bound: int) {
    (AckOk(h, a) && 1 <= k <= a.length && h.logs[a.term][k - 1].term == a.term) ==>
      h.logs[a.term][..k] <= log || Superseded(h, a.term, k, bound)
  }

  ghost predicate BallotsKeep(h: History) {
    forall s, a, k :: s in h.ballots && a in h.acks && a.node == s.voter && a.term < s.term ==>
      Kept(h, a, k, h.ballots[s].log, s.term)
  }

  /** The same of a voter at the election it decided, with leaders strictly before that election. */
  ghost predicate KeptByVoter(h: History, t: Term, v: NodeId, a: Ack, k: nat) {
    Seat(t, v) in h.ballots ==> Kept(h, a, k, h.ballots[Seat(t, v)].log, t - 1)
  }

  ghost predicate ElectionsKeep(h: History) {
    forall t, v, a, k ::
      t in h.elections && v in h.elections[t].voters && a in h.acks && a.node == v && a.term < t ==>
        KeptByVoter(h, t, v, a, k)
  }

  ghost predicate Shape(h: History) {
    && h.logs.Keys == h.elections.Keys
    && (forall s :: s in h.ballots ==> BallotOk(h, s))
    && (forall t :: t in h.elections ==> ElectionOk(h, t))
    && (forall a :: a in h.acks ==> AckOk(h, a))
  }

  ghost predicate HistoryInv(h: History) {
    Shape(h) && BallotsKeep(h) && ElectionsKeep(h)
  }

  // ---------- one node and the history ----------

  ghost predicate VoteOk(h: History, c: Core) {
    && (forall s :: s in h.ballots && s.voter == c.id ==> s.term <= c.currentTerm)
    && (c.votedFor.Some? <==> Seat(c.currentTerm, c.id) in h.ballots)
    && (c.votedFor.Some? ==> h.ballots[Seat(c.currentTerm, c.id)].candidate == c.votedFor.value)
  }

  ghost predicate RoleOk(h: History, c: Core) {
    match c.role
    case Follower => true
    case Candidate =>
      && Seat(c.currentTerm, c.id) in h.ballots
      && h.ballots[Seat(c.currentTerm, c.id)] == Ballot(c.id, c.log)
      && c.votesReceived <= h.members
      && (forall v :: v in c.votesReceived ==>
            Seat(c.currentTerm, v) in h.ballots && h.ballots[Seat(c.currentTerm, v)].candidate == c.id)
      && (c.currentTerm in h.elections ==> h.elections[c.currentTerm].leader != c.id)
    case Leader =>
      && c.currentTerm in h.elections
      && h.elections[c.currentTerm].leader == c.id
      && c.currentTerm in h.logs
      && h.logs[c.currentTerm] == c.log
  }

  ghost predicate AcksKeep(h: History, c: Core) {
    && (forall a :: a in h.acks && a.node == c.id ==> a.term <= c.currentTerm)
    && (forall a, k :: a in h.acks && a.node == c.id ==> Kept(h, a, k, c.log, c.currentTerm))
  }

  /** While in a term it voted in, a node has the log it voted with or the start of that term's log. */
  ghost predicate VoterLog(h: History, c: Core) {
    var s := Seat(c.currentTerm, c.id);
    s in h.ballots ==>
      c.log == h.ballots[s].log || (c.currentTerm in h.logs && c.log <= h.logs[c.currentTerm])
  }

  ghost predicate NodeInv(h: History, c: Core) {
    && c.id in h.members
    && VoteOk(h, c)
    && VoterLog(h, c)
    && RoleOk(h, c)
    && Grounded(c.log, h.logs)
    && Ordered(c.log, c.currentTerm)
    && AcksKeep(h, c)
  }

  // ---------- one message and the history ----------

  ghost predicate MessageInv(h: History, env: Envelope) {
    && env.from in h.members
    && env.to in h.members
    && match env.rpc
       case RequestVote(term, candidate, lastLogIndex, lastLogTerm) =>
         && env.from == candidate
         && env.to != candidate
         && Seat(term, candidate) in h.ballots
         && var own := h.ballots[Seat(term, candidate)];
         && own.candidate == candidate
         && lastLogIndex == |own.log|
         && lastLogTerm == LastTerm(own.log)
       case VoteReply(term, granted, voter) =>
         granted ==>
           && voter in h.members
           && Seat(term, voter) in h.ballots
           && h.ballots[Seat(term, voter)].candidate == env.to
       case AppendEntries(term, leader, prev, prevTerm, entries, leaderCommit) =>
         && term in h.elections
         && h.elections[term].leader == leader
         && env.from == leader
         && env.to != leader
         && term in h.logs
         && prev + |entries| <= |h.logs[term]|
         && entries == h.logs[term][prev..prev + |entries|]
         && prevTerm == TermAt(h.logs[term], prev)
       case AppendReply(_, _, _, follower) => env.from == follower && env.to != follower
  }

  // ---------- growth of the history by one node ----------

  ghost predicate LogsGrow(h: History, h': History) {
    forall t :: t in h.logs ==> t in h'.logs && h.logs[t] <= h'.logs[t]
  }

  ghost predicate ElectionsGrow(h: History, h': History) {
    forall t :: t in h.elections ==> t in h'.elections && h'.elections[t] == h.elections[t]
  }

  ghost predicate BallotsGrow(h: History, h': History) {
    forall s :: s in h.ballots ==> s in h'.ballots && h'.ballots[s] == h.ballots[s]
  }

  /** Everything in `h` that is new in `h'` is about node `n`. */
  ghost predicate OnlyBy(h: History, h': History, n: NodeId) {
    && (forall s :: s in h'.ballots && s !in h.ballots ==> s.voter == n)
    && (forall t :: t in h'.elections && t !in h.elections ==> h'.elections[t].leader == n)
    && (forall t :: t in h.logs && t in h.elections && h.elections[t].leader != n ==>
          t in h'.logs && h'.logs[t] == h.logs[t])
    && (forall a :: a in h'.acks && a !in h.acks ==> a.node == n)
  }

  ghost predicate Extends(h: History, h': History, n: NodeId) {
    && h.members == h'.members
    && BallotsGrow(h, h') && ElectionsGrow(h, h') && LogsGrow(h, h') && h.acks <= h'.acks
    && OnlyBy(h, h', n)
  }

  lemma ExtendsTransitive(h: History, h': History, h'': History, n: NodeId)
    requires Extends(h, h', n) && Extends(h', h'', n)
    ensures Extends(h, h'', n)
  {
    forall t | t in h.logs ensures t in h''.logs && h.logs[t] <= h''.logs[t] {
      assert t in h'.logs && h.logs[t] <= h'.logs[t];
      assert h'.logs[t] <= h''.logs[t];
    }
  }

  lemma GroundedGrows(log: seq<Entry>, h: History, h': History)
    requires LogsGrow(h, h') && Grounded(log, h.logs)
    ensures Grounded(log, h'.logs)
  {
    forall i | 0 <= i < |log| ensures log[i].term in h'.logs && log[..i + 1] <= h'.logs[log[i].term] {
      var t := log[i].term;
      assert log[..i + 1] <= h.logs[t];
      assert h.logs[t] <= h'.logs[t];
    }
  }

  lemma KeptGrows(h: History, h': History, a: Ack, k: nat, log: seq<Entry>, bound: int)
    requires h.members == h'.members && LogsGrow(h, h') && ElectionsGrow(h, h')
    requires AckOk(h, a) && Kept(h, a, k, log, bound)
    ensures AckOk(h', a) && Kept(h', a, k, log, bound)
  {
    assert h.logs[a.term] <= h'.logs[a.term];
    if 1 <= k <= a.length && h'.logs[a.term][k - 1].term == a.term {
      assert h.logs[a.term][..k] == h'.logs[a.term][..k];
      if !(h.logs[a.term][..k] <= log) {
        var w :| a.term < w <= bound && w in h.elections && !(h.logs[a.term][..k] <= h.elections[w].log);
        assert w in h'.elections;
      }
    }
  }

  /** A node's standing does not change when another node adds to the history. */
  lemma NodeUndisturbed(h: History, h': History, n: NodeId, c: Core)
    requires Extends(h, h', n) && n != c.id && NodeInv(h, c)
    requires forall a :: a in h.acks ==> AckOk(h, a)
    ensures NodeInv(h', c)
  {
    GroundedGrows(c.log, h, h');
    forall a, k | a in h'.acks && a.node == c.id
      ensures Kept(h', a, k, c.log, c.currentTerm)
    {
      assert a in h.acks && Kept(h, a, k, c.log, c.currentTerm);
      KeptGrows(h, h', a, k, c.log, c.currentTerm);
    }
  }

  lemma MessageUndisturbed(h: History, h': History, n: NodeId, env: Envelope)
    requires Extends(h, h', n) && MessageInv(h, env)
    ensures MessageInv(h', env)
  {
    match env.rpc
    case AppendEntries(term, leader, prev, prevTerm, entries, leaderCommit) =>
      assert h.logs[term] <= h'.logs[term];
      assert h'.logs[term][prev..prev + |entries|] == h.logs[term][prev..prev + |entries|];
    case _ =>
  }
}
