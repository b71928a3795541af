/**
  How each kind of change to one node (a vote, a candidacy, a victory, a
  proposal, accepted entries) is recorded in the history, and that recording it
  keeps every invariant of that node and of the history.
*/
module RaftInvariance {
  import opened Raft
  import opened Options
  import opened RaftHistory

  // ---------- facts about logs ----------

  lemma TermLogOrdered(h: History, t: Term)
    requires t in h.elections && t in h.logs && ElectionOk(h, t)
    ensures Ordered(h.logs[t], t)
  {
    var e := h.elections[t];
    forall i | 0 <= i < |h.logs[t]|
      ensures i < |e.log| ==> h.logs[t][i] == e.log[i]
      ensures i >= |e.log| ==> h.logs[t][i].term == t
    {
    }
  }

  lemma PrefixGrounded(p: seq<Entry>, log: seq<Entry>, logs: map<Term, seq<Entry>>)
    requires p <= log && Grounded(log, logs)
    ensures Grounded(p, logs)
  {
    forall i | 0 <= i < |p| ensures p[i].term in logs && p[..i + 1] <= logs[p[i].term] {
      assert p[..i + 1] == log[..i + 1] && p[i] == log[i];
    }
  }

  /** Log Matching: same index, same term, hence same prefix. */
  lemma MatchingPrefix(a: seq<Entry>, b: seq<Entry>, logs: map<Term, seq<Entry>>, k: nat)
    requires Grounded(a, logs) && Grounded(b, logs)
    requires k == 0 || (k <= |a| && k <= |b| && a[k - 1].term == b[k - 1].term)
    ensures k <= |a| && k <= |b| && a[..k] == b[..k]
  {
    if k > 0 {
      assert a[..k - 1 + 1] <= logs[a[k - 1].term];
      assert b[..k - 1 + 1] <= logs[b[k - 1].term];
    }
  }

  // ---------- changes that record nothing ----------

  /** Timers, commit bookkeeping, or stepping down: the log stays, the vote stays within its term. */
  ghost predicate Quiet(c: Core, c': Core) {
    && c'.id == c.id
    && c'.log == c.log
    && (c'.currentTerm > c.currentTerm ==> c'.votedFor == None && c'.role == Follower)
    && c'.currentTerm >= c.currentTerm
    && (c'.currentTerm == c.currentTerm ==>
          && c'.votedFor == c.votedFor
          && (c'.role == Follower || (c'.role == c.role && c'.votesReceived == c.votesReceived)))
  }

  lemma KeptLonger(h: History, a: Ack, k: nat, log: seq<Entry>, bound: int, bound': int)
    requires Kept(h, a, k, log, bound) && bound <= bound'
    ensures Kept(h, a, k, log, bound')
  {
  }

  lemma QuietKeeps(h: History, c: Core, c': Core)
    requires NodeInv(h, c) && Quiet(c, c')
    ensures NodeInv(h, c')
  {
    LaterTerm(h, c, c');
  }

  // ---------- recording a fact, in general ----------

  /** What must hold in `h` of the facts of `h'` for the keeping clauses to carry over. */
  ghost predicate KeepsCarry(h: History, h': History) {
    && h.members == h'.members && LogsGrow(h, h') && ElectionsGrow(h, h')
    && (forall a :: a in h'.acks ==> AckOk(h, a))
    && (forall s, a, k :: s in h'.ballots && a in h'.acks && a.node == s.voter && a.term < s.term ==>
          Kept(h, a, k, h'.ballots[s].log, s.term))
    && (forall t, v, a, k ::
          t in h'.elections && v in h'.elections[t].voters && a in h'.acks && a.node == v && a.term < t ==>
            CarriedByVoter(h, h', t, v, a, k))
  }

  ghost predicate CarriedByVoter(h: History, h': History, t: Term, v: NodeId, a: Ack, k: nat) {
    Seat(t, v) in h'.ballots ==> Kept(h, a, k, h'.ballots[Seat(t, v)].log, t - 1)
  }

  lemma KeepsGrow(h: History, h': History)
    requires KeepsCarry(h, h')
    ensures BallotsKeep(h') && ElectionsKeep(h') && (forall a :: a in h'.acks ==> AckOk(h', a))
  {
    forall s, a, k | s in h'.ballots && a in h'.acks && a.node == s.voter && a.term < s.term
      ensures Kept(h', a, k, h'.ballots[s].log, s.term)
    {
      KeptGrows(h, h', a, k, h'.ballots[s].log, s.term);
    }
    forall t, v, a, k | t in h'.elections && v in h'.elections[t].voters && a in h'.acks && a.node == v && a.term < t
      ensures KeptByVoter(h', t, v, a, k)
    {
      if Seat(t, v) in h'.ballots {
        assert CarriedByVoter(h, h', t, v, a, k);
        KeptGrows(h, h', a, k, h'.ballots[Seat(t, v)].log, t - 1);
      }
    }
    forall a | a in h'.acks ensures AckOk(h', a) {
      assert h.logs[a.term] <= h'.logs[a.term];
    }
  }

  lemma AcksGrow(h: History, h': History, c: Core)
    requires h.members == h'.members && LogsGrow(h, h') && ElectionsGrow(h, h')
    requires forall a :: a in h'.acks ==> AckOk(h, a)
    requires forall a :: a in h'.acks && a.node == c.id ==> a.term <= c.currentTerm
    requires forall a, k :: a in h'.acks && a.node == c.id ==> Kept(h, a, k, c.log, c.currentTerm)
    ensures AcksKeep(h', c)
  {
    forall a, k | a in h'.acks && a.node == c.id
      ensures Kept(h', a, k, c.log, c.currentTerm)
    {
      KeptGrows(h, h', a, k, c.log, c.currentTerm);
    }
  }

  /** Ballots and elections already recorded stay in order as the term logs grow. */
  lemma OldShape(h: History, h': History)
    requires Shape(h) && h.members == h'.members
    requires BallotsGrow(h, h') && ElectionsGrow(h, h') && LogsGrow(h, h')
    ensures forall s :: s in h.ballots ==> s in h'.ballots && BallotOk(h', s)
    ensures forall t :: t in h.elections ==>
              t in h'.elections && t in h'.logs && (h'.logs[t] == h.logs[t] ==> ElectionOk(h', t))
  {
    forall s | s in h.ballots ensures s in h'.ballots && BallotOk(h', s) {
      assert BallotOk(h, s);
      GroundedGrows(h.ballots[s].log, h, h');
    }
    forall t | t in h.elections
      ensures t in h'.elections && t in h'.logs && (h'.logs[t] == h.logs[t] ==> ElectionOk(h', t))
    {
      assert ElectionOk(h, t);
      GroundedGrows(h.logs[t], h, h');
    }
  }

  /** Putting things on record keeps the history in shape if each new or changed record is. */
  lemma NewShape(h: History, h': History)
    requires Shape(h) && h.members == h'.members
    requires BallotsGrow(h, h') && ElectionsGrow(h, h') && LogsGrow(h, h')
    requires h'.logs.Keys == h'.elections.Keys
    requires forall s :: s in h'.ballots && s !in h.ballots ==> BallotOk(h', s)
    requires forall t :: t in h'.elections && !(t in h.elections && t in h.logs && h'.logs[t] == h.logs[t]) ==>
               ElectionOk(h', t)
    requires forall a :: a in h'.acks ==> AckOk(h', a)
    ensures Shape(h')
  {
    OldShape(h, h');
    hide BallotOk, ElectionOk, AckOk;
  }

  // ---------- votes ----------

  function WithBallot(h: History, s: Seat, b: Ballot): History {
    h.(ballots := h.ballots[s := b])
  }

  ghost predicate Castable(h: History, s: Seat, b: Ballot) {
    && s.voter in h.members
    && s.term >= 1
    && s !in h.ballots
    && Grounded(b.log, h.logs)
    && Ordered(b.log, s.term)
    && (if s.voter == b.candidate then Ordered(b.log, s.term - 1)
        else
          var own := Seat(s.term, b.candidate);
          && own in h.ballots
          && h.ballots[own].candidate == b.candidate
          && UpToDate(|h.ballots[own].log|, LastTerm(h.ballots[own].log), b.log))
  }

  lemma CastShape(h: History, s: Seat, b: Ballot)
    requires Shape(h) && Castable(h, s, b)
    ensures Shape(WithBallot(h, s, b)) && Extends(h, WithBallot(h, s, b), s.voter)
  {
    hide Grounded, Ordered;
    var h' := WithBallot(h, s, b);
    assert BallotOk(h', s);
    hide BallotOk, ElectionOk;
    forall a | a in h'.acks ensures AckOk(h', a) {
      assert AckOk(h, a);
    }
    NewShape(h, h');
  }

  lemma CastCarry(h: History, s: Seat, b: Ballot)
    requires HistoryInv(h) && s !in h.ballots
    requires forall a, k :: a in h.acks && a.node == s.voter && a.term < s.term ==>
               Kept(h, a, k, b.log, s.term)
    ensures KeepsCarry(h, WithBallot(h, s, b))
  {
    hide Grounded, Ordered, UpToDate, Kept;
    var h' := WithBallot(h, s, b);
    forall t, v, a, k | t in h'.elections && v in h'.elections[t].voters && a in h'.acks && a.node == v && a.term < t
      ensures CarriedByVoter(h, h', t, v, a, k)
    {
      assert ElectionOk(h, t) && KeptByVoter(h, t, v, a, k);
    }
  }

  /** A node `c` whose own log is the one recorded with its new ballot. */
  lemma CastBallot(h: History, c: Core, candidate: NodeId) returns (h': History)
    requires HistoryInv(h) && Castable(h, Seat(c.currentTerm, c.id), Ballot(candidate, c.log))
    requires AcksKeep(h, c)
    ensures h' == WithBallot(h, Seat(c.currentTerm, c.id), Ballot(candidate, c.log))
    ensures HistoryInv(h') && Extends(h, h', c.id) && AcksKeep(h', c) && Grounded(c.log, h'.logs)
  {
    var s, b := Seat(c.currentTerm, c.id), Ballot(candidate, c.log);
    h' := WithBallot(h, s, b);
    CastShape(h, s, b);
    CastCarry(h, s, b);
    KeepsGrow(h, h');
    AcksGrow(h, h', c);
  }

  lemma Votes(h: History, c: Core, candidate: NodeId) returns (h': History)
    requires HistoryInv(h) && NodeInv(h, c) && c.votedFor == None && c.role == Follower
    requires c.currentTerm >= 1 && candidate != c.id
    requires Seat(c.currentTerm, candidate) in h.ballots
    requires h.ballots[Seat(c.currentTerm, candidate)].candidate == candidate
    requires var own := h.ballots[Seat(c.currentTerm, candidate)].log;
             UpToDate(|own|, LastTerm(own), c.log)
    ensures HistoryInv(h') && Extends(h, h', c.id)
    ensures NodeInv(h', c.(votedFor := Some(candidate)))
  {
    h' := CastBallot(h, c, candidate);
    SameStanding(h', c, c.(votedFor := Some(candidate)));
  }

  /** The acknowledgement clause looks only at identity, term and log. */
  lemma SameStanding(h: History, c: Core, c': Core)
    requires AcksKeep(h, c) && c'.id == c.id && c'.currentTerm == c.currentTerm && c'.log == c.log
    ensures AcksKeep(h, c')
  {
    forall a, k | a in h.acks && a.node == c'.id
      ensures Kept(h, a, k, c'.log, c'.currentTerm)
    {
      assert Kept(h, a, k, c.log, c.currentTerm);
    }
  }

  lemma LaterTerm(h: History, c: Core, c': Core)
    requires AcksKeep(h, c) && c'.id == c.id && c'.currentTerm >= c.currentTerm && c'.log == c.log
    ensures AcksKeep(h, c')
  {
    forall a, k | a in h.acks && a.node == c'.id
      ensures Kept(h, a, k, c'.log, c'.currentTerm)
    {
      assert Kept(h, a, k, c.log, c.currentTerm);
      KeptLonger(h, a, k, c.log, c.currentTerm, c'.currentTerm);
    }
  }

  lemma CanStand(h: History, c: Core)
    requires c.id in h.members && VoteOk(h, c) && Grounded(c.log, h.logs) && Ordered(c.log, c.currentTerm)
    ensures Castable(h, Seat(c.currentTerm + 1, c.id), Ballot(c.id, c.log))
  {
    hide Grounded;
  }

  lemma NotYetLeader(h: History, c: Core)
    requires Shape(h) && VoteOk(h, c)
    ensures c.currentTerm + 1 in h.elections ==> h.elections[c.currentTerm + 1].leader != c.id
  {
    hide Grounded, Ordered, BallotOk;
    if c.currentTerm + 1 in h.elections {
      assert ElectionOk(h, c.currentTerm + 1);
    }
  }

  lemma CampaignerStands(h: History, c: Core, h': History)
    requires VoteOk(h, c) && c.id in h.members
    requires h' == WithBallot(h, Seat(c.currentTerm + 1, c.id), Ballot(c.id, c.log))
    requires c.currentTerm + 1 in h.elections ==> h.elections[c.currentTerm + 1].leader != c.id
    ensures VoteOk(h', Campaigner(c)) && RoleOk(h', Campaigner(c))
  {
  }

  lemma InShape(h: History)
    requires HistoryInv(h)
    ensures Shape(h)
  {
  }

  lemma Campaigns(h: History, c: Core) returns (h': History)
    requires HistoryInv(h) && NodeInv(h, c)
    ensures HistoryInv(h') && Extends(h, h', c.id)
    ensures NodeInv(h', Campaigner(c))
  {
    hide HistoryInv, Castable, AcksKeep, Grounded, Ordered, VoteOk, RoleOk, Extends, Shape, BallotsKeep, ElectionsKeep;
    var c' := Campaigner(c);
    CanStand(h, c);
    assert Shape(h) by { InShape(h); }
    NotYetLeader(h, c);
    LaterTerm(h, c, c');
    h' := CastBallot(h, c', c.id);
    CampaignerStands(h, c, h');
    StillOrdered(c.log, c.currentTerm);
    assert h'.members == h.members;
  }

  lemma StillOrdered(log: seq<Entry>, term: Term)
    requires Ordered(log, term)
    ensures Ordered(log, term + 1)
  {
  }

  lemma CountsVote(h: History, c: Core, voter: NodeId)
    requires NodeInv(h, c) && c.role == Candidate && voter in h.members
    requires Seat(c.currentTerm, voter) in h.ballots
    requires h.ballots[Seat(c.currentTerm, voter)].candidate == c.id
    ensures NodeInv(h, c.(votesReceived := c.votesReceived + {voter}))
  {
    SameStanding(h, c, c.(votesReceived := c.votesReceived + {voter}));
  }

  // ---------- victories ----------

  /** Two sets of members too large to be disjoint share one. */
  lemma SharedVoter(a: set<NodeId>, b: set<NodeId>, members: set<NodeId>) returns (v: NodeId)
    requires a <= members && b <= members && |a| + |b| > |members|
    ensures v in a && v in b
  {
    assert |a + b| <= |members| by { SubsetSize(a + b, members); }
    assert |a * b| > 0 by { assert |a + b| == |a| + |b| - |a * b|; }
    v :| v in a * b;
  }

  lemma SubsetSize(a: set<NodeId>, b: set<NodeId>)
    requires a <= b
    ensures |a| <= |b|
  {
    assert b == a + (b - a);
  }

  /** Two majorities of the same term share a voter, and a voter votes once. */
  lemma TermUncontested(h: History, c: Core)
    requires Shape(h) && RoleOk(h, c) && c.role == Candidate
    requires 2 * |c.votesReceived| > |h.members|
    ensures c.currentTerm !in h.elections
  {
    if c.currentTerm in h.elections {
      assert ElectionOk(h, c.currentTerm);
      var v := SharedVoter(c.votesReceived, h.elections[c.currentTerm].voters, h.members);
      assert false;
    }
  }

  function WithElection(h: History, c: Core): History {
    h.(elections := h.elections[c.currentTerm := Election(c.id, c.votesReceived, c.log)],
       logs := h.logs[c.currentTerm := c.log])
  }

  lemma WinGrows(h: History, c: Core)
    requires h.logs.Keys == h.elections.Keys && c.currentTerm !in h.elections
    ensures Extends(h, WithElection(h, c), c.id)
  {
  }

  lemma WinShape(h: History, c: Core)
    requires Shape(h) && c.id in h.members && RoleOk(h, c) && Grounded(c.log, h.logs)
    requires c.role == Candidate && c.currentTerm !in h.elections
    requires 2 * |c.votesReceived| > |h.members|
    requires Extends(h, WithElection(h, c), c.id)
    ensures Shape(WithElection(h, c)) && Grounded(c.log, WithElection(h, c).logs)
  {
    hide Grounded, Ordered, OnlyBy;
    var h', t := WithElection(h, c), c.currentTerm;
    GroundedGrows(c.log, h, h');
    assert ElectionOk(h', t) by {
      assert BallotOk(h, Seat(t, c.id));
      WonElection(h, c);
    }
    hide BallotOk, ElectionOk;
    AcksStayOk(h, h');
    NewShape(h, h');
  }

  lemma AcksStayOk(h: History, h': History)
    requires h.members == h'.members && LogsGrow(h, h') && h'.acks == h.acks
    requires forall a :: a in h.acks ==> AckOk(h, a)
    ensures forall a :: a in h'.acks ==> AckOk(h', a)
  {
    forall a | a in h'.acks ensures AckOk(h', a) {
      assert AckOk(h, a);
      assert h.logs[a.term] <= h'.logs[a.term];
    }
  }

  lemma WonElection(h: History, c: Core)
    requires c.role == Candidate && RoleOk(h, c) && c.id in h.members
    requires c.currentTerm >= 1 && Ordered(c.log, c.currentTerm - 1)
    requires 2 * |c.votesReceived| > |h.members|
    requires Grounded(c.log, WithElection(h, c).logs)
    ensures ElectionOk(WithElection(h, c), c.currentTerm)
  {
    hide Grounded, Ordered;
  }

  lemma WinCarry(h: History, c: Core)
    requires HistoryInv(h) && RoleOk(h, c)
    requires c.role == Candidate && c.currentTerm !in h.elections
    ensures KeepsCarry(h, WithElection(h, c))
  {
    hide Grounded, Ordered, UpToDate, Kept, AckOk, BallotOk, ElectionOk, RoleOk;
    var h', t := WithElection(h, c), c.currentTerm;
    forall t', v, a, k | t' in h'.elections && v in h'.elections[t'].voters && a in h'.acks && a.node == v && a.term < t'
      ensures CarriedByVoter(h, h', t', v, a, k)
    {
      if t' == t {
        FreshElectionKeeps(h, c, v, a, k);
      } else {
        assert KeptByVoter(h, t', v, a, k);
      }
    }
  }

  /** At the moment of victory no leader of this very term can have displaced anything yet. */
  lemma FreshElectionKeeps(h: History, c: Core, v: NodeId, a: Ack, k: nat)
    requires BallotsKeep(h) && RoleOk(h, c) && AckOk(h, a)
    requires c.role == Candidate && c.currentTerm !in h.elections
    requires v in c.votesReceived && a in h.acks && a.node == v && a.term < c.currentTerm
    ensures Kept(h, a, k, h.ballots[Seat(c.currentTerm, v)].log, c.currentTerm - 1)
  {
    var s := Seat(c.currentTerm, v);
    var log := h.ballots[s].log;
    assert Kept(h, a, k, log, s.term);
    if 1 <= k <= a.length && h.logs[a.term][k - 1].term == a.term && !(h.logs[a.term][..k] <= log) {
      var w :| a.term < w <= s.term && w in h.elections && !(h.logs[a.term][..k] <= h.elections[w].log);
      assert w != c.currentTerm;
    }
  }

  lemma Wins(h: History, c: Core) returns (h': History)
    requires HistoryInv(h) && NodeInv(h, c) && c.role == Candidate
    requires 2 * |c.votesReceived| > |h.members|
    ensures HistoryInv(h') && Extends(h, h', c.id)
    ensures NodeInv(h', BecomeLeader(c))
  {
    TermUncontested(h, c);
    h' := WithElection(h, c);
    WinGrows(h, c);
    WinShape(h, c);
    WinCarry(h, c);
    KeepsGrow(h, h');
    AcksGrow(h, h', c);
    SameStanding(h', c, BecomeLeader(c));
  }

  // ---------- proposals ----------

  function WithLog(h: History, t: Term, log: seq<Entry>): History {
    h.(logs := h.logs[t := log])
  }

  lemma ProposeGrows(h: History, c: Core, c': Core)
    requires RoleOk(h, c) && c.role == Leader && c.log <= c'.log
    ensures Extends(h, WithLog(h, c.currentTerm, c'.log), c.id)
  {
  }

  lemma ProposeShape(h: History, c: Core, c': Core)
    requires Shape(h) && RoleOk(h, c) && Grounded(c.log, h.logs) && c.role == Leader
    requires |c'.log| == |c.log| + 1 && c.log <= c'.log && c'.log[|c.log|].term == c.currentTerm
    requires Extends(h, WithLog(h, c.currentTerm, c'.log), c.id)
    ensures Shape(WithLog(h, c.currentTerm, c'.log))
    ensures Grounded(c'.log, WithLog(h, c.currentTerm, c'.log).logs)
  {
    hide Grounded, Ordered, OnlyBy, BallotOk, ElectionOk, AckOk, UpToDate;
    var t := c.currentTerm;
    var h' := WithLog(h, t, c'.log);
    AppendGrounded(h, h', c, c');
    LongerTermLog(h, h', t);
    AcksStayOk(h, h');
    NewShape(h, h');
  }

  lemma LongerTermLog(h: History, h': History, t: Term)
    requires t in h.elections && t in h.logs && ElectionOk(h, t)
    requires h'.members == h.members && h'.ballots == h.ballots && h'.elections == h.elections
    requires t in h'.logs && |h'.logs[t]| == |h.logs[t]| + 1 && h.logs[t] <= h'.logs[t]
    requires h'.logs[t][|h.logs[t]|].term == t && Grounded(h'.logs[t], h'.logs)
    ensures ElectionOk(h', t)
  {
    hide Grounded, Ordered;
  }

  lemma AppendGrounded(h: History, h': History, c: Core, c': Core)
    requires Grounded(c.log, h.logs) && LogsGrow(h, h')
    requires c.currentTerm in h'.logs && h'.logs[c.currentTerm] == c'.log
    requires |c'.log| == |c.log| + 1 && c.log <= c'.log && c'.log[|c.log|].term == c.currentTerm
    ensures Grounded(c'.log, h'.logs)
  {
    GroundedGrows(c.log, h, h');
    forall i | 0 <= i < |c'.log|
      ensures c'.log[i].term in h'.logs && c'.log[..i + 1] <= h'.logs[c'.log[i].term]
    {
      if i < |c.log| {
        assert c'.log[i] == c.log[i] && c'.log[..i + 1] == c.log[..i + 1];
      }
    }
  }

  lemma SameBallotsCarry(h: History, h': History)
    requires HistoryInv(h) && h'.ballots == h.ballots && h'.elections == h.elections && h'.acks == h.acks
    requires h.members == h'.members && LogsGrow(h, h')
    ensures KeepsCarry(h, h')
  {
    hide Grounded, Ordered, UpToDate, Kept;
    forall t, v, a, k | t in h'.elections && v in h'.elections[t].voters && a in h'.acks && a.node == v && a.term < t
      ensures CarriedByVoter(h, h', t, v, a, k)
    {
      assert KeptByVoter(h, t, v, a, k);
    }
  }

  lemma ProposeKeepsAcks(h: History, c: Core, c': Core)
    requires HistoryInv(h) && AcksKeep(h, c) && c'.id == c.id && c'.currentTerm == c.currentTerm && c.log <= c'.log
    requires LogsGrow(h, WithLog(h, c.currentTerm, c'.log))
    ensures var h' := WithLog(h, c.currentTerm, c'.log);
            BallotsKeep(h') && ElectionsKeep(h') && AcksKeep(h', c')
  {
    hide Kept, BallotOk, ElectionOk;
    var h' := WithLog(h, c.currentTerm, c'.log);
    SameBallotsCarry(h, h');
    KeepsGrow(h, h');
    LongerLogKeeps(h, c, c');
    AcksGrow(h, h', c');
  }

  lemma SnocOrdered(log: seq<Entry>, e: Entry)
    requires Ordered(log, e.term) && e.term >= 1
    ensures Ordered(log + [e], e.term)
  {
  }

  lemma Proposes(h: History, c: Core, command: Command) returns (h': History)
    requires HistoryInv(h) && NodeInv(h, c) && c.role == Leader
    ensures HistoryInv(h') && Extends(h, h', c.id)
    ensures NodeInv(h', c.(log := c.log + [Entry(c.currentTerm, command)]))
  {
    hide Grounded, BallotOk, OnlyBy, BallotsKeep, ElectionsKeep, AcksKeep, Ordered;
    var t := c.currentTerm;
    var c' := c.(log := c.log + [Entry(t, command)]);
    h' := WithLog(h, t, c'.log);
    assert t >= 1 by { assert ElectionOk(h, t); }
    SnocOrdered(c.log, Entry(t, command));
    ProposeGrows(h, c, c');
    ProposeShape(h, c, c');
    ProposeKeepsAcks(h, c, c');
  }

  lemma LongerLogKeeps(h: History, c: Core, c': Core)
    requires AcksKeep(h, c) && c'.id == c.id && c'.currentTerm == c.currentTerm && c.log <= c'.log
    ensures AcksKeep(h, c')
  {
    forall a, k | a in h.acks && a.node == c'.id
      ensures Kept(h, a, k, c'.log, c'.currentTerm)
    {
      assert Kept(h, a, k, c.log, c.currentTerm);
    }
  }

  // ---------- accepted entries ----------

  /**
    What the follower's loop computes when it is sent `leaderLog[prev..m]`: its own
    log if that already starts with `leaderLog[..m]`, and exactly `leaderLog[..m]` otherwise.
  */
  lemma {:induction false} ReconcileAgainst(log: seq<Entry>, leaderLog: seq<Entry>, prev: nat, m: nat,
                                            logs: map<Term, seq<Entry>>)
    requires Grounded(log, logs) && Grounded(leaderLog, logs)
    requires prev <= m <= |leaderLog| && prev <= |log| && log[..prev] == leaderLog[..prev]
    ensures Reconcile(log, prev, leaderLog[prev..m])
            == if leaderLog[..m] <= log then log else leaderLog[..m]
    decreases m - prev
  {
    if prev < m {
      var sent := leaderLog[prev..m];
      assert sent[1..] == leaderLog[prev + 1..m];
      if prev < |log| && log[prev].term == sent[0].term {
        MatchingPrefix(log, leaderLog, logs, prev + 1);
        ReconcileAgainst(log, leaderLog, prev + 1, m, logs);
      } else {
        var log1 := log[..prev] + [sent[0]];
        assert log1 == leaderLog[..prev + 1];
        PrefixGrounded(log1, leaderLog, logs);
        ReconcileAgainst(log1, leaderLog, prev + 1, m, logs);
        assert leaderLog[..m][prev] == sent[0];
        assert !(leaderLog[..m] <= log);
      }
    }
  }

  /** A prefix shared with the leader survives reconciliation. */
  lemma SharedPrefixSurvives(p: seq<Entry>, log: seq<Entry>, leaderLog: seq<Entry>, m: nat)
    requires p <= log && p <= leaderLog && m <= |leaderLog|
    ensures p <= if leaderLog[..m] <= log then log else leaderLog[..m]
  {
    if |p| > m {
      assert leaderLog[..m] == p[..m] == log[..m];
    }
  }

  lemma ReconciledKept(h: History, c: Core, m: nat, log': seq<Entry>, a: Ack, k: nat)
    requires c.currentTerm in h.elections && c.currentTerm in h.logs && ElectionOk(h, c.currentTerm)
    requires m <= |h.logs[c.currentTerm]|
    requires log' == if h.logs[c.currentTerm][..m] <= c.log then c.log else h.logs[c.currentTerm][..m]
    requires AckOk(h, a) && a.term <= c.currentTerm && Kept(h, a, k, c.log, c.currentTerm)
    ensures Kept(h, a, k, log', c.currentTerm)
  {
    hide Grounded, Ordered;
    var t := c.currentTerm;
    var L := h.logs[t];
    if 1 <= k <= a.length && h.logs[a.term][k - 1].term == a.term && h.logs[a.term][..k] <= c.log {
      var p := h.logs[a.term][..k];
      if a.term == t || p <= h.elections[t].log {
        assert p <= L;
        SharedPrefixSurvives(p, c.log, L, m);
      } else {
        assert Superseded(h, a.term, k, t);
      }
    }
  }

  lemma TermLog(h: History, t: Term)
    requires Shape(h) && t in h.elections
    ensures t in h.logs && Grounded(h.logs[t], h.logs) && Ordered(h.logs[t], t)
  {
    hide BallotOk, Grounded, Ordered;
    assert ElectionOk(h, t);
    TermLogOrdered(h, t);
  }

  lemma PrevMeansPrefix(log: seq<Entry>, L: seq<Entry>, logs: map<Term, seq<Entry>>, prev: nat)
    requires Grounded(log, logs) && Grounded(L, logs) && prev <= |L| && PrevMatches(log, prev, TermAt(L, prev))
    ensures prev <= |log| && log[..prev] == L[..prev]
  {
    MatchingPrefix(log, L, logs, prev);
  }

  lemma PrefixOrdered(log: seq<Entry>, m: nat, t: Term)
    requires Ordered(log, t) && m <= |log|
    ensures Ordered(log[..m], t)
  {
  }

  /** The log an accepted append leaves behind, and that it is again a proper log. */
  lemma AcceptedLog(h: History, c: Core, prev: nat, m: nat)
    requires Shape(h) && Grounded(c.log, h.logs) && Ordered(c.log, c.currentTerm)
    requires c.currentTerm in h.elections && prev <= m <= |h.logs[c.currentTerm]|
    requires PrevMatches(c.log, prev, TermAt(h.logs[c.currentTerm], prev))
    ensures var L := h.logs[c.currentTerm];
            var log' := if L[..m] <= c.log then c.log else L[..m];
            && Reconcile(c.log, prev, L[prev..m]) == log'
            && Grounded(log', h.logs) && Ordered(log', c.currentTerm)
  {
    hide *;
    TermLog(h, c.currentTerm);
    var L := h.logs[c.currentTerm];
    PrevMeansPrefix(c.log, L, h.logs, prev);
    ReconcileAgainst(c.log, L, prev, m, h.logs);
    PrefixGrounded(L[..m], L, h.logs);
    PrefixOrdered(L, m, c.currentTerm);
  }

  lemma Accepts(h: History, c: Core, prev: nat, m: nat)
    requires HistoryInv(h) && NodeInv(h, c) && c.role == Follower
    requires c.currentTerm in h.elections && prev <= m <= |h.logs[c.currentTerm]|
    requires PrevMatches(c.log, prev, TermAt(h.logs[c.currentTerm], prev))
    ensures var L := h.logs[c.currentTerm];
            var log' := if L[..m] <= c.log then c.log else L[..m];
            Reconcile(c.log, prev, L[prev..m]) == log' && NodeInv(h, c.(log := log'))
  {
    hide Kept, BallotOk, BallotsKeep, ElectionsKeep, Grounded, Ordered, Reconcile;
    var L := h.logs[c.currentTerm];
    AcceptedLog(h, c, prev, m);
    assert ElectionOk(h, c.currentTerm);
    var c' := c.(log := if L[..m] <= c.log then c.log else L[..m]);
    forall a, k | a in h.acks && a.node == c'.id ensures Kept(h, a, k, c'.log, c'.currentTerm) {
      ReconciledKept(h, c, m, c'.log, a, k);
    }
  }

  // ---------- acknowledgements ----------

  /** A node whose log starts its term's log is on record as holding that much of it. */
  ghost predicate Recorded(h: History, c: Core) {
    c.currentTerm in h.logs && c.log <= h.logs[c.currentTerm] ==>
      Ack(c.currentTerm, c.id, |c.log|) in h.acks
  }

  function WithAck(h: History, a: Ack): History {
    h.(acks := h.acks + {a})
  }

  lemma Acknowledges(h: History, c: Core) returns (h': History)
    requires HistoryInv(h) && NodeInv(h, c)
    ensures HistoryInv(h') && Extends(h, h', c.id) && NodeInv(h', c) && Recorded(h', c)
  {
    hide Kept, BallotOk, ElectionOk, Grounded, Ordered;
    if c.currentTerm in h.logs && c.log <= h.logs[c.currentTerm] {
      var a := Ack(c.currentTerm, c.id, |c.log|);
      h' := WithAck(h, a);
      assert AckOk(h, a);
      AckCarry(h, c, a);
      KeepsGrow(h, h');
      AckKeeps(h, c, a);
      AckShape(h, a);
    } else {
      h' := h;
    }
  }

  lemma AckShape(h: History, a: Ack)
    requires Shape(h) && AckOk(h, a)
    ensures Shape(WithAck(h, a)) && Extends(h, WithAck(h, a), a.node)
  {
    hide Grounded, Ordered, UpToDate, BallotOk, ElectionOk;
    var h' := WithAck(h, a);
    forall a' | a' in h'.acks ensures AckOk(h', a') {
      assert AckOk(h, a');
    }
    NewShape(h, h');
  }

  lemma AckKeeps(h: History, c: Core, a: Ack)
    requires NodeInv(h, c) && (forall a' :: a' in h.acks ==> AckOk(h, a'))
    requires c.currentTerm in h.logs && c.log <= h.logs[c.currentTerm]
    requires a == Ack(c.currentTerm, c.id, |c.log|) && AckOk(h, a)
    ensures NodeInv(WithAck(h, a), c)
  {
    hide Grounded, Ordered;
    assert forall k :: Kept(h, a, k, c.log, c.currentTerm);
    AcksGrow(h, WithAck(h, a), c);
  }

  lemma AckCarry(h: History, c: Core, a: Ack)
    requires HistoryInv(h) && VoteOk(h, c) && a.node == c.id && a.term == c.currentTerm && AckOk(h, a)
    ensures KeepsCarry(h, WithAck(h, a))
  {
    hide Grounded, Ordered, UpToDate, Kept;
    var h' := WithAck(h, a);
    forall t, v, a', k | t in h'.elections && v in h'.elections[t].voters && a' in h'.acks && a'.node == v && a'.term < t
      ensures CarriedByVoter(h, h', t, v, a', k)
    {
      if a' != a {
        assert KeptByVoter(h, t, v, a', k);
      }
    }
  }
}
