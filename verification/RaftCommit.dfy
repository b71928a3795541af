/**
  The commit rule. First what the leader's sorted pick means on its own; then
  when a follower reports more than it was sent; then why an entry of a leader's
  own term, held by enough members to meet every majority, is in every later
  leader's log.
*/
module RaftCommit {
  import opened Raft
  import opened RaftCluster
  import opened RaftHistory
  import opened RaftInvariance
  import opened RaftRuns

  // ---------- the sorted pick ----------

  ghost predicate Descending(s: seq<nat>) {
    forall i, j :: 0 <= i <= j < |s| ==> s[i] >= s[j]
  }

  /** How many elements are at least `k`. */
  ghost function AtLeast(s: seq<nat>, k: nat): (n: nat)
    ensures n <= |s|
  {
    if s == [] then 0 else (if s[0] >= k then 1 else 0) + AtLeast(s[1..], k)
  }

  lemma {:induction false} InsertKeeps(x: nat, s: seq<nat>, k: nat)
    requires Descending(s)
    ensures Descending(InsertDescending(x, s))
    ensures AtLeast(InsertDescending(x, s), k) == AtLeast([x] + s, k)
    ensures forall y :: y in InsertDescending(x, s) <==> y == x || y in s
  {
    assert ([x] + s)[1..] == s;
    if s != [] && x < s[0] {
      var rest := InsertDescending(x, s[1..]);
      InsertKeeps(x, s[1..], k);
      assert ([s[0]] + rest)[1..] == rest;
      assert ([x] + s[1..])[1..] == s[1..];
      forall i | 0 <= i < |rest| ensures s[0] >= rest[i] {
        assert rest[i] in rest;
      }
    }
  }

  lemma {:induction false} SortKeeps(s: seq<nat>, k: nat)
    ensures Descending(SortDescending(s)) && AtLeast(SortDescending(s), k) == AtLeast(s, k)
  {
    if s != [] {
      SortKeeps(s[1..], k);
      InsertKeeps(s[0], SortDescending(s[1..]), k);
      assert ([s[0]] + SortDescending(s[1..]))[1..] == SortDescending(s[1..]);
    }
  }

  lemma {:induction false} DescendingCount(s: seq<nat>, k: nat, n: nat)
    requires Descending(s) && 1 <= n <= |s|
    ensures s[n - 1] >= k <==> AtLeast(s, k) >= n
  {
    if n > 1 {
      DescendingCount(s[1..], k, n - 1);
    } else if s[0] < k {
      NoneAtLeast(s, k);
    }
  }

  lemma {:induction false} NoneAtLeast(s: seq<nat>, k: nat)
    requires forall i :: 0 <= i < |s| ==> s[i] < k
    ensures AtLeast(s, k) == 0
  {
    if s != [] {
      NoneAtLeast(s[1..], k);
    }
  }

  /** The pick reaches `k` exactly when a majority of the entries do. */
  lemma MajorityPick(s: seq<nat>, k: nat)
    requires s != []
    ensures |SortDescending(s)| == |s|
    ensures SortDescending(s)[MajorityOf(|s|) - 1] >= k <==> AtLeast(s, k) >= MajorityOf(|s|)
  {
    SortDescendingLength(s);
    SortKeeps(s, k);
    DescendingCount(SortDescending(s), k, MajorityOf(|s|));
  }

  /** The members a leader believes to hold its log up to `k`, itself included. */
  function Believed(c: Core, k: nat): set<NodeId> {
    (set p | p in c.peers && MatchOf(c, p) >= k) + (if |c.log| >= k then {c.id} else {})
  }

  ghost predicate DistinctPeers(c: Core) {
    c.id !in c.peers && (forall i, j :: 0 <= i < j < |c.peers| ==> c.peers[i] != c.peers[j])
  }

  lemma SetOfPeers(c: Core, ps: seq<NodeId>, k: nat)
    requires ps != [] && forall i, j :: 0 <= i < j < |ps| ==> ps[i] != ps[j]
    ensures |set p | p in ps && MatchOf(c, p) >= k|
            == (if MatchOf(c, ps[0]) >= k then 1 else 0) + |set p | p in ps[1..] && MatchOf(c, p) >= k|
  {
    hide MatchOf;
    var all, rest := set p | p in ps && MatchOf(c, p) >= k, set p | p in ps[1..] && MatchOf(c, p) >= k;
    assert ps == [ps[0]] + ps[1..];
    assert ps[0] !in ps[1..];
    if MatchOf(c, ps[0]) >= k {
      assert all == rest + {ps[0]};
    } else {
      assert all == rest;
    }
  }

  lemma {:induction false} CountPeers(c: Core, ps: seq<NodeId>, k: nat)
    requires forall i, j :: 0 <= i < j < |ps| ==> ps[i] != ps[j]
    ensures AtLeast(MatchesOf(c, ps), k)
            == |set p | p in ps && MatchOf(c, p) >= k|
  {
    var s := MatchesOf(c, ps);
    if ps != [] {
      CountPeers(c, ps[1..], k);
      assert s[1..] == MatchesOf(c, ps[1..]);
      hide MatchOf;
      SetOfPeers(c, ps, k);
    }
  }

  lemma {:induction false} AtLeastSnoc(s: seq<nat>, x: nat, k: nat)
    ensures AtLeast(s + [x], k) == AtLeast(s, k) + if x >= k then 1 else 0
  {
    if s == [] {
      assert s + [x] == [x];
    } else {
      AtLeastSnoc(s[1..], x, k);
      assert (s + [x])[1..] == s[1..] + [x];
    }
  }

  lemma PickMeansMajority(c: Core, k: nat)
    requires DistinctPeers(c)
    ensures |SortDescending(MatchIndices(c))| == |c.peers| + 1
    ensures SortDescending(MatchIndices(c))[MajorityOf(|c.peers| + 1) - 1] >= k
            <==> |Believed(c, k)| >= MajorityOf(|c.peers| + 1)
  {
    MajorityPick(MatchIndices(c), k);
    AtLeastSnoc(MatchesOf(c, c.peers), |c.log|, k);
    CountPeers(c, c.peers, k);
    var held := set p | p in c.peers && MatchOf(c, p) >= k;
    assert c.id !in held;
    assert |Believed(c, k)| == |held| + if |c.log| >= k then 1 else 0;
  }

  /** An index the commit rule of section 5.4.2 of the Raft paper would allow. */
  ghost predicate Committable(c: Core, k: nat) {
    && c.commitIndex < k <= |c.log|
    && c.log[k - 1].term == c.currentTerm
    && |Believed(c, k)| >= MajorityOf(|c.peers| + 1)
  }

  /**
    The sorted pick finds the largest committable index, and moves exactly when
    there is one and no majority is believed to be past the end of the log.
  */
  lemma CommitIndexExact(c: Core)
    requires DistinctPeers(c) && Ordered(c.log, c.currentTerm) && c.currentTerm >= 1
    ensures var c' := AdvanceCommit(c);
            && c' == c.(commitIndex := c'.commitIndex)
            && (c'.commitIndex != c.commitIndex <==>
                  (exists k: nat :: Committable(c, k)) && |Believed(c, |c.log| + 1)| < MajorityOf(|c.peers| + 1))
            && (c'.commitIndex != c.commitIndex ==>
                  Committable(c, c'.commitIndex) && forall k: nat :: Committable(c, k) ==> k <= c'.commitIndex)
  {
    var pick := PickFacts(c);
    hide Believed, AdvanceCommit;
    if AdvanceCommit(c).commitIndex != c.commitIndex {
      assert Committable(c, pick);
    }
    if (exists k: nat :: Committable(c, k)) && pick <= |c.log| {
      var k: nat :| Committable(c, k);
      assert c.log[k - 1].term <= c.log[pick - 1].term <= c.currentTerm;
      assert TermAt(c.log, pick) == c.currentTerm;
    }
  }

  /** The picked index bounds every committable one, and is itself held by a majority. */
  lemma PickFacts(c: Core) returns (pick: nat)
    requires DistinctPeers(c)
    ensures AdvanceCommit(c)
            == if pick > c.commitIndex && TermAt(c.log, pick) == c.currentTerm then c.(commitIndex := pick) else c
    ensures |Believed(c, pick)| >= MajorityOf(|c.peers| + 1)
    ensures pick > |c.log| <==> |Believed(c, |c.log| + 1)| >= MajorityOf(|c.peers| + 1)
    ensures forall k: nat :: Committable(c, k) ==> k <= pick
  {
    hide SortDescending, MatchIndices, Believed;
    SortDescendingLength(MatchIndices(c));
    PickMeansMajority(c, |c.log| + 1);
    pick := SortDescending(MatchIndices(c))[MajorityOf(|c.peers| + 1) - 1];
    PickMeansMajority(c, pick);
    forall k: nat | Committable(c, k) ensures k <= pick {
      PickMeansMajority(c, k);
    }
  }

  // ---------- reports ----------

  /** The follower accepts the append in `env`. */
  predicate WouldAccept(c: Core, env: Envelope) {
    && env.rpc.AppendEntries?
    && env.rpc.term >= c.currentTerm
    && PrevMatches(c.log, env.rpc.prevLogIndex, env.rpc.prevLogTerm)
  }

  /** The log whose length the follower reports back. */
  function ReportedLog(c: Core, env: Envelope): seq<Entry>
    requires WouldAccept(c, env)
  {
    Reconcile(c.log, env.rpc.prevLogIndex, env.rpc.entries)
  }

  lemma {:induction false} ReconcileLength(log: seq<Entry>, prev: nat, entries: seq<Entry>)
    requires prev <= |log|
    ensures |Reconcile(log, prev, entries)| >= prev + |entries|
    ensures |Reconcile(log, prev, entries)| > prev + |entries| <==>
              |log| > prev + |entries|
              && forall i :: 0 <= i < |entries| ==> log[prev + i].term == entries[i].term
    decreases |entries|
  {
    if entries != [] {
      var agree := prev < |log| && log[prev].term == entries[0].term;
      var log' := if agree then log else log[..prev] + [entries[0]];
      ReconcileLength(log', prev + 1, entries[1..]);
      if agree && |log| > prev + |entries| {
        assert (forall i :: 0 <= i < |entries| ==> log[prev + i].term == entries[i].term)
               <==> (forall i :: 0 <= i < |entries[1..]| ==> log'[prev + 1 + i].term == entries[1..][i].term) by {
          if forall i :: 0 <= i < |entries[1..]| ==> log'[prev + 1 + i].term == entries[1..][i].term {
            forall i | 0 <= i < |entries| ensures log[prev + i].term == entries[i].term {
              if i > 0 {
                assert log'[prev + 1 + (i - 1)].term == entries[1..][i - 1].term;
              }
            }
          }
        }
      }
    }
  }

  /**
    A follower reports more than it was sent exactly when it already holds more
    than that and every sent entry agrees with what it holds.
  */
  lemma OverReportExact(c: Core, env: Envelope)
    requires WouldAccept(c, env)
    ensures var m, o := env.rpc, Receive(c, env);
            && o.Done? && |o.out| == 1 && o.out[0].rpc.success
            && o.out[0].rpc.matchIndex >= m.prevLogIndex + |m.entries|
            && (o.out[0].rpc.matchIndex > m.prevLogIndex + |m.entries| <==>
                  |c.log| > m.prevLogIndex + |m.entries|
                  && forall i :: 0 <= i < |m.entries| ==>
                       c.log[m.prevLogIndex + i].term == m.entries[i].term)
  {
    ReconcileLength(c.log, env.rpc.prevLogIndex, env.rpc.entries);
  }

  /** At some point up to `i`, a leader of `term` held a log starting with `log`. */
  ghost predicate LeaderHeld(r: Run, i: nat, term: Term, log: seq<Entry>) {
    exists j, n :: 0 <= j <= i && j < |r.states| && Leads(r.states[j], n, term) && log <= LogOf(r.states[j], n)
  }

  /**
    The report made at step `i`, if any, is no longer than what was sent, or ends
    in an entry of the leader's own term, or is a log that the leader has held.
  */
  ghost predicate TruthfulAt(r: Run, i: nat)
    requires IsRun(r) && i < |r.steps|
  {
    var step := r.steps[i];
    (step.Engine? && step.input.Inbound? && Enabled(r.states[i], step)) ==>
      var c, env := r.states[i].hosts[step.node].running.value, step.input.env;
      WouldAccept(c, env) ==>
        || |ReportedLog(c, env)| <= env.rpc.prevLogIndex + |env.rpc.entries|
        || LastTerm(ReportedLog(c, env)) == env.rpc.term
        || LeaderHeld(r, i, env.rpc.term, ReportedLog(c, env))
  }

  ghost predicate TruthfulReports(r: Run)
    requires IsRun(r)
  {
    forall i :: 0 <= i < |r.steps| ==> TruthfulAt(r, i)
  }

  // ---------- chosen entries and later leaders ----------

  ghost function Holders(h: History, t: Term, k: nat): set<NodeId> {
    set a | a in h.acks && a.term == t && a.length >= k :: a.node
  }

  /**
    The members on record as holding the log of `t` up to `k` meet every majority, and
    entry `k` is of term `t` itself.
  */
  ghost predicate Chosen(h: History, t: Term, k: nat) {
    && t in h.logs && 1 <= k <= |h.logs[t]|
    && h.logs[t][k - 1].term == t
    && |Holders(h, t, k)| + MajorityOf(|h.members|) > |h.members|
  }

  lemma ChosenGrows(h: History, h': History, t: Term, k: nat)
    requires Later(h, h') && Chosen(h, t, k)
    ensures Chosen(h', t, k) && h'.logs[t][..k] == h.logs[t][..k]
  {
    assert h.logs[t] <= h'.logs[t];
    SubsetSize(Holders(h, t, k), Holders(h', t, k));
  }

  lemma HoldersAreMembers(h: History, t: Term, k: nat)
    requires forall a :: a in h.acks ==> AckOk(h, a)
    ensures Holders(h, t, k) <= h.members
  {
  }

  /** A voter common to the holders and the electing majority still had the entries. */
  lemma CommonVoter(h: History, t: Term, k: nat, u: Term) returns (v: NodeId, a: Ack)
    requires HistoryInv(h) && Chosen(h, t, k) && u in h.elections && t < u
    requires forall w :: t < w < u && w in h.elections ==> h.logs[t][..k] <= h.elections[w].log
    ensures v in h.elections[u].voters && Seat(u, v) in h.ballots
    ensures h.logs[t][..k] <= h.ballots[Seat(u, v)].log
  {
    hide Grounded, Ordered, BallotOk;
    assert ElectionOk(h, u);
    HoldersAreMembers(h, t, k);
    v := SharedVoter(Holders(h, t, k), h.elections[u].voters, h.members);
    a :| a in h.acks && a.term == t && a.length >= k && a.node == v;
    assert AckOk(h, a) && KeptByVoter(h, u, v, a, k);
  }

  lemma SharedElement(p: seq<Entry>, q: seq<Entry>, log: seq<Entry>)
    requires p <= log && q <= log && 1 <= |p| <= |q|
    ensures p[|p| - 1] == q[|p| - 1]
  {
  }

  /** A log at least as up to date as one holding a chosen prefix, given that leaders so far hold it. */
  lemma UpToDateHolds(h: History, t: Term, k: nat, p: seq<Entry>, voter: seq<Entry>, winner: seq<Entry>, u: Term)
    requires 1 <= k == |p| && p[k - 1].term == t && p <= voter
    requires Grounded(voter, h.logs) && Grounded(winner, h.logs)
    requires Ordered(voter, u) && Ordered(winner, u - 1)
    requires UpToDate(|winner|, LastTerm(winner), voter)
    requires forall s :: t < s < u && s in h.logs ==> p <= h.logs[s]
    ensures p <= winner
  {
    assert voter[k - 1] == p[k - 1];
    assert voter[k - 1].term <= voter[|voter| - 1].term;
    var s := LastTerm(winner);
    assert winner != [];
    assert winner[..|winner| - 1 + 1] == winner && winner <= h.logs[s];
    var L := h.logs[s];
    if s == LastTerm(voter) {
      assert voter[..|voter| - 1 + 1] == voter && voter <= h.logs[s];
      assert p == voter[..k] == h.logs[s][..k] == winner[..k];
    } else {
      assert p <= L;
      if |winner| <= k {
        SharedElement(winner, p, L);
        assert false;
      }
      assert p == h.logs[s][..k] == winner[..k];
    }
  }

  /** Leader Completeness: what term `t` has chosen is in the log of every later leader. */
  lemma {:induction false} LeaderCompleteness(h: History, t: Term, k: nat, u: Term)
    requires HistoryInv(h) && Chosen(h, t, k) && u in h.elections && t < u
    ensures u in h.logs && h.logs[t][..k] <= h.elections[u].log <= h.logs[u]
    decreases u
  {
    hide BallotsKeep, ElectionsKeep, Grounded, Ordered;
    var p := h.logs[t][..k];
    forall w | t < w < u && w in h.elections ensures p <= h.elections[w].log && p <= h.logs[w] {
      LeaderCompleteness(h, t, k, w);
      PrefixChain(p, h.elections[w].log, h.logs[w]);
    }
    var v, a := CommonVoter(h, t, k, u);
    assert ElectionOk(h, u) && BallotOk(h, Seat(u, v));
    assert BallotOk(h, Seat(u, h.elections[u].leader));
    UpToDateHolds(h, t, k, p, h.ballots[Seat(u, v)].log, h.elections[u].log, u);
  }

  lemma PrefixChain(a: seq<Entry>, b: seq<Entry>, c: seq<Entry>)
    requires a <= b && b <= c
    ensures a <= c
  {
  }

  // ---------- safe prefixes ----------

  /** `p` lies within what some term, no later than `bound`, has chosen. */
  ghost predicate Safe(h: History, p: seq<Entry>, bound: Term) {
    p == [] || exists t: Term, k: nat :: t <= bound && Chosen(h, t, k) && p <= h.logs[t][..k]
  }

  lemma SafeGrows(h: History, h': History, p: seq<Entry>, bound: Term, bound': Term)
    requires Later(h, h') && Safe(h, p, bound) && bound <= bound'
    ensures Safe(h', p, bound')
  {
    if p != [] {
      var t: Term, k: nat :| t <= bound && Chosen(h, t, k) && p <= h.logs[t][..k];
      ChosenGrows(h, h', t, k);
    }
  }

  lemma SafeInLeader(h: History, p: seq<Entry>, bound: Term, u: Term)
    requires HistoryInv(h) && Safe(h, p, bound) && bound <= u && u in h.elections && u in h.logs
    ensures p <= h.logs[u]
  {
    hide HistoryInv;
    if p != [] {
      var t: Term, k: nat :| t <= bound && Chosen(h, t, k) && p <= h.logs[t][..k];
      if t < u {
        LeaderCompleteness(h, t, k, u);
        PrefixChain(p, h.logs[t][..k], h.elections[u].log);
        PrefixChain(p, h.elections[u].log, h.logs[u]);
      }
    }
  }

  lemma SafeAgreeOrdered(h: History, p: seq<Entry>, t: Term, k: nat, q: seq<Entry>, u: Term, l: nat)
    requires HistoryInv(h) && Chosen(h, t, k) && Chosen(h, u, l) && t <= u
    requires p <= h.logs[t][..k] && q <= h.logs[u][..l]
    ensures p <= q || q <= p
  {
    assert Safe(h, p, t);
    assert u in h.elections;
    SafeInLeader(h, p, t, u);
  }

  /** Two safe prefixes never disagree. */
  lemma SafeAgree(h: History, p: seq<Entry>, b: Term, q: seq<Entry>, d: Term)
    requires HistoryInv(h) && Safe(h, p, b) && Safe(h, q, d)
    ensures p <= q || q <= p
  {
    hide HistoryInv, Holders;
    if p != [] && q != [] {
      var t: Term, k: nat :| t <= b && Chosen(h, t, k) && p <= h.logs[t][..k];
      var u: Term, l: nat :| u <= d && Chosen(h, u, l) && q <= h.logs[u][..l];
      if t <= u {
        SafeAgreeOrdered(h, p, t, k, q, u, l);
      } else {
        SafeAgreeOrdered(h, q, u, l, p, t, k);
      }
    }
  }
}
