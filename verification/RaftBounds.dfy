/**
  How far the code keeps its promises without any assumption on reports, by the number
  of members: exactly when releases always agree, and exactly when no member stops.
*/
module RaftBounds {
  import opened Raft
  import opened RaftCluster
  import opened RaftTheorems
  import opened RaftViolation

  /** In every run of these members, two releases at one index carry one command. */
  ghost predicate ReleasesAlwaysAgree(members: set<NodeId>) {
    forall r, a, b :: IsRun(r) && r.members == members && Released(r, a) && Released(r, b) && a.index == b.index ==>
      a.command == b.command
  }

  ghost predicate Released(r: Run, a: Release) {
    |r.states| == |r.steps| + 1 && a in r.states[|r.steps|].released
  }

  /** State Machine Safety holds in exactly the clusters of at most two, or exactly four, members. */
  lemma AgreementExact(members: set<NodeId>)
    ensures ReleasesAlwaysAgree(members) <==> 3 * MajorityOf(|members|) > 2 * |members|
    ensures ReleasesAlwaysAgree(members) <==> |members| <= 2 || |members| == 4
  {
    hide IsRun;
    if 3 * MajorityOf(|members|) > 2 * |members| {
      forall r, a, b | IsRun(r) && r.members == members && Released(r, a) && Released(r, b) && a.index == b.index
        ensures a.command == b.command
      {
        SmallClustersAgree(r, a, b);
      }
    } else {
      var a :| a in members;
      assert |members - {a}| == |members| - 1;
      var b :| b in members - {a};
      var r := UnsafeRunOf(members, a, b);
      Lengthens(r);
      assert Released(r, Release(b, 1, Y)) && Released(r, Release(a, 1, X));
    }
  }

  /** In every run of these members, every engine iteration leaves its member running. */
  ghost predicate NobodyStops(members: set<NodeId>) {
    forall r, i :: IsRun(r) && r.members == members && 0 <= i < |r.steps| ==> StaysUp(r, i)
  }

  /** No member is ever led past the end of its log in exactly the clusters of at most two members. */
  lemma StoppingExact(members: set<NodeId>)
    ensures NobodyStops(members) <==> |members| <= 2
  {
    hide IsRun, StaysUp;
    if |members| <= 2 {
      forall r, i | IsRun(r) && r.members == members && 0 <= i < |r.steps| ensures StaysUp(r, i) {
        PairNeverStops(r, i);
      }
    } else {
      var r := StoppingRun(members);
      assert !StaysUp(r, |r.steps| - 1);
    }
  }
}
