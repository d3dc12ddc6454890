/** The assumptions of agreement and progress can be met: one validator that certified rounds 0 and 1. */
module Solo {
  import opened Stake
  import opened Schedule
  import opened Dag
  import opened Verdict
  import opened Agreement
  import opened Runs

  function Committee(): ValidatorSet {
    map[1 := 1]
  }

  function Alone(): Moment {
    Moment(Net((r: Round) => Committee(), (r: Round) => Some(1), 5),
           Dag(map[10 := Certificate(0, 1, []), 11 := Certificate(1, 1, [10])],
               map[0 := map[1 := 10], 1 := map[1 := 11]], 1))
  }

  function Rank(): Digest -> nat {
    (d: Digest) => d
  }

  /** Its leader certificate of round 0 is supported by a quorum. */
  lemma Commits()
    ensures DirectStatus(Alone().net, Alone().dag, 0) == Committed(10)
  {
    var vs, dag := Committee(), Alone().dag;
    assert vs.Keys == {1};
    StakeSumExtract(vs, {1}, 1);
    assert {1} - {1} == {};
    assert Quorum(vs) == 1;
    assert Authors(dag, 1) == {1};
    assert ParentsOf(dag, 1, 1) == [10];
    assert Citing(dag, 1, 10) == {1};
  }

  lemma Linked()
    ensures Closed(Alone().dag.certs) && Ranked(Alone().dag.certs, Rank()) && Topped(Alone().dag)
  {
  }

  lemma Credited()
    ensures Coherent(Alone().dag) && Authored(Alone().net, Alone().dag.certs) && Follows(Alone().net, Alone().net)
  {
  }

  lemma Certified()
    ensures FullyCertified(Alone().net, Alone().dag, 1)
  {
  }

  /** Everything agreement, progress and direct verdicts assume holds at once, with a round committed. */
  lemma AssumptionsMet()
    ensures Sound(Alone(), Rank()) && Topped(Alone().dag) && Follows(Alone().net, Alone().net)
    ensures DirectStatus(Alone().net, Alone().dag, 0).Committed?
    ensures FullyCertified(Alone().net, Alone().dag, 1)
  {
    Certified();
    Linked();
    Credited();
    Commits();
  }
}
