/** When a skipped round is final, and what the finalized floor is worth. */
module Finality {
  import opened Stake
  import opened Schedule
  import opened Dag
  import opened Verdict
  import opened Resolve
  import opened Order
  import opened Agreement
  import opened Transparency

  ghost function FateAt(m: Moment, round: Round): Outcome {
    Fate(ViewOf(m.net, m.dag), 0, round, UpTo(m.net, m.dag))
  }

  /** No view this one can grow into decides `round` differently. */
  ghost predicate Final(m: Moment, rank: Digest -> nat, round: Round) {
    forall m1 :: Sound(m1, rank) && Precedes(m, m1) ==> FateAt(m1, round) == FateAt(m, round)
  }

  /** What a skip needs: no leader at all, or the leader's certificate in hand, or a witness behind it. */
  ghost predicate Firm(m: Moment, round: Round) {
    || m.net.leader(round).None?
    || LeaderCert(m.net, m.dag, round).Some?
    || Witness(ViewOf(m.net, m.dag), round + 1, UpTo(m.net, m.dag)).Some?
  }

  /** Leaders are drawn from their round's committee. */
  ghost predicate Drawn(net: Net, round: Round) {
    net.leader(round).Some? ==> net.leader(round).value in net.committee(round)
  }

  // ---- A firm skip stays ------------------------------------------------------------------------

  lemma FirmStays(m: Moment, m1: Moment, rank: Digest -> nat, round: Round)
    requires Sound(m, rank) && Sound(m1, rank) && Precedes(m, m1) && round <= UpTo(m.net, m.dag)
    requires FateAt(m, round).Skipped? && Firm(m, round)
    ensures FateAt(m1, round).Skipped?
  {
    var v, v1, up, up1 := ViewOf(m.net, m.dag), ViewOf(m1.net, m1.dag), UpTo(m.net, m.dag), UpTo(m1.net, m1.dag);
    MomentsLater(m, m1, rank);
    assert Settles(v, v1, round);
    FollowsRound(m.net, m1.net, round);
    SkippedFateStays(v, up, v1, up1, 0, round);
  }

  // ---- Any other skip can reopen ----------------------------------------------------------------

  /** The view after the absent leader's certificate turns up: no parents, cited by nobody. */
  function Reopened(m: Moment, round: Round, leader: ValidatorId, d: Digest): Moment {
    m.(dag := Inserted(m.dag, d, Certificate(round, leader, [])).(highest := m.dag.highest))
  }

  lemma ReopenedRow(m: Moment, round: Round, leader: ValidatorId, d: Digest, r: Round, a: ValidatorId)
    requires Coherent(m.dag) && d !in m.dag.certs
    ensures var dag := Reopened(m, round, leader, d).dag;
            && ByAuthor(dag, r, a) == (if r == round && a == leader then Some(d) else ByAuthor(m.dag, r, a))
            && (r != round ==> ParentsOf(dag, r, a) == ParentsOf(m.dag, r, a))
  {
    InsertedByAuthor(m.dag, d, Certificate(round, leader, []), r, a);
  }

  lemma ReopenedIndexed(m: Moment, round: Round, leader: ValidatorId, d: Digest)
    requires Indexed(m.dag) && d !in m.dag.certs
    ensures Indexed(Reopened(m, round, leader, d).dag)
  {
  }

  lemma ReopenedCoherent(m: Moment, round: Round, leader: ValidatorId, d: Digest)
    requires Coherent(m.dag) && d !in m.dag.certs && ByAuthor(m.dag, round, leader).None?
    ensures Coherent(Reopened(m, round, leader, d).dag)
  {
    var dag := Reopened(m, round, leader, d).dag;
    ReopenedIndexed(m, round, leader, d);
    forall x | x in dag.certs ensures ByAuthor(dag, dag.certs[x].round, dag.certs[x].author) == Some(x) {
      ReopenedRow(m, round, leader, d, dag.certs[x].round, dag.certs[x].author);
    }
  }

  lemma ReopenedSound(m: Moment, rank: Digest -> nat, round: Round, leader: ValidatorId, d: Digest)
    requires Sound(m, rank) && d !in m.dag.certs && ByAuthor(m.dag, round, leader).None?
    requires leader in m.net.committee(round)
    ensures Sound(Reopened(m, round, leader, d), rank) && Precedes(m, Reopened(m, round, leader, d))
  {
    ReopenedCoherent(m, round, leader, d);
    FollowsSelf(m.net);
    ReopenedLinks(m, rank, round, leader, d);
    ReopenedAuthored(m, round, leader, d);
  }

  lemma ReopenedAuthored(m: Moment, round: Round, leader: ValidatorId, d: Digest)
    requires Authored(m.net, m.dag.certs) && leader in m.net.committee(round)
    ensures Authored(m.net, Reopened(m, round, leader, d).dag.certs)
  {
  }

  lemma ReopenedLinks(m: Moment, rank: Digest -> nat, round: Round, leader: ValidatorId, d: Digest)
    requires Closed(m.dag.certs) && Ranked(m.dag.certs, rank) && d !in m.dag.certs
    ensures var certs := Reopened(m, round, leader, d).dag.certs;
            Closed(certs) && Ranked(certs, rank) && Within(m.dag.certs, certs)
  {
  }

  lemma ReopenedAuthors(m: Moment, round: Round, leader: ValidatorId, d: Digest, next: Round)
    requires Coherent(m.dag) && d !in m.dag.certs && next != round
    ensures Authors(Reopened(m, round, leader, d).dag, next) == Authors(m.dag, next)
    ensures forall x :: Citing(Reopened(m, round, leader, d).dag, next, x) == Citing(m.dag, next, x)
  {
    var dag := Reopened(m, round, leader, d).dag;
    forall a ensures a in Authors(dag, next) <==> a in Authors(m.dag, next) {
      ReopenedRow(m, round, leader, d, next, a);
    }
    forall x ensures Citing(dag, next, x) == Citing(m.dag, next, x) {
      forall a | a in Authors(dag, next) ensures ParentsOf(dag, next, a) == ParentsOf(m.dag, next, a) {
        ReopenedRow(m, round, leader, d, next, a);
      }
    }
  }

  lemma ReopenedTerms(m: Moment, round: Round, leader: ValidatorId, d: Digest, r: Round)
    requires Coherent(m.dag) && d !in m.dag.certs && r >= round
    ensures var dag := Reopened(m, round, leader, d).dag;
            && Unknown(m.net, dag, r) == Unknown(m.net, m.dag, r)
            && forall x :: Support(m.net, dag, r, x) == Support(m.net, m.dag, r, x)
  {
    ReopenedAuthors(m, round, leader, d, r + 1);
  }

  lemma SameTerms(net: Net, dag: Dag, dag1: Dag, r: Round)
    requires LeaderCert(net, dag1, r) == LeaderCert(net, dag, r) && Unknown(net, dag1, r) == Unknown(net, dag, r)
    requires forall x :: Support(net, dag1, r, x) == Support(net, dag, r, x)
    requires ParentsHeld(dag, r + 1) && ParentsHeld(dag1, r + 1)
    ensures DirectStatus(net, dag1, r) == DirectStatus(net, dag, r)
  {
  }

  lemma ReopenedLeader(m: Moment, round: Round, leader: ValidatorId, d: Digest, r: Round)
    requires Coherent(m.dag) && d !in m.dag.certs && r != round
    ensures LeaderCert(m.net, Reopened(m, round, leader, d).dag, r) == LeaderCert(m.net, m.dag, r)
  {
    if m.net.leader(r).Some? {
      ReopenedRow(m, round, leader, d, r, m.net.leader(r).value);
    }
  }

  /** Later rounds are judged as before. */
  lemma ReopenedLater(m: Moment, rank: Digest -> nat, round: Round, leader: ValidatorId, d: Digest, r: Round)
    requires Sound(m, rank) && d !in m.dag.certs && r > round
    ensures DirectStatus(m.net, Reopened(m, round, leader, d).dag, r) == DirectStatus(m.net, m.dag, r)
  {
    ReopenedLeader(m, round, leader, d, r);
    ReopenedTerms(m, round, leader, d, r);
    ClosedHoldsParents(m.dag, r + 1);
    ClosedHeldAgain(m, rank, round, leader, d, r + 1);
    SameTerms(m.net, m.dag, Reopened(m, round, leader, d).dag, r);
  }

  lemma ClosedHeldAgain(m: Moment, rank: Digest -> nat, round: Round, leader: ValidatorId, d: Digest, next: Round)
    requires Sound(m, rank) && d !in m.dag.certs
    ensures ParentsHeld(Reopened(m, round, leader, d).dag, next)
  {
    ReopenedLinks(m, rank, round, leader, d);
    ClosedHoldsParents(Reopened(m, round, leader, d).dag, next);
  }

  lemma {:induction false} SameWitness(v: View, v1: View, round: Round, upTo: Round)
    requires forall r :: round <= r <= upTo ==> v1.direct(r) == v.direct(r)
    ensures Witness(v1, round, upTo) == Witness(v, round, upTo)
    decreases upTo - round + 1
  {
    if round <= upTo && v.direct(round).Skipped? {
      SameWitness(v, v1, round + 1, upTo);
    }
  }

  /** The newcomer has no support and cannot get any, so its round is skipped directly. */
  lemma ReopenedDirect(m: Moment, rank: Digest -> nat, round: Round, leader: ValidatorId, d: Digest)
    requires Sound(m, rank) && d !in m.dag.certs && m.net.leader(round) == Some(leader)
    requires LeaderCert(m.net, m.dag, round).None? && DirectStatus(m.net, m.dag, round).Skipped?
    ensures LeaderCert(m.net, Reopened(m, round, leader, d).dag, round) == Some(d)
    ensures DirectStatus(m.net, Reopened(m, round, leader, d).dag, round).Skipped?
  {
    ReopenedRow(m, round, leader, d, round, leader);
    ReopenedTerms(m, round, leader, d, round);
    ClosedHoldsParents(m.dag, round + 1);
    NoSupport(m.net, m.dag, round, d);
  }

  /** A skip of an absent leader that no witness backs becomes undecided when the certificate arrives. */
  lemma SkipReopens(m: Moment, rank: Digest -> nat, round: Round, leader: ValidatorId, d: Digest)
    requires Sound(m, rank) && d !in m.dag.certs && m.net.leader(round) == Some(leader) && Drawn(m.net, round)
    requires FateAt(m, round).Skipped? && !Firm(m, round)
    ensures var m1 := Reopened(m, round, leader, d);
            Sound(m1, rank) && Precedes(m, m1) && FateAt(m1, round).Undecided?
  {
    var m1 := Reopened(m, round, leader, d);
    ReopenedSound(m, rank, round, leader, d);
    ReopenedDirect(m, rank, round, leader, d);
    ReopenedVerdicts(m, rank, round, leader, d);
    OpenFate(ViewOf(m.net, m.dag), ViewOf(m1.net, m1.dag), round, UpTo(m.net, m.dag), d);
  }

  lemma ReopenedVerdicts(m: Moment, rank: Digest -> nat, round: Round, leader: ValidatorId, d: Digest)
    requires Sound(m, rank) && d !in m.dag.certs
    ensures var v, v1 := ViewOf(m.net, m.dag), ViewOf(m.net, Reopened(m, round, leader, d).dag);
            forall r :: round < r ==> v1.direct(r) == v.direct(r)
  {
    var v, v1 := ViewOf(m.net, m.dag), ViewOf(m.net, Reopened(m, round, leader, d).dag);
    forall r | round < r ensures v1.direct(r) == v.direct(r) {
      ReopenedLater(m, rank, round, leader, d, r);
    }
  }

  lemma OpenFate(v: View, v1: View, round: Round, upTo: Round, d: Digest)
    requires v1.direct(round).Skipped? && v1.target(round) == Some(d) && Witness(v, round + 1, upTo).None?
    requires forall r :: round < r ==> v1.direct(r) == v.direct(r)
    ensures Fate(v1, 0, round, upTo).Undecided?
  {
    SameWitness(v, v1, round + 1, upTo);
  }

  lemma FreshDigest(certs: Certs) returns (d: Digest)
    ensures d !in certs
  {
    d := Beyond(certs.Keys);
    assert d !in certs.Keys;
  }

  function Beyond(s: set<Digest>): (d: Digest)
    ensures forall x :: x in s ==> x < d
  {
    if s == {} then 0
    else
      var x := Least(s);
      var d := Beyond(s - {x});
      assert forall y :: y in s ==> y == x || y in s - {x};
      if x < d then d else x + 1
  }

  // ---- The exact conditions -----------------------------------------------------------------------

  /** A skipped round is final exactly when the skip is firm. */
  lemma SkipFinalExactly(m: Moment, rank: Digest -> nat, round: Round)
    requires Sound(m, rank) && Drawn(m.net, round) && round <= UpTo(m.net, m.dag) && FateAt(m, round).Skipped?
    ensures Final(m, rank, round) <==> Firm(m, round)
  {
    if Firm(m, round) {
      forall m1 | Sound(m1, rank) && Precedes(m, m1) ensures FateAt(m1, round) == FateAt(m, round) {
        FirmStays(m, m1, rank, round);
      }
    } else {
      var d := FreshDigest(m.dag.certs);
      SkipReopens(m, rank, round, m.net.leader(round).value, d);
    }
  }

  lemma CommitFinal(m: Moment, rank: Digest -> nat, round: Round)
    requires Sound(m, rank) && round <= UpTo(m.net, m.dag) && FateAt(m, round).Committed?
    ensures Final(m, rank, round)
  {
    forall m1 | Sound(m1, rank) && Precedes(m, m1) ensures FateAt(m1, round) == FateAt(m, round) {
      MomentsLater(m, m1, rank);
      CommittedFateStays(ViewOf(m.net, m.dag), UpTo(m.net, m.dag), ViewOf(m1.net, m1.dag), UpTo(m1.net, m1.dag),
                         0, round);
    }
  }

  /**
   * The finalized floor is permanent exactly when every skip below it is firm: `floor` is any bound
   * up to which all rounds are decided, such as the round a fresh pass stops at.
   */
  lemma FloorFinalExactly(m: Moment, rank: Digest -> nat, floor: Round)
    requires Sound(m, rank) && floor <= UpTo(m.net, m.dag) + 1
    requires forall r :: 0 <= r < floor ==> Drawn(m.net, r) && !FateAt(m, r).Undecided?
    ensures (forall r :: 0 <= r < floor ==> Final(m, rank, r)) <==>
            (forall r :: 0 <= r < floor && FateAt(m, r).Skipped? ==> Firm(m, r))
  {
    forall r | 0 <= r < floor
      ensures Final(m, rank, r) <==> (FateAt(m, r).Skipped? ==> Firm(m, r))
    {
      if FateAt(m, r).Committed? {
        CommitFinal(m, rank, r);
      } else {
        SkipFinalExactly(m, rank, r);
      }
    }
  }

  /** The same for the finalized floor a fresh engine reports. */
  lemma ReportedFloorFinalExactly(m: Moment, rank: Digest -> nat)
    requires Usable(m, rank) && forall r :: 0 <= r <= UpTo(m.net, m.dag) ==> Drawn(m.net, r)
    ensures var floor := Advanced(m.net, m.dag, rank, NEW).finalized;
            (forall r :: 0 <= r < floor ==> Final(m, rank, r)) <==>
            (forall r :: 0 <= r < floor && FateAt(m, r).Skipped? ==> Firm(m, r))
  {
    PassSettled(ViewAt(m), 0, rank, 0, Bound(m), {});
    CacheTransparent(ViewAt(m), 0, rank, 0, Bound(m), {}, map[]);
    FloorFinalExactly(m, rank, Advanced(m.net, m.dag, rank, NEW).finalized);
  }
}
