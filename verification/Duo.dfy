/** Two validators of unequal stake, and a concrete run of theirs in which a finalized round reopens. */
module Duo {
  import opened Stake
  import opened Schedule
  import opened Dag
  import opened Verdict
  import opened Resolve
  import opened Order
  import opened Agreement
  import opened Runs
  import opened Transparency
  import opened Finality

  /** Validator 2 is a quorum by itself; validator 1 is not. */
  function Committee(): ValidatorSet {
    map[1 := 1, 2 := 4]
  }

  function LedBy(leader: ValidatorId, reach: Round): Net {
    Net((r: Round) => Committee(), (r: Round) => Some(leader), reach)
  }

  lemma Stakes()
    ensures StakeSum(Committee(), {1}) == 1 && TotalStake(Committee()) == 5 && Quorum(Committee()) == 4
    ensures StakeSum(Committee(), {1, 2}) == 5
  {
    var vs := Committee();
    StakeSumExtract(vs, {1}, 1);
    assert {1} - {1} == {};
    StakeSumExtract(vs, {1, 2}, 2);
    assert {1, 2} - {2} == {1};
    assert vs.Keys == {1, 2};
  }

  /** A leader certificate that validator 2 cites is committed. */
  lemma CitedCommits(dag: Dag, leader: ValidatorId, reach: Round, r: Round, d: Digest)
    requires LeaderCert(LedBy(leader, reach), dag, r) == Some(d) && 2 in Citing(dag, r + 1, d)
    ensures DirectStatus(LedBy(leader, reach), dag, r) == Committed(d)
  {
    Stakes();
    StakeSumExtract(Committee(), Citing(dag, r + 1, d), 2);
  }

  /** While nobody is heard from the next round, a round is undecided. */
  lemma SilentUndecided(dag: Dag, leader: ValidatorId, reach: Round, r: Round)
    requires Authors(dag, r + 1) == {}
    ensures DirectStatus(LedBy(leader, reach), dag, r).Undecided?
  {
    Stakes();
    assert Missing(LedBy(leader, reach), dag, r) == {1, 2};
    var cert := LeaderCert(LedBy(leader, reach), dag, r);
    if cert.Some? {
      assert Citing(dag, r + 1, cert.value) == {};
    }
  }

  /** Once validator 2 is heard from, too little stake is missing for a quorum. */
  lemma OnlyOneMissing(dag: Dag, leader: ValidatorId, reach: Round, r: Round)
    requires Authors(dag, r + 1) <= {1, 2} && 1 !in Authors(dag, r + 1) && 2 in Authors(dag, r + 1)
    ensures Unknown(LedBy(leader, reach), dag, r) == 1 && Quorum(LedBy(leader, reach).committee(r)) == 4
  {
    Stakes();
    assert Missing(LedBy(leader, reach), dag, r) == {1};
  }

  // ---- Stores whose digests spell round and author -------------------------------------------------

  /** Half a digest is its round; even ones are validator 1's, odd ones validator 2's. */
  function Rounds(): Digest -> nat {
    (d: Digest) => d / 2
  }

  ghost predicate Spelled(certs: Certs) {
    forall d :: d in certs ==> certs[d].round == d / 2 && certs[d].author == d % 2 + 1
  }

  /** The store that holds `certs`, each in its slot. */
  function Store(certs: Certs, top: Round): Dag {
    Dag(certs, map r: Round | 0 <= r <= top :: RowOf(certs, r), top)
  }

  function RowOf(certs: Certs, r: Round): map<ValidatorId, Digest> {
    map a: ValidatorId | a in {1, 2} && Spell(r, a) in certs :: Spell(r, a)
  }

  function Spell(r: Round, a: ValidatorId): Digest {
    if a == 2 then 2 * r + 1 else 2 * r
  }

  ghost predicate Good(dag: Dag) {
    Coherent(dag) && Topped(dag) && Closed(dag.certs) && Layered(dag.certs) && Spelled(dag.certs)
  }

  lemma Spelling(d: Digest, r: Round, a: ValidatorId)
    requires a == 1 || a == 2
    ensures Spell(r, a) == d <==> r == d / 2 && a == d % 2 + 1
  {
  }

  lemma StoreCoherent(certs: Certs, top: Round)
    requires Spelled(certs) && forall d :: d in certs ==> certs[d].round <= top
    ensures Coherent(Store(certs, top))
  {
    var dag := Store(certs, top);
    forall r, a | r in dag.slots && a in dag.slots[r]
      ensures dag.slots[r][a] == Spell(r, a) && r == Spell(r, a) / 2 && a == Spell(r, a) % 2 + 1
    {
      Spelling(Spell(r, a), r, a);
    }
    forall d | d in certs ensures ByAuthor(dag, certs[d].round, certs[d].author) == Some(d) {
      Spelling(d, d / 2, d % 2 + 1);
    }
  }

  lemma StoreGood(certs: Certs, top: Round)
    requires Spelled(certs) && Closed(certs) && Layered(certs) && forall d :: d in certs ==> certs[d].round <= top
    ensures Good(Store(certs, top))
  {
    StoreCoherent(certs, top);
  }

  /** In such a store, looking up an author's certificate is looking up its digest. */
  lemma Lookup(dag: Dag, r: Round, a: ValidatorId)
    requires Good(dag) && (a == 1 || a == 2)
    ensures ByAuthor(dag, r, a) == if Spell(r, a) in dag.certs then Some(Spell(r, a)) else None
    ensures a in Authors(dag, r) <==> Spell(r, a) in dag.certs
  {
    var d := Spell(r, a);
    Spelling(d, r, a);
    ByAuthorIsContents(dag, r, a, d);
    var found := ByAuthor(dag, r, a);
    if found.Some? {
      ByAuthorIsContents(dag, r, a, found.value);
      Spelling(found.value, r, a);
    }
  }

  /** Only the two of them certify. */
  lemma Certifiers(dag: Dag, r: Round)
    requires Good(dag)
    ensures Authors(dag, r) <= {1, 2}
    ensures 1 in Authors(dag, r) <==> 2 * r in dag.certs
    ensures 2 in Authors(dag, r) <==> 2 * r + 1 in dag.certs
  {
    Lookup(dag, r, 1);
    Lookup(dag, r, 2);
    forall a | a in Authors(dag, r) ensures a in {1, 2} {
      ByAuthorIsContents(dag, r, a, ByAuthor(dag, r, a).value);
    }
  }

  lemma GoodUsable(dag: Dag, leader: ValidatorId, reach: Round)
    requires Good(dag)
    ensures Usable(Moment(LedBy(leader, reach), dag), Rounds())
  {
    SpelledRanked(dag.certs);
    SpelledAuthored(dag.certs, LedBy(leader, reach));
  }

  lemma SpelledRanked(certs: Certs)
    requires Spelled(certs) && Layered(certs)
    ensures Ranked(certs, Rounds())
  {
  }

  lemma SpelledAuthored(certs: Certs, net: Net)
    requires Spelled(certs) && forall r: Round :: net.committee(r) == Committee()
    ensures Authored(net, certs)
  {
  }

  /** Everyone citing only themselves. */
  function Rung(d: Digest): Certificate {
    Certificate(d / 2, d % 2 + 1, if d < 2 then [] else [d - 2])
  }

  /** Validator 2 alone, through round `n`. */
  function Column(n: Round): Certs {
    map d: Digest | 0 <= d < 2 * n + 2 && d % 2 == 1 :: Rung(d)
  }

  lemma ColumnGood(n: Round)
    ensures Good(Store(Column(n), n))
  {
    StoreGood(Column(n), n);
  }

  // ---- A skip that reopens ------------------------------------------------------------------------

  /** Validator 2 certified rounds 0 and 1; the leader, validator 1, has not been heard from. */
  function EarlyDag(): Dag {
    Store(Column(1), 1)
  }

  ghost predicate EarlyShape(dag: Dag) {
    Good(dag) && dag.certs.Keys == {1, 3} && dag.highest == 1
  }

  lemma TwoRungs()
    ensures Column(1).Keys == {1, 3}
  {
    forall d ensures d in Column(1) <==> d in {1, 3} {
    }
  }

  lemma EarlyBuilt()
    ensures EarlyShape(EarlyDag())
  {
    ColumnGood(1);
    TwoRungs();
  }

  lemma LeaderAbsent(dag: Dag)
    requires Good(dag) && 0 !in dag.certs
    ensures LeaderCert(LedBy(1, 9), dag, 0).None?
  {
    Lookup(dag, 0, 1);
  }

  lemma EnoughHeard(dag: Dag)
    requires Good(dag) && 3 in dag.certs && 2 !in dag.certs
    ensures Unknown(LedBy(1, 9), dag, 0) < Quorum(LedBy(1, 9).committee(0))
  {
    Certifiers(dag, 1);
    OnlyOneMissing(dag, 1, 9, 0);
  }

  lemma AbsentSkips(net: Net, dag: Dag, r: Round)
    requires net.leader(r).Some? && LeaderCert(net, dag, r).None?
    requires Unknown(net, dag, r) < Quorum(net.committee(r)) && ParentsHeld(dag, r + 1)
    ensures DirectStatus(net, dag, r).Skipped?
  {
  }

  lemma EarlyDirect(dag: Dag)
    requires Good(dag) && 3 in dag.certs && 0 !in dag.certs && 2 !in dag.certs
    ensures DirectStatus(LedBy(1, 9), dag, 0).Skipped? && LeaderCert(LedBy(1, 9), dag, 0).None?
  {
    LeaderAbsent(dag);
    EnoughHeard(dag);
    ClosedHoldsParents(dag, 1);
    AbsentSkips(LedBy(1, 9), dag, 0);
  }

  lemma EarlySilent(dag: Dag)
    requires Good(dag) && 4 !in dag.certs && 5 !in dag.certs
    ensures DirectStatus(LedBy(1, 9), dag, 1).Undecided?
  {
    Certifiers(dag, 2);
    SilentUndecided(dag, 1, 9, 1);
  }

  lemma SkipUnbacked(m: Moment)
    requires m.net.leader(0).Some? && LeaderCert(m.net, m.dag, 0).None? && UpTo(m.net, m.dag) == 1
    requires DirectStatus(m.net, m.dag, 0).Skipped? && DirectStatus(m.net, m.dag, 1).Undecided?
    ensures FateAt(m, 0).Skipped? && !Firm(m, 0)
  {
  }

  lemma EarlySkips(dag: Dag)
    requires EarlyShape(dag)
    ensures FateAt(Moment(LedBy(1, 9), dag), 0).Skipped? && !Firm(Moment(LedBy(1, 9), dag), 0)
  {
    EarlyDirect(dag);
    EarlySilent(dag);
    SkipUnbacked(Moment(LedBy(1, 9), dag));
  }

  lemma EarlyPasses(m: Moment, rank: Digest -> nat)
    requires Sound(m, rank) && FateAt(m, 0).Skipped?
    ensures Advanced(m.net, m.dag, rank, NEW).finalized > 0
  {
    var v, up := ViewOf(m.net, m.dag), UpTo(m.net, m.dag);
    SkipPasses(v, rank, up);
    CacheTransparent(v, 0, rank, 0, up, {}, map[]);
  }

  lemma SkipPasses(v: View, rank: Digest -> nat, upTo: Round)
    requires Ranked(v.certs, rank) && Fate(v, 0, 0, upTo).Skipped?
    ensures Plain(v, 0, rank, 0, upTo, {}).round > 0
  {
    PlainNeverRetreats(v, rank, 1, upTo, {});
  }

  lemma EarlyInsert(dag: Dag)
    requires EarlyShape(dag)
    ensures Reopened(Moment(LedBy(1, 9), dag), 0, 1, 0).dag == Inserted(dag, 0, Certificate(0, 1, []))
  {
    CardinalityOne(Inserted(dag, 0, Certificate(0, 1, [])).certs, 0);
    assert 1 in dag.certs;
  }

  /** Inserting the leader's late certificate reopens a round the engine counts as finalized. */
  lemma FinalizedRoundReopens()
    ensures var early := Moment(LedBy(1, 9), EarlyDag());
            var late := Moment(LedBy(1, 9), Inserted(EarlyDag(), 0, Certificate(0, 1, [])));
            && Sound(early, Rounds()) && Sound(late, Rounds()) && Precedes(early, late)
            && Advanced(early.net, early.dag, Rounds(), NEW).finalized > 0
            && FateAt(early, 0).Skipped? && FateAt(late, 0).Undecided?
  {
    EarlyBuilt();
    ReopensFrom(EarlyDag());
  }

  lemma ReopensFrom(dag: Dag)
    requires EarlyShape(dag)
    ensures var early := Moment(LedBy(1, 9), dag);
            var late := Moment(LedBy(1, 9), Inserted(dag, 0, Certificate(0, 1, [])));
            && Sound(early, Rounds()) && Sound(late, Rounds()) && Precedes(early, late)
            && Advanced(early.net, early.dag, Rounds(), NEW).finalized > 0
            && FateAt(early, 0).Skipped? && FateAt(late, 0).Undecided?
  {
    var early := Moment(LedBy(1, 9), dag);
    GoodUsable(dag, 1, 9);
    EarlySkips(dag);
    EarlyPasses(early, Rounds());
    SkipReopens(early, Rounds(), 0, 1, 0);
    EarlyInsert(dag);
  }
}
