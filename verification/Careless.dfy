/** Collecting far behind the finalized floor can still lose a certificate; collecting carefully does not. */
module Careless {
  import opened Schedule
  import opened Dag
  import opened Verdict
  import opened Resolve
  import opened Order
  import opened Agreement
  import opened Runs
  import opened Collect
  import opened Transparency
  import opened Unnoticed
  import opened Duo

  // ---- What direct commits emit ---------------------------------------------------------------------

  ghost predicate CommitsThrough(v: View, w: Round) {
    forall r :: 0 <= r <= w ==> v.direct(r).Committed?
  }

  lemma DirectEmitted(m: Moment, rank: Digest -> nat, w: Round, d: Digest)
    requires Sound(m, rank) && w <= UpTo(m.net, m.dag) && CommitsThrough(ViewOf(m.net, m.dag), w)
    requires ViewOf(m.net, m.dag).direct(w) == Committed(d)
    ensures Advanced(m.net, m.dag, rank, NEW).finalized > w && d in FreshOrder(m, rank)
  {
    var v, up := ViewOf(m.net, m.dag), UpTo(m.net, m.dag);
    ViewGrounded(m.net, m.dag, up);
    ViewEmits(v, rank, w, up, d);
    CacheTransparent(v, 0, rank, 0, up, {}, map[]);
  }

  lemma ViewEmits(v: View, rank: Digest -> nat, w: Round, upTo: Round, d: Digest)
    requires Ranked(v.certs, rank) && Closed(v.certs) && Grounded(v, upTo) && w <= upTo
    requires CommitsThrough(v, w) && v.direct(w) == Committed(d)
    ensures var p := Plain(v, 0, rank, 0, upTo, {}); p.round > w && d in p.ordered
  {
    PlainPasses(v, rank, 0, w, upTo, {});
    CommittedIsEmitted(v, rank, 0, w, upTo, {}, d);
  }

  /** Validator 2 cites its own certificate of round `r` in the next. */
  ghost predicate ClimbsAt(certs: Certs, r: Round) {
    2 * r + 1 in certs && 2 * r + 3 in certs && 2 * r + 1 in certs[2 * r + 3].parents
  }

  ghost predicate Climbs(certs: Certs, w: Round) {
    forall r :: 0 <= r <= w ==> ClimbsAt(certs, r)
  }

  lemma LeaderCites(dag: Dag, reach: Round, r: Round)
    requires Coherent(dag) && Spelled(dag.certs) && ClimbsAt(dag.certs, r)
    ensures ViewOf(LedBy(2, reach), dag).direct(r) == Committed(2 * r + 1)
  {
    OddIsSecond(dag.certs, r, 2 * r + 1);
    OddIsSecond(dag.certs, r + 1, 2 * r + 3);
    LeaderByDigest(dag, reach, r, 2 * r + 1, 2 * r + 3);
  }

  lemma LeaderByDigest(dag: Dag, reach: Round, r: Round, d: Digest, e: Digest)
    requires Coherent(dag) && d in dag.certs && dag.certs[d].round == r && dag.certs[d].author == 2
    requires e in dag.certs && dag.certs[e].round == r + 1 && dag.certs[e].author == 2 && d in dag.certs[e].parents
    ensures ViewOf(LedBy(2, reach), dag).direct(r) == Committed(d)
  {
    ByAuthorIsContents(dag, r, 2, d);
    SecondCites(dag, r + 1, d, e);
    CitedCommits(dag, 2, reach, r, d);
  }

  lemma OddIsSecond(certs: Certs, r: Round, d: Digest)
    requires Spelled(certs) && d in certs && d == 2 * r + 1
    ensures certs[d].round == r && certs[d].author == 2
  {
  }

  lemma SecondCites(dag: Dag, next: Round, d: Digest, e: Digest)
    requires Coherent(dag) && e in dag.certs && dag.certs[e].round == next && dag.certs[e].author == 2
    requires d in dag.certs[e].parents
    ensures 2 in Citing(dag, next, d)
  {
    ByAuthorIsContents(dag, next, 2, e);
  }

  lemma ClimbCommits(dag: Dag, reach: Round, w: Round)
    requires Good(dag) && Climbs(dag.certs, w)
    ensures CommitsThrough(ViewOf(LedBy(2, reach), dag), w)
  {
    var v := ViewOf(LedBy(2, reach), dag);
    forall k | 0 <= k <= w ensures v.direct(k).Committed? {
      LeaderCites(dag, reach, k);
    }
  }

  /** A climb of validator 2 finalizes every round it commits, and emits each of its certificates there. */
  lemma ClimbEmits(m: Moment, reach: Round, w: Round, r: Round)
    requires m.net == LedBy(2, reach) && Good(m.dag) && Climbs(m.dag.certs, w) && r <= w <= m.dag.highest <= reach
    ensures Usable(m, Rounds()) && Advanced(m.net, m.dag, Rounds(), NEW).finalized > w
    ensures 2 * r + 1 in FreshOrder(m, Rounds())
  {
    GoodUsable(m.dag, 2, reach);
    ClimbCommits(m.dag, reach, w);
    LeaderCites(m.dag, reach, w);
    LeaderCites(m.dag, reach, r);
    TwiceEmitted(m, Rounds(), w, r);
  }

  lemma TwiceEmitted(m: Moment, rank: Digest -> nat, w: Round, r: Round)
    requires Sound(m, rank) && r <= w <= UpTo(m.net, m.dag) && CommitsThrough(ViewOf(m.net, m.dag), w)
    requires ViewOf(m.net, m.dag).direct(w) == Committed(2 * w + 1)
    requires ViewOf(m.net, m.dag).direct(r) == Committed(2 * r + 1)
    ensures Advanced(m.net, m.dag, rank, NEW).finalized > w && 2 * r + 1 in FreshOrder(m, rank)
  {
    DirectEmitted(m, rank, w, 2 * w + 1);
    assert CommitsThrough(ViewOf(m.net, m.dag), r);
    DirectEmitted(m, rank, r, 2 * r + 1);
  }

  // ---- Runs of one collection ------------------------------------------------------------------------

  lemma CollectOnce(m: Moment, floor: Round, rank: Digest -> nat)
    requires Usable(m, rank) && floor <= Advanced(m.net, m.dag, rank, NEW).finalized
    ensures var es := [Collect(floor)];
            && Lawful(m, [], rank) && Collecting(m, [], rank) == AdvanceTo(START, m, rank)
            && Lawful(m, es, rank) && Keeping(m, es, rank) == AdvanceTo(START, m, rank)
            && Barrier(es) == floor && Barriers(es) == [0]
  {
    assert [Collect(floor)][..0] == [];
  }

  /** What an `advance` after a collection asks for. */
  ghost predicate Goes(m: Moment, floor: Round, m1: Moment, rank: Digest -> nat) {
    && Usable(m, rank) && floor <= Advanced(m.net, m.dag, rank, NEW).finalized
    && Usable(m1, rank) && Precedes(m, m1) && Low(m1.dag.certs, floor) <= m.dag.certs.Keys
  }

  function Events(floor: Round, m1: Moment): seq<Event> {
    [Collect(floor), Advance(m1, m1.net)]
  }

  lemma CollectThenAdvance(m: Moment, floor: Round, m1: Moment, rank: Digest -> nat)
    requires Goes(m, floor, m1, rank)
    ensures Lawful(m, Events(floor, m1), rank) && Barriers(Events(floor, m1)) == [0, floor]
    ensures Keeping(m, Events(floor, m1), rank).outputs ==
            [FreshOrder(m, rank), AdvanceProgress(m1.net, m1.dag, rank, Advanced(m.net, m.dag, rank, NEW)).ordered]
  {
    CollectOnce(m, floor, rank);
    assert Events(floor, m1)[..1] == [Collect(floor)];
  }

  lemma LateShows(m: Moment, floor: Round, m1: Moment, rank: Digest -> nat, x: Digest)
    requires Goes(m, floor, m1, rank) && rank(x) < floor && x in FreshOrder(m1, rank) && x !in FreshOrder(m, rank)
    ensures var es := Events(floor, m1);
            Lawful(m, es, rank) && Collecting(m, es, rank).outputs != Keeping(m, es, rank).outputs
  {
    var es := Events(floor, m1);
    CollectThenAdvance(m, floor, m1, rank);
    CollectionDrops(m, es, rank);
    FirstAdvanceSynced(m, rank);
    AdvanceStaysSynced(m, m1, rank, Run(FreshOrder(m, rank), Advanced(m.net, m.dag, rank, NEW)));
    var all, less := Keeping(m, es, rank).outputs, Collecting(m, es, rank).outputs;
    FromMembers(all[1], rank, floor);
    assert less[1] == From(all[1], rank, Barriers(es)[1]);
    assert x in all[1] && x !in less[1];
  }

  // ---- The orphan --------------------------------------------------------------------------------------

  /** Validator 2 alone through round `margin + 1`, and an uncited certificate of validator 1 in round 0. */
  function OrphanCerts(margin: nat): Certs {
    map d: Digest | 0 <= d < 2 * margin + 4 && (d == 0 || d % 2 == 1) :: Rung(d)
  }

  /** Later: validator 1 has climbed alongside from its orphan, and validator 2 cites it at the top. */
  function RescuedCerts(margin: nat): Certs {
    (map d: Digest | 0 <= d < 2 * margin + 4 :: Rung(d))
    [2 * margin + 5 := Certificate(margin + 2, 2, [2 * margin + 2, 2 * margin + 3])]
    [2 * margin + 7 := Certificate(margin + 3, 2, [2 * margin + 5])]
  }

  function Orphaned(margin: nat): Moment {
    Moment(LedBy(2, margin + 9), Store(OrphanCerts(margin), margin + 1))
  }

  function Rescued(margin: nat): Moment {
    Moment(LedBy(2, margin + 9), Store(RescuedCerts(margin), margin + 3))
  }

  lemma OrphanLinks(margin: nat)
    ensures Spelled(OrphanCerts(margin)) && Closed(OrphanCerts(margin)) && Layered(OrphanCerts(margin))
    ensures forall d :: d in OrphanCerts(margin) ==> OrphanCerts(margin)[d].round <= margin + 1
  {
  }

  lemma OrphanClimbs(margin: nat)
    ensures Climbs(OrphanCerts(margin), margin) && ClimbsAt(OrphanCerts(margin), 0)
  {
    forall r | 0 <= r <= margin ensures ClimbsAt(OrphanCerts(margin), r) {
      assert OrphanCerts(margin)[2 * r + 3] == Rung(2 * r + 3);
    }
  }

  lemma OrphanGood(margin: nat)
    ensures Good(Orphaned(margin).dag)
  {
    OrphanLinks(margin);
    StoreGood(OrphanCerts(margin), margin + 1);
  }

  lemma RescuedSpelled(margin: nat)
    ensures Spelled(RescuedCerts(margin))
    ensures forall d :: d in RescuedCerts(margin) ==> RescuedCerts(margin)[d].round <= margin + 3
  {
  }

  /** What each certificate lists, and that all of it is held. */
  lemma RescuedParents(margin: nat, d: Digest, p: Digest)
    requires d in RescuedCerts(margin) && p in RescuedCerts(margin)[d].parents
    ensures p in RescuedCerts(margin) && p / 2 + 1 == d / 2
  {
  }

  lemma RescuedLinks(margin: nat)
    ensures Closed(RescuedCerts(margin)) && Layered(RescuedCerts(margin))
  {
    var certs := RescuedCerts(margin);
    RescuedSpelled(margin);
    forall d, p | d in certs && p in certs[d].parents ensures p in certs && certs[p].round + 1 == certs[d].round {
      RescuedParents(margin, d, p);
    }
  }

  lemma RescuedClimbs(margin: nat)
    ensures Climbs(RescuedCerts(margin), margin + 2)
  {
    forall r | 0 <= r <= margin + 2 ensures ClimbsAt(RescuedCerts(margin), r) {
      if r <= margin {
        assert RescuedCerts(margin)[2 * r + 3] == Rung(2 * r + 3);
      }
    }
  }

  lemma RescuedGood(margin: nat)
    ensures Good(Rescued(margin).dag)
  {
    RescuedSpelled(margin);
    RescuedLinks(margin);
    StoreGood(RescuedCerts(margin), margin + 3);
  }

  /** Nothing cites the orphan and it is no leader, so it is not emitted. */
  lemma OrphanLeftBehind(margin: nat)
    ensures Usable(Orphaned(margin), Rounds()) && 0 !in FreshOrder(Orphaned(margin), Rounds())
  {
    OrphanGood(margin);
    OrphanClimbs(margin);
    OrphanUncited(margin);
    NotLeading(Orphaned(margin), margin + 9);
  }

  lemma NotLeading(m: Moment, reach: Round)
    requires m.net == LedBy(2, reach) && Good(m.dag) && ClimbsAt(m.dag.certs, 0)
    requires forall z :: z in m.dag.certs ==> 0 !in m.dag.certs[z].parents
    ensures Usable(m, Rounds()) && 0 !in FreshOrder(m, Rounds())
  {
    GoodUsable(m.dag, 2, reach);
    FirstLeader(m.net, m.dag, reach);
    Uncited(m, Rounds(), 0, 1);
  }

  lemma FirstLeader(net: Net, dag: Dag, reach: Round)
    requires net == LedBy(2, reach) && Coherent(dag) && Spelled(dag.certs) && ClimbsAt(dag.certs, 0)
    ensures ViewOf(net, dag).direct(0) == Committed(1)
  {
    LeaderCites(dag, reach, 0);
  }

  lemma OrphanUncited(margin: nat)
    ensures forall z :: z in OrphanCerts(margin) ==> 0 !in OrphanCerts(margin)[z].parents
  {
  }

  lemma Uncited(m: Moment, rank: Digest -> nat, y: Digest, d: Digest)
    requires Usable(m, rank) && rank(y) == 0 && ViewAt(m).direct(0) == Committed(d) && d != y
    requires forall z :: z in m.dag.certs ==> y !in m.dag.certs[z].parents
    ensures y !in FreshOrder(m, rank)
  {
    FreshIsPlain(m, rank);
    ViewPlaced(m.net, m.dag, Bound(m));
    if y in FreshOrder(m, rank) {
      EmittedForReason(ViewAt(m), rank, 0, Bound(m), {}, y);
    }
  }

  /** Down the chain of validator 1 to the orphan. */
  lemma {:induction false} Descends(certs: Certs, s: set<Digest>, r: Round, margin: nat)
    requires ParentClosed(certs, s) && 2 * r in s && r <= margin + 1
    requires forall d :: 0 <= d < 2 * margin + 4 ==> d in certs && certs[d] == Rung(d)
    ensures 0 in s
  {
    if r > 0 {
      assert certs[2 * r] == Rung(2 * r);
      Descends(certs, s, r - 1, margin);
    }
  }

  lemma OrphanRescued(margin: nat)
    ensures Usable(Rescued(margin), Rounds()) && 0 in FreshOrder(Rescued(margin), Rounds())
  {
    var m := Rescued(margin);
    RescuedGood(margin);
    RescuedClimbs(margin);
    ClimbEmits(m, margin + 9, margin + 2, margin + 2);
    OrderClosed(m, Rounds());
    RescueReaches(margin, Elements(FreshOrder(m, Rounds())));
  }

  lemma RescueReaches(margin: nat, s: set<Digest>)
    requires ParentClosed(RescuedCerts(margin), s) && 2 * (margin + 2) + 1 in s
    ensures 0 in s
  {
    var certs := RescuedCerts(margin);
    assert 2 * margin + 2 in certs[2 * margin + 5].parents;
    Descends(certs, s, margin + 1, margin);
  }

  lemma RescueFollows(margin: nat)
    ensures Precedes(Orphaned(margin), Rescued(margin))
    ensures Low(Rescued(margin).dag.certs, 1) <= Orphaned(margin).dag.certs.Keys
  {
    FollowsSelf(LedBy(2, margin + 9));
  }

  /**
   * Whatever margin a node keeps behind its finalized floor, there is a lawful run in which it collects
   * at least that far behind and yet loses a certificate the others emit: an orphan right below the
   * floor that is cited only later.
   */
  lemma CarelessCollectionShows(margin: nat)
    ensures var m, es := Orphaned(margin), Events(1, Rescued(margin));
            && Lawful(m, [], Rounds()) && 1 + margin <= Collecting(m, [], Rounds()).engine.finalized
            && Lawful(m, es, Rounds()) && Collecting(m, es, Rounds()).outputs != Keeping(m, es, Rounds()).outputs
  {
    var m, m1 := Orphaned(margin), Rescued(margin);
    OrphanGood(margin);
    OrphanClimbs(margin);
    ClimbEmits(m, margin + 9, margin, 0);
    OrphanLeftBehind(margin);
    OrphanRescued(margin);
    RescueFollows(margin);
    CollectOnce(m, 1, Rounds());
    LateShows(m, 1, m1, Rounds(), 0);
  }

  // ---- Careful runs exist ------------------------------------------------------------------------------

  lemma ColumnClimbs(n: nat)
    ensures Climbs(Column(n + 1), n)
  {
    var certs := Column(n + 1);
    forall r | 0 <= r <= n ensures ClimbsAt(certs, r) {
      assert certs[2 * r + 3] == Rung(2 * r + 3);
    }
  }

  function Climbed(n: nat, reach: Round): Moment {
    Moment(LedBy(2, reach), Store(Column(n), n))
  }

  lemma ColumnGrows(n: nat, floor: Round, reach: Round)
    requires floor <= n + 1
    ensures Precedes(Climbed(n + 1, reach), Climbed(n + 2, reach))
    ensures Low(Column(n + 2), floor) <= Column(n + 1).Keys
  {
    FollowsSelf(LedBy(2, reach));
  }

  /** The only certificate of the round right below the floor is validator 2's. */
  ghost predicate LoneRow(certs: Certs, floor: Round) {
    forall d :: d in certs && certs[d].round + 1 == floor ==> d + 1 == 2 * floor
  }

  lemma ColumnRow(n: nat, floor: Round)
    ensures LoneRow(Column(n), floor)
  {
  }

  lemma CarefulOnce(m: Moment, floor: Round, m1: Moment, rank: Digest -> nat)
    requires Goes(m, floor, m1, rank) && RowSeen(m.dag.certs, floor, Advanced(m.net, m.dag, rank, NEW).seen)
    ensures Lawful(m, Events(floor, m1), rank) && RowsSeen(m, Events(floor, m1), rank)
  {
    CollectThenAdvance(m, floor, m1, rank);
    CollectOnce(m, floor, rank);
    var es := Events(floor, m1);
    assert es[..1] == [Collect(floor)] && [Collect(floor)][..0] == [];
    assert RowsSeen(m, es[..1], rank);
  }

  lemma LoneRowIn(certs: Certs, r: Round, s: set<Digest>)
    requires LoneRow(certs, r + 1) && 2 * r + 1 in s
    ensures RowSeen(certs, r + 1, s)
  {
  }

  lemma SeenIsOrder(m: Moment, rank: Digest -> nat)
    requires Usable(m, rank)
    ensures Advanced(m.net, m.dag, rank, NEW).seen == Elements(FreshOrder(m, rank))
  {
    FirstAdvanceSynced(m, rank);
  }

  lemma LoneRowSeen(m: Moment, reach: Round, n: nat, r: Round)
    requires m.net == LedBy(2, reach) && Good(m.dag) && Climbs(m.dag.certs, n) && LoneRow(m.dag.certs, r + 1)
    requires r <= n <= m.dag.highest <= reach
    ensures Usable(m, Rounds()) && r + 1 <= Advanced(m.net, m.dag, Rounds(), NEW).finalized
    ensures RowSeen(m.dag.certs, r + 1, Advanced(m.net, m.dag, Rounds(), NEW).seen)
  {
    ClimbEmits(m, reach, n, r);
    SeenIsOrder(m, Rounds());
    LoneRowIn(m.dag.certs, r, Elements(FreshOrder(m, Rounds())));
  }

  /** A moment at which validator 2 has climbed alone through round `n + 1`. */
  ghost predicate Alone(m: Moment, reach: Round, n: nat, floor: Round) {
    && m.net == LedBy(2, reach) && Good(m.dag) && m.dag.highest == n + 1 <= reach
    && Climbs(m.dag.certs, n) && LoneRow(m.dag.certs, floor)
  }

  lemma ClimbedAlone(n: nat, reach: Round, floor: Round)
    requires n + 1 <= reach
    ensures Alone(Climbed(n + 1, reach), reach, n, floor)
  {
    ColumnGood(n + 1);
    ColumnClimbs(n);
    ColumnRow(n + 1, floor);
  }

  lemma CarefulRun(m: Moment, m1: Moment, reach: Round, n: nat, floor: Round)
    requires Alone(m, reach, n, floor) && Alone(m1, reach, n + 1, floor) && 1 <= floor <= n + 1
    requires Precedes(m, m1) && Low(m1.dag.certs, floor) <= m.dag.certs.Keys
    ensures Lawful(m, Events(floor, m1), Rounds()) && RowsSeen(m, Events(floor, m1), Rounds())
  {
    LoneRowSeen(m, reach, n, floor - 1);
    GoodUsable(m1.dag, 2, reach);
    CarefulOnce(m, floor, m1, Rounds());
  }

  /** At every positive floor there is a careful run that collects there and goes on. */
  lemma CarefulCollection(n: nat, floor: Round)
    requires 1 <= floor <= n + 1
    ensures var m, es := Climbed(n + 1, n + 9), Events(floor, Climbed(n + 2, n + 9));
            Lawful(m, es, Rounds()) && RowsSeen(m, es, Rounds())
  {
    ClimbedAlone(n, n + 9, floor);
    ClimbedAlone(n + 1, n + 9, floor);
    ColumnGrows(n, floor, n + 9);
    CarefulRun(Climbed(n + 1, n + 9), Climbed(n + 2, n + 9), n + 9, n, floor);
  }
}
