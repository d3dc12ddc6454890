/** The direct commit rule: a three-way verdict on a round's leader, and why verdicts never clash. */
module Verdict {
  import opened Stake
  import opened Schedule
  import opened Dag

  /**
   * What every honest validator shares: the committee and the leader of each round, and the last
   * round that may be resolved.
   */
  datatype Net = Net(committee: Round -> ValidatorSet, leader: Round -> Option<ValidatorId>, frontier: Round)

  ghost function Below(all: set<nat>, id: nat): set<nat> {
    set x | x in all && x < id
  }

  /** In an ascending list the position of a member counts the members below it. */
  lemma {:induction false} BelowCount(all: set<nat>, ids: seq<nat>, k: nat)
    requires k < |ids| == |all| && (forall x :: x in ids <==> x in all)
    requires forall i, j :: 0 <= i < j < |ids| ==> ids[i] < ids[j]
    ensures |Below(all, ids[k])| == k
    decreases k
  {
    if k == 0 {
      assert Below(all, ids[k]) == {};
    } else {
      BelowCount(all, ids, k - 1);
      BelowNext(all, ids, k);
    }
  }

  lemma BelowNext(all: set<nat>, ids: seq<nat>, k: nat)
    requires 0 < k < |ids| && (forall x :: x in ids <==> x in all)
    requires forall i, j :: 0 <= i < j < |ids| ==> ids[i] < ids[j]
    ensures Below(all, ids[k]) == Below(all, ids[k - 1]) + {ids[k - 1]} && ids[k - 1] !in Below(all, ids[k - 1])
  {
    forall x | x in all ensures x < ids[k] <==> x < ids[k - 1] || x == ids[k - 1] {
      var i :| 0 <= i < |ids| && ids[i] == x;
    }
  }

  /** The lottery value of a round indexes its sorted committee. */
  function Draw(vs: ValidatorSet, ticket: nat): (l: Option<ValidatorId>)
    ensures l.Some? <==> vs.Keys != {}
    ensures l.Some? ==> l.value in vs
  {
    var ids := Ascending(vs.Keys);
    if ids == [] then None else Some(ids[ticket % |ids|])
  }

  /** The leader drawn is the member with exactly `ticket` modulo the committee's size members below it. */
  lemma DrawExactly(vs: ValidatorSet, ticket: nat)
    requires vs.Keys != {}
    ensures Draw(vs, ticket).Some? && |Below(vs.Keys, Draw(vs, ticket).value)| == ticket % |vs.Keys|
  {
    var ids := Ascending(vs.Keys);
    BelowCount(vs.Keys, ids, ticket % |ids|);
  }

  /** The net a committee schedule and a way to draw leaders induce. */
  function NetOf(s: Schedule, draw: (Round, ValidatorSet) -> Option<ValidatorId>): Net {
    Net((r: Round) => ForRound(s, r), (r: Round) => draw(r, ForRound(s, r)), FrontierRound(s))
  }

  datatype Outcome = Committed(digest: Digest) | Skipped | Undecided

  function LeaderCert(net: Net, dag: Dag, round: Round): Option<Digest> {
    match net.leader(round)
    case None => None
    case Some(l) => ByAuthor(dag, round, l)
  }

  /** The parents listed by the held certificate of `a` in `round`. */
  function ParentsOf(dag: Dag, round: Round, a: ValidatorId): seq<Digest> {
    match ByAuthor(dag, round, a)
    case None => []
    case Some(c) => dag.certs[c].parents
  }

  /** Authors of held certificates of the round `next` that name `d` as a parent. */
  function Citing(dag: Dag, next: Round, d: Digest): set<ValidatorId> {
    set a | a in Authors(dag, next) && d in ParentsOf(dag, next, a)
  }

  function Supporters(dag: Dag, round: Round, d: Digest): set<ValidatorId> {
    Citing(dag, round + 1, d)
  }

  /** Members of the next round's committee with no held certificate there yet. */
  function Missing(net: Net, dag: Dag, round: Round): set<ValidatorId> {
    net.committee(round + 1).Keys - Authors(dag, round + 1)
  }

  function Support(net: Net, dag: Dag, round: Round, d: Digest): nat {
    StakeSum(net.committee(round), Supporters(dag, round, d))
  }

  function Unknown(net: Net, dag: Dag, round: Round): nat {
    StakeSum(net.committee(round), Missing(net, dag, round))
  }

  /** Every parent of every held certificate of the round `next` is held. */
  predicate ParentsHeld(dag: Dag, next: Round) {
    forall a | a in Authors(dag, next) :: forall p | p in ParentsOf(dag, next, a) :: p in dag.certs
  }

  /** The direct verdict on `round`, under that round's own committee. */
  function DirectStatus(net: Net, dag: Dag, round: Round): Outcome {
    if net.leader(round).None? then Skipped
    else
      match LeaderCert(net, dag, round)
      case Some(d) => JudgeHeld(Quorum(net.committee(round)), d, Support(net, dag, round, d), Unknown(net, dag, round))
      case None =>
        if Unknown(net, dag, round) < Quorum(net.committee(round)) && ParentsHeld(dag, round + 1) then Skipped
        else Undecided
  }

  function JudgeHeld(quorum: nat, d: Digest, support: nat, unknown: nat): Outcome {
    if support >= quorum then Committed(d)
    else if support + unknown < quorum then Skipped
    else Undecided
  }

  // ---- The verdict read off the certificates ------------------------------------------------------

  /** `d` is a held certificate of the round's leader. */
  ghost predicate LeaderHeld(net: Net, certs: Certs, round: Round, d: Digest) {
    && net.leader(round).Some? && d in certs
    && certs[d].round == round && certs[d].author == net.leader(round).value
  }

  /** Who has a held certificate in `next`. */
  ghost function Heard(certs: Certs, next: Round): set<ValidatorId> {
    set c | c in certs && certs[c].round == next :: certs[c].author
  }

  /** Who has a held certificate in `next` that lists `d`. */
  ghost function Backers(certs: Certs, next: Round, d: Digest): set<ValidatorId> {
    set c | c in certs && certs[c].round == next && d in certs[c].parents :: certs[c].author
  }

  /** Stake of this round's committee that members of the next one not yet heard from still hold. */
  ghost function Outstanding(net: Net, certs: Certs, round: Round): nat {
    StakeSum(net.committee(round), net.committee(round + 1).Keys - Heard(certs, round + 1))
  }

  ghost function Backing(net: Net, certs: Certs, round: Round, d: Digest): nat {
    StakeSum(net.committee(round), Backers(certs, round + 1, d))
  }

  lemma RowIsContents(dag: Dag, next: Round, d: Digest)
    requires Coherent(dag)
    ensures Authors(dag, next) == Heard(dag.certs, next) && Citing(dag, next, d) == Backers(dag.certs, next, d)
  {
    forall a ensures a in Authors(dag, next) <==> a in Heard(dag.certs, next)
      ensures a in Citing(dag, next, d) <==> a in Backers(dag.certs, next, d)
    {
      AuthorIsContents(dag, next, a, d);
    }
  }

  lemma AuthorIsContents(dag: Dag, next: Round, a: ValidatorId, d: Digest)
    requires Coherent(dag)
    ensures a in Authors(dag, next) <==> a in Heard(dag.certs, next)
    ensures a in Citing(dag, next, d) <==> a in Backers(dag.certs, next, d)
  {
    forall c ensures ByAuthor(dag, next, a) == Some(c) <==>
                     c in dag.certs && dag.certs[c].round == next && dag.certs[c].author == a
    {
      ByAuthorIsContents(dag, next, a, c);
    }
  }

  ghost predicate AllParentsHeld(certs: Certs, next: Round) {
    forall c, p :: c in certs && certs[c].round == next && p in certs[c].parents ==> p in certs
  }

  lemma ParentsHeldIsContents(dag: Dag, next: Round)
    requires Coherent(dag)
    ensures ParentsHeld(dag, next) <==> AllParentsHeld(dag.certs, next)
  {
    forall c | c in dag.certs && dag.certs[c].round == next
      ensures dag.certs[c].author in Authors(dag, next) &&
              ParentsOf(dag, next, dag.certs[c].author) == dag.certs[c].parents
    {
      ByAuthorIsContents(dag, next, dag.certs[c].author, c);
    }
  }

  lemma LeaderCertIsContents(net: Net, dag: Dag, round: Round, d: Digest)
    requires Coherent(dag)
    ensures LeaderCert(net, dag, round) == Some(d) <==> LeaderHeld(net, dag.certs, round, d)
  {
    if net.leader(round).Some? {
      ByAuthorIsContents(dag, round, net.leader(round).value, d);
    }
  }

  lemma TermsAreContents(net: Net, dag: Dag, round: Round, d: Digest)
    requires Coherent(dag)
    ensures Support(net, dag, round, d) == Backing(net, dag.certs, round, d)
    ensures Unknown(net, dag, round) == Outstanding(net, dag.certs, round)
  {
    RowIsContents(dag, round + 1, d);
  }

  /** A direct commit: more than two thirds of the round's own stake cite the leader's certificate. */
  lemma CommitsExactly(net: Net, dag: Dag, round: Round, d: Digest)
    requires Coherent(dag)
    ensures DirectStatus(net, dag, round) == Committed(d) <==>
            && LeaderHeld(net, dag.certs, round, d)
            && 3 * Backing(net, dag.certs, round, d) > 2 * TotalStake(net.committee(round))
  {
    LeaderCertIsContents(net, dag, round, d);
    TermsAreContents(net, dag, round, d);
    QuorumLeast(net.committee(round));
  }

  /**
   * A direct skip: there is no leader; or its certificate is held and even all outstanding stake would
   * not lift it above two thirds; or it is absent, cannot be cited from what is held, and what is
   * outstanding does not exceed two thirds.
   */
  lemma SkipsExactly(net: Net, dag: Dag, round: Round)
    requires Coherent(dag)
    ensures var certs, bar, open := dag.certs, 2 * TotalStake(net.committee(round)), Outstanding(net, dag.certs, round);
            DirectStatus(net, dag, round).Skipped? <==>
            || net.leader(round).None?
            || (exists d :: LeaderHeld(net, certs, round, d) && 3 * (Backing(net, certs, round, d) + open) <= bar)
            || ((forall d :: !LeaderHeld(net, certs, round, d)) && 3 * open <= bar && AllParentsHeld(certs, round + 1))
  {
    forall d: Digest ensures LeaderCert(net, dag, round) == Some(d) <==> LeaderHeld(net, dag.certs, round, d) {
      LeaderCertIsContents(net, dag, round, d);
    }
    if LeaderCert(net, dag, round).Some? {
      SkipsHeld(net, dag, round, LeaderCert(net, dag, round).value);
    } else {
      SkipsAbsent(net, dag, round);
    }
  }

  lemma SkipsHeld(net: Net, dag: Dag, round: Round, d: Digest)
    requires Coherent(dag) && LeaderCert(net, dag, round) == Some(d)
    ensures DirectStatus(net, dag, round).Skipped? <==>
            3 * (Backing(net, dag.certs, round, d) + Outstanding(net, dag.certs, round)) <=
            2 * TotalStake(net.committee(round))
  {
    TermsAreContents(net, dag, round, d);
    QuorumLeast(net.committee(round));
    JudgedSkip(Quorum(net.committee(round)), d, Support(net, dag, round, d), Unknown(net, dag, round));
  }

  lemma JudgedSkip(quorum: nat, d: Digest, support: nat, unknown: nat)
    ensures JudgeHeld(quorum, d, support, unknown).Skipped? <==> !(support + unknown >= quorum)
  {
  }

  lemma SkipsAbsent(net: Net, dag: Dag, round: Round)
    requires Coherent(dag) && LeaderCert(net, dag, round).None?
    ensures DirectStatus(net, dag, round).Skipped? <==>
            || net.leader(round).None?
            || (&& 3 * Outstanding(net, dag.certs, round) <= 2 * TotalStake(net.committee(round))
                && AllParentsHeld(dag.certs, round + 1))
  {
    TermsAreContents(net, dag, round, 0);
    ParentsHeldIsContents(dag, round + 1);
    QuorumLeast(net.committee(round));
  }

  /**
   * `net1` carries `net` forward: no resolvable round changes committee or leader, the frontier does
   * not fall, and the committee right after the old frontier is either the one `net` already
   * had or one that replaces an inherited guess.
   */
  ghost predicate Follows(net: Net, net1: Net) {
    var f := net.frontier;
    && f <= net1.frontier
    && (forall r :: 0 <= r <= f ==> net1.committee(r) == net.committee(r))
    && (forall r :: 0 <= r <= f ==> net1.leader(r) == net.leader(r))
    && (net1.committee(f + 1) == net.committee(f + 1) || net.committee(f + 1) == net.committee(f))
  }

  /**
   * Certificates of resolvable rounds, and of the round right after, come from that round's
   * committee; right after the frontier the committee may still be an inherited guess.
   */
  ghost predicate Authored(net: Net, certs: Certs) {
    forall d :: d in certs && certs[d].round <= net.frontier + 1 ==>
      || certs[d].author in net.committee(certs[d].round)
      || (certs[d].round == net.frontier + 1 && net.committee(net.frontier + 1) == net.committee(net.frontier))
  }

  lemma FollowsRound(net: Net, net1: Net, round: Round)
    requires Follows(net, net1) && round <= net.frontier
    ensures round <= net1.frontier
    ensures net1.committee(round) == net.committee(round) && net1.leader(round) == net.leader(round)
    ensures net1.committee(round + 1) == net.committee(round + 1) || net.committee(round + 1) == net.committee(round)
  {
  }

  /** The terms of the verdict that a carried schedule leaves alone. */
  lemma VerdictTerms(net: Net, net1: Net, dag: Dag, round: Round)
    requires Follows(net, net1) && round <= net.frontier
    ensures net1.leader(round) == net.leader(round) && LeaderCert(net1, dag, round) == LeaderCert(net, dag, round)
    ensures Quorum(net1.committee(round)) == Quorum(net.committee(round))
    ensures forall d :: Support(net1, dag, round, d) == Support(net, dag, round, d)
  {
    FollowsRound(net, net1, round);
  }

  lemma AuthoredEarlier(net: Net, net1: Net, certs: Certs)
    requires Follows(net, net1) && Authored(net1, certs)
    ensures Authored(net, certs)
  {
    var f := net.frontier;
    forall d | d in certs && certs[d].round <= f + 1
      ensures || certs[d].author in net.committee(certs[d].round)
              || (certs[d].round == f + 1 && net.committee(f + 1) == net.committee(f))
    {
      FollowsRound(net, net1, f);
      if certs[d].round <= f {
        FollowsRound(net, net1, certs[d].round);
      }
    }
  }

  /** Whatever certificates the two views share a slot for are the same certificate. */
  ghost predicate Alike(x: Dag, y: Dag, round: Round) {
    forall a :: a in Authors(x, round) && a in Authors(y, round) ==> ParentsOf(x, round, a) == ParentsOf(y, round, a)
  }

  lemma ViewsAlike(whole: Dag, x: Dag, y: Dag, round: Round)
    requires Coherent(whole) && Coherent(x) && Coherent(y)
    requires Within(x.certs, whole.certs) && Within(y.certs, whole.certs)
    ensures Alike(x, y, round)
  {
    forall a | a in Authors(x, round) && a in Authors(y, round)
      ensures ParentsOf(x, round, a) == ParentsOf(y, round, a)
    {
      SlotsGrow(x, whole, round, a);
      SlotsGrow(y, whole, round, a);
    }
  }

  /** Support seen in one view was already there in another, or counted there as still possible. */
  lemma SupportBounded(net: Net, x: Dag, y: Dag, round: Round, d: Digest)
    requires Indexed(x) && Authored(net, x.certs) && round <= net.frontier
    requires Alike(x, y, round + 1)
    ensures Support(net, x, round, d) <= Support(net, y, round, d) + Unknown(net, y, round)
  {
    var now, next := net.committee(round), round + 1;
    var sup, mis := Supporters(y, round, d), Missing(net, y, round);
    forall a | a in Supporters(x, round, d) ensures a in sup + mis || StakeOf(now, a) == 0 {
      var c := ByAuthor(x, next, a).value;
      assert x.certs[c].round == next && x.certs[c].author == a;
    }
    StakeSumCovered(now, Supporters(x, round, d), sup + mis);
    StakeSumDisjoint(now, sup, mis);
  }

  /** A view holding every cited parent, but not `d`, shows no support for `d`. */
  lemma NoSupport(net: Net, dag: Dag, round: Round, d: Digest)
    requires ParentsHeld(dag, round + 1) && d !in dag.certs
    ensures Support(net, dag, round, d) == 0
  {
    assert Supporters(dag, round, d) == {};
  }

  /** A quorum one view has seen is within reach of every other view of the same DAG. */
  lemma QuorumWithinReach(net: Net, nx: Net, ny: Net, whole: Dag, x: Dag, y: Dag, round: Round, d: Digest)
    requires Coherent(whole) && Coherent(x) && Coherent(y) && Authored(net, whole.certs)
    requires Within(x.certs, whole.certs) && Within(y.certs, whole.certs)
    requires Follows(nx, net) && Follows(ny, net) && round <= nx.frontier && round <= ny.frontier
    requires Support(nx, x, round, d) >= Quorum(nx.committee(round))
    ensures Support(ny, y, round, d) + Unknown(ny, y, round) >= Quorum(ny.committee(round))
  {
    VerdictTerms(nx, net, x, round);
    VerdictTerms(ny, net, x, round);
    AuthoredEarlier(ny, net, whole.certs);
    ViewsAlike(whole, x, y, round + 1);
    SupportBounded(ny, x, y, round, d);
  }

  /** A leader certificate both views hold is the same certificate. */
  lemma SameLeaderCert(net: Net, nx: Net, ny: Net, whole: Dag, x: Dag, y: Dag, round: Round)
    requires Coherent(whole) && Coherent(x) && Coherent(y)
    requires Within(x.certs, whole.certs) && Within(y.certs, whole.certs)
    requires Follows(nx, net) && Follows(ny, net) && round <= nx.frontier && round <= ny.frontier
    ensures nx.leader(round) == ny.leader(round)
    ensures LeaderCert(nx, x, round).Some? && LeaderCert(ny, y, round).Some? ==>
              LeaderCert(nx, x, round) == LeaderCert(ny, y, round)
    ensures LeaderCert(nx, x, round).Some? && LeaderCert(nx, x, round).value in y.certs ==>
              LeaderCert(ny, y, round) == LeaderCert(nx, x, round)
  {
    FollowsRound(nx, net, round);
    FollowsRound(ny, net, round);
    if nx.leader(round).Some? {
      SlotsGrow(x, whole, round, nx.leader(round).value);
      SlotsGrow(y, whole, round, nx.leader(round).value);
    }
  }

  lemma DirectCommit(net: Net, dag: Dag, round: Round)
    requires DirectStatus(net, dag, round).Committed?
    ensures net.leader(round).Some? && LeaderCert(net, dag, round) == Some(DirectStatus(net, dag, round).digest)
    ensures Support(net, dag, round, DirectStatus(net, dag, round).digest) >= Quorum(net.committee(round))
  {
  }

  /**
   * Direct verdicts never conflict. `x` and `y` are arbitrary partial views of one DAG `whole`,
   * resolved under schedules `nx` and `ny` that have both been carried forward into `net`: if one
   * commits `round`, the other does not skip it, and never commits a different digest.
   */
  lemma DirectVerdictsAgree(net: Net, nx: Net, ny: Net, whole: Dag, x: Dag, y: Dag, round: Round)
    requires Coherent(whole) && Coherent(x) && Coherent(y) && Authored(net, whole.certs)
    requires Within(x.certs, whole.certs) && Within(y.certs, whole.certs)
    requires Follows(nx, net) && Follows(ny, net) && round <= nx.frontier && round <= ny.frontier
    requires DirectStatus(nx, x, round).Committed?
    ensures DirectStatus(ny, y, round) == DirectStatus(nx, x, round) || DirectStatus(ny, y, round).Undecided?
  {
    DirectCommit(nx, x, round);
    var d := DirectStatus(nx, x, round).digest;
    SameLeaderCert(net, nx, ny, whole, x, y, round);
    QuorumWithinReach(net, nx, ny, whole, x, y, round, d);
    VerdictFromTerms(ny, y, round, d);
  }

  /** A round whose only possible leader digest `d` is within reach of a quorum is not skipped. */
  lemma VerdictFromTerms(net: Net, dag: Dag, round: Round, d: Digest)
    requires net.leader(round).Some?
    requires LeaderCert(net, dag, round).Some? ==> LeaderCert(net, dag, round).value == d
    requires LeaderCert(net, dag, round).None? ==> d !in dag.certs
    requires Support(net, dag, round, d) + Unknown(net, dag, round) >= Quorum(net.committee(round))
    ensures DirectStatus(net, dag, round) == Committed(d) || DirectStatus(net, dag, round).Undecided?
  {
    if LeaderCert(net, dag, round).None? && ParentsHeld(dag, round + 1) {
      NoSupport(net, dag, round, d);
    }
  }

  lemma RowsGrow(dag: Dag, more: Dag, round: Round)
    requires Coherent(dag) && Coherent(more) && Within(dag.certs, more.certs)
    ensures Authors(dag, round) <= Authors(more, round)
    ensures Alike(dag, more, round)
  {
    forall a | a in Authors(dag, round)
      ensures a in Authors(more, round) && ParentsOf(dag, round, a) == ParentsOf(more, round, a)
    {
      SlotsGrow(dag, more, round, a);
    }
  }

  /** A direct commit is permanent: it survives any growth of the view and any carried schedule. */
  lemma CommittedStays(net: Net, net1: Net, dag: Dag, more: Dag, round: Round)
    requires Coherent(dag) && Coherent(more) && Within(dag.certs, more.certs)
    requires Follows(net, net1) && round <= net.frontier
    requires DirectStatus(net, dag, round).Committed?
    ensures DirectStatus(net1, more, round) == DirectStatus(net, dag, round)
  {
    FollowsRound(net, net1, round);
    var d := DirectStatus(net, dag, round).digest;
    SlotsGrow(dag, more, round, net.leader(round).value);
    RowsGrow(dag, more, round + 1);
    StakeSumCovered(net.committee(round), Supporters(dag, round, d), Supporters(more, round, d));
  }

  /** What may still turn up only shrinks as the view grows and the schedule is carried forward. */
  lemma UnknownShrinks(net: Net, net1: Net, dag: Dag, more: Dag, round: Round)
    requires Follows(net, net1) && round <= net.frontier
    requires Authors(dag, round + 1) <= Authors(more, round + 1)
    ensures Unknown(net1, more, round) <= Unknown(net, dag, round)
  {
    FollowsRound(net, net1, round);
    StakeSumCovered(net.committee(round), Missing(net1, more, round), Missing(net, dag, round));
  }

  /** Whoever supports or is missing later supported or was missing before, or weighs nothing. */
  lemma SupportersCovered(net: Net, net1: Net, dag: Dag, more: Dag, round: Round, next: Round, d: Digest,
                          a: ValidatorId)
    requires Coherent(dag) && Coherent(more) && Within(dag.certs, more.certs) && next == round + 1
    requires Authored(net, more.certs) && round <= net.frontier
    requires net1.committee(next) == net.committee(next) || net.committee(next) == net.committee(round)
    requires a in Citing(more, next, d) || a in net1.committee(next).Keys - Authors(more, next)
    ensures || a in Citing(dag, next, d)
            || a in net.committee(next).Keys - Authors(dag, next)
            || StakeOf(net.committee(round), a) == 0
  {
    RowsGrow(dag, more, next);
    if a in Citing(more, next, d) {
      var c := ByAuthor(more, next, a).value;
      assert more.certs[c].round == next && more.certs[c].author == a;
    }
  }

  lemma SupportPlusUnknownShrinks(net: Net, net1: Net, dag: Dag, more: Dag, round: Round, d: Digest)
    requires Coherent(dag) && Coherent(more) && Within(dag.certs, more.certs)
    requires Authored(net1, more.certs) && Follows(net, net1) && round <= net.frontier
    ensures Support(net1, more, round, d) + Unknown(net1, more, round) <=
            Support(net, dag, round, d) + Unknown(net, dag, round)
  {
    FollowsRound(net, net1, round);
    AuthoredEarlier(net, net1, more.certs);
    SetsCovered(net, net1, dag, more, round, round + 1, d);
    CoveredSums(net.committee(round), Supporters(more, round, d), Missing(net1, more, round),
                Supporters(dag, round, d), Missing(net, dag, round));
  }

  lemma SetsCovered(net: Net, net1: Net, dag: Dag, more: Dag, round: Round, next: Round, d: Digest)
    requires Coherent(dag) && Coherent(more) && Within(dag.certs, more.certs) && next == round + 1
    requires Authored(net, more.certs) && round <= net.frontier
    requires net1.committee(next) == net.committee(next) || net.committee(next) == net.committee(round)
    ensures var was := Citing(dag, next, d) + (net.committee(next).Keys - Authors(dag, next));
            var now := Citing(more, next, d) + (net1.committee(next).Keys - Authors(more, next));
            forall a :: a in now ==> a in was || StakeOf(net.committee(round), a) == 0
  {
    var was := Citing(dag, next, d) + (net.committee(next).Keys - Authors(dag, next));
    var now := Citing(more, next, d) + (net1.committee(next).Keys - Authors(more, next));
    forall a | a in now ensures a in was || StakeOf(net.committee(round), a) == 0 {
      SupportersCovered(net, net1, dag, more, round, next, d, a);
    }
  }

  lemma CoveredSums(vs: ValidatorSet, a: set<ValidatorId>, b: set<ValidatorId>, c: set<ValidatorId>,
                    d: set<ValidatorId>)
    requires a !! b && c !! d && forall x :: x in a + b ==> x in c + d || StakeOf(vs, x) == 0
    ensures StakeSum(vs, a) + StakeSum(vs, b) <= StakeSum(vs, c) + StakeSum(vs, d)
  {
    StakeSumDisjoint(vs, a, b);
    StakeSumDisjoint(vs, c, d);
    StakeSumCovered(vs, a + b, c + d);
  }

  lemma ClosedHoldsParents(dag: Dag, next: Round)
    requires Closed(dag.certs)
    ensures ParentsHeld(dag, next)
  {
  }

  /** A skipped round cannot reach quorum on any digest but another certificate of its leader. */
  lemma DirectSkip(net: Net, dag: Dag, round: Round, d: Digest)
    requires DirectStatus(net, dag, round).Skipped? && net.leader(round).Some?
    requires if LeaderCert(net, dag, round).Some? then LeaderCert(net, dag, round).value == d else d !in dag.certs
    ensures Support(net, dag, round, d) + Unknown(net, dag, round) < Quorum(net.committee(round))
  {
    if LeaderCert(net, dag, round).None? {
      NoSupport(net, dag, round, d);
    }
  }

  lemma SkippedStaysHeld(net: Net, net1: Net, dag: Dag, more: Dag, round: Round, d: Digest)
    requires Coherent(dag) && Coherent(more) && Within(dag.certs, more.certs)
    requires Authored(net1, more.certs) && Follows(net, net1) && round <= net.frontier
    requires DirectStatus(net, dag, round).Skipped?
    requires net.leader(round).Some? && LeaderCert(net1, more, round) == Some(d)
    ensures Support(net1, more, round, d) + Unknown(net1, more, round) < Quorum(net1.committee(round))
  {
    VerdictTerms(net, net1, dag, round);
    SupportPlusUnknownShrinks(net, net1, dag, more, round, d);
    SlotsGrow(dag, more, round, net.leader(round).value);
    DirectSkip(net, dag, round, d);
  }

  /** A direct skip is permanent once the larger view holds every parent it refers to. */
  lemma SkippedStays(net: Net, net1: Net, dag: Dag, more: Dag, round: Round)
    requires Coherent(dag) && Coherent(more) && Within(dag.certs, more.certs)
    requires Closed(more.certs) && Authored(net1, more.certs)
    requires Follows(net, net1) && round <= net.frontier
    requires DirectStatus(net, dag, round).Skipped?
    ensures DirectStatus(net1, more, round).Skipped?
  {
    VerdictTerms(net, net1, dag, round);
    if net.leader(round).Some? {
      if LeaderCert(net1, more, round).Some? {
        SkippedStaysHeld(net, net1, dag, more, round, LeaderCert(net1, more, round).value);
      } else {
        SkippedStaysAbsent(net, net1, dag, more, round);
      }
    }
  }

  lemma SkippedStaysAbsent(net: Net, net1: Net, dag: Dag, more: Dag, round: Round)
    requires Coherent(dag) && Coherent(more) && Within(dag.certs, more.certs) && Closed(more.certs)
    requires Follows(net, net1) && round <= net.frontier && DirectStatus(net, dag, round).Skipped?
    requires net.leader(round).Some? && LeaderCert(net1, more, round).None?
    ensures DirectStatus(net1, more, round).Skipped?
  {
    VerdictTerms(net, net1, dag, round);
    SlotsGrow(dag, more, round, net.leader(round).value);
    RowsGrow(dag, more, round + 1);
    UnknownShrinks(net, net1, dag, more, round);
    ClosedHoldsParents(more, round + 1);
  }

  /** On a fixed view, carrying the schedule forward at most turns an undecided round into a skipped one. */
  lemma CarryingFlipsNothing(net: Net, next: Net, dag: Dag, round: Round)
    requires Follows(net, next) && round <= net.frontier
    ensures || DirectStatus(next, dag, round) == DirectStatus(net, dag, round)
            || (DirectStatus(net, dag, round).Undecided? && DirectStatus(next, dag, round).Skipped?)
  {
    VerdictTerms(net, next, dag, round);
    UnknownShrinks(net, next, dag, dag, round);
  }

  /**
   * Installing a not-yet-installed epoch beyond the frontier, and then raising the frontier,
   * carries the net forward.
   */
  lemma InstallFollows(s: Schedule, draw: (Round, ValidatorSet) -> Option<ValidatorId>,
                       epoch: nat, committee: ValidatorSet, frontier: nat)
    requires s.frontier < U64_MAX && (s.frontier + 1) * s.epochRounds <= U64_MAX
    requires s.frontier < epoch && epoch !in s.committees && s.frontier <= frontier <= U64_MAX
    ensures Follows(NetOf(s, draw),
                    NetOf(s.(committees := s.committees[epoch := committee], frontier := frontier), draw))
  {
    var s1: Schedule := s.(committees := s.committees[epoch := committee], frontier := frontier);
    FrontierMonotone(s, s1);
    InstallNext(s, epoch, committee);
    forall r | 0 <= r <= FrontierRound(s) ensures ForRound(s1, r) == ForRound(s, r) {
      InstallSame(s, epoch, committee, frontier, r);
    }
    CarriedFollows(s, s1, draw);
  }

  lemma CarriedFollows(s: Schedule, s1: Schedule, draw: (Round, ValidatorSet) -> Option<ValidatorId>)
    requires FrontierRound(s) <= FrontierRound(s1)
    requires forall r :: 0 <= r <= FrontierRound(s) ==> ForRound(s1, r) == ForRound(s, r)
    requires var f := FrontierRound(s);
             ForRound(s1, f + 1) == ForRound(s, f + 1) || ForRound(s, f + 1) == ForRound(s, f)
    ensures Follows(NetOf(s, draw), NetOf(s1, draw))
  {
  }

  lemma InstallSame(s: Schedule, epoch: nat, committee: ValidatorSet, frontier: nat, r: Round)
    requires s.frontier < U64_MAX && (s.frontier + 1) * s.epochRounds <= U64_MAX
    requires s.frontier < epoch && r <= FrontierRound(s)
    ensures ForRound(s.(committees := s.committees[epoch := committee], frontier := frontier), r) == ForRound(s, r)
  {
    var mid: Schedule := s.(committees := s.committees[epoch := committee]);
    EpochsUpToFrontier(s, r);
    InstallKeepsEarlier(s, epoch, committee, r);
    assert ForRound(mid.(frontier := frontier), r) == ForRound(mid, r);
  }

  /** Carrying forward composes. */
  lemma FollowsCompose(net: Net, mid: Net, net1: Net)
    requires Follows(net, mid) && Follows(mid, net1)
    ensures Follows(net, net1)
  {
    var f := net.frontier;
    FollowsRound(net, mid, f);
    forall r | 0 <= r <= f ensures net1.committee(r) == net.committee(r) && net1.leader(r) == net.leader(r) {
      FollowsRound(net, mid, r);
      FollowsRound(mid, net1, r);
    }
    if f < mid.frontier {
      FollowsRound(mid, net1, f + 1);
    }
  }

  lemma FollowsSelf(net: Net)
    ensures Follows(net, net)
  {
  }

  /** What a running node does to its schedule as epochs go by. */
  datatype Change = Install(epoch: nat, committee: ValidatorSet) | Raise(frontier: nat)

  function Changed(s: Schedule, c: Change): Schedule {
    match c
    case Install(epoch, committee) => s.(committees := s.committees[epoch := committee])
    case Raise(frontier) => s.(frontier := if frontier > s.frontier then frontier else s.frontier)
  }

  function AllChanged(s: Schedule, cs: seq<Change>): Schedule {
    if cs == [] then s else Changed(AllChanged(s, cs[..|cs| - 1]), cs[|cs| - 1])
  }

  /** Epochs are installed once, while still beyond a frontier that has not saturated. */
  ghost predicate Timely(s: Schedule, c: Change) {
    match c
    case Install(epoch, _) =>
      && s.frontier < U64_MAX && (s.frontier + 1) * s.epochRounds <= U64_MAX
      && s.frontier < epoch && epoch !in s.committees
    case Raise(frontier) => frontier <= U64_MAX
  }

  ghost predicate AllTimely(s: Schedule, cs: seq<Change>) {
    forall i :: 0 <= i < |cs| ==> Timely(AllChanged(s, cs[..i]), cs[i])
  }

  lemma ChangeFollows(s: Schedule, draw: (Round, ValidatorSet) -> Option<ValidatorId>, c: Change)
    requires Timely(s, c) && s.frontier <= U64_MAX
    ensures Follows(NetOf(s, draw), NetOf(Changed(s, c), draw)) && Changed(s, c).frontier <= U64_MAX
  {
    match c {
      case Install(epoch, committee) =>
        InstallFollows(s, draw, epoch, committee, s.frontier);
        assert Changed(s, c) == s.(committees := s.committees[epoch := committee], frontier := s.frontier);
      case Raise(frontier) =>
        FrontierMonotone(s, Changed(s, c));
        CarriedFollows(s, Changed(s, c), draw);
    }
  }

  /** Any timely sequence of installations and frontier raises, over many epochs, carries the net forward. */
  lemma {:induction false} ChangesFollow(s: Schedule, draw: (Round, ValidatorSet) -> Option<ValidatorId>,
                                         cs: seq<Change>)
    requires AllTimely(s, cs) && s.frontier <= U64_MAX
    ensures Follows(NetOf(s, draw), NetOf(AllChanged(s, cs), draw)) && AllChanged(s, cs).frontier <= U64_MAX
    decreases |cs|
  {
    if cs == [] {
      FollowsSelf(NetOf(s, draw));
    } else {
      var n := |cs| - 1;
      TimelyPrefix(s, cs, n);
      ChangesFollow(s, draw, cs[..n]);
      var mid := AllChanged(s, cs[..n]);
      ChangeFollows(mid, draw, cs[n]);
      FollowsCompose(NetOf(s, draw), NetOf(mid, draw), NetOf(Changed(mid, cs[n]), draw));
    }
  }

  lemma ChangedNext(s: Schedule, cs: seq<Change>, j: nat)
    requires j < |cs|
    ensures AllChanged(s, cs[..j + 1]) == Changed(AllChanged(s, cs[..j]), cs[j])
  {
    assert cs[..j + 1][..j] == cs[..j];
  }

  /** After the first `j` changes `epoch` has the committee `vs`. */
  ghost predicate Installed(s: Schedule, cs: seq<Change>, j: nat, epoch: nat, vs: ValidatorSet)
    requires j <= |cs|
  {
    var t := AllChanged(s, cs[..j]);
    epoch in t.committees && t.committees[epoch] == vs && t.epochRounds == s.epochRounds
  }

  /** Epochs once there stay as they were installed. */
  lemma {:induction false} InstalledStays(s: Schedule, cs: seq<Change>, i: nat, j: nat, epoch: nat, vs: ValidatorSet)
    requires AllTimely(s, cs) && i <= j <= |cs| && Installed(s, cs, i, epoch, vs)
    ensures Installed(s, cs, j, epoch, vs)
    decreases j
  {
    if i < j {
      InstalledStays(s, cs, i, j - 1, epoch, vs);
      InstalledNext(s, cs, j - 1, epoch, vs);
    }
  }

  lemma InstalledNext(s: Schedule, cs: seq<Change>, j: nat, epoch: nat, vs: ValidatorSet)
    requires j < |cs| && Timely(AllChanged(s, cs[..j]), cs[j]) && Installed(s, cs, j, epoch, vs)
    ensures Installed(s, cs, j + 1, epoch, vs)
  {
    ChangedNext(s, cs, j);
    ChangeKeeps(AllChanged(s, cs[..j]), cs[j], epoch);
  }

  lemma ChangeKeeps(s: Schedule, c: Change, epoch: nat)
    requires Timely(s, c) && epoch in s.committees
    ensures epoch in Changed(s, c).committees && Changed(s, c).committees[epoch] == s.committees[epoch]
    ensures Changed(s, c).epochRounds == s.epochRounds
  {
  }

  lemma {:induction false} KeepsEpochLength(s: Schedule, cs: seq<Change>)
    ensures AllChanged(s, cs).epochRounds == s.epochRounds
    decreases |cs|
  {
    if cs != [] {
      KeepsEpochLength(s, cs[..|cs| - 1]);
    }
  }

  lemma TimelyPrefix(s: Schedule, cs: seq<Change>, n: nat)
    requires AllTimely(s, cs) && n <= |cs|
    ensures AllTimely(s, cs[..n])
  {
    forall i | 0 <= i < n ensures Timely(AllChanged(s, cs[..n][..i]), cs[..n][i]) {
      assert cs[..n][..i] == cs[..i];
    }
  }

  /** However the schedule went on, every round of an installed epoch is judged by the committee installed for it. */
  lemma InstalledJudges(s: Schedule, draw: (Round, ValidatorSet) -> Option<ValidatorId>, cs: seq<Change>, i: nat,
                        round: Round)
    requires AllTimely(s, cs) && i < |cs| && cs[i].Install? && round / s.epochRounds == cs[i].epoch
    ensures var net := NetOf(AllChanged(s, cs), draw);
            net.committee(round) == cs[i].committee && net.leader(round) == draw(round, cs[i].committee)
  {
    InstalledHere(s, cs, i);
    InstalledStays(s, cs, i + 1, |cs|, cs[i].epoch, cs[i].committee);
    assert cs[..|cs|] == cs;
    JudgedBy(AllChanged(s, cs), cs[i].epoch, round);
  }

  lemma InstalledHere(s: Schedule, cs: seq<Change>, i: nat)
    requires i < |cs| && cs[i].Install?
    ensures Installed(s, cs, i + 1, cs[i].epoch, cs[i].committee)
  {
    ChangedNext(s, cs, i);
    KeepsEpochLength(s, cs[..i + 1]);
  }

  lemma JudgedBy(s: Schedule, epoch: nat, round: Round)
    requires epoch in s.committees && round / s.epochRounds == epoch
    ensures ForRound(s, round) == s.committees[epoch]
  {
  }

  /** Two nets that coincide from `floor` on. */
  ghost predicate AgreeFrom(net: Net, net1: Net, floor: Round) {
    && net1.frontier == net.frontier
    && (forall r :: r >= floor ==> net1.committee(r) == net.committee(r))
    && (forall r :: r >= floor ==> net1.leader(r) == net.leader(r))
  }

  /** Dropping the committees below a floor leaves every round from the floor on alone. */
  lemma ThinnedAgrees(s: Schedule, draw: (Round, ValidatorSet) -> Option<ValidatorId>, floor: Round)
    ensures AgreeFrom(NetOf(s, draw), NetOf(Thinned(s, floor), draw), floor)
  {
    forall r | r >= floor ensures ForRound(Thinned(s, floor), r) == ForRound(s, r) {
      ThinnedKeepsRounds(s, floor, r);
    }
  }

  lemma AgreedVerdict(net: Net, net1: Net, dag: Dag, floor: Round, round: Round)
    requires AgreeFrom(net, net1, floor) && round >= floor
    ensures LeaderCert(net1, dag, round) == LeaderCert(net, dag, round)
    ensures DirectStatus(net1, dag, round) == DirectStatus(net, dag, round)
  {
    assert net1.committee(round + 1) == net.committee(round + 1);
  }

  /**
   * Installing a not-yet-installed epoch beyond the frontier flips no verdict of a resolvable
   * round, the last one of the current epoch included: at most an undecided round becomes skipped.
   */
  lemma InstallFlipsNothing(s: Schedule, draw: (Round, ValidatorSet) -> Option<ValidatorId>, dag: Dag,
                            epoch: nat, committee: ValidatorSet, frontier: nat, round: Round)
    requires s.frontier < U64_MAX && (s.frontier + 1) * s.epochRounds <= U64_MAX
    requires s.frontier < epoch && epoch !in s.committees && s.frontier <= frontier <= U64_MAX
    requires round <= FrontierRound(s)
    ensures var s1: Schedule := s.(committees := s.committees[epoch := committee], frontier := frontier);
            var before, after := DirectStatus(NetOf(s, draw), dag, round), DirectStatus(NetOf(s1, draw), dag, round);
            after == before || (before.Undecided? && after.Skipped?)
  {
    var s1: Schedule := s.(committees := s.committees[epoch := committee], frontier := frontier);
    InstallFollows(s, draw, epoch, committee, frontier);
    CarryingFlipsNothing(NetOf(s, draw), NetOf(s1, draw), dag, round);
  }
}
