/** Order agreement: what a validator has emitted depends only on the view it has reached. */
module Agreement {
  import opened Schedule
  import opened Dag
  import opened Verdict
  import opened Reach
  import opened Resolve
  import opened Walk
  import opened Order

  // ---- The verdict cache changes nothing --------------------------------------------------------

  /** Extending the order with every fate resolved afresh. */
  ghost function Plain(v: View, floor: Round, rank: Digest -> nat, round: Round, upTo: Round,
                       seen: set<Digest>): Progress
    requires Ranked(v.certs, rank)
    decreases upTo - round + 1
  {
    if round > upTo then Progress([], round, seen, map[])
    else
      match Fate(v, floor, round, upTo)
      case Undecided => Progress([], round, seen, map[])
      case Skipped => Plain(v, floor, rank, round + 1, upTo, seen)
      case Committed(d) =>
        if !Complete(v.certs, floor, seen, d) then Progress([], round, seen, map[])
        else
          var h := History(v.certs, floor, rank, seen, d);
          After(h, Plain(v, floor, rank, round + 1, upTo, seen + Elements(h)))
  }

  ghost predicate CacheSound(v: View, floor: Round, upTo: Round, cache: map<Round, Digest>) {
    forall r :: r in cache ==> r <= upTo && Fate(v, floor, r, upTo) == Committed(cache[r])
  }

  lemma {:induction false} CacheTransparent(v: View, floor: Round, rank: Digest -> nat, round: Round, upTo: Round,
                                            seen: set<Digest>, cache: map<Round, Digest>)
    requires Ranked(v.certs, rank) && CacheSound(v, floor, upTo, cache)
    ensures var p := Extend(v, floor, rank, round, upTo, seen, cache);
            p.(cache := map[]) == Plain(v, floor, rank, round, upTo, seen) && CacheSound(v, floor, upTo, p.cache)
    decreases upTo - round + 1
  {
    if round <= upTo {
      match Fate(v, floor, round, upTo) {
        case Undecided =>
        case Skipped => CacheTransparent(v, floor, rank, round + 1, upTo, seen, cache);
        case Committed(d) =>
          var h := History(v.certs, floor, rank, seen, d);
          CacheTransparent(v, floor, rank, round + 1, upTo, seen + Elements(h), cache[round := d]);
      }
    }
  }

  lemma {:induction false} PlainSeen(v: View, floor: Round, rank: Digest -> nat, round: Round, upTo: Round,
                                     seen: set<Digest>)
    requires Ranked(v.certs, rank)
    ensures var p := Plain(v, floor, rank, round, upTo, seen);
            p.seen == seen + Elements(p.ordered) && p.cache == map[]
    decreases upTo - round + 1
  {
    if round <= upTo {
      match Fate(v, floor, round, upTo) {
        case Undecided =>
        case Skipped => PlainSeen(v, floor, rank, round + 1, upTo, seen);
        case Committed(d) =>
          var h := History(v.certs, floor, rank, seen, d);
          PlainSeen(v, floor, rank, round + 1, upTo, seen + Elements(h));
      }
    }
  }

  // ---- Parent-closed growth ---------------------------------------------------------------------

  lemma FateHeld(v: View, floor: Round, round: Round, upTo: Round)
    requires Closed(v.certs) && Grounded(v, upTo) && round <= upTo && Fate(v, floor, round, upTo).Committed?
    ensures Fate(v, floor, round, upTo).digest in v.certs
  {
    if v.direct(round).Skipped? {
      WitnessHeld(v, round + 1, upTo);
      ClosedIsPresent(v.certs, floor, Witness(v, round + 1, upTo).value);
    }
  }

  /** Whoever emits something from `round` on has a witness for everything before. */
  lemma {:induction false} EmissionNeedsWitness(v: View, floor: Round, rank: Digest -> nat, round: Round, upTo: Round,
                                                seen: set<Digest>)
    requires Ranked(v.certs, rank) && Plain(v, floor, rank, round, upTo, seen).ordered != []
    ensures Witness(v, round, upTo).Some?
    decreases upTo - round + 1
  {
    if Fate(v, floor, round, upTo).Skipped? {
      EmissionNeedsWitness(v, floor, rank, round + 1, upTo, seen);
    }
  }

  /** A digest already seen has nothing left to emit. */
  lemma SeenIsComplete(certs: Certs, floor: Round, rank: Digest -> nat, seen: set<Digest>, d: Digest)
    requires Ranked(certs, rank) && d in seen
    ensures Complete(certs, floor, seen, d) && History(certs, floor, rank, seen, d) == []
  {
    CompleteStep(certs, floor, seen, d);
  }

  /** Emitting a complete history places its root. */
  lemma HistoryPlaces(certs: Certs, floor: Round, rank: Digest -> nat, seen: set<Digest>, d: Digest)
    requires Ranked(certs, rank) && Complete(certs, floor, seen, d)
    ensures d in seen || d in History(certs, floor, rank, seen, d)
  {
    PlaceOnePlaces(certs, floor, rank, seen, 0, [], d);
  }

  /**
   * The heart of agreement. From `round` on, an earlier parent-closed view emits a prefix of what a
   * later one emits; and the later view, told what was already emitted, emits exactly the rest.
   */
  lemma {:induction false} EarlierIsPrefix(v: View, upTo: Round, v1: View, upTo1: Round, rank: Digest -> nat,
                                           round: Round, seen: set<Digest>)
    requires Ranked(v.certs, rank) && Ranked(v1.certs, rank) && Later(v, upTo, v1, upTo1)
    ensures var p, p1 := Plain(v, 0, rank, round, upTo, seen), Plain(v1, 0, rank, round, upTo1, seen);
            && p.ordered <= p1.ordered
            && After(p.ordered, Plain(v1, 0, rank, round, upTo1, seen + Elements(p.ordered))) == p1
    decreases upTo - round + 1
  {
    var p := Plain(v, 0, rank, round, upTo, seen);
    if p.ordered == [] {
      assert seen + Elements(p.ordered) == seen;
    } else {
      var fate := Fate(v, 0, round, upTo);
      if fate.Skipped? {
        EmissionNeedsWitness(v, 0, rank, round + 1, upTo, seen);
        SkippedFateStays(v, upTo, v1, upTo1, 0, round);
        EarlierIsPrefix(v, upTo, v1, upTo1, rank, round + 1, seen);
      } else {
        EarlierIsPrefixCommit(v, upTo, v1, upTo1, rank, round, seen, fate.digest);
      }
    }
  }

  lemma {:induction false} EarlierIsPrefixCommit(v: View, upTo: Round, v1: View, upTo1: Round, rank: Digest -> nat,
                                                 round: Round, seen: set<Digest>, d: Digest)
    requires Ranked(v.certs, rank) && Ranked(v1.certs, rank) && Later(v, upTo, v1, upTo1)
    requires round <= upTo && Fate(v, 0, round, upTo) == Committed(d)
    ensures var p, p1 := Plain(v, 0, rank, round, upTo, seen), Plain(v1, 0, rank, round, upTo1, seen);
            && p.ordered <= p1.ordered
            && After(p.ordered, Plain(v1, 0, rank, round, upTo1, seen + Elements(p.ordered))) == p1
    decreases upTo - round + 1, 0
  {
    var h := History(v.certs, 0, rank, seen, d);
    FirstCommit(v, upTo, v1, upTo1, rank, round, seen, d);
    EarlierIsPrefix(v, upTo, v1, upTo1, rank, round + 1, seen + Elements(h));
    var rest := Plain(v, 0, rank, round + 1, upTo, seen + Elements(h));
    TwiceSeen(seen, h, rest.ordered);
    var all := seen + Elements(h + rest.ordered);
    CommitAgain(v, upTo, v1, upTo1, rank, round, all, d);
    CommitGlue(h, rest, Plain(v1, 0, rank, round + 1, upTo1, seen + Elements(h)),
               Plain(v1, 0, rank, round + 1, upTo1, all));
  }

  /** Both views start with the same committed history. */
  lemma FirstCommit(v: View, upTo: Round, v1: View, upTo1: Round, rank: Digest -> nat, round: Round,
                    seen: set<Digest>, d: Digest)
    requires Ranked(v.certs, rank) && Ranked(v1.certs, rank) && Later(v, upTo, v1, upTo1)
    requires round <= upTo && Fate(v, 0, round, upTo) == Committed(d)
    ensures var h := History(v.certs, 0, rank, seen, d);
            && Plain(v, 0, rank, round, upTo, seen) == After(h, Plain(v, 0, rank, round + 1, upTo, seen + Elements(h)))
            && Plain(v1, 0, rank, round, upTo1, seen) ==
               After(h, Plain(v1, 0, rank, round + 1, upTo1, seen + Elements(h)))
            && (d in seen || d in h)
  {
    CommittedFateStays(v, upTo, v1, upTo1, 0, round);
    PlainCommit(v, 0, rank, round, upTo, seen, d);
    PlainCommit(v1, 0, rank, round, upTo1, seen, d);
    SameHistory(v, upTo, v1, upTo1, rank, round, seen, d);
    HistoryPlaces(v.certs, 0, rank, seen, d);
  }

  /** Told that the leader is already emitted, the later view passes over its round. */
  lemma CommitAgain(v: View, upTo: Round, v1: View, upTo1: Round, rank: Digest -> nat, round: Round,
                    seen: set<Digest>, d: Digest)
    requires Ranked(v1.certs, rank) && Later(v, upTo, v1, upTo1) && d in seen
    requires round <= upTo && Fate(v, 0, round, upTo) == Committed(d)
    ensures Plain(v1, 0, rank, round, upTo1, seen) == Plain(v1, 0, rank, round + 1, upTo1, seen)
  {
    CommittedFateStays(v, upTo, v1, upTo1, 0, round);
    PlainCommitSeen(v1, 0, rank, round, upTo1, seen, d);
  }

  lemma TwiceSeen(seen: set<Digest>, a: seq<Digest>, b: seq<Digest>)
    ensures seen + Elements(a) + Elements(b) == seen + Elements(a + b)
  {
  }

  lemma CommitGlue(h: seq<Digest>, rest: Progress, rest1: Progress, again: Progress)
    requires rest.ordered <= rest1.ordered && After(rest.ordered, again) == rest1
    ensures After(h, rest).ordered <= After(h, rest1).ordered && After(After(h, rest).ordered, again) == After(h, rest1)
  {
    AfterAfter(h, rest.ordered, again);
  }

  lemma AfterAfter(a: seq<Digest>, b: seq<Digest>, p: Progress)
    ensures After(a, After(b, p)) == After(a + b, p)
  {
    assert a + (b + p.ordered) == a + b + p.ordered;
  }

  lemma SameHistory(v: View, upTo: Round, v1: View, upTo1: Round, rank: Digest -> nat, round: Round,
                    seen: set<Digest>, d: Digest)
    requires Ranked(v.certs, rank) && Ranked(v1.certs, rank) && Later(v, upTo, v1, upTo1)
    requires round <= upTo && Fate(v, 0, round, upTo) == Committed(d)
    ensures Complete(v.certs, 0, seen, d) && History(v1.certs, 0, rank, seen, d) == History(v.certs, 0, rank, seen, d)
  {
    FateHeld(v, 0, round, upTo);
    ClosedComplete(v.certs, 0, seen, d);
    PlaceOneStable(v.certs, v1.certs, 0, rank, seen, [], d);
  }

  lemma PlainCommit(v: View, floor: Round, rank: Digest -> nat, round: Round, upTo: Round, seen: set<Digest>, d: Digest)
    requires Ranked(v.certs, rank) && Closed(v.certs) && Grounded(v, upTo)
    requires round <= upTo && Fate(v, floor, round, upTo) == Committed(d)
    ensures var h := History(v.certs, floor, rank, seen, d);
            Plain(v, floor, rank, round, upTo, seen) ==
            After(h, Plain(v, floor, rank, round + 1, upTo, seen + Elements(h)))
  {
    FateHeld(v, floor, round, upTo);
    ClosedComplete(v.certs, floor, seen, d);
  }

  lemma PlainCommitSeen(v: View, floor: Round, rank: Digest -> nat, round: Round, upTo: Round, seen: set<Digest>,
                        d: Digest)
    requires Ranked(v.certs, rank) && d in seen
    requires round <= upTo && Fate(v, floor, round, upTo) == Committed(d)
    ensures Plain(v, floor, rank, round, upTo, seen) == Plain(v, floor, rank, round + 1, upTo, seen)
  {
    SeenIsComplete(v.certs, floor, rank, seen, d);
    assert seen + Elements([]) == seen;
  }

  // ---- Runs -------------------------------------------------------------------------------------

  /** What a validator sees when it calls `advance`: its schedule and its store. */
  datatype Moment = Moment(net: Net, dag: Dag)

  ghost predicate Sound(m: Moment, rank: Digest -> nat) {
    && Coherent(m.dag) && Closed(m.dag.certs) && Ranked(m.dag.certs, rank) && Authored(m.net, m.dag.certs)
  }

  ghost predicate Precedes(m: Moment, m1: Moment) {
    Grown(m.dag, m1.dag) && Follows(m.net, m1.net)
  }

  /** Parent-closed views of one validator, each grown out of the one before. */
  ghost predicate Chain(ms: seq<Moment>, rank: Digest -> nat) {
    && (forall i :: 0 <= i < |ms| ==> Sound(ms[i], rank))
    && (forall i :: 0 < i < |ms| ==> Precedes(ms[i - 1], ms[i]))
  }

  /** A run: everything emitted so far, and the memory left behind. */
  datatype Run = Run(emitted: seq<Digest>, engine: Engine)

  ghost predicate AllRanked(ms: seq<Moment>, rank: Digest -> nat) {
    forall i :: 0 <= i < |ms| ==> Ranked(ms[i].dag.certs, rank)
  }

  /** Calling `advance` once per moment, starting from a fresh state. */
  ghost function Replay(ms: seq<Moment>, rank: Digest -> nat): Run
    requires AllRanked(ms, rank)
  {
    if ms == [] then Run([], NEW)
    else
      var n := |ms| - 1;
      var before := Replay(ms[..n], rank);
      Run(before.emitted + AdvanceProgress(ms[n].net, ms[n].dag, rank, before.engine).ordered,
          Advanced(ms[n].net, ms[n].dag, rank, before.engine))
  }

  /** The order a fresh `advance` derives from one view. */
  ghost function FreshOrder(m: Moment, rank: Digest -> nat): seq<Digest>
    requires Ranked(m.dag.certs, rank)
  {
    AdvanceProgress(m.net, m.dag, rank, NEW).ordered
  }

  /** The memory of a validator that has emitted exactly the fresh order of `m`. */
  ghost predicate Synced(m: Moment, rank: Digest -> nat, run: Run)
    requires Ranked(m.dag.certs, rank)
  {
    && run.emitted == FreshOrder(m, rank) && run.engine.seen == Elements(run.emitted)
    && run.engine.gcFloor == 0 && run.engine.fromRound == 0
    && CacheSound(ViewOf(m.net, m.dag), 0, UpTo(m.net, m.dag), run.engine.cache)
  }

  lemma FreshIsPlain(m: Moment, rank: Digest -> nat)
    requires Ranked(m.dag.certs, rank)
    ensures FreshOrder(m, rank) == Plain(ViewOf(m.net, m.dag), 0, rank, 0, UpTo(m.net, m.dag), {}).ordered
  {
    CacheTransparent(ViewOf(m.net, m.dag), 0, rank, 0, UpTo(m.net, m.dag), {}, map[]);
  }

  lemma MomentsLater(m: Moment, m1: Moment, rank: Digest -> nat)
    requires Sound(m, rank) && Sound(m1, rank) && Precedes(m, m1)
    ensures Later(ViewOf(m.net, m.dag), UpTo(m.net, m.dag), ViewOf(m1.net, m1.dag), UpTo(m1.net, m1.dag))
  {
    GrowthIsLater(m.net, m.dag, m1.net, m1.dag, UpTo(m.net, m.dag), UpTo(m1.net, m1.dag));
  }

  lemma CacheSurvives(v: View, upTo: Round, v1: View, upTo1: Round, cache: map<Round, Digest>)
    requires Later(v, upTo, v1, upTo1) && CacheSound(v, 0, upTo, cache)
    ensures CacheSound(v1, 0, upTo1, cache)
  {
    forall r | r in cache ensures r <= upTo1 && Fate(v1, 0, r, upTo1) == Committed(cache[r]) {
      CommittedFateStays(v, upTo, v1, upTo1, 0, r);
    }
  }

  /** One more `advance` on a later view keeps a validator in step with the fresh order. */
  lemma AdvanceStaysSynced(m: Moment, m1: Moment, rank: Digest -> nat, run: Run)
    requires Sound(m, rank) && Sound(m1, rank) && Precedes(m, m1) && Synced(m, rank, run)
    ensures Synced(m1, rank, Run(run.emitted + AdvanceProgress(m1.net, m1.dag, rank, run.engine).ordered,
                                 Advanced(m1.net, m1.dag, rank, run.engine)))
  {
    var v, v1 := ViewOf(m.net, m.dag), ViewOf(m1.net, m1.dag);
    var up, up1 := UpTo(m.net, m.dag), UpTo(m1.net, m1.dag);
    MomentsLater(m, m1, rank);
    FreshIsPlain(m, rank);
    FreshIsPlain(m1, rank);
    CacheSurvives(v, up, v1, up1, run.engine.cache);
    CacheTransparent(v1, 0, rank, 0, up1, run.engine.seen, run.engine.cache);
    EarlierIsPrefix(v, up, v1, up1, rank, 0, {});
    assert {} + Elements(run.emitted) == run.engine.seen;
    PlainSeen(v1, 0, rank, 0, up1, {});
    PlainSeen(v1, 0, rank, 0, up1, run.engine.seen);
  }

  lemma FirstAdvanceSynced(m: Moment, rank: Digest -> nat)
    requires Sound(m, rank)
    ensures Synced(m, rank, Run(FreshOrder(m, rank), Advanced(m.net, m.dag, rank, NEW)))
  {
    var v, up := ViewOf(m.net, m.dag), UpTo(m.net, m.dag);
    CacheTransparent(v, 0, rank, 0, up, {}, map[]);
    PlainSeen(v, 0, rank, 0, up, {});
  }

  lemma {:induction false} ReplaySynced(ms: seq<Moment>, rank: Digest -> nat)
    requires Chain(ms, rank) && ms != []
    ensures AllRanked(ms, rank) && Synced(ms[|ms| - 1], rank, Replay(ms, rank))
    decreases |ms|
  {
    var n := |ms| - 1;
    if n == 0 {
      assert ms[..0] == [];
      FirstAdvanceSynced(ms[0], rank);
    } else {
      ReplaySynced(ms[..n], rank);
      assert ms[..n][n - 1] == ms[n - 1];
      AdvanceStaysSynced(ms[n - 1], ms[n], rank, Replay(ms[..n], rank));
    }
  }

  /**
   * Order agreement: over any chain of growing parent-closed views, under a schedule that may be
   * carried forward on the way, the concatenated outputs of `advance`, verdict cache included, are
   * the output of one fresh `advance` on the last view.
   */
  lemma OrderAgreement(ms: seq<Moment>, rank: Digest -> nat)
    requires Chain(ms, rank) && ms != []
    ensures AllRanked(ms, rank) && Replay(ms, rank).emitted == FreshOrder(ms[|ms| - 1], rank)
  {
    ReplaySynced(ms, rank);
  }

  lemma LaterExtendsOrder(m: Moment, m1: Moment, rank: Digest -> nat)
    requires Sound(m, rank) && Sound(m1, rank) && Precedes(m, m1)
    ensures FreshOrder(m, rank) <= FreshOrder(m1, rank)
  {
    MomentsLater(m, m1, rank);
    FreshIsPlain(m, rank);
    FreshIsPlain(m1, rank);
    EarlierIsPrefix(ViewOf(m.net, m.dag), UpTo(m.net, m.dag), ViewOf(m1.net, m1.dag), UpTo(m1.net, m1.dag),
                    rank, 0, {});
  }

  // ---- Two validators ---------------------------------------------------------------------------

  /**
   * No fork: the orders two validators derive from any two parent-closed views of one DAG, under
   * schedules carried forward into a common one, are prefix-comparable.
   */
  lemma OrdersComparable(net: Net, whole: Dag, x: Moment, y: Moment, rank: Digest -> nat)
    requires Coherent(whole) && Ranked(whole.certs, rank) && Authored(net, whole.certs)
    requires Sound(x, rank) && Sound(y, rank) && Follows(x.net, net) && Follows(y.net, net)
    requires Within(x.dag.certs, whole.certs) && Within(y.dag.certs, whole.certs)
    ensures FreshOrder(x, rank) <= FreshOrder(y, rank) || FreshOrder(y, rank) <= FreshOrder(x, rank)
  {
    UnionCoherent(whole, x.dag, y.dag);
    UnionHolds(whole, x.dag, y.dag);
    var z := Moment(net, Union(x.dag, y.dag));
    assert Authored(net, z.dag.certs);
    assert Ranked(z.dag.certs, rank);
    LaterExtendsOrder(x, z, rank);
    LaterExtendsOrder(y, z, rank);
    var o := FreshOrder(z, rank);
    assert FreshOrder(x, rank) == o[..|FreshOrder(x, rank)|];
    assert FreshOrder(y, rank) == o[..|FreshOrder(y, rank)|];
  }
}
