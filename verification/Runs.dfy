/** Whole-run facts that need no parent-closure, and progress under full participation. */
module Runs {
  import opened Schedule
  import opened Dag
  import opened Verdict
  import opened Resolve
  import opened Walk
  import opened Order
  import opened Agreement

  // ---- Raising the frontier on a fixed view -----------------------------------------------------

  /** Same certificates; direct verdicts may only become definite. */
  ghost predicate Sharpens(v: View, upTo: Round, v1: View, upTo1: Round) {
    && v1.certs == v.certs && upTo <= upTo1
    && forall r :: 0 <= r <= upTo ==> Settles(v, v1, r) && v1.target(r) == v.target(r)
  }

  lemma SharperFate(v: View, upTo: Round, v1: View, upTo1: Round, floor: Round, round: Round)
    requires Sharpens(v, upTo, v1, upTo1) && round <= upTo && !Fate(v, floor, round, upTo).Undecided?
    ensures Fate(v1, floor, round, upTo1) == Fate(v, floor, round, upTo)
  {
    assert Settles(v, v1, round);
    if Witness(v, round + 1, upTo).Some? {
      WitnessStays(v, upTo, v1, upTo1, round + 1);
    }
  }

  lemma {:induction false} SharperOrder(v: View, upTo: Round, v1: View, upTo1: Round, floor: Round,
                                        rank: Digest -> nat, round: Round, seen: set<Digest>)
    requires Ranked(v.certs, rank) && Sharpens(v, upTo, v1, upTo1)
    ensures Plain(v, floor, rank, round, upTo, seen).ordered <= Plain(v1, floor, rank, round, upTo1, seen).ordered
    decreases upTo - round + 1
  {
    if round <= upTo && !Fate(v, floor, round, upTo).Undecided? {
      SharperFate(v, upTo, v1, upTo1, floor, round);
      match Fate(v, floor, round, upTo) {
        case Skipped => SharperOrder(v, upTo, v1, upTo1, floor, rank, round + 1, seen);
        case Committed(d) =>
          SharperOrder(v, upTo, v1, upTo1, floor, rank, round + 1,
                       seen + Elements(History(v.certs, floor, rank, seen, d)));
      }
    }
  }

  /**
   * On a fixed store, parent-closed or not, installing later committees and raising the frontier
   * only extends the committed order.
   */
  lemma RaisingFrontierExtends(net: Net, net1: Net, dag: Dag, rank: Digest -> nat)
    requires Ranked(dag.certs, rank) && Follows(net, net1)
    ensures FreshOrder(Moment(net, dag), rank) <= FreshOrder(Moment(net1, dag), rank)
  {
    var v, v1, up, up1 := ViewOf(net, dag), ViewOf(net1, dag), UpTo(net, dag), UpTo(net1, dag);
    forall r | 0 <= r <= up ensures Settles(v, v1, r) && v1.target(r) == v.target(r) {
      CarryingFlipsNothing(net, net1, dag, r);
      VerdictTerms(net, net1, dag, r);
    }
    FreshIsPlain(Moment(net, dag), rank);
    FreshIsPlain(Moment(net1, dag), rank);
    SharperOrder(v, up, v1, up1, 0, rank, 0, {});
  }

  // ---- Emitted once, after its parents ----------------------------------------------------------

  /** Each digest once, and each certificate above round 0 after all of its parents. */
  ghost predicate WellEmitted(whole: Certs, s: seq<Digest>) {
    && Distinct(s)
    && (forall d :: d in s ==> d in whole)
    && ParentsFirst(whole, 0, {}, 0, s)
  }

  lemma HistoryWellEmitted(whole: Certs, certs: Certs, rank: Digest -> nat, emitted: seq<Digest>, d: Digest)
    requires Ranked(certs, rank) && Within(certs, whole) && WellEmitted(whole, emitted)
    requires Complete(certs, 0, Elements(emitted), d)
    ensures WellEmitted(whole, emitted + History(certs, 0, rank, Elements(emitted), d))
  {
    var seen := Elements(emitted);
    var h := History(certs, 0, rank, seen, d);
    PlaceOneExtends(certs, 0, rank, seen, [], d);
    PlaceOnePlaces(certs, 0, rank, seen, 0, [], d);
    DistinctAppend(emitted, h);
    var s := emitted + h;
    forall i | 0 <= i < |s| && whole[s[i]].round > 0
      ensures forall p :: p in whole[s[i]].parents ==> p in s[..i]
    {
      if i < |emitted| {
        assert s[..i] == emitted[..i];
      } else {
        assert s[..i] == emitted + h[..i - |emitted|];
        assert s[i] == h[i - |emitted|] && s[i] in h;
      }
    }
  }

  lemma {:induction false} ExtendWellEmitted(whole: Certs, v: View, rank: Digest -> nat, round: Round, upTo: Round,
                                             cache: map<Round, Digest>, emitted: seq<Digest>)
    requires Ranked(v.certs, rank) && Within(v.certs, whole) && WellEmitted(whole, emitted)
    ensures var p := After(emitted, Extend(v, 0, rank, round, upTo, Elements(emitted), cache));
            WellEmitted(whole, p.ordered) && p.seen == Elements(p.ordered)
    decreases upTo - round + 1
  {
    if round > upTo {
      assert emitted + [] == emitted;
    } else {
      ExtendStep(v, 0, rank, round, upTo, Elements(emitted), cache, emitted);
      match Ruling(v, 0, round, upTo, cache) {
        case Undecided =>
        case Skipped => ExtendWellEmitted(whole, v, rank, round + 1, upTo, cache, emitted);
        case Committed(d) =>
          if Complete(v.certs, 0, Elements(emitted), d) {
            var h := History(v.certs, 0, rank, Elements(emitted), d);
            HistoryWellEmitted(whole, v.certs, rank, emitted, d);
            ElementsAppend(emitted, h);
            ExtendWellEmitted(whole, v, rank, round + 1, upTo, cache[round := d], emitted + h);
          }
      }
    }
  }

  lemma ElementsAppend(a: seq<Digest>, b: seq<Digest>)
    ensures Elements(a) + Elements(b) == Elements(a + b)
  {
  }

  /**
   * Over every run of `advance` on arbitrary views of one DAG, holes included, no digest is ever
   * emitted twice, and each certificate above round 0 comes after all of its parents.
   */
  lemma {:induction false} EmittedOnceAfterParents(whole: Certs, ms: seq<Moment>, rank: Digest -> nat)
    requires AllRanked(ms, rank) && forall i :: 0 <= i < |ms| ==> Within(ms[i].dag.certs, whole)
    ensures var run := Replay(ms, rank);
            && WellEmitted(whole, run.emitted) && run.engine.seen == Elements(run.emitted)
            && run.engine.gcFloor == 0 && run.engine.fromRound == 0
    decreases |ms|
  {
    if ms != [] {
      var n := |ms| - 1;
      EmittedOnceAfterParents(whole, ms[..n], rank);
      var before := Replay(ms[..n], rank);
      ExtendWellEmitted(whole, ViewOf(ms[n].net, ms[n].dag), rank, 0, UpTo(ms[n].net, ms[n].dag),
                        before.engine.cache, before.emitted);
    }
  }

  // ---- Progress ---------------------------------------------------------------------------------

  /** Every member of the committee of `round` has a held certificate there. */
  ghost predicate FullyCertified(net: Net, dag: Dag, round: Round) {
    net.committee(round).Keys <= Authors(dag, round)
  }

  /** Nothing left to hear from the next round: the direct verdict is definite. */
  lemma FullRoundDecides(net: Net, dag: Dag, round: Round)
    requires Closed(dag.certs) && FullyCertified(net, dag, round + 1)
    ensures !DirectStatus(net, dag, round).Undecided?
  {
    assert Missing(net, dag, round) == {};
    ClosedHoldsParents(dag, round + 1);
  }

  lemma {:induction false} WitnessUpTo(v: View, round: Round, w: Round, upTo: Round)
    requires round <= w <= upTo && v.direct(w).Committed?
    requires forall r :: 0 <= r <= w ==> !v.direct(r).Undecided?
    ensures Witness(v, round, upTo).Some?
    decreases w - round
  {
    if v.direct(round).Skipped? {
      WitnessUpTo(v, round + 1, w, upTo);
    }
  }

  /** A fresh pass gets through every round that is decided. */
  lemma {:induction false} PlainPasses(v: View, rank: Digest -> nat, round: Round, w: Round, upTo: Round,
                                       seen: set<Digest>)
    requires Ranked(v.certs, rank) && Closed(v.certs) && Grounded(v, upTo) && round <= w + 1 && w <= upTo
    requires forall r :: 0 <= r <= w ==> !Fate(v, 0, r, upTo).Undecided?
    ensures Plain(v, 0, rank, round, upTo, seen).round > w
    decreases w + 1 - round
  {
    if round > w {
      PlainNeverRetreats(v, rank, round, upTo, seen);
    } else {
      var h := PlainStep(v, rank, round, upTo, seen);
      PlainPasses(v, rank, round + 1, w, upTo, seen + Elements(h));
    }
  }

  /** A decided round is passed, with whatever it emits now seen. */
  lemma PlainStep(v: View, rank: Digest -> nat, round: Round, upTo: Round, seen: set<Digest>) returns (h: seq<Digest>)
    requires Ranked(v.certs, rank) && Closed(v.certs) && Grounded(v, upTo) && round <= upTo
    requires !Fate(v, 0, round, upTo).Undecided?
    ensures Plain(v, 0, rank, round, upTo, seen) == After(h, Plain(v, 0, rank, round + 1, upTo, seen + Elements(h)))
  {
    if Fate(v, 0, round, upTo).Committed? {
      var d := Fate(v, 0, round, upTo).digest;
      h := History(v.certs, 0, rank, seen, d);
      PlainCommit(v, 0, rank, round, upTo, seen, d);
    } else {
      h := [];
      assert seen + Elements([]) == seen;
    }
  }

  lemma PassedIsDecided(v: View, rank: Digest -> nat, round: Round, upTo: Round, seen: set<Digest>)
    requires Ranked(v.certs, rank) && round <= upTo && Plain(v, 0, rank, round, upTo, seen).round > round
    ensures !Fate(v, 0, round, upTo).Undecided?
  {
  }

  /** A committed leader whose round a fresh pass gets through has been emitted. */
  lemma {:induction false} CommittedIsEmitted(v: View, rank: Digest -> nat, round: Round, w: Round, upTo: Round,
                                              seen: set<Digest>, d: Digest)
    requires Ranked(v.certs, rank) && Closed(v.certs) && Grounded(v, upTo) && round <= w <= upTo
    requires Fate(v, 0, w, upTo) == Committed(d) && Plain(v, 0, rank, round, upTo, seen).round > w
    ensures d in seen || d in Plain(v, 0, rank, round, upTo, seen).ordered
    decreases w - round
  {
    if round == w {
      EmittedHere(v, rank, round, upTo, seen, d);
    } else {
      PassedIsDecided(v, rank, round, upTo, seen);
      var h := PlainStep(v, rank, round, upTo, seen);
      CommittedIsEmitted(v, rank, round + 1, w, upTo, seen + Elements(h), d);
    }
  }

  lemma EmittedHere(v: View, rank: Digest -> nat, round: Round, upTo: Round, seen: set<Digest>, d: Digest)
    requires Ranked(v.certs, rank) && Closed(v.certs) && Grounded(v, upTo) && round <= upTo
    requires Fate(v, 0, round, upTo) == Committed(d)
    ensures d in seen || d in Plain(v, 0, rank, round, upTo, seen).ordered
  {
    PlainCommit(v, 0, rank, round, upTo, seen, d);
    FateHeld(v, 0, round, upTo);
    ClosedComplete(v.certs, 0, seen, d);
    HistoryPlaces(v.certs, 0, rank, seen, d);
  }

  lemma {:induction false} PlainNeverRetreats(v: View, rank: Digest -> nat, round: Round, upTo: Round,
                                              seen: set<Digest>)
    requires Ranked(v.certs, rank)
    ensures Plain(v, 0, rank, round, upTo, seen).round >= round
    decreases upTo - round + 1
  {
    if round <= upTo {
      match Fate(v, 0, round, upTo) {
        case Undecided =>
        case Skipped => PlainNeverRetreats(v, rank, round + 1, upTo, seen);
        case Committed(d) =>
          PlainNeverRetreats(v, rank, round + 1, upTo, seen + Elements(History(v.certs, 0, rank, seen, d)));
      }
    }
  }

  /** A direct commit needs a certificate in the next round. */
  lemma CommitNeedsNextRound(net: Net, dag: Dag, round: Round)
    requires Indexed(dag) && Topped(dag) && DirectStatus(net, dag, round).Committed?
    ensures dag.highest > round
  {
    DirectCommit(net, dag, round);
    var sup := Supporters(dag, round, DirectStatus(net, dag, round).digest);
    assert sup != {};
    var a :| a in sup;
    var c := ByAuthor(dag, round + 1, a).value;
    assert dag.certs[c].round == round + 1;
  }

  /**
   * Progress, committee changes included: once every member of each round's own committee has
   * certified rounds 1 to `w + 1` and round `w` commits directly, a fresh `advance` decides every
   * round up to `w` and stops strictly after it.
   */
  lemma Progresses(net: Net, dag: Dag, rank: Digest -> nat, w: Round)
    requires Coherent(dag) && Topped(dag) && Closed(dag.certs) && Ranked(dag.certs, rank)
    requires w <= net.frontier && DirectStatus(net, dag, w).Committed?
    requires forall r :: 1 <= r <= w + 1 ==> FullyCertified(net, dag, r)
    ensures AdvanceProgress(net, dag, rank, NEW).round > w
    ensures forall r :: 0 <= r <= w ==> !Fate(ViewOf(net, dag), 0, r, UpTo(net, dag)).Undecided?
  {
    CommitNeedsNextRound(net, dag, w);
    ViewGrounded(net, dag, UpTo(net, dag));
    forall r | 0 <= r <= w ensures !ViewOf(net, dag).direct(r).Undecided? {
      assert FullyCertified(net, dag, r + 1);
      FullRoundDecides(net, dag, r);
    }
    ViewProgresses(ViewOf(net, dag), rank, w, UpTo(net, dag));
  }

  lemma ViewProgresses(v: View, rank: Digest -> nat, w: Round, upTo: Round)
    requires Ranked(v.certs, rank) && Closed(v.certs) && Grounded(v, upTo) && w <= upTo
    requires v.direct(w).Committed? && forall r :: 0 <= r <= w ==> !v.direct(r).Undecided?
    ensures Extend(v, 0, rank, 0, upTo, {}, map[]).round > w
    ensures forall r :: 0 <= r <= w ==> !Fate(v, 0, r, upTo).Undecided?
  {
    forall r | 0 <= r <= w ensures !Fate(v, 0, r, upTo).Undecided? {
      if r < w {
        WitnessUpTo(v, r + 1, w, upTo);
      }
      ClosedFateDecided(v, 0, r, upTo);
    }
    PlainPasses(v, rank, 0, w, upTo, {});
    CacheTransparent(v, 0, rank, 0, upTo, {}, map[]);
  }
}
