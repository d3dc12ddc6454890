/** When collection goes unnoticed: exactly, and as a check a node can make before it collects. */
module Unnoticed {
  import opened Schedule
  import opened Dag
  import opened Verdict
  import opened Reach
  import opened Resolve
  import opened Walk
  import opened Order
  import opened Agreement
  import opened Runs
  import opened Collect
  import opened Transparency

  // ---- Sets closed under parents ------------------------------------------------------------------

  ghost predicate ParentClosed(certs: Certs, s: set<Digest>) {
    forall d, p :: d in s && d in certs && p in certs[d].parents ==> p in s
  }

  /** Everything emitted so far is closed under parents. */
  lemma OrderClosed(m: Moment, rank: Digest -> nat)
    requires Usable(m, rank)
    ensures ParentClosed(m.dag.certs, Elements(FreshOrder(m, rank)))
  {
    OrderWellEmitted(m, rank);
    WellEmittedClosed(m.dag.certs, FreshOrder(m, rank));
  }

  lemma WellEmittedClosed(certs: Certs, order: seq<Digest>)
    requires WellEmitted(certs, order) && Closed(certs) && Layered(certs)
    ensures ParentClosed(certs, Elements(order))
  {
    forall d, p | d in order && d in certs && p in certs[d].parents ensures p in order {
      var i :| 0 <= i < |order| && order[i] == d;
      assert p in certs && certs[d].round == certs[p].round + 1;
      assert p in order[..i];
    }
  }

  lemma OrderWellEmitted(m: Moment, rank: Digest -> nat)
    requires Sound(m, rank)
    ensures WellEmitted(m.dag.certs, FreshOrder(m, rank))
  {
    EmittedOnceAfterParents(m.dag.certs, [m], rank);
    assert [m][..0] == [];
    assert Replay([m], rank).emitted == [] + FreshOrder(m, rank) == FreshOrder(m, rank);
  }

  /** `y` is listed as a parent by something in `s`. */
  ghost predicate Cited(certs: Certs, s: set<Digest>, y: Digest) {
    exists z :: z in s && z in certs && y in certs[z].parents
  }

  lemma ReachCites(certs: Certs, s: set<Digest>, from: Digest, to: Digest)
    requires ParentClosed(certs, s) && from in s && from != to && CanReach(certs, 0, from, to)
    ensures Cited(certs, s, to)
  {
    var path :| Leads(certs, 0, path, from, to);
    var n := |path| - 1;
    assert Leads(certs, 0, path[..n], from, path[n - 1]);
    ClosedSetHolds(certs, 0, s, path[..n], from, path[n - 1]);
    assert Open(certs, 0, path[n - 1]) && path[n] in certs[path[n - 1]].parents;
  }

  // ---- Why something is emitted ---------------------------------------------------------------------

  lemma CitedMore(certs: Certs, a: seq<Digest>, b: seq<Digest>, y: Digest)
    requires a <= b && Cited(certs, Elements(a), y)
    ensures Cited(certs, Elements(b), y)
  {
    var z :| z in Elements(a) && z in certs && y in certs[z].parents;
    assert z in Elements(b);
  }

  lemma {:induction false} PlacedForReason(certs: Certs, rank: Digest -> nat, seen: set<Digest>, acc: seq<Digest>,
                                           d: Digest, y: Digest)
    requires Ranked(certs, rank) && Distinct(acc)
    requires y in PlaceOne(certs, 0, rank, seen, acc, d) && y !in acc
    ensures y == d || Cited(certs, Elements(PlaceOne(certs, 0, rank, seen, acc, d)), y)
    decreases Level(certs, rank, d), 0
  {
    if d !in seen && d !in acc && d in certs && certs[d].round > 0 && y != d {
      var parents := Sort(certs[d].parents);
      ParentsAreLower(certs, rank, d);
      PostOrderForReason(certs, rank, seen, acc, parents, y);
      var placed := PostOrder(certs, 0, rank, seen, acc, parents);
      if y in parents {
        assert d in Elements(placed + [d]);
      } else {
        CitedMore(certs, placed, placed + [d], y);
      }
    }
  }

  lemma {:induction false} PostOrderForReason(certs: Certs, rank: Digest -> nat, seen: set<Digest>, acc: seq<Digest>,
                                              ps: seq<Digest>, y: Digest)
    requires Ranked(certs, rank) && Distinct(acc)
    requires y in PostOrder(certs, 0, rank, seen, acc, ps) && y !in acc
    ensures y in ps || Cited(certs, Elements(PostOrder(certs, 0, rank, seen, acc, ps)), y)
    decreases Height(certs, rank, ps), |ps| + 1
  {
    if ps != [] {
      var placed := PlaceOne(certs, 0, rank, seen, acc, ps[0]);
      PlaceOneExtends(certs, 0, rank, seen, acc, ps[0]);
      PostOrderExtends(certs, 0, rank, seen, placed, ps[1..]);
      if y in placed {
        PlacedForReason(certs, rank, seen, acc, ps[0], y);
        if y != ps[0] {
          CitedMore(certs, placed, PostOrder(certs, 0, rank, seen, placed, ps[1..]), y);
        }
      } else {
        PostOrderForReason(certs, rank, seen, placed, ps[1..], y);
      }
    }
  }

  /** Whatever a pass emits is a committed leader or is cited by something else it emits. */
  lemma {:induction false} EmittedForReason(v: View, rank: Digest -> nat, round: Round, upTo: Round,
                                            seen: set<Digest>, y: Digest)
    requires Ranked(v.certs, rank) && ByRound(v.certs, rank) && Placed(v, upTo)
    requires y in Plain(v, 0, rank, round, upTo, seen).ordered
    ensures || Cited(v.certs, Elements(Plain(v, 0, rank, round, upTo, seen).ordered), y)
            || (rank(y) <= upTo && Fate(v, 0, rank(y), upTo) == Committed(y))
    decreases upTo - round + 1
  {
    var fate := Fate(v, 0, round, upTo);
    if fate.Skipped? {
      EmittedForReason(v, rank, round + 1, upTo, seen, y);
    } else {
      var h := History(v.certs, 0, rank, seen, fate.digest);
      var rest := Plain(v, 0, rank, round + 1, upTo, seen + Elements(h));
      FatePlaced(v, round, upTo);
      if y in h {
        PlacedForReason(v.certs, rank, seen, [], fate.digest, y);
        if y != fate.digest {
          CitedMore(v.certs, h, h + rest.ordered, y);
        }
      } else {
        EmittedForReason(v, rank, round + 1, upTo, seen + Elements(h), y);
        CitedAfter(v.certs, h, rest.ordered, y);
      }
    }
  }

  lemma CitedAfter(certs: Certs, a: seq<Digest>, b: seq<Digest>, y: Digest)
    ensures Cited(certs, Elements(b), y) ==> Cited(certs, Elements(a + b), y)
  {
    if Cited(certs, Elements(b), y) {
      var z :| z in Elements(b) && z in certs && y in certs[z].parents;
      assert z in Elements(a + b);
    }
  }

  // ---- One call -------------------------------------------------------------------------------------

  /** What a pass emits is held and was not yet seen. */
  lemma {:induction false} PassFresh(v: View, rank: Digest -> nat, round: Round, upTo: Round, seen: set<Digest>)
    requires Ranked(v.certs, rank)
    ensures forall x :: x in Plain(v, 0, rank, round, upTo, seen).ordered ==> x in v.certs && x !in seen
    decreases upTo - round + 1
  {
    if round <= upTo {
      var fate := Fate(v, 0, round, upTo);
      if fate.Skipped? {
        PassFresh(v, rank, round + 1, upTo, seen);
      } else if fate.Committed? && Complete(v.certs, 0, seen, fate.digest) {
        var h := History(v.certs, 0, rank, seen, fate.digest);
        PlaceOneExtends(v.certs, 0, rank, seen, [], fate.digest);
        PassFresh(v, rank, round + 1, upTo, seen + Elements(h));
      }
    }
  }

  /** A leader that commits directly, with every earlier direct verdict definite, is emitted. */
  lemma PassEmits(v: View, rank: Digest -> nat, w: Round, upTo: Round, seen: set<Digest>, d: Digest)
    requires Ranked(v.certs, rank) && Closed(v.certs) && Grounded(v, upTo) && w <= upTo
    requires v.direct(w) == Committed(d) && DirectSettled(v, w)
    ensures d in seen || d in Plain(v, 0, rank, 0, upTo, seen).ordered
  {
    ViewProgresses(v, rank, w, upTo);
    PlainPasses(v, rank, 0, w, upTo, seen);
    CommittedIsEmitted(v, rank, 0, w, upTo, seen, d);
  }

  ghost predicate LeadersIn(v: View, floor: Round, seen: set<Digest>) {
    forall r :: 0 <= r < floor && v.direct(r).Committed? ==> v.direct(r).digest in seen
  }

  /** Where a call below a settled floor starts: what it has seen, and what it has seen afterwards. */
  ghost predicate Scene(v: View, rank: Digest -> nat, upTo: Round, floor: Round, seen: set<Digest>, out: seq<Digest>) {
    && Ranked(v.certs, rank) && Closed(v.certs) && Layered(v.certs) && ByRound(v.certs, rank)
    && Placed(v, upTo) && Grounded(v, upTo) && DirectSettled(v, floor) && floor <= upTo + 1
    && out == Plain(v, 0, rank, 0, upTo, seen).ordered
    && LeadersIn(v, floor, seen) && ParentClosed(v.certs, seen) && ParentClosed(v.certs, seen + Elements(out))
  }

  lemma {:induction false} WitnessAt(v: View, round: Round, upTo: Round) returns (w: Round)
    requires Witness(v, round, upTo).Some?
    ensures round <= w <= upTo && v.direct(w) == Committed(Witness(v, round, upTo).value)
    ensures forall r :: round <= r < w ==> v.direct(r).Skipped?
    decreases upTo - round + 1
  {
    w := round;
    if v.direct(round).Skipped? {
      w := WitnessAt(v, round + 1, upTo);
    }
  }

  lemma WitnessEmitted(v: View, rank: Digest -> nat, upTo: Round, floor: Round, seen: set<Digest>, r: Round)
    requires Ranked(v.certs, rank) && Closed(v.certs) && Grounded(v, upTo) && DirectSettled(v, floor) && r < floor
    requires Witness(v, r + 1, upTo).Some?
    ensures Witness(v, r + 1, upTo).value in seen + Elements(Plain(v, 0, rank, 0, upTo, seen).ordered)
  {
    var w := WitnessAt(v, r + 1, upTo);
    assert DirectSettled(v, w);
    PassEmits(v, rank, w, upTo, seen, Witness(v, r + 1, upTo).value);
  }

  /** A leader committed below the floor, not seen before, is cited by something emitted with it. */
  lemma LateLeaderCited(v: View, rank: Digest -> nat, upTo: Round, floor: Round, seen: set<Digest>, out: seq<Digest>,
                        y: Digest)
    requires Scene(v, rank, upTo, floor, seen, out) && y !in seen && y in v.certs
    requires rank(y) < floor && rank(y) <= upTo && Fate(v, 0, rank(y), upTo) == Committed(y)
    ensures Cited(v.certs, Elements(out), y)
  {
    var r := rank(y);
    if v.direct(r).Skipped? {
      var w := Witness(v, r + 1, upTo).value;
      WitnessEmitted(v, rank, upTo, floor, seen, r);
      WitnessPlaced(v, r + 1, upTo);
      ReachCites(v.certs, seen + Elements(out), w, y);
      var z :| z in seen + Elements(out) && z in v.certs && y in v.certs[z].parents;
      assert z in Elements(out);
    }
  }

  lemma LateCited(v: View, rank: Digest -> nat, upTo: Round, floor: Round, seen: set<Digest>, out: seq<Digest>,
                  y: Digest)
    requires Scene(v, rank, upTo, floor, seen, out) && y in out && rank(y) < floor
    ensures Cited(v.certs, Elements(out), y)
  {
    EmittedForReason(v, rank, 0, upTo, seen, y);
    PassFresh(v, rank, 0, upTo, seen);
    if !Cited(v.certs, Elements(out), y) {
      LateLeaderCited(v, rank, upTo, floor, seen, out, y);
    }
  }

  /** Every emitted certificate of the round `floor` has only parents that were seen before. */
  ghost predicate Moored(certs: Certs, floor: Round, seen: set<Digest>, out: seq<Digest>) {
    forall x, q :: x in out && x in certs && certs[x].round == floor && q in certs[x].parents ==> q in seen
  }

  lemma {:induction false} MooredNotLate(v: View, rank: Digest -> nat, upTo: Round, floor: Round, seen: set<Digest>,
                                         out: seq<Digest>, y: Digest)
    requires Scene(v, rank, upTo, floor, seen, out) && Moored(v.certs, floor, seen, out) && y in out
    ensures rank(y) >= floor
    decreases floor - rank(y)
  {
    if rank(y) < floor {
      PassFresh(v, rank, 0, upTo, seen);
      LateCited(v, rank, upTo, floor, seen, out, y);
      var z :| z in Elements(out) && z in v.certs && y in v.certs[z].parents;
      assert rank(z) == rank(y) + 1;
      MooredNotLate(v, rank, upTo, floor, seen, out, z);
    }
  }

  /** A call emits nothing below the floor exactly when it is moored there. */
  lemma CallMoored(v: View, rank: Digest -> nat, upTo: Round, floor: Round, seen: set<Digest>, out: seq<Digest>)
    requires Scene(v, rank, upTo, floor, seen, out)
    ensures (forall y :: y in out ==> rank(y) >= floor) <==> Moored(v.certs, floor, seen, out)
  {
    if Moored(v.certs, floor, seen, out) {
      forall y | y in out ensures rank(y) >= floor {
        MooredNotLate(v, rank, upTo, floor, seen, out, y);
      }
    } else {
      var x, q :| x in out && x in v.certs && v.certs[x].round == floor && q in v.certs[x].parents && q !in seen;
      assert q in seen + Elements(out) && rank(q) + 1 == floor;
    }
  }

  // ---- Runs -----------------------------------------------------------------------------------------

  lemma OlderLeaders(m: Moment, rank: Digest -> nat, floor: Round)
    requires Usable(m, rank) && DirectSettled(ViewAt(m), floor) && floor <= Bound(m) + 1
    ensures LeadersIn(ViewAt(m), floor, Elements(FreshOrder(m, rank)))
  {
    var v, up := ViewAt(m), Bound(m);
    ViewGrounded(m.net, m.dag, up);
    FreshIsPlain(m, rank);
    forall r | 0 <= r < floor && v.direct(r).Committed? ensures v.direct(r).digest in FreshOrder(m, rank) {
      PassEmits(v, rank, r, up, {}, v.direct(r).digest);
    }
  }

  lemma LeadersStay(v: View, upTo: Round, v1: View, upTo1: Round, floor: Round, seen: set<Digest>)
    requires Later(v, upTo, v1, upTo1) && DirectSettled(v, floor) && floor <= upTo + 1 && LeadersIn(v, floor, seen)
    ensures LeadersIn(v1, floor, seen)
  {
    forall r | 0 <= r < floor && v1.direct(r).Committed? ensures v1.direct(r).digest in seen {
      assert Settles(v, v1, r);
    }
  }

  lemma ClosedStays(certs: Certs, more: Certs, s: set<Digest>)
    requires ParentClosed(certs, s) && Within(certs, more) && s <= certs.Keys
    ensures ParentClosed(more, s)
  {
  }

  /** What the keeper of an in-step pair emits next. */
  ghost function NextOut(a: Trace, m: Moment, rank: Digest -> nat): seq<Digest>
    requires Ranked(m.dag.certs, rank)
  {
    AdvanceProgress(m.net, m.dag, rank, a.engine).ordered
  }

  lemma SeenClosed(a: Trace, m: Moment, rank: Digest -> nat)
    requires KeepsUp(a, rank) && Usable(m, rank) && Precedes(a.moment, m)
    ensures ParentClosed(m.dag.certs, a.engine.seen)
    ensures ParentClosed(m.dag.certs, a.engine.seen + Elements(NextOut(a, m, rank)))
  {
    OrderClosed(a.moment, rank);
    OrderWellEmitted(a.moment, rank);
    ClosedStays(a.moment.dag.certs, m.dag.certs, a.engine.seen);
    OrderClosed(m, rank);
    AdvanceStaysSynced(a.moment, m, rank, Run(Emitted(a.outputs), a.engine));
    ElementsAppend(Emitted(a.outputs), NextOut(a, m, rank));
  }

  lemma ReadyScene(a: Trace, b: Trace, m: Moment, thin: Net, rank: Digest -> nat, floor: Round)
    requires Ready(a, b, m, thin, rank, floor)
    ensures Scene(ViewAt(m), rank, Bound(m), floor, a.engine.seen, NextOut(a, m, rank))
  {
    var v0, v, up := ViewAt(a.moment), ViewAt(m), Bound(m);
    ReadyViews(a, b, m, thin, rank, floor);
    CacheTransparent(v, 0, rank, 0, up, a.engine.seen, a.engine.cache);
    OlderLeaders(a.moment, rank, floor);
    MomentsLater(a.moment, m, rank);
    LeadersStay(v0, Bound(a.moment), v, up, floor, a.engine.seen);
    SeenClosed(a, m, rank);
  }

  /** From the collector's own store and log: parents of what it emits at the barrier were emitted before. */
  ghost predicate Linked(before: Trace, after: Trace) {
    && after.outputs != []
    && Moored(after.moment.dag.certs, before.engine.gcFloor, Elements(Emitted(before.outputs)),
              after.outputs[|after.outputs| - 1])
  }

  /** Every output the collector makes is linked to what it emitted before. */
  ghost predicate AllLinked(first: Moment, es: seq<Event>, rank: Digest -> nat)
    requires Lawful(first, es, rank)
    decreases |es|
  {
    es == [] ||
    var n := |es| - 1;
    && AllLinked(first, es[..n], rank)
    && (es[n].Advance? ==> Linked(Collecting(first, es[..n], rank), Collecting(first, es, rank)))
  }

  /** Mooring looks only at the round of the floor, so it reads the same on the pruned side. */
  lemma MooredAlike(certs: Certs, rank: Digest -> nat, floor: Round, seen: set<Digest>, out: seq<Digest>)
    requires ByRound(certs, rank)
    ensures Moored(certs, floor, seen, out) <==> Moored(High(certs, floor), floor, seen, From(out, rank, floor))
  {
    FromMembers(out, rank, floor);
    forall x | x in certs && certs[x].round == floor
      ensures x in High(certs, floor) && High(certs, floor)[x] == certs[x] &&
              (x in out <==> x in From(out, rank, floor))
    {
    }
  }

  /** One more call, on two validators whose outputs agree so far. */
  lemma NextAlike(a: Trace, b: Trace, m: Moment, thin: Net, rank: Digest -> nat, floor: Round)
    requires Ready(a, b, m, thin, rank, floor) && a.outputs == b.outputs
    ensures Ranked(Arriving(b, m, thin).dag.certs, rank)
    ensures var a1, b1 := AdvanceTo(a, m, rank), AdvanceTo(b, Arriving(b, m, thin), rank);
            a1.outputs == b1.outputs <==> Linked(b, b1)
  {
    var out := NextOut(a, m, rank);
    LockstepAdvance(a, b, m, thin, rank, floor);
    ReadyScene(a, b, m, thin, rank, floor);
    CallMoored(ViewAt(m), rank, Bound(m), floor, a.engine.seen, out);
    MooredAlike(m.dag.certs, rank, floor, a.engine.seen, out);
    FromAll(out, rank, floor);
    SnocAlike(a.outputs, out, From(out, rank, floor));
    assert Pruned(m.dag, floor).certs == High(m.dag.certs, floor);
  }

  lemma SnocAlike(outputs: seq<seq<Digest>>, x: seq<Digest>, y: seq<Digest>)
    ensures outputs + [x] == outputs + [y] <==> x == y
  {
    assert (outputs + [x])[|outputs|] == x && (outputs + [y])[|outputs|] == y;
  }

  lemma SnocSplits(a: seq<seq<Digest>>, b: seq<seq<Digest>>, x: seq<Digest>, y: seq<Digest>)
    requires |a| == |b| && a + [x] == b + [y]
    ensures a == b && x == y
  {
    assert (a + [x])[..|a|] == a && (b + [y])[..|b|] == b && (a + [x])[|a|] == x && (b + [y])[|b|] == y;
  }

  /**
   * Collection leaves every output unchanged exactly when, at each call, the parents of the
   * certificates the collector emits at its barrier are digests it has emitted before: something it
   * can read off its own store and its own log.
   */
  lemma {:induction false} UnnoticedExactly(first: Moment, es: seq<Event>, rank: Digest -> nat)
    requires Lawful(first, es, rank)
    ensures Collecting(first, es, rank).outputs == Keeping(first, es, rank).outputs <==> AllLinked(first, es, rank)
    decreases |es|
  {
    if es != [] {
      var n := |es| - 1;
      UnnoticedExactly(first, es[..n], rank);
      Lockstep(first, es[..n], rank);
      var a, b := Keeping(first, es[..n], rank), Collecting(first, es[..n], rank);
      if es[n].Advance? {
        var m, thin := es[n].moment, es[n].thin;
        if a.outputs == b.outputs {
          NextAlike(a, b, m, thin, rank, Barrier(es[..n]));
        } else if Collecting(first, es, rank).outputs == Keeping(first, es, rank).outputs {
          SnocSplits(a.outputs, b.outputs, NextOut(a, m, rank), Collecting(first, es, rank).outputs[|b.outputs|]);
        }
      }
    }
  }

  // ---- Before collecting ------------------------------------------------------------------------------

  /**
   * Before each collection that raises the barrier, every certificate the collector holds of the
   * round right below the new floor is one it remembers having emitted.
   */
  ghost predicate RowsSeen(first: Moment, es: seq<Event>, rank: Digest -> nat)
    requires Lawful(first, es, rank)
    decreases |es|
  {
    es == [] ||
    var n := |es| - 1;
    && RowsSeen(first, es[..n], rank)
    && var t := Collecting(first, es[..n], rank);
       es[n].Collect? && es[n].floor > t.engine.gcFloor ==> RowSeen(t.moment.dag.certs, es[n].floor, t.engine.seen)
  }

  ghost predicate RowSeen(certs: Certs, floor: Round, seen: set<Digest>) {
    forall d :: d in certs && certs[d].round + 1 == floor ==> d in seen
  }

  /** What the collector remembers, and everything right below its barrier, is in its log. */
  ghost predicate Logged(a: Trace, b: Trace, floor: Round) {
    && b.engine.seen <= Elements(Emitted(b.outputs))
    && RowSeen(a.moment.dag.certs, floor, Elements(Emitted(b.outputs)))
  }

  lemma LoggedAdvance(a: Trace, b: Trace, m: Moment, thin: Net, rank: Digest -> nat, floor: Round)
    requires Ready(a, b, m, thin, rank, floor) && Logged(a, b, floor)
    ensures Ranked(Arriving(b, m, thin).dag.certs, rank)
    ensures var b1 := AdvanceTo(b, Arriving(b, m, thin), rank);
            Logged(AdvanceTo(a, m, rank), b1, floor) && Linked(b, b1)
  {
    LockstepAdvance(a, b, m, thin, rank, floor);
    ReadyViews(a, b, m, thin, rank, floor);
    var w, up := ViewOf(thin, Pruned(m.dag, floor)), Bound(m);
    CacheTransparent(w, floor, rank, floor, up, b.engine.seen, b.engine.cache);
    PlainSeen(w, floor, rank, floor, up, b.engine.seen);
    var out := AdvanceProgress(thin, Pruned(m.dag, floor), rank, b.engine).ordered;
    EmittedSnoc(b.outputs, out);
    ElementsAppend(Emitted(b.outputs), out);
    RowMoors(a.moment.dag.certs, m.dag.certs, floor, Elements(Emitted(b.outputs)), out);
  }

  lemma RowMoors(certs: Certs, more: Certs, floor: Round, seen: set<Digest>, out: seq<Digest>)
    requires Closed(more) && Layered(more) && Within(certs, more) && Low(more, floor) <= certs.Keys
    requires RowSeen(certs, floor, seen)
    ensures RowSeen(more, floor, seen) && Moored(High(more, floor), floor, seen, out)
  {
    forall d | d in more && more[d].round + 1 == floor ensures d in seen {
      assert d in Low(more, floor);
    }
  }

  lemma {:induction false} RowsSeenLinked(first: Moment, es: seq<Event>, rank: Digest -> nat)
    requires Lawful(first, es, rank) && RowsSeen(first, es, rank)
    ensures AllLinked(first, es, rank)
    ensures Logged(Keeping(first, es, rank), Collecting(first, es, rank), Barrier(es))
    decreases |es|
  {
    if es == [] {
      FirstLogged(first, rank);
    } else {
      var n := |es| - 1;
      RowsSeenLinked(first, es[..n], rank);
      Lockstep(first, es[..n], rank);
      var a, b, floor := Keeping(first, es[..n], rank), Collecting(first, es[..n], rank), Barrier(es[..n]);
      match es[n] {
        case Advance(m, thin) => LoggedAdvance(a, b, m, thin, rank, floor);
        case Collect(floor1) => LoggedCollect(a, b, floor, floor1);
      }
    }
  }

  lemma FirstLogged(first: Moment, rank: Digest -> nat)
    requires Usable(first, rank)
    ensures var t := AdvanceTo(START, first, rank); Logged(t, t, 0)
  {
    KeepsUpFirst(first, rank);
  }

  lemma LoggedCollect(a: Trace, b: Trace, floor: Round, floor1: Round)
    requires Mirrors(a, b, floor) && Logged(a, b, floor) && floor <= floor1
    requires floor1 > floor ==> RowSeen(b.moment.dag.certs, floor1, b.engine.seen)
    ensures Logged(a, CollectAt(b, floor1), floor1)
  {
    if floor1 > floor {
      forall d | d in a.moment.dag.certs && a.moment.dag.certs[d].round + 1 == floor1 ensures d in b.engine.seen {
        assert d in b.moment.dag.certs;
      }
    }
  }

  /** Collecting only above rows it has emitted, a node's outputs are those of one that never collects. */
  lemma CollectionTransparent(first: Moment, es: seq<Event>, rank: Digest -> nat)
    requires Lawful(first, es, rank) && RowsSeen(first, es, rank)
    ensures Collecting(first, es, rank).outputs == Keeping(first, es, rank).outputs
  {
    RowsSeenLinked(first, es, rank);
    UnnoticedExactly(first, es, rank);
  }
}
