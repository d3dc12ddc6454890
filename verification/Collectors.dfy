/** Collecting validators compared with each other, and with themselves after a restart. */
module Collectors {
  import opened Schedule
  import opened Dag
  import opened Verdict
  import opened Resolve
  import opened Order
  import opened Agreement
  import opened Collect
  import opened Transparency
  import opened Unnoticed

  /** A finished run on some view of `whole`, under a schedule that is carried forward into `net`. */
  ghost predicate RunWithin(net: Net, whole: Dag, first: Moment, es: seq<Event>, rank: Digest -> nat) {
    && Lawful(first, es, rank)
    && var m := Keeping(first, es, rank).moment; Within(m.dag.certs, whole.certs) && Follows(m.net, net)
  }

  /** From any round no barrier exceeds, a collector emits what a fresh pass over its full view emits. */
  lemma CollectorFrom(first: Moment, es: seq<Event>, rank: Digest -> nat, g: Round)
    requires Lawful(first, es, rank) && Barrier(es) <= g
    ensures var m := Keeping(first, es, rank).moment;
            && Sound(m, rank)
            && From(Emitted(Collecting(first, es, rank).outputs), rank, g) == From(FreshOrder(m, rank), rank, g)
  {
    Lockstep(first, es, rank);
    BarriersBelow(first, es, rank);
    DropsFrom(Keeping(first, es, rank).outputs, Collecting(first, es, rank).outputs, Barriers(es), rank, g);
  }

  /**
   * No fork among collectors: whatever floors two validators collected at, emitted or not, what they
   * emitted from any round at or above both barriers on is prefix-comparable.
   */
  lemma CollectorsComparable(net: Net, whole: Dag, rank: Digest -> nat, first: Moment, es: seq<Event>,
                             first1: Moment, es1: seq<Event>, g: Round)
    requires Coherent(whole) && Ranked(whole.certs, rank) && Authored(net, whole.certs)
    requires RunWithin(net, whole, first, es, rank) && RunWithin(net, whole, first1, es1, rank)
    requires Barrier(es) <= g && Barrier(es1) <= g
    ensures var x := From(Emitted(Collecting(first, es, rank).outputs), rank, g);
            var y := From(Emitted(Collecting(first1, es1, rank).outputs), rank, g);
            x <= y || y <= x
  {
    CollectorFrom(first, es, rank, g);
    CollectorFrom(first1, es1, rank, g);
    var m, m1 := Keeping(first, es, rank).moment, Keeping(first1, es1, rank).moment;
    OrdersComparable(net, whole, m, m1, rank);
    if FreshOrder(m, rank) <= FreshOrder(m1, rank) {
      FromPrefix(FreshOrder(m, rank), FreshOrder(m1, rank), rank, g);
    } else {
      FromPrefix(FreshOrder(m1, rank), FreshOrder(m, rank), rank, g);
    }
  }

  /** When both collected only above rows they had emitted, their whole outputs are comparable. */
  lemma CarefulCollectorsComparable(net: Net, whole: Dag, rank: Digest -> nat, first: Moment, es: seq<Event>,
                                    first1: Moment, es1: seq<Event>)
    requires Coherent(whole) && Ranked(whole.certs, rank) && Authored(net, whole.certs)
    requires RunWithin(net, whole, first, es, rank) && RowsSeen(first, es, rank)
    requires RunWithin(net, whole, first1, es1, rank) && RowsSeen(first1, es1, rank)
    ensures var x, y := Emitted(Collecting(first, es, rank).outputs), Emitted(Collecting(first1, es1, rank).outputs);
            x <= y || y <= x
  {
    CollectionTransparent(first, es, rank);
    CollectionTransparent(first1, es1, rank);
    Lockstep(first, es, rank);
    Lockstep(first1, es1, rank);
    OrdersComparable(net, whole, Keeping(first, es, rank).moment, Keeping(first1, es1, rank).moment, rank);
  }

  /**
   * A restarted node, its memory gone and its store pruned below `floor`, re-derives against the
   * barrier exactly what a fresh pass over the unpruned store emits from the floor on.
   */
  lemma RestartRederives(m: Moment, thin: Net, rank: Digest -> nat, floor: Round)
    requires Usable(m, rank) && AgreeFrom(m.net, thin, floor)
    requires DirectSettled(ViewAt(m), floor) && floor <= Bound(m) + 1
    ensures Ranked(Pruned(m.dag, floor).certs, rank)
    ensures AdvanceProgress(thin, Pruned(m.dag, floor), rank, WithFloor(NEW, floor)).ordered ==
            From(FreshOrder(m, rank), rank, floor)
  {
    var v, w, up := ViewAt(m), ViewOf(thin, Pruned(m.dag, floor)), Bound(m);
    ViewPlaced(m.net, m.dag, up);
    ViewGrounded(m.net, m.dag, up);
    PrunedTrims(m.net, thin, m.dag, floor);
    PrunedRanked(m, floor, rank);
    CallCut(v, w, floor, rank, up, {});
    assert {} - Low(v.certs, floor) == {};
    FreshIsPlain(m, rank);
    CacheTransparent(w, floor, rank, floor, up, {}, map[]);
  }

  /** The store a node that collected in a lawful run reloads meets the conditions above. */
  lemma CollectorRestarts(first: Moment, es: seq<Event>, thin: Net, rank: Digest -> nat)
    requires Lawful(first, es, rank) && AgreeFrom(Keeping(first, es, rank).moment.net, thin, Barrier(es))
    ensures var m, floor := Keeping(first, es, rank).moment, Barrier(es);
            && Collecting(first, es, rank).moment.dag == Pruned(m.dag, floor)
            && Ranked(Pruned(m.dag, floor).certs, rank)
            && AdvanceProgress(thin, Pruned(m.dag, floor), rank, WithFloor(NEW, floor)).ordered ==
               From(Emitted(Collecting(first, es, rank).outputs), rank, floor)
  {
    Lockstep(first, es, rank);
    RestartRederives(Keeping(first, es, rank).moment, thin, rank, Barrier(es));
    CollectorFrom(first, es, rank, Barrier(es));
  }
}
