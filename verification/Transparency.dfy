/** Runs with and without garbage collection: what collecting costs, exactly. */
module Transparency {
  import opened Schedule
  import opened Dag
  import opened Verdict
  import opened Resolve
  import opened Walk
  import opened Order
  import opened Agreement
  import opened Collect

  ghost function ViewAt(m: Moment): View {
    ViewOf(m.net, m.dag)
  }

  ghost function Bound(m: Moment): Round {
    UpTo(m.net, m.dag)
  }

  /** Sound, layered by round, with the round as the acyclicity witness. */
  ghost predicate Usable(m: Moment, rank: Digest -> nat) {
    Sound(m, rank) && Layered(m.dag.certs) && ByRound(m.dag.certs, rank)
  }

  // ---- From the floor on ---------------------------------------------------------------------------

  /** A result as the pruned side sees it. */
  ghost function Cut(p: Progress, rank: Digest -> nat, low: set<Digest>, floor: Round): Progress {
    Progress(From(p.ordered, rank, floor), p.round, p.seen - low, map[])
  }

  lemma CutAfter(h: seq<Digest>, p: Progress, rank: Digest -> nat, low: set<Digest>, floor: Round)
    ensures Cut(After(h, p), rank, low, floor) == After(From(h, rank, floor), Cut(p, rank, low, floor))
  {
    FromAppend(h, p.ordered, rank, floor);
  }

  /** A committed leader's history on the pruned side is the full one less what lies below the floor. */
  lemma TrimmedCommit(v: View, floor: Round, rank: Digest -> nat, round: Round, upTo: Round, seen: set<Digest>,
                      d: Digest)
    requires Ranked(v.certs, rank) && Closed(v.certs) && Layered(v.certs) && ByRound(v.certs, rank) && Placed(v, upTo)
    requires floor <= round <= upTo && Fate(v, 0, round, upTo) == Committed(d)
    ensures Ranked(High(v.certs, floor), rank)
    ensures Complete(v.certs, 0, seen, d) && Complete(High(v.certs, floor), floor, seen - Low(v.certs, floor), d)
    ensures var h, low := History(v.certs, 0, rank, seen, d), Low(v.certs, floor);
            && History(High(v.certs, floor), floor, rank, seen - low, d) == From(h, rank, floor)
            && seen + Elements(h) - low == seen - low + Elements(From(h, rank, floor))
  {
    var h := History(v.certs, 0, rank, seen, d);
    FatePlaced(v, round, upTo);
    ClosedComplete(v.certs, 0, seen, d);
    TrimmedComplete(v.certs, floor, seen - Low(v.certs, floor), d);
    TrimmedPlaceOne(v.certs, floor, rank, seen, [], d);
    PlaceOneExtends(v.certs, 0, rank, seen, [], d);
    FromMembers(h, rank, floor);
  }

  /** From the floor on, a pass over the pruned view is the cut of a pass over the full one. */
  lemma {:induction false} PassCut(v: View, w: View, floor: Round, rank: Digest -> nat, round: Round, upTo: Round,
                                   seen: set<Digest>)
    requires Ranked(v.certs, rank) && Closed(v.certs) && Layered(v.certs) && ByRound(v.certs, rank) && Placed(v, upTo)
    requires Trims(v, w, floor) && round >= floor
    ensures Ranked(w.certs, rank)
    ensures Plain(w, floor, rank, round, upTo, seen - Low(v.certs, floor)) ==
            Cut(Plain(v, 0, rank, round, upTo, seen), rank, Low(v.certs, floor), floor)
    decreases upTo - round + 1, 1
  {
    HighRanked(v.certs, floor, rank);
    if round <= upTo {
      TrimmedFate(v, w, floor, round, upTo);
      var fate := Fate(v, 0, round, upTo);
      if fate.Skipped? {
        PassCut(v, w, floor, rank, round + 1, upTo, seen);
        CutSkip(v, w, floor, rank, round, upTo, seen, Low(v.certs, floor));
      } else if fate.Committed? {
        PassCutCommit(v, w, floor, rank, round, upTo, seen, fate.digest);
      }
    }
  }

  lemma CutSkip(v: View, w: View, floor: Round, rank: Digest -> nat, round: Round, upTo: Round, seen: set<Digest>,
                low: set<Digest>)
    requires Ranked(v.certs, rank) && Ranked(w.certs, rank) && round <= upTo
    requires Fate(v, 0, round, upTo).Skipped? && Fate(w, floor, round, upTo).Skipped?
    requires Plain(w, floor, rank, round + 1, upTo, seen - low) ==
             Cut(Plain(v, 0, rank, round + 1, upTo, seen), rank, low, floor)
    ensures Plain(w, floor, rank, round, upTo, seen - low) ==
            Cut(Plain(v, 0, rank, round, upTo, seen), rank, low, floor)
  {
  }

  lemma {:induction false} PassCutCommit(v: View, w: View, floor: Round, rank: Digest -> nat, round: Round, upTo: Round,
                                         seen: set<Digest>, d: Digest)
    requires Ranked(v.certs, rank) && Closed(v.certs) && Layered(v.certs) && ByRound(v.certs, rank) && Placed(v, upTo)
    requires Trims(v, w, floor) && floor <= round <= upTo && Fate(v, 0, round, upTo) == Committed(d)
    requires Fate(w, floor, round, upTo) == Committed(d)
    ensures Ranked(w.certs, rank)
    ensures Plain(w, floor, rank, round, upTo, seen - Low(v.certs, floor)) ==
            Cut(Plain(v, 0, rank, round, upTo, seen), rank, Low(v.certs, floor), floor)
    decreases upTo - round + 1, 0
  {
    var h, low := History(v.certs, 0, rank, seen, d), Low(v.certs, floor);
    TrimmedCommit(v, floor, rank, round, upTo, seen, d);
    PassCut(v, w, floor, rank, round + 1, upTo, seen + Elements(h));
    PlainTakes(v, 0, rank, round, upTo, seen, d);
    PlainTakes(w, floor, rank, round, upTo, seen - low, d);
    CutAfter(h, Plain(v, 0, rank, round + 1, upTo, seen + Elements(h)), rank, low, floor);
  }

  lemma PlainTakes(v: View, floor: Round, rank: Digest -> nat, round: Round, upTo: Round, seen: set<Digest>, d: Digest)
    requires Ranked(v.certs, rank) && round <= upTo && Fate(v, floor, round, upTo) == Committed(d)
    requires Complete(v.certs, floor, seen, d)
    ensures var h := History(v.certs, floor, rank, seen, d);
            Plain(v, floor, rank, round, upTo, seen) ==
            After(h, Plain(v, floor, rank, round + 1, upTo, seen + Elements(h)))
  {
  }

  // ---- Below the floor -----------------------------------------------------------------------------

  /** Every direct verdict below `floor` is definite. */
  ghost predicate DirectSettled(v: View, floor: Round) {
    forall r :: 0 <= r < floor ==> !v.direct(r).Undecided?
  }

  /** All of `s` is held and lies below the floor. */
  ghost predicate AllLow(v: View, rank: Digest -> nat, floor: Round, s: seq<Digest>) {
    forall x :: x in s ==> x in v.certs && rank(x) < floor
  }

  /** A leader committed below the floor brings in only what lies below it. */
  lemma HistoryLow(v: View, rank: Digest -> nat, round: Round, floor: Round, upTo: Round, seen: set<Digest>, d: Digest)
    requires Ranked(v.certs, rank) && ByRound(v.certs, rank) && Placed(v, upTo)
    requires round <= upTo && round < floor && Fate(v, 0, round, upTo) == Committed(d)
    ensures AllLow(v, rank, floor, History(v.certs, 0, rank, seen, d))
  {
    FatePlaced(v, round, upTo);
    PlaceOneExtends(v.certs, 0, rank, seen, [], d);
  }

  lemma {:induction false} SkippedBelow(v: View, round: Round, floor: Round, upTo: Round)
    requires DirectSettled(v, floor) && Witness(v, round, upTo).None? && round <= floor <= upTo + 1
    ensures Witness(v, floor, upTo).None?
    decreases floor - round
  {
    if round < floor {
      SkippedBelow(v, round + 1, floor, upTo);
    }
  }

  /** An undecided round below the floor leaves the floor without a witness. */
  lemma BlockedBelow(v: View, round: Round, floor: Round, upTo: Round)
    requires Closed(v.certs) && Grounded(v, upTo) && DirectSettled(v, floor)
    requires round < floor <= upTo + 1 && Fate(v, 0, round, upTo).Undecided?
    ensures Witness(v, floor, upTo).None?
  {
    ClosedFateDecided(v, 0, round, upTo);
    SkippedBelow(v, round + 1, floor, upTo);
  }

  /**
   * Rounds below the floor emit nothing but what lies below it; and either the pass gets to the floor,
   * or it is stuck and nothing from the floor on can be committed yet.
   */
  ghost predicate LowPass(v: View, rank: Digest -> nat, floor: Round, upTo: Round, seen: set<Digest>, p: Progress,
                          low: seq<Digest>) {
    && Ranked(v.certs, rank) && AllLow(v, rank, floor, low)
    && (|| p == After(low, Plain(v, 0, rank, floor, upTo, seen + Elements(low)))
        || (Witness(v, floor, upTo).None? && p.ordered == low))
  }

  lemma {:induction false} LowRounds(v: View, rank: Digest -> nat, round: Round, floor: Round, upTo: Round,
                                     seen: set<Digest>)
    returns (low: seq<Digest>)
    requires Ranked(v.certs, rank) && Closed(v.certs) && ByRound(v.certs, rank) && Placed(v, upTo) && Grounded(v, upTo)
    requires DirectSettled(v, floor) && round <= floor <= upTo + 1
    ensures LowPass(v, rank, floor, upTo, seen, Plain(v, 0, rank, round, upTo, seen), low)
    decreases floor - round, 1
  {
    if round == floor {
      low := [];
      LowBase(v, rank, floor, upTo, seen);
    } else {
      var fate := Fate(v, 0, round, upTo);
      if fate.Undecided? {
        low := [];
        LowBlocked(v, rank, round, floor, upTo, seen);
      } else if fate.Skipped? {
        low := LowRounds(v, rank, round + 1, floor, upTo, seen);
        PlainSkips(v, rank, round, upTo, seen);
      } else {
        low := LowCommit(v, rank, round, floor, upTo, seen, fate.digest);
      }
    }
  }

  lemma {:induction false} LowCommit(v: View, rank: Digest -> nat, round: Round, floor: Round, upTo: Round,
                                     seen: set<Digest>, d: Digest)
    returns (low: seq<Digest>)
    requires Ranked(v.certs, rank) && Closed(v.certs) && ByRound(v.certs, rank) && Placed(v, upTo) && Grounded(v, upTo)
    requires DirectSettled(v, floor) && round < floor <= upTo + 1 && Fate(v, 0, round, upTo) == Committed(d)
    ensures LowPass(v, rank, floor, upTo, seen, Plain(v, 0, rank, round, upTo, seen), low)
    decreases floor - round, 0
  {
    var h := History(v.certs, 0, rank, seen, d);
    var rest := LowRounds(v, rank, round + 1, floor, upTo, seen + Elements(h));
    HistoryLow(v, rank, round, floor, upTo, seen, d);
    LowJoin(v, rank, round, floor, upTo, seen, d, rest);
    low := h + rest;
  }

  lemma LowJoin(v: View, rank: Digest -> nat, round: Round, floor: Round, upTo: Round, seen: set<Digest>, d: Digest,
                rest: seq<Digest>)
    requires Ranked(v.certs, rank) && Closed(v.certs) && Grounded(v, upTo)
    requires round <= upTo && Fate(v, 0, round, upTo) == Committed(d)
    requires AllLow(v, rank, floor, History(v.certs, 0, rank, seen, d))
    requires var seen1 := seen + Elements(History(v.certs, 0, rank, seen, d));
             LowPass(v, rank, floor, upTo, seen1, Plain(v, 0, rank, round + 1, upTo, seen1), rest)
    ensures LowPass(v, rank, floor, upTo, seen, Plain(v, 0, rank, round, upTo, seen),
                    History(v.certs, 0, rank, seen, d) + rest)
  {
    var h := History(v.certs, 0, rank, seen, d);
    PlainCommit(v, 0, rank, round, upTo, seen, d);
    LowGlue(v, rank, floor, upTo, seen, Plain(v, 0, rank, round + 1, upTo, seen + Elements(h)), h, rest);
  }

  lemma LowBase(v: View, rank: Digest -> nat, floor: Round, upTo: Round, seen: set<Digest>)
    requires Ranked(v.certs, rank)
    ensures LowPass(v, rank, floor, upTo, seen, Plain(v, 0, rank, floor, upTo, seen), [])
  {
    assert seen + Elements([]) == seen;
    assert After([], Plain(v, 0, rank, floor, upTo, seen)) == Plain(v, 0, rank, floor, upTo, seen);
  }

  lemma LowBlocked(v: View, rank: Digest -> nat, round: Round, floor: Round, upTo: Round, seen: set<Digest>)
    requires Ranked(v.certs, rank) && Closed(v.certs) && Grounded(v, upTo) && DirectSettled(v, floor)
    requires round < floor <= upTo + 1 && Fate(v, 0, round, upTo).Undecided?
    ensures LowPass(v, rank, floor, upTo, seen, Plain(v, 0, rank, round, upTo, seen), [])
  {
    BlockedBelow(v, round, floor, upTo);
  }

  lemma PlainSkips(v: View, rank: Digest -> nat, round: Round, upTo: Round, seen: set<Digest>)
    requires Ranked(v.certs, rank) && round <= upTo && Fate(v, 0, round, upTo).Skipped?
    ensures Plain(v, 0, rank, round, upTo, seen) == Plain(v, 0, rank, round + 1, upTo, seen)
  {
  }

  lemma LowGlue(v: View, rank: Digest -> nat, floor: Round, upTo: Round, seen: set<Digest>, p: Progress,
                h: seq<Digest>, rest: seq<Digest>)
    requires LowPass(v, rank, floor, upTo, seen + Elements(h), p, rest) && AllLow(v, rank, floor, h)
    ensures LowPass(v, rank, floor, upTo, seen, After(h, p), h + rest)
  {
    TwiceSeen(seen, h, rest);
    AfterAfter(h, rest, Plain(v, 0, rank, floor, upTo, seen + Elements(h + rest)));
  }

  /**
   * One call: the pruned side emits exactly what the full side emits from the floor on, and remembers
   * exactly what the full side remembers from the floor on.
   */
  lemma CallCut(v: View, w: View, floor: Round, rank: Digest -> nat, upTo: Round, seen: set<Digest>)
    requires Ranked(v.certs, rank) && Closed(v.certs) && Layered(v.certs) && ByRound(v.certs, rank)
    requires Placed(v, upTo) && Grounded(v, upTo) && Trims(v, w, floor) && DirectSettled(v, floor) && floor <= upTo + 1
    ensures Ranked(w.certs, rank)
    ensures var p, low := Plain(v, 0, rank, 0, upTo, seen), Low(v.certs, floor);
            var q := Plain(w, floor, rank, floor, upTo, seen - low);
            q.ordered == From(p.ordered, rank, floor) && q.seen == p.seen - low
  {
    var low := LowRounds(v, rank, 0, floor, upTo, seen);
    var p, later := Plain(v, 0, rank, 0, upTo, seen), Plain(v, 0, rank, floor, upTo, seen + Elements(low));
    LowForgotten(v, rank, floor, seen, low);
    PassCut(v, w, floor, rank, floor, upTo, seen + Elements(low));
    FromLow(low, rank, floor);
    PlainSeen(v, 0, rank, 0, upTo, seen);
    PlainSeen(v, 0, rank, floor, upTo, seen + Elements(low));
    if p == After(low, later) {
      FromAppend(low, later.ordered, rank, floor);
    } else if later.ordered != [] {
      EmissionNeedsWitness(v, 0, rank, floor, upTo, seen + Elements(low));
    } else {
      assert seen + Elements(low) + Elements([]) == seen + Elements(low);
    }
  }

  lemma LowForgotten(v: View, rank: Digest -> nat, floor: Round, seen: set<Digest>, low: seq<Digest>)
    requires ByRound(v.certs, rank) && AllLow(v, rank, floor, low)
    ensures seen + Elements(low) - Low(v.certs, floor) == seen - Low(v.certs, floor)
  {
  }

  /** A pass only gets through rounds that are decided, so whose direct verdict is definite. */
  lemma {:induction false} PassSettled(v: View, floor: Round, rank: Digest -> nat, round: Round, upTo: Round,
                                       seen: set<Digest>)
    requires Ranked(v.certs, rank) && round <= upTo + 1
    ensures var p := Plain(v, floor, rank, round, upTo, seen);
            && round <= p.round <= upTo + 1
            && (forall r :: round <= r < p.round ==> !Fate(v, floor, r, upTo).Undecided?)
            && (forall r :: round <= r < p.round ==> !v.direct(r).Undecided?)
    decreases upTo - round + 1
  {
    if round <= upTo {
      var fate := Fate(v, floor, round, upTo);
      if fate.Skipped? {
        PassSettled(v, floor, rank, round + 1, upTo, seen);
      } else if fate.Committed? && Complete(v.certs, floor, seen, fate.digest) {
        PassSettled(v, floor, rank, round + 1, upTo, seen + Elements(History(v.certs, floor, rank, seen, fate.digest)));
      }
    }
  }

  // ---- Events -----------------------------------------------------------------------------------

  /** An `advance` names the full view and the net of the collecting side's own, thinned, schedule. */
  datatype Event = Advance(moment: Moment, thin: Net) | Collect(floor: Round)

  /** A validator in mid-run: its outputs, its memory, and its store as of the last `advance`. */
  datatype Trace = Trace(outputs: seq<seq<Digest>>, engine: Engine, moment: Moment)

  ghost function AdvanceTo(t: Trace, m: Moment, rank: Digest -> nat): Trace
    requires Ranked(m.dag.certs, rank)
  {
    Trace(t.outputs + [AdvanceProgress(m.net, m.dag, rank, t.engine).ordered],
          Advanced(m.net, m.dag, rank, t.engine), m)
  }

  const START: Trace := Trace([], NEW, Moment(Net((r: Round) => map[], (r: Round) => None, 0), EMPTY))

  /** Pruning, then forgetting exactly what was pruned, then raising the barrier. */
  ghost function CollectAt(t: Trace, floor: Round): Trace {
    t.(engine := WithFloor(t.engine.(seen := t.engine.seen - DigestsBelow(t.moment.dag.slots, floor)), floor),
       moment := t.moment.(dag := Pruned(t.moment.dag, floor)))
  }

  /** What a validator that has already pruned below its barrier sees. */
  function Arriving(t: Trace, m: Moment, thin: Net): Moment {
    Moment(thin, Pruned(m.dag, t.engine.gcFloor))
  }

  /** The barrier after the given events. */
  function Barrier(es: seq<Event>): Round {
    if es == [] then 0
    else match es[|es| - 1]
      case Advance(_, _) => Barrier(es[..|es| - 1])
      case Collect(floor) => floor
  }

  /** The barrier in force at each output. */
  function Barriers(es: seq<Event>): seq<Round> {
    if es == [] then [0]
    else match es[|es| - 1]
      case Advance(_, _) => Barriers(es[..|es| - 1]) + [Barrier(es[..|es| - 1])]
      case Collect(_) => Barriers(es[..|es| - 1])
  }

  /**
   * What a node does: its views grow and are parent-closed, nothing arrives below its barrier, and it
   * collects at floors up to its own finalized floor. Nothing is asked about what has been emitted.
   */
  ghost predicate Lawful(first: Moment, es: seq<Event>, rank: Digest -> nat)
    decreases |es|, 0
  {
    if es == [] then Usable(first, rank)
    else
      var n := |es| - 1;
      && Lawful(first, es[..n], rank)
      && var t := Keeping(first, es[..n], rank);
         match es[n]
         case Advance(m, thin) =>
           && Usable(m, rank) && Precedes(t.moment, m) && AgreeFrom(m.net, thin, Barrier(es[..n]))
           && Low(m.dag.certs, Barrier(es[..n])) <= t.moment.dag.certs.Keys
         case Collect(floor) => Barrier(es[..n]) <= floor <= Collecting(first, es[..n], rank).engine.finalized
  }

  /** The events at a validator that never collects. */
  ghost function Keeping(first: Moment, es: seq<Event>, rank: Digest -> nat): Trace
    requires Lawful(first, es, rank)
    decreases |es|, 1
  {
    if es == [] then AdvanceTo(START, first, rank)
    else
      var n := |es| - 1;
      match es[n]
      case Advance(m, _) => AdvanceTo(Keeping(first, es[..n], rank), m, rank)
      case Collect(_) => Keeping(first, es[..n], rank)
  }

  lemma PrunedRanked(m: Moment, floor: Round, rank: Digest -> nat)
    requires Ranked(m.dag.certs, rank)
    ensures Ranked(Pruned(m.dag, floor).certs, rank)
  {
  }

  /** The same events at a validator that honours every collection. */
  ghost function Collecting(first: Moment, es: seq<Event>, rank: Digest -> nat): Trace
    requires Lawful(first, es, rank)
    decreases |es|, 1
  {
    if es == [] then AdvanceTo(START, first, rank)
    else
      var n := |es| - 1;
      var t := Collecting(first, es[..n], rank);
      match es[n]
      case Advance(m, thin) =>
        PrunedRanked(m, t.engine.gcFloor, rank);
        AdvanceTo(t, Arriving(t, m, thin), rank)
      case Collect(floor) => CollectAt(t, floor)
  }

  // ---- What the run without collection keeps ----------------------------------------------------

  ghost function Emitted(outputs: seq<seq<Digest>>): seq<Digest> {
    if outputs == [] then [] else Emitted(outputs[..|outputs| - 1]) + outputs[|outputs| - 1]
  }

  ghost predicate KeepsUp(t: Trace, rank: Digest -> nat) {
    Usable(t.moment, rank) && Synced(t.moment, rank, Run(Emitted(t.outputs), t.engine))
  }

  lemma EmittedSnoc(outputs: seq<seq<Digest>>, out: seq<Digest>)
    ensures Emitted(outputs + [out]) == Emitted(outputs) + out
  {
    assert (outputs + [out])[..|outputs|] == outputs;
  }

  lemma KeepsUpAdvance(t: Trace, m: Moment, rank: Digest -> nat)
    requires KeepsUp(t, rank) && Usable(m, rank) && Precedes(t.moment, m)
    ensures KeepsUp(AdvanceTo(t, m, rank), rank)
  {
    AdvanceStaysSynced(t.moment, m, rank, Run(Emitted(t.outputs), t.engine));
    EmittedSnoc(t.outputs, AdvanceProgress(m.net, m.dag, rank, t.engine).ordered);
  }

  lemma KeepsUpFirst(m: Moment, rank: Digest -> nat)
    requires Usable(m, rank)
    ensures KeepsUp(AdvanceTo(START, m, rank), rank)
  {
    FirstAdvanceSynced(m, rank);
    EmittedSnoc([], FreshOrder(m, rank));
  }

  // ---- Lockstep ---------------------------------------------------------------------------------

  /**
   * The collecting validator is the other one seen from the barrier up; its cache holds true commits
   * from the barrier on, and direct verdicts are definite up to its own finalized floor.
   */
  ghost predicate Mirrors(a: Trace, b: Trace, floor: Round) {
    && b.moment.dag == Pruned(a.moment.dag, floor)
    && b.engine.seen == a.engine.seen - Low(a.moment.dag.certs, floor)
    && b.engine.gcFloor == floor && b.engine.fromRound == floor && floor <= b.engine.finalized <= Bound(a.moment) + 1
    && DirectSettled(ViewAt(a.moment), b.engine.finalized)
    && CacheSound(ViewAt(a.moment), 0, Bound(a.moment), b.engine.cache)
    && forall r :: r in b.engine.cache ==> r >= floor
  }

  lemma SameLow(certs: Certs, more: Certs, floor: Round)
    requires Within(certs, more) && Low(more, floor) <= certs.Keys
    ensures Low(more, floor) == Low(certs, floor)
  {
  }

  lemma SettledLater(v: View, upTo: Round, v1: View, upTo1: Round, floor: Round)
    requires Later(v, upTo, v1, upTo1) && DirectSettled(v, floor) && floor <= upTo + 1
    ensures DirectSettled(v1, floor)
  {
    forall r | 0 <= r < floor ensures !v1.direct(r).Undecided? {
      assert Settles(v, v1, r);
    }
  }

  lemma CacheTrims(v: View, w: View, floor: Round, upTo: Round, cache: map<Round, Digest>)
    requires Trims(v, w, floor) && Placed(v, upTo) && Closed(v.certs) && Layered(v.certs)
    requires CacheSound(v, 0, upTo, cache) && forall r :: r in cache ==> r >= floor
    ensures CacheSound(w, floor, upTo, cache)
  {
    forall r | r in cache ensures r <= upTo && Fate(w, floor, r, upTo) == Committed(cache[r]) {
      TrimmedFate(v, w, floor, r, upTo);
    }
  }

  lemma CacheUntrims(v: View, w: View, floor: Round, upTo: Round, cache: map<Round, Digest>)
    requires Trims(v, w, floor) && Placed(v, upTo) && Closed(v.certs) && Layered(v.certs)
    requires CacheSound(w, floor, upTo, cache) && forall r :: r in cache ==> r >= floor
    ensures CacheSound(v, 0, upTo, cache)
  {
    forall r | r in cache ensures r <= upTo && Fate(v, 0, r, upTo) == Committed(cache[r]) {
      TrimmedFate(v, w, floor, r, upTo);
    }
  }

  lemma {:induction false} CacheFrom(v: View, floor: Round, rank: Digest -> nat, round: Round, upTo: Round,
                                     seen: set<Digest>, cache: map<Round, Digest>, low: Round)
    requires Ranked(v.certs, rank) && round >= low && forall r :: r in cache ==> r >= low
    ensures forall r :: r in Extend(v, floor, rank, round, upTo, seen, cache).cache ==> r >= low
    decreases upTo - round + 1
  {
    if round <= upTo {
      var ruling := Ruling(v, floor, round, upTo, cache);
      if ruling.Skipped? {
        CacheFrom(v, floor, rank, round + 1, upTo, seen, cache, low);
      } else if ruling.Committed? && Complete(v.certs, floor, seen, ruling.digest) {
        CacheFrom(v, floor, rank, round + 1, upTo, seen + Elements(History(v.certs, floor, rank, seen, ruling.digest)),
                  cache[round := ruling.digest], low);
      }
    }
  }

  /** The facts about one call that the two sides share. */
  ghost predicate Ready(a: Trace, b: Trace, m: Moment, thin: Net, rank: Digest -> nat, floor: Round) {
    && KeepsUp(a, rank) && Usable(m, rank) && Precedes(a.moment, m) && AgreeFrom(m.net, thin, floor)
    && Mirrors(a, b, floor) && Low(m.dag.certs, floor) <= a.moment.dag.certs.Keys
  }

  lemma ReadyViews(a: Trace, b: Trace, m: Moment, thin: Net, rank: Digest -> nat, floor: Round)
    requires Ready(a, b, m, thin, rank, floor)
    ensures var v, w, up := ViewAt(m), ViewOf(thin, Pruned(m.dag, floor)), Bound(m);
            && Placed(v, up) && Grounded(v, up) && Trims(v, w, floor)
            && DirectSettled(v, b.engine.finalized) && b.engine.finalized <= up + 1
            && CacheSound(v, 0, up, a.engine.cache) && CacheSound(v, 0, up, b.engine.cache)
            && CacheSound(w, floor, up, b.engine.cache)
            && Low(m.dag.certs, floor) == Low(a.moment.dag.certs, floor)
  {
    var v, v0, up, up0 := ViewAt(m), ViewAt(a.moment), Bound(m), Bound(a.moment);
    var w := ViewOf(thin, Pruned(m.dag, floor));
    MomentsLater(a.moment, m, rank);
    ViewPlaced(m.net, m.dag, up);
    PrunedTrims(m.net, thin, m.dag, floor);
    SettledLater(v0, up0, v, up, b.engine.finalized);
    CacheSurvives(v0, up0, v, up, a.engine.cache);
    CacheSurvives(v0, up0, v, up, b.engine.cache);
    CacheTrims(v, w, floor, up, b.engine.cache);
    SameLow(a.moment.dag.certs, m.dag.certs, floor);
  }

  lemma SettledFurther(v: View, w: View, floor: Round, before: Round, stop: Round)
    requires Trims(v, w, floor) && DirectSettled(v, before) && floor <= before
    requires forall r :: floor <= r < stop ==> !w.direct(r).Undecided?
    ensures DirectSettled(v, Max(before, stop))
  {
  }

  /** One `advance` on each side keeps the mirror and drops exactly what lies below the barrier. */
  lemma LockstepAdvance(a: Trace, b: Trace, m: Moment, thin: Net, rank: Digest -> nat, floor: Round)
    requires Ready(a, b, m, thin, rank, floor)
    ensures Ranked(Arriving(b, m, thin).dag.certs, rank)
    ensures Mirrors(AdvanceTo(a, m, rank), AdvanceTo(b, Arriving(b, m, thin), rank), floor)
    ensures AdvanceProgress(thin, Pruned(m.dag, floor), rank, b.engine).ordered ==
            From(AdvanceProgress(m.net, m.dag, rank, a.engine).ordered, rank, floor)
  {
    var v, w, up := ViewAt(m), ViewOf(thin, Pruned(m.dag, floor)), Bound(m);
    ReadyViews(a, b, m, thin, rank, floor);
    CallCut(v, w, floor, rank, up, a.engine.seen);
    CacheTransparent(v, 0, rank, 0, up, a.engine.seen, a.engine.cache);
    CacheTransparent(w, floor, rank, floor, up, b.engine.seen, b.engine.cache);
    CacheFrom(w, floor, rank, floor, up, b.engine.seen, b.engine.cache, floor);
    CacheUntrims(v, w, floor, up, Extend(w, floor, rank, floor, up, b.engine.seen, b.engine.cache).cache);
    PassSettled(w, floor, rank, floor, up, b.engine.seen);
    SettledFurther(v, w, floor, b.engine.finalized, Plain(w, floor, rank, floor, up, b.engine.seen).round);
  }

  lemma DigestsBelowIsLow(dag: Dag, floor: Round)
    requires Coherent(dag)
    ensures DigestsBelow(dag.slots, floor) == Low(dag.certs, floor)
  {
    forall d | d in Low(dag.certs, floor) ensures d in DigestsBelow(dag.slots, floor) {
      ByAuthorIsContents(dag, dag.certs[d].round, dag.certs[d].author, d);
      var c := dag.certs[d];
      assert c.round in RoundsBelow(dag.slots, floor) && dag.slots[c.round][c.author] == d;
    }
  }

  lemma PruneTwice(dag: Dag, floor: Round, floor1: Round)
    requires floor <= floor1
    ensures Pruned(Pruned(dag, floor), floor1) == Pruned(dag, floor1)
    ensures Low(dag.certs, floor) + Low(Pruned(dag, floor).certs, floor1) == Low(dag.certs, floor1)
  {
  }

  lemma SeenAfterPrune(dag: Dag, seen: set<Digest>, floor: Round, floor1: Round)
    requires Coherent(dag) && floor <= floor1
    ensures seen - Low(dag.certs, floor) - DigestsBelow(Pruned(dag, floor).slots, floor1) ==
            seen - Low(dag.certs, floor1)
  {
    SlotsNameTheLowRounds(dag, floor);
    DigestsBelowIsLow(Pruned(dag, floor), floor1);
    PruneTwice(dag, floor, floor1);
  }

  /** Collecting at any floor up to the collector's own finalized floor keeps the mirror. */
  lemma LockstepCollect(a: Trace, b: Trace, rank: Digest -> nat, floor: Round, floor1: Round)
    requires KeepsUp(a, rank) && Mirrors(a, b, floor) && floor <= floor1 <= b.engine.finalized
    ensures Mirrors(a, CollectAt(b, floor1), floor1)
  {
    SeenAfterPrune(a.moment.dag, a.engine.seen, floor, floor1);
    PruneTwice(a.moment.dag, floor, floor1);
  }

  lemma PruneNothing(dag: Dag)
    ensures Pruned(dag, 0) == dag
  {
  }

  lemma LockstepFirst(first: Moment, rank: Digest -> nat)
    requires Usable(first, rank)
    ensures Mirrors(AdvanceTo(START, first, rank), AdvanceTo(START, first, rank), 0)
  {
    PruneNothing(first.dag);
    assert Low(first.dag.certs, 0) == {};
    FirstAdvanceSynced(first, rank);
    CacheTransparent(ViewAt(first), 0, rank, 0, Bound(first), {}, map[]);
    PassSettled(ViewAt(first), 0, rank, 0, Bound(first), {});
  }

  /** Each output of `less` is the output of `all` less what lies below the barrier in force. */
  ghost predicate Drops(all: seq<seq<Digest>>, less: seq<seq<Digest>>, floors: seq<Round>, rank: Digest -> nat) {
    && |less| == |all| == |floors|
    && forall i :: 0 <= i < |all| ==> less[i] == From(all[i], rank, floors[i])
  }

  lemma DropsSnoc(all: seq<seq<Digest>>, less: seq<seq<Digest>>, floors: seq<Round>, rank: Digest -> nat,
                  x: seq<Digest>, y: seq<Digest>, floor: Round)
    requires Drops(all, less, floors, rank) && y == From(x, rank, floor)
    ensures Drops(all + [x], less + [y], floors + [floor], rank)
  {
  }

  lemma DropsFirst(x: seq<Digest>, rank: Digest -> nat)
    ensures Drops([x], [x], [0], rank)
  {
    FromHigh(x, rank, 0);
  }

  lemma {:induction false} Lockstep(first: Moment, es: seq<Event>, rank: Digest -> nat)
    requires Lawful(first, es, rank)
    ensures KeepsUp(Keeping(first, es, rank), rank)
    ensures Mirrors(Keeping(first, es, rank), Collecting(first, es, rank), Barrier(es))
    ensures Drops(Keeping(first, es, rank).outputs, Collecting(first, es, rank).outputs, Barriers(es), rank)
    decreases |es|
  {
    if es == [] {
      KeepsUpFirst(first, rank);
      LockstepFirst(first, rank);
      DropsFirst(FreshOrder(first, rank), rank);
    } else {
      var n := |es| - 1;
      Lockstep(first, es[..n], rank);
      var a, b, floor := Keeping(first, es[..n], rank), Collecting(first, es[..n], rank), Barrier(es[..n]);
      match es[n] {
        case Advance(m, thin) =>
          KeepsUpAdvance(a, m, rank);
          LockstepAdvance(a, b, m, thin, rank, floor);
          DropsSnoc(a.outputs, b.outputs, Barriers(es[..n]), rank,
                    AdvanceProgress(m.net, m.dag, rank, a.engine).ordered,
                    AdvanceProgress(thin, Pruned(m.dag, floor), rank, b.engine).ordered, floor);
        case Collect(floor1) =>
          LockstepCollect(a, b, rank, floor, floor1);
      }
    }
  }

  // ---- What collecting costs ------------------------------------------------------------------------

  /**
   * Over every lawful run, each output of the validator that prunes, forgets, raises its barrier and
   * thins its schedule is the output of the one that never collects, less exactly the certificates
   * that lie below the barrier in force; and the latter is the fresh order of its last view.
   */
  lemma CollectionDrops(first: Moment, es: seq<Event>, rank: Digest -> nat)
    requires Lawful(first, es, rank)
    ensures Drops(Keeping(first, es, rank).outputs, Collecting(first, es, rank).outputs, Barriers(es), rank)
    ensures var last := Keeping(first, es, rank);
            Ranked(last.moment.dag.certs, rank) && Emitted(last.outputs) == FreshOrder(last.moment, rank)
  {
    Lockstep(first, es, rank);
  }

  /** What `less` emits from `g` on is what `all` emits from there on, for any `g` no barrier exceeds. */
  lemma {:induction false} DropsFrom(all: seq<seq<Digest>>, less: seq<seq<Digest>>, floors: seq<Round>,
                                     rank: Digest -> nat, g: Round)
    requires Drops(all, less, floors, rank) && forall i :: 0 <= i < |floors| ==> floors[i] <= g
    ensures From(Emitted(less), rank, g) == From(Emitted(all), rank, g)
    decreases |all|
  {
    if all != [] {
      var n := |all| - 1;
      DropsFrom(all[..n], less[..n], floors[..n], rank, g);
      FromAppend(Emitted(all[..n]), all[n], rank, g);
      FromAppend(Emitted(less[..n]), less[n], rank, g);
      FromTwice(all[n], rank, floors[n], g);
    }
  }

  /** Barriers only rise. */
  lemma {:induction false} BarriersBelow(first: Moment, es: seq<Event>, rank: Digest -> nat)
    requires Lawful(first, es, rank)
    ensures forall i :: 0 <= i < |Barriers(es)| ==> Barriers(es)[i] <= Barrier(es)
    decreases |es|
  {
    if es != [] {
      BarriersBelow(first, es[..|es| - 1], rank);
    }
  }
}
