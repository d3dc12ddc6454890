/** Extending the total order leader by leader, and the state a validator keeps between calls. */
module Order {
  import opened Stake
  import opened Schedule
  import opened Dag
  import opened Verdict
  import opened Resolve
  import opened Walk

  /** What one call yields: newly ordered digests, the round it stopped at, and the updated memory. */
  datatype Progress = Progress(ordered: seq<Digest>, round: Round, seen: set<Digest>, cache: map<Round, Digest>)

  ghost function Elements(s: seq<Digest>): set<Digest> {
    set d | d in s
  }

  /** A cached commit stands in for resolving the round again. */
  ghost function Ruling(v: View, floor: Round, round: Round, upTo: Round, cache: map<Round, Digest>): Outcome {
    if round in cache then Committed(cache[round]) else Fate(v, floor, round, upTo)
  }

  /** Commits round after round, stopping at the first open fate or incomplete history. */
  ghost function Extend(v: View, floor: Round, rank: Digest -> nat, round: Round, upTo: Round,
                        seen: set<Digest>, cache: map<Round, Digest>): Progress
    requires Ranked(v.certs, rank)
    decreases upTo - round + 1
  {
    if round > upTo then Progress([], round, seen, cache)
    else
      match Ruling(v, floor, round, upTo, cache)
      case Undecided => Progress([], round, seen, cache)
      case Skipped => Extend(v, floor, rank, round + 1, upTo, seen, cache)
      case Committed(d) =>
        if !Complete(v.certs, floor, seen, d) then Progress([], round, seen, cache[round := d])
        else
          var h := History(v.certs, floor, rank, seen, d);
          var rest := Extend(v, floor, rank, round + 1, upTo, seen + Elements(h), cache[round := d]);
          rest.(ordered := h + rest.ordered)
  }

  ghost function After(ordered: seq<Digest>, p: Progress): Progress {
    p.(ordered := ordered + p.ordered)
  }

  lemma ExtendStep(v: View, floor: Round, rank: Digest -> nat, round: Round, upTo: Round,
                   seen: set<Digest>, cache: map<Round, Digest>, ordered: seq<Digest>)
    requires Ranked(v.certs, rank) && round <= upTo
    ensures var ruling := Ruling(v, floor, round, upTo, cache);
            After(ordered, Extend(v, floor, rank, round, upTo, seen, cache)) ==
            if ruling.Undecided? then Progress(ordered, round, seen, cache)
            else if ruling.Skipped? then After(ordered, Extend(v, floor, rank, round + 1, upTo, seen, cache))
            else if !Complete(v.certs, floor, seen, ruling.digest) then
              Progress(ordered, round, seen, cache[round := ruling.digest])
            else
              var h := History(v.certs, floor, rank, seen, ruling.digest);
              After(ordered + h,
                    Extend(v, floor, rank, round + 1, upTo, seen + Elements(h), cache[round := ruling.digest]))
  {
  }

  method Rule(net: Net, dag: Dag, floor: Round, round: Round, upTo: Round, cache: map<Round,
              Digest>) returns (ruling: Outcome)
    ensures ruling == Ruling(ViewOf(net, dag), floor, round, upTo, cache)
  {
    if round in cache {
      ruling := Committed(cache[round]);
    } else {
      ruling := ResolveRound(net, dag, floor, round, upTo);
    }
  }

  method ExtendOrder(net: Net, dag: Dag, floor: Round, ghost rank: Digest -> nat, fromRound: Round, upTo: Round,
                     seen0: set<Digest>, cache0: map<Round, Digest>)
    returns (ordered: seq<Digest>, round: Round, seen: set<Digest>, cache: map<Round, Digest>)
    requires Ranked(dag.certs, rank)
    ensures Progress(ordered, round, seen, cache) ==
            Extend(ViewOf(net, dag), floor, rank, fromRound, upTo, seen0, cache0)
  {
    ghost var v := ViewOf(net, dag);
    ghost var goal := Extend(v, floor, rank, fromRound, upTo, seen0, cache0);
    ordered, round, seen, cache := [], fromRound, seen0, cache0;
    while round <= upTo
      invariant After(ordered, Extend(v, floor, rank, round, upTo, seen, cache)) == goal
      decreases upTo - round + 1
    {
      var ruling := Rule(net, dag, floor, round, upTo, cache);
      ExtendStep(v, floor, rank, round, upTo, seen, cache, ordered);
      match ruling {
        case Committed(d) =>
          cache := cache[round := d];
          var resolved;
          resolved, seen, ordered := WalkCausalHistory(dag.certs, floor, rank, d, seen, ordered);
          if !resolved {
            return;
          }
          round := round + 1;
        case Skipped =>
          round := round + 1;
        case Undecided =>
          return;
      }
    }
  }

  /** A validator's ordering memory. */
  datatype Engine = Engine(seen: set<Digest>, fromRound: Round, finalized: Round, gcFloor: Round,
                           cache: map<Round, Digest>)

  const NEW: Engine := Engine({}, 0, 0, 0, map[])

  function Max(a: nat, b: nat): nat {
    if a > b then a else b
  }

  function UpTo(net: Net, dag: Dag): Round {
    if dag.highest < net.frontier then dag.highest else net.frontier
  }

  ghost function AdvanceProgress(net: Net, dag: Dag, rank: Digest -> nat, e: Engine): Progress
    requires Ranked(dag.certs, rank)
  {
    Extend(ViewOf(net, dag), e.gcFloor, rank, e.fromRound, UpTo(net, dag), e.seen, e.cache)
  }

  ghost function Advanced(net: Net, dag: Dag, rank: Digest -> nat, e: Engine): Engine
    requires Ranked(dag.certs, rank)
  {
    var p := AdvanceProgress(net, dag, rank, e);
    e.(seen := p.seen, cache := p.cache, finalized := Max(e.finalized, p.round))
  }

  function WithFloor(e: Engine, round: Round): Engine {
    Engine(e.seen, Max(e.fromRound, round), Max(e.finalized, round), Max(e.gcFloor, round),
           if round > e.gcFloor then map r | r in e.cache && r >= round :: e.cache[r] else e.cache)
  }

  lemma {:induction false} ExtendCaches(v: View, floor: Round, rank: Digest -> nat, round: Round, upTo: Round,
                                        seen: set<Digest>, cache: map<Round, Digest>)
    requires Ranked(v.certs, rank)
    ensures var p := Extend(v, floor, rank, round, upTo, seen, cache);
            p.round >= round && forall r :: r in p.cache ==> r in cache || r >= round
    decreases upTo - round + 1
  {
    if round <= upTo {
      match Ruling(v, floor, round, upTo, cache) {
        case Undecided =>
        case Skipped => ExtendCaches(v, floor, rank, round + 1, upTo, seen, cache);
        case Committed(d) =>
          var h := History(v.certs, floor, rank, seen, d);
          ExtendCaches(v, floor, rank, round + 1, upTo, seen + Elements(h), cache[round := d]);
      }
    }
  }

  /** The cursor and the finalized floor are at or above the barrier, and no verdict below it is cached. */
  ghost predicate AboveBarrier(e: Engine) {
    e.gcFloor <= e.fromRound && e.gcFloor <= e.finalized && forall r :: r in e.cache ==> r >= e.gcFloor
  }

  /** Every operation of the engine keeps it so: the cache stays bounded by the barrier. */
  lemma StaysAboveBarrier(net: Net, dag: Dag, rank: Digest -> nat, e: Engine, floor: Round)
    requires AboveBarrier(e) && Ranked(dag.certs, rank)
    ensures AboveBarrier(NEW) && AboveBarrier(WithFloor(e, floor)) && AboveBarrier(Advanced(net, dag, rank, e))
  {
    ExtendCaches(ViewOf(net, dag), e.gcFloor, rank, e.fromRound, UpTo(net, dag), e.seen, e.cache);
  }

  /** Raising the floor twice is raising it to the higher one; a new engine starts at its floor. */
  lemma FloorsJoin(e: Engine, a: Round, b: Round)
    ensures WithFloor(WithFloor(e, a), b) == WithFloor(e, Max(a, b))
    ensures WithFloor(NEW, a) == Engine({}, a, a, a, map[])
  {
  }

  class ConsensusState {
    var seen: set<Digest>
    var fromRound: Round
    var finalizedFloor: Round
    var gcFloor: Round
    var committedCache: map<Round, Digest>

    function Value(): Engine
      reads this
    {
      Engine(seen, fromRound, finalizedFloor, gcFloor, committedCache)
    }

    constructor ()
      ensures Value() == NEW
    {
      seen, fromRound, finalizedFloor, gcFloor, committedCache := {}, 0, 0, 0, map[];
    }

    constructor ResumingFrom(round: Round)
      ensures Value() == NEW.(fromRound := round, finalized := round)
    {
      seen, fromRound, finalizedFloor, gcFloor, committedCache := {}, round, round, 0, map[];
    }

    method SetGcFloor(round: Round)
      modifies this
      ensures Value() == WithFloor(old(Value()), round)
    {
      if round > gcFloor {
        gcFloor := round;
        committedCache := map r | r in committedCache && r >= round :: committedCache[r];
      }
      if round > fromRound {
        fromRound := round;
      }
      if round > finalizedFloor {
        finalizedFloor := round;
      }
    }

    method ForgetSeen(digests: seq<Digest>)
      modifies this
      ensures Value() == old(Value()).(seen := old(seen) - Elements(digests))
    {
      for i := 0 to |digests|
        invariant Value() == old(Value()).(seen := old(seen) - Elements(digests[..i]))
      {
        seen := seen - {digests[i]};
        assert digests[..i + 1] == digests[..i] + [digests[i]];
      }
      assert digests[..|digests|] == digests;
    }

    /** Orders whatever the store and the schedule now allow; the cursor `fromRound` stays put. */
    method Advance(store: DagStore, schedule: ValidatorSchedule, draw: (Round, ValidatorSet) -> Option<ValidatorId>,
                   ghost rank: Digest -> nat) returns (ordered: seq<Digest>)
      requires Ranked(store.certs, rank)
      modifies this
      ensures var net := NetOf(schedule.value, draw);
              && ordered == AdvanceProgress(net, store.Value(), rank, old(Value())).ordered
              && Value() == Advanced(net, store.Value(), rank, old(Value()))
    {
      var net, dag := NetOf(schedule.value, draw), store.Value();
      var stopped;
      ordered, stopped, seen, committedCache :=
        ExtendOrder(net, dag, gcFloor, rank, fromRound, UpTo(net, dag), seen, committedCache);
      if stopped > finalizedFloor {
        finalizedFloor := stopped;
      }
    }
  }
}
