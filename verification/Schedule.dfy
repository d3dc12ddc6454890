/** Which committee is in effect for which round, and how far consensus may resolve. */
module Schedule {
  import opened Stake

  type Round = nat

  const U64_MAX: nat := 0xFFFF_FFFF_FFFF_FFFF
  const DEFAULT_EPOCH_ROUNDS: nat := 1024

  function Saturate(n: int): nat {
    if n < 0 then 0 else if n > U64_MAX then U64_MAX else n
  }

  /** One committee per installed epoch; `frontier` is the highest epoch whose committee is final. */
  datatype RawSchedule = Schedule(epochRounds: nat, committees: map<nat, ValidatorSet>, frontier: nat)

  type Schedule = s: RawSchedule | s.epochRounds > 0 && 0 in s.committees
    witness RawSchedule.Schedule(DEFAULT_EPOCH_ROUNDS, map[0 := map[]], U64_MAX)

  /** The highest installed epoch at or below `epoch`. */
  function Anchor(committees: map<nat, ValidatorSet>, epoch: nat): (a: nat)
    requires 0 in committees
    ensures a in committees && a <= epoch
    ensures forall e :: e in committees && e <= epoch ==> e <= a
  {
    if epoch in committees then epoch else Anchor(committees, epoch - 1)
  }

  /** The committee in effect for `round`. */
  function ForRound(s: Schedule, round: Round): ValidatorSet {
    s.committees[Anchor(s.committees, round / s.epochRounds)]
  }

  /** A round belongs to the latest installed epoch that has begun, and to its committee alone. */
  lemma ForRoundExactly(s: Schedule, round: Round, epoch: nat)
    requires epoch in s.committees && epoch * s.epochRounds <= round
    requires forall e :: e in s.committees && e > epoch ==> round < e * s.epochRounds
    ensures ForRound(s, round) == s.committees[epoch]
  {
    var n := round / s.epochRounds;
    DivGeq(round, epoch, s.epochRounds);
    var a := Anchor(s.committees, n);
    if a > epoch {
      MulMono(a, n, s.epochRounds);
    }
  }

  /** The last round consensus may resolve now. */
  function FrontierRound(s: Schedule): Round {
    if s.frontier == U64_MAX then U64_MAX
    else Saturate(Saturate(Saturate(s.frontier + 1) * s.epochRounds) - 1)
  }

  lemma MulMono(a: nat, b: nat, n: nat)
    requires a <= b
    ensures a * n <= b * n
  {
  }

  lemma MulGap(a: nat, b: nat, n: nat)
    ensures a < b ==> a * n + n <= b * n
  {
    if a < b {
      MulMono(a + 1, b, n);
    }
  }

  lemma DivLess(r: nat, e: nat, n: nat)
    requires n > 0 && r < e * n
    ensures r / n < e
  {
    assert r == r / n * n + r % n;
    MulGap(e, r / n, n);
  }

  lemma DivGeq(r: nat, e: nat, n: nat)
    requires n > 0 && r >= e * n
    ensures r / n >= e
  {
    assert r == r / n * n + r % n;
    MulGap(r / n, e, n);
  }

  lemma EpochBegins(epoch: nat, n: nat)
    requires n > 0
    ensures epoch * n / n == epoch
  {
    assert (epoch + 1) * n == epoch * n + n;
    DivGeq(epoch * n, epoch, n);
    DivLess(epoch * n, epoch + 1, n);
  }

  lemma AnchorAgree(c: map<nat, ValidatorSet>, c1: map<nat, ValidatorSet>, epoch: nat)
    requires 0 in c && 0 in c1
    requires forall e :: e <= epoch ==> (e in c <==> e in c1) && (e in c ==> c1[e] == c[e])
    ensures Anchor(c1, epoch) == Anchor(c, epoch)
  {
  }

  /** Last round of the frontier epoch, while the arithmetic does not saturate. */
  lemma FrontierIsLastRoundOfEpoch(s: Schedule)
    requires s.frontier < U64_MAX && (s.frontier + 1) * s.epochRounds <= U64_MAX
    ensures FrontierRound(s) == (s.frontier + 1) * s.epochRounds - 1
    ensures FrontierRound(s) / s.epochRounds == s.frontier
    ensures (FrontierRound(s) + 1) / s.epochRounds == s.frontier + 1
  {
    var n, e := s.epochRounds, s.frontier;
    assert (e + 1) * n == e * n + n;
    assert (e + 2) * n == (e + 1) * n + n;
    var f := (e + 1) * n - 1;
    DivLess(f, e + 1, n);
    DivGeq(f, e, n);
    DivGeq(f + 1, e + 1, n);
    DivLess(f + 1, e + 2, n);
  }

  /** Beyond the last 64-bit round the arithmetic sticks one short of it; the open frontier is that round. */
  lemma FrontierSaturates(s: Schedule)
    requires s.frontier <= U64_MAX && (s.frontier + 1) * s.epochRounds > U64_MAX
    ensures FrontierRound(s) == if s.frontier == U64_MAX then U64_MAX else U64_MAX - 1
  {
  }

  lemma FrontierMonotone(s: Schedule, s1: Schedule)
    requires s1.epochRounds == s.epochRounds && s.frontier <= s1.frontier <= U64_MAX
    ensures FrontierRound(s) <= FrontierRound(s1)
  {
    var n, e, e1 := s.epochRounds, Saturate(s.frontier + 1), Saturate(s1.frontier + 1);
    MulMono(e, e1, n);
  }

  lemma EpochsUpToFrontier(s: Schedule, r: Round)
    requires s.frontier < U64_MAX && (s.frontier + 1) * s.epochRounds <= U64_MAX
    requires r <= FrontierRound(s)
    ensures r / s.epochRounds <= s.frontier
  {
    FrontierIsLastRoundOfEpoch(s);
    DivLess(r, s.frontier + 1, s.epochRounds);
  }

  lemma InstallKeepsEarlier(s: Schedule, epoch: nat, committee: ValidatorSet, r: Round)
    requires r / s.epochRounds < epoch
    ensures ForRound(s.(committees := s.committees[epoch := committee]), r) == ForRound(s, r)
  {
    AnchorAgree(s.committees, s.committees[epoch := committee], r / s.epochRounds);
  }

  /** Right after the frontier: an untouched committee, or one that replaces an inherited guess. */
  lemma InstallNext(s: Schedule, epoch: nat, committee: ValidatorSet)
    requires s.frontier < U64_MAX && (s.frontier + 1) * s.epochRounds <= U64_MAX
    requires s.frontier < epoch && epoch !in s.committees
    ensures var f := FrontierRound(s);
            || ForRound(s.(committees := s.committees[epoch := committee]), f + 1) == ForRound(s, f + 1)
            || ForRound(s, f + 1) == ForRound(s, f)
  {
    FrontierIsLastRoundOfEpoch(s);
    if epoch == s.frontier + 1 {
      assert Anchor(s.committees, s.frontier + 1) == Anchor(s.committees, s.frontier);
    } else {
      InstallKeepsEarlier(s, epoch, committee, FrontierRound(s) + 1);
    }
  }

  /** The schedule without the committees that no round at or above `floorRound` inherits. */
  function Thinned(s: Schedule, floorRound: Round): Schedule {
    var anchor := Anchor(s.committees, floorRound / s.epochRounds);
    s.(committees := map e | e in s.committees && (e == 0 || e >= anchor) :: s.committees[e])
  }

  lemma ThinnedKeepsRounds(s: Schedule, floorRound: Round, r: Round)
    requires r >= floorRound
    ensures ForRound(Thinned(s, floorRound), r) == ForRound(s, r)
  {
    var lo, hi := floorRound / s.epochRounds, r / s.epochRounds;
    assert floorRound >= lo * s.epochRounds;
    DivGeq(r, lo, s.epochRounds);
    assert Anchor(s.committees, hi) in Thinned(s, floorRound).committees;
  }

  /** `e` is the epoch whose committee some round from `floorRound` on gets. */
  ghost predicate Needed(s: Schedule, floorRound: Round, e: nat) {
    exists r: Round :: r >= floorRound && Judges(s, e, r)
  }

  ghost predicate Judges(s: Schedule, e: nat, round: Round) {
    Anchor(s.committees, round / s.epochRounds) == e
  }

  /** A round of an installed epoch after the floor's anchor lies above the floor. */
  lemma LaterEpochNeeded(s: Schedule, floorRound: Round, e: nat)
    requires e in s.committees && e > Anchor(s.committees, floorRound / s.epochRounds)
    ensures Needed(s, floorRound, e)
  {
    var n, lo := s.epochRounds, floorRound / s.epochRounds;
    EpochBegins(e, n);
    if e * n < floorRound {
      DivGeq(floorRound, e, n);
    }
    assert Judges(s, e, e * n);
  }

  lemma NeededIsLater(s: Schedule, floorRound: Round, e: nat, r: Round)
    requires r >= floorRound && Judges(s, e, r)
    ensures e >= Anchor(s.committees, floorRound / s.epochRounds)
  {
    var lo := floorRound / s.epochRounds;
    assert floorRound >= lo * s.epochRounds;
    DivGeq(r, lo, s.epochRounds);
  }

  /** Thinning keeps the bootstrap committee and exactly those that some round from the floor on is judged by. */
  lemma ThinnedExactly(s: Schedule, floorRound: Round, e: nat)
    ensures e in Thinned(s, floorRound).committees <==> e in s.committees && (e == 0 || Needed(s, floorRound, e))
  {
    var anchor := Anchor(s.committees, floorRound / s.epochRounds);
    assert Judges(s, anchor, floorRound);
    if e in s.committees && e > anchor {
      LaterEpochNeeded(s, floorRound, e);
    }
    if Needed(s, floorRound, e) {
      var r: Round :| r >= floorRound && Judges(s, e, r);
      NeededIsLater(s, floorRound, e, r);
    }
  }

  class ValidatorSchedule {
    var value: Schedule

    constructor Single(committee: ValidatorSet)
      ensures value == RawSchedule.Schedule(DEFAULT_EPOCH_ROUNDS, map[0 := committee], U64_MAX)
      ensures FrontierRound(value) == U64_MAX && forall r :: ForRound(value, r) == committee
    {
      value := RawSchedule.Schedule(DEFAULT_EPOCH_ROUNDS, map[0 := committee], U64_MAX);
    }

    constructor Rotating(epochRounds: nat, bootstrap: ValidatorSet)
      requires epochRounds > 0
      ensures value == RawSchedule.Schedule(epochRounds, map[0 := bootstrap], 0)
      ensures forall r :: ForRound(value, r) == bootstrap
      ensures epochRounds <= U64_MAX ==> FrontierRound(value) == epochRounds - 1
    {
      value := RawSchedule.Schedule(epochRounds, map[0 := bootstrap], 0);
    }

    method SetFrontierEpoch(epoch: nat)
      modifies this
      ensures value == old(value).(frontier := if epoch > old(value).frontier then epoch else old(value).frontier)
      ensures epoch <= U64_MAX ==> FrontierRound(old(value)) <= FrontierRound(value)
      ensures forall r :: ForRound(value, r) == ForRound(old(value), r)
    {
      ghost var before := value;
      if epoch > value.frontier {
        value := value.(frontier := epoch);
        if epoch <= U64_MAX {
          FrontierMonotone(before, value);
        }
      }
    }

    /** Installs (or replaces) the committee of `epoch`. */
    method InstallEpoch(epoch: nat, committee: ValidatorSet)
      modifies this
      ensures value == old(value).(committees := old(value).committees[epoch := committee])
      ensures forall r: Round :: r / value.epochRounds < epoch ==> ForRound(value, r) == ForRound(old(value), r)
      ensures forall r: Round :: r / value.epochRounds == epoch ==> ForRound(value, r) == committee
      ensures ForRound(value, epoch * value.epochRounds) == committee
    {
      ghost var before := value;
      value := value.(committees := value.committees[epoch := committee]);
      forall r: Round | r / value.epochRounds < epoch
        ensures ForRound(value, r) == ForRound(before, r)
      {
        InstallKeepsEarlier(before, epoch, committee, r);
      }
      EpochBegins(epoch, value.epochRounds);
    }

    /**
     * Drops committees no round at or above `floorRound` inherits. The bootstrap committee and
     * everything from the returned anchor upward survive, so no such round changes committee.
     */
    method PruneEpochsBelow(floorRound: Round) returns (anchor: nat)
      modifies this
      ensures anchor == Anchor(old(value).committees, floorRound / old(value).epochRounds)
      ensures value == Thinned(old(value), floorRound)
      ensures FrontierRound(value) == FrontierRound(old(value))
      ensures forall r :: r >= floorRound ==> ForRound(value, r) == ForRound(old(value), r)
    {
      ghost var before := value;
      anchor := Anchor(value.committees, floorRound / value.epochRounds);
      value := value.(committees := map e | e in value.committees && (e == 0 || e >= anchor) :: value.committees[e]);
      forall r | r >= floorRound
        ensures ForRound(value, r) == ForRound(before, r)
      {
        ThinnedKeepsRounds(before, floorRound, r);
      }
    }
  }
}
