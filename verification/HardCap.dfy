/** Staking under a hard supply cap: emission is drawn from a reserve, never minted. */
module HardCap {
  import opened Stake
  import opened Sums
  import opened Economics

  /** Circulating balance, the two reserves, the O(1) accumulator and the O(N) positions. */
  datatype Vault = Vault(wallet: nat, reserve: nat, emissionReserve: nat, index: nat, totalShares: nat,
                         positions: Amounts)

  datatype Step = Deposit(staker: nat, amount: nat) | CloseQuanto

  function Supply(v: Vault): nat {
    v.wallet + v.reserve + v.emissionReserve
  }

  function Target(v: Vault, rate: nat): nat {
    AdvanceIndex(v.index, rate)
  }

  function Closing(v: Vault, rate: nat): Close {
    IndexForBackedEmission(v.totalShares, v.index, Target(v, rate), v.emissionReserve)
  }

  function Apply(v: Vault, step: Step, rate: nat): Vault {
    match step
    case Deposit(staker, amount) =>
      if amount == 0 || v.wallet < amount then v
      else
        var minted := SharesForDeposit(amount, v.index);
        v.(wallet := v.wallet - amount, reserve := v.reserve + amount, totalShares := v.totalShares + minted,
           positions := v.positions[staker := Get(v.positions, staker) + minted])
    case CloseQuanto =>
      var c := Closing(v, rate);
      CloseWithinBudget(v.totalShares, v.index, Target(v, rate), v.emissionReserve);
      v.(reserve := v.reserve + c.emission, emissionReserve := v.emissionReserve - c.emission, index := c.index)
  }

  function ApplyAll(v: Vault, steps: seq<Step>, rate: nat): Vault {
    if steps == [] then v else Apply(ApplyAll(v, steps[..|steps| - 1], rate), steps[|steps| - 1], rate)
  }

  /** The slow reference: every position floored on its own. */
  function Floors(positions: Amounts, index: nat): Amounts {
    map k | k in positions :: PositionValue(positions[k], index)
  }

  function ReferenceValue(positions: Amounts, index: nat): nat {
    Total(Floors(positions, index))
  }

  lemma {:induction false} FloorsOver(positions: Amounts, index: nat, ks: set<nat>)
    requires ks <= positions.Keys && StakeSum(positions, ks) * index <= U128_MAX
    ensures StakeSum(Floors(positions, index), ks) <= PositionValue(StakeSum(positions, ks), index)
  {
    if ks != {} {
      var k := Least(ks);
      var a, b := positions[k], StakeSum(positions, ks - {k});
      assert (a + b) * index == a * index + b * index;
      FloorsOver(positions, index, ks - {k});
      DivSuper(a * index, b * index, INDEX_SCALE);
    }
  }

  /** The accumulator never floors below the reference, short of saturation. */
  lemma AggregateDominates(positions: Amounts, index: nat)
    requires Total(positions) * index <= U128_MAX
    ensures ReferenceValue(positions, index) <= PositionValue(Total(positions), index)
  {
    assert Floors(positions, index).Keys == positions.Keys;
    FloorsOver(positions, index, positions.Keys);
  }

  lemma {:induction false} FloorsNear(positions: Amounts, index: nat, ks: set<nat>)
    requires ks <= positions.Keys && StakeSum(positions, ks) * index <= U128_MAX
    ensures PositionValue(StakeSum(positions, ks), index) <= StakeSum(Floors(positions, index), ks) + |ks|
  {
    if ks != {} {
      var k := Least(ks);
      var a, b := positions[k], StakeSum(positions, ks - {k});
      assert (a + b) * index == a * index + b * index;
      FloorsNear(positions, index, ks - {k});
      FloorsJoin(a * index, b * index);
      assert |ks| == |ks - {k}| + 1;
    }
  }

  lemma FloorsJoin(x: nat, y: nat)
    ensures (x + y) / INDEX_SCALE <= x / INDEX_SCALE + y / INDEX_SCALE + 1
  {
    DivBounds(x, INDEX_SCALE);
    DivBounds(y, INDEX_SCALE);
    DivBounds(x + y, INDEX_SCALE);
  }

  /** Flooring position by position loses less than a unit each against the accumulator. */
  lemma AggregateNear(positions: Amounts, index: nat)
    requires Total(positions) * index <= U128_MAX
    ensures PositionValue(Total(positions), index) <= ReferenceValue(positions, index) + |positions|
  {
    assert Floors(positions, index).Keys == positions.Keys;
    FloorsNear(positions, index, positions.Keys);
  }

  /** A funded deposit moves its amount into the reserve and buys its staker as many shares as it pays for. */
  lemma DepositAllots(v: Vault, staker: nat, amount: nat, rate: nat)
    requires 0 < amount <= v.wallet && v.index > 0 && amount * INDEX_SCALE <= U128_MAX
    ensures var w := Apply(v, Deposit(staker, amount), rate);
            && w.wallet == v.wallet - amount && w.reserve == v.reserve + amount
            && Get(w.positions, staker) >= Get(v.positions, staker)
            && var shares := Get(w.positions, staker) - Get(v.positions, staker);
               && shares * v.index <= amount * INDEX_SCALE < (shares + 1) * v.index
               && w.totalShares == v.totalShares + shares
  {
    DepositFloored(amount, v.index, SharesForDeposit(amount, v.index));
  }

  /** What every step keeps. */
  ghost predicate Backed(v: Vault) {
    && Supply(v) <= U64_MAX
    && v.totalShares == Total(v.positions)
    && PositionValue(v.totalShares, v.index) <= v.reserve
  }

  /** A reserve that fits a balance rules saturation out. */
  lemma BackedUnsaturated(v: Vault)
    requires Backed(v)
    ensures v.totalShares * v.index < (U64_MAX + 1) * INDEX_SCALE
  {
    DivBounds(Sat(v.totalShares * v.index), INDEX_SCALE);
  }

  lemma TargetUnsaturated(v: Vault, rate: nat)
    requires Backed(v) && rate <= QUANTO_RATE_SCALE
    ensures v.totalShares * Target(v, rate) <= U128_MAX
  {
    BackedUnsaturated(v);
    DivBounds(Sat(v.index * rate), QUANTO_RATE_SCALE);
    MulMono(rate, QUANTO_RATE_SCALE, v.index);
    MulGap(v.index, Sat(v.index * rate) / QUANTO_RATE_SCALE, QUANTO_RATE_SCALE);
    MulMono(Target(v, rate), 2 * v.index, v.totalShares);
    assert v.totalShares * (2 * v.index) == 2 * (v.totalShares * v.index);
  }

  lemma DepositKeeps(v: Vault, staker: nat, amount: nat, rate: nat)
    requires Backed(v)
    ensures Backed(Apply(v, Deposit(staker, amount), rate)) &&
            Supply(Apply(v, Deposit(staker, amount), rate)) == Supply(v)
  {
    var minted := SharesForDeposit(amount, v.index);
    DepositBacked(v.totalShares, amount, v.index);
    TotalUpdate(v.positions, staker, Get(v.positions, staker) + minted);
  }

  lemma CloseKeeps(v: Vault, rate: nat)
    requires Backed(v) && v.index <= U128_MAX
    ensures Backed(Apply(v, CloseQuanto, rate)) && Supply(Apply(v, CloseQuanto, rate)) == Supply(v)
    ensures v.index <= Apply(v, CloseQuanto, rate).index <= Target(v, rate) <= U128_MAX
  {
    CloseWithinBudget(v.totalShares, v.index, Target(v, rate), v.emissionReserve);
  }

  /**
   * Over any sequence of deposits and budgeted closes: supply is constant, the index never falls,
   * and the reserve covers the accumulator, which covers the sum of the separately floored
   * positions.
   */
  lemma {:induction false} CappedRun(v: Vault, steps: seq<Step>, rate: nat)
    requires Backed(v) && v.index <= U128_MAX
    ensures var w := ApplyAll(v, steps, rate);
            && Backed(w) && v.index <= w.index <= U128_MAX && Supply(w) == Supply(v)
            && ReferenceValue(w.positions, w.index) <= PositionValue(w.totalShares, w.index) <= w.reserve
    decreases |steps|
  {
    var w := ApplyAll(v, steps, rate);
    if steps != [] {
      var before := ApplyAll(v, steps[..|steps| - 1], rate);
      CappedRun(v, steps[..|steps| - 1], rate);
      match steps[|steps| - 1] {
        case Deposit(staker, amount) => DepositKeeps(before, staker, amount, rate);
        case CloseQuanto => CloseKeeps(before, rate);
      }
    }
    BackedUnsaturated(w);
    AggregateDominates(w.positions, w.index);
  }

  /**
   * Every close of every run emits within the reserve, stays at or below the target index, reaches
   * it exactly when the reserve covers the full emission, and otherwise leaves at most
   * `ceil(totalShares / INDEX_SCALE)` of the reserve undrawn.
   */
  lemma EveryClose(v: Vault, steps: seq<Step>, rate: nat)
    requires Backed(v) && v.index <= U128_MAX && rate <= QUANTO_RATE_SCALE
    ensures var w := ApplyAll(v, steps, rate);
            var full := EmissionForQuanto(w.totalShares, w.index, Target(w, rate));
            var c := Closing(w, rate);
            var after := Apply(w, CloseQuanto, rate);
            && c.emission <= w.emissionReserve && c.index <= Target(w, rate)
            && after.index == c.index && after.reserve == w.reserve + c.emission
            && after.emissionReserve + c.emission == w.emissionReserve
            && (w.totalShares > 0 && full <= w.emissionReserve ==> c == Close(Target(w, rate), full))
            && (w.totalShares > 0 && full > w.emissionReserve ==>
                  && c.index < Target(w, rate)
                  && w.emissionReserve - c.emission <= (w.totalShares + INDEX_SCALE - 1) / INDEX_SCALE)
  {
    var w := ApplyAll(v, steps, rate);
    CappedRun(v, steps, rate);
    CloseWithinBudget(w.totalShares, w.index, Target(w, rate), w.emissionReserve);
    if w.totalShares > 0 && EmissionForQuanto(w.totalShares, w.index, Target(w, rate)) > w.emissionReserve {
      TargetUnsaturated(w, rate);
      CloseKeeps(w, rate);
      ThrottledShortfall(w.totalShares, w.index, Target(w, rate), w.emissionReserve);
    }
  }
}
