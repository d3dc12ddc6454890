/** The staking index: shares, value, emission under a budget, and the off-chain rate derivation. */
module Economics {

  const INDEX_SCALE: nat := 1_000_000_000_000
  const QUANTO_RATE_SCALE: nat := 1_000_000_000_000_000_000
  const U64_MAX: nat := 0xFFFF_FFFF_FFFF_FFFF
  const U128_MAX: nat := 0xFFFF_FFFF_FFFF_FFFF_FFFF_FFFF_FFFF_FFFF

  /** Every product and sum saturates at the widest machine integer. */
  function Sat(n: nat): nat {
    if n > U128_MAX then U128_MAX else n
  }

  function AdvanceIndex(index: nat, rate: nat): nat {
    Sat(index + Sat(index * rate) / QUANTO_RATE_SCALE)
  }

  function PositionValue(shares: nat, index: nat): nat {
    Sat(shares * index) / INDEX_SCALE
  }

  function SharesForDeposit(amount: nat, index: nat): nat {
    if index == 0 then 0 else Sat(amount * INDEX_SCALE) / index
  }

  function EmissionForQuanto(totalShares: nat, oldIndex: nat, newIndex: nat): nat {
    var after, before := PositionValue(totalShares, newIndex), PositionValue(totalShares, oldIndex);
    if after >= before then after - before else 0
  }

  datatype Close = Close(index: nat, emission: nat)

  /** The old index plus the largest step whose value is provably within the budget. */
  function BackedIndex(totalShares: nat, oldIndex: nat, budget: nat): nat
    requires totalShares > 0
  {
    Sat(oldIndex + Sat(budget * INDEX_SCALE) / totalShares)
  }

  /** The index step a finite budget can back. */
  function IndexForBackedEmission(totalShares: nat, oldIndex: nat, target: nat, budget: nat): Close {
    if totalShares == 0 then Close(target, 0)
    else
      var desired := EmissionForQuanto(totalShares, oldIndex, target);
      if desired <= budget then Close(target, desired)
      else
        var index := BackedIndex(totalShares, oldIndex, budget);
        Close(index, EmissionForQuanto(totalShares, oldIndex, index))
  }

  // ---- Floor division ---------------------------------------------------------------------------

  lemma MulMono(a: nat, b: nat, k: nat)
    requires a <= b
    ensures a * k <= b * k && k * a <= k * b
  {
  }

  lemma MulGap(a: nat, b: nat, k: nat)
    ensures a < b ==> a * k + k <= b * k
  {
    if a < b {
      MulMono(a + 1, b, k);
    }
  }

  lemma DivBounds(n: nat, k: nat)
    requires k > 0
    ensures n / k * k <= n < n / k * k + k
  {
    assert n == n / k * k + n % k;
  }

  lemma DivMono(a: nat, b: nat, k: nat)
    requires a <= b && k > 0
    ensures a / k <= b / k
  {
    DivBounds(a, k);
    DivBounds(b, k);
    MulGap(b / k, a / k, k);
  }

  lemma DivAddMultiple(a: nat, b: nat, k: nat)
    requires k > 0
    ensures (a + b * k) / k == a / k + b
  {
    DivBounds(a, k);
    DivBounds(a + b * k, k);
    var q, r := (a + b * k) / k, a / k + b;
    assert r * k == a / k * k + b * k;
    MulGap(q, r, k);
    MulGap(r, q, k);
  }

  lemma DivSuper(a: nat, b: nat, k: nat)
    requires k > 0
    ensures a / k + b / k <= (a + b) / k
  {
    DivBounds(b, k);
    DivAddMultiple(a, b / k, k);
    DivMono(a + b / k * k, a + b, k);
  }

  lemma FloorIs(n: nat, k: nat, q: nat)
    requires k > 0 && q * k <= n < (q + 1) * k
    ensures n / k == q
  {
    DivBounds(n, k);
    MulGap(q, n / k, k);
    MulGap(n / k, q, k);
  }

  // ---- What each figure is, short of saturation ---------------------------------------------------

  /** The index grows by the floor of `index * rate` over the rate's scale. */
  lemma AdvanceFloored(index: nat, rate: nat, growth: nat)
    requires growth * QUANTO_RATE_SCALE <= index * rate < (growth + 1) * QUANTO_RATE_SCALE
    requires index * rate <= U128_MAX && index + growth <= U128_MAX
    ensures AdvanceIndex(index, rate) == index + growth
  {
    FloorIs(index * rate, QUANTO_RATE_SCALE, growth);
  }

  /** Shares are worth the floor of `shares * index` over the index scale. */
  lemma ValueFloored(shares: nat, index: nat, value: nat)
    requires value * INDEX_SCALE <= shares * index < (value + 1) * INDEX_SCALE && shares * index <= U128_MAX
    ensures PositionValue(shares, index) == value
  {
    FloorIs(shares * index, INDEX_SCALE, value);
  }

  /** A deposit buys as many shares as it pays for: one more would cost more than was put in. */
  lemma DepositFloored(amount: nat, index: nat, shares: nat)
    requires index > 0 && amount * INDEX_SCALE <= U128_MAX
    ensures shares == SharesForDeposit(amount, index) <==>
            shares * index <= amount * INDEX_SCALE < (shares + 1) * index
  {
    DivBounds(amount * INDEX_SCALE, index);
    if shares * index <= amount * INDEX_SCALE < (shares + 1) * index {
      FloorIs(amount * INDEX_SCALE, index, shares);
    }
  }

  // ---- Value ------------------------------------------------------------------------------------

  lemma ValueMono(shares: nat, a: nat, b: nat)
    ensures a <= b ==> PositionValue(shares, a) <= PositionValue(shares, b)
  {
    if a <= b {
      MulMono(a, b, shares);
      DivMono(Sat(shares * a), Sat(shares * b), INDEX_SCALE);
    }
  }

  /** Raising the product by at most `extra` units raises the value by at most `extra`. */
  lemma ValueStep(product: nat, more: nat, extra: nat)
    requires more <= product + extra * INDEX_SCALE
    ensures Sat(more) / INDEX_SCALE <= Sat(product) / INDEX_SCALE + extra
  {
    DivMono(Sat(more), Sat(product) + extra * INDEX_SCALE, INDEX_SCALE);
    DivAddMultiple(Sat(product), extra, INDEX_SCALE);
  }

  /** A deposit never mints shares worth more than it put in. */
  lemma DepositBacked(totalShares: nat, amount: nat, index: nat)
    ensures PositionValue(totalShares + SharesForDeposit(amount, index), index) <=
            PositionValue(totalShares, index) + amount
  {
    var minted := SharesForDeposit(amount, index);
    if index > 0 {
      DivBounds(Sat(amount * INDEX_SCALE), index);
    }
    assert minted * index <= amount * INDEX_SCALE;
    assert (totalShares + minted) * index == totalShares * index + minted * index;
    ValueStep(totalShares * index, (totalShares + minted) * index, amount);
  }

  lemma ThrottledStep(totalShares: nat, oldIndex: nat, budget: nat)
    requires totalShares > 0
    ensures var index := BackedIndex(totalShares, oldIndex, budget);
            && totalShares * index <= totalShares * oldIndex + budget * INDEX_SCALE
            && (oldIndex <= U128_MAX ==> oldIndex <= index)
  {
    var delta := Sat(budget * INDEX_SCALE) / totalShares;
    DivBounds(Sat(budget * INDEX_SCALE), totalShares);
    MulMono(Sat(oldIndex + delta), oldIndex + delta, totalShares);
    assert totalShares * (oldIndex + delta) == totalShares * oldIndex + delta * totalShares;
  }

  /** Any index within the budget's reach emits within the budget and lies below a target that does not. */
  lemma ThrottledClose(totalShares: nat, oldIndex: nat, target: nat, budget: nat, index: nat)
    requires EmissionForQuanto(totalShares, oldIndex, target) > budget
    requires totalShares * index <= totalShares * oldIndex + budget * INDEX_SCALE
    ensures EmissionForQuanto(totalShares, oldIndex, index) <= budget && index < target
  {
    ValueStep(totalShares * oldIndex, totalShares * index, budget);
    ValueMono(totalShares, target, index);
  }

  /**
   * A budgeted close never draws more than the budget and never overshoots the target, saturation
   * or not; it reaches the target exactly when the budget covers the full emission, and what it
   * emits is exactly the growth in total value.
   */
  lemma CloseWithinBudget(totalShares: nat, oldIndex: nat, target: nat, budget: nat)
    ensures var c := IndexForBackedEmission(totalShares, oldIndex, target, budget);
            && c.emission <= budget && c.index <= target
            && (totalShares > 0 ==> c.emission == EmissionForQuanto(totalShares, oldIndex, c.index))
            && (c.index == target <==> totalShares == 0 || EmissionForQuanto(totalShares, oldIndex, target) <= budget)
            && (oldIndex <= target <= U128_MAX ==> oldIndex <= c.index)
  {
    if totalShares > 0 && EmissionForQuanto(totalShares, oldIndex, target) > budget {
      ThrottledStep(totalShares, oldIndex, budget);
      ThrottledClose(totalShares, oldIndex, target, budget, BackedIndex(totalShares, oldIndex, budget));
    }
  }

  /** An emission above the budget, without saturation, outgrows the budget before flooring too. */
  lemma EmissionExceeds(totalShares: nat, oldIndex: nat, target: nat, budget: nat)
    requires totalShares * target <= U128_MAX && oldIndex <= target
    requires EmissionForQuanto(totalShares, oldIndex, target) > budget
    ensures totalShares * oldIndex + budget * INDEX_SCALE < totalShares * target
  {
    MulMono(oldIndex, target, totalShares);
    DivBounds(totalShares * oldIndex, INDEX_SCALE);
    DivBounds(totalShares * target, INDEX_SCALE);
  }

  lemma BackedReach(totalShares: nat, oldIndex: nat, budget: nat)
    requires totalShares > 0
    ensures var grown := totalShares * (oldIndex + budget * INDEX_SCALE / totalShares);
            grown <= totalShares * oldIndex + budget * INDEX_SCALE < grown + totalShares
  {
    var delta := budget * INDEX_SCALE / totalShares;
    DivBounds(budget * INDEX_SCALE, totalShares);
    assert totalShares * (oldIndex + delta) == totalShares * oldIndex + delta * totalShares;
  }

  lemma ShareIsWhole(totalShares: nat, index: nat)
    requires totalShares > 0
    ensures index <= totalShares * index
  {
    MulMono(1, totalShares, index);
  }

  lemma UnsaturatedStep(totalShares: nat, oldIndex: nat, target: nat, budget: nat, index: nat)
    requires totalShares > 0 && totalShares * oldIndex + budget * INDEX_SCALE < totalShares * target <= U128_MAX
    requires index == oldIndex + budget * INDEX_SCALE / totalShares
    ensures budget * INDEX_SCALE <= U128_MAX && oldIndex <= index <= U128_MAX && totalShares * index <= U128_MAX
    ensures totalShares * oldIndex + budget * INDEX_SCALE < totalShares * index + totalShares
  {
    BackedReach(totalShares, oldIndex, budget);
    ShareIsWhole(totalShares, index);
    Fits(totalShares * oldIndex, budget * INDEX_SCALE, totalShares * target, totalShares * index, index);
  }

  lemma Fits(x: nat, funds: nat, goal: nat, grown: nat, index: nat)
    requires x + funds < goal <= U128_MAX && index <= grown <= x + funds
    ensures funds <= U128_MAX && grown <= U128_MAX && index <= U128_MAX
  {
  }

  lemma EmissionIs(totalShares: nat, oldIndex: nat, index: nat)
    requires oldIndex <= index && totalShares * index <= U128_MAX
    ensures totalShares * oldIndex <= totalShares * index
    ensures EmissionForQuanto(totalShares, oldIndex, index) ==
            totalShares * index / INDEX_SCALE - totalShares * oldIndex / INDEX_SCALE
  {
    MulMono(oldIndex, index, totalShares);
    DivMono(totalShares * oldIndex, totalShares * index, INDEX_SCALE);
  }

  lemma CloseIs(totalShares: nat, oldIndex: nat, target: nat, budget: nat, index: nat)
    requires totalShares > 0 && EmissionForQuanto(totalShares, oldIndex, target) > budget
    requires budget * INDEX_SCALE <= U128_MAX && index == oldIndex + budget * INDEX_SCALE / totalShares <= U128_MAX
    ensures IndexForBackedEmission(totalShares, oldIndex, target, budget) ==
            Close(index, EmissionForQuanto(totalShares, oldIndex, index))
  {
  }

  /** Growing by the budget less fewer than `shares` loses at most `units` when they cover the shares. */
  lemma FlooredLoss(x: nat, grown: nat, budget: nat, shares: nat, units: nat)
    requires x + budget * INDEX_SCALE < grown + shares && shares <= units * INDEX_SCALE && x <= grown
    ensures x / INDEX_SCALE + budget <= grown / INDEX_SCALE + units
  {
    DivMono(x, grown, INDEX_SCALE);
    if budget > units {
      DivMono(x + (budget - units) * INDEX_SCALE, grown, INDEX_SCALE);
      DivAddMultiple(x, budget - units, INDEX_SCALE);
    }
  }

  /**
   * A throttled close falls short of its budget by at most one unit per started `INDEX_SCALE` of
   * shares, as long as the products involved do not saturate.
   */
  lemma ThrottledShortfall(totalShares: nat, oldIndex: nat, target: nat, budget: nat)
    requires totalShares > 0 && totalShares * target <= U128_MAX && oldIndex <= target
    requires EmissionForQuanto(totalShares, oldIndex, target) > budget
    ensures budget - IndexForBackedEmission(totalShares, oldIndex, target, budget).emission <=
            (totalShares + INDEX_SCALE - 1) / INDEX_SCALE
  {
    var units := (totalShares + INDEX_SCALE - 1) / INDEX_SCALE;
    DivBounds(totalShares + INDEX_SCALE - 1, INDEX_SCALE);
    ThrottledValues(totalShares, oldIndex, target, budget, units);
  }

  lemma ThrottledValues(totalShares: nat, oldIndex: nat, target: nat, budget: nat, units: nat)
    requires totalShares > 0 && totalShares * target <= U128_MAX && oldIndex <= target
    requires EmissionForQuanto(totalShares, oldIndex, target) > budget && totalShares <= units * INDEX_SCALE
    ensures budget <= IndexForBackedEmission(totalShares, oldIndex, target, budget).emission + units
  {
    var index := oldIndex + budget * INDEX_SCALE / totalShares;
    EmissionExceeds(totalShares, oldIndex, target, budget);
    StepShortfall(totalShares, oldIndex, target, budget, index, units);
    CloseIs(totalShares, oldIndex, target, budget, index);
  }

  lemma StepShortfall(totalShares: nat, oldIndex: nat, target: nat, budget: nat, index: nat, units: nat)
    requires totalShares > 0 && totalShares * oldIndex + budget * INDEX_SCALE < totalShares * target <= U128_MAX
    requires index == oldIndex + budget * INDEX_SCALE / totalShares && totalShares <= units * INDEX_SCALE
    ensures budget * INDEX_SCALE <= U128_MAX && index <= U128_MAX
    ensures budget <= EmissionForQuanto(totalShares, oldIndex, index) + units
  {
    UnsaturatedStep(totalShares, oldIndex, target, budget, index);
    ReachedValue(totalShares, oldIndex, index, budget, units);
  }

  lemma ReachedValue(totalShares: nat, oldIndex: nat, index: nat, budget: nat, units: nat)
    requires oldIndex <= index && totalShares * index <= U128_MAX && totalShares <= units * INDEX_SCALE
    requires totalShares * oldIndex + budget * INDEX_SCALE < totalShares * index + totalShares
    ensures budget <= EmissionForQuanto(totalShares, oldIndex, index) + units
  {
    EmissionIs(totalShares, oldIndex, index);
    FlooredLoss(totalShares * oldIndex, totalShares * index, budget, totalShares, units);
  }

  /**
   * The throttled index is the largest whose unrounded value growth the budget covers, which is less
   * than the largest whose floored growth it covers.
   */
  lemma ThrottleIsLargestBacked(totalShares: nat, oldIndex: nat, budget: nat, index: nat)
    requires totalShares > 0 && budget * INDEX_SCALE <= U128_MAX && oldIndex <= index <= U128_MAX
    ensures index <= BackedIndex(totalShares, oldIndex, budget) <==>
            totalShares * (index - oldIndex) <= budget * INDEX_SCALE
  {
    var funds, delta := budget * INDEX_SCALE, index - oldIndex;
    var q := funds / totalShares;
    DivBounds(funds, totalShares);
    MulGap(q, delta, totalShares);
    if delta <= q {
      MulMono(delta, q, totalShares);
    }
  }

  /** Whether a step fits the budget after flooring: its growth plus the part already past the last unit. */
  lemma FlooredFits(totalShares: nat, oldIndex: nat, index: nat, budget: nat)
    requires oldIndex <= index && totalShares * index <= U128_MAX
    ensures EmissionForQuanto(totalShares, oldIndex, index) <= budget <==>
            totalShares * oldIndex % INDEX_SCALE + totalShares * (index - oldIndex) < (budget + 1) * INDEX_SCALE
  {
    var x, y := totalShares * oldIndex, totalShares * (index - oldIndex);
    assert totalShares * index == x + y;
    FlooredSum(x, y, budget);
  }

  lemma FlooredSum(x: nat, y: nat, budget: nat)
    ensures (x + y) / INDEX_SCALE <= x / INDEX_SCALE + budget <==> x % INDEX_SCALE + y < (budget + 1) * INDEX_SCALE
  {
    DivBounds(x, INDEX_SCALE);
    DivBounds(x + y, INDEX_SCALE);
  }

  /**
   * The throttled index is also the largest whose floored emission fits the budget exactly when one
   * index more would use up what is left of the last unit.
   */
  lemma ThrottleLargestFlooredExactly(totalShares: nat, oldIndex: nat, budget: nat)
    requires totalShares > 0 && oldIndex <= BackedIndex(totalShares, oldIndex, budget)
    requires totalShares * (BackedIndex(totalShares, oldIndex, budget) + 1) <= U128_MAX
    ensures var next := BackedIndex(totalShares, oldIndex, budget) + 1;
            (forall i: nat :: next <= i ==> EmissionForQuanto(totalShares, oldIndex, i) > budget) <==>
            totalShares * oldIndex % INDEX_SCALE + totalShares * (next - oldIndex) >= (budget + 1) * INDEX_SCALE
  {
    var next := BackedIndex(totalShares, oldIndex, budget) + 1;
    FlooredFits(totalShares, oldIndex, next, budget);
    forall i: nat | next <= i
      ensures EmissionForQuanto(totalShares, oldIndex, next) <= EmissionForQuanto(totalShares, oldIndex, i)
    {
      ValueMono(totalShares, next, i);
    }
  }

  lemma ThrottleNotLargestFloored()
    ensures var c := IndexForBackedEmission(1, INDEX_SCALE, 2 * INDEX_SCALE, 0);
            && c == Close(INDEX_SCALE, 0)
            && EmissionForQuanto(1, INDEX_SCALE, INDEX_SCALE + 1) == 0 && INDEX_SCALE + 1 < 2 * INDEX_SCALE
  {
    assert PositionValue(1, INDEX_SCALE) == 1 && PositionValue(1, INDEX_SCALE + 1) == 1;
    assert PositionValue(1, 2 * INDEX_SCALE) == 2;
  }

  // ---- The rate -----------------------------------------------------------------------------------

  /** `n` quantos of compounding. */
  function Compound(index: nat, rate: nat, n: nat): nat {
    if n == 0 then index else AdvanceIndex(Compound(index, rate, n - 1), rate)
  }

  /** Compounding composes, one quanto at a time. */
  lemma {:induction false} CompoundAdds(index: nat, rate: nat, m: nat, n: nat)
    ensures Compound(index, rate, 0) == index && Compound(index, rate, 1) == AdvanceIndex(index, rate)
    ensures Compound(index, rate, m + n) == Compound(Compound(index, rate, m), rate, n)
    decreases n
  {
    if n > 0 {
      CompoundAdds(index, rate, m, n - 1);
    }
  }

  function ApyCap(apyBps: nat): nat {
    Sat(INDEX_SCALE * (10_000 + apyBps)) / 10_000
  }

  /** The yearly cap is the base index plus `apyBps` ten-thousandths of it, floored. */
  lemma CapFloored(apyBps: nat)
    requires INDEX_SCALE * (10_000 + apyBps) <= U128_MAX
    ensures ApyCap(apyBps) * 10_000 <= INDEX_SCALE * (10_000 + apyBps) < (ApyCap(apyBps) + 1) * 10_000
  {
    DivBounds(INDEX_SCALE * (10_000 + apyBps), 10_000);
  }

  lemma AdvanceMono(a: nat, b: nat, r: nat, q: nat)
    requires a <= b && r <= q
    ensures AdvanceIndex(a, r) <= AdvanceIndex(b, q)
  {
    MulMono(a, b, r);
    MulMono(r, q, b);
    DivMono(Sat(a * r), Sat(b * q), QUANTO_RATE_SCALE);
  }

  lemma {:induction false} CompoundMono(index: nat, r: nat, q: nat, n: nat)
    requires r <= q
    ensures Compound(index, r, n) <= Compound(index, q, n)
  {
    if n > 0 {
      CompoundMono(index, r, q, n - 1);
      AdvanceMono(Compound(index, r, n - 1), Compound(index, q, n - 1), r, q);
    }
  }

  lemma {:induction false} CompoundZero(index: nat, n: nat)
    requires index <= U128_MAX
    ensures Compound(index, 0, n) == index
  {
    if n > 0 {
      CompoundZero(index, n - 1);
    }
  }

  /**
   * Whatever starting guess floating point produced, the loop ends with a rate whose full year of
   * integer compounding stays within the cap: the largest such rate not above the guess.
   */
  method DeriveQuantoRate(apyBps: nat, quantosPerYear: nat, guess: nat) returns (fp: nat)
    ensures Compound(INDEX_SCALE, fp, quantosPerYear) <= ApyCap(apyBps)
    ensures apyBps == 0 || quantosPerYear == 0 ==> fp == 0
    ensures apyBps != 0 && quantosPerYear != 0 ==>
              fp <= guess && forall r :: fp < r <= guess ==> Compound(INDEX_SCALE, r, quantosPerYear) > ApyCap(apyBps)
  {
    CompoundZero(INDEX_SCALE, quantosPerYear);
    CapAboveBase(apyBps);
    if apyBps == 0 || quantosPerYear == 0 {
      return 0;
    }
    fp := guess;
    var cap := ApyCap(apyBps);
    while fp > 0
      invariant fp <= guess
      invariant forall r :: fp < r <= guess ==> Compound(INDEX_SCALE, r, quantosPerYear) > cap
    {
      var index := INDEX_SCALE;
      for i := 0 to quantosPerYear
        invariant index == Compound(INDEX_SCALE, fp, i)
      {
        index := AdvanceIndex(index, fp);
      }
      if index <= cap {
        break;
      }
      fp := fp - 1;
    }
  }

  lemma CapAboveBase(apyBps: nat)
    ensures INDEX_SCALE <= ApyCap(apyBps)
  {
    DivMono(INDEX_SCALE * 10_000, Sat(INDEX_SCALE * (10_000 + apyBps)), 10_000);
  }

  /** Above the derived rate nothing is safe, below it everything is: the cap is met up to a threshold. */
  lemma RateThreshold(apyBps: nat, quantosPerYear: nat, r: nat, q: nat)
    requires r <= q && Compound(INDEX_SCALE, q, quantosPerYear) <= ApyCap(apyBps)
    ensures Compound(INDEX_SCALE, r, quantosPerYear) <= ApyCap(apyBps)
  {
    CompoundMono(INDEX_SCALE, r, q, quantosPerYear);
  }
}
