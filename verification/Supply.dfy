/** The whole economy in motion: supply, escrow and reserve over every run of its operations. */
module Supply {
  import opened Dag
  import opened Economics
  import opened Fees
  import opened Sums
  import HardCap

  /** Everything ever created, and everything ever destroyed. */
  datatype Tally = Tally(genesis: nat, minted: nat, feeBurned: nat, dustBurned: nat, slashed: nat)

  function SatSub(a: nat, b: nat): nat {
    if a >= b then a - b else 0
  }

  function ExpectedTotal(t: Tally): nat {
    SatSub(SatSub(SatSub(t.genesis + t.minted, t.feeBurned), t.dustBurned), t.slashed)
  }

  datatype World = World(balances: Amounts, index: nat, totalShares: nat, positions: Amounts,
                         registry: seq<Entry>, tally: Tally, rate: nat)

  datatype Op =
    | Deposit(staker: Address, amount: nat)
    | CloseQuanto
    | ChargeFee(fee: nat)
    | Distribute(quanto: nat)
    | Register(validator: Address)
    | Slash(validator: Address)

  predicate InEscrow(e: Entry) {
    e.state == BondedPending || e.state == Active || e.state == Jailed
  }

  function EscrowedBonds(registry: seq<Entry>): nat {
    if registry == [] then 0
    else
      var n := |registry| - 1;
      EscrowedBonds(registry[..n]) + if InEscrow(registry[n]) then registry[n].bond else 0
  }

  ghost predicate BondsExact(registry: seq<Entry>) {
    forall i :: 0 <= i < |registry| && InEscrow(registry[i]) ==> registry[i].bond == VALIDATOR_BOND_ATOMS
  }

  function NewEntry(a: Address): Entry {
    Entry(a, a, VALIDATOR_BOND_ATOMS, Active, 0, 100, 100, 0, false, 0)
  }

  predicate Hit(e: Entry, a: Address) {
    e.address == a && InEscrow(e)
  }

  /** The first entry a slash of `a` hits, or the registry's length. */
  function FindEscrowed(registry: seq<Entry>, a: Address): (i: nat)
    ensures i <= |registry|
    ensures i < |registry| ==> Hit(registry[i], a)
    ensures forall j :: 0 <= j < i ==> !Hit(registry[j], a)
  {
    if registry == [] || Hit(registry[0], a) then 0 else 1 + FindEscrowed(registry[1..], a)
  }

  function Debited(m: Amounts, a: Address, amount: nat): Amounts
    requires amount <= Get(m, a)
  {
    m[a := Get(m, a) - amount]
  }

  function Moved(m: Amounts, a: Address, b: Address, amount: nat): Amounts
    requires amount <= Get(m, a)
  {
    Credited(Debited(m, a, amount), b, amount)
  }

  function SlashedAt(registry: seq<Entry>, i: nat): seq<Entry>
    requires i < |registry|
  {
    registry[i := registry[i].(state := Slashed)]
  }

  /**
   * One operation. A founder without the funds, or a validator without an escrowed bond, changes
   * nothing; a slash larger than the escrow balance aborts, which is the one way to get `None`.
   */
  function Step(w: World, op: Op): Option<World> {
    match op
    case Deposit(staker, amount) =>
      if Get(w.balances, FOUNDER) < amount || amount == 0 then Some(w)
      else
        var minted := SharesForDeposit(amount, w.index);
        Some(w.(balances := Moved(w.balances, FOUNDER, STAKING_RESERVE, amount),
                totalShares := w.totalShares + minted,
                positions := Credited(w.positions, staker, minted)))
    case CloseQuanto =>
      var index := AdvanceIndex(w.index, w.rate);
      var minted := EmissionForQuanto(w.totalShares, w.index, index);
      var balances := if minted > 0 then Credited(w.balances, STAKING_RESERVE, minted) else w.balances;
      Some(w.(balances := balances, index := index, tally := w.tally.(minted := w.tally.minted + minted)))
    case ChargeFee(fee) =>
      if Get(w.balances, FOUNDER) < fee || fee == 0 then Some(w)
      else
        Some(w.(balances := Routed(Debited(w.balances, FOUNDER, fee), fee),
                tally := w.tally.(feeBurned := w.tally.feeBurned + SplitFee(fee).burn)))
    case Distribute(quanto) =>
      Some(w.(balances := Distributed(w.balances, EligibleAddresses(w.registry, quanto))))
    case Register(a) =>
      if Get(w.balances, FOUNDER) < VALIDATOR_BOND_ATOMS then Some(w)
      else
        Some(w.(balances := Moved(w.balances, FOUNDER, BOND_ESCROW, VALIDATOR_BOND_ATOMS),
                registry := w.registry + [NewEntry(a)]))
    case Slash(a) =>
      var i := FindEscrowed(w.registry, a);
      if i == |w.registry| then Some(w)
      else if Get(w.balances, BOND_ESCROW) < w.registry[i].bond then None
      else
        var bond := w.registry[i].bond;
        Some(w.(registry := SlashedAt(w.registry, i), balances := Debited(w.balances, BOND_ESCROW, bond),
                tally := w.tally.(slashed := w.tally.slashed + bond)))
  }

  function Run(w: World, ops: seq<Op>): Option<World> {
    if ops == [] then Some(w)
    else
      var before := Run(w, ops[..|ops| - 1]);
      if before.None? then None else Step(before.value, ops[|ops| - 1])
  }

  // ---- What one operation keeps ---------------------------------------------------------------------

  /** Supply accounting, written without truncating subtraction. */
  ghost predicate SupplyHolds(w: World) {
    var t := w.tally;
    Total(w.balances) + t.feeBurned + t.dustBurned + t.slashed == t.genesis + t.minted
  }

  /** Escrowed bonds are exact and the escrow balance covers them. */
  ghost predicate EscrowCovers(w: World) {
    BondsExact(w.registry) && EscrowedBonds(w.registry) <= Get(w.balances, BOND_ESCROW)
  }

  /** The accumulator adds up the positions and the reserve covers its value. */
  ghost predicate ReserveCovers(w: World) {
    && w.totalShares == Total(w.positions)
    && PositionValue(w.totalShares, w.index) <= Get(w.balances, STAKING_RESERVE)
  }

  /** What a distribution pays into the escrow account: one reward per eligible entry naming it. */
  function Stray(w: World, op: Op): nat {
    if op.Distribute? then
      var addrs := EligibleAddresses(w.registry, op.quanto);
      Reward(w.balances, addrs) * multiset(addrs)[BOND_ESCROW]
    else 0
  }

  lemma DebitSubtracts(m: Amounts, a: Address, amount: nat)
    requires amount <= Get(m, a)
    ensures Total(Debited(m, a, amount)) + amount == Total(m)
  {
    TotalUpdate(m, a, Get(m, a) - amount);
  }

  lemma MoveKeeps(m: Amounts, a: Address, b: Address, amount: nat)
    requires amount <= Get(m, a)
    ensures Total(Moved(m, a, b, amount)) == Total(m)
  {
    DebitSubtracts(m, a, amount);
    CreditAdds(Debited(m, a, amount), b, amount);
  }

  lemma StepKeepsSupply(w: World, op: Op)
    requires SupplyHolds(w) && Step(w, op).Some?
    ensures SupplyHolds(Step(w, op).value)
  {
    match op {
      case Deposit(_, amount) =>
        if amount <= Get(w.balances, FOUNDER) {
          MoveKeeps(w.balances, FOUNDER, STAKING_RESERVE, amount);
        }
      case CloseQuanto =>
        CreditAdds(w.balances, STAKING_RESERVE,
                   EmissionForQuanto(w.totalShares, w.index, AdvanceIndex(w.index, w.rate)));
      case ChargeFee(fee) =>
        if fee <= Get(w.balances, FOUNDER) {
          DebitSubtracts(w.balances, FOUNDER, fee);
          RoutingCredits(Debited(w.balances, FOUNDER, fee), fee);
        }
      case Distribute(quanto) =>
        DistributionPays(w.balances, EligibleAddresses(w.registry, quanto), FOUNDER);
      case Register(_) =>
        if VALIDATOR_BOND_ATOMS <= Get(w.balances, FOUNDER) {
          MoveKeeps(w.balances, FOUNDER, BOND_ESCROW, VALIDATOR_BOND_ATOMS);
        }
      case Slash(a) =>
        var i := FindEscrowed(w.registry, a);
        if i < |w.registry| {
          DebitSubtracts(w.balances, BOND_ESCROW, w.registry[i].bond);
        }
    }
  }

  lemma {:induction false} SlashDrops(registry: seq<Entry>, i: nat)
    requires i < |registry| && InEscrow(registry[i])
    ensures EscrowedBonds(SlashedAt(registry, i)) + registry[i].bond == EscrowedBonds(registry)
    decreases |registry|
  {
    var n := |registry| - 1;
    if i < n {
      assert SlashedAt(registry, i)[..n] == SlashedAt(registry[..n], i);
      SlashDrops(registry[..n], i);
    } else {
      assert SlashedAt(registry, i)[..n] == registry[..n];
    }
  }

  ghost function Excess(w: World): int {
    Get(w.balances, BOND_ESCROW) - EscrowedBonds(w.registry)
  }

  lemma RegisterEscrow(w: World, a: Address)
    requires EscrowCovers(w)
    ensures var after := Step(w, Register(a)).value; EscrowCovers(after) && Excess(after) == Excess(w)
  {
    assert (w.registry + [NewEntry(a)])[..|w.registry|] == w.registry;
  }

  lemma SlashEscrow(w: World, a: Address)
    requires EscrowCovers(w)
    ensures var after := Step(w, Slash(a)); after.Some? && EscrowCovers(after.value) && Excess(after.value) == Excess(w)
  {
    var i := FindEscrowed(w.registry, a);
    if i < |w.registry| {
      SlashDrops(w.registry, i);
    }
  }

  lemma FeeEscrow(w: World, fee: nat)
    ensures var after := Step(w, ChargeFee(fee)).value;
            Get(after.balances, BOND_ESCROW) == Get(w.balances, BOND_ESCROW) && after.registry == w.registry
  {
    if fee <= Get(w.balances, FOUNDER) {
      RoutingCredits(Debited(w.balances, FOUNDER, fee), fee);
    }
  }

  lemma DistributeEscrow(w: World, quanto: nat)
    ensures var after := Step(w, Distribute(quanto)).value;
            && Get(after.balances, BOND_ESCROW) == Get(w.balances, BOND_ESCROW) + Stray(w, Distribute(quanto))
            && after.registry == w.registry
  {
    DistributionPays(w.balances, EligibleAddresses(w.registry, quanto), BOND_ESCROW);
  }

  /** An operation moves the escrow excess by exactly what it strays, and a slash never aborts. */
  lemma StepEscrow(w: World, op: Op)
    requires EscrowCovers(w)
    ensures var after := Step(w, op);
            after.Some? && EscrowCovers(after.value) && Excess(after.value) == Excess(w) + Stray(w, op)
  {
    match op {
      case Deposit(_, _) =>
      case CloseQuanto =>
      case ChargeFee(fee) => FeeEscrow(w, fee);
      case Distribute(quanto) => DistributeEscrow(w, quanto);
      case Register(a) => RegisterEscrow(w, a);
      case Slash(a) => SlashEscrow(w, a);
    }
  }

  lemma DepositReserve(w: World, staker: Address, amount: nat)
    requires ReserveCovers(w)
    ensures ReserveCovers(Step(w, Deposit(staker, amount)).value)
  {
    DepositBacked(w.totalShares, amount, w.index);
    CreditAdds(w.positions, staker, SharesForDeposit(amount, w.index));
  }

  lemma CloseReserve(w: World)
    requires ReserveCovers(w)
    ensures ReserveCovers(Step(w, CloseQuanto).value)
  {
  }

  lemma ProductNatural(a: nat, b: nat)
    ensures a * b >= 0
  {
  }

  lemma DistributeReserve(w: World, quanto: nat)
    ensures Get(w.balances, STAKING_RESERVE) <= Get(Step(w, Distribute(quanto)).value.balances, STAKING_RESERVE)
  {
    var addrs: seq<Address> := EligibleAddresses(w.registry, quanto);
    DistributionPays(w.balances, addrs, STAKING_RESERVE);
    ProductNatural(Reward(w.balances, addrs), multiset(addrs)[STAKING_RESERVE]);
  }

  lemma OtherReserve(w: World, op: Op)
    requires op.ChargeFee? || op.Register? || op.Slash?
    requires Step(w, op).Some?
    ensures var after := Step(w, op).value;
            && Get(after.balances, STAKING_RESERVE) == Get(w.balances, STAKING_RESERVE)
            && after.index == w.index && after.totalShares == w.totalShares && after.positions == w.positions
  {
    if op.ChargeFee? && op.fee <= Get(w.balances, FOUNDER) {
      RoutingCredits(Debited(w.balances, FOUNDER, op.fee), op.fee);
    }
  }

  lemma StepKeepsReserve(w: World, op: Op)
    requires ReserveCovers(w) && Step(w, op).Some?
    ensures ReserveCovers(Step(w, op).value)
  {
    match op {
      case Deposit(staker, amount) => DepositReserve(w, staker, amount);
      case CloseQuanto => CloseReserve(w);
      case Distribute(quanto) => DistributeReserve(w, quanto);
      case _ => OtherReserve(w, op);
    }
  }

  // ---- Runs -----------------------------------------------------------------------------------------

  /** All that distributions of a run paid into the escrow account. */
  function Strayed(w: World, ops: seq<Op>): nat {
    if ops == [] then 0
    else
      var before := Run(w, ops[..|ops| - 1]);
      Strayed(w, ops[..|ops| - 1]) + if before.Some? then Stray(before.value, ops[|ops| - 1]) else 0
  }

  /** Nothing staked, nobody registered, one founder holding the whole genesis supply. */
  function Genesis(amount: nat, rate: nat): World {
    World(map[FOUNDER := amount], INDEX_SCALE, 0, map[], [], Tally(amount, 0, 0, 0, 0), rate)
  }

  ghost predicate Kept(w: World) {
    SupplyHolds(w) && EscrowCovers(w) && ReserveCovers(w)
  }

  lemma GenesisHolds(amount: nat, rate: nat)
    ensures Kept(Genesis(amount, rate)) && Excess(Genesis(amount, rate)) == 0
  {
    TotalUpdate(map[], FOUNDER, amount);
    assert map[][FOUNDER := amount] == map[FOUNDER := amount];
  }

  /**
   * From genesis, over any interleaving of deposits, minting closes, fees, distributions,
   * registrations and slashes: nothing aborts, balances add up to genesis plus minted minus burned
   * minus slashed, the reserve covers the accumulator, and the escrow holds the escrowed bonds plus
   * exactly what distributions strayed into it.
   */
  lemma {:induction false} SupplyRun(amount: nat, rate: nat, ops: seq<Op>)
    ensures var after := Run(Genesis(amount, rate), ops);
            && after.Some? && Kept(after.value)
            && Total(after.value.balances) == ExpectedTotal(after.value.tally)
            && Get(after.value.balances, BOND_ESCROW) ==
               EscrowedBonds(after.value.registry) + Strayed(Genesis(amount, rate), ops)
    decreases |ops|
  {
    GenesisHolds(amount, rate);
    if ops != [] {
      var n := |ops| - 1;
      SupplyRun(amount, rate, ops[..n]);
      var before := Run(Genesis(amount, rate), ops[..n]).value;
      StepEscrow(before, ops[n]);
      StepKeepsSupply(before, ops[n]);
      StepKeepsReserve(before, ops[n]);
    }
  }

  ghost predicate NoEscrowEntry(registry: seq<Entry>) {
    forall i :: 0 <= i < |registry| ==> registry[i].withdrawal != BOND_ESCROW
  }

  lemma {:induction false} EligibleAvoidEscrow(registry: seq<Entry>, quanto: nat)
    requires NoEscrowEntry(registry)
    ensures BOND_ESCROW !in EligibleAddresses(registry, quanto)
    decreases |registry|
  {
    if registry != [] {
      EligibleAvoidEscrow(registry[..|registry| - 1], quanto);
    }
  }

  lemma StepAvoidsEscrow(w: World, op: Op)
    requires NoEscrowEntry(w.registry) && op != Register(BOND_ESCROW)
    ensures Stray(w, op) == 0
    ensures Step(w, op).Some? ==> NoEscrowEntry(Step(w, op).value.registry)
  {
    if op.Distribute? {
      EligibleAvoidEscrow(w.registry, op.quanto);
    }
  }

  lemma {:induction false} NothingStrays(w: World, ops: seq<Op>)
    requires NoEscrowEntry(w.registry) && Register(BOND_ESCROW) !in ops
    ensures Strayed(w, ops) == 0
    ensures Run(w, ops).Some? ==> NoEscrowEntry(Run(w, ops).value.registry)
    decreases |ops|
  {
    if ops != [] {
      var n := |ops| - 1;
      NothingStrays(w, ops[..n]);
      if Run(w, ops[..n]).Some? {
        StepAvoidsEscrow(Run(w, ops[..n]).value, ops[n]);
      }
    }
  }

  /** Every invariant of the design at once: supply, escrow equality, and the reserve over both views. */
  ghost predicate Invariants(w: World) {
    && Total(w.balances) == ExpectedTotal(w.tally)
    && BondsExact(w.registry) && EscrowedBonds(w.registry) == Get(w.balances, BOND_ESCROW)
    && HardCap.ReferenceValue(w.positions, w.index) <= PositionValue(w.totalShares, w.index)
    && PositionValue(w.totalShares, w.index) <= Get(w.balances, STAKING_RESERVE)
  }

  lemma ReferenceCovered(w: World)
    requires ReserveCovers(w) && Get(w.balances, STAKING_RESERVE) <= U64_MAX
    ensures HardCap.ReferenceValue(w.positions, w.index) <= PositionValue(w.totalShares, w.index)
  {
    DivBounds(Sat(w.totalShares * w.index), INDEX_SCALE);
    HardCap.AggregateDominates(w.positions, w.index);
  }

  /**
   * As long as the reserve fits a balance, the invariants hold after a run exactly when no
   * distribution of it paid the escrow account; never registering that account guarantees it.
   */
  lemma InvariantsHold(amount: nat, rate: nat, ops: seq<Op>)
    ensures var after := Run(Genesis(amount, rate), ops);
            && after.Some?
            && (Get(after.value.balances, STAKING_RESERVE) <= U64_MAX ==>
                  && (Invariants(after.value) <==> Strayed(Genesis(amount, rate), ops) == 0)
                  && (Register(BOND_ESCROW) !in ops ==> Invariants(after.value)))
  {
    SupplyRun(amount, rate, ops);
    var w := Run(Genesis(amount, rate), ops).value;
    if Get(w.balances, STAKING_RESERVE) <= U64_MAX {
      ReferenceCovered(w);
    }
    if Register(BOND_ESCROW) !in ops {
      NothingStrays(Genesis(amount, rate), ops);
    }
  }

  lemma RunThree(w0: World, w1: World, w2: World, a: Op, b: Op, c: Op)
    requires Step(w0, a) == Some(w1) && Step(w1, b) == Some(w2)
    ensures Run(w0, [a, b, c]) == Step(w2, c)
  {
    assert [a, b, c][..2] == [a, b] && [a, b][..1] == [a] && [a][..0] == [];
    assert Run(w0, [a]) == Some(w1);
    assert Run(w0, [a, b]) == Some(w2);
  }

  lemma OnlyEligible(a: Address)
    ensures EligibleAddresses([NewEntry(a)], 0) == [a] && EscrowedBonds([NewEntry(a)]) == VALIDATOR_BOND_ATOMS
  {
    assert [NewEntry(a)][..0] == [];
    assert IsEligible(NewEntry(a), 0);
  }

  /** Two bonds at genesis, one of them posted by the escrow account, and a fee of 100 routed. */
  function Charged(): World {
    World(map[FOUNDER := VALIDATOR_BOND_ATOMS - 100, BOND_ESCROW := VALIDATOR_BOND_ATOMS, VALIDATOR_FEE_POOL := 45,
              ADMIN_FEE_WALLET := 10],
          INDEX_SCALE, 0, map[], [NewEntry(BOND_ESCROW)], Tally(2 * VALIDATOR_BOND_ATOMS, 0, 45, 0, 0), 0)
  }

  function Posted(): World {
    World(map[FOUNDER := VALIDATOR_BOND_ATOMS, BOND_ESCROW := VALIDATOR_BOND_ATOMS],
          INDEX_SCALE, 0, map[], [NewEntry(BOND_ESCROW)], Tally(2 * VALIDATOR_BOND_ATOMS, 0, 0, 0, 0), 0)
  }

  lemma ReachCharged()
    ensures Step(Genesis(2 * VALIDATOR_BOND_ATOMS, 0), Register(BOND_ESCROW)) == Some(Posted())
    ensures Step(Posted(), ChargeFee(100)) == Some(Charged())
  {
    var bond := VALIDATOR_BOND_ATOMS;
    assert Moved(map[FOUNDER := 2 * bond], FOUNDER, BOND_ESCROW, bond) == Posted().balances;
    assert [] + [NewEntry(BOND_ESCROW)] == [NewEntry(BOND_ESCROW)];
    assert SplitFee(100) == FeeSplit(45, 45, 10);
    assert Routed(Debited(Posted().balances, FOUNDER, 100), 100) == Charged().balances;
  }

  /** The escrow account as its own only validator: the fee share it earns breaks the equality. */
  lemma EscrowCanDrift()
    ensures var ops := [Register(BOND_ESCROW), ChargeFee(100), Distribute(0)];
            var after := Run(Genesis(2 * VALIDATOR_BOND_ATOMS, 0), ops);
            after.Some? && Get(after.value.balances, BOND_ESCROW) == EscrowedBonds(after.value.registry) + 45
  {
    ReachCharged();
    RunThree(Genesis(2 * VALIDATOR_BOND_ATOMS, 0), Posted(), Charged(),
             Register(BOND_ESCROW), ChargeFee(100), Distribute(0));
    OnlyEligible(BOND_ESCROW);
    DistributionPays(Charged().balances, [BOND_ESCROW], BOND_ESCROW);
  }

  // ---- Bonds counted ----------------------------------------------------------------------------------

  /** Entries whose bond has neither begun to leave nor been burned. */
  ghost function Bonded(registry: seq<Entry>): set<nat> {
    set i | 0 <= i < |registry| && registry[i].state in {BondedPending, Active, Jailed}
  }

  /** With exact bonds the escrowed total is one bond for every bonded entry. */
  lemma {:induction false} BondsCounted(registry: seq<Entry>)
    requires BondsExact(registry)
    ensures EscrowedBonds(registry) == VALIDATOR_BOND_ATOMS * |Bonded(registry)|
    decreases |registry|
  {
    if registry == [] {
      assert Bonded(registry) == {};
    } else {
      var n := |registry| - 1;
      BondsCounted(registry[..n]);
      var last := if InEscrow(registry[n]) then {n} else {};
      assert Bonded(registry) == Bonded(registry[..n]) + last;
    }
  }

  /**
   * A slash burns one bond out of escrow for the first bonded entry of that validator and marks it
   * slashed; every other entry stays as it is, and without such an entry nothing happens at all.
   */
  lemma SlashExactly(w: World, a: Address, i: nat)
    requires EscrowCovers(w) && i < |w.registry|
    ensures Step(w, Slash(a)).Some?
    ensures var after := Step(w, Slash(a)).value;
            if w.registry[i].address == a && i in Bonded(w.registry) &&
               (forall j :: 0 <= j < i ==> w.registry[j].address != a || j !in Bonded(w.registry)) then
              && after.registry == w.registry[i := w.registry[i].(state := Slashed)]
              && Get(after.balances, BOND_ESCROW) + VALIDATOR_BOND_ATOMS == Get(w.balances, BOND_ESCROW)
              && after.tally.slashed == w.tally.slashed + VALIDATOR_BOND_ATOMS
            else |after.registry| == |w.registry| && after.registry[i] == w.registry[i]
    ensures (forall j :: j in Bonded(w.registry) ==> w.registry[j].address != a) ==> Step(w, Slash(a)).value == w
  {
    SlashEscrow(w, a);
    var k := FindEscrowed(w.registry, a);
    forall j | 0 <= j < |w.registry|
      ensures Hit(w.registry[j], a) <==> w.registry[j].address == a && j in Bonded(w.registry)
    {
    }
  }

  /**
   * Over every run from genesis the escrow account holds one bond for every entry that was registered
   * and not slashed, plus what distributions paid into it; and no entry is ever in any other state.
   */
  lemma {:induction false} EscrowCounted(amount: nat, rate: nat, ops: seq<Op>)
    ensures var w := Run(Genesis(amount, rate), ops);
            && w.Some?
            && (forall i :: 0 <= i < |w.value.registry| ==> w.value.registry[i].state in {Active, Slashed})
            && Get(w.value.balances, BOND_ESCROW) ==
               VALIDATOR_BOND_ATOMS * |Bonded(w.value.registry)| + Strayed(Genesis(amount, rate), ops)
    decreases |ops|
  {
    SupplyRun(amount, rate, ops);
    BondsCounted(Run(Genesis(amount, rate), ops).value.registry);
    if ops != [] {
      EscrowCounted(amount, rate, ops[..|ops| - 1]);
      StatesStay(Run(Genesis(amount, rate), ops[..|ops| - 1]).value, ops[|ops| - 1]);
    }
  }

  lemma StatesStay(w: World, op: Op)
    requires forall i :: 0 <= i < |w.registry| ==> w.registry[i].state in {Active, Slashed}
    requires Step(w, op).Some?
    ensures var after := Step(w, op).value;
            forall i :: 0 <= i < |after.registry| ==> after.registry[i].state in {Active, Slashed}
  {
  }

  /** A funded deposit moves exactly its amount and buys its staker as many shares as it pays for. */
  lemma DepositCredits(w: World, staker: Address, amount: nat)
    requires 0 < amount <= Get(w.balances, FOUNDER) && w.index > 0 && amount * INDEX_SCALE <= U128_MAX
    ensures var after := Step(w, Deposit(staker, amount)).value;
            && Get(after.balances, FOUNDER) == Get(w.balances, FOUNDER) - amount
            && Get(after.balances, STAKING_RESERVE) == Get(w.balances, STAKING_RESERVE) + amount
            && Get(after.positions, staker) >= Get(w.positions, staker)
            && var shares := Get(after.positions, staker) - Get(w.positions, staker);
               && shares * w.index <= amount * INDEX_SCALE < (shares + 1) * w.index
               && after.totalShares == w.totalShares + shares
  {
    DepositFloored(amount, w.index, SharesForDeposit(amount, w.index));
  }

  /** A close advances the index and mints exactly the growth in the value of all shares into the reserve. */
  lemma CloseMints(w: World)
    ensures var after := Step(w, CloseQuanto).value;
            && after.index == AdvanceIndex(w.index, w.rate) && after.totalShares == w.totalShares
            && Get(after.balances, STAKING_RESERVE) + PositionValue(w.totalShares, w.index) ==
               Get(w.balances, STAKING_RESERVE)
               + Larger(PositionValue(w.totalShares, w.index), PositionValue(w.totalShares, after.index))
            && after.tally.minted + Get(w.balances, STAKING_RESERVE) ==
               w.tally.minted + Get(after.balances, STAKING_RESERVE)
            && forall k :: k != STAKING_RESERVE ==> Get(after.balances, k) == Get(w.balances, k)
  {
  }

  function Larger(a: nat, b: nat): nat {
    if a >= b then a else b
  }

  /** A funded fee leaves the founder; the pool and administration get their parts and the rest is burned. */
  lemma FeeCharges(w: World, fee: nat)
    requires 0 < fee <= Get(w.balances, FOUNDER)
    ensures var after := Step(w, ChargeFee(fee)).value;
            && Get(after.balances, FOUNDER) == Get(w.balances, FOUNDER) - fee
            && Get(after.balances, VALIDATOR_FEE_POOL) >= Get(w.balances, VALIDATOR_FEE_POOL)
            && Get(after.balances, ADMIN_FEE_WALLET) >= Get(w.balances, ADMIN_FEE_WALLET)
            && after.tally.feeBurned >= w.tally.feeBurned
            && var pool := Get(after.balances, VALIDATOR_FEE_POOL) - Get(w.balances, VALIDATOR_FEE_POOL);
               var admin := Get(after.balances, ADMIN_FEE_WALLET) - Get(w.balances, ADMIN_FEE_WALLET);
               var burned := after.tally.feeBurned - w.tally.feeBurned;
               && pool + admin + burned == fee && 10 * admin <= fee < 10 * admin + 10 && pool <= burned <= pool + 1
  {
    RoutingCredits(Debited(w.balances, FOUNDER, fee), fee);
  }

  /** A funded registration locks one bond and adds one active entry in the validator's name. */
  lemma RegisterPosts(w: World, a: Address)
    requires VALIDATOR_BOND_ATOMS <= Get(w.balances, FOUNDER)
    ensures var after := Step(w, Register(a)).value;
            && Get(after.balances, FOUNDER) + VALIDATOR_BOND_ATOMS == Get(w.balances, FOUNDER)
            && Get(after.balances, BOND_ESCROW) == Get(w.balances, BOND_ESCROW) + VALIDATOR_BOND_ATOMS
            && |after.registry| == |w.registry| + 1 && after.registry[..|w.registry|] == w.registry
            && var e := after.registry[|w.registry|];
               e.address == a && e.withdrawal == a && forall quanto :: Entitled(e, quanto)
  {
  }

  // ---- Who earns fees -----------------------------------------------------------------------------------

  lemma ShareReaches(pool: nat, payees: nat, mine: nat)
    requires mine <= payees
    ensures Share(pool, payees) * mine > 0 <==> mine > 0 && pool >= payees
  {
    if mine > 0 {
      AtLeast(pool, payees, 1);
      if Share(pool, payees) > 0 {
        assert Share(pool, payees) * mine >= 1 * mine;
      }
    }
  }

  lemma PayeesAtWithin(registry: seq<Entry>, quanto: nat, a: Address)
    ensures |PayeesAt(registry, quanto, a)| <= |Payees(registry, quanto)|
    ensures |PayeesAt(registry, quanto, a)| > 0 <==> exists i :: i in PayeesAt(registry, quanto, a)
  {
    var all, mine := Payees(registry, quanto), PayeesAt(registry, quanto, a);
    assert all == mine + (all - mine);
    if i :| i in mine {
      assert |mine| == |mine - {i}| + 1;
    }
  }

  /**
   * A distribution raises an account other than the pool exactly when there is a unit for every
   * entitled entry and one of those entries names the account; it lowers none.
   */
  lemma EarnsExactly(w: World, quanto: nat, a: Address)
    requires a != VALIDATOR_FEE_POOL
    ensures var after := Step(w, Distribute(quanto)).value;
            && Get(after.balances, a) >= Get(w.balances, a)
            && (Get(after.balances, a) > Get(w.balances, a) <==>
                  && Get(w.balances, VALIDATOR_FEE_POOL) >= |Payees(w.registry, quanto)|
                  && exists i ::
                       0 <= i < |w.registry| && w.registry[i].withdrawal == a && Entitled(w.registry[i], quanto))
  {
    PaidExactly(w.balances, w.registry, quanto, a);
    PayeesAtWithin(w.registry, quanto, a);
    var pool, n, mine := Get(w.balances, VALIDATOR_FEE_POOL), |Payees(w.registry, quanto)|,
                         |PayeesAt(w.registry, quanto, a)|;
    ShareReaches(pool, n, mine);
    ProductNatural(Share(pool, n), mine);
    if i :| 0 <= i < |w.registry| && w.registry[i].withdrawal == a && Entitled(w.registry[i], quanto) {
      assert i in PayeesAt(w.registry, quanto, a);
    }
  }

  /** Every entry that names `a` has been slashed, or none does. */
  ghost predicate AllSlashed(registry: seq<Entry>, a: Address) {
    forall i :: 0 <= i < |registry| && registry[i].withdrawal == a ==> registry[i].state == Slashed
  }

  lemma {:induction false} StaysSlashed(w: World, ops: seq<Op>, a: Address)
    requires AllSlashed(w.registry, a) && Register(a) !in ops && Run(w, ops).Some?
    ensures AllSlashed(Run(w, ops).value.registry, a)
    decreases |ops|
  {
    if ops != [] {
      StaysSlashed(w, ops[..|ops| - 1], a);
    }
  }

  /** Once all its entries are slashed, and until it registers again, no distribution pays an account. */
  lemma SlashedNeverPaid(w: World, ops: seq<Op>, quanto: nat, a: Address)
    requires AllSlashed(w.registry, a) && Register(a) !in ops && Run(w, ops).Some? && a != VALIDATOR_FEE_POOL
    ensures var before := Run(w, ops).value;
            Get(Step(before, Distribute(quanto)).value.balances, a) == Get(before.balances, a)
  {
    StaysSlashed(w, ops, a);
    EarnsExactly(Run(w, ops).value, quanto, a);
  }

  // ---- The world object -------------------------------------------------------------------------------

  datatype Check =
    | Holds
    | SupplyBroken(expected: nat, actual: nat)
    | BondNotExact(validator: Address, bond: nat)
    | BondEscrowMismatch(registrySum: nat, escrowBalance: nat)
    | AccumulatorBelowReference(aggregate: nat, reference: nat)
    | ReserveUnderfunded(reserve: nat, value: nat)

  class EconWorld {
    const accounts: Accounts
    var index: nat
    var totalShares: nat
    var positions: Amounts
    var registry: seq<Entry>
    var tally: Tally
    const rate: nat

    function Value(): World
      reads this, accounts
    {
      World(accounts.balances, index, totalShares, positions, registry, tally, rate)
    }

    constructor (founderAmount: nat, quantoRate: nat)
      ensures fresh(accounts) && Value() == Genesis(founderAmount, quantoRate)
    {
      accounts := new Accounts(map[FOUNDER := founderAmount]);
      index, totalShares, positions, registry := INDEX_SCALE, 0, map[], [];
      tally, rate := Tally(founderAmount, 0, 0, 0, 0), quantoRate;
    }

    method Debit(a: Address, amount: nat)
      requires amount <= Get(accounts.balances, a)
      modifies accounts
      ensures accounts.balances == Debited(old(accounts.balances), a, amount)
    {
      accounts.balances := accounts.balances[a := Get(accounts.balances, a) - amount];
    }

    method Stake(staker: Address, amount: nat)
      modifies this, accounts
      ensures Some(Value()) == Step(old(Value()), Op.Deposit(staker, amount))
    {
      if Get(accounts.balances, FOUNDER) < amount || amount == 0 {
        return;
      }
      Debit(FOUNDER, amount);
      accounts.Credit(STAKING_RESERVE, amount);
      var minted := SharesForDeposit(amount, index);
      totalShares := totalShares + minted;
      positions := positions[staker := Get(positions, staker) + minted];
    }

    method CloseQuanto()
      modifies this, accounts
      ensures Some(Value()) == Step(old(Value()), Op.CloseQuanto)
    {
      var oldIndex := index;
      index := AdvanceIndex(index, rate);
      var minted := EmissionForQuanto(totalShares, oldIndex, index);
      if minted > 0 {
        accounts.Credit(STAKING_RESERVE, minted);
        tally := tally.(minted := tally.minted + minted);
      }
    }

    method RouteFee(fee: nat)
      modifies this, accounts
      ensures Some(Value()) == Step(old(Value()), ChargeFee(fee))
    {
      if Get(accounts.balances, FOUNDER) < fee || fee == 0 {
        return;
      }
      Debit(FOUNDER, fee);
      var split := accounts.RouteFee(fee);
      tally := tally.(feeBurned := tally.feeBurned + split.burn);
    }

    method DistributeFees(quanto: nat) returns (reward: nat, n: nat, remainder: nat)
      modifies accounts
      ensures Some(Value()) == Step(old(Value()), Distribute(quanto))
      ensures remainder + reward * n == Get(old(accounts.balances), VALIDATOR_FEE_POOL)
    {
      reward, n, remainder := accounts.DistributeFeePool(registry, quanto);
    }

    method RegisterValidator(a: Address)
      modifies this, accounts
      ensures Some(Value()) == Step(old(Value()), Register(a))
    {
      if Get(accounts.balances, FOUNDER) < VALIDATOR_BOND_ATOMS {
        return;
      }
      Debit(FOUNDER, VALIDATOR_BOND_ATOMS);
      accounts.Credit(BOND_ESCROW, VALIDATOR_BOND_ATOMS);
      registry := registry + [NewEntry(a)];
    }

    method SlashValidator(a: Address)
      requires Step(Value(), Slash(a)).Some?
      modifies this, accounts
      ensures Some(Value()) == Step(old(Value()), Slash(a))
    {
      var i := 0;
      while i < |registry| && !Hit(registry[i], a)
        invariant i <= |registry|
        invariant forall j :: 0 <= j < i ==> !Hit(registry[j], a)
      {
        i := i + 1;
      }
      assert i == FindEscrowed(registry, a);
      if i < |registry| {
        var bond := registry[i].bond;
        registry := registry[i := registry[i].(state := Slashed)];
        Debit(BOND_ESCROW, bond);
        tally := tally.(slashed := tally.slashed + bond);
      }
    }

    /** Reports the first inexact escrowed bond, then a sum that differs from the escrow balance. */
    method CheckBondEscrow() returns (c: Check)
      ensures c == Holds <==> BondsExact(registry) && EscrowedBonds(registry) == Get(accounts.balances, BOND_ESCROW)
      ensures c.BondNotExact? <==> !BondsExact(registry)
      ensures c.Holds? || c.BondNotExact? ||
              c == BondEscrowMismatch(EscrowedBonds(registry), Get(accounts.balances, BOND_ESCROW))
    {
      var sum, i := 0, 0;
      while i < |registry|
        invariant i <= |registry| && sum == EscrowedBonds(registry[..i]) && BondsExact(registry[..i])
      {
        if InEscrow(registry[i]) {
          if registry[i].bond != VALIDATOR_BOND_ATOMS {
            return BondNotExact(registry[i].address, registry[i].bond);
          }
          sum := sum + registry[i].bond;
        }
        i := i + 1;
        assert registry[..i][..i - 1] == registry[..i - 1];
      }
      assert registry[..i] == registry;
      var balance := Get(accounts.balances, BOND_ESCROW);
      return if sum == balance then Holds else BondEscrowMismatch(sum, balance);
    }

    method CheckAll() returns (c: Check)
      ensures c == Holds <==> Invariants(Value())
    {
      var expected, actual := ExpectedTotal(tally), Total(accounts.balances);
      if actual != expected {
        return SupplyBroken(expected, actual);
      }
      c := CheckBondEscrow();
      if c != Holds {
        return;
      }
      var reserve := Get(accounts.balances, STAKING_RESERVE);
      var aggregate, reference := PositionValue(totalShares, index), HardCap.ReferenceValue(positions, index);
      if aggregate < reference {
        return AccumulatorBelowReference(aggregate, reference);
      }
      if reserve < aggregate {
        return ReserveUnderfunded(reserve, aggregate);
      }
    }
  }
}
