/** The fee split, eligibility, and the equal distribution of the validator pool. */
module Fees {
  import opened Sums

  type Address = nat

  const FOUNDER: Address := 1
  const BOND_ESCROW: Address := 10
  const STAKING_RESERVE: Address := 11
  const VALIDATOR_FEE_POOL: Address := 12
  const ADMIN_FEE_WALLET: Address := 99

  const VALIDATOR_MIN_PARTICIPATION_BPS: nat := 9_000
  const VALIDATOR_BOND_ATOMS: nat := 500_000_000_000

  datatype FeeSplit = FeeSplit(validator: nat, burn: nat, admin: nat)

  /** 45% to validators, 45% burned, 10% to administration; the burn takes the odd unit. */
  function SplitFee(fee: nat): (s: FeeSplit)
    ensures s.validator + s.burn + s.admin == fee
    ensures s.validator <= s.burn <= s.validator + 1
    ensures 10 * s.admin <= fee < 10 * s.admin + 10
  {
    var admin := fee / 10;
    var rest := fee - admin;
    var burn := (rest + 1) / 2;
    FeeSplit(rest - burn, burn, admin)
  }

  /** Conservation, the deflationary bias and the floored tenth leave no other split. */
  lemma SplitIsUnique(fee: nat, s: FeeSplit)
    requires s.validator + s.burn + s.admin == fee
    requires s.validator <= s.burn <= s.validator + 1 && 10 * s.admin <= fee < 10 * s.admin + 10
    ensures s == SplitFee(fee)
  {
    var t := SplitFee(fee);
    assert s.admin == t.admin;
  }

  datatype BondState =
    | BondedPending | Active | Jailed | Exiting | Unbonding | Withdrawable | Slashed | Removed | Revoked

  datatype Entry = Entry(address: Address, withdrawal: Address, bond: nat, state: BondState, activation: nat,
                         credits: nat, opportunities: nat, keyExpiry: nat, keyRevoked: bool, frozenUntil: nat)

  function ParticipationBps(e: Entry): nat {
    if e.opportunities == 0 then 10_000
    else var bps := e.credits * 10_000 / e.opportunities; if bps > 10_000 then 10_000 else bps
  }

  predicate KeyDisabled(e: Entry, quanto: nat) {
    || e.keyRevoked
    || (e.keyExpiry != 0 && e.keyExpiry <= quanto)
    || (e.frozenUntil != 0 && quanto < e.frozenUntil)
  }

  predicate IsEligible(e: Entry, quanto: nat) {
    && e.state == Active
    && e.activation <= quanto
    && ParticipationBps(e) >= VALIDATOR_MIN_PARTICIPATION_BPS
    && !KeyDisabled(e, quanto)
  }

  /** Withdrawal addresses of the eligible validators, in registry order; repeats allowed. */
  function EligibleAddresses(registry: seq<Entry>, quanto: nat): seq<Address> {
    if registry == [] then []
    else
      var n := |registry| - 1;
      EligibleAddresses(registry[..n], quanto) +
      (if IsEligible(registry[n], quanto) then [registry[n].withdrawal] else [])
  }

  function Credited(m: Amounts, a: Address, amount: nat): Amounts {
    m[a := Get(m, a) + amount]
  }

  function CreditedAll(m: Amounts, addrs: seq<Address>, reward: nat): Amounts {
    if addrs == [] then m
    else Credited(CreditedAll(m, addrs[..|addrs| - 1], reward), addrs[|addrs| - 1], reward)
  }

  function Reward(m: Amounts, addrs: seq<Address>): nat {
    if addrs == [] then 0 else Get(m, VALIDATOR_FEE_POOL) / |addrs|
  }

  function Distributed(m: Amounts, addrs: seq<Address>): Amounts {
    var reward := Reward(m, addrs);
    if reward == 0 then m
    else
      PayoutFits(m, addrs);
      CreditedAll(m[VALIDATOR_FEE_POOL := Get(m, VALIDATOR_FEE_POOL) - reward * |addrs|], addrs, reward)
  }

  function Routed(m: Amounts, fee: nat): Amounts {
    var s := SplitFee(fee);
    var pooled := if s.validator > 0 then Credited(m, VALIDATOR_FEE_POOL, s.validator) else m;
    if s.admin > 0 then Credited(pooled, ADMIN_FEE_WALLET, s.admin) else pooled
  }

  lemma PayoutFits(m: Amounts, addrs: seq<Address>)
    ensures Reward(m, addrs) * |addrs| <= Get(m, VALIDATOR_FEE_POOL)
    ensures addrs != [] ==> Get(m, VALIDATOR_FEE_POOL) - Reward(m, addrs) * |addrs| < |addrs|
  {
    if addrs != [] {
      var pool, n := Get(m, VALIDATOR_FEE_POOL), |addrs|;
      assert pool == pool / n * n + pool % n;
    }
  }

  lemma CreditAdds(m: Amounts, a: Address, amount: nat)
    ensures Total(Credited(m, a, amount)) == Total(m) + amount
  {
    TotalUpdate(m, a, Get(m, a) + amount);
  }

  lemma {:induction false} CreditedAllTotal(m: Amounts, addrs: seq<Address>, reward: nat)
    ensures Total(CreditedAll(m, addrs, reward)) == Total(m) + reward * |addrs|
    decreases |addrs|
  {
    if addrs != [] {
      var n := |addrs| - 1;
      CreditedAllTotal(m, addrs[..n], reward);
      CreditAdds(CreditedAll(m, addrs[..n], reward), addrs[n], reward);
      MulSucc(reward, n);
    }
  }

  lemma MulSucc(a: nat, b: nat)
    ensures a * (b + 1) == a * b + a
  {
  }

  lemma CountSnoc(addrs: seq<Address>, k: Address)
    requires addrs != []
    ensures var n := |addrs| - 1;
            multiset(addrs)[k] == multiset(addrs[..n])[k] + if addrs[n] == k then 1 else 0
  {
    var n := |addrs| - 1;
    assert addrs == addrs[..n] + [addrs[n]];
  }

  /** Repeated addresses are paid once per occurrence. */
  lemma {:induction false} CreditedAllPays(m: Amounts, addrs: seq<Address>, reward: nat, k: Address)
    ensures Get(CreditedAll(m, addrs, reward), k) == Get(m, k) + reward * multiset(addrs)[k]
    decreases |addrs|
  {
    if addrs != [] {
      var n := |addrs| - 1;
      CreditedAllPays(m, addrs[..n], reward, k);
      CountSnoc(addrs, k);
      MulSucc(reward, multiset(addrs[..n])[k]);
    }
  }

  /**
   * Distribution is a pure transfer: every account gains one reward per listed occurrence, the pool
   * is debited what is paid, the undistributed remainder is smaller than the number of payees, and
   * total supply does not move.
   */
  lemma DistributionPays(m: Amounts, addrs: seq<Address>, k: Address)
    ensures var reward := Reward(m, addrs);
            Get(Distributed(m, addrs), k) ==
            Get(m, k) + reward * multiset(addrs)[k] - (if k == VALIDATOR_FEE_POOL then reward * |addrs| else 0)
    ensures Total(Distributed(m, addrs)) == Total(m)
    ensures addrs != [] ==> Get(m, VALIDATOR_FEE_POOL) - Reward(m, addrs) * |addrs| < |addrs|
  {
    PayoutFits(m, addrs);
    var reward := Reward(m, addrs);
    if reward > 0 {
      var pool := Get(m, VALIDATOR_FEE_POOL);
      var debited := m[VALIDATOR_FEE_POOL := pool - reward * |addrs|];
      TotalUpdate(m, VALIDATOR_FEE_POOL, pool - reward * |addrs|);
      CreditedAllPays(debited, addrs, reward, k);
      CreditedAllTotal(debited, addrs, reward);
    }
  }

  // ---- Who is paid ------------------------------------------------------------------------------------

  /** An active validator past its activation, with nine tenths participation and a usable key. */
  ghost predicate Entitled(e: Entry, quanto: nat) {
    && e.state == Active && e.activation <= quanto
    && (e.opportunities == 0 || 10 * e.credits >= 9 * e.opportunities)
    && !e.keyRevoked && (e.keyExpiry == 0 || quanto < e.keyExpiry) && (e.frozenUntil == 0 || e.frozenUntil <= quanto)
  }

  lemma AtLeast(n: nat, d: nat, q: nat)
    requires d > 0
    ensures n / d >= q <==> n >= q * d
  {
    assert n == n / d * d + n % d;
    if n / d >= q {
      assert n / d * d >= q * d;
    } else {
      assert n / d * d <= (q - 1) * d == q * d - d;
    }
  }

  lemma EligibleExactly(e: Entry, quanto: nat)
    ensures IsEligible(e, quanto) <==> Entitled(e, quanto)
  {
    if e.opportunities > 0 {
      AtLeast(e.credits * 10_000, e.opportunities, 9_000);
    }
  }

  /** The registry entries a distribution pays. */
  ghost function Payees(registry: seq<Entry>, quanto: nat): set<nat> {
    set i | 0 <= i < |registry| && Entitled(registry[i], quanto)
  }

  ghost function PayeesAt(registry: seq<Entry>, quanto: nat, a: Address): set<nat> {
    set i | 0 <= i < |registry| && Entitled(registry[i], quanto) && registry[i].withdrawal == a
  }

  ghost function Share(pool: nat, payees: nat): nat {
    if payees == 0 then 0 else pool / payees
  }

  lemma {:induction false} EligibleCounts(registry: seq<Entry>, quanto: nat, a: Address)
    ensures |EligibleAddresses(registry, quanto)| == |Payees(registry, quanto)|
    ensures multiset(EligibleAddresses(registry, quanto))[a] == |PayeesAt(registry, quanto, a)|
    decreases |registry|
  {
    if registry == [] {
      assert Payees(registry, quanto) == {} && PayeesAt(registry, quanto, a) == {};
    } else {
      var n := |registry| - 1;
      EligibleCounts(registry[..n], quanto, a);
      EligibleExactly(registry[n], quanto);
      PayeesSnoc(registry, quanto);
      PayeesAtSnoc(registry, quanto, a);
    }
  }

  lemma PayeesSnoc(registry: seq<Entry>, quanto: nat)
    requires registry != []
    ensures var n := |registry| - 1;
            |Payees(registry, quanto)| ==
            |Payees(registry[..n], quanto)| + if Entitled(registry[n], quanto) then 1 else 0
  {
    var n := |registry| - 1;
    var last := if Entitled(registry[n], quanto) then {n} else {};
    assert Payees(registry, quanto) == Payees(registry[..n], quanto) + last;
  }

  lemma PayeesAtSnoc(registry: seq<Entry>, quanto: nat, a: Address)
    requires registry != []
    ensures var n := |registry| - 1;
            |PayeesAt(registry, quanto, a)| ==
            |PayeesAt(registry[..n], quanto, a)|
            + if Entitled(registry[n], quanto) && registry[n].withdrawal == a then 1 else 0
  {
    var n := |registry| - 1;
    var last := if Entitled(registry[n], quanto) && registry[n].withdrawal == a then {n} else {};
    assert PayeesAt(registry, quanto, a) == PayeesAt(registry[..n], quanto, a) + last;
  }

  /** A distribution pays every entitled entry one equal share, and nobody else anything. */
  lemma PaidExactly(m: Amounts, registry: seq<Entry>, quanto: nat, k: Address)
    ensures var n, pool := |Payees(registry, quanto)|, Get(m, VALIDATOR_FEE_POOL);
            Get(Distributed(m, EligibleAddresses(registry, quanto)), k) ==
            Get(m, k) + Share(pool, n) * |PayeesAt(registry, quanto, k)|
            - (if k == VALIDATOR_FEE_POOL then Share(pool, n) * n else 0)
  {
    EligibleCounts(registry, quanto, k);
    DistributionPays(m, EligibleAddresses(registry, quanto), k);
  }

  lemma AllPaidExactly(m: Amounts, registry: seq<Entry>, quanto: nat)
    ensures var addrs, n := EligibleAddresses(registry, quanto), |Payees(registry, quanto)|;
            var reward := Reward(m, addrs);
            && |addrs| == n && reward == Share(Get(m, VALIDATOR_FEE_POOL), n)
            && forall k :: k != VALIDATOR_FEE_POOL ==>
                 Get(Distributed(m, addrs), k) == Get(m, k) + reward * |PayeesAt(registry, quanto, k)|
  {
    EligibleCounts(registry, quanto, 0);
    forall k: Address | k != VALIDATOR_FEE_POOL
      ensures Get(Distributed(m, EligibleAddresses(registry, quanto)), k) ==
              Get(m, k) + Reward(m, EligibleAddresses(registry, quanto)) * |PayeesAt(registry, quanto, k)|
    {
      PaidExactly(m, registry, quanto, k);
    }
  }

  /** Routing a charged fee credits the two pools their parts and nobody else; the burn leaves circulation. */
  lemma RoutingCredits(m: Amounts, fee: nat)
    ensures Total(Routed(m, fee)) == Total(m) + fee - SplitFee(fee).burn
    ensures Get(Routed(m, fee), VALIDATOR_FEE_POOL) == Get(m, VALIDATOR_FEE_POOL) + SplitFee(fee).validator
    ensures Get(Routed(m, fee), ADMIN_FEE_WALLET) == Get(m, ADMIN_FEE_WALLET) + SplitFee(fee).admin
    ensures forall k :: k != VALIDATOR_FEE_POOL && k != ADMIN_FEE_WALLET ==> Get(Routed(m, fee), k) == Get(m, k)
  {
    var s := SplitFee(fee);
    CreditAdds(m, VALIDATOR_FEE_POOL, s.validator);
    CreditAdds(Credited(m, VALIDATOR_FEE_POOL, s.validator), ADMIN_FEE_WALLET, s.admin);
    CreditAdds(m, ADMIN_FEE_WALLET, s.admin);
  }

  /** The account map these operations update in place. */
  class Accounts {
    var balances: Amounts

    constructor (initial: Amounts)
      ensures balances == initial
    {
      balances := initial;
    }

    method Credit(a: Address, amount: nat)
      modifies this
      ensures balances == Credited(old(balances), a, amount)
    {
      var current := if a in balances then balances[a] else 0;
      balances := balances[a := current + amount];
    }

    method CreditAll(addrs: seq<Address>, reward: nat)
      modifies this
      ensures balances == CreditedAll(old(balances), addrs, reward)
    {
      for i := 0 to |addrs|
        invariant balances == CreditedAll(old(balances), addrs[..i], reward)
      {
        assert addrs[..i + 1][..i] == addrs[..i];
        Credit(addrs[i], reward);
      }
      assert addrs[..|addrs|] == addrs;
    }

    method RouteFee(fee: nat) returns (split: FeeSplit)
      modifies this
      ensures split == SplitFee(fee) && balances == Routed(old(balances), fee)
    {
      split := SplitFee(fee);
      if split.validator > 0 {
        Credit(VALIDATOR_FEE_POOL, split.validator);
      }
      if split.admin > 0 {
        Credit(ADMIN_FEE_WALLET, split.admin);
      }
    }

    /** Splits the pool equally among the eligible; the remainder stays for the next quanto. */
    method DistributeFeePool(registry: seq<Entry>, quanto: nat) returns (reward: nat, n: nat, remainder: nat)
      modifies this
      ensures var addrs := EligibleAddresses(registry, quanto);
              && n == |addrs| && reward == Reward(old(balances), addrs)
              && remainder + reward * n == Get(old(balances), VALIDATOR_FEE_POOL)
              && balances == Distributed(old(balances), addrs)
      ensures n == |Payees(registry, quanto)| && reward == Share(Get(old(balances), VALIDATOR_FEE_POOL), n)
      ensures forall k :: k != VALIDATOR_FEE_POOL ==>
                Get(balances, k) == Get(old(balances), k) + reward * |PayeesAt(registry, quanto, k)|
    {
      AllPaidExactly(balances, registry, quanto);
      var eligible := EligibleAddresses(registry, quanto);
      var pool := Get(balances, VALIDATOR_FEE_POOL);
      n := |eligible|;
      if n == 0 || pool == 0 {
        return 0, n, pool;
      }
      PayoutFits(balances, eligible);
      reward := pool / n;
      var paid := reward * n;
      if reward > 0 {
        balances := balances[VALIDATOR_FEE_POOL := pool - paid];
        CreditAll(eligible, reward);
      }
      remainder := pool - paid;
    }
  }
}
