/** Totals of natural-valued maps: account balances and share positions. */
module Sums {
  import opened Stake

  type Amounts = map<nat, nat>

  function Get(m: Amounts, k: nat): nat {
    if k in m then m[k] else 0
  }

  function Total(m: Amounts): nat {
    StakeSum(m, m.Keys)
  }

  lemma {:induction false} SumOver(m: Amounts, n: Amounts, ks: set<nat>)
    requires forall k :: k in ks ==> Get(m, k) == Get(n, k)
    ensures StakeSum(m, ks) == StakeSum(n, ks)
  {
    if ks != {} {
      SumOver(m, n, ks - {Least(ks)});
    }
  }

  /** Setting one entry changes the total by exactly the difference. */
  lemma TotalUpdate(m: Amounts, k: nat, v: nat)
    ensures Total(m[k := v]) + Get(m, k) == Total(m) + v
  {
    var n := m[k := v];
    var rest := m.Keys - {k};
    StakeSumExtract(n, n.Keys, k);
    assert n.Keys - {k} == rest;
    SumOver(m, n, rest);
    if k in m {
      StakeSumExtract(m, m.Keys, k);
    } else {
      assert rest == m.Keys;
    }
  }
}
