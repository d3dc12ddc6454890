/** Stake-weighted validator sets and the quorum arithmetic every verdict rests on. */
module Stake {

  type ValidatorId = nat

  /** A deduplicated committee: one stake per validator id. */
  type ValidatorSet = map<ValidatorId, nat>

  function StakeOf(vs: ValidatorSet, id: ValidatorId): nat {
    if id in vs then vs[id] else 0
  }

  lemma LeastExists(ids: set<nat>)
    requires ids != {}
    ensures exists m :: m in ids && forall y :: y in ids ==> m <= y
  {
    var x :| x in ids;
    if ids - {x} == {} {
      assert ids == {x};
    } else {
      LeastExists(ids - {x});
      var m :| m in ids - {x} && forall y :: y in ids - {x} ==> m <= y;
      var least := if m <= x then m else x;
      assert forall y :: y in ids ==> y == x || y in ids - {x};
      assert least in ids && forall y :: y in ids ==> least <= y;
    }
  }

  function Least(ids: set<nat>): (m: nat)
    requires ids != {}
    ensures m in ids && forall y :: y in ids ==> m <= y
  {
    LeastExists(ids);
    var m :| m in ids && forall y :: y in ids ==> m <= y;
    m
  }

  /** Total stake `vs` gives to the distinct validators of `ids`; strangers weigh nothing. */
  function StakeSum(vs: ValidatorSet, ids: set<ValidatorId>): nat {
    if ids == {} then 0
    else var x := Least(ids); StakeOf(vs, x) + StakeSum(vs, ids - {x})
  }

  function TotalStake(vs: ValidatorSet): nat {
    StakeSum(vs, vs.Keys)
  }

  /** The smallest integer strictly above two thirds of the total stake. */
  function Quorum(vs: ValidatorSet): nat {
    TotalStake(vs) * 2 / 3 + 1
  }

  lemma AscendingStep(ids: set<nat>, x: nat, rest: seq<nat>)
    requires x in ids && (forall y :: y in rest <==> y in ids - {x}) && (forall y :: y in ids ==> x <= y)
    requires forall i, j :: 0 <= i < j < |rest| ==> rest[i] < rest[j]
    ensures forall y :: y in [x] + rest <==> y in ids
    ensures var s := [x] + rest; forall i, j :: 0 <= i < j < |s| ==> s[i] < s[j]
  {
    forall i | 0 <= i < |rest| ensures x < rest[i] {
      assert rest[i] in rest;
    }
  }

  /** Ascending list of the members of a set; the basis of leader election. */
  function Ascending(ids: set<nat>): (s: seq<nat>)
    ensures |s| == |ids|
    ensures forall x :: x in s <==> x in ids
    ensures forall i, j :: 0 <= i < j < |s| ==> s[i] < s[j]
  {
    if ids == {} then []
    else
      var x := Least(ids);
      var rest := Ascending(ids - {x});
      AscendingStep(ids, x, rest);
      [x] + rest
  }

  lemma {:induction false} StakeSumExtract(vs: ValidatorSet, ids: set<ValidatorId>, x: ValidatorId)
    requires x in ids
    ensures StakeSum(vs, ids) == StakeOf(vs, x) + StakeSum(vs, ids - {x})
  {
    var l := Least(ids);
    if l != x {
      StakeSumExtract(vs, ids - {l}, x);
      assert ids - {l} - {x} == ids - {x} - {l};
      StakeSumExtract(vs, ids - {x}, l);
    }
  }

  lemma {:induction false} StakeSumDisjoint(vs: ValidatorSet, a: set<ValidatorId>, b: set<ValidatorId>)
    requires a !! b
    ensures StakeSum(vs, a + b) == StakeSum(vs, a) + StakeSum(vs, b)
  {
    if a == {} {
      assert a + b == b;
    } else {
      var x := Least(a);
      StakeSumExtract(vs, a + b, x);
      assert a + b - {x} == (a - {x}) + b;
      StakeSumDisjoint(vs, a - {x}, b);
    }
  }

  /** Every positive-stake member of `a` lies in `b`: then `a` weighs no more than `b`. */
  lemma {:induction false} StakeSumCovered(vs: ValidatorSet, a: set<ValidatorId>, b: set<ValidatorId>)
    requires forall x :: x in a ==> x in b || StakeOf(vs, x) == 0
    ensures StakeSum(vs, a) <= StakeSum(vs, b)
  {
    if a != {} {
      var x := Least(a);
      if x in b {
        StakeSumExtract(vs, b, x);
        StakeSumCovered(vs, a - {x}, b - {x});
      } else {
        StakeSumCovered(vs, a - {x}, b);
      }
    }
  }

  /** The quorum is the least stake that exceeds two thirds of the total. */
  lemma QuorumLeast(vs: ValidatorSet)
    ensures forall stake: nat :: stake >= Quorum(vs) <==> 3 * stake > 2 * TotalStake(vs)
  {
  }

  /** The total adds up the members' own stakes, one by one. */
  lemma TotalAdds(vs: ValidatorSet, id: ValidatorId, stake: nat)
    requires id !in vs
    ensures TotalStake(map[]) == 0 && TotalStake(vs[id := stake]) == TotalStake(vs) + stake
  {
    var more := vs[id := stake];
    StakeSumExtract(more, more.Keys, id);
    assert more.Keys - {id} == vs.Keys;
    SameStakes(vs, more, vs.Keys);
  }

  lemma {:induction false} SameStakes(vs: ValidatorSet, more: ValidatorSet, ids: set<ValidatorId>)
    requires forall x :: x in ids ==> StakeOf(more, x) == StakeOf(vs, x)
    ensures StakeSum(more, ids) == StakeSum(vs, ids)
  {
    if ids != {} {
      SameStakes(vs, more, ids - {Least(ids)});
    }
  }

  /** Whoever stays silent, the rest is a quorum exactly when the silent hold less than a third. */
  lemma MinorityExactly(vs: ValidatorSet, silent: set<ValidatorId>)
    requires silent <= vs.Keys
    ensures StakeSum(vs, vs.Keys - silent) >= Quorum(vs) <==> 3 * StakeSum(vs, silent) < TotalStake(vs)
  {
    StakeSumDisjoint(vs, vs.Keys - silent, silent);
    assert vs.Keys - silent + silent == vs.Keys;
    QuorumLeast(vs);
  }

  /** Two quorums share more than a third of the stake: `2 * quorum - total > total / 3`. */
  lemma QuorumsIntersect(vs: ValidatorSet, a: set<ValidatorId>, b: set<ValidatorId>)
    requires a <= vs.Keys && b <= vs.Keys
    requires StakeSum(vs, a) >= Quorum(vs) && StakeSum(vs, b) >= Quorum(vs)
    ensures StakeSum(vs, a * b) >= 2 * Quorum(vs) - TotalStake(vs)
    ensures 3 * (2 * Quorum(vs) - TotalStake(vs)) > TotalStake(vs)
  {
    StakeSumDisjoint(vs, a - b, a * b);
    assert (a - b) + a * b == a;
    StakeSumDisjoint(vs, a - b, b);
    StakeSumCovered(vs, (a - b) + b, vs.Keys);
  }
}
