/** How far governance can move a parameter, and which way an algorithm's status can go. */
module Limits {
  import opened Dag
  import opened Governance
  import opened Proposals
  import opened Mandates

  function Pow2(n: nat): (p: nat)
    ensures p >= 1
  {
    if n == 0 then 1 else 2 * Pow2(n - 1)
  }

  ghost function KnobIn(b: Behavior, i: nat, k: Knob): nat
    requires i < |b.states| && Typed(b.states[i])
  {
    Read(b.states[i][PARAMS_ACCOUNT].data.params, k)
  }

  /** Event `i` executes a proposal that sets `k`. */
  ghost predicate Sets(d: Derivation, b: Behavior, i: nat, k: Knob) {
    && Fires(d, b, i) && b.events[i].call.instruction.Execute?
    && var action := ProposalAt(b.states[i], b.events[i].call.accounts[0]).action;
       !ForRegistry(action) && KnobOf(action) == k
  }

  /** How many of the first `i` events set `k`. */
  ghost function Settings(d: Derivation, b: Behavior, i: nat, k: Knob): nat {
    if i == 0 then 0 else Settings(d, b, i - 1, k) + if Sets(d, b, i - 1, k) then 1 else 0
  }

  /** The rest of the ledger leaves `k` alone. */
  ghost predicate Untouched(b: Behavior, k: Knob) {
    forall i ::
      (&& 0 <= i < |b.events| && b.events[i].Outside? && i + 1 < |b.states|
       && Typed(b.states[i]) && Typed(b.states[i + 1])) ==>
      KnobIn(b, i + 1, k) == KnobIn(b, i, k)
  }

  /** One accepted setting: inside the bounds, at most doubled or halved give or take the allowance. */
  lemma SettingBounded(params: Params, action: Action)
    requires !ForRegistry(action) && ParamsAfter(params, action).Some?
    ensures var k := KnobOf(action);
            var before, after := Read(params, k), Read(ParamsAfter(params, action).value, k);
            && Floor(k) <= after <= Cap(k)
            && after <= 2 * before + Allowance(k) && before <= 2 * after + Allowance(k)
            && (!Scales(k) ==> Distance(after, before) <= Allowance(k))
            && forall j :: j != k ==> Read(ParamsAfter(params, action).value, j) == Read(params, j)
  {
  }

  /** At most doubled and at most halved. */
  predicate Scaled(a: nat, b: nat) {
    b <= 2 * a && a <= 2 * b
  }

  predicate Near(a: nat, b: nat, gap: nat) {
    b <= a + gap && a <= b + gap
  }

  /** What may be set: inside fixed bounds, and scaled or near, or for the basis-point rates near only. */
  predicate Settable(p: Params, action: Action) {
    match action
    case SetBaseFee(v) => 180 <= v <= 1_000_000_000 && (Scaled(p.baseFee, v) || Near(p.baseFee, v, 180))
    case SetDust(v) => v <= 1_000_000_000 && (Scaled(p.dust, v) || Near(p.dust, v, 100_000))
    case SetGasPrice(v) => 1 <= v <= 1_000_000_000 && (Scaled(p.gasPrice, v) || Near(p.gasPrice, v, 10))
    case SetCommission(v) => v <= 10_000 && Near(p.commission, v, 2_000)
    case SetEmission(v) => v <= 5_000 && Near(p.emission, v, 500)
    case _ => false
  }

  /** A setting is accepted exactly when it is settable, and then the parameter takes the proposed value. */
  lemma SettingAcceptedExactly(p: Params, action: Action)
    requires !ForRegistry(action)
    ensures ParamsAfter(p, action).Some? <==> Settable(p, action)
    ensures ParamsAfter(p, action).Some? ==> Read(ParamsAfter(p, action).value, KnobOf(action)) == action.value
  {
  }

  /** What event `n` does to knob `k`. */
  lemma KnobMoves(d: Derivation, b: Behavior, n: nat, k: Knob)
    requires Lawful(d, b) && Untouched(b, k) && n < |b.events|
    ensures Typed(b.states[n]) && Typed(b.states[n + 1])
    ensures var before, after := KnobIn(b, n, k), KnobIn(b, n + 1, k);
            if Sets(d, b, n, k) then
              && Floor(k) <= after <= Cap(k)
              && after <= 2 * before + Allowance(k) && before <= 2 * after + Allowance(k)
              && (!Scales(k) ==> Distance(after, before) <= Allowance(k))
            else after == before
  {
    StaysTyped(d, b, n);
    StaysTyped(d, b, n + 1);
    assert StepAt(d, b, n);
    if Fires(d, b, n) {
      var l, c := b.states[n], b.events[n].call;
      ParamsStay(d, l, c);
      if c.instruction.Execute? {
        ExecuteEnacts(d, l, c);
        var action := ProposalAt(l, c.accounts[0]).action;
        if !ForRegistry(action) {
          SettingBounded(l[PARAMS_ACCOUNT].data.params, action);
        }
      }
    }
  }

  /** The furthest `n` settings can take a value: doubled and one allowance more, each time. */
  function Furthest(n: nat, start: nat, k: Knob): nat {
    if n == 0 then start else 2 * Furthest(n - 1, start, k) + Allowance(k)
  }

  lemma {:induction false} FurthestClosed(n: nat, start: nat, k: Knob)
    ensures Furthest(n, start, k) == Pow2(n) * start + (Pow2(n) - 1) * Allowance(k)
  {
    if n > 0 {
      FurthestClosed(n - 1, start, k);
      DoubledBound(Pow2(n - 1), start, Allowance(k));
    }
  }

  lemma DoubledBound(p: nat, start: nat, a: nat)
    requires p >= 1
    ensures 2 * (p * start + (p - 1) * a) + a == 2 * p * start + (2 * p - 1) * a
  {
    assert 2 * p * start == 2 * (p * start);
    assert (2 * p - 1) * a == 2 * ((p - 1) * a) + a;
  }

  lemma {:induction false} FurthestMono(n: nat, start: nat, more: nat, k: Knob)
    requires start <= more
    ensures Furthest(n, start, k) <= Furthest(n, more, k)
  {
    if n > 0 {
      FurthestMono(n - 1, start, more, k);
    }
  }

  lemma {:induction false} FurthestShift(n: nat, start: nat, k: Knob)
    ensures Furthest(n, 2 * start + Allowance(k), k) == Furthest(n + 1, start, k)
  {
    if n > 0 {
      FurthestShift(n - 1, start, k);
    }
  }

  ghost predicate Confined(n: nat, start: nat, v: nat, k: Knob) {
    v <= Furthest(n, start, k) && start <= Furthest(n, v, k)
  }

  lemma ConfinedStep(n: nat, start: nat, v: nat, w: nat, k: Knob)
    requires Confined(n, start, v, k) && w <= 2 * v + Allowance(k) && v <= 2 * w + Allowance(k)
    ensures Confined(n + 1, start, w, k)
  {
    FurthestMono(n, v, 2 * w + Allowance(k), k);
    FurthestShift(n, w, k);
  }

  lemma {:induction false} GrowthConfined(d: Derivation, b: Behavior, i: nat, k: Knob)
    requires Lawful(d, b) && Untouched(b, k) && i <= |b.events|
    ensures Typed(b.states[0]) && Typed(b.states[i])
    ensures var n := Settings(d, b, i, k);
            && Confined(n, KnobIn(b, 0, k), KnobIn(b, i, k), k)
            && (n > 0 ==> Floor(k) <= KnobIn(b, i, k) <= Cap(k))
  {
    StaysTyped(d, b, 0);
    StaysTyped(d, b, i);
    if i > 0 {
      GrowthConfined(d, b, i - 1, k);
      KnobMoves(d, b, i - 1, k);
      if Sets(d, b, i - 1, k) {
        ConfinedStep(Settings(d, b, i - 1, k), KnobIn(b, 0, k), KnobIn(b, i - 1, k), KnobIn(b, i, k), k);
      }
    }
  }

  /**
   * After `n` executed settings a parameter is inside its floor and cap, at most `2^n` times its start
   * plus `2^n - 1` allowances, and no further below it than the mirror image of that.
   */
  lemma GrowthBounded(d: Derivation, b: Behavior, i: nat, k: Knob)
    requires Lawful(d, b) && Untouched(b, k) && i <= |b.events|
    ensures Typed(b.states[0]) && Typed(b.states[i])
    ensures var n, start, v := Settings(d, b, i, k), KnobIn(b, 0, k), KnobIn(b, i, k);
            && v <= Pow2(n) * start + (Pow2(n) - 1) * Allowance(k)
            && start <= Pow2(n) * v + (Pow2(n) - 1) * Allowance(k)
            && (n > 0 ==> Floor(k) <= v <= Cap(k))
  {
    GrowthConfined(d, b, i, k);
    FurthestClosed(Settings(d, b, i, k), KnobIn(b, 0, k), k);
    FurthestClosed(Settings(d, b, i, k), KnobIn(b, i, k), k);
  }

  lemma OneMore(n: nat, a: nat)
    ensures (n + 1) * a == n * a + a
  {
  }

  /** The basis-point rates move by at most one allowance per executed setting. */
  lemma {:induction false} DriftBounded(d: Derivation, b: Behavior, i: nat, k: Knob)
    requires Lawful(d, b) && Untouched(b, k) && i <= |b.events| && !Scales(k)
    ensures Typed(b.states[0]) && Typed(b.states[i])
    ensures Distance(KnobIn(b, i, k), KnobIn(b, 0, k)) <= Settings(d, b, i, k) * Allowance(k)
  {
    StaysTyped(d, b, 0);
    StaysTyped(d, b, i);
    if i > 0 {
      DriftBounded(d, b, i - 1, k);
      KnobMoves(d, b, i - 1, k);
      OneMore(Settings(d, b, i - 1, k), Allowance(k));
    }
  }

  // ---- The registry -------------------------------------------------------------------------------------

  ghost function RegistryIn(b: Behavior, i: nat): seq<Algorithm>
    requires i < |b.states| && Typed(b.states[i])
  {
    b.states[i][REGISTRY_ACCOUNT].data.algorithms
  }

  function Age(s: Status): nat {
    match s
    case Active => 0
    case Deprecated(_) => 1
    case Retired => 2
  }

  ghost predicate UniqueIds(r: seq<Algorithm>) {
    forall i, j :: 0 <= i < j < |r| ==> r[i].id != r[j].id
  }

  /** Entries are never dropped, moved or rewritten, and their status never goes back. */
  ghost predicate Forward(r: seq<Algorithm>, s: seq<Algorithm>) {
    && |r| <= |s|
    && forall x :: 0 <= x < |r| ==>
         && s[x].id == r[x].id && s[x].details == r[x].details && Age(r[x].status) <= Age(s[x].status)
         && (Age(r[x].status) == Age(s[x].status) ==> s[x].status == r[x].status)
  }

  lemma ActionForward(r: seq<Algorithm>, action: Action, round: nat)
    requires ForRegistry(action) && RegistryAfter(r, action, round).Some?
    ensures var s := RegistryAfter(r, action, round).value;
            && Forward(r, s) && (UniqueIds(r) ==> UniqueIds(s))
            && forall x :: 0 <= x < |r| && s[x].status == Retired && r[x].status != Retired ==>
                 r[x].status.Deprecated? && r[x].status.retirement <= round
  {
  }

  /**
   * With unique ids: an algorithm is activated exactly when its id is new, deprecated exactly when it is
   * active, retired exactly when it is deprecated and its grace is over; nothing else changes.
   */
  lemma RegistryAcceptedExactly(r: seq<Algorithm>, action: Action, round: nat, x: nat)
    requires ForRegistry(action) && UniqueIds(r)
    ensures action.ActivateAlgorithm? ==>
              RegistryAfter(r, action, round) ==
              if exists i :: 0 <= i < |r| && r[i].id == action.algorithm.id then None else Some(r + [action.algorithm])
    ensures !action.ActivateAlgorithm? && (forall i :: 0 <= i < |r| ==> r[i].id != action.id) ==>
              RegistryAfter(r, action, round).None?
    ensures action.DeprecateAlgorithm? && x < |r| && r[x].id == action.id ==>
              RegistryAfter(r, action, round) ==
              if r[x].status == Active then Some(r[x := r[x].(status := Deprecated(action.retirement))]) else None
    ensures action.RetireAlgorithm? && x < |r| && r[x].id == action.id ==>
              RegistryAfter(r, action, round) ==
              if r[x].status.Deprecated? && r[x].status.retirement <= round
              then Some(r[x := r[x].(status := Retired)]) else None
  {
  }

  /** What event `n` does to the registry. */
  lemma RegistryMoves(d: Derivation, b: Behavior, n: nat)
    requires Lawful(d, b) && n < |b.events|
    ensures Typed(b.states[n]) && Typed(b.states[n + 1])
    ensures var r, s := RegistryIn(b, n), RegistryIn(b, n + 1);
            && Forward(r, s) && (UniqueIds(r) ==> UniqueIds(s))
            && forall x :: 0 <= x < |r| && s[x].status == Retired && r[x].status != Retired ==>
                 r[x].status.Deprecated? && Fires(d, b, n) && r[x].status.retirement <= b.events[n].call.round
  {
    StaysTyped(d, b, n);
    StaysTyped(d, b, n + 1);
    assert StepAt(d, b, n);
    if Fires(d, b, n) {
      var l, c := b.states[n], b.events[n].call;
      ParamsStay(d, l, c);
      if c.instruction.Execute? {
        ExecuteEnacts(d, l, c);
        var action := ProposalAt(l, c.accounts[0]).action;
        if ForRegistry(action) {
          ActionForward(l[REGISTRY_ACCOUNT].data.algorithms, action, c.round);
        }
      }
    }
  }

  /** A new entry is the one an executed activation names, with the status it names. */
  lemma EntriesEnterAsProposed(d: Derivation, b: Behavior, n: nat)
    requires Lawful(d, b) && n < |b.events|
    ensures Typed(b.states[n]) && Typed(b.states[n + 1])
    ensures var r, s := RegistryIn(b, n), RegistryIn(b, n + 1);
            |s| > |r| ==> exists k, a ::
              && Executes(d, b, n, k) && Holds(b.states[n], k)
              && ProposalAt(b.states[n], k).action == ActivateAlgorithm(a) && s == r + [a]
  {
    RegistryMoves(d, b, n);
    assert StepAt(d, b, n);
    if Fires(d, b, n) {
      var l, c := b.states[n], b.events[n].call;
      ParamsStay(d, l, c);
      if c.instruction.Execute? {
        ExecuteEnacts(d, l, c);
        var action := ProposalAt(l, c.accounts[0]).action;
        assert Executes(d, b, n, c.accounts[0]);
        if action.ActivateAlgorithm? {
          ActivationKeepsStatus(l[REGISTRY_ACCOUNT].data.algorithms, action.algorithm, c.round);
        }
      }
    }
  }

  /** Over any stretch of any run the registry only moves forward and ids stay unique. */
  lemma {:induction false} RegistryForward(d: Derivation, b: Behavior, i: nat, j: nat)
    requires Lawful(d, b) && i <= j <= |b.events|
    ensures Typed(b.states[i]) && Typed(b.states[j])
    ensures Forward(RegistryIn(b, i), RegistryIn(b, j))
    ensures UniqueIds(RegistryIn(b, i)) ==> UniqueIds(RegistryIn(b, j))
    decreases j
  {
    StaysTyped(d, b, i);
    if i < j {
      RegistryForward(d, b, i, j - 1);
      RegistryMoves(d, b, j - 1);
    }
  }

  /** A deprecated algorithm keeps its retirement round, and is retired only by an instruction at or after it. */
  lemma {:induction false} GraceRespected(d: Derivation, b: Behavior, i: nat, j: nat, x: nat)
    requires Lawful(d, b) && i <= j <= |b.events|
    requires Typed(b.states[i]) && x < |RegistryIn(b, i)| && RegistryIn(b, i)[x].status.Deprecated?
    ensures Typed(b.states[j]) && x < |RegistryIn(b, j)|
    ensures RegistryIn(b, j)[x].status == RegistryIn(b, i)[x].status ||
            (RegistryIn(b, j)[x].status == Retired &&
             exists e ::
               && i <= e < j && Fires(d, b, e)
               && RegistryIn(b, i)[x].status.retirement <= b.events[e].call.round)
    decreases j
  {
    if i < j {
      GraceRespected(d, b, i, j - 1, x);
      RegistryMoves(d, b, j - 1);
    }
  }
}
