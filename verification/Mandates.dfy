/** What runs guarantee: every change is mandated, happens once, and moves no unaccounted balance. */
module Mandates {
  import opened Dag
  import opened Governance
  import opened Proposals
  import opened Sums

  ghost predicate Executes(d: Derivation, b: Behavior, i: nat, k: Address) {
    Fires(d, b, i) && b.events[i].call.instruction.Execute? && About(b.events[i].call, k)
  }

  ghost predicate Closes(d: Derivation, b: Behavior, i: nat, k: Address) {
    Fires(d, b, i) && b.events[i].call.instruction.Close? && About(b.events[i].call, k)
  }

  // ---- At most once ---------------------------------------------------------------------------------

  lemma {:induction false} ExecutedStays(d: Derivation, b: Behavior, e: nat, i: nat, k: Address)
    requires Lawful(d, b) && e < i <= |b.events| && Executes(d, b, e, k)
    ensures Spent(b.states[i], k) || (Holds(b.states[i], k) && ProposalAt(b.states[i], k).phase == Executed)
    decreases i
  {
    EventMoves(d, b, i - 1, k);
    if i - 1 > e {
      ExecutedStays(d, b, e, i - 1, k);
    }
  }

  /** A proposal executes at most once in any run. */
  lemma ExecutesOnce(d: Derivation, b: Behavior, i: nat, j: nat, k: Address)
    requires Lawful(d, b) && Executes(d, b, i, k) && i < j < |b.events|
    ensures !Executes(d, b, j, k)
  {
    ExecutedStays(d, b, i, j, k);
    EventMoves(d, b, j, k);
  }

  lemma {:induction false} ClosedStays(d: Derivation, b: Behavior, e: nat, i: nat, k: Address)
    requires Lawful(d, b) && e < i <= |b.events| && Closes(d, b, e, k)
    ensures Spent(b.states[i], k)
    decreases i
  {
    EventMoves(d, b, i - 1, k);
    if i - 1 > e {
      ClosedStays(d, b, e, i - 1, k);
    }
  }

  /** Closing is final: no later instruction about that account is ever accepted, not even a new proposal. */
  lemma NothingAfterClose(d: Derivation, b: Behavior, i: nat, j: nat, k: Address)
    requires Lawful(d, b) && Closes(d, b, i, k) && i < j < |b.events| && Fires(d, b, j)
    ensures !About(b.events[j].call, k)
  {
    ClosedStays(d, b, i, j, k);
    EventMoves(d, b, j, k);
  }

  // ---- Provenance -----------------------------------------------------------------------------------

  /**
   * Opened at `c`, decided in favour at `j` after its voting period, executed at `i` after its whole
   * time-lock, unless that would end beyond the last 64-bit round.
   */
  ghost predicate Mandated(d: Derivation, b: Behavior, c: nat, j: nat, i: nat, k: Address) {
    && c < j < i && Executes(d, b, i, k) && Unpaused(b.states[i]) && Holds(b.states[i], k)
    && var p := ProposalAt(b.states[i], k);
       && Opens(d, b, c, k, p) && Passes(d, b, j, k, p)
       && b.events[c].call.round + Rule(p.action).votingPeriod <= b.events[j].call.round
       && (b.events[j].call.round + Rule(p.action).timelock <= b.events[i].call.round ||
           b.events[j].call.round + Rule(p.action).timelock > U64_MAX)
  }

  /** The time-lock has fully elapsed exactly when its end is a 64-bit round. */
  lemma TimelockElapsed(d: Derivation, l: Ledger, c: Call)
    requires c.instruction.Execute? && Accepted(d, l, c) && c.round <= U64_MAX
    ensures Holds(l, c.accounts[0]) && ProposalAt(l, c.accounts[0]).passedRound.Some?
    ensures var p := ProposalAt(l, c.accounts[0]);
            var end := p.passedRound.value + Rule(p.action).timelock;
            end <= c.round <==> end <= U64_MAX
  {
  }

  /** At the last round a proposal passed one round earlier executes without waiting out its time-lock. */
  lemma TimelockCanSaturate(d: Derivation)
    ensures var open := NewProposal(1, 50, SetBaseFee(300), 0, 100, 0);
            var p := open.(yes := 100, phase := Passed, passedRound := Some(U64_MAX - 1));
            var l: Ledger := map[70 := Account(0, GOVERNANCE_PROGRAM, OfProposal(p)),
                                 PARAMS_ACCOUNT := Account(0, SYSTEM_PROGRAM, OfParams(Params(200, 0, 1, 0, 0, 0)))];
            var c := Call(Execute, [70, PARAMS_ACCOUNT, EMERGENCY_ACCOUNT], 50, U64_MAX);
            Accepted(d, l, c) && c.round < p.passedRound.value + Rule(p.action).timelock
  {
  }

  ghost predicate Changed(b: Behavior, i: nat, k: Address)
    requires i + 1 < |b.states| && k in b.states[i] && k in b.states[i + 1]
  {
    b.states[i + 1][k].data != b.states[i][k].data
  }

  /** The change made is the proposal's action and nothing else. */
  ghost predicate Enacts(l: Ledger, m: Ledger, action: Action, round: nat) {
    && Typed(l) && Typed(m)
    && var registry, params := l[REGISTRY_ACCOUNT].data, l[PARAMS_ACCOUNT].data;
       if ForRegistry(action) then
         && m[PARAMS_ACCOUNT].data == params
         && RegistryAfter(registry.algorithms, action, round) == Some(m[REGISTRY_ACCOUNT].data.algorithms)
       else
         && m[REGISTRY_ACCOUNT].data == registry
         && ParamsAfter(params.params, action) == Some(m[PARAMS_ACCOUNT].data.params)
  }

  lemma ExecuteEnacts(d: Derivation, l: Ledger, c: Call)
    requires Typed(l) && c.instruction.Execute? && Accepted(d, l, c)
    ensures Holds(l, c.accounts[0]) && Enacts(l, After(d, l, c), ProposalAt(l, c.accounts[0]).action, c.round)
  {
    ParamsStay(d, l, c);
  }

  lemma ExecutionMandated(d: Derivation, b: Behavior, i: nat, k: Address)
    requires Lawful(d, b) && i < |b.events| && Executes(d, b, i, k)
    ensures exists c, j :: Mandated(d, b, c, j, i, k)
  {
    EventMoves(d, b, i, k);
    EveryProposalTraced(d, b, i, k);
    var p := ProposalAt(b.states[i], k);
    var j :| 0 <= j < i && Passes(d, b, j, k, p);
    EveryProposalTraced(d, b, j, k);
    var q := ProposalAt(b.states[j], k);
    var c :| 0 <= c < j && Opens(d, b, c, k, q);
    assert Opens(d, b, c, k, p);
    assert Mandated(d, b, c, j, i, k);
  }

  /**
   * Every change an instruction makes to the algorithm registry or the economic parameters is the
   * action of one proposal, opened, decided in favour after its voting period, and executed after
   * its time-lock while governance was not paused.
   */
  lemma Provenance(d: Derivation, b: Behavior, i: nat)
    requires Lawful(d, b) && i < |b.events| && b.events[i].Governed?
    ensures Typed(b.states[i]) && Typed(b.states[i + 1])
    ensures Changed(b, i, REGISTRY_ACCOUNT) || Changed(b, i, PARAMS_ACCOUNT) ==>
              exists c, j, k :: Mandated(d, b, c, j, i, k) &&
                Enacts(b.states[i], b.states[i + 1], ProposalAt(b.states[i], k).action, b.events[i].call.round)
  {
    StaysTyped(d, b, i);
    StaysTyped(d, b, i + 1);
    assert StepAt(d, b, i);
    if Fires(d, b, i) {
      var c := b.events[i].call;
      ParamsStay(d, b.states[i], c);
      if c.instruction.Execute? {
        ExecuteEnacts(d, b.states[i], c);
        ExecutionMandated(d, b, i, c.accounts[0]);
      }
    }
  }

  /** The registry never changes any other way, whatever the rest of the ledger does. */
  lemma RegistryOnlyByGovernance(d: Derivation, b: Behavior, i: nat)
    requires Lawful(d, b) && i < |b.events|
    ensures Typed(b.states[i]) && Typed(b.states[i + 1])
    ensures Changed(b, i, REGISTRY_ACCOUNT) ==> exists c, j, k :: Mandated(d, b, c, j, i, k)
  {
    StaysTyped(d, b, i);
    StaysTyped(d, b, i + 1);
    assert StepAt(d, b, i);
    if b.events[i].Governed? {
      Provenance(d, b, i);
    }
  }

  // ---- Balances -------------------------------------------------------------------------------------

  /** A proposal that sits at its own proposer's address carries no deposit: that address was not yet funded. */
  lemma {:induction false} SelfProposedIsFree(d: Derivation, b: Behavior, i: nat, k: Address)
    requires Lawful(d, b) && i <= |b.events| && Holds(b.states[i], k) && ProposalAt(b.states[i], k).proposer == k
    ensures ProposalAt(b.states[i], k).deposit == 0
  {
    if i > 0 {
      EventMoves(d, b, i - 1, k);
      if Holds(b.states[i - 1], k) {
        SelfProposedIsFree(d, b, i - 1, k);
      }
    }
  }

  /** Event `i` closes a proposal at the burn address that still holds more than its refund. */
  ghost predicate BurnsItself(d: Derivation, b: Behavior, i: nat) {
    && Closes(d, b, i, BURN_ADDRESS) && Holds(b.states[i], BURN_ADDRESS)
    && b.states[i][BURN_ADDRESS].balance > Refund(b.states[i], BURN_ADDRESS)
  }

  /**
   * In every run an instruction conserves the total balance unless it closes a proposal that sits at
   * the burn address; so all do when no proposal address is the burn address.
   */
  lemma RunConserves(d: Derivation, b: Behavior, i: nat)
    requires Lawful(d, b) && i < |b.events| && b.events[i].Governed?
    ensures Supply(b.states[i + 1]) == Supply(b.states[i]) <==> !BurnsItself(d, b, i)
    ensures (forall a, id :: d(a, id) != BURN_ADDRESS) ==> Supply(b.states[i + 1]) == Supply(b.states[i])
  {
    assert StepAt(d, b, i);
    if Fires(d, b, i) {
      var c := b.events[i].call;
      Conservation(d, b.states[i], c);
      if c.instruction.Close? {
        var k := c.accounts[0];
        EveryProposalTraced(d, b, i, k);
        if ProposalAt(b.states[i], k).proposer == k {
          SelfProposedIsFree(d, b, i, k);
        }
      }
    }
  }

  /** Only wallets pay: no instruction is signed by a governance-owned account. */
  ghost predicate WalletsPay(b: Behavior) {
    forall i :: 0 <= i < |b.events| && i < |b.states| && b.events[i].Governed? ==>
      !Owned(b.states[i], b.events[i].call.payer)
  }

  lemma BalanceStays(d: Derivation, l: Ledger, c: Call, k: Address)
    requires Accepted(d, l, c) && Holds(l, k) && k != c.payer && Holds(After(d, l, c), k)
    ensures Balance(After(d, l, c), k) >= Balance(l, k)
  {
    if c.instruction.Create? {
      CreateCharges(d, l, c);
    } else if !c.instruction.Close? {
      OthersMoveNothing(d, l, c);
      assert Balance(After(d, l, c), k) == Get(Balances(After(d, l, c)), k);
      assert Balance(l, k) == Get(Balances(l), k);
    }
  }

  /** An open proposal's account always holds at least its deposit. */
  lemma {:induction false} DepositHeld(d: Derivation, b: Behavior, i: nat, k: Address)
    requires Lawful(d, b) && WalletsPay(b) && i <= |b.events| && Holds(b.states[i], k)
    ensures b.states[i][k].balance >= ProposalAt(b.states[i], k).deposit
  {
    if i > 0 {
      var n := i - 1;
      EventMoves(d, b, n, k);
      StaysTyped(d, b, n);
      assert StepAt(d, b, n);
      if Holds(b.states[n], k) {
        DepositHeld(d, b, n, k);
        if Fires(d, b, n) {
          BalanceStays(d, b.states[n], b.events[n].call, k);
        }
      } else {
        CreateCharges(d, b.states[n], b.events[n].call);
      }
    }
  }

  /**
   * A close settles the deposit in full and for good: the proposer gets exactly the deposit back if
   * the turnout floor was reached and nothing otherwise, and all the rest is sent to the burn address.
   */
  lemma DepositSettled(d: Derivation, b: Behavior, i: nat, k: Address)
    requires Lawful(d, b) && WalletsPay(b) && i < |b.events| && Closes(d, b, i, k)
    ensures Holds(b.states[i], k) && Spent(b.states[i + 1], k)
    ensures var p := ProposalAt(b.states[i], k);
            var refund := if ReachedFloor(p) then p.deposit else 0;
            && Balance(b.states[i + 1], k) == 0
            && forall j :: j != k ==>
                 Balance(b.states[i + 1], j) == Balance(b.states[i], j) + (if j == p.proposer then refund else 0)
                                                + (if j == BURN_ADDRESS then b.states[i][k].balance - refund else 0)
  {
    EventMoves(d, b, i, k);
    EveryProposalTraced(d, b, i, k);
    DepositHeld(d, b, i, k);
    CloseConserves(b.states[i], k);
    assert StepAt(d, b, i);
  }
}
