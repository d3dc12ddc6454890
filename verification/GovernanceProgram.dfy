/** The governance program: instructions that check, then update the account map in place. */
module GovernanceProgram {
  import opened Dag
  import opened Governance

  datatype Failure = ProgramError | Unauthorized | AccountNotFound(key: Address) | Halted

  datatype Outcome = Done | Failed(failure: Failure)

  method ApplyRegistryAction(registry: seq<Algorithm>, action: Action, round: nat) returns (ok: bool,
                             after: seq<Algorithm>)
    requires ForRegistry(action)
    ensures ok <==> RegistryAfter(registry, action, round).Some?
    ensures ok ==> Some(after) == RegistryAfter(registry, action, round)
  {
    after := registry;
    var id := if action.ActivateAlgorithm? then action.algorithm.id else action.id;
    var i := 0;
    while i < |registry| && registry[i].id != id
      invariant i <= |registry| && forall j :: 0 <= j < i ==> registry[j].id != id
    {
      i := i + 1;
    }
    assert i == FindAlgorithm(registry, id);
    match action {
      case ActivateAlgorithm(a) =>
        if i < |registry| {
          return false, registry;
        }
        after := registry + [a];
      case DeprecateAlgorithm(_, retirement) =>
        if i == |registry| || registry[i].status != Active {
          return false, registry;
        }
        after := registry[i := registry[i].(status := Deprecated(retirement))];
      case RetireAlgorithm(_) =>
        if i == |registry| {
          return false, registry;
        }
        match registry[i].status {
          case Deprecated(retirement) =>
            if round < retirement {
              return false, registry;
            }
            after := registry[i := registry[i].(status := Retired)];
          case _ => return false, registry;
        }
    }
    ok := true;
  }

  method ApplyEconomicAction(params: Params, action: Action) returns (ok: bool, after: Params)
    requires !ForRegistry(action)
    ensures ok <==> ParamsAfter(params, action).Some?
    ensures ok ==> Some(after) == ParamsAfter(params, action)
  {
    ok, after := false, params;
    match action {
      case SetBaseFee(v) =>
        if v < 180 || v > 1_000_000_000 || !WithinLimit(params.baseFee, v, BaseFee) {
          return;
        }
        after := params.(baseFee := v);
      case SetDust(v) =>
        if v > 1_000_000_000 || !WithinLimit(params.dust, v, Dust) {
          return;
        }
        after := params.(dust := v);
      case SetGasPrice(v) =>
        if v == 0 || v > 1_000_000_000 || !WithinLimit(params.gasPrice, v, GasPrice) {
          return;
        }
        after := params.(gasPrice := v);
      case SetCommission(v) =>
        if v > 10_000 || Distance(v, params.commission) > 2_000 {
          return;
        }
        after := params.(commission := v);
      case SetEmission(v) =>
        if v > 5_000 || Distance(v, params.emission) > 500 {
          return;
        }
        after := params.(emission := v);
    }
    ok := true;
  }

  /** On failure the caller discards the working set, so nothing is promised about it. */
  class Program {
    var accounts: Ledger
    const derive: Derivation

    constructor (initial: Ledger, derivation: Derivation)
      ensures accounts == initial && derive == derivation
    {
      accounts, derive := initial, derivation;
    }

    method CreateProposal(c: Call) returns (r: Outcome)
      requires c.instruction.Create?
      modifies this`accounts
      ensures r.Done? <==> Accepted(derive, old(accounts), c)
      ensures r.Done? ==> accounts == After(derive, old(accounts), c)
    {
      if |c.accounts| < 4 || c.accounts[2] != STAKING_STATS || c.accounts[3] != PARAMS_ACCOUNT {
        return Failed(ProgramError);
      }
      var proposer, k := c.accounts[0], c.accounts[1];
      if proposer != c.payer {
        return Failed(Unauthorized);
      }
      if k != derive(proposer, c.instruction.id) || k in accounts {
        return Failed(ProgramError);
      }
      if STAKING_STATS !in accounts || PARAMS_ACCOUNT !in accounts {
        return Failed(AccountNotFound(if STAKING_STATS !in accounts then STAKING_STATS else PARAMS_ACCOUNT));
      }
      if !accounts[STAKING_STATS].data.OfStats? || !accounts[PARAMS_ACCOUNT].data.OfParams? {
        return Failed(ProgramError);
      }
      var snapshot, deposit := accounts[STAKING_STATS].data.totalStaked, accounts[PARAMS_ACCOUNT].data.params.deposit;
      if deposit > 0 {
        if proposer !in accounts {
          return Failed(AccountNotFound(proposer));
        }
        if accounts[proposer].balance < deposit {
          return Failed(ProgramError);
        }
        accounts := accounts[proposer := accounts[proposer].(balance := accounts[proposer].balance - deposit)];
      }
      if c.round + Rule(c.instruction.action).votingPeriod > U64_MAX {
        return Failed(Halted);
      }
      var p := NewProposal(c.instruction.id, proposer, c.instruction.action, c.round, snapshot, deposit);
      accounts := accounts[k := Account(deposit, GOVERNANCE_PROGRAM, OfProposal(p))];
      return Done;
    }

    method ReadProposal(k: Address) returns (found: bool, p: Proposal, f: Failure)
      ensures found <==> Holds(accounts, k)
      ensures found ==> p == ProposalAt(accounts, k)
    {
      p := NewProposal(0, 0, SetDust(0), 0, 0, 0);
      if k !in accounts {
        return false, p, AccountNotFound(k);
      }
      if accounts[k].owner != GOVERNANCE_PROGRAM {
        return false, p, Unauthorized;
      }
      if !accounts[k].data.OfProposal? {
        return false, p, ProgramError;
      }
      return true, accounts[k].data.proposal, ProgramError;
    }

    method CastVote(c: Call) returns (r: Outcome)
      requires c.instruction.Vote?
      modifies this`accounts
      ensures r.Done? <==> Accepted(derive, old(accounts), c)
      ensures r.Done? ==> accounts == After(derive, old(accounts), c)
    {
      if |c.accounts| < 2 {
        return Failed(ProgramError);
      }
      var k, v := c.accounts[0], c.accounts[1];
      if v !in accounts {
        return Failed(AccountNotFound(v));
      }
      if accounts[v].owner != STAKING_PROGRAM {
        return Failed(Unauthorized);
      }
      if !accounts[v].data.OfPosition? {
        return Failed(ProgramError);
      }
      var s := accounts[v].data.position;
      if s.owner != c.payer {
        return Failed(Unauthorized);
      }
      if s.amount == 0 {
        return Failed(ProgramError);
      }
      var found, p, f := ReadProposal(k);
      if !found {
        return Failed(f);
      }
      if p.phase != Voting || c.round >= p.votingEnds || s.created > p.created || |p.voters| >= MAX_PROPOSAL_VOTES {
        return Failed(ProgramError);
      }
      if v in p.voters {
        return Failed(ProgramError);
      }
      match c.instruction.choice {
        case Yes => p := p.(yes := SatAdd(p.yes, s.amount));
        case No => p := p.(no := SatAdd(p.no, s.amount));
        case Abstain => p := p.(abstain := SatAdd(p.abstain, s.amount));
      }
      p := p.(voters := p.voters + [v]);
      accounts := accounts[k := accounts[k].(data := OfProposal(p))];
      var lock := SatAdd(p.votingEnds, Rule(p.action).timelock);
      if lock > s.lockedUntil {
        s := s.(lockedUntil := lock);
      }
      accounts := accounts[v := accounts[v].(data := OfPosition(s))];
      return Done;
    }

    method FinalizeProposal(c: Call) returns (r: Outcome)
      requires c.instruction.Finalize?
      modifies this`accounts
      ensures r.Done? <==> Accepted(derive, old(accounts), c)
      ensures r.Done? ==> accounts == After(derive, old(accounts), c)
    {
      if |c.accounts| < 2 || c.accounts[1] != STAKING_STATS {
        return Failed(ProgramError);
      }
      var found, p, f := ReadProposal(c.accounts[0]);
      if !found {
        return Failed(f);
      }
      if p.phase != Voting || c.round < p.votingEnds {
        return Failed(ProgramError);
      }
      var outcome := Evaluate(p);
      p := p.(phase := outcome);
      if outcome == Passed {
        p := p.(passedRound := Some(c.round));
      }
      accounts := accounts[c.accounts[0] := accounts[c.accounts[0]].(data := OfProposal(p))];
      return Done;
    }

    /** Applies an action to the one account its kind may touch. */
    method ApplyAction(target: Address, action: Action, round: nat) returns (r: Outcome)
      modifies this`accounts
      ensures r.Done? <==> ActionApplies(old(accounts), target, action, round)
      ensures r.Done? ==> accounts == Acted(old(accounts), target, action, round)
    {
      if target != (if ForRegistry(action) then REGISTRY_ACCOUNT else PARAMS_ACCOUNT) {
        return Failed(ProgramError);
      }
      if target !in accounts {
        return Failed(AccountNotFound(target));
      }
      if ForRegistry(action) {
        if !accounts[target].data.OfRegistry? {
          return Failed(ProgramError);
        }
        var ok, registry := ApplyRegistryAction(accounts[target].data.algorithms, action, round);
        if !ok {
          return Failed(ProgramError);
        }
        accounts := accounts[target := accounts[target].(data := OfRegistry(registry))];
      } else {
        if !accounts[target].data.OfParams? {
          return Failed(ProgramError);
        }
        var ok, params := ApplyEconomicAction(accounts[target].data.params, action);
        if !ok {
          return Failed(ProgramError);
        }
        accounts := accounts[target := accounts[target].(data := OfParams(params))];
      }
      return Done;
    }

    method ExecuteProposal(c: Call) returns (r: Outcome)
      requires c.instruction.Execute?
      modifies this`accounts
      ensures r.Done? <==> Accepted(derive, old(accounts), c)
      ensures r.Done? ==> accounts == After(derive, old(accounts), c)
    {
      if |c.accounts| < 3 || c.accounts[2] != EMERGENCY_ACCOUNT {
        return Failed(ProgramError);
      }
      if EMERGENCY_ACCOUNT in accounts {
        if !accounts[EMERGENCY_ACCOUNT].data.OfEmergency? {
          return Failed(Halted);
        }
        if accounts[EMERGENCY_ACCOUNT].data.emergency.paused {
          return Failed(ProgramError);
        }
      }
      var k := c.accounts[0];
      var found, p, f := ReadProposal(k);
      if !found {
        return Failed(f);
      }
      if p.phase != Passed || p.passedRound.None? {
        return Failed(ProgramError);
      }
      if c.round < SatAdd(p.passedRound.value, Rule(p.action).timelock) {
        return Failed(ProgramError);
      }
      r := ApplyAction(c.accounts[1], p.action, c.round);
      if r.Failed? {
        return;
      }
      accounts := accounts[k := accounts[k].(data := OfProposal(p.(phase := Executed)))];
    }

    method ApproveEmergency(c: Call) returns (r: Outcome)
      requires c.instruction.Approve?
      modifies this`accounts
      ensures r.Done? <==> Accepted(derive, old(accounts), c)
      ensures r.Done? ==> accounts == After(derive, old(accounts), c)
    {
      if |c.accounts| < 1 || c.accounts[0] != EMERGENCY_ACCOUNT {
        return Failed(ProgramError);
      }
      if EMERGENCY_ACCOUNT !in accounts {
        return Failed(AccountNotFound(EMERGENCY_ACCOUNT));
      }
      if !accounts[EMERGENCY_ACCOUNT].data.OfEmergency? {
        return Failed(ProgramError);
      }
      var e := accounts[EMERGENCY_ACCOUNT].data.emergency;
      if e.guardians == [] || e.threshold == 0 {
        return Failed(ProgramError);
      }
      if c.payer !in e.guardians {
        return Failed(Unauthorized);
      }
      if e.paused == c.instruction.wantPaused {
        return Failed(ProgramError);
      }
      if c.instruction.wantPaused {
        e := e.(unpauseApprovals := []);
        if c.payer !in e.pauseApprovals {
          e := e.(pauseApprovals := e.pauseApprovals + [c.payer]);
        }
        if |e.pauseApprovals| >= e.threshold {
          e := e.(paused := true, pauseApprovals := []);
        }
      } else {
        e := e.(pauseApprovals := []);
        if c.payer !in e.unpauseApprovals {
          e := e.(unpauseApprovals := e.unpauseApprovals + [c.payer]);
        }
        if |e.unpauseApprovals| >= e.threshold {
          e := e.(paused := false, unpauseApprovals := []);
        }
      }
      accounts := accounts[EMERGENCY_ACCOUNT := accounts[EMERGENCY_ACCOUNT].(data := OfEmergency(e))];
      return Done;
    }

    /** Checked credit, opening a wallet when the account is missing. */
    method Credit(k: Address, amount: nat) returns (ok: bool)
      modifies this`accounts
      ensures ok <==> Balance(old(accounts), k) + amount <= U64_MAX || amount == 0
      ensures ok ==> accounts == Paid(old(accounts), k, amount)
    {
      if amount == 0 {
        return true;
      }
      if k !in accounts {
        accounts := accounts[k := Account(0, SYSTEM_PROGRAM, Blank)];
      }
      if accounts[k].balance + amount > U64_MAX {
        return false;
      }
      accounts := accounts[k := accounts[k].(balance := accounts[k].balance + amount)];
      return true;
    }

    /** Refunds what is due, burns the rest and clears the record. */
    method Settle(k: Address) returns (ok: bool)
      requires Holds(accounts, k)
      modifies this`accounts
      ensures ok <==> CreditsFit(old(accounts), k)
      ensures ok ==> accounts == ClosedOut(old(accounts), k)
    {
      var p, held := accounts[k].data.proposal, accounts[k].balance;
      var refund := 0;
      if p.deposit > 0 && ReachedFloor(p) {
        refund := if p.deposit < held then p.deposit else held;
      }
      ok := Credit(p.proposer, refund);
      if ok {
        ok := Credit(BURN_ADDRESS, held - refund);
      }
      if ok {
        accounts := accounts[k := accounts[k].(balance := 0, data := Blank)];
      }
    }

    method CloseProposal(c: Call) returns (r: Outcome)
      requires c.instruction.Close?
      modifies this`accounts
      ensures r.Done? <==> Accepted(derive, old(accounts), c)
      ensures r.Done? ==> accounts == After(derive, old(accounts), c)
    {
      if |c.accounts| < 3 || c.accounts[2] != BURN_ADDRESS {
        return Failed(ProgramError);
      }
      var k := c.accounts[0];
      var found, p, f := ReadProposal(k);
      if !found {
        return Failed(f);
      }
      if p.phase == Voting || p.phase == Passed || c.round < SatAdd(p.votingEnds, PROPOSAL_RETENTION_ROUNDS) {
        return Failed(ProgramError);
      }
      if c.accounts[1] != p.proposer {
        return Failed(ProgramError);
      }
      var settled := Settle(k);
      return if settled then Done else Failed(ProgramError);
    }

    method Process(c: Call) returns (r: Outcome)
      modifies this`accounts
      ensures r.Done? <==> Accepted(derive, old(accounts), c)
      ensures r.Done? ==> accounts == After(derive, old(accounts), c)
    {
      match c.instruction {
        case Create(_, _) => r := CreateProposal(c);
        case Vote(_) => r := CastVote(c);
        case Finalize => r := FinalizeProposal(c);
        case Execute => r := ExecuteProposal(c);
        case Approve(_) => r := ApproveEmergency(c);
        case Close => r := CloseProposal(c);
      }
    }
  }
}
