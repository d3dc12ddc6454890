/** Runs of the governance program, interleaved with whatever the rest of the ledger does. */
module Proposals {
  import opened Dag
  import opened Governance

  datatype Event = Governed(call: Call) | Outside

  datatype Behavior = Behavior(states: seq<Ledger>, events: seq<Event>)

  predicate Owned(l: Ledger, k: Address) {
    k in l && l[k].owner == GOVERNANCE_PROGRAM
  }

  /** A closed proposal: still governance-owned, its record gone. */
  predicate Spent(l: Ledger, k: Address) {
    Owned(l, k) && l[k].data == Blank
  }

  ghost predicate SameData(l: Ledger, m: Ledger, k: Address) {
    (k in l <==> k in m) && (k in l ==> m[k].data == l[k].data)
  }

  /**
   * What other programs may do: anything, except touch governance-owned accounts (beyond paying
   * into them), make accounts governance-owned, or write the registry and emergency singletons.
   * The parameters may move too, because the ledger adjusts the base fee by itself.
   */
  ghost predicate Harmless(l: Ledger, m: Ledger) {
    && (forall k :: k in l && Owned(l, k) && k != PARAMS_ACCOUNT ==>
          Owned(m, k) && m[k].data == l[k].data && m[k].balance >= l[k].balance)
    && (forall k :: k in m && Owned(m, k) ==> Owned(l, k))
    && SameData(l, m, REGISTRY_ACCOUNT) && SameData(l, m, EMERGENCY_ACCOUNT)
    && PARAMS_ACCOUNT in m && m[PARAMS_ACCOUNT].data.OfParams?
  }

  ghost predicate Fires(d: Derivation, b: Behavior, i: nat) {
    i < |b.events| && i < |b.states| && b.events[i].Governed? && Accepted(d, b.states[i], b.events[i].call)
  }

  /** A rejected instruction changes nothing: its working set is discarded. */
  ghost predicate StepAt(d: Derivation, b: Behavior, i: nat)
    requires i < |b.events| && |b.states| == |b.events| + 1
  {
    if Fires(d, b, i) then b.states[i + 1] == After(d, b.states[i], b.events[i].call)
    else if b.events[i].Governed? then b.states[i + 1] == b.states[i]
    else Harmless(b.states[i], b.states[i + 1])
  }

  ghost predicate Start(l: Ledger) {
    && (forall k :: !Holds(l, k))
    && REGISTRY_ACCOUNT in l && l[REGISTRY_ACCOUNT].data.OfRegistry?
    && PARAMS_ACCOUNT in l && l[PARAMS_ACCOUNT].data.OfParams?
  }

  ghost predicate Lawful(d: Derivation, b: Behavior) {
    && |b.states| == |b.events| + 1
    && Start(b.states[0])
    && forall i :: 0 <= i < |b.events| ==> StepAt(d, b, i)
  }

  /** The proposal account an instruction is about; approvals are about none. */
  predicate About(c: Call, k: Address) {
    match c.instruction
    case Create(_, _) => |c.accounts| > 1 && c.accounts[1] == k
    case Approve(_) => false
    case _ => |c.accounts| > 0 && c.accounts[0] == k
  }

  // ---- One instruction, one proposal account ----------------------------------------------------------

  /** An instruction about another account leaves a proposal, open or spent, as it was. */
  lemma OthersKeep(d: Derivation, l: Ledger, c: Call, k: Address)
    requires Accepted(d, l, c) && !About(c, k)
    ensures var m := After(d, l, c);
            && (Holds(l, k) || Holds(m, k) ==> Holds(l, k) && Holds(m, k) && ProposalAt(m, k) == ProposalAt(l, k))
            && (Spent(l, k) ==> Spent(m, k))
            && (k in l ==> k in m && m[k].owner == l[k].owner)
  {
  }

  lemma SubjectCreated(d: Derivation, l: Ledger, c: Call)
    requires c.instruction.Create? && Accepted(d, l, c)
    ensures var k, m := c.accounts[1], After(d, l, c);
            && k !in l && k == d(c.payer, c.instruction.id) && Holds(m, k)
            && ProposalAt(m, k) == NewProposal(c.instruction.id, c.payer, c.instruction.action, c.round,
                                               l[STAKING_STATS].data.totalStaked, l[PARAMS_ACCOUNT].data.params.deposit)
  {
  }

  /** What an instruction about an existing proposal makes of it. */
  function Turned(l: Ledger, c: Call, p: Proposal): Proposal {
    match c.instruction
    case Vote(choice) =>
      if |c.accounts| > 1 && c.accounts[1] in l && l[c.accounts[1]].data.OfPosition?
      then Recorded(p, c.accounts[1], choice, l[c.accounts[1]].data.position.amount) else p
    case Finalize => Decided(p, c.round)
    case Execute => p.(phase := Executed)
    case _ => p
  }

  lemma SubjectTurned(d: Derivation, l: Ledger, c: Call)
    requires Accepted(d, l, c) && (c.instruction.Vote? || c.instruction.Finalize? || c.instruction.Execute?)
    ensures var k, m := c.accounts[0], After(d, l, c);
            Holds(l, k) && Holds(m, k) && ProposalAt(m, k) == Turned(l, c, ProposalAt(l, k))
  {
  }

  lemma SubjectClosed(d: Derivation, l: Ledger, c: Call)
    requires c.instruction.Close? && Accepted(d, l, c)
    ensures Holds(l, c.accounts[0]) && Spent(After(d, l, c), c.accounts[0])
  {
  }

  lemma HarmlessKeeps(l: Ledger, m: Ledger, k: Address)
    requires Harmless(l, m) && (Holds(l, k) || Holds(m, k) || Spent(l, k))
    requires PARAMS_ACCOUNT in l && l[PARAMS_ACCOUNT].data.OfParams?
    ensures Holds(l, k) == Holds(m, k) && Spent(l, k) == Spent(m, k)
    ensures Holds(l, k) ==> ProposalAt(m, k) == ProposalAt(l, k)
  {
  }

  lemma ParamsStay(d: Derivation, l: Ledger, c: Call)
    requires Accepted(d, l, c)
    requires PARAMS_ACCOUNT in l && l[PARAMS_ACCOUNT].data.OfParams?
    requires REGISTRY_ACCOUNT in l && l[REGISTRY_ACCOUNT].data.OfRegistry?
    ensures var m := After(d, l, c);
            && PARAMS_ACCOUNT in m && m[PARAMS_ACCOUNT].data.OfParams?
            && REGISTRY_ACCOUNT in m && m[REGISTRY_ACCOUNT].data.OfRegistry?
            && (!c.instruction.Execute? ==>
                  && m[PARAMS_ACCOUNT].data == l[PARAMS_ACCOUNT].data
                  && m[REGISTRY_ACCOUNT].data == l[REGISTRY_ACCOUNT].data)
  {
  }

  // ---- Runs: where a proposal's state comes from ----------------------------------------------------------

  ghost predicate Typed(l: Ledger) {
    && PARAMS_ACCOUNT in l && l[PARAMS_ACCOUNT].data.OfParams?
    && REGISTRY_ACCOUNT in l && l[REGISTRY_ACCOUNT].data.OfRegistry?
  }

  lemma {:induction false} StaysTyped(d: Derivation, b: Behavior, i: nat)
    requires Lawful(d, b) && i <= |b.events|
    ensures Typed(b.states[i])
  {
    if i > 0 {
      StaysTyped(d, b, i - 1);
      assert StepAt(d, b, i - 1);
      if Fires(d, b, i - 1) {
        ParamsStay(d, b.states[i - 1], b.events[i - 1].call);
      }
    }
  }

  ghost predicate Kept(l: Ledger, m: Ledger, k: Address) {
    && (Holds(l, k) || Holds(m, k) ==> Holds(l, k) && Holds(m, k) && ProposalAt(m, k) == ProposalAt(l, k))
    && (Spent(l, k) ==> Spent(m, k))
  }

  ghost predicate Born(d: Derivation, l: Ledger, m: Ledger, c: Call, k: Address) {
    && c.instruction.Create? && k !in l && k == d(c.payer, c.instruction.id) && Holds(m, k)
    && STAKING_STATS in l && l[STAKING_STATS].data.OfStats?
    && PARAMS_ACCOUNT in l && l[PARAMS_ACCOUNT].data.OfParams?
    && ProposalAt(m, k) == NewProposal(c.instruction.id, c.payer, c.instruction.action, c.round,
                                       l[STAKING_STATS].data.totalStaked, l[PARAMS_ACCOUNT].data.params.deposit)
  }

  /** The phase an instruction needs its proposal in. */
  ghost predicate InPhase(l: Ledger, c: Call, p: Proposal) {
    match c.instruction
    case Vote(_) => p.phase == Voting && c.round < p.votingEnds
    case Finalize => p.phase == Voting && p.votingEnds <= c.round
    case Execute =>
      && p.phase == Passed && p.passedRound.Some? && Unpaused(l)
      && SatAdd(p.passedRound.value, Rule(p.action).timelock) <= c.round
    case Close => p.phase == Rejected || p.phase == Executed
    case _ => false
  }

  /** Everything event `i` can mean for proposal account `k`. */
  ghost predicate Moves(d: Derivation, b: Behavior, i: nat, k: Address)
    requires i < |b.events| && |b.states| == |b.events| + 1
  {
    var l, m := b.states[i], b.states[i + 1];
    if Fires(d, b, i) && About(b.events[i].call, k) then
      var c := b.events[i].call;
      if c.instruction.Create? then Born(d, l, m, c, k)
      else
        && Holds(l, k) && InPhase(l, c, ProposalAt(l, k))
        && if c.instruction.Close? then Spent(m, k)
           else Holds(m, k) && ProposalAt(m, k) == Turned(l, c, ProposalAt(l, k))
    else Kept(l, m, k)
  }

  lemma FiringMoves(d: Derivation, b: Behavior, i: nat, k: Address)
    requires i < |b.events| && |b.states| == |b.events| + 1
    requires Fires(d, b, i) && StepAt(d, b, i)
    ensures Moves(d, b, i, k)
  {
    var l, c := b.states[i], b.events[i].call;
    if About(c, k) {
      match c.instruction {
        case Create(_, _) => SubjectCreated(d, l, c);
        case Close => SubjectClosed(d, l, c);
        case _ => SubjectTurned(d, l, c);
      }
    } else {
      OthersKeep(d, l, c, k);
    }
  }

  lemma EventMoves(d: Derivation, b: Behavior, i: nat, k: Address)
    requires Lawful(d, b) && i < |b.events|
    ensures Moves(d, b, i, k)
  {
    assert StepAt(d, b, i);
    if Fires(d, b, i) {
      FiringMoves(d, b, i, k);
    } else if b.events[i].Outside? {
      StaysTyped(d, b, i);
      if Holds(b.states[i], k) || Holds(b.states[i + 1], k) || Spent(b.states[i], k) {
        HarmlessKeeps(b.states[i], b.states[i + 1], k);
      }
    }
  }

  /** Event `c` opened the proposal `p` at `k`. */
  ghost predicate Opens(d: Derivation, b: Behavior, c: nat, k: Address, p: Proposal) {
    && Fires(d, b, c)
    && b.events[c].call.instruction == Create(p.id, p.action)
    && About(b.events[c].call, k)
    && b.events[c].call.payer == p.proposer && b.events[c].call.round == p.created
  }

  /** Event `j` decided the proposal at `k` in favour, leaving it as `p` but for its phase. */
  ghost predicate Passes(d: Derivation, b: Behavior, j: nat, k: Address, p: Proposal) {
    && Fires(d, b, j)
    && b.events[j].call.instruction.Finalize? && About(b.events[j].call, k)
    && Holds(b.states[j], k)
    && var q := ProposalAt(b.states[j], k);
       && q.phase == Voting && q.votingEnds <= b.events[j].call.round && Evaluate(q) == Passed
       && p.(phase := Passed) == q.(phase := Passed, passedRound := Some(b.events[j].call.round))
  }

  ghost predicate Traced(d: Derivation, b: Behavior, i: nat, k: Address, p: Proposal) {
    && k == d(p.proposer, p.id)
    && p.votingEnds == p.created + Rule(p.action).votingPeriod
    && (exists c :: 0 <= c < i && Opens(d, b, c, k, p))
    && (p.phase == Passed || p.phase == Executed ==> exists j :: 0 <= j < i && Passes(d, b, j, k, p))
  }

  /** Tracing survives time and any turn that is not a decision in favour. */
  lemma TracedLater(d: Derivation, b: Behavior, i: nat, k: Address, p: Proposal, q: Proposal)
    requires Traced(d, b, i, k, p)
    requires q.proposer == p.proposer && q.id == p.id && q.action == p.action
    requires q.created == p.created && q.votingEnds == p.votingEnds
    requires q.phase == Passed || q.phase == Executed ==>
               (p.phase == Passed || p.phase == Executed) && q.(phase := Passed) == p.(phase := Passed)
    ensures Traced(d, b, i + 1, k, q)
  {
    var c :| 0 <= c < i && Opens(d, b, c, k, p);
    assert Opens(d, b, c, k, q);
    if q.phase == Passed || q.phase == Executed {
      var j :| 0 <= j < i && Passes(d, b, j, k, p);
      assert Passes(d, b, j, k, q);
    }
  }

  lemma TracedPassing(d: Derivation, b: Behavior, i: nat, k: Address, p: Proposal, q: Proposal)
    requires Traced(d, b, i, k, p) && Passes(d, b, i, k, q)
    requires q.proposer == p.proposer && q.id == p.id && q.action == p.action
    requires q.created == p.created && q.votingEnds == p.votingEnds
    ensures Traced(d, b, i + 1, k, q)
  {
    var c :| 0 <= c < i && Opens(d, b, c, k, p);
    assert Opens(d, b, c, k, q);
  }

  /** Every proposal on the ledger was opened by a recorded event; every passed one was decided by one. */
  lemma {:induction false} EveryProposalTraced(d: Derivation, b: Behavior, i: nat, k: Address)
    requires Lawful(d, b) && i <= |b.events| && Holds(b.states[i], k)
    ensures Traced(d, b, i, k, ProposalAt(b.states[i], k))
  {
    if i > 0 {
      var n := i - 1;
      EventMoves(d, b, n, k);
      var q := ProposalAt(b.states[i], k);
      if Holds(b.states[n], k) {
        EveryProposalTraced(d, b, n, k);
        var p := ProposalAt(b.states[n], k);
        var decided := Fires(d, b, n) && About(b.events[n].call, k) && b.events[n].call.instruction.Finalize?;
        if decided && Evaluate(p) == Passed {
          TracedPassing(d, b, n, k, p, q);
        } else {
          TracedLater(d, b, n, k, p, q);
        }
      } else {
        assert Opens(d, b, n, k, q);
      }
    }
  }
}
