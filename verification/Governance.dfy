/** On-chain governance: proposals, votes, time-locked execution, deposits and the emergency pause. */
module Governance {
  import opened Dag
  import opened Sums

  type Address = nat

  const SYSTEM_PROGRAM: Address := 0
  const STAKING_PROGRAM: Address := 1
  const STAKING_STATS: Address := 2
  const GOVERNANCE_PROGRAM: Address := 3
  const REGISTRY_ACCOUNT: Address := 4
  const PARAMS_ACCOUNT: Address := 5
  const EMERGENCY_ACCOUNT: Address := 19
  const BURN_ADDRESS: Address := 255

  const U64_MAX: nat := 0xFFFF_FFFF_FFFF_FFFF
  const MAX_PROPOSAL_VOTES: nat := 100_000
  const PROPOSAL_RETENTION_ROUNDS: nat := 5_000

  /** Addition that sticks at the widest 64-bit value. */
  function SatAdd(a: nat, b: nat): (c: nat)
    ensures c <= U64_MAX && c <= a + b && (c == U64_MAX || c == a + b)
  {
    if a + b > U64_MAX then U64_MAX else a + b
  }

  // ---- Records ------------------------------------------------------------------------------------

  datatype Status = Active | Deprecated(retirement: nat) | Retired

  datatype Algorithm = Algorithm(id: nat, status: Status, details: nat)

  datatype Params = Params(baseFee: nat, dust: nat, gasPrice: nat, commission: nat, emission: nat, deposit: nat)

  datatype Action =
    | ActivateAlgorithm(algorithm: Algorithm)
    | DeprecateAlgorithm(id: nat, retirement: nat)
    | RetireAlgorithm(id: nat)
    | SetBaseFee(value: nat)
    | SetDust(value: nat)
    | SetGasPrice(value: nat)
    | SetCommission(value: nat)
    | SetEmission(value: nat)

  predicate ForRegistry(a: Action) {
    a.ActivateAlgorithm? || a.DeprecateAlgorithm? || a.RetireAlgorithm?
  }

  datatype Quorum = Quorum(participation: nat, approval: nat, votingPeriod: nat, timelock: nat)

  function Rule(a: Action): Quorum {
    if ForRegistry(a) then Quorum(2_500, 6_667, 200, 100) else Quorum(3_000, 6_667, 150, 120)
  }

  datatype Choice = Yes | No | Abstain

  datatype Phase = Voting | Passed | Rejected | Executed

  datatype Proposal = Proposal(id: nat, proposer: Address, action: Action, created: nat, votingEnds: nat, snapshot: nat,
                               yes: nat, no: nat, abstain: nat, voters: seq<Address>, phase: Phase,
                               passedRound: Option<nat>, deposit: nat)

  datatype Position = Position(owner: Address, amount: nat, created: nat, lockedUntil: nat)

  datatype Emergency = Emergency(guardians: seq<Address>, threshold: nat, paused: bool,
                                 pauseApprovals: seq<Address>, unpauseApprovals: seq<Address>)

  /** What an account's bytes decode to. */
  datatype Data =
    | Blank
    | OfProposal(proposal: Proposal)
    | OfPosition(position: Position)
    | OfStats(totalStaked: nat)
    | OfParams(params: Params)
    | OfRegistry(algorithms: seq<Algorithm>)
    | OfEmergency(emergency: Emergency)
    | Undecodable

  datatype Account = Account(balance: nat, owner: Address, data: Data)

  type Ledger = map<Address, Account>

  datatype Instruction =
    | Create(id: nat, action: Action)
    | Vote(choice: Choice)
    | Finalize
    | Execute
    | Approve(wantPaused: bool)
    | Close

  datatype Call = Call(instruction: Instruction, accounts: seq<Address>, payer: Address, round: nat)

  /** Where a proposer's numbered proposal lives: a hash in the program, any function here. */
  type Derivation = (Address, nat) -> Address

  // ---- Votes and their outcome ----------------------------------------------------------------------

  function NewProposal(id: nat, proposer: Address, action: Action, round: nat, snapshot: nat, deposit: nat): Proposal {
    Proposal(id, proposer, action, round, round + Rule(action).votingPeriod, snapshot, 0, 0, 0, [], Voting, None,
             deposit)
  }

  function Recorded(p: Proposal, voter: Address, choice: Choice, weight: nat): Proposal {
    var counted :=
      match choice
      case Yes => p.(yes := SatAdd(p.yes, weight))
      case No => p.(no := SatAdd(p.no, weight))
      case Abstain => p.(abstain := SatAdd(p.abstain, weight));
    counted.(voters := p.voters + [voter])
  }

  function Participating(p: Proposal): nat {
    var cast := SatAdd(SatAdd(p.yes, p.no), p.abstain);
    if cast > p.snapshot then p.snapshot else cast
  }

  predicate ReachedFloor(p: Proposal) {
    p.snapshot != 0 && Participating(p) * 10_000 / p.snapshot >= Rule(p.action).participation
  }

  function Evaluate(p: Proposal): Phase {
    if !ReachedFloor(p) then Rejected
    else
      var decided := SatAdd(p.yes, p.no);
      if decided == 0 then Rejected
      else if p.yes * 10_000 / decided >= Rule(p.action).approval then Passed
      else Rejected
  }

  lemma DivAtLeast(n: nat, d: nat, q: nat)
    requires d > 0
    ensures n / d >= q <==> n >= q * d
  {
    assert n == n / d * d + n % d;
    if n / d >= q {
      assert n / d * d >= q * d;
    } else {
      assert (q - 1) * d == q * d - d;
      assert n / d * d <= (q - 1) * d;
    }
  }

  /** Passing, without division: the turnout floor and two thirds of the decided stake. */
  lemma PassedExactly(p: Proposal)
    ensures ReachedFloor(p) <==>
            p.snapshot > 0 && Participating(p) * 10_000 >= Rule(p.action).participation * p.snapshot
    ensures Evaluate(p) == Passed <==>
            && ReachedFloor(p)
            && SatAdd(p.yes, p.no) > 0 && p.yes * 10_000 >= 6_667 * SatAdd(p.yes, p.no)
    ensures Evaluate(p) == Passed || Evaluate(p) == Rejected
  {
    if p.snapshot > 0 {
      DivAtLeast(Participating(p) * 10_000, p.snapshot, Rule(p.action).participation);
    }
    if SatAdd(p.yes, p.no) > 0 {
      DivAtLeast(p.yes * 10_000, SatAdd(p.yes, p.no), 6_667);
    }
  }

  // ---- Actions ----------------------------------------------------------------------------------------

  /** The first algorithm with this id, or the registry's length. */
  function FindAlgorithm(registry: seq<Algorithm>, id: nat): (i: nat)
    ensures i <= |registry|
    ensures i < |registry| ==> registry[i].id == id
    ensures forall j :: 0 <= j < i ==> registry[j].id != id
  {
    if registry == [] || registry[0].id == id then 0 else 1 + FindAlgorithm(registry[1..], id)
  }

  /** The registry after an action, or nothing when the action does not apply. */
  function RegistryAfter(registry: seq<Algorithm>, action: Action, round: nat): Option<seq<Algorithm>>
    requires ForRegistry(action)
  {
    match action
    case ActivateAlgorithm(a) =>
      if FindAlgorithm(registry, a.id) < |registry| then None else Some(registry + [a])
    case DeprecateAlgorithm(id, retirement) =>
      var i := FindAlgorithm(registry, id);
      if i == |registry| || registry[i].status != Active then None
      else Some(registry[i := registry[i].(status := Deprecated(retirement))])
    case RetireAlgorithm(id) =>
      var i := FindAlgorithm(registry, id);
      if i == |registry| || !registry[i].status.Deprecated? || round < registry[i].status.retirement then None
      else Some(registry[i := registry[i].(status := Retired)])
  }

  /** The parameters governance may move, each with its bounds and its allowance per proposal. */
  datatype Knob = BaseFee | Dust | GasPrice | Commission | Emission

  function KnobOf(a: Action): Knob
    requires !ForRegistry(a)
  {
    match a
    case SetBaseFee(_) => BaseFee
    case SetDust(_) => Dust
    case SetGasPrice(_) => GasPrice
    case SetCommission(_) => Commission
    case SetEmission(_) => Emission
  }

  function Read(p: Params, k: Knob): nat {
    match k
    case BaseFee => p.baseFee
    case Dust => p.dust
    case GasPrice => p.gasPrice
    case Commission => p.commission
    case Emission => p.emission
  }

  function Written(p: Params, k: Knob, v: nat): (q: Params)
    ensures Read(q, k) == v && q.deposit == p.deposit
    ensures forall j :: j != k ==> Read(q, j) == Read(p, j)
  {
    match k
    case BaseFee => p.(baseFee := v)
    case Dust => p.(dust := v)
    case GasPrice => p.(gasPrice := v)
    case Commission => p.(commission := v)
    case Emission => p.(emission := v)
  }

  function Floor(k: Knob): nat {
    match k
    case BaseFee => 180
    case GasPrice => 1
    case _ => 0
  }

  function Cap(k: Knob): nat {
    match k
    case BaseFee => 1_000_000_000
    case Dust => 1_000_000_000
    case GasPrice => 1_000_000_000
    case Commission => 10_000
    case Emission => 5_000
  }

  function Allowance(k: Knob): nat {
    match k
    case BaseFee => 180
    case Dust => 100_000
    case GasPrice => 10
    case Commission => 2_000
    case Emission => 500
  }

  /** Fees, dust and gas may double or halve; the basis-point rates move by their allowance only. */
  predicate Scales(k: Knob) {
    k == BaseFee || k == Dust || k == GasPrice
  }

  function Distance(a: nat, b: nat): nat {
    if a > b then a - b else b - a
  }

  predicate WithinLimit(current: nat, next: nat, k: Knob) {
    (Scales(k) && next <= current * 2 && next * 2 >= current) || Distance(next, current) <= Allowance(k)
  }

  function ParamsAfter(params: Params, action: Action): Option<Params>
    requires !ForRegistry(action)
  {
    var k, v := KnobOf(action), action.value;
    if v < Floor(k) || v > Cap(k) || !WithinLimit(Read(params, k), v, k) then None
    else Some(Written(params, k, v))
  }

  /** An activated algorithm enters as the proposal states it: `Active` exactly if the proposal says so. */
  lemma ActivationKeepsStatus(registry: seq<Algorithm>, a: Algorithm, round: nat)
    requires RegistryAfter(registry, ActivateAlgorithm(a), round).Some?
    ensures var after := RegistryAfter(registry, ActivateAlgorithm(a), round).value;
            && |after| == |registry| + 1 && after[..|registry|] == registry
            && (after[|registry|].status == Active <==> a.status == Active)
  {
  }

  /** An id nobody holds can enter already retired. */
  lemma RetiredAtBirth(registry: seq<Algorithm>, id: nat, round: nat)
    requires forall i :: 0 <= i < |registry| ==> registry[i].id != id
    ensures var a := Algorithm(id, Retired, 0);
            RegistryAfter(registry, ActivateAlgorithm(a), round) == Some(registry + [a])
  {
  }

  // ---- When an instruction is accepted ------------------------------------------------------------------

  predicate Holds(l: Ledger, k: Address) {
    k in l && l[k].owner == GOVERNANCE_PROGRAM && l[k].data.OfProposal?
  }

  function ProposalAt(l: Ledger, k: Address): Proposal
    requires Holds(l, k)
  {
    l[k].data.proposal
  }

  predicate CanCreate(d: Derivation, l: Ledger, c: Call)
    requires c.instruction.Create?
  {
    && |c.accounts| >= 4
    && c.accounts[2] == STAKING_STATS && c.accounts[3] == PARAMS_ACCOUNT
    && c.accounts[0] == c.payer
    && c.accounts[1] == d(c.payer, c.instruction.id) && c.accounts[1] !in l
    && STAKING_STATS in l && l[STAKING_STATS].data.OfStats?
    && PARAMS_ACCOUNT in l && l[PARAMS_ACCOUNT].data.OfParams?
    && (l[PARAMS_ACCOUNT].data.params.deposit > 0 ==>
          c.payer in l && l[c.payer].balance >= l[PARAMS_ACCOUNT].data.params.deposit)
    && c.round + Rule(c.instruction.action).votingPeriod <= U64_MAX
  }

  predicate CanVote(l: Ledger, c: Call) {
    && |c.accounts| >= 2
    && c.accounts[1] in l && l[c.accounts[1]].owner == STAKING_PROGRAM && l[c.accounts[1]].data.OfPosition?
    && Holds(l, c.accounts[0])
    && var s, p := l[c.accounts[1]].data.position, ProposalAt(l, c.accounts[0]);
       && s.owner == c.payer && s.amount > 0 && s.created <= p.created
       && p.phase == Voting && c.round < p.votingEnds
       && |p.voters| < MAX_PROPOSAL_VOTES && c.accounts[1] !in p.voters
  }

  predicate CanFinalize(l: Ledger, c: Call) {
    && |c.accounts| >= 2
    && c.accounts[1] == STAKING_STATS
    && Holds(l, c.accounts[0])
    && ProposalAt(l, c.accounts[0]).phase == Voting
    && ProposalAt(l, c.accounts[0]).votingEnds <= c.round
  }

  /** No emergency account means no guardians; one that does not decode blocks execution outright. */
  predicate Unpaused(l: Ledger) {
    EMERGENCY_ACCOUNT in l ==> l[EMERGENCY_ACCOUNT].data.OfEmergency? && !l[EMERGENCY_ACCOUNT].data.emergency.paused
  }

  predicate ActionApplies(l: Ledger, target: Address, action: Action, round: nat) {
    && target in l
    && if ForRegistry(action) then
         && target == REGISTRY_ACCOUNT && l[target].data.OfRegistry?
         && RegistryAfter(l[target].data.algorithms, action, round).Some?
       else
         && target == PARAMS_ACCOUNT && l[target].data.OfParams?
         && ParamsAfter(l[target].data.params, action).Some?
  }

  predicate CanExecute(l: Ledger, c: Call) {
    && |c.accounts| >= 3
    && c.accounts[2] == EMERGENCY_ACCOUNT && Unpaused(l)
    && Holds(l, c.accounts[0])
    && var p := ProposalAt(l, c.accounts[0]);
       && p.phase == Passed && p.passedRound.Some?
       && SatAdd(p.passedRound.value, Rule(p.action).timelock) <= c.round
       && ActionApplies(l, c.accounts[1], p.action, c.round)
  }

  predicate CanApprove(l: Ledger, c: Call)
    requires c.instruction.Approve?
  {
    && |c.accounts| >= 1 && c.accounts[0] == EMERGENCY_ACCOUNT
    && EMERGENCY_ACCOUNT in l && l[EMERGENCY_ACCOUNT].data.OfEmergency?
    && var e := l[EMERGENCY_ACCOUNT].data.emergency;
       e.guardians != [] && e.threshold > 0 && c.payer in e.guardians && e.paused != c.instruction.wantPaused
  }

  function Balance(l: Ledger, k: Address): nat {
    if k in l then l[k].balance else 0
  }

  /** The part of a closing proposal's balance its proposer gets back. */
  function Refund(l: Ledger, k: Address): (r: nat)
    requires Holds(l, k)
    ensures r <= l[k].balance
  {
    var p := ProposalAt(l, k);
    if p.deposit == 0 || !ReachedFloor(p) then 0
    else if p.deposit < l[k].balance then p.deposit
    else l[k].balance
  }

  /** Neither the refund nor the burn overflows the balance it is added to. */
  predicate CreditsFit(l: Ledger, k: Address)
    requires Holds(l, k)
  {
    var proposer, refund := ProposalAt(l, k).proposer, Refund(l, k);
    && (refund > 0 ==> Balance(l, proposer) + refund <= U64_MAX)
    && (l[k].balance > refund ==>
          Balance(Paid(l, proposer, refund), BURN_ADDRESS) + l[k].balance - refund <= U64_MAX)
  }

  predicate CanClose(l: Ledger, c: Call) {
    && |c.accounts| >= 3
    && c.accounts[2] == BURN_ADDRESS
    && Holds(l, c.accounts[0])
    && var p := ProposalAt(l, c.accounts[0]);
       && (p.phase == Rejected || p.phase == Executed)
       && SatAdd(p.votingEnds, PROPOSAL_RETENTION_ROUNDS) <= c.round
       && c.accounts[1] == p.proposer && CreditsFit(l, c.accounts[0])
  }

  predicate Accepted(d: Derivation, l: Ledger, c: Call) {
    match c.instruction
    case Create(_, _) => CanCreate(d, l, c)
    case Vote(_) => CanVote(l, c)
    case Finalize => CanFinalize(l, c)
    case Execute => CanExecute(l, c)
    case Approve(_) => CanApprove(l, c)
    case Close => CanClose(l, c)
  }

  // ---- What an accepted instruction does ------------------------------------------------------------------

  function WithData(l: Ledger, k: Address, data: Data): Ledger
    requires k in l
  {
    l[k := l[k].(data := data)]
  }

  function WithBalance(l: Ledger, k: Address, balance: nat): Ledger
    requires k in l
  {
    l[k := l[k].(balance := balance)]
  }

  /** Credits an account, opening a system-owned wallet when there is none. */
  function Paid(l: Ledger, k: Address, amount: nat): Ledger {
    if amount == 0 then l
    else if k in l then WithBalance(l, k, l[k].balance + amount)
    else l[k := Account(amount, SYSTEM_PROGRAM, Blank)]
  }

  function Created(l: Ledger, c: Call): Ledger
    requires c.instruction.Create? && |c.accounts| >= 2
    requires STAKING_STATS in l && l[STAKING_STATS].data.OfStats?
    requires PARAMS_ACCOUNT in l && l[PARAMS_ACCOUNT].data.OfParams?
    requires var deposit := l[PARAMS_ACCOUNT].data.params.deposit; deposit > 0 ==> Balance(l, c.payer) >= deposit
  {
    var deposit := l[PARAMS_ACCOUNT].data.params.deposit;
    var snapshot := l[STAKING_STATS].data.totalStaked;
    var charged := if deposit > 0 then WithBalance(l, c.payer, l[c.payer].balance - deposit) else l;
    var p := NewProposal(c.instruction.id, c.payer, c.instruction.action, c.round, snapshot, deposit);
    charged[c.accounts[1] := Account(deposit, GOVERNANCE_PROGRAM, OfProposal(p))]
  }

  function Voted(l: Ledger, c: Call): Ledger
    requires c.instruction.Vote? && CanVote(l, c)
  {
    var k, v := c.accounts[0], c.accounts[1];
    var p, s := ProposalAt(l, k), l[v].data.position;
    var lock := SatAdd(p.votingEnds, Rule(p.action).timelock);
    var tallied := WithData(l, k, OfProposal(Recorded(p, v, c.instruction.choice, s.amount)));
    WithData(tallied, v, OfPosition(s.(lockedUntil := if lock > s.lockedUntil then lock else s.lockedUntil)))
  }

  function Decided(p: Proposal, round: nat): Proposal {
    var outcome := Evaluate(p);
    if outcome == Passed then p.(phase := Passed, passedRound := Some(round)) else p.(phase := outcome)
  }

  function Acted(l: Ledger, target: Address, action: Action, round: nat): Ledger
    requires ActionApplies(l, target, action, round)
  {
    if ForRegistry(action) then
      WithData(l, target, OfRegistry(RegistryAfter(l[target].data.algorithms, action, round).value))
    else
      WithData(l, target, OfParams(ParamsAfter(l[target].data.params, action).value))
  }

  function Approved(e: Emergency, guardian: Address, wantPaused: bool): Emergency {
    if wantPaused then
      var approvals := if guardian in e.pauseApprovals then e.pauseApprovals else e.pauseApprovals + [guardian];
      if |approvals| >= e.threshold then e.(paused := true, pauseApprovals := [], unpauseApprovals := [])
      else e.(pauseApprovals := approvals, unpauseApprovals := [])
    else
      var approvals := if guardian in e.unpauseApprovals then e.unpauseApprovals else e.unpauseApprovals + [guardian];
      if |approvals| >= e.threshold then e.(paused := false, pauseApprovals := [], unpauseApprovals := [])
      else e.(pauseApprovals := [], unpauseApprovals := approvals)
  }

  function ClosedOut(l: Ledger, k: Address): Ledger
    requires Holds(l, k)
  {
    var p, refund := ProposalAt(l, k), Refund(l, k);
    var settled := Paid(Paid(l, p.proposer, refund), BURN_ADDRESS, l[k].balance - refund);
    settled[k := settled[k].(balance := 0, data := Blank)]
  }

  function After(d: Derivation, l: Ledger, c: Call): Ledger
    requires Accepted(d, l, c)
  {
    match c.instruction
    case Create(_, _) => Created(l, c)
    case Vote(_) => Voted(l, c)
    case Finalize =>
      WithData(l, c.accounts[0], OfProposal(Decided(ProposalAt(l, c.accounts[0]), c.round)))
    case Execute =>
      var p := ProposalAt(l, c.accounts[0]);
      WithData(Acted(l, c.accounts[1], p.action, c.round), c.accounts[0], OfProposal(p.(phase := Executed)))
    case Approve(want) =>
      WithData(l, EMERGENCY_ACCOUNT, OfEmergency(Approved(l[EMERGENCY_ACCOUNT].data.emergency, c.payer, want)))
    case Close => ClosedOut(l, c.accounts[0])
  }

  // ---- Conservation -----------------------------------------------------------------------------------------

  function Balances(l: Ledger): Amounts {
    map k | k in l :: l[k].balance
  }

  function Supply(l: Ledger): nat {
    Total(Balances(l))
  }

  lemma SupplyPut(l: Ledger, k: Address, a: Account)
    ensures Supply(l[k := a]) + Balance(l, k) == Supply(l) + a.balance
  {
    assert Balances(l[k := a]) == Balances(l)[k := a.balance];
    TotalUpdate(Balances(l), k, a.balance);
  }

  lemma SupplyPaid(l: Ledger, k: Address, amount: nat)
    ensures Supply(Paid(l, k, amount)) == Supply(l) + amount
    ensures forall j :: Balance(Paid(l, k, amount), j) == Balance(l, j) + if j == k then amount else 0
  {
    if amount > 0 {
      SupplyPut(l, k, Paid(l, k, amount)[k]);
    }
  }

  /** Closing routes the whole balance out, unless it routes it to the account it then clears. */
  lemma CloseConserves(l: Ledger, k: Address)
    requires Holds(l, k)
    ensures var p, refund := ProposalAt(l, k), Refund(l, k);
            && Balance(ClosedOut(l, k), k) == 0
            && (Supply(ClosedOut(l, k)) == Supply(l) <==>
                  !(refund > 0 && p.proposer == k) && !(l[k].balance > refund && k == BURN_ADDRESS))
            && forall j :: j != k ==>
                 Balance(ClosedOut(l, k), j) == Balance(l, j) + (if j == p.proposer then refund else 0)
                                                + (if j == BURN_ADDRESS then l[k].balance - refund else 0)
  {
    var p, refund := ProposalAt(l, k), Refund(l, k);
    var burn := l[k].balance - refund;
    var refunded := Paid(l, p.proposer, refund);
    var settled := Paid(refunded, BURN_ADDRESS, burn);
    SupplyPaid(l, p.proposer, refund);
    SupplyPaid(refunded, BURN_ADDRESS, burn);
    SupplyPut(settled, k, settled[k].(balance := 0, data := Blank));
    assert Supply(ClosedOut(l, k)) + Balance(settled, k) == Supply(l) + refund + burn;
    assert Balance(settled, k) == l[k].balance + (if k == p.proposer then refund else 0)
                                  + (if k == BURN_ADDRESS then burn else 0);
  }

  lemma CreateConserves(d: Derivation, l: Ledger, c: Call)
    requires c.instruction.Create? && CanCreate(d, l, c)
    ensures Supply(Created(l, c)) == Supply(l)
  {
    var deposit := l[PARAMS_ACCOUNT].data.params.deposit;
    if deposit > 0 {
      var charged := WithBalance(l, c.payer, l[c.payer].balance - deposit);
      SupplyPut(l, c.payer, charged[c.payer]);
      SupplyPut(charged, c.accounts[1], Created(l, c)[c.accounts[1]]);
    } else {
      SupplyPut(l, c.accounts[1], Created(l, c)[c.accounts[1]]);
    }
  }

  lemma DataKeepsBalances(l: Ledger, k: Address, data: Data)
    requires k in l
    ensures Balances(WithData(l, k, data)) == Balances(l)
  {
  }

  lemma CreateCharges(d: Derivation, l: Ledger, c: Call)
    requires c.instruction.Create? && CanCreate(d, l, c)
    ensures var deposit := l[PARAMS_ACCOUNT].data.params.deposit;
            && Balance(Created(l, c), c.accounts[1]) == deposit
            && forall j :: j != c.accounts[1] ==>
                 Balance(Created(l, c), j) == Balance(l, j) - if j == c.payer then deposit else 0
  {
  }

  /** Votes, decisions, executions and emergency approvals move no balance at all. */
  lemma OthersMoveNothing(d: Derivation, l: Ledger, c: Call)
    requires Accepted(d, l, c) && !c.instruction.Create? && !c.instruction.Close?
    ensures Balances(After(d, l, c)) == Balances(l)
  {
    match c.instruction {
      case Vote(choice) =>
        var p, s := ProposalAt(l, c.accounts[0]), l[c.accounts[1]].data.position;
        DataKeepsBalances(l, c.accounts[0], OfProposal(Recorded(p, c.accounts[1], choice, s.amount)));
      case _ =>
    }
  }

  /** An accepted instruction conserves the total balance exactly when it is not a self-directed close. */
  lemma Conservation(d: Derivation, l: Ledger, c: Call)
    requires Accepted(d, l, c)
    ensures Supply(After(d, l, c)) == Supply(l) <==>
            (c.instruction.Close? ==>
               var k := c.accounts[0];
               && !(Refund(l, k) > 0 && ProposalAt(l, k).proposer == k)
               && !(l[k].balance > Refund(l, k) && k == BURN_ADDRESS))
  {
    if c.instruction.Create? {
      CreateConserves(d, l, c);
    } else if c.instruction.Close? {
      CloseConserves(l, c.accounts[0]);
    } else {
      OthersMoveNothing(d, l, c);
    }
  }
}
