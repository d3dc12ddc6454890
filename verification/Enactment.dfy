/** Two concrete governance runs: one that enacts a change, one whose close destroys a balance. */
module Enactment {
  import opened Dag
  import opened Governance
  import opened Proposals
  import opened Mandates

  const PAYER: Address := 50
  const POSITION: Address := 60
  const PROPOSAL: Address := 70

  function AlwaysAt(k: Address): Derivation {
    (proposer: Address, id: nat) => k
  }

  /** A funded wallet, a stake position of its, and the singletons; a proposal costs 10. */
  function Opening(): Ledger {
    map[STAKING_STATS := Account(0, STAKING_PROGRAM, OfStats(100)),
        REGISTRY_ACCOUNT := Account(0, GOVERNANCE_PROGRAM, OfRegistry([])),
        PARAMS_ACCOUNT := Account(0, GOVERNANCE_PROGRAM, OfParams(Params(200, 0, 1, 0, 0, 10))),
        PAYER := Account(100, SYSTEM_PROGRAM, Blank),
        POSITION := Account(0, STAKING_PROGRAM, OfPosition(Position(PAYER, 100, 0, 0)))]
  }

  function Asked(): Proposal {
    NewProposal(1, PAYER, SetBaseFee(300), 0, 100, 10)
  }

  /** The ledger with the proposal `p` open at `k`. */
  function Opened(k: Address, p: Proposal): Ledger {
    Opening()[PAYER := Account(90, SYSTEM_PROGRAM, Blank)][k := Account(10, GOVERNANCE_PROGRAM, OfProposal(p))]
  }

  function Ask(k: Address): Call {
    Call(Create(1, SetBaseFee(300)), [PAYER, k, STAKING_STATS, PARAMS_ACCOUNT], PAYER, 0)
  }

  lemma Opens(k: Address)
    requires k !in Opening()
    ensures Accepted(AlwaysAt(k), Opening(), Ask(k)) && After(AlwaysAt(k), Opening(), Ask(k)) == Opened(k, Asked())
  {
  }

  lemma Starts()
    ensures Start(Opening())
  {
  }

  // ---- A change enacted ----------------------------------------------------------------------------

  function Backed(): Proposal {
    Asked().(yes := 100, voters := [POSITION])
  }

  function Locked(l: Ledger): Ledger {
    l[POSITION := Account(0, STAKING_PROGRAM, OfPosition(Position(PAYER, 100, 0, 270)))]
  }

  function Support(): Call {
    Call(Vote(Yes), [PROPOSAL, POSITION], PAYER, 1)
  }

  lemma Supported()
    ensures var d, l := AlwaysAt(PROPOSAL), Opened(PROPOSAL, Asked());
            Accepted(d, l, Support()) && After(d, l, Support()) == Locked(Opened(PROPOSAL, Backed()))
  {
    assert [] + [POSITION] == [POSITION];
    assert Recorded(Asked(), POSITION, Yes, 100) == Backed();
  }

  function Won(): Proposal {
    Backed().(phase := Passed, passedRound := Some(150))
  }

  function Decide(k: Address): Call {
    Call(Finalize, [k, STAKING_STATS], PAYER, 150)
  }

  lemma BackedPasses()
    ensures Evaluate(Backed()) == Passed
  {
    PassedExactly(Backed());
  }

  lemma Decides()
    ensures var d, l := AlwaysAt(PROPOSAL), Locked(Opened(PROPOSAL, Backed()));
            Accepted(d, l, Decide(PROPOSAL)) && After(d, l, Decide(PROPOSAL)) == Locked(Opened(PROPOSAL, Won()))
  {
    BackedPasses();
  }

  function Enact(): Call {
    Call(Execute, [PROPOSAL, PARAMS_ACCOUNT, EMERGENCY_ACCOUNT], PAYER, 270)
  }

  function Enacted(): Ledger {
    Locked(Opened(PROPOSAL, Won().(phase := Executed)))[PARAMS_ACCOUNT :=
      Account(0, GOVERNANCE_PROGRAM, OfParams(Params(300, 0, 1, 0, 0, 10)))]
  }

  lemma Enacts()
    ensures var d, l := AlwaysAt(PROPOSAL), Locked(Opened(PROPOSAL, Won()));
            Accepted(d, l, Enact()) && After(d, l, Enact()) == Enacted()
  {
  }

  /** Opened, voted on, decided and executed: the assumptions of the run theorems are met by a run that acts. */
  lemma EnactingRun()
    ensures var b := Behavior([Opening(), Opened(PROPOSAL, Asked()), Locked(Opened(PROPOSAL, Backed())),
                               Locked(Opened(PROPOSAL, Won())), Enacted()],
                              [Governed(Ask(PROPOSAL)), Governed(Support()), Governed(Decide(PROPOSAL)),
                               Governed(Enact())]);
            && Lawful(AlwaysAt(PROPOSAL), b) && Executes(AlwaysAt(PROPOSAL), b, 3, PROPOSAL)
            && b.states[4][PARAMS_ACCOUNT].data.params.baseFee == 300
  {
    Starts();
    Opens(PROPOSAL);
    Supported();
    Decides();
    Enacts();
    FourSteps(AlwaysAt(PROPOSAL), Opening(), Opened(PROPOSAL, Asked()), Locked(Opened(PROPOSAL, Backed())),
              Locked(Opened(PROPOSAL, Won())), Enacted(), Ask(PROPOSAL), Support(), Decide(PROPOSAL), Enact());
  }

  lemma FourSteps(d: Derivation, l0: Ledger, l1: Ledger, l2: Ledger, l3: Ledger, l4: Ledger, c0: Call, c1: Call,
                  c2: Call, c3: Call)
    requires Start(l0) && Accepted(d, l0, c0) && After(d, l0, c0) == l1
    requires Accepted(d, l1, c1) && After(d, l1, c1) == l2
    requires Accepted(d, l2, c2) && After(d, l2, c2) == l3
    requires Accepted(d, l3, c3) && After(d, l3, c3) == l4
    ensures var b := Behavior([l0, l1, l2, l3, l4], [Governed(c0), Governed(c1), Governed(c2), Governed(c3)]);
            Lawful(d, b) && Fires(d, b, 3)
  {
    var b := Behavior([l0, l1, l2, l3, l4], [Governed(c0), Governed(c1), Governed(c2), Governed(c3)]);
    assert Fires(d, b, 0) && Fires(d, b, 1) && Fires(d, b, 2) && Fires(d, b, 3);
    assert StepAt(d, b, 0) && StepAt(d, b, 1) && StepAt(d, b, 2) && StepAt(d, b, 3);
  }

  // ---- A balance destroyed ---------------------------------------------------------------------------

  function Lost(): Proposal {
    Asked().(phase := Rejected)
  }

  lemma LostRejected()
    ensures Evaluate(Asked()) == Rejected && !ReachedFloor(Lost())
  {
    PassedExactly(Asked());
    PassedExactly(Lost());
  }

  lemma DecidesAgainst()
    ensures var d, l := AlwaysAt(BURN_ADDRESS), Opened(BURN_ADDRESS, Asked());
            Accepted(d, l, Decide(BURN_ADDRESS)) && After(d, l, Decide(BURN_ADDRESS)) == Opened(BURN_ADDRESS, Lost())
  {
    LostRejected();
  }

  function Bury(): Call {
    Call(Close, [BURN_ADDRESS, PAYER, BURN_ADDRESS], PAYER, 5150)
  }

  lemma Buries()
    ensures var d, l := AlwaysAt(BURN_ADDRESS), Opened(BURN_ADDRESS, Lost());
            && Accepted(d, l, Bury()) && Refund(l, BURN_ADDRESS) == 0
            && After(d, l, Bury()) == l[BURN_ADDRESS := Account(0, GOVERNANCE_PROGRAM, Blank)]
  {
    LostRejected();
  }

  lemma ThreeSteps(d: Derivation, l0: Ledger, l1: Ledger, l2: Ledger, l3: Ledger, c0: Call, c1: Call, c2: Call)
    requires Start(l0) && Accepted(d, l0, c0) && After(d, l0, c0) == l1
    requires Accepted(d, l1, c1) && After(d, l1, c1) == l2
    requires Accepted(d, l2, c2) && After(d, l2, c2) == l3
    ensures var b := Behavior([l0, l1, l2, l3], [Governed(c0), Governed(c1), Governed(c2)]);
            Lawful(d, b) && Fires(d, b, 2)
  {
    var b := Behavior([l0, l1, l2, l3], [Governed(c0), Governed(c1), Governed(c2)]);
    assert Fires(d, b, 0) && Fires(d, b, 1) && Fires(d, b, 2);
    assert StepAt(d, b, 0) && StepAt(d, b, 1) && StepAt(d, b, 2);
  }

  /** A proposal whose derived address is the burn address: closing it sends its deposit nowhere. */
  lemma CloseCanDestroy()
    ensures var d, lost := AlwaysAt(BURN_ADDRESS), Opened(BURN_ADDRESS, Lost());
            var b := Behavior([Opening(), Opened(BURN_ADDRESS, Asked()), lost,
                               lost[BURN_ADDRESS := Account(0, GOVERNANCE_PROGRAM, Blank)]],
                              [Governed(Ask(BURN_ADDRESS)), Governed(Decide(BURN_ADDRESS)), Governed(Bury())]);
            Lawful(d, b) && Closes(d, b, 2, BURN_ADDRESS) && Supply(b.states[3]) + 10 == Supply(b.states[2])
  {
    var d, lost := AlwaysAt(BURN_ADDRESS), Opened(BURN_ADDRESS, Lost());
    Starts();
    Opens(BURN_ADDRESS);
    DecidesAgainst();
    Buries();
    var gone := Account(0, GOVERNANCE_PROGRAM, Blank);
    ThreeSteps(d, Opening(), Opened(BURN_ADDRESS, Asked()), lost, lost[BURN_ADDRESS := gone],
               Ask(BURN_ADDRESS), Decide(BURN_ADDRESS), Bury());
    SupplyPut(lost, BURN_ADDRESS, gone);
  }
}
