/** Which instructions are accepted, and how proposals are decided, read off the events that went before. */
module Chronicle {
  import opened Dag
  import opened Governance
  import opened Proposals
  import opened Mandates
  import opened Tallies

  // ---- Events about one proposal account ------------------------------------------------------------

  ghost predicate Launches(d: Derivation, b: Behavior, e: nat, k: Address) {
    Fires(d, b, e) && b.events[e].call.instruction.Create? && About(b.events[e].call, k)
  }

  ghost predicate Polls(d: Derivation, b: Behavior, e: nat, k: Address) {
    Fires(d, b, e) && b.events[e].call.instruction.Vote? && About(b.events[e].call, k)
  }

  ghost predicate Decides(d: Derivation, b: Behavior, e: nat, k: Address) {
    Fires(d, b, e) && b.events[e].call.instruction.Finalize? && About(b.events[e].call, k)
  }

  ghost predicate Launched(d: Derivation, b: Behavior, i: nat, k: Address) {
    exists e :: 0 <= e < i && Launches(d, b, e, k)
  }

  ghost predicate Decided(d: Derivation, b: Behavior, i: nat, k: Address) {
    exists e :: 0 <= e < i && Decides(d, b, e, k)
  }

  ghost predicate Executed(d: Derivation, b: Behavior, i: nat, k: Address) {
    exists e :: 0 <= e < i && Executes(d, b, e, k)
  }

  ghost predicate Closed(d: Derivation, b: Behavior, i: nat, k: Address) {
    exists e :: 0 <= e < i && Closes(d, b, e, k)
  }

  /** The votes on `k` before event `i`. */
  ghost function Polled(d: Derivation, b: Behavior, i: nat, k: Address): set<nat> {
    set e | 0 <= e < i && Polls(d, b, e, k)
  }

  /** Event `n` adds itself to the past, if it is of the kind. */
  lemma OneMore(d: Derivation, b: Behavior, n: nat, k: Address)
    ensures Launched(d, b, n + 1, k) <==> Launched(d, b, n, k) || Launches(d, b, n, k)
    ensures Decided(d, b, n + 1, k) <==> Decided(d, b, n, k) || Decides(d, b, n, k)
    ensures Executed(d, b, n + 1, k) <==> Executed(d, b, n, k) || Executes(d, b, n, k)
    ensures Closed(d, b, n + 1, k) <==> Closed(d, b, n, k) || Closes(d, b, n, k)
  {
  }

  // ---- The record says what happened ----------------------------------------------------------------

  /** Where a proposal stands is what has happened to it. */
  ghost predicate Stands(d: Derivation, b: Behavior, i: nat, k: Address)
    requires i < |b.states|
  {
    if !Launched(d, b, i, k) then
      !Holds(b.states[i], k) && !Decided(d, b, i, k) && !Executed(d, b, i, k) && !Closed(d, b, i, k)
    else if Closed(d, b, i, k) then Spent(b.states[i], k) && Decided(d, b, i, k)
    else
      && Holds(b.states[i], k)
      && (ProposalAt(b.states[i], k).phase == Voting <==> !Decided(d, b, i, k))
      && (ProposalAt(b.states[i], k).phase == Phase.Executed <==> Executed(d, b, i, k))
  }

  lemma StandsStep(d: Derivation, b: Behavior, n: nat, k: Address)
    requires n < |b.events| && |b.states| == |b.events| + 1 && Stands(d, b, n, k) && Moves(d, b, n, k)
    ensures Stands(d, b, n + 1, k)
  {
    OneMore(d, b, n, k);
  }

  lemma {:induction false} RecordStands(d: Derivation, b: Behavior, i: nat, k: Address)
    requires Lawful(d, b) && i <= |b.events|
    ensures Stands(d, b, i, k)
  {
    if i > 0 {
      RecordStands(d, b, i - 1, k);
      EventMoves(d, b, i - 1, k);
      StandsStep(d, b, i - 1, k);
    }
  }

  /** What the opening event fixed for good. */
  ghost predicate FixedAt(b: Behavior, o: nat, p: Proposal)
    requires o < |b.events| && o < |b.states|
  {
    var l := b.states[o];
    && b.events[o].Governed? && b.events[o].call.instruction == Create(p.id, p.action)
    && p.proposer == b.events[o].call.payer && p.created == b.events[o].call.round
    && p.votingEnds == b.events[o].call.round + Period(p.action)
    && STAKING_STATS in l && l[STAKING_STATS].data == OfStats(p.snapshot)
    && PARAMS_ACCOUNT in l && l[PARAMS_ACCOUNT].data.OfParams? && l[PARAMS_ACCOUNT].data.params.deposit == p.deposit
  }

  /** Rounds of voting: two hundred for the algorithm registry, a hundred and fifty for a parameter. */
  function Period(a: Action): nat {
    if a.ActivateAlgorithm? || a.DeprecateAlgorithm? || a.RetireAlgorithm? then 200 else 150
  }

  /** Rounds from decision to execution. */
  function Wait(a: Action): nat {
    if a.ActivateAlgorithm? || a.DeprecateAlgorithm? || a.RetireAlgorithm? then 100 else 120
  }

  lemma {:induction false} OpeningFixes(d: Derivation, b: Behavior, o: nat, i: nat, k: Address)
    requires Lawful(d, b) && o < i <= |b.events| && Launches(d, b, o, k) && Holds(b.states[i], k)
    ensures FixedAt(b, o, ProposalAt(b.states[i], k))
    decreases i
  {
    var n := i - 1;
    EventMoves(d, b, n, k);
    RecordStands(d, b, n, k);
    if n > o {
      assert Launched(d, b, n, k);
      OpeningFixes(d, b, o, n, k);
    }
  }

  /** The voter list names the positions of the votes so far. */
  ghost predicate Rolls(d: Derivation, b: Behavior, i: nat, k: Address)
    requires i < |b.states|
  {
    && (!Launched(d, b, i, k) ==> Polled(d, b, i, k) == {})
    && (Holds(b.states[i], k) ==>
          && |ProposalAt(b.states[i], k).voters| == |Polled(d, b, i, k)|
          && forall v :: v in ProposalAt(b.states[i], k).voters <==> Voter(d, b, i, k, v))
  }

  /** The position `v` has voted on `k`. */
  ghost predicate Voter(d: Derivation, b: Behavior, i: nat, k: Address, v: Address) {
    exists e :: 0 <= e < i && Polls(d, b, e, k) && |b.events[e].call.accounts| > 1 && b.events[e].call.accounts[1] == v
  }

  lemma PolledNext(d: Derivation, b: Behavior, n: nat, k: Address)
    ensures Polled(d, b, n + 1, k) == Polled(d, b, n, k) + (if Polls(d, b, n, k) then {n} else {})
    ensures |Polled(d, b, n + 1, k)| == |Polled(d, b, n, k)| + if Polls(d, b, n, k) then 1 else 0
  {
    assert Polled(d, b, n + 1, k) == Polled(d, b, n, k) + (if Polls(d, b, n, k) then {n} else {});
  }

  lemma VoterNext(d: Derivation, b: Behavior, n: nat, k: Address, v: Address)
    ensures Voter(d, b, n + 1, k, v) <==>
            || Voter(d, b, n, k, v)
            || (Polls(d, b, n, k) && |b.events[n].call.accounts| > 1 && b.events[n].call.accounts[1] == v)
  {
  }

  lemma {:induction false} RollsTrue(d: Derivation, b: Behavior, i: nat, k: Address)
    requires Lawful(d, b) && i <= |b.events|
    ensures Rolls(d, b, i, k)
  {
    if i == 0 {
      assert Polled(d, b, 0, k) == {};
    } else {
      var n := i - 1;
      RollsTrue(d, b, n, k);
      RecordStands(d, b, n, k);
      EventMoves(d, b, n, k);
      OneMore(d, b, n, k);
      PolledNext(d, b, n, k);
      forall v ensures Voter(d, b, i, k, v) <==>
                       || Voter(d, b, n, k, v)
                       || (Polls(d, b, n, k) && |b.events[n].call.accounts| > 1 && b.events[n].call.accounts[1] == v)
      {
        VoterNext(d, b, n, k, v);
      }
      RollsStep(d, b, n, i, k);
    }
  }

  lemma NoVoter(d: Derivation, b: Behavior, n: nat, k: Address, v: Address)
    ensures Voter(d, b, n, k, v) ==> Polled(d, b, n, k) != {}
  {
    if Voter(d, b, n, k, v) {
      var e :| 0 <= e < n && Polls(d, b, e, k) && |b.events[e].call.accounts| > 1 && b.events[e].call.accounts[1] == v;
      assert e in Polled(d, b, n, k);
    }
  }

  /** What one event does to the voter list. */
  lemma VotersMove(d: Derivation, b: Behavior, n: nat, k: Address)
    requires n < |b.events| && |b.states| == |b.events| + 1 && Moves(d, b, n, k) && Holds(b.states[n + 1], k)
    ensures var after := ProposalAt(b.states[n + 1], k).voters;
            if Launches(d, b, n, k) then !Holds(b.states[n], k) && !Spent(b.states[n], k) && after == []
            else
              && Holds(b.states[n], k) && (Polls(d, b, n, k) ==> |b.events[n].call.accounts| > 1)
              && after == ProposalAt(b.states[n], k).voters
                          + if Polls(d, b, n, k) then [b.events[n].call.accounts[1]] else []
  {
  }

  lemma RollsStep(d: Derivation, b: Behavior, n: nat, i: nat, k: Address)
    requires n < |b.events| && i == n + 1 && |b.states| == |b.events| + 1
    requires Stands(d, b, n, k) && Moves(d, b, n, k) && Rolls(d, b, n, k)
    requires Launched(d, b, i, k) <==> Launched(d, b, n, k) || Launches(d, b, n, k)
    requires Polled(d, b, i, k) == Polled(d, b, n, k) + (if Polls(d, b, n, k) then {n} else {})
    requires |Polled(d, b, i, k)| == |Polled(d, b, n, k)| + if Polls(d, b, n, k) then 1 else 0
    requires forall v :: Voter(d, b, i, k, v) <==>
               || Voter(d, b, n, k, v)
               || (Polls(d, b, n, k) && |b.events[n].call.accounts| > 1 && b.events[n].call.accounts[1] == v)
    ensures Rolls(d, b, i, k)
  {
    if Holds(b.states[i], k) {
      VotersMove(d, b, n, k);
      if Launches(d, b, n, k) {
        assert !Launched(d, b, n, k) && !Polls(d, b, n, k);
        forall v ensures !Voter(d, b, n, k, v) {
          NoVoter(d, b, n, k, v);
        }
      }
    }
  }

  // ---- When an instruction is accepted --------------------------------------------------------------

  /** A proposal account holds a record exactly from its opening to its close. */
  lemma RecordHeld(d: Derivation, b: Behavior, i: nat, k: Address)
    requires Lawful(d, b) && i <= |b.events|
    ensures Holds(b.states[i], k) <==> Launched(d, b, i, k) && !Closed(d, b, i, k)
    ensures Closed(d, b, i, k) ==> Decided(d, b, i, k)
    ensures Holds(b.states[i], k) ==>
              && (ProposalAt(b.states[i], k).phase == Voting <==> !Decided(d, b, i, k))
              && (ProposalAt(b.states[i], k).phase == Phase.Executed <==> Executed(d, b, i, k))
              && forall o :: 0 <= o < i && Launches(d, b, o, k) ==> FixedAt(b, o, ProposalAt(b.states[i], k))
  {
    RecordStands(d, b, i, k);
    if Holds(b.states[i], k) {
      forall o | 0 <= o < i && Launches(d, b, o, k) ensures FixedAt(b, o, ProposalAt(b.states[i], k)) {
        OpeningFixes(d, b, o, i, k);
      }
    }
  }

  /** `v` is a stake position of `payer` that was created by round `since`. */
  ghost predicate OwnStake(l: Ledger, v: Address, payer: Address, since: nat) {
    && v in l && l[v].owner == STAKING_PROGRAM && l[v].data.OfPosition?
    && l[v].data.position.owner == payer && l[v].data.position.amount > 0 && l[v].data.position.created <= since
  }

  /** Event `o` opened `k` before `i`, and the call at `i` may vote on it with its own stake and in time. */
  ghost predicate MayVote(d: Derivation, b: Behavior, o: nat, i: nat, k: Address)
    requires i < |b.events| && i < |b.states| && b.events[i].Governed? && |b.events[i].call.accounts| > 1
  {
    var c := b.events[i].call;
    && o < i && Launches(d, b, o, k)
    && OwnStake(b.states[i], c.accounts[1], c.payer, b.events[o].call.round)
    && c.round < b.events[o].call.round + Period(b.events[o].call.instruction.action)
  }

  /**
   * A vote is accepted exactly when the proposal has been opened and not yet decided, the voting period
   * counted from the opening is not over, the signer owns the position, which is no newer,
   * that position has not voted yet, and fewer than a hundred thousand have.
   */
  lemma VoteAcceptedExactly(d: Derivation, b: Behavior, i: nat, k: Address)
    requires Lawful(d, b) && i < |b.events| && b.events[i].Governed?
    requires b.events[i].call.instruction.Vote? && About(b.events[i].call, k)
    ensures var c := b.events[i].call;
            Fires(d, b, i) <==>
            && |c.accounts| > 1 && (exists o :: MayVote(d, b, o, i, k)) && !Decided(d, b, i, k)
            && !Voter(d, b, i, k, c.accounts[1]) && |Polled(d, b, i, k)| < 100_000
  {
    RecordHeld(d, b, i, k);
    RollsTrue(d, b, i, k);
    if Holds(b.states[i], k) && |b.events[i].call.accounts| > 1 {
      var o :| 0 <= o < i && Launches(d, b, o, k);
      if Fires(d, b, i) {
        assert MayVote(d, b, o, i, k);
      }
    }
  }

  /** The voting period counted from the opening event is over. */
  ghost predicate VotingOver(d: Derivation, b: Behavior, o: nat, i: nat, k: Address)
    requires i < |b.events| && b.events[i].Governed?
  {
    && o < i && Launches(d, b, o, k)
    && b.events[o].call.round + Period(b.events[o].call.instruction.action) <= b.events[i].call.round
  }

  /** A decision is accepted, from anyone, exactly when voting is over and there has been none. */
  lemma DecisionAcceptedExactly(d: Derivation, b: Behavior, i: nat, k: Address)
    requires Lawful(d, b) && i < |b.events| && b.events[i].Governed?
    requires b.events[i].call.instruction.Finalize? && About(b.events[i].call, k)
    ensures var c := b.events[i].call;
            Fires(d, b, i) <==>
            && |c.accounts| > 1 && c.accounts[1] == STAKING_STATS
            && (exists o :: VotingOver(d, b, o, i, k)) && !Decided(d, b, i, k)
  {
    RecordHeld(d, b, i, k);
    if Holds(b.states[i], k) {
      var o :| 0 <= o < i && Launches(d, b, o, k);
      if Fires(d, b, i) {
        assert VotingOver(d, b, o, i, k);
      }
    }
  }

  // ---- How a proposal is decided ----------------------------------------------------------------------

  /** Turnout of a quarter, or three tenths, of the stake at the opening; two thirds of the decided votes. */
  predicate Carried(a: Action, snapshot: nat, yes: nat, no: nat, abstain: nat) {
    var turnout := if a.ActivateAlgorithm? || a.DeprecateAlgorithm? || a.RetireAlgorithm? then 2_500 else 3_000;
    && snapshot > 0 && 10_000 * Clamp(yes + no + abstain) >= turnout * snapshot
    && yes + no > 0 && 10_000 * Clamp(yes) >= 6_667 * Clamp(yes + no)
  }

  lemma TurnoutUncapped(cast: nat, snapshot: nat, turnout: nat)
    requires turnout <= 10_000
    ensures var counted := if cast > snapshot then snapshot else cast;
            counted * 10_000 >= turnout * snapshot <==> 10_000 * cast >= turnout * snapshot
  {
    if cast > snapshot {
      assert turnout * snapshot <= 10_000 * snapshot;
    }
  }

  lemma ClampedSums(x: nat, y: nat, z: nat)
    ensures SatAdd(Clamp(x), Clamp(y)) == Clamp(x + y)
    ensures SatAdd(SatAdd(Clamp(x), Clamp(y)), Clamp(z)) == Clamp(x + y + z)
  {
  }

  lemma PassesExactly(p: Proposal, yes: nat, no: nat, abstain: nat)
    requires p.yes == Clamp(yes) && p.no == Clamp(no) && p.abstain == Clamp(abstain)
    ensures Evaluate(p) == Passed <==> Carried(p.action, p.snapshot, yes, no, abstain)
  {
    PassedExactly(p);
    ClampedSums(yes, no, abstain);
    TurnoutUncapped(Clamp(yes + no + abstain), p.snapshot, Rule(p.action).participation);
  }

  /**
   * A proposal passes exactly when the stake cast on it since its opening carries it, against the stake
   * there was when it was opened.
   */
  lemma DecidedExactly(d: Derivation, b: Behavior, o: nat, j: nat, k: Address)
    requires Lawful(d, b) && o < j < |b.events| && Launches(d, b, o, k) && Decides(d, b, j, k)
    ensures STAKING_STATS in b.states[o] && b.states[o][STAKING_STATS].data.OfStats? && Holds(b.states[j + 1], k)
    ensures var stake := b.states[o][STAKING_STATS].data.totalStaked;
            ProposalAt(b.states[j + 1], k).phase ==
            if Carried(b.events[o].call.instruction.action, stake, Cast(d, b, j, k, Yes), Cast(d, b, j, k, No),
                       Cast(d, b, j, k, Abstain)) then Passed
            else Rejected
  {
    EventMoves(d, b, j, k);
    OpeningFixes(d, b, o, j, k);
    var p := ProposalAt(b.states[j], k);
    TallyExact(d, b, j, k, Yes);
    TallyExact(d, b, j, k, No);
    TallyExact(d, b, j, k, Abstain);
    PassesExactly(p, Cast(d, b, j, k, Yes), Cast(d, b, j, k, No), Cast(d, b, j, k, Abstain));
    PassedExactly(p);
  }

  // ---- After the decision -----------------------------------------------------------------------------

  /** The decision at `j` stands at `i`: executed only if it was in favour, and otherwise as it fell. */
  ghost predicate OutcomeAt(d: Derivation, b: Behavior, j: nat, i: nat, k: Address)
    requires j + 1 < |b.states| && i < |b.states|
  {
    && Holds(b.states[j + 1], k)
    && (!Closed(d, b, i, k) ==>
          && Holds(b.states[i], k)
          && ProposalAt(b.states[i], k).passedRound == ProposalAt(b.states[j + 1], k).passedRound
          && if Executed(d, b, i, k) then ProposalAt(b.states[j + 1], k).phase == Passed
             else ProposalAt(b.states[i], k).phase == ProposalAt(b.states[j + 1], k).phase)
  }

  lemma OutcomeStep(d: Derivation, b: Behavior, j: nat, n: nat, k: Address)
    requires |b.states| == |b.events| + 1 && j < n < |b.events| && Moves(d, b, n, k) && OutcomeAt(d, b, j, n, k)
    requires Closed(d, b, n, k) ==> Spent(b.states[n], k)
    requires Holds(b.states[n], k) ==>
               && ProposalAt(b.states[n], k).phase != Voting
               && (ProposalAt(b.states[n], k).phase == Phase.Executed <==> Executed(d, b, n, k))
    ensures OutcomeAt(d, b, j, n + 1, k)
  {
    OneMore(d, b, n, k);
  }

  lemma {:induction false} OutcomeStays(d: Derivation, b: Behavior, j: nat, i: nat, k: Address)
    requires Lawful(d, b) && j < i <= |b.events| && Decides(d, b, j, k)
    ensures OutcomeAt(d, b, j, i, k)
    decreases i
  {
    var n := i - 1;
    EventMoves(d, b, n, k);
    RecordStands(d, b, n, k);
    OneMore(d, b, n, k);
    if n > j {
      assert Decided(d, b, n, k);
      OutcomeStays(d, b, j, n, k);
      OutcomeStep(d, b, j, n, k);
    }
  }

  ghost predicate FellAs(b: Behavior, j: nat, k: Address, phase: Phase) {
    j + 1 < |b.states| && Holds(b.states[j + 1], k) && ProposalAt(b.states[j + 1], k).phase == phase
  }

  /** An action is aimed at the one account of its kind, and changes something there. */
  ghost predicate Applies(l: Ledger, target: Address, action: Action, round: nat) {
    && Typed(l)
    && if ForRegistry(action) then
         target == REGISTRY_ACCOUNT && RegistryAfter(l[target].data.algorithms, action, round).Some?
       else
         target == PARAMS_ACCOUNT && ParamsAfter(l[target].data.params, action).Some?
  }

  /** No emergency record, or one that can be read and says governance runs. */
  predicate Running(l: Ledger) {
    || EMERGENCY_ACCOUNT !in l
    || (l[EMERGENCY_ACCOUNT].data.OfEmergency? && !l[EMERGENCY_ACCOUNT].data.emergency.paused)
  }

  /** Opened at `o` and decided in favour at `j`; the wait from there is over and the action applies. */
  ghost predicate MayExecute(d: Derivation, b: Behavior, o: nat, j: nat, i: nat, k: Address)
    requires i < |b.events| && i < |b.states| && b.events[i].Governed? && |b.events[i].call.accounts| > 1
  {
    && o < j < i && Launches(d, b, o, k) && Decides(d, b, j, k) && FellAs(b, j, k, Passed)
    && var c, action := b.events[i].call, b.events[o].call.instruction.action;
       Clamp(b.events[j].call.round + Wait(action)) <= c.round && Applies(b.states[i], c.accounts[1], action, c.round)
  }

  lemma DecisionDated(d: Derivation, b: Behavior, j: nat, k: Address)
    requires Lawful(d, b) && j < |b.events| && Decides(d, b, j, k) && FellAs(b, j, k, Passed)
    ensures ProposalAt(b.states[j + 1], k).passedRound == Some(b.events[j].call.round)
  {
    EventMoves(d, b, j, k);
  }

  /** Some event decided what is no longer open. */
  lemma DecidingEvent(d: Derivation, b: Behavior, o: nat, i: nat, k: Address) returns (j: nat)
    requires Lawful(d, b) && o < i <= |b.events| && Launches(d, b, o, k) && Decided(d, b, i, k)
    ensures o < j < i && Decides(d, b, j, k)
  {
    j :| 0 <= j < i && Decides(d, b, j, k);
    RecordStands(d, b, o, k);
    EventMoves(d, b, o, k);
    assert !Decided(d, b, o, k);
  }

  /**
   * An execution is accepted, from anyone, exactly when governance is not paused, the proposal was
   * decided in favour, has not been executed, has waited, and its action applies to the given account.
   */
  lemma ExecutionAcceptedExactly(d: Derivation, b: Behavior, i: nat, k: Address)
    requires Lawful(d, b) && i < |b.events| && b.events[i].Governed?
    requires b.events[i].call.instruction.Execute? && About(b.events[i].call, k)
    ensures var c := b.events[i].call;
            Fires(d, b, i) <==>
            && |c.accounts| > 2 && c.accounts[2] == EMERGENCY_ACCOUNT && Running(b.states[i])
            && (exists o, j :: MayExecute(d, b, o, j, i, k)) && !Executed(d, b, i, k)
  {
    RecordHeld(d, b, i, k);
    StaysTyped(d, b, i);
    if |b.events[i].call.accounts| > 2 {
      if Fires(d, b, i) {
        var o :| 0 <= o < i && Launches(d, b, o, k);
        var j := DecidingEvent(d, b, o, i, k);
        OutcomeStays(d, b, j, i, k);
        DecisionDated(d, b, j, k);
        assert MayExecute(d, b, o, j, i, k);
      } else if o, j :| MayExecute(d, b, o, j, i, k) {
        OutcomeStays(d, b, j, i, k);
        DecisionDated(d, b, j, k);
        ClosedIsSettled(d, b, j, i, k);
      }
    }
  }

  /** A proposal decided in favour is closed only after its execution. */
  lemma {:induction false} ClosedIsSettled(d: Derivation, b: Behavior, j: nat, i: nat, k: Address)
    requires Lawful(d, b) && j < i <= |b.events| && Decides(d, b, j, k) && FellAs(b, j, k, Passed)
    ensures Closed(d, b, i, k) ==> Executed(d, b, i, k)
    decreases i
  {
    var n := i - 1;
    OneMore(d, b, n, k);
    if n > j {
      ClosedIsSettled(d, b, j, n, k);
      OutcomeStays(d, b, j, n, k);
      EventMoves(d, b, n, k);
    } else {
      RecordStands(d, b, n, k);
      EventMoves(d, b, n, k);
    }
  }

  /** Opened at `o`, kept long enough past its voting period, and closed in favour of who opened it. */
  ghost predicate MayClose(d: Derivation, b: Behavior, o: nat, i: nat, k: Address)
    requires i < |b.events| && b.events[i].Governed? && |b.events[i].call.accounts| > 1
  {
    && o < i && Launches(d, b, o, k)
    && Clamp(b.events[o].call.round + Period(b.events[o].call.instruction.action) + 5_000) <= b.events[i].call.round
    && b.events[i].call.accounts[1] == b.events[o].call.payer
  }

  ghost predicate RejectedBefore(d: Derivation, b: Behavior, i: nat, k: Address) {
    exists j :: 0 <= j < i && Decides(d, b, j, k) && FellAs(b, j, k, Rejected)
  }

  /** Refund and burn both leave their receivers with 64-bit balances. */
  ghost predicate Payable(l: Ledger, k: Address)
    requires Holds(l, k)
  {
    var to, refund := ProposalAt(l, k).proposer, Refund(l, k);
    var burn := l[k].balance - refund;
    && (refund == 0 || Balance(l, to) + refund <= U64_MAX)
    && (burn == 0 || Balance(l, BURN_ADDRESS) + (if to == BURN_ADDRESS then refund else 0) + burn <= U64_MAX)
  }

  /**
   * A close is accepted, from anyone, exactly when the proposal was rejected or executed, is still there,
   * has been kept five thousand rounds past its voting period, and both credits fit.
   */
  lemma CloseAcceptedExactly(d: Derivation, b: Behavior, i: nat, k: Address)
    requires Lawful(d, b) && i < |b.events| && b.events[i].Governed?
    requires b.events[i].call.instruction.Close? && About(b.events[i].call, k)
    ensures var c := b.events[i].call;
            Fires(d, b, i) <==>
            && |c.accounts| > 2 && c.accounts[2] == BURN_ADDRESS && !Closed(d, b, i, k)
            && (exists o :: MayClose(d, b, o, i, k)) && (RejectedBefore(d, b, i, k) || Executed(d, b, i, k))
            && Holds(b.states[i], k) && Payable(b.states[i], k)
  {
    RecordHeld(d, b, i, k);
    if |b.events[i].call.accounts| > 2 && Holds(b.states[i], k) {
      SupplyPaid(b.states[i], ProposalAt(b.states[i], k).proposer, Refund(b.states[i], k));
      var o :| 0 <= o < i && Launches(d, b, o, k);
      if Fires(d, b, i) {
        assert MayClose(d, b, o, i, k);
        var j := DecidingEvent(d, b, o, i, k);
        OutcomeStays(d, b, j, i, k);
      } else if RejectedBefore(d, b, i, k) {
        var j :| 0 <= j < i && Decides(d, b, j, k) && FellAs(b, j, k, Rejected);
        OutcomeStays(d, b, j, i, k);
      }
    }
  }

  // ---- Opening ------------------------------------------------------------------------------------------

  /**
   * A proposal is opened exactly when its signer lists itself first and can pay the deposit, the address
   * is the one derived for it and unused, and the two singletons are named and readable.
   */
  lemma OpeningAcceptedExactly(d: Derivation, b: Behavior, i: nat)
    requires Lawful(d, b) && i < |b.events| && b.events[i].Governed? && b.events[i].call.instruction.Create?
    ensures Typed(b.states[i])
    ensures var c, l := b.events[i].call, b.states[i];
            Fires(d, b, i) <==>
            && |c.accounts| >= 4 && c.accounts[0] == c.payer && c.accounts[1] == d(c.payer, c.instruction.id)
            && c.accounts[2] == STAKING_STATS && c.accounts[3] == PARAMS_ACCOUNT
            && c.accounts[1] !in l && STAKING_STATS in l && l[STAKING_STATS].data.OfStats?
            && Balance(l, c.payer) >= l[PARAMS_ACCOUNT].data.params.deposit
            && c.round + Period(c.instruction.action) <= U64_MAX
  {
    StaysTyped(d, b, i);
  }

  // ---- Authority ----------------------------------------------------------------------------------------

  /**
   * Every counted vote was cast by the owner of its stake: the signer owns the position, a staking-program
   * account no newer than the proposal, and signs before the voting period is over.
   */
  lemma VotesAreOwn(d: Derivation, b: Behavior, e: nat, k: Address, choice: Choice)
    requires Lawful(d, b) && e < |b.events| && Casts(d, b, e, k, choice)
    ensures |b.events[e].call.accounts| > 1 && exists o :: MayVote(d, b, o, e, k)
  {
    VoteAcceptedExactly(d, b, e, k);
  }

  /** Stake that its owner cast at event `e`, from a position no newer than the proposal. */
  ghost function OwnWeight(d: Derivation, b: Behavior, e: nat, k: Address, choice: Choice): nat {
    if && Casts(d, b, e, k, choice) && |b.events[e].call.accounts| > 1
       && exists o :: MayVote(d, b, o, e, k)
    then b.states[e][b.events[e].call.accounts[1]].data.position.amount else 0
  }

  ghost function OwnCast(d: Derivation, b: Behavior, i: nat, k: Address, choice: Choice): nat {
    if i == 0 then 0 else OwnCast(d, b, i - 1, k, choice) + OwnWeight(d, b, i - 1, k, choice)
  }

  lemma {:induction false} CastIsOwn(d: Derivation, b: Behavior, i: nat, k: Address, choice: Choice)
    requires Lawful(d, b) && i <= |b.events|
    ensures OwnCast(d, b, i, k, choice) == Cast(d, b, i, k, choice)
  {
    if i > 0 {
      CastIsOwn(d, b, i - 1, k, choice);
      if Casts(d, b, i - 1, k, choice) {
        VotesAreOwn(d, b, i - 1, k, choice);
      }
    }
  }

  /** The tally is stake committed by its own holders, from positions no newer than the proposal. */
  lemma TallyIsOwn(d: Derivation, b: Behavior, i: nat, k: Address, choice: Choice)
    requires Lawful(d, b) && i <= |b.events| && Holds(b.states[i], k)
    ensures Count(ProposalAt(b.states[i], k), choice) == Clamp(OwnCast(d, b, i, k, choice))
  {
    TallyExact(d, b, i, k, choice);
    CastIsOwn(d, b, i, k, choice);
  }

  /** A vote locks its position until the proposal could be executed, never shortens a lock, and changes no more. */
  lemma VoteLocks(d: Derivation, b: Behavior, e: nat, k: Address, choice: Choice)
    requires Lawful(d, b) && e < |b.events| && Casts(d, b, e, k, choice)
    ensures |b.events[e].call.accounts| > 1
    ensures var l, m, v := b.states[e], b.states[e + 1], b.events[e].call.accounts[1];
            && v in l && l[v].data.OfPosition? && v in m && m[v].data.OfPosition? && Holds(l, k)
            && var s, t, p := l[v].data.position, m[v].data.position, ProposalAt(l, k);
               && t == s.(lockedUntil := t.lockedUntil) && t.lockedUntil >= s.lockedUntil
               && t.lockedUntil >= Clamp(p.votingEnds + Wait(p.action))
               && (t.lockedUntil == s.lockedUntil || t.lockedUntil == Clamp(p.votingEnds + Wait(p.action)))
  {
    assert StepAt(d, b, e);
  }
}
