/** The tally a proposal is decided on is exactly the stake that voted on it, each position once. */
module Tallies {
  import opened Dag
  import opened Governance
  import opened Proposals

  ghost predicate Casts(d: Derivation, b: Behavior, e: nat, k: Address, choice: Choice) {
    Fires(d, b, e) && b.events[e].call.instruction == Vote(choice) && About(b.events[e].call, k)
  }

  /** The stake behind the vote cast at event `e`. */
  ghost function Weight(d: Derivation, b: Behavior, e: nat, k: Address, choice: Choice): nat {
    if Casts(d, b, e, k, choice) then b.states[e][b.events[e].call.accounts[1]].data.position.amount else 0
  }

  /** All stake cast for `choice` on the proposal at `k` before event `i`. */
  ghost function Cast(d: Derivation, b: Behavior, i: nat, k: Address, choice: Choice): nat {
    if i == 0 then 0 else Cast(d, b, i - 1, k, choice) + Weight(d, b, i - 1, k, choice)
  }

  function Clamp(n: nat): nat {
    if n > U64_MAX then U64_MAX else n
  }

  function Count(p: Proposal, choice: Choice): nat {
    match choice
    case Yes => p.yes
    case No => p.no
    case Abstain => p.abstain
  }

  /** Votes are only ever cast on governance-owned accounts, and those stay. */
  lemma {:induction false} CastOnOwned(d: Derivation, b: Behavior, i: nat, k: Address, choice: Choice)
    requires Lawful(d, b) && i <= |b.events| && Cast(d, b, i, k, choice) > 0
    ensures Holds(b.states[i], k) || Spent(b.states[i], k)
  {
    EventMoves(d, b, i - 1, k);
    if Cast(d, b, i - 1, k, choice) > 0 {
      CastOnOwned(d, b, i - 1, k, choice);
    }
  }

  lemma RecordedCounts(p: Proposal, voter: Address, cast: Choice, weight: nat, choice: Choice)
    ensures Count(Recorded(p, voter, cast, weight), choice) ==
            if cast == choice then SatAdd(Count(p, choice), weight) else Count(p, choice)
  {
  }

  lemma VoteTurn(d: Derivation, b: Behavior, e: nat, k: Address, choice: Choice)
    requires e < |b.events| && |b.states| == |b.events| + 1
    requires Fires(d, b, e) && About(b.events[e].call, k) && b.events[e].call.instruction.Vote?
    requires Holds(b.states[e], k)
    ensures Count(Turned(b.states[e], b.events[e].call, ProposalAt(b.states[e], k)), choice) ==
            SatAdd(Count(ProposalAt(b.states[e], k), choice), Weight(d, b, e, k, choice)) ||
            Weight(d, b, e, k, choice) == 0
    ensures Weight(d, b, e, k, choice) == 0 ==>
            Count(Turned(b.states[e], b.events[e].call, ProposalAt(b.states[e], k)), choice) ==
            Count(ProposalAt(b.states[e], k), choice)
  {
    var c, p := b.events[e].call, ProposalAt(b.states[e], k);
    RecordedCounts(p, c.accounts[1], c.instruction.choice, b.states[e][c.accounts[1]].data.position.amount, choice);
  }

  lemma OtherTurn(d: Derivation, b: Behavior, e: nat, k: Address, choice: Choice)
    requires e < |b.events| && |b.states| == |b.events| + 1 && Holds(b.states[e], k)
    requires !(Fires(d, b, e) && About(b.events[e].call, k) && b.events[e].call.instruction.Vote?)
    ensures Weight(d, b, e, k, choice) == 0
    ensures b.events[e].Governed? && !b.events[e].call.instruction.Vote? ==>
            Count(Turned(b.states[e], b.events[e].call, ProposalAt(b.states[e], k)), choice) ==
            Count(ProposalAt(b.states[e], k), choice)
  {
  }

  /** An open proposal counts exactly the stake cast on it, up to 64-bit saturation. */
  lemma {:induction false} TallyExact(d: Derivation, b: Behavior, i: nat, k: Address, choice: Choice)
    requires Lawful(d, b) && i <= |b.events| && Holds(b.states[i], k)
    ensures Count(ProposalAt(b.states[i], k), choice) == Clamp(Cast(d, b, i, k, choice))
  {
    if i > 0 {
      var n := i - 1;
      EventMoves(d, b, n, k);
      if Holds(b.states[n], k) {
        TallyExact(d, b, n, k, choice);
        if Fires(d, b, n) && About(b.events[n].call, k) && b.events[n].call.instruction.Vote? {
          VoteTurn(d, b, n, k, choice);
        } else {
          OtherTurn(d, b, n, k, choice);
        }
      } else if Cast(d, b, n, k, choice) > 0 {
        CastOnOwned(d, b, n, k, choice);
      }
    }
  }

  /** Each position votes at most once on a proposal, and the voter list stays within its bound. */
  lemma {:induction false} VotersDistinct(d: Derivation, b: Behavior, i: nat, k: Address)
    requires Lawful(d, b) && i <= |b.events| && Holds(b.states[i], k)
    ensures Distinct(ProposalAt(b.states[i], k).voters) && |ProposalAt(b.states[i], k).voters| <= MAX_PROPOSAL_VOTES
  {
    if i > 0 {
      var n := i - 1;
      EventMoves(d, b, n, k);
      if Holds(b.states[n], k) {
        VotersDistinct(d, b, n, k);
      }
    }
  }

  lemma {:induction false} VoterRemembered(d: Derivation, b: Behavior, e: nat, i: nat, k: Address, choice: Choice)
    requires Lawful(d, b) && e < i <= |b.events| && Casts(d, b, e, k, choice)
    ensures Spent(b.states[i], k) ||
            (Holds(b.states[i], k) && b.events[e].call.accounts[1] in ProposalAt(b.states[i], k).voters)
    decreases i
  {
    EventMoves(d, b, i - 1, k);
    if i - 1 > e {
      VoterRemembered(d, b, e, i - 1, k, choice);
    }
  }

  /** Two accepted votes on one proposal come from different positions, so no stake counts twice. */
  lemma VotesOnce(d: Derivation, b: Behavior, e: nat, f: nat, k: Address, x: Choice, y: Choice)
    requires Lawful(d, b) && e < f < |b.events| && Casts(d, b, e, k, x) && Casts(d, b, f, k, y)
    ensures b.events[e].call.accounts[1] != b.events[f].call.accounts[1]
  {
    VoterRemembered(d, b, e, f, k, x);
  }
}
