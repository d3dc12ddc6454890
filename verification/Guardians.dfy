/** The emergency pause over runs: every flip has enough guardians behind it. */
module Guardians {
  import opened Dag
  import opened Governance
  import opened Proposals

  ghost predicate Guarded(l: Ledger) {
    EMERGENCY_ACCOUNT in l && l[EMERGENCY_ACCOUNT].data.OfEmergency?
  }

  ghost function EmergencyIn(l: Ledger): Emergency
    requires Guarded(l)
  {
    l[EMERGENCY_ACCOUNT].data.emergency
  }

  ghost predicate Approves(d: Derivation, b: Behavior, e: nat, g: Address, want: bool) {
    Fires(d, b, e) && b.events[e].call.instruction == Approve(want) && b.events[e].call.payer == g
  }

  /** Only approvals touch the emergency record. */
  lemma RecordStays(d: Derivation, l: Ledger, c: Call)
    requires Guarded(l) && Accepted(d, l, c)
    ensures var m := After(d, l, c);
            && Guarded(m)
            && (if c.instruction.Approve? then
                  && c.payer in EmergencyIn(l).guardians && EmergencyIn(l).paused != c.instruction.wantPaused
                  && EmergencyIn(m) == Approved(EmergencyIn(l), c.payer, c.instruction.wantPaused)
                else EmergencyIn(m) == EmergencyIn(l))
  {
  }

  /** What event `i` does to the emergency record. */
  ghost predicate RecordMoves(d: Derivation, b: Behavior, i: nat)
    requires i < |b.events| && |b.states| == |b.events| + 1
  {
    && Guarded(b.states[i]) && Guarded(b.states[i + 1])
    && var e, f := EmergencyIn(b.states[i]), EmergencyIn(b.states[i + 1]);
       || f == e
       || exists g, want ::
            Approves(d, b, i, g, want) && g in e.guardians && e.paused != want && f == Approved(e, g, want)
  }

  lemma {:induction false} StaysGuarded(d: Derivation, b: Behavior, i: nat)
    requires Lawful(d, b) && Guarded(b.states[0]) && i <= |b.events|
    ensures Guarded(b.states[i])
  {
    if i > 0 {
      StaysGuarded(d, b, i - 1);
      assert StepAt(d, b, i - 1);
      if Fires(d, b, i - 1) {
        RecordStays(d, b.states[i - 1], b.events[i - 1].call);
      }
    }
  }

  lemma EventMovesRecord(d: Derivation, b: Behavior, i: nat)
    requires Lawful(d, b) && Guarded(b.states[0]) && i < |b.events|
    ensures RecordMoves(d, b, i)
  {
    StaysGuarded(d, b, i);
    StaysGuarded(d, b, i + 1);
    assert StepAt(d, b, i);
    if Fires(d, b, i) {
      var c := b.events[i].call;
      RecordStays(d, b.states[i], c);
      if c.instruction.Approve? {
        assert Approves(d, b, i, c.payer, c.instruction.wantPaused);
      }
    }
  }

  ghost predicate Flips(b: Behavior, i: nat) {
    && i + 1 < |b.states| && Guarded(b.states[i]) && Guarded(b.states[i + 1])
    && EmergencyIn(b.states[i]).paused != EmergencyIn(b.states[i + 1]).paused
  }

  /** Distinct guardians, each of whom approved at some event in `[from, to)`. */
  ghost predicate Backed(d: Derivation, b: Behavior, from: nat, to: nat, guardians: seq<Address>, list: seq<Address>,
                         want: bool) {
    && Distinct(list)
    && forall g :: g in list ==> g in guardians && exists e :: from <= e < to && Approves(d, b, e, g, want)
  }

  ghost predicate Quiet(e: Emergency) {
    e.pauseApprovals == [] && e.unpauseApprovals == []
  }

  function Tentative(e: Emergency, g: Address, want: bool): seq<Address> {
    var list := if want then e.pauseApprovals else e.unpauseApprovals;
    if g in list then list else list + [g]
  }

  lemma TentativeBacked(d: Derivation, b: Behavior, from: nat, i: nat, e: Emergency, g: Address, want: bool)
    requires from <= i && Approves(d, b, i, g, want) && g in e.guardians
    requires Backed(d, b, from, i, e.guardians, e.pauseApprovals, true)
    requires Backed(d, b, from, i, e.guardians, e.unpauseApprovals, false)
    ensures Backed(d, b, from, i + 1, e.guardians, Tentative(e, g, want), want)
  {
  }

  /** Between flips, each approval list names distinct guardians who approved since the last flip. */
  lemma {:induction false} ApprovalsBacked(d: Derivation, b: Behavior, from: nat, i: nat)
    requires Lawful(d, b) && Guarded(b.states[0]) && from <= i <= |b.events|
    requires Guarded(b.states[from]) && Quiet(EmergencyIn(b.states[from]))
    requires forall n :: from <= n < i ==> !Flips(b, n)
    ensures Guarded(b.states[i])
    ensures var e, e0 := EmergencyIn(b.states[i]), EmergencyIn(b.states[from]);
            && e.guardians == e0.guardians && e.threshold == e0.threshold && e.paused == e0.paused
            && Backed(d, b, from, i, e.guardians, e.pauseApprovals, true)
            && Backed(d, b, from, i, e.guardians, e.unpauseApprovals, false)
    decreases i
  {
    if i > from {
      var n := i - 1;
      ApprovalsBacked(d, b, from, n);
      EventMovesRecord(d, b, n);
      assert !Flips(b, n);
      var e := EmergencyIn(b.states[n]);
      if EmergencyIn(b.states[i]) != e {
        var g, want :| Approves(d, b, n, g, want) && g in e.guardians && e.paused != want &&
                       EmergencyIn(b.states[i]) == Approved(e, g, want);
        TentativeBacked(d, b, from, n, e, g, want);
      }
    }
  }

  /** Right after a flip both lists are empty. */
  lemma FlipClears(d: Derivation, b: Behavior, i: nat)
    requires Lawful(d, b) && Guarded(b.states[0]) && i < |b.events| && Flips(b, i)
    ensures Quiet(EmergencyIn(b.states[i + 1]))
  {
    EventMovesRecord(d, b, i);
  }

  /**
   * Every pause and every unpause is backed by at least `threshold` distinct guardians who approved
   * it since the previous flip, or since the start if there was none.
   */
  lemma FlipBacked(d: Derivation, b: Behavior, from: nat, i: nat)
    requires Lawful(d, b) && Guarded(b.states[0]) && from <= i < |b.events|
    requires if from == 0 then Quiet(EmergencyIn(b.states[0])) else Flips(b, from - 1)
    requires Flips(b, i) && forall n :: from <= n < i ==> !Flips(b, n)
    ensures Guarded(b.states[from])
    ensures exists voters ::
              && |voters| >= EmergencyIn(b.states[from]).threshold
              && Backed(d, b, from, i + 1, EmergencyIn(b.states[from]).guardians, voters,
                        EmergencyIn(b.states[i + 1]).paused)
  {
    if from > 0 {
      FlipClears(d, b, from - 1);
    }
    ApprovalsBacked(d, b, from, i);
    EventMovesRecord(d, b, i);
    var e := EmergencyIn(b.states[i]);
    var g, want :| Approves(d, b, i, g, want) && g in e.guardians && e.paused != want &&
                   EmergencyIn(b.states[i + 1]) == Approved(e, g, want);
    TentativeBacked(d, b, from, i, e, g, want);
    assert |Tentative(e, g, want)| >= e.threshold;
  }

  // ---- Exactly when an approval flips -----------------------------------------------------------------

  /** The guardians who approved at some event in `[from, to)`. */
  ghost function Approvers(d: Derivation, b: Behavior, from: nat, to: nat, guardians: seq<Address>,
                           want: bool): set<Address> {
    set g | g in guardians && exists e :: from <= e < to && Approves(d, b, e, g, want)
  }

  ghost function Names(s: seq<Address>): set<Address> {
    set x | x in s
  }

  lemma {:induction false} DistinctCount(s: seq<Address>)
    requires Distinct(s)
    ensures |Names(s)| == |s|
    decreases |s|
  {
    if s == [] {
      assert Names(s) == {};
    } else {
      var n := |s| - 1;
      DistinctCount(s[..n]);
      assert s == s[..n] + [s[n]];
      assert Names(s) == Names(s[..n]) + {s[n]};
    }
  }

  ghost function Gathered(e: Emergency, want: bool): seq<Address> {
    if want then e.pauseApprovals else e.unpauseApprovals
  }

  /** The list being gathered names exactly the approvers, each once; the other list is empty. */
  ghost predicate Gathers(d: Derivation, b: Behavior, from: nat, i: nat, e: Emergency) {
    var list := Gathered(e, !e.paused);
    && Distinct(list) && Gathered(e, e.paused) == []
    && Names(list) == Approvers(d, b, from, i, e.guardians, !e.paused)
  }

  lemma ApproversSame(d: Derivation, b: Behavior, from: nat, n: nat, guardians: seq<Address>, want: bool)
    requires forall g :: g in guardians ==> !Approves(d, b, n, g, want)
    ensures Approvers(d, b, from, n + 1, guardians, want) == Approvers(d, b, from, n, guardians, want)
  {
  }

  lemma ApproversNext(d: Derivation, b: Behavior, from: nat, n: nat, guardians: seq<Address>, want: bool, g: Address)
    requires from <= n && g in guardians && Approves(d, b, n, g, want)
    ensures Approvers(d, b, from, n + 1, guardians, want) == Approvers(d, b, from, n, guardians, want) + {g}
  {
  }

  /** An approval adds its guardian to the list being gathered. */
  lemma GathersApproval(d: Derivation, b: Behavior, from: nat, n: nat, e: Emergency, g: Address)
    requires from <= n && Gathers(d, b, from, n, e) && g in e.guardians && Approves(d, b, n, g, !e.paused)
    ensures var list := Tentative(e, g, !e.paused);
            && Distinct(list) && Names(list) == Approvers(d, b, from, n + 1, e.guardians, !e.paused)
            && |list| == |Approvers(d, b, from, n + 1, e.guardians, !e.paused)|
  {
    ApproversNext(d, b, from, n, e.guardians, !e.paused, g);
    TentativeNames(e, g, !e.paused);
    DistinctCount(Tentative(e, g, !e.paused));
  }

  lemma TentativeNames(e: Emergency, g: Address, want: bool)
    requires Distinct(Gathered(e, want))
    ensures Distinct(Tentative(e, g, want)) && Names(Tentative(e, g, want)) == Names(Gathered(e, want)) + {g}
  {
  }

  lemma {:induction false} ApprovalsExactly(d: Derivation, b: Behavior, from: nat, i: nat)
    requires Lawful(d, b) && Guarded(b.states[0]) && from <= i <= |b.events|
    requires Guarded(b.states[from]) && Quiet(EmergencyIn(b.states[from]))
    requires forall n :: from <= n < i ==> !Flips(b, n)
    ensures Guarded(b.states[i]) && Gathers(d, b, from, i, EmergencyIn(b.states[i]))
    ensures var e, e0 := EmergencyIn(b.states[i]), EmergencyIn(b.states[from]);
            e.guardians == e0.guardians && e.threshold == e0.threshold && e.paused == e0.paused
    decreases i
  {
    if i == from {
      assert Names([]) == {};
    } else {
      var n := i - 1;
      ApprovalsExactly(d, b, from, n);
      StaysGuarded(d, b, i);
      assert StepAt(d, b, n) && !Flips(b, n);
      GathersStep(d, b, from, n);
    }
  }

  /** What a governed event does to the record, approvals told apart. */
  lemma RecordStep(d: Derivation, b: Behavior, n: nat)
    requires |b.states| == |b.events| + 1 && n < |b.events| && StepAt(d, b, n) && Guarded(b.states[n])
    ensures Guarded(b.states[n + 1])
    ensures var e, f := EmergencyIn(b.states[n]), EmergencyIn(b.states[n + 1]);
            if Fires(d, b, n) && b.events[n].call.instruction.Approve? then
              var g := b.events[n].call.payer;
              && g in e.guardians && b.events[n].call.instruction.wantPaused != e.paused
              && Approves(d, b, n, g, !e.paused) && f == Approved(e, g, !e.paused)
            else f == e && forall g, want :: !Approves(d, b, n, g, want)
  {
    if Fires(d, b, n) {
      RecordStays(d, b.states[n], b.events[n].call);
    }
  }

  /** An approval flips exactly when the list it completes reaches the threshold, and otherwise keeps that list. */
  lemma ApprovedFlips(e: Emergency, g: Address)
    requires Gathered(e, e.paused) == []
    ensures var f, list := Approved(e, g, !e.paused), Tentative(e, g, !e.paused);
            && f.guardians == e.guardians && f.threshold == e.threshold
            && (f.paused != e.paused <==> |list| >= e.threshold)
            && (f.paused == e.paused ==> Gathered(f, !f.paused) == list && Gathered(f, f.paused) == [])
  {
  }

  lemma GathersStep(d: Derivation, b: Behavior, from: nat, n: nat)
    requires |b.states| == |b.events| + 1 && from <= n < |b.events| && StepAt(d, b, n) && !Flips(b, n)
    requires Guarded(b.states[n]) && Guarded(b.states[n + 1]) && Gathers(d, b, from, n, EmergencyIn(b.states[n]))
    ensures Gathers(d, b, from, n + 1, EmergencyIn(b.states[n + 1]))
    ensures var e, f := EmergencyIn(b.states[n]), EmergencyIn(b.states[n + 1]);
            f.guardians == e.guardians && f.threshold == e.threshold && f.paused == e.paused
  {
    var e := EmergencyIn(b.states[n]);
    RecordStep(d, b, n);
    if Fires(d, b, n) && b.events[n].call.instruction.Approve? {
      GathersApproval(d, b, from, n, e, b.events[n].call.payer);
      ApprovedFlips(e, b.events[n].call.payer);
    } else {
      ApproversSame(d, b, from, n, e.guardians, !e.paused);
    }
  }

  lemma QuietSince(d: Derivation, b: Behavior, from: nat)
    requires Lawful(d, b) && Guarded(b.states[0]) && from <= |b.events|
    requires if from == 0 then Quiet(EmergencyIn(b.states[0])) else Flips(b, from - 1)
    ensures Guarded(b.states[from]) && Quiet(EmergencyIn(b.states[from]))
  {
    if from > 0 {
      FlipClears(d, b, from - 1);
    }
  }

  /**
   * An approval is accepted exactly when a configured guardian asks for the other state, and it flips
   * exactly when those who asked since the last flip, itself included, reach the threshold.
   */
  lemma ApprovalFlipsExactly(d: Derivation, b: Behavior, from: nat, i: nat)
    requires Lawful(d, b) && Guarded(b.states[0]) && from <= i < |b.events|
    requires if from == 0 then Quiet(EmergencyIn(b.states[0])) else Flips(b, from - 1)
    requires forall n :: from <= n < i ==> !Flips(b, n)
    requires b.events[i].Governed? && b.events[i].call.instruction.Approve?
    ensures Guarded(b.states[from])
    ensures var c, e := b.events[i].call, EmergencyIn(b.states[from]);
            && (Fires(d, b, i) <==> && |c.accounts| > 0 && c.accounts[0] == EMERGENCY_ACCOUNT && e.threshold > 0
                                    && c.payer in e.guardians && c.instruction.wantPaused != e.paused)
            && (Flips(b, i) <==>
                  Fires(d, b, i) && |Approvers(d, b, from, i + 1, e.guardians, !e.paused)| >= e.threshold)
  {
    QuietSince(d, b, from);
    ApprovalsExactly(d, b, from, i);
    assert StepAt(d, b, i);
    RecordStep(d, b, i);
    var e, g := EmergencyIn(b.states[i]), b.events[i].call.payer;
    if Fires(d, b, i) {
      GathersApproval(d, b, from, i, e, g);
      ApprovedFlips(e, g);
    }
  }
}
