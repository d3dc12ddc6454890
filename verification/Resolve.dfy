/** The indirect commit rule: a round's ultimate fate, read off the next provably committed leader. */
module Resolve {
  import opened Schedule
  import opened Dag
  import opened Verdict
  import opened Reach

  /** What resolution reads: the direct verdicts, the held leader certificates and the certificates. */
  datatype View = View(direct: Round -> Outcome, target: Round -> Option<Digest>, certs: Certs)

  function ViewOf(net: Net, dag: Dag): View {
    View((r: Round) => DirectStatus(net, dag, r), (r: Round) => LeaderCert(net, dag, r), dag.certs)
  }

  /** The first directly committed leader at or after `round`, past nothing but skipped rounds. */
  function Witness(v: View, round: Round, upTo: Round): Option<Digest>
    decreases upTo - round + 1
  {
    if round > upTo then None
    else
      match v.direct(round)
      case Committed(d) => Some(d)
      case Skipped => Witness(v, round + 1, upTo)
      case Undecided => None
  }

  /** The fate of `round`: committed directly, committed through the witness, skipped, or open. */
  ghost function Fate(v: View, floor: Round, round: Round, upTo: Round): Outcome {
    if !v.direct(round).Skipped? then v.direct(round)
    else if v.target(round).None? then Skipped
    else if Witness(v, round + 1, upTo).None? then Undecided
    else
      match ReachStatus(v.certs, floor, Witness(v, round + 1, upTo).value, v.target(round).value)
      case None => Undecided
      case Some(reached) => if reached then Committed(v.target(round).value) else Skipped
  }

  // ---- The fate read off direct verdicts and paths ------------------------------------------------

  /** `w` is the first round after `round` that is not directly skipped, and it is directly committed. */
  ghost predicate Decides(net: Net, dag: Dag, round: Round, upTo: Round, w: Round) {
    && round < w <= upTo && DirectStatus(net, dag, w).Committed?
    && forall r :: round < r < w ==> DirectStatus(net, dag, r).Skipped?
  }

  ghost predicate Turns(v: View, round: Round, upTo: Round, w: Round) {
    round <= w <= upTo && v.direct(w).Committed? && forall r :: round <= r < w ==> v.direct(r).Skipped?
  }

  lemma TurnsUnique(v: View, round: Round, upTo: Round, w: Round, x: Round)
    requires Turns(v, round, upTo, w) && Turns(v, round, upTo, x)
    ensures w == x
  {
  }

  lemma {:induction false} WitnessTurns(v: View, round: Round, upTo: Round)
    ensures Witness(v, round, upTo).None? ==> forall w :: !Turns(v, round, upTo, w)
    ensures Witness(v, round, upTo).Some? ==>
              exists w :: Turns(v, round, upTo, w) && Witness(v, round, upTo).value == v.direct(w).digest
    decreases upTo - round + 1
  {
    if round <= upTo {
      match v.direct(round) {
        case Committed(d) => assert Turns(v, round, upTo, round);
        case Undecided =>
        case Skipped =>
          WitnessTurns(v, round + 1, upTo);
          forall w ensures Turns(v, round, upTo, w) <==> Turns(v, round + 1, upTo, w) {
          }
      }
    }
  }

  lemma DecidesIsTurns(net: Net, dag: Dag, round: Round, upTo: Round, w: Round)
    ensures Decides(net, dag, round, upTo, w) <==> Turns(ViewOf(net, dag), round + 1, upTo, w)
  {
    var v := ViewOf(net, dag);
    forall r ensures v.direct(r) == DirectStatus(net, dag, r) {
    }
  }

  /** The first committed round after `round` reaches the leader certificate `t`. */
  ghost predicate Pulled(net: Net, dag: Dag, floor: Round, round: Round, upTo: Round, t: Digest) {
    exists w :: Decides(net, dag, round, upTo, w) && CanReach(dag.certs, floor, DirectStatus(net, dag, w).digest, t)
  }

  /** It does not, and everything it does reach is held. */
  ghost predicate PassedOver(net: Net, dag: Dag, floor: Round, round: Round, upTo: Round, t: Digest) {
    exists w ::
      && Decides(net, dag, round, upTo, w) && !CanReach(dag.certs, floor, DirectStatus(net, dag, w).digest, t)
      && AllPresent(dag.certs, floor, DirectStatus(net, dag, w).digest)
  }

  /** The answer that a direct verdict, a leader certificate and the two path facts call for. */
  predicate Answers(direct: Outcome, target: Option<Digest>, pulled: bool, passedOver: bool, fate: Outcome) {
    if !direct.Skipped? then fate == direct
    else if target.None? then fate == Skipped
    else
      && (fate == Committed(target.value) <==> pulled) && (fate == Skipped <==> passedOver)
      && (fate.Committed? ==> fate.digest == target.value)
  }

  /** What resolution answers, in terms of direct verdicts, leader certificates and paths only. */
  ghost predicate Resolved(net: Net, dag: Dag, floor: Round, round: Round, upTo: Round, fate: Outcome) {
    var target := LeaderCert(net, dag, round);
    Answers(DirectStatus(net, dag, round), target,
            target.Some? && Pulled(net, dag, floor, round, upTo, target.value),
            target.Some? && PassedOver(net, dag, floor, round, upTo, target.value), fate)
  }

  lemma FateAnswers(v: View, floor: Round, round: Round, upTo: Round, pulled: bool, passedOver: bool)
    requires v.target(round).Some? ==>
               var w, t := Witness(v, round + 1, upTo), v.target(round).value;
               && (pulled <==> w.Some? && CanReach(v.certs, floor, w.value, t))
               && (passedOver <==>
                     w.Some? && !CanReach(v.certs, floor, w.value, t) && AllPresent(v.certs, floor, w.value))
    ensures Answers(v.direct(round), v.target(round), pulled, passedOver, Fate(v, floor, round, upTo))
  {
  }

  /** Resolution says what the direct verdicts, the leader certificates and the held paths call for. */
  lemma FateExactly(net: Net, dag: Dag, floor: Round, round: Round, upTo: Round)
    ensures Resolved(net, dag, floor, round, upTo, Fate(ViewOf(net, dag), floor, round, upTo))
  {
    var v := ViewOf(net, dag);
    var target, found := LeaderCert(net, dag, round), Witness(v, round + 1, upTo);
    WitnessTurns(v, round + 1, upTo);
    forall w ensures Decides(net, dag, round, upTo, w) <==> Turns(v, round + 1, upTo, w) {
      DecidesIsTurns(net, dag, round, upTo, w);
    }
    if found.Some? {
      var w :| Turns(v, round + 1, upTo, w) && found.value == v.direct(w).digest;
      WitnessRules(net, dag, floor, round, upTo, w);
    }
    FateAnswers(v, floor, round, upTo,
                target.Some? && Pulled(net, dag, floor, round, upTo, target.value),
                target.Some? && PassedOver(net, dag, floor, round, upTo, target.value));
  }

  /** Once the witness round is known, being pulled or passed over is a matter of its paths alone. */
  lemma WitnessRules(net: Net, dag: Dag, floor: Round, round: Round, upTo: Round, w: Round)
    requires Decides(net, dag, round, upTo, w)
    ensures forall t :: Pulled(net, dag, floor, round, upTo, t) <==>
                          CanReach(dag.certs, floor, DirectStatus(net, dag, w).digest, t)
    ensures forall t :: PassedOver(net, dag, floor, round, upTo, t) <==>
                          && !CanReach(dag.certs, floor, DirectStatus(net, dag, w).digest, t)
                          && AllPresent(dag.certs, floor, DirectStatus(net, dag, w).digest)
  {
    forall x | Decides(net, dag, round, upTo, x) ensures x == w {
      DecidesIsTurns(net, dag, round, upTo, x);
      DecidesIsTurns(net, dag, round, upTo, w);
      TurnsUnique(ViewOf(net, dag), round + 1, upTo, w, x);
    }
  }

  method UltimateWitness(net: Net, dag: Dag, start: Round, upTo: Round) returns (w: Option<Digest>)
    ensures w == Witness(ViewOf(net, dag), start, upTo)
  {
    var round := start;
    while round <= upTo
      invariant Witness(ViewOf(net, dag), round, upTo) == Witness(ViewOf(net, dag), start, upTo)
      decreases upTo - round + 1
    {
      match DirectStatus(net, dag, round) {
        case Committed(d) => return Some(d);
        case Skipped => round := round + 1;
        case Undecided => return None;
      }
    }
    return None;
  }

  method ResolveRound(net: Net, dag: Dag, floor: Round, round: Round, upTo: Round) returns (fate: Outcome)
    ensures fate == Fate(ViewOf(net, dag), floor, round, upTo)
    ensures Resolved(net, dag, floor, round, upTo, fate)
  {
    FateExactly(net, dag, floor, round, upTo);
    var direct := DirectStatus(net, dag, round);
    if !direct.Skipped? {
      return direct;
    }
    var target := LeaderCert(net, dag, round);
    if target.None? {
      return Skipped;
    }
    var w := UltimateWitness(net, dag, round + 1, upTo);
    if w.None? {
      return Undecided;
    }
    var reached := Reaches(dag.certs, floor, w.value, target.value);
    match reached {
      case Some(true) => return Committed(target.value);
      case Some(false) => return Skipped;
      case None => return Undecided;
    }
  }

  // ---- Two partial views of one DAG -------------------------------------------------------------

  /** `y` never skips, nor commits differently, what `x` commits; leader certificates coincide. */
  ghost predicate NoClash(x: View, y: View, round: Round) {
    && (x.direct(round).Committed? ==> y.direct(round) == x.direct(round) || y.direct(round).Undecided?)
    && (y.direct(round).Committed? ==> x.direct(round) == y.direct(round) || x.direct(round).Undecided?)
    && (x.target(round).Some? && y.target(round).Some? ==> x.target(round) == y.target(round))
  }

  lemma PartialViewsNoClash(net: Net, nx: Net, ny: Net, whole: Dag, x: Dag, y: Dag, round: Round)
    requires Coherent(whole) && Coherent(x) && Coherent(y) && Authored(net, whole.certs)
    requires Within(x.certs, whole.certs) && Within(y.certs, whole.certs)
    requires Follows(nx, net) && Follows(ny, net) && round <= nx.frontier && round <= ny.frontier
    ensures NoClash(ViewOf(nx, x), ViewOf(ny, y), round)
  {
    if DirectStatus(nx, x, round).Committed? {
      DirectVerdictsAgree(net, nx, ny, whole, x, y, round);
    }
    if DirectStatus(ny, y, round).Committed? {
      DirectVerdictsAgree(net, ny, nx, whole, y, x, round);
    }
    SameLeaderCert(net, nx, ny, whole, x, y, round);
  }

  lemma {:induction false} WitnessesCoincide(x: View, y: View, round: Round, ux: Round, uy: Round)
    requires forall r :: 0 <= r <= ux && r <= uy ==> NoClash(x, y, r)
    requires Witness(x, round, ux).Some? && Witness(y, round, uy).Some?
    ensures Witness(x, round, ux) == Witness(y, round, uy)
    decreases ux - round + 1
  {
    assert NoClash(x, y, round);
    if x.direct(round).Skipped? && y.direct(round).Skipped? {
      WitnessesCoincide(x, y, round + 1, ux, uy);
    }
  }

  /** Definite reachability answers of two partial views of one DAG agree. */
  lemma ReachAgrees(whole: Certs, x: Certs, y: Certs, floor: Round, from: Digest, to: Digest)
    requires Within(x, whole) && Within(y, whole)
    requires ReachStatus(x, floor, from, to).Some? && ReachStatus(y, floor, from, to).Some?
    ensures ReachStatus(x, floor, from, to) == ReachStatus(y, floor, from, to)
  {
    ReachStatusStable(x, whole, floor, from, to);
    ReachStatusStable(y, whole, floor, from, to);
  }

  lemma FatesCoincide(whole: Certs, x: View, y: View, floor: Round, round: Round, ux: Round, uy: Round)
    requires Within(x.certs, whole) && Within(y.certs, whole)
    requires round <= ux && round <= uy && forall r :: 0 <= r <= ux && r <= uy ==> NoClash(x, y, r)
    requires x.target(round).Some? && y.target(round).Some?
    requires Fate(x, floor, round, ux).Committed?
    ensures Fate(y, floor, round, uy) == Fate(x, floor, round, ux) || Fate(y, floor, round, uy).Undecided?
  {
    assert NoClash(x, y, round);
    if x.direct(round).Skipped? && y.direct(round).Skipped? && Witness(y, round + 1, uy).Some? {
      WitnessesCoincide(x, y, round + 1, ux, uy);
      var w, target := Witness(x, round + 1, ux).value, x.target(round).value;
      if ReachStatus(y.certs, floor, w, target).Some? {
        ReachAgrees(whole, x.certs, y.certs, floor, w, target);
      }
    }
  }

  /**
   * Whenever the forward walk lands in two arbitrary partial views of one DAG it lands on the same
   * digest; and when both views hold the leader's certificate, one never commits what the other
   * skips, and no two commits differ.
   */
  lemma PartialViewsAgree(net: Net, nx: Net, ny: Net, whole: Dag, x: Dag, y: Dag, floor: Round, round: Round,
                          ux: Round, uy: Round)
    requires Coherent(whole) && Coherent(x) && Coherent(y) && Authored(net, whole.certs)
    requires Within(x.certs, whole.certs) && Within(y.certs, whole.certs)
    requires Follows(nx, net) && Follows(ny, net) && round <= ux <= nx.frontier && round <= uy <= ny.frontier
    ensures var vx, vy := ViewOf(nx, x), ViewOf(ny, y);
            Witness(vx, round, ux).Some? && Witness(vy, round, uy).Some? ==>
              Witness(vx, round, ux) == Witness(vy, round, uy)
    ensures var vx, vy := ViewOf(nx, x), ViewOf(ny, y);
            vx.target(round).Some? && vy.target(round).Some? && Fate(vx, floor, round, ux).Committed? ==>
              Fate(vy, floor, round, uy) == Fate(vx, floor, round, ux) || Fate(vy, floor, round, uy).Undecided?
  {
    var vx, vy := ViewOf(nx, x), ViewOf(ny, y);
    forall r | 0 <= r <= ux && r <= uy ensures NoClash(vx, vy, r) {
      PartialViewsNoClash(net, nx, ny, whole, x, y, r);
    }
    if Witness(vx, round, ux).Some? && Witness(vy, round, uy).Some? {
      WitnessesCoincide(vx, vy, round, ux, uy);
    }
    if vx.target(round).Some? && vy.target(round).Some? && Fate(vx, floor, round, ux).Committed? {
      FatesCoincide(whole.certs, vx, vy, floor, round, ux, uy);
    }
  }

  // ---- One parent-closed view grown into another ------------------------------------------------

  /** Leader and witness certificates are held. */
  ghost predicate Grounded(v: View, upTo: Round) {
    forall r :: 0 <= r <= upTo && v.direct(r).Committed? ==> v.direct(r).digest in v.certs
  }

  /** Direct verdicts of resolvable rounds are settled; leader certificates only ever appear. */
  ghost predicate Settles(v: View, v1: View, round: Round) {
    && (!v.direct(round).Undecided? ==> v1.direct(round) == v.direct(round))
    && (v.target(round).Some? ==> v1.target(round) == v.target(round))
    && (v1.target(round).Some? && v1.target(round).value in v.certs ==> v.target(round) == v1.target(round))
  }

  /** `v1` is a parent-closed view that the parent-closed `v` has grown into. */
  ghost predicate Later(v: View, upTo: Round, v1: View, upTo1: Round) {
    && Closed(v.certs) && Closed(v1.certs) && Within(v.certs, v1.certs) && upTo <= upTo1
    && Grounded(v, upTo) && Grounded(v1, upTo1)
    && forall r :: 0 <= r <= upTo ==> Settles(v, v1, r)
  }

  lemma GrowthSettles(net: Net, dag: Dag, net1: Net, more: Dag, round: Round)
    requires Coherent(dag) && Coherent(more) && Within(dag.certs, more.certs)
    requires Closed(more.certs) && Authored(net1, more.certs) && Follows(net, net1) && round <= net.frontier
    ensures Settles(ViewOf(net, dag), ViewOf(net1, more), round)
  {
    match DirectStatus(net, dag, round) {
      case Committed(d) => CommittedStays(net, net1, dag, more, round);
      case Skipped => SkippedStays(net, net1, dag, more, round);
      case Undecided =>
    }
    FollowsRound(net, net1, round);
    if net.leader(round).Some? {
      SlotsGrow(dag, more, round, net.leader(round).value);
    }
  }

  lemma ViewGrounded(net: Net, dag: Dag, upTo: Round)
    ensures Grounded(ViewOf(net, dag), upTo)
  {
    forall r | 0 <= r <= upTo && DirectStatus(net, dag, r).Committed?
      ensures DirectStatus(net, dag, r).digest in dag.certs
    {
      DirectCommit(net, dag, r);
    }
  }

  /** Growing a parent-closed view, and carrying its schedule forward, settles what was decided. */
  lemma GrowthIsLater(net: Net, dag: Dag, net1: Net, more: Dag, upTo: Round, upTo1: Round)
    requires Coherent(dag) && Coherent(more) && Within(dag.certs, more.certs)
    requires Closed(dag.certs) && Closed(more.certs) && Authored(net1, more.certs) && Follows(net, net1)
    requires upTo <= net.frontier && upTo <= upTo1
    ensures Later(ViewOf(net, dag), upTo, ViewOf(net1, more), upTo1)
  {
    ViewGrounded(net, dag, upTo);
    ViewGrounded(net1, more, upTo1);
    forall r | 0 <= r <= upTo ensures Settles(ViewOf(net, dag), ViewOf(net1, more), r) {
      GrowthSettles(net, dag, net1, more, r);
    }
  }

  lemma {:induction false} WitnessHeld(v: View, round: Round, upTo: Round)
    requires Grounded(v, upTo) && Witness(v, round, upTo).Some?
    ensures Witness(v, round, upTo).value in v.certs
    decreases upTo - round + 1
  {
    if v.direct(round).Skipped? {
      WitnessHeld(v, round + 1, upTo);
    }
  }

  /** A witness, once found, is found again in every later view. */
  lemma {:induction false} WitnessStays(v: View, upTo: Round, v1: View, upTo1: Round, round: Round)
    requires upTo <= upTo1 && (forall r :: 0 <= r <= upTo ==> Settles(v, v1, r))
    requires Witness(v, round, upTo).Some?
    ensures Witness(v1, round, upTo1) == Witness(v, round, upTo)
    decreases upTo - round + 1
  {
    assert Settles(v, v1, round);
    if v.direct(round).Skipped? {
      WitnessStays(v, upTo, v1, upTo1, round + 1);
    }
  }

  /** A committed fate is final. */
  lemma CommittedFateStays(v: View, upTo: Round, v1: View, upTo1: Round, floor: Round, round: Round)
    requires Later(v, upTo, v1, upTo1) && round <= upTo && Fate(v, floor, round, upTo).Committed?
    ensures Fate(v1, floor, round, upTo1) == Fate(v, floor, round, upTo)
  {
    assert Settles(v, v1, round);
    if v.direct(round).Skipped? {
      WitnessStays(v, upTo, v1, upTo1, round + 1);
      ReachStatusStable(v.certs, v1.certs, floor, Witness(v, round + 1, upTo).value, v.target(round).value);
    }
  }

  /**
   * A skipped fate is final as soon as a witness stands behind it; without one, it is final as
   * long as the leader's certificate does not newly arrive.
   */
  lemma SkippedFateStays(v: View, upTo: Round, v1: View, upTo1: Round, floor: Round, round: Round)
    requires Later(v, upTo, v1, upTo1) && round <= upTo && Fate(v, floor, round, upTo).Skipped?
    requires Witness(v, round + 1, upTo).Some? || v1.target(round) == v.target(round)
    ensures Fate(v1, floor, round, upTo1).Skipped?
  {
    assert Settles(v, v1, round);
    if v1.target(round).Some? && Witness(v, round + 1, upTo).Some? {
      var w, target := Witness(v, round + 1, upTo).value, v1.target(round).value;
      WitnessStays(v, upTo, v1, upTo1, round + 1);
      WitnessHeld(v, round + 1, upTo);
      ClosedIsPresent(v.certs, floor, w);
      assert ReachStatus(v.certs, floor, w, target) == Some(false);
      ReachStatusStable(v.certs, v1.certs, floor, w, target);
    }
  }

  /** With every parent held, a fate is open only for want of a direct verdict or of a witness. */
  lemma ClosedFateDecided(v: View, floor: Round, round: Round, upTo: Round)
    requires Closed(v.certs) && Grounded(v, upTo)
    ensures Fate(v, floor, round, upTo).Undecided? <==>
            || v.direct(round).Undecided?
            || (v.direct(round).Skipped? && v.target(round).Some? && Witness(v, round + 1, upTo).None?)
  {
    if Witness(v, round + 1, upTo).Some? {
      WitnessHeld(v, round + 1, upTo);
      ClosedIsPresent(v.certs, floor, Witness(v, round + 1, upTo).value);
    }
  }
}
