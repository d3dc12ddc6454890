/** Above a collection floor, the pruned store decides and emits what the full store does. */
module Collect {
  import opened Schedule
  import opened Dag
  import opened Verdict
  import opened Reach
  import opened Resolve
  import opened Walk

  ghost function Low(certs: Certs, floor: Round): set<Digest> {
    set d | d in certs && certs[d].round < floor
  }

  ghost function High(certs: Certs, floor: Round): Certs {
    map d | d in certs && certs[d].round >= floor :: certs[d]
  }

  /** The acyclicity witness is the round number itself. */
  ghost predicate ByRound(certs: Certs, rank: Digest -> nat) {
    forall d :: d in certs ==> rank(d) == certs[d].round
  }

  // ---- Verdicts above the floor do not look below it --------------------------------------------

  lemma PrunedRow(dag: Dag, floor: Round, round: Round)
    requires Indexed(dag) && round >= floor
    ensures Row(Pruned(dag, floor), round) == Row(dag, round)
    ensures Authors(Pruned(dag, floor), round) == Authors(dag, round)
    ensures forall a :: ByAuthor(Pruned(dag, floor), round, a) == ByAuthor(dag, round, a)
    ensures forall a :: ParentsOf(Pruned(dag, floor), round, a) == ParentsOf(dag, round, a)
  {
  }

  lemma PrunedParentsHeld(dag: Dag, floor: Round, next: Round)
    requires Indexed(dag) && Layered(dag.certs) && next > floor
    ensures ParentsHeld(Pruned(dag, floor), next) == ParentsHeld(dag, next)
  {
    PrunedRow(dag, floor, next);
    forall a, p | a in Authors(dag, next) && p in ParentsOf(dag, next, a)
      ensures p in Pruned(dag, floor).certs <==> p in dag.certs
    {
      var c := ByAuthor(dag, next, a).value;
      assert dag.certs[c].round == next;
    }
  }

  lemma PrunedVerdict(net: Net, dag: Dag, floor: Round, round: Round)
    requires Indexed(dag) && Layered(dag.certs) && round >= floor
    ensures LeaderCert(net, Pruned(dag, floor), round) == LeaderCert(net, dag, round)
    ensures DirectStatus(net, Pruned(dag, floor), round) == DirectStatus(net, dag, round)
  {
    PrunedRow(dag, floor, round);
    PrunedTerms(net, dag, floor, round);
    PrunedParentsHeld(dag, floor, round + 1);
  }

  lemma PrunedTerms(net: Net, dag: Dag, floor: Round, round: Round)
    requires Indexed(dag) && round >= floor
    ensures Unknown(net, Pruned(dag, floor), round) == Unknown(net, dag, round)
    ensures forall d :: Support(net, Pruned(dag, floor), round, d) == Support(net, dag, round, d)
  {
    PrunedRow(dag, floor, round + 1);
    forall d ensures Support(net, Pruned(dag, floor), round, d) == Support(net, dag, round, d) {
      assert Supporters(Pruned(dag, floor), round, d) == Supporters(dag, round, d);
    }
  }

  /** Leader certificates sit in their own round. */
  ghost predicate Placed(v: View, upTo: Round) {
    && (forall r :: 0 <= r <= upTo && v.direct(r).Committed? ==>
          v.direct(r).digest in v.certs && v.certs[v.direct(r).digest].round == r)
    && (forall r :: 0 <= r <= upTo && v.target(r).Some? ==>
          v.target(r).value in v.certs && v.certs[v.target(r).value].round == r)
  }

  lemma ViewPlaced(net: Net, dag: Dag, upTo: Round)
    requires Indexed(dag)
    ensures Placed(ViewOf(net, dag), upTo)
  {
    forall r | 0 <= r <= upTo && DirectStatus(net, dag, r).Committed?
      ensures LeaderCert(net, dag, r) == Some(DirectStatus(net, dag, r).digest)
    {
      DirectCommit(net, dag, r);
    }
  }

  /** `w` is `v` without what lies below `floor`. */
  ghost predicate Trims(v: View, w: View, floor: Round) {
    && w.certs == High(v.certs, floor)
    && forall r :: r >= floor ==> w.direct(r) == v.direct(r) && w.target(r) == v.target(r)
  }

  /** The collecting side may have thinned its schedule too, as long as it agrees from the floor on. */
  lemma PrunedTrims(net: Net, thin: Net, dag: Dag, floor: Round)
    requires Indexed(dag) && Layered(dag.certs) && AgreeFrom(net, thin, floor)
    ensures Trims(ViewOf(net, dag), ViewOf(thin, Pruned(dag, floor)), floor)
  {
    forall r | r >= floor
      ensures ViewOf(thin, Pruned(dag, floor)).direct(r) == ViewOf(net, dag).direct(r)
      ensures ViewOf(thin, Pruned(dag, floor)).target(r) == ViewOf(net, dag).target(r)
    {
      PrunedVerdict(net, dag, floor, r);
      AgreedVerdict(net, thin, Pruned(dag, floor), floor, r);
    }
  }

  lemma {:induction false} TrimmedWitness(v: View, w: View, floor: Round, round: Round, upTo: Round)
    requires Trims(v, w, floor) && round >= floor
    ensures Witness(w, round, upTo) == Witness(v, round, upTo)
    decreases upTo - round + 1
  {
    if round <= upTo && v.direct(round).Skipped? {
      TrimmedWitness(v, w, floor, round + 1, upTo);
    }
  }

  lemma {:induction false} WitnessPlaced(v: View, round: Round, upTo: Round)
    requires Placed(v, upTo) && Witness(v, round, upTo).Some?
    ensures Witness(v, round, upTo).value in v.certs && v.certs[Witness(v, round, upTo).value].round >= round
    decreases upTo - round + 1
  {
    if v.direct(round).Skipped? {
      WitnessPlaced(v, round + 1, upTo);
    }
  }

  /** A path down to a certificate at or above the floor never dips below it. */
  lemma {:induction false} PathStaysHigh(certs: Certs, floor: Round, path: seq<Digest>, from: Digest, to: Digest)
    requires Closed(certs) && Layered(certs) && from in certs && Leads(certs, 0, path, from, to)
    requires to in certs && certs[to].round >= floor
    ensures Leads(High(certs, floor), floor, path, from, to) && certs[from].round >= floor
    decreases |path|
  {
    if |path| > 1 {
      var next := path[1];
      assert Open(certs, 0, path[0]) && next in certs[from].parents;
      assert Leads(certs, 0, path[1..], next, to);
      PathStaysHigh(certs, floor, path[1..], next, to);
      forall i | 0 <= i < |path| - 1
        ensures Open(High(certs, floor), floor, path[i]) && path[i + 1] in High(certs, floor)[path[i]].parents
      {
        if i > 0 {
          assert path[1..][i - 1] == path[i] && path[1..][i] == path[i + 1];
        }
      }
    }
  }

  lemma TrimmedReach(certs: Certs, floor: Round, from: Digest, to: Digest)
    requires Closed(certs) && Layered(certs) && from in certs && certs[from].round >= floor
    requires to in certs && certs[to].round >= floor
    ensures ReachStatus(High(certs, floor), floor, from, to) == ReachStatus(certs, 0, from, to)
  {
    var high := High(certs, floor);
    if CanReach(certs, 0, from, to) {
      var path :| Leads(certs, 0, path, from, to);
      PathStaysHigh(certs, floor, path, from, to);
    } else if CanReach(high, floor, from, to) {
      var path :| Leads(high, floor, path, from, to);
      assert Leads(certs, 0, path, from, to);
    }
    ClosedIsPresent(certs, 0, from);
    HighIsPresent(certs, floor, from);
  }

  /** Above the floor everything in reach is still held. */
  lemma HighIsPresent(certs: Certs, floor: Round, from: Digest)
    requires Closed(certs) && Layered(certs) && from in certs && certs[from].round >= floor
    ensures AllPresent(High(certs, floor), floor, from)
  {
    var high := High(certs, floor);
    forall m | CanReach(high, floor, from, m) ensures m in high {
      var path :| Leads(high, floor, path, from, m);
      ClosedSetHolds(high, floor, high.Keys, path, from, m);
    }
  }

  lemma TrimmedFate(v: View, w: View, floor: Round, round: Round, upTo: Round)
    requires Trims(v, w, floor) && Placed(v, upTo) && Closed(v.certs) && Layered(v.certs) && floor <= round <= upTo
    ensures Fate(w, floor, round, upTo) == Fate(v, 0, round, upTo)
  {
    TrimmedWitness(v, w, floor, round + 1, upTo);
    if v.target(round).Some? && Witness(v, round + 1, upTo).Some? {
      WitnessPlaced(v, round + 1, upTo);
      TrimmedReach(v.certs, floor, Witness(v, round + 1, upTo).value, v.target(round).value);
    }
  }

  lemma FatePlaced(v: View, round: Round, upTo: Round)
    requires Placed(v, upTo) && round <= upTo && Fate(v, 0, round, upTo).Committed?
    ensures var d := Fate(v, 0, round, upTo).digest; d in v.certs && v.certs[d].round == round
  {
  }

  // ---- Walks above the floor --------------------------------------------------------------------

  lemma HighRanked(certs: Certs, floor: Round, rank: Digest -> nat)
    requires Ranked(certs, rank)
    ensures Ranked(High(certs, floor), rank)
  {
  }

  /** What of `s` lies at or above the floor, in order. */
  ghost function From(s: seq<Digest>, rank: Digest -> nat, floor: Round): seq<Digest> {
    if s == [] then []
    else From(s[..|s| - 1], rank, floor) + if rank(s[|s| - 1]) >= floor then [s[|s| - 1]] else []
  }

  lemma {:induction false} FromAppend(a: seq<Digest>, b: seq<Digest>, rank: Digest -> nat, floor: Round)
    ensures From(a + b, rank, floor) == From(a, rank, floor) + From(b, rank, floor)
    decreases |b|
  {
    if b == [] {
      assert a + b == a;
    } else {
      var n := |b| - 1;
      assert (a + b)[..|a + b| - 1] == a + b[..n];
      FromAppend(a, b[..n], rank, floor);
    }
  }

  lemma {:induction false} FromMembers(s: seq<Digest>, rank: Digest -> nat, floor: Round)
    ensures forall x :: x in From(s, rank, floor) <==> x in s && rank(x) >= floor
    decreases |s|
  {
    if s != [] {
      FromMembers(s[..|s| - 1], rank, floor);
      assert s == s[..|s| - 1] + [s[|s| - 1]];
    }
  }

  lemma {:induction false} FromLow(s: seq<Digest>, rank: Digest -> nat, floor: Round)
    requires forall x :: x in s ==> rank(x) < floor
    ensures From(s, rank, floor) == []
    decreases |s|
  {
    if s != [] {
      FromLow(s[..|s| - 1], rank, floor);
      assert s[|s| - 1] in s;
    }
  }

  lemma {:induction false} FromHigh(s: seq<Digest>, rank: Digest -> nat, floor: Round)
    requires forall x :: x in s ==> rank(x) >= floor
    ensures From(s, rank, floor) == s
    decreases |s|
  {
    if s != [] {
      FromHigh(s[..|s| - 1], rank, floor);
      assert s == s[..|s| - 1] + [s[|s| - 1]];
    }
  }

  /** Nothing is dropped exactly when nothing lies below the floor. */
  lemma FromAll(s: seq<Digest>, rank: Digest -> nat, floor: Round)
    ensures From(s, rank, floor) == s <==> forall x :: x in s ==> rank(x) >= floor
  {
    FromMembers(s, rank, floor);
    if forall x :: x in s ==> rank(x) >= floor {
      FromHigh(s, rank, floor);
    }
  }

  lemma {:induction false} FromTwice(s: seq<Digest>, rank: Digest -> nat, f: Round, g: Round)
    requires f <= g
    ensures From(From(s, rank, f), rank, g) == From(s, rank, g)
    decreases |s|
  {
    if s != [] {
      var n := |s| - 1;
      FromTwice(s[..n], rank, f, g);
      FromAppend(From(s[..n], rank, f), if rank(s[n]) >= f then [s[n]] else [], rank, g);
      FromOne(s[n], rank, g);
    }
  }

  lemma FromOne(x: Digest, rank: Digest -> nat, g: Round)
    ensures From([x], rank, g) == if rank(x) >= g then [x] else []
  {
    assert [x][..0] == [];
  }

  lemma FromPrefix(a: seq<Digest>, b: seq<Digest>, rank: Digest -> nat, g: Round)
    requires a <= b
    ensures From(a, rank, g) <= From(b, rank, g)
  {
    assert b == a + b[|a|..];
    FromAppend(a, b[|a|..], rank, g);
  }

  /** Low digests add only low digests. */
  lemma LowAddsLow(certs: Certs, floor: Round, rank: Digest -> nat, seen: set<Digest>, acc: seq<Digest>,
                   ps: seq<Digest>)
    requires Ranked(certs, rank) && Distinct(acc) && forall p :: p in ps && p in certs ==> rank(p) < floor
    ensures From(PostOrder(certs, 0, rank, seen, acc, ps), rank, floor) == From(acc, rank, floor)
  {
    var r := PostOrder(certs, 0, rank, seen, acc, ps);
    HeightIsLeast(certs, rank, ps, floor);
    PostOrderExtends(certs, 0, rank, seen, acc, ps);
    TailIsLow(acc, r, rank, floor, Height(certs, rank, ps));
  }

  lemma TailIsLow(acc: seq<Digest>, r: seq<Digest>, rank: Digest -> nat, floor: Round, bound: nat)
    requires acc <= r && Distinct(r) && bound <= floor && forall x :: x in r && x !in acc ==> rank(x) < bound
    ensures From(r, rank, floor) == From(acc, rank, floor)
  {
    var tail := r[|acc|..];
    assert r == acc + tail;
    forall x | x in tail ensures rank(x) < floor {
      var i :| 0 <= i < |tail| && tail[i] == x;
      assert r[|acc| + i] == x;
    }
    FromAppend(acc, tail, rank, floor);
    FromLow(tail, rank, floor);
  }

  /**
   * Above the floor, the pruned store emits exactly what the full store emits, less what lies below
   * the floor: nothing is assumed about what has been emitted there.
   */
  lemma {:induction false} TrimmedPlaceOne(certs: Certs, floor: Round, rank: Digest -> nat, seen: set<Digest>,
                                           acc: seq<Digest>, d: Digest)
    requires Ranked(certs, rank) && Closed(certs) && Layered(certs) && ByRound(certs, rank) && Distinct(acc)
    requires d in certs && certs[d].round >= floor
    ensures Ranked(High(certs, floor), rank)
    ensures PlaceOne(High(certs, floor), floor, rank, seen - Low(certs, floor), From(acc, rank, floor), d) ==
            From(PlaceOne(certs, 0, rank, seen, acc, d), rank, floor)
    decreases Level(certs, rank, d), 0
  {
    HighRanked(certs, floor, rank);
    FromMembers(acc, rank, floor);
    if d !in seen && d !in acc {
      if certs[d].round > floor {
        var parents := Sort(certs[d].parents);
        ParentsAreLower(certs, rank, d);
        ParentsHigh(certs, floor, d);
        TrimmedPostOrder(certs, floor, rank, seen, acc, parents);
        FromAppend(PostOrder(certs, 0, rank, seen, acc, parents), [d], rank, floor);
      } else {
        TrimmedLeaf(certs, floor, rank, seen, acc, d);
      }
    }
  }

  lemma ParentsHigh(certs: Certs, floor: Round, d: Digest)
    requires Closed(certs) && Layered(certs) && d in certs && certs[d].round > floor
    ensures forall p :: p in Sort(certs[d].parents) ==> p in certs && certs[p].round >= floor
  {
  }

  /** At the floor itself the full store descends, but only into what lies below. */
  lemma TrimmedLeaf(certs: Certs, floor: Round, rank: Digest -> nat, seen: set<Digest>, acc: seq<Digest>, d: Digest)
    requires Ranked(certs, rank) && Layered(certs) && ByRound(certs, rank) && Distinct(acc)
    requires d in certs && certs[d].round == floor && d !in seen && d !in acc
    ensures From(PlaceOne(certs, 0, rank, seen, acc, d), rank, floor) == From(acc, rank, floor) + [d]
  {
    if floor > 0 {
      var parents := Sort(certs[d].parents);
      LowAddsLow(certs, floor, rank, seen, acc, parents);
      FromAppend(PostOrder(certs, 0, rank, seen, acc, parents), [d], rank, floor);
    } else {
      FromAppend(acc, [d], rank, floor);
    }
  }

  lemma {:induction false} TrimmedPostOrder(certs: Certs, floor: Round, rank: Digest -> nat, seen: set<Digest>,
                                            acc: seq<Digest>, ps: seq<Digest>)
    requires Ranked(certs, rank) && Closed(certs) && Layered(certs) && ByRound(certs, rank) && Distinct(acc)
    requires forall p :: p in ps ==> p in certs && certs[p].round >= floor
    ensures Ranked(High(certs, floor), rank)
    ensures PostOrder(High(certs, floor), floor, rank, seen - Low(certs, floor), From(acc, rank, floor), ps) ==
            From(PostOrder(certs, 0, rank, seen, acc, ps), rank, floor)
    decreases Height(certs, rank, ps), |ps| + 1
  {
    HighRanked(certs, floor, rank);
    if ps != [] {
      TrimmedPlaceOne(certs, floor, rank, seen, acc, ps[0]);
      PlaceOneExtends(certs, 0, rank, seen, acc, ps[0]);
      TrimmedPostOrder(certs, floor, rank, seen, PlaceOne(certs, 0, rank, seen, acc, ps[0]), ps[1..]);
    }
  }

  lemma TrimmedComplete(certs: Certs, floor: Round, seen: set<Digest>, d: Digest)
    requires Closed(certs) && Layered(certs) && d in certs && certs[d].round >= floor
    ensures Complete(High(certs, floor), floor, seen, d)
  {
    var high := High(certs, floor);
    HighIsPresent(certs, floor, d);
    forall m | CanReach(high - seen, floor, d, m) ensures m in high {
      ReachGrows(high - seen, high, floor, d, m);
    }
  }
}
