/** Reachability over parent links in a partial view, and the explicit-stack search that decides it. */
module Reach {
  import opened Schedule
  import opened Dag

  /** A node whose parents a search follows: held, and above the collection floor. */
  predicate Open(certs: Certs, floor: Round, d: Digest) {
    d in certs && certs[d].round > floor
  }

  /** Every node but the last is open and lists its successor as a parent. */
  ghost predicate IsPath(certs: Certs, floor: Round, path: seq<Digest>) {
    && path != []
    && forall i :: 0 <= i < |path| - 1 ==> Open(certs, floor, path[i]) && path[i + 1] in certs[path[i]].parents
  }

  ghost predicate Leads(certs: Certs, floor: Round, path: seq<Digest>, from: Digest, to: Digest) {
    IsPath(certs, floor, path) && path[0] == from && path[|path| - 1] == to
  }

  ghost predicate CanReach(certs: Certs, floor: Round, from: Digest, to: Digest) {
    exists path :: Leads(certs, floor, path, from, to)
  }

  /** Everything a search from `from` comes across is held. */
  ghost predicate AllPresent(certs: Certs, floor: Round, from: Digest) {
    forall m :: CanReach(certs, floor, from, m) ==> m in certs
  }

  /** Exact tri-state reachability. */
  ghost function ReachStatus(certs: Certs, floor: Round, from: Digest, to: Digest): Option<bool> {
    if CanReach(certs, floor, from, to) then Some(true)
    else if AllPresent(certs, floor, from) then Some(false)
    else None
  }

  lemma ReachSelf(certs: Certs, floor: Round, d: Digest)
    ensures CanReach(certs, floor, d, d)
  {
    assert Leads(certs, floor, [d], d, d);
  }

  lemma ReachStep(certs: Certs, floor: Round, from: Digest, d: Digest, p: Digest)
    requires CanReach(certs, floor, from, d) && Open(certs, floor, d) && p in certs[d].parents
    ensures CanReach(certs, floor, from, p)
  {
    var path :| Leads(certs, floor, path, from, d);
    assert Leads(certs, floor, path + [p], from, p);
  }

  /** Reaching past the first node means reaching from one of its parents. */
  lemma ReachFirst(certs: Certs, floor: Round, from: Digest, to: Digest)
    ensures CanReach(certs, floor, from, to) <==>
            || from == to
            || (Open(certs, floor, from) && exists p :: p in certs[from].parents && CanReach(certs, floor, p, to))
  {
    if from == to {
      ReachSelf(certs, floor, from);
    } else if CanReach(certs, floor, from, to) {
      var path :| Leads(certs, floor, path, from, to);
      assert path[1] in certs[from].parents;
      assert Leads(certs, floor, path[1..], path[1], to);
    } else if Open(certs, floor, from) {
      forall p | p in certs[from].parents && CanReach(certs, floor, p, to) ensures false {
        var path :| Leads(certs, floor, path, p, to);
        var whole := [from] + path;
        forall i | 0 <= i < |whole| - 1
          ensures Open(certs, floor, whole[i]) && whole[i + 1] in certs[whole[i]].parents
        {
          if i > 0 {
            assert whole[i] == path[i - 1] && whole[i + 1] == path[i];
          }
        }
        assert Leads(certs, floor, whole, from, to);
      }
    }
  }

  /** A set holding `from` and closed under the parents of its open members holds all that is reachable. */
  lemma {:induction false} ClosedSetHolds(certs: Certs, floor: Round, s: set<Digest>, path: seq<Digest>, from: Digest,
                                          to: Digest)
    requires Leads(certs, floor, path, from, to) && from in s
    requires forall d, p :: d in s && Open(certs, floor, d) && p in certs[d].parents ==> p in s
    ensures to in s
    decreases |path|
  {
    if |path| > 1 {
      assert path[1] in certs[path[0]].parents;
      ClosedSetHolds(certs, floor, s, path[1..], path[1], to);
    }
  }

  ghost function Mentioned(certs: Certs, from: Digest): set<Digest> {
    {from} + set d, p | d in certs && p in certs[d].parents :: p
  }

  /**
   * Is `target` reachable from `from`? Depth first, one explicit stack, each node expanded once.
   * Terminates on every view, cyclic or not.
   */
  method Reaches(certs: Certs, floor: Round, from: Digest, target: Digest) returns (answer: Option<bool>)
    ensures answer == ReachStatus(certs, floor, from, target)
  {
    var undecided := false;
    var visited: set<Digest> := {};
    var stack := [from];
    ghost var all := Mentioned(certs, from);
    ReachSelf(certs, floor, from);
    while stack != []
      invariant visited <= all && forall d :: d in stack ==> d in all
      invariant forall d :: d in visited || d in stack ==> CanReach(certs, floor, from, d)
      invariant from in visited || from in stack
      invariant target !in visited
      invariant forall d, p :: d in visited && Open(certs, floor, d) && p in certs[d].parents ==>
                  p in visited || p in stack
      invariant undecided <==> exists d :: d in visited && d !in certs
      decreases all - visited, |stack|
    {
      var node := stack[|stack| - 1];
      ghost var before := stack;
      stack := stack[..|stack| - 1];
      assert forall d :: d in before <==> d in stack || d == node;
      if node == target {
        return Some(true);
      }
      if node in visited {
        continue;
      }
      visited := visited + {node};
      if node !in certs {
        undecided := true;
        continue;
      }
      if certs[node].round <= floor {
        continue;
      }
      forall p | p in certs[node].parents ensures CanReach(certs, floor, from, p) && p in all {
        ReachStep(certs, floor, from, node, p);
      }
      stack := stack + certs[node].parents;
    }
    forall m | CanReach(certs, floor, from, m) ensures m in visited {
      var path :| Leads(certs, floor, path, from, m);
      ClosedSetHolds(certs, floor, visited, path, from, m);
    }
    answer := if undecided then None else Some(false);
  }

  /** A path stays a path in every larger view. */
  lemma ReachGrows(certs: Certs, more: Certs, floor: Round, from: Digest, to: Digest)
    requires Within(certs, more) && CanReach(certs, floor, from, to)
    ensures CanReach(more, floor, from, to)
  {
    var path :| Leads(certs, floor, path, from, to);
    assert Leads(more, floor, path, from, to);
  }

  /** When everything in reach is already held, a larger view reaches nothing new. */
  lemma ReachSettled(certs: Certs, more: Certs, floor: Round, from: Digest, to: Digest)
    requires Within(certs, more) && AllPresent(certs, floor, from) && CanReach(more, floor, from, to)
    ensures CanReach(certs, floor, from, to)
  {
    var path :| Leads(more, floor, path, from, to);
    ReachSettledAlong(certs, more, floor, path, from, to);
  }

  lemma {:induction false} ReachSettledAlong(certs: Certs, more: Certs, floor: Round, path: seq<Digest>, from: Digest,
                                             to: Digest)
    requires Within(certs, more) && AllPresent(certs, floor, from) && Leads(more, floor, path, from, to)
    ensures CanReach(certs, floor, from, to)
    decreases |path|
  {
    if |path| == 1 {
      ReachSelf(certs, floor, from);
    } else {
      var n := |path| - 1;
      assert Leads(more, floor, path[..n], from, path[n - 1]);
      ReachSettledAlong(certs, more, floor, path[..n], from, path[n - 1]);
      ReachStep(certs, floor, from, path[n - 1], to);
    }
  }

  /** Both definite answers survive any growth of the view. */
  lemma ReachStatusStable(certs: Certs, more: Certs, floor: Round, from: Digest, to: Digest)
    requires Within(certs, more) && ReachStatus(certs, floor, from, to).Some?
    ensures ReachStatus(more, floor, from, to) == ReachStatus(certs, floor, from, to)
  {
    if CanReach(certs, floor, from, to) {
      ReachGrows(certs, more, floor, from, to);
    } else {
      forall m | CanReach(more, floor, from, m) ensures CanReach(certs, floor, from, m) {
        ReachSettled(certs, more, floor, from, m);
      }
    }
  }

  /** In a parent-closed view the answer is always definite. */
  lemma ClosedIsPresent(certs: Certs, floor: Round, from: Digest)
    requires Closed(certs) && from in certs
    ensures AllPresent(certs, floor, from)
  {
    forall m | CanReach(certs, floor, from, m) ensures m in certs {
      var path :| Leads(certs, floor, path, from, m);
      ClosedSetHolds(certs, floor, certs.Keys, path, from, m);
    }
  }
}
