/** What is emitted and in which order, read off committed leaders, paths and digests. */
module Emission {
  import opened Schedule
  import opened Dag
  import opened Verdict
  import opened Reach
  import opened Resolve
  import opened Walk
  import opened Order
  import opened Agreement
  import opened Runs

  ghost predicate Before(s: seq<Digest>, x: Digest, y: Digest) {
    exists i, j :: 0 <= i < j < |s| && s[i] == x && s[j] == y
  }

  /** What a prefix holds comes before whatever else there is. */
  lemma PrefixBefore(a: seq<Digest>, s: seq<Digest>, x: Digest, y: Digest)
    requires a <= s && x in a && y in s && y !in a
    ensures Before(s, x, y)
  {
    var i :| 0 <= i < |a| && a[i] == x;
    var j :| 0 <= j < |s| && s[j] == y;
    assert s[i] == x && forall k :: 0 <= k < |a| ==> s[k] == a[k];
  }

  lemma BeforeShift(a: seq<Digest>, s: seq<Digest>, x: Digest, y: Digest)
    requires Before(s, x, y)
    ensures Before(a + s, x, y)
  {
    var i, j :| 0 <= i < j < |s| && s[i] == x && s[j] == y;
    assert (a + s)[|a| + i] == x && (a + s)[|a| + j] == y;
  }

  // ---- One history ----------------------------------------------------------------------------------

  /** `x` is held, not yet emitted, and reached from `d` through certificates not yet emitted. */
  ghost predicate Owed(certs: Certs, floor: Round, seen: set<Digest>, d: Digest, x: Digest) {
    x in certs && x !in seen && CanReach(certs - seen, floor, d, x)
  }

  lemma OwedStep(certs: Certs, floor: Round, seen: set<Digest>, d: Digest, p: Digest, x: Digest)
    requires d !in seen && Open(certs, floor, d) && p in certs[d].parents && Owed(certs, floor, seen, p, x)
    ensures Owed(certs, floor, seen, d, x)
  {
    ReachFirst(certs - seen, floor, d, x);
  }

  lemma {:induction false} PlacedIsOwed(certs: Certs, floor: Round, rank: Digest -> nat, seen: set<Digest>,
                                        acc: seq<Digest>, d: Digest, x: Digest)
    requires Ranked(certs, rank) && x in PlaceOne(certs, floor, rank, seen, acc, d) && x !in acc
    ensures Owed(certs, floor, seen, d, x)
    decreases Level(certs, rank, d), 0
  {
    ReachSelf(certs - seen, floor, d);
    if x != d {
      ParentsAreLower(certs, rank, d);
      var p := ListedIsOwed(certs, floor, rank, seen, acc, Sort(certs[d].parents), x);
      OwedStep(certs, floor, seen, d, p, x);
    }
  }

  lemma {:induction false} ListedIsOwed(certs: Certs, floor: Round, rank: Digest -> nat, seen: set<Digest>,
                                        acc: seq<Digest>, ps: seq<Digest>, x: Digest) returns (p: Digest)
    requires Ranked(certs, rank) && x in PostOrder(certs, floor, rank, seen, acc, ps) && x !in acc
    ensures p in ps && Owed(certs, floor, seen, p, x)
    decreases Height(certs, rank, ps), |ps| + 1
  {
    var placed := PlaceOne(certs, floor, rank, seen, acc, ps[0]);
    if x in placed {
      PlacedIsOwed(certs, floor, rank, seen, acc, ps[0], x);
      p := ps[0];
    } else {
      p := ListedIsOwed(certs, floor, rank, seen, placed, ps[1..], x);
    }
  }

  /** A list whose members above the floor come after their parents holds all that is owed to a member. */
  lemma OwedIsPlaced(certs: Certs, floor: Round, seen: set<Digest>, s: seq<Digest>, d: Digest, x: Digest)
    requires ParentsFirst(certs, floor, seen, 0, s) && (d in seen || d in s) && Owed(certs, floor, seen, d, x)
    ensures x in s
  {
    var open := certs - seen;
    var path :| Leads(open, floor, path, d, x);
    forall y, p | y in Elements(s) + seen && Open(open, floor, y) && p in open[y].parents
      ensures p in Elements(s) + seen
    {
      var i :| 0 <= i < |s| && s[i] == y;
      assert p in seen || p in s[..i];
    }
    ClosedSetHolds(open, floor, Elements(s) + seen, path, d, x);
  }

  /** A complete history is emitted in full, and nothing else is. */
  lemma HistoryExactly(certs: Certs, floor: Round, rank: Digest -> nat, seen: set<Digest>, d: Digest, x: Digest)
    requires Ranked(certs, rank) && Complete(certs, floor, seen, d)
    ensures x in History(certs, floor, rank, seen, d) <==> Owed(certs, floor, seen, d, x)
  {
    var h := History(certs, floor, rank, seen, d);
    PlaceOnePlaces(certs, floor, rank, seen, 0, [], d);
    if x in h {
      PlacedIsOwed(certs, floor, rank, seen, [], d, x);
    } else if Owed(certs, floor, seen, d, x) {
      OwedIsPlaced(certs, floor, seen, h, d, x);
    }
  }

  // ---- Siblings in digest order ---------------------------------------------------------------------

  lemma {:induction false} PostOrderSplit(certs: Certs, floor: Round, rank: Digest -> nat, seen: set<Digest>,
                                          acc: seq<Digest>, ps: seq<Digest>, qs: seq<Digest>)
    requires Ranked(certs, rank)
    ensures PostOrder(certs, floor, rank, seen, acc, ps + qs) ==
            PostOrder(certs, floor, rank, seen, PostOrder(certs, floor, rank, seen, acc, ps), qs)
    decreases |ps|
  {
    if ps == [] {
      assert ps + qs == qs;
    } else {
      assert (ps + qs)[0] == ps[0] && (ps + qs)[1..] == ps[1..] + qs;
      PostOrderSplit(certs, floor, rank, seen, PlaceOne(certs, floor, rank, seen, acc, ps[0]), ps[1..], qs);
    }
  }

  /** The part of an ordered list up to and including the last `p`. */
  lemma SplitAfter(ps: seq<Digest>, p: Digest) returns (n: nat)
    requires Ordered(ps) && p in ps
    ensures n <= |ps| && p in ps[..n] && forall q :: q in ps[..n] ==> q <= p
  {
    var i :| 0 <= i < |ps| && ps[i] == p;
    n := i + 1;
    assert ps[..n][i] == p;
  }

  /**
   * Parents are followed in digest order: what is owed to some parent comes before whatever is owed to
   * none of the parents up to it.
   */
  lemma SmallerParentFirst(certs: Certs, floor: Round, rank: Digest -> nat, seen: set<Digest>, d: Digest, p: Digest,
                           x: Digest, y: Digest)
    requires Ranked(certs, rank) && Complete(certs, floor, seen, d) && d !in seen && Open(certs, floor, d)
    requires p in certs[d].parents && Owed(certs, floor, seen, p, x) && Owed(certs, floor, seen, d, y)
    requires forall q :: q in certs[d].parents && q <= p ==> !Owed(certs, floor, seen, q, y)
    ensures Before(History(certs, floor, rank, seen, d), x, y)
  {
    var ps, h := Sort(certs[d].parents), History(certs, floor, rank, seen, d);
    CompleteStep(certs, floor, seen, d);
    HistoryExactly(certs, floor, rank, seen, d, y);
    var n := SplitAfter(ps, p);
    var head := PostOrder(certs, floor, rank, seen, [], ps[..n]);
    HeadComesFirst(certs, floor, rank, seen, d, n);
    PostOrderPlaces(certs, floor, rank, seen, 0, [], ps[..n]);
    OwedIsPlaced(certs, floor, seen, head, p, x);
    forall q | q in ps[..n] ensures !Owed(certs, floor, seen, q, y) {
      assert q in ps;
    }
    if y in head {
      var q := ListedIsOwed(certs, floor, rank, seen, [], ps[..n], y);
    }
    PrefixBefore(head, h, x, y);
  }

  lemma HeadComesFirst(certs: Certs, floor: Round, rank: Digest -> nat, seen: set<Digest>, d: Digest, n: nat)
    requires Ranked(certs, rank) && d !in seen && Open(certs, floor, d) && n <= |Sort(certs[d].parents)|
    ensures PostOrder(certs, floor, rank, seen, [], Sort(certs[d].parents)[..n]) <= History(certs, floor, rank, seen, d)
  {
    var ps := Sort(certs[d].parents);
    HeadFirst(certs, floor, rank, seen, ps, n);
    PlacedLast(certs, floor, rank, seen, d, ps);
    PrefixTrans(PostOrder(certs, floor, rank, seen, [], ps[..n]), PostOrder(certs, floor, rank, seen, [], ps),
                History(certs, floor, rank, seen, d));
  }

  lemma PrefixTrans(a: seq<Digest>, b: seq<Digest>, c: seq<Digest>)
    requires a <= b && b <= c
    ensures a <= c
  {
  }

  lemma HeadFirst(certs: Certs, floor: Round, rank: Digest -> nat, seen: set<Digest>, ps: seq<Digest>, n: nat)
    requires Ranked(certs, rank) && n <= |ps|
    ensures PostOrder(certs, floor, rank, seen, [], ps[..n]) <= PostOrder(certs, floor, rank, seen, [], ps)
  {
    var head := PostOrder(certs, floor, rank, seen, [], ps[..n]);
    assert ps[..n] + ps[n..] == ps;
    PostOrderSplit(certs, floor, rank, seen, [], ps[..n], ps[n..]);
    PostOrderExtends(certs, floor, rank, seen, [], ps[..n]);
    PostOrderExtends(certs, floor, rank, seen, head, ps[n..]);
  }

  lemma PlacedLast(certs: Certs, floor: Round, rank: Digest -> nat, seen: set<Digest>, d: Digest, ps: seq<Digest>)
    requires Ranked(certs, rank) && d !in seen && Open(certs, floor, d) && ps == Sort(certs[d].parents)
    ensures PostOrder(certs, floor, rank, seen, [], ps) <= History(certs, floor, rank, seen, d)
  {
  }

  // ---- The whole order ------------------------------------------------------------------------------

  /** Whatever the members above round 0 list as parents belongs too. */
  ghost predicate Downward(certs: Certs, s: set<Digest>) {
    forall d, p :: d in s && Open(certs, 0, d) && p in certs[d].parents ==> p in s
  }

  /** Past a downward set, what is owed is what is reached. */
  lemma OwedIsReached(certs: Certs, seen: set<Digest>, d: Digest, x: Digest)
    requires Closed(certs) && d in certs && Downward(certs, seen)
    ensures Owed(certs, 0, seen, d, x) <==> x !in seen && CanReach(certs, 0, d, x)
  {
    if CanReach(certs - seen, 0, d, x) {
      ReachGrows(certs - seen, certs, 0, d, x);
    }
    if x !in seen && CanReach(certs, 0, d, x) {
      ClosedIsPresent(certs, 0, d);
      var path :| Leads(certs, 0, path, d, x);
      AvoidsSeen(certs, seen, path, d, x);
    }
  }

  lemma {:induction false} AvoidsSeen(certs: Certs, seen: set<Digest>, path: seq<Digest>, d: Digest, x: Digest)
    requires Downward(certs, seen) && Leads(certs, 0, path, d, x) && x !in seen
    ensures Leads(certs - seen, 0, path, d, x)
    decreases |path|
  {
    if d in seen {
      ClosedSetHolds(certs, 0, seen, path, d, x);
    } else if |path| > 1 {
      AvoidsSeen(certs, seen, path[1..], path[1], x);
      var rest := path[1..];
      forall i | 0 <= i < |path| - 1
        ensures Open(certs - seen, 0, path[i]) && path[i + 1] in (certs - seen)[path[i]].parents
      {
        if i > 0 {
          assert rest[i - 1] == path[i] && rest[i] == path[i + 1];
        }
      }
    }
  }

  lemma CommitBlock(v: View, rank: Digest -> nat, round: Round, upTo: Round, seen: set<Digest>, d: Digest)
    requires Ranked(v.certs, rank) && Closed(v.certs) && Grounded(v, upTo) && Downward(v.certs, seen)
    requires round <= upTo && Fate(v, 0, round, upTo) == Committed(d)
    ensures var h := History(v.certs, 0, rank, seen, d);
            && (forall x :: x in h <==> x !in seen && CanReach(v.certs, 0, d, x))
            && Downward(v.certs, seen + Elements(h))
            && Plain(v, 0, rank, round, upTo, seen) == After(h, Plain(v, 0, rank, round + 1, upTo, seen + Elements(h)))
  {
    var h := History(v.certs, 0, rank, seen, d);
    FateHeld(v, 0, round, upTo);
    ClosedComplete(v.certs, 0, seen, d);
    forall x ensures x in h <==> x !in seen && CanReach(v.certs, 0, d, x) {
      HistoryExactly(v.certs, 0, rank, seen, d, x);
      OwedIsReached(v.certs, seen, d, x);
    }
    BlockDownward(v.certs, seen, d, h);
    PlainCommit(v, 0, rank, round, upTo, seen, d);
  }

  lemma BlockDownward(certs: Certs, seen: set<Digest>, d: Digest, h: seq<Digest>)
    requires Downward(certs, seen) && forall x :: x in h <==> x !in seen && CanReach(certs, 0, d, x)
    ensures Downward(certs, seen + Elements(h))
  {
    forall y, p | y in h && Open(certs, 0, y) && p in certs[y].parents ensures p in seen || p in h {
      ReachStep(certs, 0, d, y, p);
    }
  }

  /** The leader certificate `l` is committed at `r` and reaches `x`. */
  ghost predicate Brings(v: View, upTo: Round, r: Round, l: Digest, x: Digest) {
    Fate(v, 0, r, upTo) == Committed(l) && CanReach(v.certs, 0, l, x)
  }

  ghost predicate BroughtBy(v: View, upTo: Round, from: Round, to: Round, x: Digest) {
    exists r, l :: from <= r < to && Brings(v, upTo, r, l, x)
  }

  lemma BroughtStep(v: View, upTo: Round, from: Round, to: Round, x: Digest)
    requires from < to
    ensures BroughtBy(v, upTo, from, to, x) <==>
            || (Fate(v, 0, from, upTo).Committed? && CanReach(v.certs, 0, Fate(v, 0, from, upTo).digest, x))
            || BroughtBy(v, upTo, from + 1, to, x)
  {
    if Fate(v, 0, from, upTo).Committed? && CanReach(v.certs, 0, Fate(v, 0, from, upTo).digest, x) {
      assert Brings(v, upTo, from, Fate(v, 0, from, upTo).digest, x);
    }
  }

  /** Where a pass stops: past the window, or at the first open fate. */
  ghost predicate StopsAt(v: View, round: Round, upTo: Round, stop: Round) {
    && round <= stop && (stop > round ==> stop <= upTo + 1)
    && (forall r :: round <= r < stop ==> !Fate(v, 0, r, upTo).Undecided?)
    && (stop <= upTo ==> Fate(v, 0, stop, upTo).Undecided?)
  }

  lemma {:induction false} PlainStops(v: View, rank: Digest -> nat, round: Round, upTo: Round, seen: set<Digest>)
    requires Ranked(v.certs, rank) && Closed(v.certs) && Grounded(v, upTo)
    ensures StopsAt(v, round, upTo, Plain(v, 0, rank, round, upTo, seen).round)
    decreases upTo - round + 1
  {
    if round <= upTo && !Fate(v, 0, round, upTo).Undecided? {
      var h := PlainStep(v, rank, round, upTo, seen);
      PlainStops(v, rank, round + 1, upTo, seen + Elements(h));
    }
  }

  /** A pass emits exactly what the leaders it commits reach and what was not emitted before. */
  lemma {:induction false} PlainExactly(v: View, rank: Digest -> nat, round: Round, upTo: Round, seen: set<Digest>,
                                        x: Digest)
    requires Ranked(v.certs, rank) && Closed(v.certs) && Grounded(v, upTo) && Downward(v.certs, seen)
    ensures var p := Plain(v, 0, rank, round, upTo, seen);
            x in p.ordered <==> x !in seen && BroughtBy(v, upTo, round, p.round, x)
    decreases upTo - round + 1
  {
    PlainStops(v, rank, round, upTo, seen);
    var p := Plain(v, 0, rank, round, upTo, seen);
    if round < p.round {
      BroughtStep(v, upTo, round, p.round, x);
      if Fate(v, 0, round, upTo).Committed? {
        var d := Fate(v, 0, round, upTo).digest;
        CommitBlock(v, rank, round, upTo, seen, d);
        PlainExactly(v, rank, round + 1, upTo, seen + Elements(History(v.certs, 0, rank, seen, d)), x);
      } else {
        PlainExactly(v, rank, round + 1, upTo, seen, x);
      }
    }
  }

  /** Round `r` was committed and looked at by a pass that went from `round` to `stop`. */
  ghost predicate MetCommit(v: View, floor: Round, upTo: Round, round: Round, stop: Round, r: Round) {
    round <= r <= stop && r <= upTo && Fate(v, floor, r, upTo).Committed?
  }

  lemma MetStep(v: View, floor: Round, upTo: Round, round: Round, stop: Round, r: Round)
    requires round <= stop && round <= upTo
    ensures MetCommit(v, floor, upTo, round, stop, r) <==>
            || (r == round && Fate(v, floor, round, upTo).Committed?)
            || MetCommit(v, floor, upTo, round + 1, stop, r)
  {
  }

  lemma MetNothing(v: View, floor: Round, upTo: Round, round: Round, stop: Round, r: Round)
    requires stop < round || round > upTo
    ensures !MetCommit(v, floor, upTo, round, stop, r)
  {
  }

  /** A pass remembers exactly the commits it has come across, besides what it knew. */
  lemma {:induction false} CachedExactly(v: View, floor: Round, rank: Digest -> nat, round: Round, upTo: Round,
                                         seen: set<Digest>, cache: map<Round, Digest>, r: Round)
    requires Ranked(v.certs, rank) && CacheSound(v, floor, upTo, cache)
    ensures var p := Extend(v, floor, rank, round, upTo, seen, cache);
            r in p.cache <==> r in cache || MetCommit(v, floor, upTo, round, p.round, r)
    decreases upTo - round + 1, 1
  {
    var p := Extend(v, floor, rank, round, upTo, seen, cache);
    if round > upTo {
      MetNothing(v, floor, upTo, round, p.round, r);
    } else {
      var fate := Fate(v, floor, round, upTo);
      ExtendCaches(v, floor, rank, round, upTo, seen, cache);
      MetStep(v, floor, upTo, round, p.round, r);
      if fate.Committed? {
        CachedCommit(v, floor, rank, round, upTo, seen, cache, r, fate.digest);
      } else if fate.Skipped? {
        CachedExactly(v, floor, rank, round + 1, upTo, seen, cache, r);
      } else {
        MetNothing(v, floor, upTo, round + 1, p.round, r);
      }
    }
  }

  lemma {:induction false} CachedCommit(v: View, floor: Round, rank: Digest -> nat, round: Round, upTo: Round,
                                        seen: set<Digest>, cache: map<Round, Digest>, r: Round, d: Digest)
    requires Ranked(v.certs, rank) && CacheSound(v, floor, upTo, cache)
    requires round <= upTo && Fate(v, floor, round, upTo) == Committed(d)
    ensures var p := Extend(v, floor, rank, round, upTo, seen, cache);
            r in p.cache <==> r in cache || r == round || MetCommit(v, floor, upTo, round + 1, p.round, r)
    decreases upTo - round + 1, 0
  {
    if Complete(v.certs, floor, seen, d) {
      var all := seen + Elements(History(v.certs, floor, rank, seen, d));
      CachedExactly(v, floor, rank, round + 1, upTo, all, cache[round := d], r);
    } else {
      MetNothing(v, floor, upTo, round + 1, round, r);
    }
  }

  /** What an earlier leader reaches comes before what no leader up to it reaches. */
  lemma {:induction false} BlocksInOrder(v: View, rank: Digest -> nat, round: Round, upTo: Round, seen: set<Digest>,
                                         to: Round, x: Digest, y: Digest)
    requires Ranked(v.certs, rank) && Closed(v.certs) && Grounded(v, upTo) && Downward(v.certs, seen)
    requires x !in seen && BroughtBy(v, upTo, round, to, x) && !BroughtBy(v, upTo, round, to, y)
    requires var p := Plain(v, 0, rank, round, upTo, seen); to <= p.round && y in p.ordered
    ensures Before(Plain(v, 0, rank, round, upTo, seen).ordered, x, y)
    decreases upTo - round + 1, 1
  {
    PlainStops(v, rank, round, upTo, seen);
    BroughtStep(v, upTo, round, to, x);
    BroughtStep(v, upTo, round, to, y);
    if Fate(v, 0, round, upTo).Committed? {
      BlockThenRest(v, rank, round, upTo, seen, to, x, y, Fate(v, 0, round, upTo).digest);
    } else {
      BlocksInOrder(v, rank, round + 1, upTo, seen, to, x, y);
    }
  }

  lemma {:induction false} BlockThenRest(v: View, rank: Digest -> nat, round: Round, upTo: Round, seen: set<Digest>,
                                         to: Round, x: Digest, y: Digest, d: Digest)
    requires Ranked(v.certs, rank) && Closed(v.certs) && Grounded(v, upTo) && Downward(v.certs, seen)
    requires round <= upTo && Fate(v, 0, round, upTo) == Committed(d) && x !in seen && !CanReach(v.certs, 0, d, y)
    requires CanReach(v.certs, 0, d, x) || BroughtBy(v, upTo, round + 1, to, x)
    requires !BroughtBy(v, upTo, round + 1, to, y)
    requires var p := Plain(v, 0, rank, round, upTo, seen); to <= p.round && y in p.ordered
    ensures Before(Plain(v, 0, rank, round, upTo, seen).ordered, x, y)
    decreases upTo - round + 1, 0
  {
    var h := History(v.certs, 0, rank, seen, d);
    CommitBlock(v, rank, round, upTo, seen, d);
    if x in h {
      PrefixBefore(h, Plain(v, 0, rank, round, upTo, seen).ordered, x, y);
    } else {
      BlocksInOrder(v, rank, round + 1, upTo, seen + Elements(h), to, x, y);
      BeforeShift(h, Plain(v, 0, rank, round + 1, upTo, seen + Elements(h)).ordered, x, y);
    }
  }

  /** Leaders before `to` bring `x`; only later ones, still before `stop`, bring `y`. */
  ghost predicate InTurn(v: View, upTo: Round, to: Round, stop: Round, x: Digest, y: Digest) {
    && to <= stop && BroughtBy(v, upTo, 0, to, x)
    && BroughtBy(v, upTo, 0, stop, y) && !BroughtBy(v, upTo, 0, to, y)
  }

  /**
   * The order a fresh `advance` derives, without recursion. It stops at the first open round, or past
   * the last one held and final; it emits exactly what the committed leaders before that reach; and
   * what leaders up to some round reach comes before the rest.
   */
  lemma FreshOrderExactly(m: Moment, rank: Digest -> nat)
    requires Sound(m, rank)
    ensures var v, order := ViewOf(m.net, m.dag), FreshOrder(m, rank);
            var stop := Advanced(m.net, m.dag, rank, NEW).finalized;
            var last := if m.dag.highest <= m.net.frontier then m.dag.highest else m.net.frontier;
            && StopsAt(v, 0, last, stop)
            && (forall x :: x in order <==> BroughtBy(v, last, 0, stop, x))
            && (forall to, x, y :: InTurn(v, last, to, stop, x, y) ==> Before(order, x, y))
  {
    var v, last := ViewOf(m.net, m.dag), UpTo(m.net, m.dag);
    ViewGrounded(m.net, m.dag, last);
    CacheTransparent(v, 0, rank, 0, last, {}, map[]);
    PassExactly(v, rank, last);
  }

  /** The same for a fresh pass over a view. */
  lemma PassExactly(v: View, rank: Digest -> nat, last: Round)
    requires Ranked(v.certs, rank) && Closed(v.certs) && Grounded(v, last)
    ensures var p := Plain(v, 0, rank, 0, last, {});
            && StopsAt(v, 0, last, p.round)
            && (forall x :: x in p.ordered <==> BroughtBy(v, last, 0, p.round, x))
            && (forall to, x, y :: InTurn(v, last, to, p.round, x, y) ==> Before(p.ordered, x, y))
  {
    var p := Plain(v, 0, rank, 0, last, {});
    PlainStops(v, rank, 0, last, {});
    forall x ensures x in p.ordered <==> BroughtBy(v, last, 0, p.round, x) {
      PlainExactly(v, rank, 0, last, {}, x);
    }
    forall to, x, y | InTurn(v, last, to, p.round, x, y) ensures Before(p.ordered, x, y) {
      BlocksInOrder(v, rank, 0, last, {}, to, x, y);
    }
  }
}
