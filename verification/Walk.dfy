/** Emitting a committed leader's causal history: the recursive post-order and the explicit-stack walk. */
module Walk {
  import opened Schedule
  import opened Dag
  import opened Reach

  // ---- Sorted parents ---------------------------------------------------------------------------

  predicate Ordered(s: seq<Digest>) {
    forall i, j :: 0 <= i < j < |s| ==> s[i] <= s[j]
  }

  lemma ConsOrdered(a: Digest, s: seq<Digest>)
    requires Ordered(s) && (s != [] ==> a <= s[0])
    ensures Ordered([a] + s)
  {
    var t := [a] + s;
    assert forall j :: 0 < j < |t| ==> t[j] == s[j - 1] && t[0] <= t[j];
  }

  function Place(x: Digest, s: seq<Digest>): (r: seq<Digest>)
    requires Ordered(s)
    ensures Ordered(r) && multiset(r) == multiset(s) + multiset{x}
    ensures r != [] && (r[0] == x || (s != [] && r[0] == s[0]))
  {
    if s == [] || x <= s[0] then
      ConsOrdered(x, s);
      [x] + s
    else
      var rest := Place(x, s[1..]);
      ConsOrdered(s[0], rest);
      assert s == [s[0]] + s[1..];
      [s[0]] + rest
  }

  lemma SameMembers(a: seq<Digest>, b: seq<Digest>)
    requires multiset(a) == multiset(b)
    ensures forall x :: x in a <==> x in b
  {
    assert forall x :: x in a <==> x in multiset(a);
    assert forall x :: x in b <==> x in multiset(b);
  }

  lemma PlaceFirst(s: seq<Digest>, sorted: seq<Digest>)
    requires s != [] && Ordered(sorted) && multiset(sorted) == multiset(s[1..])
    ensures multiset(Place(s[0], sorted)) == multiset(s)
    ensures forall x :: x in Place(s[0], sorted) <==> x in s
  {
    assert s == [s[0]] + s[1..];
    SameMembers(Place(s[0], sorted), s);
  }

  /** Parents in digest order, duplicates kept. */
  function Sort(s: seq<Digest>): (r: seq<Digest>)
    ensures Ordered(r) && multiset(r) == multiset(s)
    ensures forall x :: x in r <==> x in s
  {
    if s == [] then []
    else
      var sorted := Sort(s[1..]);
      PlaceFirst(s, sorted);
      Place(s[0], sorted)
  }

  // ---- A measure for walks over an acyclic view -------------------------------------------------

  ghost function Level(certs: Certs, rank: Digest -> nat, d: Digest): nat {
    if d in certs then rank(d) + 1 else 0
  }

  ghost function Height(certs: Certs, rank: Digest -> nat, ps: seq<Digest>): nat {
    if ps == [] then 0
    else
      var h, t := Level(certs, rank, ps[0]), Height(certs, rank, ps[1..]);
      if h > t then h else t
  }

  lemma {:induction false} HeightIsLeast(certs: Certs, rank: Digest -> nat, ps: seq<Digest>, bound: nat)
    requires forall p :: p in ps ==> Level(certs, rank, p) <= bound
    ensures Height(certs, rank, ps) <= bound
  {
    if ps != [] {
      HeightIsLeast(certs, rank, ps[1..], bound);
    }
  }

  lemma ParentsAreLower(certs: Certs, rank: Digest -> nat, d: Digest)
    requires Ranked(certs, rank) && d in certs
    ensures Height(certs, rank, Sort(certs[d].parents)) < Level(certs, rank, d)
  {
    HeightIsLeast(certs, rank, Sort(certs[d].parents), rank(d));
  }

  // ---- The reference: recursive post-order ------------------------------------------------------

  /** Places `d` after its sorted parents, unless it is already placed. */
  ghost function PlaceOne(certs: Certs, floor: Round, rank: Digest -> nat, seen: set<Digest>, acc: seq<Digest>,
                          d: Digest): seq<Digest>
    requires Ranked(certs, rank)
    decreases Level(certs, rank, d), 0
  {
    if d in seen || d in acc || d !in certs then acc
    else if certs[d].round <= floor then acc + [d]
    else
      ParentsAreLower(certs, rank, d);
      PostOrder(certs, floor, rank, seen, acc, Sort(certs[d].parents)) + [d]
  }

  ghost function PostOrder(certs: Certs, floor: Round, rank: Digest -> nat, seen: set<Digest>,
                           acc: seq<Digest>, ps: seq<Digest>): seq<Digest>
    requires Ranked(certs, rank)
    decreases Height(certs, rank, ps), |ps| + 1
  {
    if ps == [] then acc
    else PostOrder(certs, floor, rank, seen, PlaceOne(certs, floor, rank, seen, acc, ps[0]), ps[1..])
  }

  /** The causal history of `root` not yet seen, in emission order. */
  ghost function History(certs: Certs, floor: Round, rank: Digest -> nat, seen: set<Digest>, root: Digest): seq<Digest>
    requires Ranked(certs, rank)
  {
    PlaceOne(certs, floor, rank, seen, [], root)
  }

  /** The whole unseen history of `d`, down to the floor, is held. */
  ghost predicate Complete(certs: Certs, floor: Round, seen: set<Digest>, d: Digest) {
    forall m :: CanReach(certs - seen, floor, d, m) ==> m in certs || m in seen
  }

  ghost predicate AllComplete(certs: Certs, floor: Round, seen: set<Digest>, ps: seq<Digest>) {
    forall p :: p in ps ==> Complete(certs, floor, seen, p)
  }

  /** Completeness, one node at a time. */
  lemma CompleteStep(certs: Certs, floor: Round, seen: set<Digest>, d: Digest)
    ensures Complete(certs, floor, seen, d) <==>
            || d in seen
            || (d in certs && (certs[d].round <= floor || AllComplete(certs, floor, seen, certs[d].parents)))
  {
    var open := certs - seen;
    ReachSelf(open, floor, d);
    forall m ensures CanReach(open, floor, d, m) <==>
      d == m || (Open(open, floor, d) && exists p :: p in open[d].parents && CanReach(open, floor, p, m))
    {
      ReachFirst(open, floor, d, m);
    }
  }

  lemma LeafComplete(certs: Certs, floor: Round, seen: set<Digest>, d: Digest)
    requires d !in seen && !Open(certs, floor, d)
    ensures Complete(certs, floor, seen, d) <==> d in certs
  {
    CompleteStep(certs, floor, seen, d);
  }

  lemma ClosedComplete(certs: Certs, floor: Round, seen: set<Digest>, d: Digest)
    requires Closed(certs) && d in certs
    ensures Complete(certs, floor, seen, d)
  {
    forall m | CanReach(certs - seen, floor, d, m) ensures m in certs {
      ReachGrows(certs - seen, certs, floor, d, m);
      ClosedIsPresent(certs, floor, d);
    }
  }

  /** What a post-order adds: new, distinct, held, unseen, and ranked below what was asked for. */
  ghost predicate Extends(certs: Certs, rank: Digest -> nat, seen: set<Digest>, acc: seq<Digest>, bound: nat,
                          r: seq<Digest>) {
    && acc <= r && Distinct(r)
    && forall x :: x in r && x !in acc ==> x in certs && x !in seen && rank(x) < bound
  }

  lemma {:induction false} PlaceOneExtends(certs: Certs, floor: Round, rank: Digest -> nat, seen: set<Digest>,
                                           acc: seq<Digest>, d: Digest)
    requires Ranked(certs, rank) && Distinct(acc)
    ensures Extends(certs, rank, seen, acc, Level(certs, rank, d), PlaceOne(certs, floor, rank, seen, acc, d))
    decreases Level(certs, rank, d), 0
  {
    if d !in seen && d !in acc && d in certs {
      if certs[d].round <= floor {
        DistinctAppend(acc, [d]);
      } else {
        ParentsAreLower(certs, rank, d);
        PostOrderExtends(certs, floor, rank, seen, acc, Sort(certs[d].parents));
        DistinctAppend(PostOrder(certs, floor, rank, seen, acc, Sort(certs[d].parents)), [d]);
      }
    }
  }

  lemma {:induction false} PostOrderExtends(certs: Certs, floor: Round, rank: Digest -> nat, seen: set<Digest>,
                                            acc: seq<Digest>, ps: seq<Digest>)
    requires Ranked(certs, rank) && Distinct(acc)
    ensures Extends(certs, rank, seen, acc, Height(certs, rank, ps), PostOrder(certs, floor, rank, seen, acc, ps))
    decreases Height(certs, rank, ps), |ps| + 1
  {
    if ps != [] {
      PlaceOneExtends(certs, floor, rank, seen, acc, ps[0]);
      PostOrderExtends(certs, floor, rank, seen, PlaceOne(certs, floor, rank, seen, acc, ps[0]), ps[1..]);
    }
  }

  /** In `r`, everything placed from index `start` on and above the floor follows all of its parents. */
  ghost predicate ParentsFirst(certs: Certs, floor: Round, seen: set<Digest>, start: nat, r: seq<Digest>) {
    forall i :: start <= i < |r| && r[i] in certs && certs[r[i]].round > floor ==>
      forall p :: p in certs[r[i]].parents ==> p in seen || p in r[..i]
  }

  lemma ParentsFirstAppend(certs: Certs, floor: Round, seen: set<Digest>, start: nat, r: seq<Digest>, d: Digest)
    requires ParentsFirst(certs, floor, seen, start, r)
    requires d in certs && certs[d].round > floor ==> forall p :: p in certs[d].parents ==> p in seen || p in r
    ensures ParentsFirst(certs, floor, seen, start, r + [d])
  {
    forall i | start <= i < |r + [d]| ensures (r + [d])[..i] == if i == |r| then r else r[..i] {
    }
  }

  /** Of a complete list everything asked for is placed, each certificate after all of its parents. */
  lemma {:induction false} PlaceOnePlaces(certs: Certs, floor: Round, rank: Digest -> nat, seen: set<Digest>,
                                          start: nat, acc: seq<Digest>, d: Digest)
    requires Ranked(certs, rank) && Distinct(acc) && Complete(certs, floor, seen, d)
    requires ParentsFirst(certs, floor, seen, start, acc)
    ensures var r := PlaceOne(certs, floor, rank, seen, acc, d);
            ParentsFirst(certs, floor, seen, start, r) && (d in seen || d in r)
    decreases Level(certs, rank, d), 0
  {
    CompleteStep(certs, floor, seen, d);
    if d !in seen && d !in acc {
      if certs[d].round <= floor {
        ParentsFirstAppend(certs, floor, seen, start, acc, d);
      } else {
        var parents := Sort(certs[d].parents);
        ParentsAreLower(certs, rank, d);
        PostOrderPlaces(certs, floor, rank, seen, start, acc, parents);
        ParentsFirstAppend(certs, floor, seen, start, PostOrder(certs, floor, rank, seen, acc, parents), d);
      }
    }
  }

  lemma {:induction false} PostOrderPlaces(certs: Certs, floor: Round, rank: Digest -> nat, seen: set<Digest>,
                                           start: nat, acc: seq<Digest>, ps: seq<Digest>)
    requires Ranked(certs, rank) && Distinct(acc) && AllComplete(certs, floor, seen, ps)
    requires ParentsFirst(certs, floor, seen, start, acc)
    ensures var r := PostOrder(certs, floor, rank, seen, acc, ps);
            ParentsFirst(certs, floor, seen, start, r) && forall p :: p in ps ==> p in seen || p in r
    decreases Height(certs, rank, ps), |ps| + 1
  {
    if ps != [] {
      var placed := PlaceOne(certs, floor, rank, seen, acc, ps[0]);
      PlaceOnePlaces(certs, floor, rank, seen, start, acc, ps[0]);
      PlaceOneExtends(certs, floor, rank, seen, acc, ps[0]);
      PostOrderPlaces(certs, floor, rank, seen, start, placed, ps[1..]);
      PostOrderExtends(certs, floor, rank, seen, placed, ps[1..]);
      PrefixKeeps(placed, PostOrder(certs, floor, rank, seen, placed, ps[1..]));
    }
  }

  lemma PrefixKeeps(a: seq<Digest>, b: seq<Digest>)
    requires a <= b
    ensures forall x :: x in a ==> x in b
  {
  }

  /** A complete history reads the same in every larger view. */
  lemma {:induction false} PlaceOneStable(certs: Certs, more: Certs, floor: Round, rank: Digest -> nat,
                                          seen: set<Digest>, acc: seq<Digest>, d: Digest)
    requires Within(certs, more) && Ranked(certs, rank) && Ranked(more, rank) && Complete(certs, floor, seen, d)
    ensures PlaceOne(more, floor, rank, seen, acc, d) == PlaceOne(certs, floor, rank, seen, acc, d)
    decreases Level(certs, rank, d), 0
  {
    CompleteStep(certs, floor, seen, d);
    if d !in seen && d !in acc && certs[d].round > floor {
      ParentsAreLower(certs, rank, d);
      PostOrderStable(certs, more, floor, rank, seen, acc, Sort(certs[d].parents));
    }
  }

  lemma {:induction false} PostOrderStable(certs: Certs, more: Certs, floor: Round, rank: Digest -> nat,
                                           seen: set<Digest>, acc: seq<Digest>, ps: seq<Digest>)
    requires Within(certs, more) && Ranked(certs, rank) && Ranked(more, rank) && AllComplete(certs, floor, seen, ps)
    ensures PostOrder(more, floor, rank, seen, acc, ps) == PostOrder(certs, floor, rank, seen, acc, ps)
    decreases Height(certs, rank, ps), |ps| + 1
  {
    if ps != [] {
      PlaceOneStable(certs, more, floor, rank, seen, acc, ps[0]);
      PostOrderStable(certs, more, floor, rank, seen, PlaceOne(certs, floor, rank, seen, acc, ps[0]), ps[1..]);
    }
  }

  // ---- The walk with its memo, as a recursion ---------------------------------------------------

  /** The walk's private buffers; `ticks` counts loop iterations. */
  datatype Buffers = Buffers(ordered: seq<Digest>, memo: map<Digest, bool>, ticks: nat)

  ghost function Note(b: Buffers, d: Digest, resolved: bool): Buffers {
    Buffers(if resolved then b.ordered + [d] else b.ordered, b.memo[d := resolved], b.ticks + 1)
  }

  ghost function Tick(b: Buffers): Buffers {
    b.(ticks := b.ticks + 1)
  }

  /** Leaving `d`: it is emitted exactly when every parent has been placed. */
  ghost function Leave(certs: Certs, seen: set<Digest>, b: Buffers, d: Digest): Buffers
    requires d in certs
  {
    if d in seen || d in b.memo then Tick(b)
    else Note(b, d, forall p :: p in certs[d].parents ==> p in seen || p in b.ordered)
  }

  /** Entering `d`, with everything that follows from it. */
  ghost function EnterOne(certs: Certs, floor: Round, rank: Digest -> nat, seen: set<Digest>, b: Buffers,
                          d: Digest): Buffers
    requires Ranked(certs, rank)
    decreases Level(certs, rank, d), 0
  {
    if d in seen || d in b.memo then Tick(b)
    else if d !in certs then Note(b, d, false)
    else if certs[d].round <= floor then Note(b, d, true)
    else
      ParentsAreLower(certs, rank, d);
      Leave(certs, seen, EnterAll(certs, floor, rank, seen, Tick(b), Sort(certs[d].parents)), d)
  }

  ghost function EnterAll(certs: Certs, floor: Round, rank: Digest -> nat, seen: set<Digest>, b: Buffers,
                          ps: seq<Digest>): Buffers
    requires Ranked(certs, rank)
    decreases Height(certs, rank, ps), |ps| + 1
  {
    if ps == [] then b
    else EnterAll(certs, floor, rank, seen, EnterOne(certs, floor, rank, seen, b, ps[0]), ps[1..])
  }

  /** The memo is exact: a digest resolves precisely when its history is complete. */
  ghost predicate Exact(certs: Certs, floor: Round, seen: set<Digest>, b: Buffers) {
    && (forall d :: d in b.memo ==> d !in seen && (b.memo[d] <==> Complete(certs, floor, seen, d)))
    && (forall d :: d in b.ordered <==> d in b.memo && b.memo[d])
  }

  lemma NoteExact(certs: Certs, floor: Round, seen: set<Digest>, b: Buffers, d: Digest, resolved: bool)
    requires Exact(certs, floor, seen, b) && d !in seen && d !in b.memo
    requires resolved <==> Complete(certs, floor, seen, d)
    ensures var r := Note(b, d, resolved); Exact(certs, floor, seen, r) && b.memo.Keys <= r.memo.Keys && d in r.memo
  {
  }

  lemma LeaveExact(certs: Certs, floor: Round, seen: set<Digest>, b: Buffers, d: Digest)
    requires d in certs && certs[d].round > floor && Exact(certs, floor, seen, b)
    requires forall p :: p in Sort(certs[d].parents) ==> p in seen || p in b.memo
    ensures var r := Leave(certs, seen, b, d);
            Exact(certs, floor, seen, r) && b.memo.Keys <= r.memo.Keys && (d in seen || d in r.memo)
  {
    CompleteStep(certs, floor, seen, d);
    forall p | p in certs[d].parents
      ensures p in seen || p in b.ordered <==> Complete(certs, floor, seen, p)
    {
      assert p in Sort(certs[d].parents);
      CompleteStep(certs, floor, seen, p);
    }
    if d !in seen && d !in b.memo {
      NoteExact(certs, floor, seen, b, d, Complete(certs, floor, seen, d));
    }
  }

  lemma {:induction false} EnterOneExact(certs: Certs, floor: Round, rank: Digest -> nat, seen: set<Digest>,
                                         b: Buffers, d: Digest)
    requires Ranked(certs, rank) && Exact(certs, floor, seen, b)
    ensures var r := EnterOne(certs, floor, rank, seen, b, d);
            Exact(certs, floor, seen, r) && b.memo.Keys <= r.memo.Keys && (d in seen || d in r.memo)
    decreases Level(certs, rank, d), 0
  {
    if d in seen || d in b.memo {
    } else if !Open(certs, floor, d) {
      LeafComplete(certs, floor, seen, d);
      NoteExact(certs, floor, seen, b, d, d in certs);
    } else {
      ParentsAreLower(certs, rank, d);
      var parents := Sort(certs[d].parents);
      EnterAllExact(certs, floor, rank, seen, Tick(b), parents);
      LeaveExact(certs, floor, seen, EnterAll(certs, floor, rank, seen, Tick(b), parents), d);
    }
  }

  lemma {:induction false} EnterAllExact(certs: Certs, floor: Round, rank: Digest -> nat, seen: set<Digest>,
                                         b: Buffers, ps: seq<Digest>)
    requires Ranked(certs, rank) && Exact(certs, floor, seen, b)
    ensures var r := EnterAll(certs, floor, rank, seen, b, ps);
            && Exact(certs, floor, seen, r) && b.memo.Keys <= r.memo.Keys
            && forall p :: p in ps ==> p in seen || p in r.memo
    decreases Height(certs, rank, ps), |ps| + 1
  {
    if ps != [] {
      EnterOneExact(certs, floor, rank, seen, b, ps[0]);
      EnterAllExact(certs, floor, rank, seen, EnterOne(certs, floor, rank, seen, b, ps[0]), ps[1..]);
    }
  }

  /** While nothing has failed, the memo is just the emitted list. */
  ghost predicate Clean(b: Buffers) {
    Distinct(b.ordered) && forall d :: d in b.memo <==> d in b.ordered
  }

  /** On a complete history the walk emits the reference post-order. */
  lemma {:induction false} EnterOneIsPostOrder(certs: Certs, floor: Round, rank: Digest -> nat, seen: set<Digest>,
                                               b: Buffers, d: Digest)
    requires Ranked(certs, rank) && Complete(certs, floor, seen, d) && Clean(b)
    ensures var r := EnterOne(certs, floor, rank, seen, b, d);
            r.ordered == PlaceOne(certs, floor, rank, seen, b.ordered, d) && Clean(r)
    decreases Level(certs, rank, d), 0
  {
    CompleteStep(certs, floor, seen, d);
    PlaceOneExtends(certs, floor, rank, seen, b.ordered, d);
    if d !in seen && d !in b.memo && certs[d].round > floor {
      var parents := Sort(certs[d].parents);
      ParentsAreLower(certs, rank, d);
      EnterAllIsPostOrder(certs, floor, rank, seen, Tick(b), parents);
      PostOrderExtends(certs, floor, rank, seen, b.ordered, parents);
      PostOrderPlaces(certs, floor, rank, seen, |b.ordered|, b.ordered, parents);
    }
  }

  lemma {:induction false} EnterAllIsPostOrder(certs: Certs, floor: Round, rank: Digest -> nat, seen: set<Digest>,
                                               b: Buffers, ps: seq<Digest>)
    requires Ranked(certs, rank) && AllComplete(certs, floor, seen, ps) && Clean(b)
    ensures var r := EnterAll(certs, floor, rank, seen, b, ps);
            r.ordered == PostOrder(certs, floor, rank, seen, b.ordered, ps) && Clean(r)
    decreases Height(certs, rank, ps), |ps| + 1
  {
    if ps != [] {
      EnterOneIsPostOrder(certs, floor, rank, seen, b, ps[0]);
      EnterAllIsPostOrder(certs, floor, rank, seen, EnterOne(certs, floor, rank, seen, b, ps[0]), ps[1..]);
    }
  }

  // ---- The explicit stack -----------------------------------------------------------------------

  datatype Step = Enter(digest: Digest) | Exit(digest: Digest)

  ghost predicate Exitable(certs: Certs, stack: seq<Step>) {
    forall s :: s in stack && s.Exit? ==> s.digest in certs
  }

  /** What the rest of the loop does to the buffers: the top of the stack is its last element. */
  ghost function Unwind(certs: Certs, floor: Round, rank: Digest -> nat, seen: set<Digest>, b: Buffers,
                        stack: seq<Step>): Buffers
    requires Ranked(certs, rank) && Exitable(certs, stack)
    decreases |stack|
  {
    if stack == [] then b
    else
      var n := |stack| - 1;
      match stack[n]
      case Enter(d) => Unwind(certs, floor, rank, seen, EnterOne(certs, floor, rank, seen, b, d), stack[..n])
      case Exit(d) => Unwind(certs, floor, rank, seen, Leave(certs, seen, b, d), stack[..n])
  }

  function Entering(ps: seq<Digest>): seq<Step> {
    if ps == [] then [] else Entering(ps[1..]) + [Enter(ps[0])]
  }

  lemma {:induction false} UnwindEntering(certs: Certs, floor: Round, rank: Digest -> nat, seen: set<Digest>,
                                          b: Buffers, base: seq<Step>, ps: seq<Digest>)
    requires Ranked(certs, rank) && Exitable(certs, base)
    ensures Exitable(certs, base + Entering(ps))
    ensures Unwind(certs, floor, rank, seen, b, base + Entering(ps)) ==
            Unwind(certs, floor, rank, seen, EnterAll(certs, floor, rank, seen, b, ps), base)
    decreases |ps|
  {
    if ps == [] {
      assert base + Entering(ps) == base;
    } else {
      var stack := base + Entering(ps);
      assert stack[..|stack| - 1] == base + Entering(ps[1..]);
      UnwindEntering(certs, floor, rank, seen, EnterOne(certs, floor, rank, seen, b, ps[0]), base, ps[1..]);
    }
  }

  lemma {:induction false} EnterTicks(certs: Certs, floor: Round, rank: Digest -> nat, seen: set<Digest>, b: Buffers,
                                      d: Digest)
    requires Ranked(certs, rank)
    ensures EnterOne(certs, floor, rank, seen, b, d).ticks > b.ticks
    decreases Level(certs, rank, d), 0
  {
    if d !in seen && d !in b.memo && Open(certs, floor, d) {
      ParentsAreLower(certs, rank, d);
      EnterAllTicks(certs, floor, rank, seen, Tick(b), Sort(certs[d].parents));
    }
  }

  lemma {:induction false} EnterAllTicks(certs: Certs, floor: Round, rank: Digest -> nat, seen: set<Digest>,
                                         b: Buffers, ps: seq<Digest>)
    requires Ranked(certs, rank)
    ensures EnterAll(certs, floor, rank, seen, b, ps).ticks >= b.ticks
    decreases Height(certs, rank, ps), |ps| + 1
  {
    if ps != [] {
      EnterTicks(certs, floor, rank, seen, b, ps[0]);
      EnterAllTicks(certs, floor, rank, seen, EnterOne(certs, floor, rank, seen, b, ps[0]), ps[1..]);
    }
  }

  lemma {:induction false} UnwindTicks(certs: Certs, floor: Round, rank: Digest -> nat, seen: set<Digest>, b: Buffers,
                                       stack: seq<Step>)
    requires Ranked(certs, rank) && Exitable(certs, stack)
    ensures Unwind(certs, floor, rank, seen, b, stack).ticks >= b.ticks + |stack|
    decreases |stack|
  {
    if stack != [] {
      var n := |stack| - 1;
      match stack[n] {
        case Enter(d) =>
          EnterTicks(certs, floor, rank, seen, b, d);
          UnwindTicks(certs, floor, rank, seen, EnterOne(certs, floor, rank, seen, b, d), stack[..n]);
        case Exit(d) =>
          UnwindTicks(certs, floor, rank, seen, Leave(certs, seen, b, d), stack[..n]);
      }
    }
  }

  const FRESH: Buffers := Buffers([], map[], 0)

  lemma UnwindRoot(certs: Certs, floor: Round, rank: Digest -> nat, seen: set<Digest>, root: Digest)
    requires Ranked(certs, rank)
    ensures Unwind(certs, floor, rank, seen, FRESH, [Enter(root)]) == EnterOne(certs, floor, rank, seen, FRESH, root)
    ensures EnterOne(certs, floor, rank, seen, FRESH, root).ticks >= 1
  {
    assert [Enter(root)][..0] == [];
    EnterTicks(certs, floor, rank, seen, FRESH, root);
  }

  /** A finished walk has placed its root exactly when the history is complete, and in post-order. */
  lemma WalkOutcome(certs: Certs, floor: Round, rank: Digest -> nat, seen: set<Digest>, root: Digest)
    requires Ranked(certs, rank)
    ensures var final := EnterOne(certs, floor, rank, seen, FRESH, root);
            && (root in seen || root in final.ordered <==> Complete(certs, floor, seen, root))
            && (Complete(certs, floor, seen, root) ==> final.ordered == History(certs, floor, rank, seen, root))
  {
    EnterOneExact(certs, floor, rank, seen, FRESH, root);
    CompleteStep(certs, floor, seen, root);
    if Complete(certs, floor, seen, root) {
      EnterOneIsPostOrder(certs, floor, rank, seen, FRESH, root);
    }
  }

  /** Pushes the parents in reverse, so that they pop in order. */
  method PushAll(base: seq<Step>, ps: seq<Digest>) returns (stack: seq<Step>)
    ensures stack == base + Entering(ps)
  {
    stack := base;
    var i := |ps|;
    while i > 0
      invariant 0 <= i <= |ps|
      invariant stack == base + Entering(ps[i..])
    {
      i := i - 1;
      assert ps[i..][1..] == ps[i + 1..];
      stack := stack + [Enter(ps[i])];
    }
    assert ps[0..] == ps;
  }

  lemma UnwindTop(certs: Certs, floor: Round, rank: Digest -> nat, seen: set<Digest>, b: Buffers, rest: seq<Step>,
                  top: Step)
    requires Ranked(certs, rank) && Exitable(certs, rest + [top])
    ensures Exitable(certs, rest)
    ensures top.Enter? ==> Unwind(certs, floor, rank, seen, b, rest + [top]) ==
                             Unwind(certs, floor, rank, seen, EnterOne(certs, floor, rank, seen, b, top.digest), rest)
    ensures top.Exit? ==> top.digest in certs && Unwind(certs, floor, rank, seen, b, rest + [top]) ==
                            Unwind(certs, floor, rank, seen, Leave(certs, seen, b, top.digest), rest)
  {
    assert (rest + [top])[..|rest|] == rest;
    assert top in rest + [top];
  }

  lemma UnwindExpand(certs: Certs, floor: Round, rank: Digest -> nat, seen: set<Digest>, b: Buffers, rest: seq<Step>,
                     d: Digest)
    requires Ranked(certs, rank) && Exitable(certs, rest)
    requires d !in seen && d !in b.memo && Open(certs, floor, d)
    ensures Exitable(certs, rest + [Exit(d)] + Entering(Sort(certs[d].parents)))
    ensures Unwind(certs, floor, rank, seen, Tick(b), rest + [Exit(d)] + Entering(Sort(certs[d].parents))) ==
            Unwind(certs, floor, rank, seen, EnterOne(certs, floor, rank, seen, b, d), rest)
  {
    var parents := Sort(certs[d].parents);
    UnwindEntering(certs, floor, rank, seen, Tick(b), rest + [Exit(d)], parents);
    UnwindTop(certs, floor, rank, seen, EnterAll(certs, floor, rank, seen, Tick(b), parents), rest, Exit(d));
  }

  /** One iteration of the walk: pops a step and acts on it. */
  method TakeStep(certs: Certs, floor: Round, ghost rank: Digest -> nat, seen: set<Digest>, ordered0: seq<Digest>,
                  localSeen0: set<Digest>, memo0: map<Digest, bool>, ghost ticks: nat, stack0: seq<Step>)
    returns (ordered: seq<Digest>, localSeen: set<Digest>, memo: map<Digest, bool>, stack: seq<Step>)
    requires Ranked(certs, rank) && stack0 != [] && Exitable(certs, stack0)
    requires forall d :: d in localSeen0 <==> d in ordered0
    ensures Exitable(certs, stack) && forall d :: d in localSeen <==> d in ordered
    ensures Unwind(certs, floor, rank, seen, Buffers(ordered, memo, ticks + 1), stack) ==
            Unwind(certs, floor, rank, seen, Buffers(ordered0, memo0, ticks), stack0)
  {
    ghost var b := Buffers(ordered0, memo0, ticks);
    ordered, localSeen, memo := ordered0, localSeen0, memo0;
    var n := |stack0| - 1;
    var step := stack0[n];
    stack := stack0[..n];
    assert stack0 == stack + [step];
    UnwindTop(certs, floor, rank, seen, b, stack, step);
    var d := step.digest;
    if d in seen || d in memo {
      return;
    }
    match step {
      case Enter(_) =>
        if d !in certs {
          memo := memo[d := false];
        } else if certs[d].round <= floor {
          localSeen, ordered, memo := localSeen + {d}, ordered + [d], memo[d := true];
        } else {
          UnwindExpand(certs, floor, rank, seen, b, stack, d);
          stack := PushAll(stack + [Exit(d)], Sort(certs[d].parents));
        }
      case Exit(_) =>
        if forall p :: p in certs[d].parents ==> p in seen || p in localSeen {
          localSeen, ordered, memo := localSeen + {d}, ordered + [d], memo[d := true];
        } else {
          memo := memo[d := false];
        }
    }
  }

  /**
   * Commits the whole unseen history of `root`, or nothing. `rank` only witnesses that the view is
   * acyclic, which is what makes the loop end.
   */
  method WalkCausalHistory(certs: Certs, floor: Round, ghost rank: Digest -> nat, root: Digest,
                           seen0: set<Digest>, ordered0: seq<Digest>)
    returns (resolved: bool, seen: set<Digest>, ordered: seq<Digest>)
    requires Ranked(certs, rank)
    ensures resolved <==> Complete(certs, floor, seen0, root)
    ensures resolved ==>
              && ordered == ordered0 + History(certs, floor, rank, seen0, root)
              && seen == seen0 + set d | d in History(certs, floor, rank, seen0, root)
    ensures !resolved ==> ordered == ordered0 && seen == seen0
  {
    seen, ordered := seen0, ordered0;
    var localOrdered: seq<Digest> := [];
    var localSeen: set<Digest> := {};
    var memo: map<Digest, bool> := map[];
    var stack := [Enter(root)];
    ghost var ticks := 0;
    ghost var final := EnterOne(certs, floor, rank, seen, FRESH, root);
    UnwindRoot(certs, floor, rank, seen, root);
    while stack != []
      invariant Exitable(certs, stack) && (forall d :: d in localSeen <==> d in localOrdered)
      invariant Unwind(certs, floor, rank, seen, Buffers(localOrdered, memo, ticks), stack) == final
      invariant ticks + |stack| <= final.ticks
      decreases final.ticks - ticks
    {
      localOrdered, localSeen, memo, stack :=
        TakeStep(certs, floor, rank, seen, localOrdered, localSeen, memo, ticks, stack);
      ticks := ticks + 1;
      UnwindTicks(certs, floor, rank, seen, Buffers(localOrdered, memo, ticks), stack);
    }
    assert localSeen == set d | d in localOrdered;
    WalkOutcome(certs, floor, rank, seen, root);
    resolved := root in seen || root in localSeen;
    if resolved {
      ordered := ordered + localOrdered;
      seen := seen + localSeen;
    }
  }
}
