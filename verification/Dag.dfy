/** Certificates, the two-index certificate store, and what it means for one view to grow into another. */
module Dag {
  import opened Stake
  import opened Schedule

  datatype Option<+T> = None | Some(value: T)

  ghost predicate Distinct<T>(s: seq<T>) {
    forall i, j :: 0 <= i < j < |s| ==> s[i] != s[j]
  }

  lemma DistinctAppend<T>(a: seq<T>, b: seq<T>)
    requires Distinct(a) && Distinct(b)
    requires forall x :: x in a ==> x !in b
    ensures Distinct(a + b)
  {
    forall i, j | 0 <= i < j < |a + b| ensures (a + b)[i] != (a + b)[j] {
      if i < |a| <= j {
        assert a[i] in a && b[j - |a|] in b;
      }
    }
  }

  /** A certificate's digest: an opaque id whose order is the byte order parents are sorted by. */
  type Digest = nat

  datatype Certificate = Certificate(round: Round, author: ValidatorId, parents: seq<Digest>)

  type Certs = map<Digest, Certificate>

  /** The store: certificates by digest, digests by (round, author), and the tracked top round. */
  datatype Dag = Dag(certs: Certs, slots: map<Round, map<ValidatorId, Digest>>, highest: Round)

  const EMPTY: Dag := Dag(map[], map[], 0)

  function Row(dag: Dag, round: Round): map<ValidatorId, Digest> {
    if round in dag.slots then dag.slots[round] else map[]
  }

  /** The held certificate of `author` in `round`. */
  function ByAuthor(dag: Dag, round: Round, author: ValidatorId): Option<Digest> {
    var row := Row(dag, round);
    if author in row && row[author] in dag.certs then Some(row[author]) else None
  }

  /** The authors of the held certificates of `round`. */
  function Authors(dag: Dag, round: Round): set<ValidatorId> {
    var row := Row(dag, round);
    set a | a in row && row[a] in dag.certs
  }

  /** Every slot points at a held certificate of that round and author. */
  ghost predicate Indexed(dag: Dag) {
    forall r, a :: r in dag.slots && a in dag.slots[r] ==>
      var d := dag.slots[r][a];
      d in dag.certs && dag.certs[d].round == r && dag.certs[d].author == a
  }

  /** At most one certificate per (round, author): every held digest is in its own slot. */
  ghost predicate NoEquivocation(dag: Dag) {
    forall d :: d in dag.certs ==> ByAuthor(dag, dag.certs[d].round, dag.certs[d].author) == Some(d)
  }

  ghost predicate Coherent(dag: Dag) {
    Indexed(dag) && NoEquivocation(dag)
  }

  /** No held certificate lies above the tracked top round. */
  ghost predicate Topped(dag: Dag) {
    forall d :: d in dag.certs ==> dag.certs[d].round <= dag.highest
  }

  /** Every parent of a held certificate is held. */
  ghost predicate Closed(certs: Certs) {
    forall d, p :: d in certs && p in certs[d].parents ==> p in certs
  }

  /** A certificate of round `r` lists parents of round `r - 1` only. */
  ghost predicate Layered(certs: Certs) {
    forall d, p :: d in certs && p in certs[d].parents && p in certs ==> certs[p].round + 1 == certs[d].round
  }

  /** `rank` witnesses that the held parent links have no cycle. */
  ghost predicate Ranked(certs: Certs, rank: Digest -> nat) {
    forall d, p :: d in certs && p in certs[d].parents && p in certs ==> rank(p) < rank(d)
  }

  ghost predicate Within(certs: Certs, more: Certs) {
    forall d :: d in certs ==> d in more && more[d] == certs[d]
  }

  /** `more` holds everything `dag` holds, and its tracked top round is no lower. */
  ghost predicate Grown(dag: Dag, more: Dag) {
    Within(dag.certs, more.certs) && dag.highest <= more.highest
  }

  /** In coherent stores the slot lookup is a lookup by contents. */
  lemma ByAuthorIsContents(dag: Dag, round: Round, author: ValidatorId, d: Digest)
    requires Coherent(dag)
    ensures ByAuthor(dag, round, author) == Some(d) <==>
            d in dag.certs && dag.certs[d].round == round && dag.certs[d].author == author
    ensures author in Authors(dag, round) <==> ByAuthor(dag, round, author).Some?
  {
  }

  /** A slot filled in `dag` is filled with the same digest in everything `dag` grows into. */
  lemma SlotsGrow(dag: Dag, more: Dag, round: Round, author: ValidatorId)
    requires Coherent(dag) && Coherent(more) && Within(dag.certs, more.certs)
    ensures ByAuthor(dag, round, author).Some? ==> ByAuthor(more, round, author) == ByAuthor(dag, round, author)
    ensures ByAuthor(more, round, author).Some? && ByAuthor(more, round, author).value in dag.certs ==>
            ByAuthor(dag, round, author) == ByAuthor(more, round, author)
  {
    if ByAuthor(dag, round, author).Some? {
      ByAuthorIsContents(dag, round, author, ByAuthor(dag, round, author).value);
      ByAuthorIsContents(more, round, author, ByAuthor(dag, round, author).value);
    }
    if ByAuthor(more, round, author).Some? {
      ByAuthorIsContents(more, round, author, ByAuthor(more, round, author).value);
      ByAuthorIsContents(dag, round, author, ByAuthor(more, round, author).value);
    }
  }

  function Inserted(dag: Dag, d: Digest, cert: Certificate): Dag {
    var certs := dag.certs[d := cert];
    Dag(certs,
        dag.slots[cert.round := Row(dag, cert.round)[cert.author := d]],
        if cert.round > dag.highest || |certs| == 1 then cert.round else dag.highest)
  }

  lemma CardinalityOne(certs: Certs, d: Digest)
    requires d in certs
    ensures |certs| == 1 <==> forall x :: x in certs ==> x == d
  {
    var rest := certs.Keys - {d};
    assert |certs| == |certs.Keys| == |rest| + 1;
    if |certs| == 1 {
      assert forall x :: x in certs && x != d ==> x in rest;
    }
  }

  /** Inserting keeps the index sound and the top round an upper bound, equivocation or not. */
  lemma InsertKeepsIndex(dag: Dag, d: Digest, cert: Certificate)
    requires Indexed(dag) && Topped(dag)
    requires d in dag.certs ==> dag.certs[d] == cert
    ensures Indexed(Inserted(dag, d, cert)) && Topped(Inserted(dag, d, cert))
    ensures Within(dag.certs, Inserted(dag, d, cert).certs)
  {
    var next := Inserted(dag, d, cert);
    CardinalityOne(next.certs, d);
  }

  /** The tracked top round falls exactly when nothing else was held and the newcomer is lower. */
  lemma InsertTopFalls(dag: Dag, d: Digest, cert: Certificate)
    ensures Inserted(dag, d, cert).highest < dag.highest <==>
            cert.round < dag.highest && forall x :: x in dag.certs ==> x == d
  {
    var next := Inserted(dag, d, cert);
    CardinalityOne(next.certs, d);
    assert forall x :: x in next.certs <==> x == d || x in dag.certs;
  }

  lemma InsertedByAuthor(dag: Dag, d: Digest, cert: Certificate, round: Round, author: ValidatorId)
    requires Indexed(dag)
    ensures ByAuthor(Inserted(dag, d, cert), round, author) ==
            if round == cert.round && author == cert.author then Some(d) else ByAuthor(dag, round, author)
  {
  }

  /** Coherence survives an insertion exactly when the slot was free or already held this digest. */
  lemma InsertKeepsCoherence(dag: Dag, d: Digest, cert: Certificate)
    requires Coherent(dag) && Topped(dag)
    requires d in dag.certs ==> dag.certs[d] == cert
    ensures Coherent(Inserted(dag, d, cert)) <==>
            (ByAuthor(dag, cert.round, cert.author).Some? ==> ByAuthor(dag, cert.round, cert.author).value == d)
  {
    var next := Inserted(dag, d, cert);
    InsertKeepsIndex(dag, d, cert);
    var slot := ByAuthor(dag, cert.round, cert.author);
    if slot.None? || slot.value == d {
      forall x | x in next.certs
        ensures ByAuthor(next, next.certs[x].round, next.certs[x].author) == Some(x)
      {
        InsertedByAuthor(dag, d, cert, next.certs[x].round, next.certs[x].author);
      }
    } else {
      assert ByAuthor(next, next.certs[slot.value].round, next.certs[slot.value].author) != slot by {
        InsertedByAuthor(dag, d, cert, cert.round, cert.author);
      }
    }
  }

  /** What is left of a coherent store once every certificate below `floor` is gone. */
  function Pruned(dag: Dag, floor: Round): Dag {
    Dag(map d | d in dag.certs && dag.certs[d].round >= floor :: dag.certs[d],
        map r | r in dag.slots && r >= floor :: dag.slots[r],
        dag.highest)
  }

  ghost function RoundsBelow(slots: map<Round, map<ValidatorId, Digest>>, floor: Round): set<Round> {
    set r | r in slots && r < floor
  }

  ghost function Named(slots: map<Round, map<ValidatorId, Digest>>, rounds: set<Round>): set<Digest> {
    set r, a | r in rounds && r in slots && a in slots[r] :: slots[r][a]
  }

  ghost function DigestsBelow(slots: map<Round, map<ValidatorId, Digest>>, floor: Round): set<Digest> {
    Named(slots, RoundsBelow(slots, floor))
  }

  /** The store `before` once the rounds `done` are dropped and what they named is reported. */
  ghost predicate Swept(before: Dag, done: set<Round>, certs: Certs, slots: map<Round, map<ValidatorId, Digest>>,
                        removed: seq<Digest>) {
    && slots == before.slots - done && certs == before.certs - Named(before.slots, done)
    && Distinct(removed) && forall d :: d in removed <==> d in Named(before.slots, done)
  }

  lemma NamedStep(dag: Dag, done: set<Round>, r: Round)
    requires Indexed(dag) && r in dag.slots && r !in done
    ensures Named(dag.slots, done + {r}) == Named(dag.slots, done) + dag.slots[r].Values
    ensures Named(dag.slots, done) !! dag.slots[r].Values
    ensures dag.slots[r].Values <= dag.certs.Keys
  {
  }

  /** Dropping what the slots below `floor` name drops exactly the low rounds, absent equivocation. */
  lemma SlotsNameTheLowRounds(dag: Dag, floor: Round)
    requires Coherent(dag)
    ensures dag.certs - DigestsBelow(dag.slots, floor) == Pruned(dag, floor).certs
    ensures Coherent(Pruned(dag, floor))
    ensures Topped(dag) ==> Topped(Pruned(dag, floor))
  {
    forall d | d in dag.certs
      ensures d in DigestsBelow(dag.slots, floor) <==> dag.certs[d].round < floor
    {
      var c := dag.certs[d];
      ByAuthorIsContents(dag, c.round, c.author, d);
      assert c.round in dag.slots && c.author in dag.slots[c.round] && dag.slots[c.round][c.author] == d;
    }
    var p := Pruned(dag, floor);
    forall d | d in p.certs
      ensures ByAuthor(p, p.certs[d].round, p.certs[d].author) == Some(d)
    {
      ByAuthorIsContents(dag, dag.certs[d].round, dag.certs[d].author, d);
    }
  }

  /** The tracked top round is that of some held certificate. */
  ghost predicate Peaked(dag: Dag) {
    dag.certs != map[] ==> exists d :: d in dag.certs && dag.certs[d].round == dag.highest
  }

  /** Stores built by insertion are topped and peaked throughout. */
  lemma InsertKeepsPeak(dag: Dag, d: Digest, cert: Certificate)
    requires Topped(dag) && Peaked(dag) && (d in dag.certs ==> dag.certs[d] == cert)
    ensures Topped(Inserted(dag, d, cert)) && Peaked(Inserted(dag, d, cert))
    ensures Topped(EMPTY) && Peaked(EMPTY)
  {
    var next := Inserted(dag, d, cert);
    CardinalityOne(next.certs, d);
    assert d in next.certs && next.certs[d].round == cert.round;
    if next.highest != cert.round {
      var x :| x in dag.certs && dag.certs[x].round == dag.highest;
      assert x in next.certs && next.certs[x].round == next.highest;
    }
  }

  /**
   * Arrivals at or above the floor commute with pruning, tracked top round included: the pruned
   * store stays the pruning of the full one.
   */
  lemma InsertPruned(dag: Dag, floor: Round, d: Digest, cert: Certificate)
    requires Topped(dag) && Peaked(dag) && cert.round >= floor
    requires d in dag.certs ==> dag.certs[d] == cert
    ensures Inserted(Pruned(dag, floor), d, cert) == Pruned(Inserted(dag, d, cert), floor)
  {
    InsertPrunedTop(dag, floor, d, cert);
    InsertPrunedSlots(dag, floor, d, cert);
    InsertPrunedCerts(dag, floor, d, cert);
    SameDag(Inserted(Pruned(dag, floor), d, cert), Pruned(Inserted(dag, d, cert), floor));
  }

  lemma SameDag(x: Dag, y: Dag)
    requires x.certs == y.certs && x.slots == y.slots && x.highest == y.highest
    ensures x == y
  {
  }

  lemma InsertPrunedCerts(dag: Dag, floor: Round, d: Digest, cert: Certificate)
    requires cert.round >= floor && (d in dag.certs ==> dag.certs[d] == cert)
    ensures Inserted(Pruned(dag, floor), d, cert).certs == Pruned(Inserted(dag, d, cert), floor).certs
  {
  }

  lemma InsertPrunedSlots(dag: Dag, floor: Round, d: Digest, cert: Certificate)
    requires cert.round >= floor
    ensures Inserted(Pruned(dag, floor), d, cert).slots == Pruned(Inserted(dag, d, cert), floor).slots
  {
    assert Row(Pruned(dag, floor), cert.round) == Row(dag, cert.round);
  }

  lemma InsertPrunedTop(dag: Dag, floor: Round, d: Digest, cert: Certificate)
    requires Topped(dag) && Peaked(dag) && cert.round >= floor
    requires d in dag.certs ==> dag.certs[d] == cert
    ensures Inserted(Pruned(dag, floor), d, cert).highest == Pruned(Inserted(dag, d, cert), floor).highest
  {
    var low, full := Inserted(Pruned(dag, floor), d, cert), Inserted(dag, d, cert);
    CardinalityOne(low.certs, d);
    CardinalityOne(full.certs, d);
    if dag.certs != map[] {
      var x :| x in dag.certs && dag.certs[x].round == dag.highest;
      assert x in full.certs && (dag.highest >= floor ==> x in low.certs);
    }
  }

  /** Everything either store holds. */
  function Union(x: Dag, y: Dag): Dag {
    Dag(x.certs + y.certs,
        map r | r in x.slots.Keys + y.slots.Keys :: Row(x, r) + Row(y, r),
        if x.highest > y.highest then x.highest else y.highest)
  }

  lemma UnionRow(x: Dag, y: Dag, r: Round)
    ensures Row(Union(x, y), r) == Row(x, r) + Row(y, r)
  {
  }

  lemma UnionByAuthor(x: Dag, y: Dag, r: Round, a: ValidatorId)
    requires Indexed(x) && Indexed(y)
    ensures ByAuthor(Union(x, y), r, a) == if ByAuthor(y, r, a).Some? then ByAuthor(y, r, a) else ByAuthor(x, r, a)
  {
    UnionRow(x, y, r);
  }

  lemma UnionHolds(whole: Dag, x: Dag, y: Dag)
    requires Within(x.certs, whole.certs) && Within(y.certs, whole.certs)
    ensures Within(Union(x, y).certs, whole.certs) && Grown(x, Union(x, y)) && Grown(y, Union(x, y))
    ensures Closed(x.certs) && Closed(y.certs) ==> Closed(Union(x, y).certs)
  {
  }

  lemma UnionIndexed(whole: Dag, x: Dag, y: Dag)
    requires Indexed(x) && Indexed(y) && Within(x.certs, whole.certs) && Within(y.certs, whole.certs)
    ensures Indexed(Union(x, y))
  {
  }

  /** Two coherent views of one coherent DAG have a coherent union. */
  lemma UnionCoherent(whole: Dag, x: Dag, y: Dag)
    requires Coherent(whole) && Coherent(x) && Coherent(y)
    requires Within(x.certs, whole.certs) && Within(y.certs, whole.certs)
    ensures Coherent(Union(x, y))
  {
    var u := Union(x, y);
    UnionIndexed(whole, x, y);
    forall d | d in u.certs ensures ByAuthor(u, u.certs[d].round, u.certs[d].author) == Some(d) {
      UnionSlot(whole, x, y, d);
    }
  }

  lemma UnionSlot(whole: Dag, x: Dag, y: Dag, d: Digest)
    requires Coherent(whole) && Coherent(x) && Coherent(y)
    requires Within(x.certs, whole.certs) && Within(y.certs, whole.certs) && (d in x.certs || d in y.certs)
    ensures d in whole.certs && ByAuthor(Union(x, y), whole.certs[d].round, whole.certs[d].author) == Some(d)
  {
    var r, a := whole.certs[d].round, whole.certs[d].author;
    UnionByAuthor(x, y, r, a);
    SlotsGrow(x, whole, r, a);
    SlotsGrow(y, whole, r, a);
  }

  /** The in-memory store: one value per field, updated in place. */
  class DagStore {
    var certs: Certs
    var slots: map<Round, map<ValidatorId, Digest>>
    var highest: Round

    function Value(): Dag
      reads this
    {
      Dag(certs, slots, highest)
    }

    constructor ()
      ensures Value() == EMPTY
    {
      certs, slots, highest := map[], map[], 0;
    }

    /** Stores an already-verified certificate; the newest of an equivocating pair takes the slot. */
    method Insert(d: Digest, cert: Certificate)
      modifies this
      ensures Value() == Inserted(old(Value()), d, cert)
    {
      var row := if cert.round in slots then slots[cert.round] else map[];
      slots := slots[cert.round := row[cert.author := d]];
      certs := certs[d := cert];
      if cert.round > highest || |certs| == 1 {
        highest := cert.round;
      }
    }

    /** Drops every slot below `floor` with the certificates it names; reports each dropped digest once. */
    method PruneBelow(floor: Round) returns (removed: seq<Digest>)
      requires Indexed(Value())
      modifies this
      ensures certs == old(certs) - DigestsBelow(old(slots), floor)
      ensures slots == map r | r in old(slots) && r >= floor :: old(slots)[r]
      ensures highest == old(highest)
      ensures forall d :: d in removed <==> d in DigestsBelow(old(slots), floor)
      ensures Distinct(removed)
      ensures Coherent(old(Value())) ==> Value() == Pruned(old(Value()), floor)
    {
      ghost var before := Value();
      removed := [];
      var todo := set r | r in slots && r < floor;
      ghost var done: set<Round> := {};
      while todo != {}
        invariant todo !! done && done + todo == RoundsBelow(before.slots, floor)
        invariant highest == before.highest && Swept(before, done, certs, slots, removed)
      {
        var r :| r in todo;
        removed := DropRound(r, before, done, removed);
        todo, done := todo - {r}, done + {r};
      }
      if Coherent(before) {
        SlotsNameTheLowRounds(before, floor);
      }
    }

    /** One low round: its slots go, and with them the certificates they name. */
    method DropRound(r: Round, ghost before: Dag, ghost done: set<Round>,
                     removed0: seq<Digest>) returns (removed: seq<Digest>)
      requires Indexed(before) && r in before.slots && r !in done && Swept(before, done, certs, slots, removed0)
      modifies this`certs, this`slots
      ensures Swept(before, done + {r}, certs, slots, removed)
    {
      var row := slots[r];
      slots := slots - {r};
      NamedStep(before, done, r);
      var dropped := DropAll(row);
      DistinctAppend(removed0, dropped);
      removed := removed0 + dropped;
    }

    /** The inner loop of pruning: removes what one row names, reporting what was really held. */
    method DropAll(row: map<ValidatorId, Digest>) returns (dropped: seq<Digest>)
      modifies this`certs
      ensures certs == old(certs) - row.Values
      ensures forall d :: d in dropped <==> d in row.Values && d in old(certs)
      ensures Distinct(dropped)
    {
      dropped := [];
      var authors := row.Keys;
      ghost var gone: set<Digest> := {};
      while authors != {}
        invariant authors <= row.Keys
        invariant gone == set a | a in row.Keys - authors :: row[a]
        invariant certs == old(certs) - gone
        invariant forall d :: d in dropped <==> d in gone && d in old(certs)
        invariant Distinct(dropped)
      {
        var a :| a in authors;
        authors := authors - {a};
        var d := row[a];
        if d in certs {
          certs := certs - {d};
          dropped := dropped + [d];
        }
        gone := gone + {d};
      }
      assert gone == row.Values;
    }
  }
}
