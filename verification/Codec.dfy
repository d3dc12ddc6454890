/** The byte strings hashed into vertex and batch digests, and why they are unambiguous. */
module Codec {

  type Byte = b: nat | b < 256 witness 0

  /** A 32-byte address or digest. */
  type Bytes32 = s: seq<Byte> | |s| == 32 witness seq(32, i => 0)

  datatype BatchRef = BatchRef(worker: Byte, digest: Bytes32)

  datatype Vertex = Vertex(round: nat, author: Bytes32, batches: seq<BatchRef>, parents: seq<Bytes32>)

  function Pow256(k: nat): nat {
    if k == 0 then 1 else 256 * Pow256(k - 1)
  }

  const U64_VALUES: nat := Pow256(8)

  /** The `k` low bytes of `n`, least significant first. */
  function LittleEndian(n: nat, k: nat): (s: seq<Byte>)
    ensures |s| == k
  {
    if k == 0 then [] else [n % 256] + LittleEndian(n / 256, k - 1)
  }

  lemma {:induction false} LittleEndianInjective(m: nat, n: nat, k: nat)
    requires m < Pow256(k) && n < Pow256(k) && LittleEndian(m, k) == LittleEndian(n, k)
    ensures m == n
  {
    if k > 0 {
      var a, b := LittleEndian(m, k), LittleEndian(n, k);
      assert a[0] == m % 256 && b[0] == n % 256;
      assert a[1..] == LittleEndian(m / 256, k - 1) && b[1..] == LittleEndian(n / 256, k - 1);
      LittleEndianInjective(m / 256, n / 256, k - 1);
    }
  }

  function BatchBytes(batches: seq<BatchRef>): seq<Byte> {
    if batches == [] then []
    else BatchBytes(batches[..|batches| - 1]) + [batches[|batches| - 1].worker] + batches[|batches| - 1].digest
  }

  function Flat(items: seq<Bytes32>): seq<Byte> {
    if items == [] then [] else Flat(items[..|items| - 1]) + items[|items| - 1]
  }

  /** What a vertex digest is the hash of: every list is preceded by its length. */
  function VertexBytes(v: Vertex): seq<Byte> {
    LittleEndian(v.round, 8) + v.author
    + LittleEndian(|v.batches|, 8) + BatchBytes(v.batches)
    + LittleEndian(|v.parents|, 8) + Flat(v.parents)
  }

  /** Feeds a hasher field by field. */
  method VertexPreimage(v: Vertex) returns (fed: seq<Byte>)
    ensures fed == VertexBytes(v)
  {
    fed := LittleEndian(v.round, 8) + v.author + LittleEndian(|v.batches|, 8);
    var head := fed;
    for i := 0 to |v.batches|
      invariant fed == head + BatchBytes(v.batches[..i])
    {
      assert v.batches[..i + 1][..i] == v.batches[..i];
      fed := fed + [v.batches[i].worker];
      fed := fed + v.batches[i].digest;
    }
    assert v.batches[..|v.batches|] == v.batches;
    fed := fed + LittleEndian(|v.parents|, 8);
    head := fed;
    for i := 0 to |v.parents|
      invariant fed == head + Flat(v.parents[..i])
    {
      assert v.parents[..i + 1][..i] == v.parents[..i];
      fed := fed + v.parents[i];
    }
    assert v.parents[..|v.parents|] == v.parents;
  }

  /** What a batch digest is the hash of: the transaction count, then the transaction hashes. */
  method BatchPreimage(hashes: seq<Bytes32>) returns (fed: seq<Byte>)
    ensures fed == LittleEndian(|hashes|, 8) + Flat(hashes)
  {
    fed := LittleEndian(|hashes|, 8);
    for i := 0 to |hashes|
      invariant fed == LittleEndian(|hashes|, 8) + Flat(hashes[..i])
    {
      assert hashes[..i + 1][..i] == hashes[..i];
      fed := fed + hashes[i];
    }
    assert hashes[..|hashes|] == hashes;
  }

  /** Equal concatenations with equally long heads have equal heads and equal tails. */
  lemma Cancel(a: seq<Byte>, x: seq<Byte>, b: seq<Byte>, y: seq<Byte>)
    requires a + x == b + y && |a| == |b|
    ensures a == b && x == y
  {
    assert a == (a + x)[..|a|] && b == (b + y)[..|b|];
    assert x == (a + x)[|a|..] && y == (b + y)[|b|..];
  }

  lemma {:induction false} FlatLength(items: seq<Bytes32>)
    ensures |Flat(items)| == 32 * |items|
    decreases |items|
  {
    if items != [] {
      FlatLength(items[..|items| - 1]);
    }
  }

  lemma {:induction false} FlatInjective(a: seq<Bytes32>, b: seq<Bytes32>)
    requires |a| == |b| && Flat(a) == Flat(b)
    ensures a == b
    decreases |a|
  {
    if a != [] {
      var n := |a| - 1;
      FlatLength(a[..n]);
      FlatLength(b[..n]);
      Cancel(Flat(a[..n]), a[n], Flat(b[..n]), b[n]);
      FlatInjective(a[..n], b[..n]);
      assert a == a[..n] + [a[n]] && b == b[..n] + [b[n]];
    }
  }

  lemma {:induction false} BatchBytesLength(batches: seq<BatchRef>)
    ensures |BatchBytes(batches)| == 33 * |batches|
    decreases |batches|
  {
    if batches != [] {
      BatchBytesLength(batches[..|batches| - 1]);
    }
  }

  lemma {:induction false} BatchBytesInjective(a: seq<BatchRef>, b: seq<BatchRef>)
    requires |a| == |b| && BatchBytes(a) == BatchBytes(b)
    ensures a == b
    decreases |a|
  {
    if a != [] {
      var n := |a| - 1;
      BatchBytesLength(a[..n]);
      BatchBytesLength(b[..n]);
      Cancel(BatchBytes(a[..n]) + [a[n].worker], a[n].digest, BatchBytes(b[..n]) + [b[n].worker], b[n].digest);
      Cancel(BatchBytes(a[..n]), [a[n].worker], BatchBytes(b[..n]), [b[n].worker]);
      assert [a[n].worker][0] == [b[n].worker][0];
      BatchBytesInjective(a[..n], b[..n]);
      assert a == a[..n] + [a[n]] && b == b[..n] + [b[n]];
    }
  }

  lemma FramedBatches(a: seq<BatchRef>, x: seq<Byte>, b: seq<BatchRef>, y: seq<Byte>)
    requires |a| < U64_VALUES && |b| < U64_VALUES
    requires LittleEndian(|a|, 8) + (BatchBytes(a) + x) == LittleEndian(|b|, 8) + (BatchBytes(b) + y)
    ensures a == b && x == y
  {
    Cancel(LittleEndian(|a|, 8), BatchBytes(a) + x, LittleEndian(|b|, 8), BatchBytes(b) + y);
    LittleEndianInjective(|a|, |b|, 8);
    BatchBytesLength(a);
    BatchBytesLength(b);
    Cancel(BatchBytes(a), x, BatchBytes(b), y);
    BatchBytesInjective(a, b);
  }

  /** A batch's preimage determines its transaction hashes. */
  lemma FramedHashes(a: seq<Bytes32>, b: seq<Bytes32>)
    requires |a| < U64_VALUES && |b| < U64_VALUES
    requires LittleEndian(|a|, 8) + Flat(a) == LittleEndian(|b|, 8) + Flat(b)
    ensures a == b
  {
    Cancel(LittleEndian(|a|, 8), Flat(a), LittleEndian(|b|, 8), Flat(b));
    LittleEndianInjective(|a|, |b|, 8);
    FlatInjective(a, b);
  }

  ghost predicate Fits(v: Vertex) {
    v.round < U64_VALUES && |v.batches| < U64_VALUES && |v.parents| < U64_VALUES
  }

  /** Equal preimages force equal vertices: nothing can move across a field or list boundary. */
  lemma VertexBytesInjective(a: Vertex, b: Vertex)
    requires Fits(a) && Fits(b) && VertexBytes(a) == VertexBytes(b)
    ensures a == b
  {
    var tailA, tailB := LittleEndian(|a.parents|, 8) + Flat(a.parents), LittleEndian(|b.parents|, 8) + Flat(b.parents);
    Regroup(LittleEndian(a.round, 8), a.author, LittleEndian(|a.batches|, 8), BatchBytes(a.batches),
            LittleEndian(|a.parents|, 8), Flat(a.parents));
    Regroup(LittleEndian(b.round, 8), b.author, LittleEndian(|b.batches|, 8), BatchBytes(b.batches),
            LittleEndian(|b.parents|, 8), Flat(b.parents));
    HeadsAgree(LittleEndian(a.round, 8), a.author, LittleEndian(|a.batches|, 8) + (BatchBytes(a.batches) + tailA),
               LittleEndian(b.round, 8), b.author, LittleEndian(|b.batches|, 8) + (BatchBytes(b.batches) + tailB));
    LittleEndianInjective(a.round, b.round, 8);
    FramedBatches(a.batches, tailA, b.batches, tailB);
    FramedHashes(a.parents, b.parents);
  }

  lemma Regroup(a: seq<Byte>, b: seq<Byte>, c: seq<Byte>, d: seq<Byte>, e: seq<Byte>, f: seq<Byte>)
    ensures a + b + c + d + e + f == a + (b + (c + (d + (e + f))))
  {
  }

  lemma HeadsAgree(r: seq<Byte>, a: seq<Byte>, x: seq<Byte>, r1: seq<Byte>, a1: seq<Byte>, y: seq<Byte>)
    requires |r| == |r1| && |a| == |a1| && r + (a + x) == r1 + (a1 + y)
    ensures r == r1 && a == a1 && x == y
  {
    Cancel(r, a + x, r1, a1 + y);
    Cancel(a, x, a1, y);
  }

  // ---- Where each field lies --------------------------------------------------------------------------

  /** The number a little-endian byte string stands for. */
  function Value(s: seq<Byte>): nat {
    if s == [] then 0 else s[0] + 256 * Value(s[1..])
  }

  lemma {:induction false} LittleEndianValue(n: nat, k: nat)
    requires n < Pow256(k)
    ensures Value(LittleEndian(n, k)) == n
  {
    if k > 0 {
      LittleEndianValue(n / 256, k - 1);
      assert LittleEndian(n, k)[1..] == LittleEndian(n / 256, k - 1);
    }
  }

  /** `part` lies at offset `at` of `whole`. */
  ghost predicate LiesAt(whole: seq<Byte>, at: nat, part: seq<Byte>) {
    at + |part| <= |whole| && whole[at..at + |part|] == part
  }

  lemma LiesAfter(a: seq<Byte>, b: seq<Byte>, c: seq<Byte>)
    ensures LiesAt(a + b + c, |a|, b)
  {
  }

  lemma LiesWithin(whole: seq<Byte>, at: nat, part: seq<Byte>, from: nat, item: seq<Byte>)
    requires LiesAt(whole, at, part) && LiesAt(part, from, item)
    ensures LiesAt(whole, at + from, item)
  {
    var x := whole[at + from..at + from + |item|];
    forall i | 0 <= i < |item| ensures x[i] == item[i] {
      assert whole[at..at + |part|][from + i] == whole[at + from + i];
      assert part[from..from + |item|][i] == part[from + i];
    }
  }

  lemma {:induction false} FlatAt(items: seq<Bytes32>, j: nat)
    requires j < |items|
    ensures LiesAt(Flat(items), 32 * j, items[j])
    decreases |items|
  {
    var n := |items| - 1;
    FlatLength(items[..n]);
    LiesAfter([], Flat(items[..n]), items[n]);
    LiesAfter(Flat(items[..n]), items[n], []);
    if j < n {
      FlatAt(items[..n], j);
      LiesWithin(Flat(items), 0, Flat(items[..n]), 32 * j, items[j]);
    } else {
      assert Flat(items) == Flat(items[..n]) + items[n] + [];
    }
  }

  function Labelled(b: BatchRef): seq<Byte> {
    [b.worker] + b.digest
  }

  lemma {:induction false} BatchLies(batches: seq<BatchRef>, i: nat)
    requires i < |batches|
    ensures LiesAt(BatchBytes(batches), 33 * i, Labelled(batches[i]))
    decreases |batches|
  {
    var n := |batches| - 1;
    var head, last := BatchBytes(batches[..n]), Labelled(batches[n]);
    BatchBytesLength(batches[..n]);
    assert BatchBytes(batches) == [] + head + last == head + last + [];
    LiesAfter([], head, last);
    LiesAfter(head, last, []);
    if i < n {
      BatchLies(batches[..n], i);
      LiesWithin(BatchBytes(batches), 0, head, 33 * i, Labelled(batches[i]));
    }
  }

  /**
   * The layout of a vertex preimage: round in bytes 0 to 7, author in 8 to 39, the number of batches in 40
   * to 47 and then the batches, the number of parents in 8 more bytes and then the parents.
   */
  lemma VertexLayout(v: Vertex)
    ensures var s, p := VertexBytes(v), 48 + 33 * |v.batches|;
            && |s| == p + 8 + 32 * |v.parents|
            && LiesAt(s, 0, LittleEndian(v.round, 8)) && LiesAt(s, 8, v.author)
            && LiesAt(s, 40, LittleEndian(|v.batches|, 8)) && LiesAt(s, 48, BatchBytes(v.batches))
            && LiesAt(s, p, LittleEndian(|v.parents|, 8)) && LiesAt(s, p + 8, Flat(v.parents))
  {
    FlatLength(v.parents);
    BatchBytesLength(v.batches);
    Parts(LittleEndian(v.round, 8), v.author, LittleEndian(|v.batches|, 8), BatchBytes(v.batches),
          LittleEndian(|v.parents|, 8), Flat(v.parents));
  }

  /** Batch `i` takes the 33 bytes from offset 48 + 33 i on: its worker, then its digest. */
  lemma VertexBatchAt(v: Vertex, i: nat)
    requires i < |v.batches|
    ensures LiesAt(VertexBytes(v), 48 + 33 * i, [v.batches[i].worker] + v.batches[i].digest)
  {
    VertexLayout(v);
    BatchLies(v.batches, i);
    LiesWithin(VertexBytes(v), 48, BatchBytes(v.batches), 33 * i, Labelled(v.batches[i]));
  }

  /** Parent `j` takes 32 bytes, after the batches and both counts. */
  lemma VertexParentAt(v: Vertex, j: nat)
    requires j < |v.parents|
    ensures LiesAt(VertexBytes(v), 56 + 33 * |v.batches| + 32 * j, v.parents[j])
  {
    VertexLayout(v);
    FlatAt(v.parents, j);
    LiesWithin(VertexBytes(v), 56 + 33 * |v.batches|, Flat(v.parents), 32 * j, v.parents[j]);
  }

  lemma Parts(a: seq<Byte>, b: seq<Byte>, c: seq<Byte>, d: seq<Byte>, e: seq<Byte>, f: seq<Byte>)
    ensures var s := a + b + c + d + e + f;
            && LiesAt(s, 0, a) && LiesAt(s, |a|, b) && LiesAt(s, |a| + |b|, c) && LiesAt(s, |a| + |b| + |c|, d)
            && LiesAt(s, |a| + |b| + |c| + |d|, e) && LiesAt(s, |a| + |b| + |c| + |d| + |e|, f)
  {
  }
}
