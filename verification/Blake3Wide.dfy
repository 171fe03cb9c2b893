/** The wide compressor: it hashes as many chunks and parents per call as the machine has lanes and
    passes rows of chaining values up the tree in fixed buffers. */
module Blake3Wide {
  import opened Bits
  import opened Blake3Tree
  import opened Blake3Levels
  import opened Blake3Chunk

  /** Lanes found at run time, and the compile-time bound the buffers are sized with. */
  datatype Simd = Simd(degree: nat, maxDegree: nat) {
    predicate Valid() { IsPow2(degree) && IsPow2(maxDegree) && degree <= maxDegree }

    function MaxOr2(): nat { if maxDegree > 2 then maxDegree else 2 }

    /** Most chaining values one wide call returns. */
    function Width(): nat { if degree > 2 then degree else 2 }
  }

  /** Flags of block i out of n, as the block loop sets them. */
  function BlockFlags(i: nat, n: nat, flags: nat, start: nat, end: nat): nat {
    var base := if i == 0 then BitOr(flags, start) else flags;
    if i + 1 == n then BitOr(base, end) else base
  }

  /** Chaining words after i of the n blocks of one input. */
  function BlockChain(m: Mode, counter: nat, input: seq<Byte>, i: nat, n: nat, flags: nat, start: nat, end: nat): Words
    requires i <= n && |input| == 64 * n
  {
    if i == 0 then m.key
    else m.fn.inPlace(BlockChain(m, counter, input, i - 1, n, flags, start, end), input[64 * (i - 1)..64 * i], 64,
                      counter, BlockFlags(i - 1, n, flags, start, end))
  }

  function BlocksCv(m: Mode, counter: nat, input: seq<Byte>, n: nat, flags: nat, start: nat, end: nat): Cv
    requires |input| == 64 * n
  {
    StoreCvWords(BlockChain(m, counter, input, n, n, flags, start, end))
  }

  method HashOne(m: Mode, input: seq<Byte>, n: nat, counter: nat, flags: nat, start: nat, end: nat) returns (cv: Cv)
    requires |input| == 64 * n
    ensures cv == BlocksCv(m, counter, input, n, flags, start, end)
  {
    var words, blockFlags, blocks := m.key, BitOr(flags, start), n;
    ghost var i := 0;
    while blocks > 0
      invariant 0 <= blocks && 0 <= i && blocks == n - i
      invariant words == BlockChain(m, counter, input, i, n, flags, start, end)
      invariant blockFlags == if i == 0 then BitOr(flags, start) else flags
    {
      if blocks == 1 { blockFlags := BitOr(blockFlags, end); }
      assert blockFlags == BlockFlags(i, n, flags, start, end);
      var from := 64 * (n - blocks);
      words := m.fn.inPlace(words, input[from..from + BLOCK_LEN], BLOCK_LEN, counter, blockFlags);
      BlockChainStep(m, counter, input, i, n, flags, start, end);
      i := i + 1;
      blocks := blocks - 1;
      blockFlags := flags;
    }
    cv := StoreCvWords(words);
  }

  lemma {:induction false} BlockChainStep(m: Mode, counter: nat, input: seq<Byte>, i: nat, n: nat, flags: nat, start: nat, end: nat)
    requires i < n && |input| == 64 * n
    ensures BlockChain(m, counter, input, i + 1, n, flags, start, end)
         == m.fn.inPlace(BlockChain(m, counter, input, i, n, flags, start, end), input[64 * i..64 * i + 64], 64,
                         counter, BlockFlags(i, n, flags, start, end))
  {}

  /** Hashes every input into its own slot of out. */
  method HashMany(m: Mode, inputs: seq<seq<Byte>>, n: nat, counter: nat, increment: bool,
                  flags: nat, start: nat, end: nat, out: array<Cv>, off: nat)
    requires forall i :: 0 <= i < |inputs| ==> |inputs[i]| == 64 * n
    requires off + |inputs| <= out.Length
    modifies out
    ensures out[..off] == old(out[..off])
    ensures forall i :: 0 <= i < |inputs| ==>
      out[off + i] == BlocksCv(m, if increment then counter + i else counter, inputs[i], n, flags, start, end)
  {
    for k := 0 to |inputs|
      invariant out[..off] == old(out[..off])
      invariant forall i :: 0 <= i < k ==>
        out[off + i] == BlocksCv(m, if increment then counter + i else counter, inputs[i], n, flags, start, end)
    {
      out[off + k] := HashOne(m, inputs[k], n, if increment then counter + k else counter, flags, start, end);
    }
  }

  lemma {:induction false} ChunkBlocks(m: Mode, counter: nat, chunk: seq<Byte>, i: nat)
    requires |chunk| == CHUNK_LEN && i < 16
    ensures BlockChain(m, counter, chunk, i, 16, m.flags, CHUNK_START, CHUNK_END) == ChunkChain(m, counter, chunk, i)
  {
    if i > 0 { ChunkBlocks(m, counter, chunk, i - 1); }
  }

  /** Sixteen blocks hashed in one go are a full chunk. */
  lemma {:induction false} ChunkIsBlocks(m: Mode, counter: nat, chunk: seq<Byte>)
    requires |chunk| == CHUNK_LEN
    ensures BlocksCv(m, counter, chunk, 16, m.flags, CHUNK_START, CHUNK_END) == ChunkCv(m, counter, chunk)
  {
    ChunkBlocks(m, counter, chunk, 15);
    assert chunk[64 * 15..64 * 16] == chunk[64 * 15..];
    assert Pad(chunk[64 * 15..]) == chunk[64 * 15..];
  }

  /** One block hashed with the parent flag is a parent node. */
  lemma {:induction false} ParentIsBlock(m: Mode, left: Cv, right: Cv)
    ensures BlocksCv(m, 0, Join(left, right), 1, BitOr(m.flags, PARENT), 0, 0) == ParentCv(m, left, right)
  {
    var block := Join(left, right);
    assert block[64 * 0..64 * 1] == block;
    assert BlockFlags(0, 1, BitOr(m.flags, PARENT), 0, 0) == BitOr(m.flags, PARENT);
    assert BlockChain(m, 0, block, 1, 1, BitOr(m.flags, PARENT), 0, 0)
        == m.fn.inPlace(m.key, block, 64, 0, BitOr(m.flags, PARENT));
  }

  /** Hashes the whole chunks of an input side by side. */
  method HashChunks(m: Mode, input: seq<Byte>, counter: nat, out: array<Cv>, off: nat) returns (n: nat)
    requires off + |input| / 1024 <= out.Length
    modifies out
    ensures out[..off] == old(out[..off])
    ensures n == |input| / 1024
    ensures forall i :: 0 <= i < n ==> out[off + i] == ChunkCv(m, counter + i, input[1024 * i..1024 * (i + 1)])
  {
    hide ChunkCv, BlocksCv;
    var chunks: seq<seq<Byte>>, pos := [], 0;
    while |input| - pos >= CHUNK_LEN
      invariant pos == 1024 * |chunks| <= |input|
      invariant forall i :: 0 <= i < |chunks| ==> chunks[i] == input[1024 * i..1024 * (i + 1)]
    {
      chunks := chunks + [input[pos..pos + CHUNK_LEN]];
      pos := pos + CHUNK_LEN;
    }
    n := |chunks|;
    HashMany(m, chunks, 16, counter, true, m.flags, CHUNK_START, CHUNK_END, out, off);
    forall i | 0 <= i < n
      ensures out[off + i] == ChunkCv(m, counter + i, input[1024 * i..1024 * (i + 1)])
    {
      ChunkIsBlocks(m, counter + i, chunks[i]);
    }
  }

  /** Hashes one chunk on its own, from a fresh chunk state. */
  method HashChunk(m: Mode, chunk: seq<Byte>, counter: nat) returns (cv: Cv)
    requires |chunk| <= CHUNK_LEN
    ensures cv == ChunkCv(m, counter, chunk)
  {
    var state := new ChunkState(m, counter);
    state.Update(chunk);
    assert state.bytes == chunk;
    cv := ChainingValue(m.fn, state.ToOutput());
  }

  /** Hashes up to one machine width of chunks; the last one may be partial. */
  method CompressChunksParallel(s: Simd, m: Mode, input: seq<Byte>, counter: nat, out: array<Cv>, off: nat)
    returns (n: nat)
    requires 0 < |input| <= s.degree * 1024
    requires off + s.degree <= out.Length
    modifies out
    ensures out[..off] == old(out[..off])
    ensures n == |ChunkCvs(m, counter, input)| <= s.degree
    ensures out[off..off + n] == ChunkCvs(m, counter, input)
  {
    hide ChunkCv, ChunkCvs;
    n := HashChunks(m, input, counter, out, off);
    if |input| > 1024 * n {
      out[off + n] := HashChunk(m, input[1024 * n..], counter + n);
      n := n + 1;
    }
    forall i | 0 <= i < n
      ensures i < |ChunkCvs(m, counter, input)| && out[off + i] == ChunkCvs(m, counter, input)[i]
    {
      ChunkCvsAt(m, counter, input, i);
    }
  }

  /** Chunk i of an input, the last one possibly partial. */
  function ChunkAt(input: seq<Byte>, i: nat): seq<Byte>
    requires 1024 * i < |input|
  {
    if 1024 * (i + 1) <= |input| then input[1024 * i..1024 * (i + 1)] else input[1024 * i..]
  }

  lemma {:induction false} ChunkCvsAt(m: Mode, counter: nat, input: seq<Byte>, i: nat)
    requires 1024 * i < |input|
    ensures i < |ChunkCvs(m, counter, input)|
    ensures ChunkCvs(m, counter, input)[i] == ChunkCv(m, counter + i, ChunkAt(input, i))
    decreases i
  {
    hide ChunkCv;
    if i == 0 {
      assert ChunkAt(input, 0) == if |input| <= 1024 then input else input[..1024];
    } else {
      hide ChunkAt;
      ChunkCvsAt(m, counter + 1, input[1024..], i - 1);
      assert ChunkCvs(m, counter, input)[i] == ChunkCvs(m, counter + 1, input[1024..])[i - 1];
      ChunkAtRest(input, i);
    }
  }

  lemma {:induction false} ChunkAtRest(input: seq<Byte>, i: nat)
    requires 0 < i && 1024 * i < |input|
    ensures ChunkAt(input[1024..], i - 1) == ChunkAt(input, i)
  {}

  /** Hashes one layer of parents out of a row of chaining values. */
  method CompressParentsParallel(s: Simd, m: Mode, row: seq<Cv>, out: array<Cv>, off: nat) returns (n: nat)
    requires 2 <= |row| <= 2 * s.MaxOr2()
    requires off + (|row| + 1) / 2 <= out.Length
    modifies out
    ensures out[..off] == old(out[..off])
    ensures n == |PairUp(m, row)|
    ensures out[off..off + n] == PairUp(m, row)
  {
    hide PairUp, ParentCv;
    n := HashParents(m, row, out, off);
    if |row| > 2 * n {
      out[off + n] := row[2 * n];
      n := n + 1;
    }
    forall i | 0 <= i < n
      ensures out[off + i] == PairUp(m, row)[i]
    {
      PairUpAt(m, row, i);
    }
  }

  method HashParents(m: Mode, row: seq<Cv>, out: array<Cv>, off: nat) returns (n: nat)
    requires off + |row| / 2 <= out.Length
    modifies out
    ensures out[..off] == old(out[..off])
    ensures n == |row| / 2
    ensures forall i :: 0 <= i < n ==> out[off + i] == ParentCv(m, row[2 * i], row[2 * i + 1])
  {
    hide ParentCv, BlocksCv;
    var parents: seq<seq<Byte>> := [];
    n := 0;
    while |row| - 2 * n >= 2
      invariant n == |parents| && 2 * n <= |row|
      invariant forall i :: 0 <= i < n ==> parents[i] == Join(row[2 * i], row[2 * i + 1])
    {
      parents := parents + [Join(row[2 * n], row[2 * n + 1])];
      n := n + 1;
    }
    HashMany(m, parents, 1, 0, false, BitOr(m.flags, PARENT), 0, 0, out, off);
    forall i | 0 <= i < n
      ensures out[off + i] == ParentCv(m, row[2 * i], row[2 * i + 1])
    {
      ParentIsBlock(m, row[2 * i], row[2 * i + 1]);
    }
  }

  lemma {:induction false} PairUpAt(m: Mode, row: seq<Cv>, i: nat)
    requires i < |PairUp(m, row)|
    ensures PairUp(m, row)[i] == if 2 * i + 1 < |row| then ParentCv(m, row[2 * i], row[2 * i + 1]) else row[2 * i]
    decreases i
  {
    hide ParentCv;
    if i > 0 {
      PairUpAt(m, row[2..], i - 1);
      assert PairUp(m, row)[i] == PairUp(m, row[2..])[i - 1];
    }
  }

  /** An input that fills a whole power-of-two subtree at least as wide as the machine. */
  ghost predicate FullSubtree(s: Simd, len: nat) {
    exists p: nat :: IsPow2(p) && 1 < p && s.degree <= p && len == 1024 * p
  }

  /** A row of chaining values for the subtree over input, no wider than the machine and at least two
      values wide unless the input is one chunk. It is never condensed down to the root. */
  method CompressSubtreeWide(s: Simd, m: Mode, input: seq<Byte>, counter: nat, out: array<Cv>, off: nat)
    returns (n: nat)
    requires s.Valid() && input != []
    requires off + s.Width() <= out.Length
    modifies out
    ensures out[..off] == old(out[..off])
    ensures 1 <= n <= s.Width()
    ensures Represents(m, counter, input, out[off..off + n])
    ensures |input| <= CHUNK_LEN ==> n == 1
    ensures FullSubtree(s, |input|) ==> n == s.Width()
    decreases |input|
  {
    hide Represents, ChunkCvs, LeftLen, FullSubtree, PairUp, IsPow2;
    WidthIsPow2(s);
    if |input| <= s.degree * 1024 {
      n := CompressChunksParallel(s, m, input, counter, out, off);
      ChunkCvsRepresent(m, counter, input);
      if FullSubtree(s, |input|) { FullIsWidth(s, |input|); }
      return;
    }
    var leftLen := LeftLen(|input|);
    var left, right := input[..leftLen], input[leftLen..];
    ghost var p := SplitPoint(|input|);
    SplitIsWide(s, |input|, p);

    var cvs := new Cv[2 * s.MaxOr2()](_ => seq(32, _ => 0));
    var degree := if leftLen > CHUNK_LEN && s.degree == 1 then 2 else s.degree;
    var leftN := CompressSubtreeWide(s, m, left, counter, cvs, 0);
    var a := cvs[..leftN];
    var rightN := CompressSubtreeWide(s, m, right, counter + leftLen / CHUNK_LEN, cvs, degree);
    var b := cvs[degree..degree + rightN];
    assert leftN == degree && rightN <= degree;
    assert cvs[..leftN] == a;
    assert cvs[..leftN + rightN] == a + b;
    JoinRows(m, counter, input, p, a, b);
    n := CombineRows(s, m, cvs[..leftN + rightN], leftN, out, off);
  }

  /** One layer of parents over two adjacent rows, except that two single values are kept apart. */
  method CombineRows(s: Simd, m: Mode, row: seq<Cv>, leftN: nat, out: array<Cv>, off: nat) returns (n: nat)
    requires 1 <= leftN <= s.Width() && s.degree <= s.maxDegree && leftN < |row| <= 2 * leftN
    requires off + s.Width() <= out.Length
    modifies out
    ensures out[..off] == old(out[..off])
    ensures n == if leftN == 1 then 2 else (|row| + 1) / 2
    ensures out[off..off + n] == if leftN == 1 then row else PairUp(m, row)
  {
    if leftN == 1 {
      out[off], out[off + 1] := row[0], row[1];
      return 2;
    }
    n := CompressParentsParallel(s, m, row, out, off);
  }

  lemma {:induction false} WidthIsPow2(s: Simd)
    requires s.Valid()
    ensures IsPow2(s.Width()) && IsPow2(1) && s.degree >= 1
  {}

  lemma {:induction false} FullIsWidth(s: Simd, len: nat)
    requires FullSubtree(s, len) && len <= s.degree * 1024
    ensures len == s.Width() * 1024
  {}

  /** The left part of a wide split is as wide as the machine. */
  lemma {:induction false} SplitIsWide(s: Simd, len: nat, p: nat)
    requires s.Valid() && len > s.degree * 1024 && IsPow2(p) && 1024 * p < len <= 2048 * p
    ensures s.degree <= p
    ensures p == 1 ==> s.degree == 1
    ensures p > 1 ==> FullSubtree(s, 1024 * p)
    ensures FullSubtree(s, len) ==> p > 1 || s.degree == 1
    ensures FullSubtree(s, len) && p > 1 ==> FullSubtree(s, len - 1024 * p)
  {
    Pow2Gap(s.degree, p);
    if FullSubtree(s, len) {
      var q: nat :| IsPow2(q) && 1 < q && s.degree <= q && len == 1024 * q;
      if q < 2 * p { Pow2Gap(q, p); }
      assert len - 1024 * p == 1024 * p;
    }
  }

  lemma {:induction false} JoinRows(m: Mode, counter: nat, input: seq<Byte>, p: nat, a: seq<Cv>, b: seq<Cv>)
    requires |input| > CHUNK_LEN && LeftLen(|input|) == 1024 * p
    requires Represents(m, counter, input[..1024 * p], a)
    requires Represents(m, counter + p, input[1024 * p..], b)
    requires IsPow2(|a|) && |b| <= |a|
    ensures Represents(m, counter, input, a + b)
    ensures |a| > 1 ==> Represents(m, counter, input, PairUp(m, a + b))
  {
    ConcatRepresents(m, counter, input, p, a, b);
  }

  /** One more layer of parents over the first n values of a buffer, in place. */
  method CondenseRow(s: Simd, m: Mode, cvs: array<Cv>, half: array<Cv>, n: nat) returns (k: nat)
    requires 2 < n <= cvs.Length <= s.MaxOr2() && (n + 1) / 2 <= half.Length && half != cvs
    modifies cvs, half
    ensures k == (n + 1) / 2 && cvs[..k] == PairUp(m, old(cvs[..n]))
  {
    hide PairUp;
    k := CompressParentsParallel(s, m, cvs[..n], half, 0);
    assert half[..k] == half[0..0 + k];
    forall i | 0 <= i < k { cvs[i] := half[i]; }
  }

  /** The chaining values of the two children of the subtree's top node. */
  method CompressSubtreeToParentNode(s: Simd, m: Mode, input: seq<Byte>, counter: nat) returns (left: Cv, right: Cv)
    requires s.Valid() && |input| > CHUNK_LEN
    ensures left == LeftCv(m, counter, input) && right == RightCv(m, counter, input)
  {
    hide LeftCv, RightCv, PairUp, Collapse;
    var cvs := new Cv[s.MaxOr2()](_ => seq(32, _ => 0));
    var n := CompressSubtreeWide(s, m, input, counter, cvs, 0);
    assert cvs[..n] == cvs[0..0 + n];
    var half := new Cv[s.MaxOr2() / 2](_ => seq(32, _ => 0));
    while n > 2
      invariant 2 <= n <= s.MaxOr2()
      invariant TopPair(m, cvs[..n]) == [LeftCv(m, counter, input), RightCv(m, counter, input)]
    {
      PairUpKeepsTop(m, cvs[..n]);
      n := CondenseRow(s, m, cvs, half, n);
    }
    assert cvs[..2] == [cvs[0], cvs[1]];
    left, right := cvs[0], cvs[1];
  }
}
