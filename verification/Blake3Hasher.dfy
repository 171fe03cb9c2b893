/** The streaming hasher. Whatever way a message is cut into updates, the bytes it yields are those of
    the hash tree over the whole message. */
module Blake3Hasher {
  import opened Bits
  import opened Blake3Tree
  import opened Blake3Levels
  import opened Blake3Chunk
  import opened Blake3Wide
  import opened Blake3Stack
  import opened Blake3Plain

  const MAX_DEPTH: nat := 54
  /** Messages are shorter than this; it is what MAX_DEPTH is chosen for. */
  const MAX_MESSAGE: nat := 0x1_0000_0000_0000_0000

  class Hasher {
    const simd: Simd
    const fn: Compressor
    var key: Words
    const chunk: ChunkState
    var cvStackLen: nat
    const cvStack: array<Cv>

    ghost const mode: Mode
    ghost var message: seq<Byte>  // everything absorbed so far
    ghost var top: nat            // chunks under the last stack entry

    /** The state between two updates. */
    ghost predicate Valid()
      reads this, chunk, chunk.buf, cvStack
    {
      && Parts()
      && chunk.counter * 1024 + |chunk.bytes| == |message| < MAX_MESSAGE
      && StackHolds(chunk.counter, top, message[..1024 * chunk.counter])
      && chunk.bytes == message[1024 * chunk.counter..]
      && (Unmerged(chunk.counter, top) <==> chunk.counter > 0 && chunk.bytes == [])
    }

    ghost predicate Parts()
      reads this, chunk, chunk.buf
    {
      && simd.Valid() && fn == mode.fn && key == mode.key
      && chunk.mode == mode && chunk.Valid()
      && cvStack.Length == MAX_DEPTH + 1
    }

    /** The stack stands for the first n chunks, of which the last entry covers the last top. */
    ghost predicate StackHolds(n: nat, top: nat, bytes: seq<Byte>)
      reads this`cvStackLen, cvStack
    {
      cvStackLen <= cvStack.Length && Lazy(mode, n, top, bytes, cvStack[..cvStackLen])
    }

    constructor (simd: Simd, m: Mode)
      requires simd.Valid()
      ensures Valid() && mode == m && message == []
      ensures fresh(chunk) && fresh(chunk.buf) && fresh(cvStack)
    {
      this.simd, fn, key, mode := simd, m.fn, m.key, m;
      chunk := new ChunkState(m, 0);
      cvStack := new Cv[MAX_DEPTH + 1](_ => seq(32, _ => 0));
      cvStackLen, message, top := 0, [], 1;
    }

    /** Back to the empty message, keeping key and mode. */
    method Reset()
      requires Valid()
      modifies this, chunk, chunk.buf
      ensures Valid() && message == []
    {
      chunk.Reset(key, 0);
      cvStackLen, message := 0, [];
    }

    /** Merges the stack down to one entry per one bit of total. */
    method MergeStack(total: nat, ghost t: nat, ghost bytes: seq<Byte>) returns (ghost t': nat)
      requires cvStack.Length == MAX_DEPTH + 1 && fn == mode.fn && key == mode.key && chunk.flags == mode.flags
      requires StackHolds(total, t, bytes)
      modifies this`cvStackLen, cvStack
      ensures StackHolds(total, t', bytes) && !Unmerged(total, t')
      ensures cvStack[..cvStackLen] == Stack(mode, 0, total, bytes)
      ensures cvStackLen == Popcnt(total)
    {
      hide Lazy, Stack, Popcnt;
      t' := t;
      var merged := Popcnt(total);
      LazyLength(mode, total, t', bytes, cvStack[..cvStackLen]);
      while cvStackLen > merged
        invariant StackHolds(total, t', bytes)
        invariant cvStackLen >= merged
        decreases cvStackLen
      {
        t' := MergeTop(total, t', bytes);
        LazyLength(mode, total, t', bytes, cvStack[..cvStackLen]);
      }
      LengthTellsTop(mode, total, t', bytes, cvStack[..cvStackLen]);
      LazyIsMerged(mode, total, t', bytes, cvStack[..cvStackLen]);
    }

    /** Replaces the top two entries by their parent. */
    method MergeTop(ghost total: nat, ghost t: nat, ghost bytes: seq<Byte>) returns (ghost t': nat)
      requires cvStack.Length == MAX_DEPTH + 1 && fn == mode.fn && key == mode.key && chunk.flags == mode.flags
      requires StackHolds(total, t, bytes) && cvStackLen > Popcnt(total)
      modifies this`cvStackLen, cvStack
      ensures StackHolds(total, t', bytes) && cvStackLen == old(cvStackLen) - 1
    {
      hide Lazy, Stack, Popcnt;
      LazyLength(mode, total, t, bytes, cvStack[..cvStackLen]);
      LengthTellsTop(mode, total, t, bytes, cvStack[..cvStackLen]);
      ghost var before := cvStack[..cvStackLen];
      MergeStep(mode, total, t, bytes, before);
      t' := 2 * t;
      var at := cvStackLen - 2;
      var output := Output(key, Join(cvStack[at], cvStack[at + 1]), BLOCK_LEN, 0, BitOr(chunk.flags, PARENT));
      cvStack[at] := ChainingValue(fn, output);
      cvStackLen := cvStackLen - 1;
      assert cvStack[..cvStackLen] == before[..at] + [ParentCv(mode, before[at], before[at + 1])];
    }

    /** Merges what the chunks before total leave unpaired, then puts a new subtree of s chunks on top. */
    method PushCv(newCv: Cv, total: nat, ghost bytes: seq<Byte>, ghost s: nat, ghost sub: seq<Byte>)
      requires cvStack.Length == MAX_DEPTH + 1 && fn == mode.fn && key == mode.key && chunk.flags == mode.flags
      requires StackHolds(total, top, bytes) && 1024 * total < MAX_MESSAGE
      requires IsPow2(s) && IsPow2(2 * s) && Multiple(total, s) && |sub| == 1024 * s
      requires newCv == SubtreeCv(mode, total, sub)
      modifies this`cvStackLen, this`top, cvStack
      ensures StackHolds(total + s, s, bytes + sub) && top == s
      ensures cvStackLen == Popcnt(total) + 1
    {
      hide Stack, Popcnt, SubtreeCv, IsPow2, Multiple;
      ghost var _ := MergeStack(total, top, bytes);
      DepthBound(total);
      cvStack[cvStackLen] := newCv;
      cvStackLen := cvStackLen + 1;
      top := s;
      PushIsLazy(mode, total, bytes, s, sub, cvStack[..cvStackLen]);
    }

    /** Everything absorbed is on the stack: bytes are whole chunks and the chunk state is clear. */
    ghost predicate OnStack(bytes: seq<Byte>)
      reads this, chunk, chunk.buf, cvStack
    {
      Parts() && chunk.bytes == [] && StackHolds(chunk.counter, top, bytes)
    }

    function CurrentMode(): (m: Mode)
      requires Parts()
      reads this, chunk, chunk.buf
      ensures m == mode
    {
      Mode(fn, key, chunk.flags)
    }

    /** Puts the two halves of a subtree of 2 * s chunks on the stack, leaving them unmerged. */
    method PushPair(left: Cv, right: Cv, n: nat, half: nat, ghost bytes: seq<Byte>, ghost pair: seq<Byte>)
      requires cvStack.Length == MAX_DEPTH + 1 && fn == mode.fn && key == mode.key && chunk.flags == mode.flags
      requires StackHolds(n, top, bytes) && 1024 * n + 2048 * half < MAX_MESSAGE
      requires IsPow2(half) && IsPow2(2 * half) && IsPow2(4 * half) && Multiple(n, 2 * half) && |pair| == 2048 * half
      requires left == LeftCv(mode, n, pair) && right == RightCv(mode, n, pair)
      modifies this`cvStackLen, this`top, cvStack
      ensures StackHolds(n + 2 * half, top, bytes + pair) && top == half
      ensures Unmerged(n + 2 * half, top)
      ensures cvStackLen >= 2
    {
      hide Lazy, LeftCv, RightCv, SubtreeCv, IsPow2, Multiple, Popcnt;
      Pow2Positive(half);
      FullParent(mode, n, half, pair);
      var l, r := pair[..1024 * half], pair[1024 * half..];
      HalvesFit(n, half);
      PushCv(left, n, bytes, half, l);
      PushCv(right, n + half, bytes + l, half, r);
      assert bytes + l + r == bytes + pair by { assert l + r == pair; }
      assert Popcnt(n + half) >= 1 by { PopcntPositive(n + half); }
    }

    /** Compresses one subtree of the input, the largest that is a power of two and fits the count so far. */
    method AbsorbSubtree(input: seq<Byte>, ghost bytes: seq<Byte>) returns (len: nat)
      requires OnStack(bytes) && |input| > CHUNK_LEN && |bytes| + |input| < MAX_MESSAGE
      modifies this`cvStackLen, this`top, chunk`counter, cvStack
      ensures CHUNK_LEN <= len <= |input|
      ensures OnStack(bytes + input[..len])
      ensures len > CHUNK_LEN ==> Unmerged(chunk.counter, top)
    {
      hide Lazy, SubtreeCv, LeftCv, RightCv, IsPow2, Multiple, Popcnt;
      var n := chunk.counter;
      var s;
      len, s := SubtreeLen(|input|, n);
      Pow2Positive(s);
      assert |bytes| == 1024 * n by { LazySize(mode, n, top, bytes, cvStack[..cvStackLen]); }
      if len <= CHUNK_LEN {
        var cv := HashChunk(CurrentMode(), input[..len], n);
        OneChunk(mode, n, input[..len]);
        PushCv(cv, n, bytes, 1, input[..len]);
      } else {
        var left, right := CompressSubtreeToParentNode(simd, CurrentMode(), input[..len], n);
        HalfOf(s);
        PushPair(left, right, n, len / CHUNK_LEN / 2, bytes, input[..len]);
      }
      chunk.counter := n + len / CHUNK_LEN;
    }

    /** Finishes a partly filled chunk; it goes on the stack only once more input follows it. */
    method TopUpChunk(input: seq<Byte>) returns (take: nat)
      requires Valid() && input != [] && chunk.bytes != [] && |message| + |input| < MAX_MESSAGE
      modifies this`cvStackLen, this`top, this`message, chunk, chunk.buf, cvStack
      ensures take <= |input|
      ensures take == |input| ==> Valid() && message == old(message) + input
      ensures take < |input| ==> OnStack(old(message) + input[..take])
    {
      hide Lazy, SubtreeCv, IsPow2, Multiple, Popcnt, ChunkChain;
      var n := chunk.counter;
      ghost var before := message[..1024 * n];
      take := CHUNK_LEN - chunk.Len();
      if take > |input| { take := |input|; }
      chunk.Update(input[..take]);
      if take < |input| {
        OneChunk(mode, n, chunk.bytes);
        PushCv(ChainingValue(fn, chunk.ToOutput()), n, before, 1, chunk.bytes);
        assert before + chunk.bytes == old(message) + input[..take];
        chunk.Reset(key, n + 1);
      } else {
        assert input[..take] == input;
        message := message + input;
        assert message[..1024 * n] == before;
      }
    }

    /** Puts what is left, at most one chunk, into the chunk state and merges the stack. */
    method AbsorbTail(input: seq<Byte>, ghost bytes: seq<Byte>)
      requires OnStack(bytes) && |input| <= CHUNK_LEN && |bytes| + |input| < MAX_MESSAGE
      requires input == [] ==> Unmerged(chunk.counter, top)
      modifies this`cvStackLen, this`top, this`message, chunk, chunk.buf, cvStack
      ensures Valid() && message == bytes + input
    {
      hide Lazy, SubtreeCv, Multiple, ChunkChain, Stack;
      LazySize(mode, chunk.counter, top, bytes, cvStack[..cvStackLen]);
      LengthTellsTop(mode, chunk.counter, top, bytes, cvStack[..cvStackLen]);
      message := bytes + input;
      assert message[..|bytes|] == bytes && message[|bytes|..] == input;
      if |input| > 0 {
        chunk.Update(input);
        top := MergeStack(chunk.counter, top, bytes);
      }
    }

    /** Absorbs whole subtrees while more than one chunk of input is left. */
    method AbsorbSubtrees(input: seq<Byte>, ghost bytes: seq<Byte>) returns (pos: nat)
      requires OnStack(bytes) && input != [] && |bytes| + |input| < MAX_MESSAGE
      modifies this`cvStackLen, this`top, chunk`counter, cvStack
      ensures pos <= |input| <= pos + CHUNK_LEN
      ensures OnStack(bytes + input[..pos])
      ensures pos == |input| ==> Unmerged(chunk.counter, top)
    {
      hide Lazy, Unmerged;
      pos := 0;
      assert bytes + input[..0] == bytes;
      while |input| - pos > CHUNK_LEN
        invariant pos <= |input|
        invariant OnStack(bytes + input[..pos])
        invariant pos == |input| ==> Unmerged(chunk.counter, top)
      {
        var len := AbsorbSubtree(input[pos..], bytes + input[..pos]);
        Cut(bytes, input, pos, len);
        pos := pos + len;
      }
    }

    /** Absorbing input appends it to the message. */
    method Update(input: seq<Byte>)
      requires Valid() && |message| + |input| < MAX_MESSAGE
      modifies this, chunk, chunk.buf, cvStack
      ensures Valid() && message == old(message) + input
    {
      hide Lazy, Unmerged;
      if input == [] {
        assert message == message + input;
        return;
      }
      ghost var bytes := message;
      var pos := 0;
      if chunk.Len() > 0 {
        pos := TopUpChunk(input);
        if pos == |input| { return; }
        bytes := bytes + input[..pos];
      } else {
        assert message[..1024 * chunk.counter] == message;
      }
      var more := AbsorbSubtrees(input[pos..], bytes);
      AbsorbTail(input[pos..][more..], bytes + input[pos..][..more]);
      Reassemble(old(message), input, pos, more);
    }

    /** Bytes seek..seek+outLen of the extended output of the message. */
    method FinalizeSeek(seek: nat, outLen: nat) returns (out: seq<Byte>)
      requires Valid()
      ensures out == Hash(mode, message, seek, outLen)
      ensures IsMode(mode.flags) ==> out == PlainHash(mode, message, seek, outLen)
    {
      hide Lazy, SubtreeOutput, PlainNode, BitOr, ChainingValue;
      if IsMode(mode.flags) { HashIsPlain(mode, message, seek, outLen); }
      if outLen == 0 {
        return [];
      }
      var output := RootOutput();
      out := OutputRootBytes(fn, output, seek, outLen);
    }

    /** The output of the root node, rolled up from the stack and the chunk state. */
    method RootOutput() returns (output: Output)
      requires Valid()
      ensures output == SubtreeOutput(mode, 0, message)
    {
      hide Lazy, SubtreeOutput, Stack, SubtreeCv, IsPow2, Multiple, RollUp, ChunkOutput;
      var n := chunk.counter;
      LengthTellsTop(mode, n, top, message[..1024 * n], cvStack[..cvStackLen]);
      if cvStackLen == 0 {
        EmptyMeansNone(mode, n, top, message[..1024 * n], cvStack[..cvStackLen]);
        assert message[1024 * n..] == message;
        ChunkIsSubtree(mode, 0, message);
        return chunk.ToOutput();
      }
      var cvsRemaining: nat;
      if chunk.Len() > 0 {
        cvsRemaining := cvStackLen;
        output := chunk.ToOutput();
        TailRollUp(mode, n, top, message, cvStack[..cvStackLen]);
      } else {
        PairRollUp(mode, n, top, message, cvStack[..cvStackLen]);
        cvsRemaining := cvStackLen - 2;
        output := Output(key, Join(cvStack[cvsRemaining], cvStack[cvsRemaining + 1]), BLOCK_LEN, 0,
                         BitOr(chunk.flags, PARENT));
        assert cvStack[..cvStackLen][..cvsRemaining] == cvStack[..cvsRemaining];
      }
      while cvsRemaining > 0
        invariant cvsRemaining <= cvStackLen
        invariant RollUp(mode, cvStack[..cvsRemaining], output) == SubtreeOutput(mode, 0, message)
      {
        RollUpStep(mode, cvStack[..cvsRemaining], output);
        cvsRemaining := cvsRemaining - 1;
        assert cvStack[..cvsRemaining + 1][..cvsRemaining] == cvStack[..cvsRemaining];
        output := Output(key, Join(cvStack[cvsRemaining], ChainingValue(fn, output)), BLOCK_LEN, 0,
                         BitOr(chunk.flags, PARENT));
      }
      RollUpEmpty(mode, output);
      assert cvStack[..0] == [];
    }
  }

  ghost function Flatten(pieces: seq<seq<Byte>>): seq<Byte> {
    if pieces == [] then [] else pieces[0] + Flatten(pieces[1..])
  }

  lemma {:induction false} FlattenSnoc(pieces: seq<seq<Byte>>, piece: seq<Byte>)
    ensures Flatten(pieces + [piece]) == Flatten(pieces) + piece
  {
    if pieces != [] {
      FlattenSnoc(pieces[1..], piece);
      assert (pieces + [piece])[1..] == pieces[1..] + [piece];
    } else {
      assert Flatten([piece]) == piece + Flatten([]);
    }
  }

  lemma {:induction false} FlattenPrefix(pieces: seq<seq<Byte>>, k: nat)
    requires k <= |pieces|
    ensures |Flatten(pieces[..k])| <= |Flatten(pieces)|
    ensures k < |pieces| ==> Flatten(pieces[..k + 1]) == Flatten(pieces[..k]) + pieces[k]
    decreases |pieces| - k
  {
    if k < |pieces| {
      assert pieces[..k + 1] == pieces[..k] + [pieces[k]];
      FlattenSnoc(pieces[..k], pieces[k]);
      FlattenPrefix(pieces, k + 1);
    } else {
      assert pieces[..k] == pieces;
    }
  }

  /** Any cutting of a message into updates, on any machine width, yields the bytes of the hash tree
      over the whole message: neither the cuts nor the width can be told from the result. */
  method HashPieces(simd: Simd, m: Mode, pieces: seq<seq<Byte>>, seek: nat, outLen: nat) returns (out: seq<Byte>)
    requires simd.Valid() && |Flatten(pieces)| < MAX_MESSAGE
    ensures out == Hash(m, Flatten(pieces), seek, outLen)
    ensures IsMode(m.flags) ==> out == PlainHash(m, Flatten(pieces), seek, outLen)
  {
    hide PlainNode;
    var hasher := new Hasher(simd, m);
    for k := 0 to |pieces|
      invariant fresh(hasher) && fresh(hasher.chunk) && fresh(hasher.chunk.buf) && fresh(hasher.cvStack)
      invariant hasher.Valid() && hasher.mode == m
      invariant hasher.message == Flatten(pieces[..k])
    {
      FlattenPrefix(pieces, k);
      FlattenPrefix(pieces, k + 1);
      hasher.Update(pieces[k]);
    }
    assert pieces[..|pieces|] == pieces;
    out := hasher.FinalizeSeek(seek, outLen);
  }

  /** A keyed hash starts from the key's own bytes, read as eight little-endian words. */
  method KeyedMode(fn: Compressor, key: Cv) returns (m: Mode)
    ensures m.fn == fn && m.flags == 16 && PlainBytes(m.key) == key
  {
    hide PlainBytes;
    StoreLoad(key);
    BytesArePlain(LoadKeyWords(key));
    m := Mode(fn, LoadKeyWords(key), KEYED_HASH);
  }

  /** A key for derived material: the hash of the context string under its own mode flag, read back as
      eight little-endian words. */
  method DeriveKeyMode(simd: Simd, fn: Compressor, iv: Words, context: seq<Byte>) returns (m: Mode)
    requires simd.Valid() && |context| < MAX_MESSAGE
    ensures m.fn == fn && m.flags == 64
    ensures PlainBytes(m.key) == PlainHash(Mode(fn, iv, 32), context, 0, 32)
  {
    hide PlainNode, PlainBytes;
    var hasher := new Hasher(simd, Mode(fn, iv, DERIVE_KEY_CONTEXT));
    hasher.Update(context);
    assert hasher.message == context;
    var key := hasher.FinalizeSeek(0, OUT_LEN);
    StoreLoad(key);
    BytesArePlain(LoadKeyWords(key));
    m := Mode(fn, LoadKeyWords(key), DERIVE_KEY_MATERIAL);
  }

  /** Extended output, one 64-byte block of the root node at a time. */
  method OutputRootBytes(fn: Compressor, o: Output, seek: nat, outLen: nat) returns (out: seq<Byte>)
    ensures out == RootBytes(fn, o, seek, outLen)
  {
    out := [];
    var blockCounter: nat, offset: nat := seek / 64, seek % 64;
    while |out| < outLen
      invariant |out| <= outLen
      invariant out == RootBytes(fn, o, seek, |out|)
      invariant offset < 64 && (|out| < outLen ==> 64 * blockCounter + offset == seek + |out|)
    {
      var wide := fn.xof(o.cv, o.block, o.blockLen, blockCounter, BitOr(o.flags, ROOT));
      var take := if outLen - |out| > 64 - offset then 64 - offset else outLen - |out|;
      RootBytesBlock(fn, o, blockCounter, offset, take);
      RootBytesConcat(fn, o, seek, |out|, take);
      out := out + wide[offset..offset + take];
      blockCounter, offset := blockCounter + 1, 0;
    }
  }

  lemma {:induction false} RootBytesBlock(fn: Compressor, o: Output, block: nat, offset: nat, n: nat)
    requires offset + n <= 64
    ensures RootBytes(fn, o, 64 * block + offset, n)
         == fn.xof(o.cv, o.block, o.blockLen, block, BitOr(o.flags, ROOT))[offset..offset + n]
  {
    var left := RootBytes(fn, o, 64 * block + offset, n);
    var right := fn.xof(o.cv, o.block, o.blockLen, block, BitOr(o.flags, ROOT))[offset..offset + n];
    forall i: nat | i < n
      ensures left[i] == right[i]
    {
      var at := 64 * block + offset + i;
      assert at / 64 == block && at % 64 == offset + i;
      assert left[i] == RootByte(fn, o, at);
    }
  }

  lemma {:induction false} RootBytesConcat(fn: Compressor, o: Output, from: nat, a: nat, b: nat)
    ensures RootBytes(fn, o, from, a) + RootBytes(fn, o, from + a, b) == RootBytes(fn, o, from, a + b)
  {}

  lemma {:induction false} ChunkIsSubtree(m: Mode, counter: nat, chunk: seq<Byte>)
    requires |chunk| <= CHUNK_LEN
    ensures SubtreeOutput(m, counter, chunk) == ChunkOutput(m, counter, chunk)
  {}

  lemma {:induction false} EmptyMeansNone(m: Mode, n: nat, top: nat, bytes: seq<Byte>, stack: seq<Cv>)
    requires Lazy(m, n, top, bytes, stack) && stack == []
    ensures n == 0
  {}

  lemma {:induction false} RollUpStep(m: Mode, stack: seq<Cv>, o: Output)
    requires stack != []
    ensures RollUp(m, stack, o)
         == RollUp(m, stack[..|stack| - 1], ParentOutput(m, stack[|stack| - 1], ChainingValue(m.fn, o)))
  {
    hide ParentOutput, ChainingValue;
  }

  /** With bytes in the chunk state, the merged stack rolls up over that chunk. */
  lemma {:induction false} TailRollUp(m: Mode, n: nat, top: nat, message: seq<Byte>, stack: seq<Cv>)
    requires 1024 * n < |message| <= 1024 * n + 1024
    requires Lazy(m, n, top, message[..1024 * n], stack) && !Unmerged(n, top)
    ensures RollUp(m, stack, ChunkOutput(m, n, message[1024 * n..])) == SubtreeOutput(m, 0, message)
  {
    hide SubtreeOutput, ChunkOutput, Stack, Lazy, RollUp, Unmerged;
    var whole, tail := message[..1024 * n], message[1024 * n..];
    LazyIsMerged(m, n, top, whole, stack);
    ChunkIsSubtree(m, n, tail);
    MultipleByOne(n);
    RollUpIsTree(m, 0, n, whole, 1, tail);
    assert whole + tail == message;
  }

  /** With a clear chunk state, the top two entries are halves of one subtree, and the rest rolls up
      over their parent. */
  lemma {:induction false} PairRollUp(m: Mode, n: nat, top: nat, message: seq<Byte>, stack: seq<Cv>)
    requires |message| == 1024 * n && Lazy(m, n, top, message[..1024 * n], stack) && Unmerged(n, top)
    ensures |stack| >= 2
    ensures var k := |stack| - 2;
            RollUp(m, stack[..k], ParentOutput(m, stack[k], stack[k + 1])) == SubtreeOutput(m, 0, message)
  {
    hide SubtreeOutput, Stack, RollUp, SubtreeCv, IsPow2, Multiple, ParentOutput;
    assert message[..1024 * n] == message;
    var j := n - 2 * top;
    TopTwo(m, n, top, message, stack);
    RollUpIsTree(m, 0, j, message[..1024 * j], 2 * top, message[1024 * j..]);
    assert message[..1024 * j] + message[1024 * j..] == message;
  }

  lemma {:induction false} Cut(bytes: seq<Byte>, input: seq<Byte>, pos: nat, len: nat)
    requires pos + len <= |input|
    ensures bytes + input[..pos] + input[pos..][..len] == bytes + input[..pos + len]
  {
    assert input[..pos + len] == input[..pos] + input[pos..][..len];
  }

  lemma {:induction false} Reassemble(bytes: seq<Byte>, input: seq<Byte>, pos: nat, more: nat)
    requires pos + more <= |input|
    ensures bytes + input[..pos] + input[pos..][..more] + input[pos..][more..] == bytes + input
    ensures pos == 0 ==> bytes + input[pos..][..more] + input[pos..][more..] == bytes + input
  {
    var rest := input[pos..];
    assert rest[..more] + rest[more..] == rest;
    assert input[..pos] + rest == input;
  }

  lemma {:induction false} LazySize(m: Mode, n: nat, top: nat, bytes: seq<Byte>, stack: seq<Cv>)
    requires Lazy(m, n, top, bytes, stack)
    ensures |bytes| == 1024 * n
  {}

  lemma {:induction false} OneChunk(m: Mode, counter: nat, chunk: seq<Byte>)
    requires |chunk| <= CHUNK_LEN
    ensures SubtreeCv(m, counter, chunk) == ChunkCv(m, counter, chunk)
    ensures IsPow2(1) && IsPow2(2) && Multiple(counter, 1)
  {}

  lemma {:induction false} PopcntPositive(n: nat)
    requires n > 0
    ensures Popcnt(n) >= 1
  {
    PopcntTopBit(n);
  }

  lemma {:induction false} HalvesFit(n: nat, half: nat)
    requires IsPow2(half) && IsPow2(2 * half) && Multiple(n, 2 * half)
    ensures Multiple(n, half) && Multiple(n + half, half) && Multiple(n + 2 * half, 2 * half)
  {
    Pow2Positive(half);
    MultipleDown(n, 2 * half, half);
    MultipleOfSelf(half);
    MultipleOfSelf(2 * half);
    MultipleSum(half, n, half);
    MultipleSum(2 * half, n, 2 * half);
  }

  lemma {:induction false} HalfOf(s: nat)
    requires IsPow2(s) && s > 1
    ensures s == 2 * (s / 2) && IsPow2(s / 2) && IsPow2(2 * (s / 2)) && IsPow2(4 * (s / 2))
  {
    assert 4 * (s / 2) == 2 * s;
    Pow2Twice(s);
  }

  /** Bytes in the next subtree: a power of two of chunks, no more than the input has, dividing the
      count so far. The loop halves until a bit mask says it does. */
  method SubtreeLen(remaining: nat, counter: nat) returns (len: nat, chunks: nat)
    requires remaining > CHUNK_LEN
    ensures IsPow2(chunks) && len == 1024 * chunks <= remaining && Multiple(counter, chunks)
    ensures forall m: nat :: IsPow2(m) && len < m <= remaining ==> !Multiple(1024 * counter, m)
  {
    hide IsPow2, Multiple, BitAnd, RoundDownPow2;
    Pow2At1024();
    len := RoundDownPow2(remaining);
    AtLeast1024(len, remaining);
    NoneAbove(len, remaining);
    var countSoFar := counter * CHUNK_LEN;
    while BitAnd(len - 1, countSoFar) != 0
      invariant IsPow2(len) && 1024 <= len <= remaining
      invariant forall m: nat :: IsPow2(m) && len < m <= remaining ==> !Multiple(countSoFar, m)
      decreases len
    {
      StillAboveChunk(len, counter);
      NextDown(len, countSoFar);
      len := len / 2;
    }
    MaskTestsMultiple(len, countSoFar);
    ghost var s := Unscale(len, 1024);
    MultipleScale(counter, s, 1024, countSoFar, len);
    chunks := len / CHUNK_LEN;
  }

  /** No power of two lies above the one rounded down to. */
  lemma {:induction false} NoneAbove(p: nat, n: nat)
    requires IsPow2(p) && n < 2 * p
    ensures forall m: nat :: IsPow2(m) && p < m <= n ==> false
  {
    forall m: nat | IsPow2(m) && p < m <= n ensures false { Pow2Gap(m, p); }
  }

  /** Of the powers of two above len / 2 only len itself is not above len, and it failed the test. */
  lemma {:induction false} NextDown(len: nat, count: nat)
    requires IsPow2(len) && len > 1 && BitAnd(len - 1, count) != 0
    ensures forall m: nat :: IsPow2(m) && len / 2 < m <= len ==> !Multiple(count, m)
  {
    MaskTestsMultiple(len, count);
    forall m: nat | IsPow2(m) && len / 2 < m <= len ensures !Multiple(count, m) {
      if m < len { Pow2Gap(m, len / 2); }
    }
  }

  lemma {:induction false} AtLeast1024(p: nat, n: nat)
    requires IsPow2(p) && n < 2 * p && n > 1024
    ensures p >= 1024
  {
    Pow2At1024();
    Pow2Gap(1024, p);
  }

  lemma {:induction false} StillAboveChunk(len: nat, counter: nat)
    requires IsPow2(len) && len >= 1024 && BitAnd(len - 1, counter * 1024) != 0
    ensures len / 2 >= 1024 && IsPow2(len / 2)
  {
    hide BitAnd;
    Pow2At1024();
    MaskTestsMultiple(len, counter * 1024);
    if len < 2048 {
      Pow2Gap(len, 1024);
      hide Multiple;
      MultipleByOne(counter);
      MultipleScale(counter, 1, 1024, counter * 1024, 1024);
    }
  }

  lemma {:induction false} MultipleByOne(n: nat)
    ensures IsPow2(1) && Multiple(n, 1)
  {}

  /** Chunk counts stay below 2^54, so a merged stack has at most MAX_DEPTH entries. */
  lemma {:induction false} DepthBound(n: nat)
    requires 1024 * n < MAX_MESSAGE
    ensures Popcnt(n) <= MAX_DEPTH
  {
    hide Popcnt, Pow2;
    Pow2At54();
    PopcntBound(n, 54);
  }

  lemma {:induction false} PushIsLazy(m: Mode, n: nat, bytes: seq<Byte>, s: nat, sub: seq<Byte>, stack: seq<Cv>)
    requires |bytes| == 1024 * n && |sub| == 1024 * s
    requires IsPow2(s) && IsPow2(2 * s) && Multiple(n, s)
    requires stack == Stack(m, 0, n, bytes) + [SubtreeCv(m, n, sub)]
    ensures Lazy(m, n + s, s, bytes + sub, stack)
  {
    hide Stack, SubtreeCv, IsPow2, Multiple;
    Pow2Positive(s);
    MultipleOfSelf(s);
    MultipleSum(s, n, s);
    assert (bytes + sub)[..1024 * n] == bytes && (bytes + sub)[1024 * n..] == sub;
  }
}
