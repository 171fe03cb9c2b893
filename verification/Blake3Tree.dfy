/** The recursive hash tree of the BLAKE3 specification (sections 2.1, 2.4, 2.5 and 2.6), written
    over an arbitrary compression function. It is what the streaming hasher has to agree with. */
module Blake3Tree {
  import opened Bits

  const BLOCK_LEN: nat := 64
  const CHUNK_LEN: nat := 1024
  const OUT_LEN: nat := 32

  const CHUNK_START: nat := 1
  const CHUNK_END: nat := 2
  const PARENT: nat := 4
  const ROOT: nat := 8
  const KEYED_HASH: nat := 16
  const DERIVE_KEY_CONTEXT: nat := 32
  const DERIVE_KEY_MATERIAL: nat := 64

  newtype Byte = b: int | 0 <= b < 0x100
  newtype Word = w: int | 0 <= w < 0x1_0000_0000

  type Words = ws: seq<Word> | |ws| == 8 witness seq(8, _ => 0)
  type Block = b: seq<Byte> | |b| == 64 witness seq(64, _ => 0)
  /** A chaining value in the byte form the stack and the parent blocks use. */
  type Cv = b: seq<Byte> | |b| == 32 witness seq(32, _ => 0)

  /** The two compression entry points: chaining value, block, block length, counter, flags. */
  datatype Compressor = Compressor(
    inPlace: (Words, Block, nat, nat, nat) -> Words,
    xof: (Words, Block, nat, nat, nat) -> Block)

  /** What is fixed for one hash: compression function, key words and mode flags. */
  datatype Mode = Mode(fn: Compressor, key: Words, flags: nat)

  datatype Output = Output(cv: Words, block: Block, blockLen: nat, counter: nat, flags: nat)

  function ByteOfWord(w: Word, i: nat): Byte
    requires i < 4
  {
    if i == 0 then (w % 0x100) as Byte else ByteOfWord(w / 0x100, i - 1)
  }

  /** Little-endian bytes of eight words. */
  function StoreCvWords(ws: Words): Cv {
    seq(32, i requires 0 <= i < 32 => ByteOfWord(ws[i / 4], i % 4))
  }

  function WordOfBytes(b: seq<Byte>): Word
    requires |b| == 4
  {
    b[0] as Word + 0x100 * (b[1] as Word + 0x100 * (b[2] as Word + 0x100 * (b[3] as Word)))
  }

  /** Reads a key as eight little-endian words. */
  function LoadKeyWords(key: Cv): Words {
    seq(8, i requires 0 <= i < 8 => WordOfBytes(key[4 * i..4 * i + 4]))
  }

  /** Storing the loaded words gives the key back. */
  lemma {:induction false} StoreLoad(key: Cv)
    ensures StoreCvWords(LoadKeyWords(key)) == key
  {
    forall j: nat | j < 32
      ensures StoreCvWords(LoadKeyWords(key))[j] == key[j]
    {
      var i := j / 4;
      assert key[4 * i..4 * i + 4][j % 4] == key[j];
      ByteOfWordOf(key[4 * i..4 * i + 4], j % 4);
    }
  }

  lemma {:induction false} ByteOfWordOf(b: seq<Byte>, i: nat)
    requires |b| == 4 && i < 4
    ensures ByteOfWord(WordOfBytes(b), i) == b[i]
  {
    var w3 := b[3] as Word;
    var w2 := b[2] as Word + 0x100 * w3;
    var w1 := b[1] as Word + 0x100 * w2;
    var w0 := b[0] as Word + 0x100 * w1;
    assert w0 / 0x100 == w1 && w1 / 0x100 == w2 && w2 / 0x100 == w3;
    assert w0 % 0x100 == b[0] as Word && w1 % 0x100 == b[1] as Word && w2 % 0x100 == b[2] as Word;
    assert ByteOfWord(w3, 0) == b[3] && ByteOfWord(w2, 1) == b[3] && ByteOfWord(w2, 0) == b[2];
    assert i > 0 ==> ByteOfWord(w0, i) == ByteOfWord(w1, i - 1);
    assert i > 1 ==> ByteOfWord(w1, i - 1) == ByteOfWord(w2, i - 2);
  }

  function ChainingValue(fn: Compressor, o: Output): Cv {
    StoreCvWords(fn.inPlace(o.cv, o.block, o.blockLen, o.counter, o.flags))
  }

  function Pad(b: seq<Byte>): Block
    requires |b| <= BLOCK_LEN
  {
    b + seq(BLOCK_LEN - |b|, _ => 0)
  }

  function StartFlag(blocksCompressed: nat): nat {
    if blocksCompressed == 0 then CHUNK_START else 0
  }

  /** Chaining words after the first n whole blocks of a chunk. */
  function ChunkChain(m: Mode, counter: nat, chunk: seq<Byte>, n: nat): Words
    requires BLOCK_LEN * n <= |chunk|
  {
    if n == 0 then m.key
    else m.fn.inPlace(ChunkChain(m, counter, chunk, n - 1), chunk[64 * (n - 1)..64 * n], 64, counter,
                      BitOr(m.flags, StartFlag(n - 1)))
  }

  /** Index of the block a chunk of this length holds back for its output. */
  function LastBlock(len: nat): (n: nat)
    ensures 64 * n <= len <= 64 * n + 64
  {
    if len == 0 then 0 else (len - 1) / 64
  }

  function ChunkOutput(m: Mode, counter: nat, chunk: seq<Byte>): Output {
    var n := LastBlock(|chunk|);
    Output(ChunkChain(m, counter, chunk, n), Pad(chunk[64 * n..]), |chunk| - 64 * n, counter,
           BitOr(BitOr(m.flags, StartFlag(n)), CHUNK_END))
  }

  function ChunkCv(m: Mode, counter: nat, chunk: seq<Byte>): Cv {
    ChainingValue(m.fn, ChunkOutput(m, counter, chunk))
  }

  function Join(left: Cv, right: Cv): Block {
    var bytes: seq<Byte> := left;
    bytes + right
  }

  function ParentOutput(m: Mode, left: Cv, right: Cv): Output {
    Output(m.key, Join(left, right), 64, 0, BitOr(m.flags, PARENT))
  }

  function ParentCv(m: Mode, left: Cv, right: Cv): Cv {
    ChainingValue(m.fn, ParentOutput(m, left, right))
  }

  /** Bytes that go to the left subtree of an input longer than one chunk: the largest power of two
      of whole chunks that leaves at least one byte for the right. */
  function LeftLen(len: nat): (l: nat)
    requires len > CHUNK_LEN
    ensures 0 < l < len
  {
    RoundDownPow2((len - 1) / 1024) * 1024
  }

  function SubtreeOutput(m: Mode, counter: nat, input: seq<Byte>): Output
    decreases |input|, 1
  {
    if |input| <= CHUNK_LEN then ChunkOutput(m, counter, input)
    else ParentOutput(m, LeftCv(m, counter, input), RightCv(m, counter, input))
  }

  function SubtreeCv(m: Mode, counter: nat, input: seq<Byte>): Cv
    decreases |input|, 2
  {
    ChainingValue(m.fn, SubtreeOutput(m, counter, input))
  }

  function LeftCv(m: Mode, counter: nat, input: seq<Byte>): Cv
    requires |input| > CHUNK_LEN
    decreases |input|, 0
  {
    SubtreeCv(m, counter, input[..LeftLen(|input|)])
  }

  function RightCv(m: Mode, counter: nat, input: seq<Byte>): Cv
    requires |input| > CHUNK_LEN
    decreases |input|, 0
  {
    var l := LeftLen(|input|);
    SubtreeCv(m, counter + l / 1024, input[l..])
  }

  /** Byte i of the extended output of a root node. */
  function RootByte(fn: Compressor, o: Output, i: nat): Byte {
    fn.xof(o.cv, o.block, o.blockLen, i / 64, BitOr(o.flags, ROOT))[i % 64]
  }

  function RootBytes(fn: Compressor, o: Output, from: nat, n: nat): (r: seq<Byte>)
    ensures |r| == n
  {
    seq(n, i requires 0 <= i < n => RootByte(fn, o, from + i))
  }

  /** The hash of a whole message: bytes from..from+n of its root output. */
  function Hash(m: Mode, message: seq<Byte>, from: nat, n: nat): seq<Byte> {
    RootBytes(m.fn, SubtreeOutput(m, 0, message), from, n)
  }

  /** A chunk's chain only looks at the blocks it has consumed. */
  lemma {:induction false} ChunkChainPrefix(m: Mode, counter: nat, chunk: seq<Byte>, more: seq<Byte>, n: nat)
    requires 64 * n <= |chunk|
    ensures ChunkChain(m, counter, chunk + more, n) == ChunkChain(m, counter, chunk, n)
  {
    if n > 0 {
      ChunkChainPrefix(m, counter, chunk, more, n - 1);
      assert (chunk + more)[64 * (n - 1)..64 * n] == chunk[64 * (n - 1)..64 * n];
    }
  }

  /** Where the split falls when a power of two of whole chunks is followed by no more than as many. */
  lemma {:induction false} LeftLenIs(p: nat, len: nat)
    requires IsPow2(p) && 1024 * p < len <= 2048 * p
    ensures LeftLen(len) == 1024 * p
  {
    RoundDownUnique(p, (len - 1) / 1024);
  }

  lemma {:induction false} RoundDownUnique(p: nat, n: nat)
    requires IsPow2(p) && p <= n < 2 * p
    ensures RoundDownPow2(n) == p
  {
    if p > 1 { RoundDownUnique(p / 2, n / 2); }
  }

  /** The number of whole chunks that go left, and what that says about the lengths. */
  lemma {:induction false} SplitPoint(len: nat) returns (p: nat)
    requires len > CHUNK_LEN
    ensures IsPow2(p) && LeftLen(len) == 1024 * p && LeftLen(len) / 1024 == p
    ensures 1024 * p < len <= 2048 * p
  {
    p := RoundDownPow2((len - 1) / 1024);
  }
}
