/** The hash once more in plain numbers: flag words as sums, bytes by division, the split by doubling. The tree is
    proved to be this, which pins down every constant the tree and the streaming hasher share. */
module Blake3Plain {
  import opened Bits
  import opened Blake3Tree

  /** The modes: plain, keyed, the context and the material of a derived key. */
  predicate IsMode(flags: nat) {
    flags == 0 || flags == 16 || flags == 32 || flags == 64
  }

  datatype Place = First | Middle | Last | Only | Parent | RootLast | RootOnly | RootParent

  /** The flag word of a compression: a chunk's first, middle and last block or its only one, a parent, and the
      last three at the root. */
  function FlagWord(flags: nat, p: Place): nat {
    flags + match p
      case First => 1
      case Middle => 0
      case Last => 2
      case Only => 3
      case Parent => 4
      case RootLast => 10
      case RootOnly => 11
      case RootParent => 12
  }

  function FlagsInUse(flags: nat, p: Place): nat {
    match p
    case First => BitOr(flags, StartFlag(0))
    case Middle => BitOr(flags, StartFlag(1))
    case Last => BitOr(BitOr(flags, StartFlag(1)), CHUNK_END)
    case Only => BitOr(BitOr(flags, StartFlag(0)), CHUNK_END)
    case Parent => BitOr(flags, PARENT)
    case RootLast => BitOr(BitOr(BitOr(flags, StartFlag(1)), CHUNK_END), ROOT)
    case RootOnly => BitOr(BitOr(BitOr(flags, StartFlag(0)), CHUNK_END), ROOT)
    case RootParent => BitOr(BitOr(flags, PARENT), ROOT)
  }

  lemma {:induction false} FlagsAre(flags: nat, p: Place)
    requires IsMode(flags)
    ensures FlagsInUse(flags, p) == FlagWord(flags, p)
  {
    OrAdds(flags, 1);
    OrAdds(flags, 2);
    OrAdds(flags, 4);
    OrAdds(flags + 1, 2);
    OrAdds(flags + 2, 8);
    OrAdds(flags + 3, 8);
    OrAdds(flags + 4, 8);
    assert BitOr(flags, 0) == flags;
    Digits(flags);
    hide BitOr, BitAnd;
  }

  /** Words without a common digit are or-ed by adding them. */
  lemma {:induction false} OrAdds(a: nat, b: nat)
    ensures BitAnd(a, b) == 0 ==> BitOr(a, b) == a + b
  {
    if a > 0 && b > 0 && BitAnd(a, b) == 0 { OrAdds(a / 2, b / 2); }
  }

  lemma {:induction false} Digits(f: nat)
    requires IsMode(f)
    ensures BitAnd(f, 1) == BitAnd(f, 2) == BitAnd(f, 4) == BitAnd(f + 1, 2) == 0
    ensures BitAnd(f + 2, 8) == BitAnd(f + 3, 8) == BitAnd(f + 4, 8) == 0
  {
    hide BitAnd;
    OneDigit(f);
    OneDigit(f + 1);
    OneDigit(f + 2);
    OneDigit(f + 3);
    OneDigit(f + 4);
  }

  lemma {:induction false} OneDigit(x: nat)
    ensures BitAnd(x, 1) == x % 2 && BitAnd(x, 2) == 2 * (x / 2 % 2)
    ensures BitAnd(x, 4) == 4 * (x / 4 % 2) && BitAnd(x, 8) == 8 * (x / 8 % 2)
  {
    hide BitAnd;
    AndOne(x);
    AndTwice(x, 1);
    AndOne(x / 2);
    AndTwice(x, 2);
    AndTwice(x / 2, 1);
    AndOne(x / 4);
    AndTwice(x, 4);
    AndTwice(x / 2, 2);
    AndTwice(x / 4, 1);
    AndOne(x / 8);
  }

  lemma {:induction false} AndOne(x: nat)
    ensures BitAnd(x, 1) == x % 2
  {
    assert BitAnd(x / 2, 0) == 0;
  }

  lemma {:induction false} AndTwice(x: nat, b: nat)
    ensures BitAnd(x, 2 * b) == 2 * BitAnd(x / 2, b)
  {}

  /** No two places in any modes are compressed under the same flag word. */
  lemma {:induction false} DomainsApart(flags: nat, p: Place, flags': nat, p': Place)
    requires IsMode(flags) && IsMode(flags')
    ensures FlagsInUse(flags, p) == FlagsInUse(flags', p') <==> flags == flags' && p == p'
  {
    FlagsAre(flags, p);
    FlagsAre(flags', p');
    hide FlagsInUse;
  }

  // ---------- the tree in plain numbers ----------

  function Pow256(i: nat): (p: nat)
    ensures p > 0
  {
    if i == 0 then 1 else 256 * Pow256(i - 1)
  }

  /** Eight words as bytes, the least significant first. */
  function PlainBytes(ws: Words): Cv {
    seq(32, i requires 0 <= i < 32 => ((ws[i / 4] as nat / Pow256(i % 4)) % 256) as Byte)
  }

  function PlainChain(m: Mode, counter: nat, chunk: seq<Byte>, n: nat): Words
    requires 64 * n <= |chunk|
  {
    if n == 0 then m.key
    else m.fn.inPlace(PlainChain(m, counter, chunk, n - 1), chunk[64 * n - 64..64 * n], 64, counter,
                      m.flags + (if n == 1 then 1 else 0))
  }

  /** A chunk of at most 1024 bytes: its last block, even if full or empty, is kept for the output and padded with zeros. */
  function PlainChunk(m: Mode, counter: nat, chunk: seq<Byte>): Output {
    var n: nat := if |chunk| <= 64 then 0 else (|chunk| - 1) / 64;
    var last := chunk[64 * n..];
    Output(PlainChain(m, counter, chunk, n), last + seq(64 - |last|, _ => 0), |last|, counter,
           m.flags + (if n == 0 then 3 else 2))
  }

  /** The first doubling of p that is at least half of n. */
  function Doubled(p: nat, n: nat): nat
    requires p > 0
    decreases if n > 2 * p then n - 2 * p else 0
  {
    if n <= 2 * p then p else Doubled(2 * p, n)
  }

  function PlainNode(m: Mode, counter: nat, input: seq<Byte>): Output
    decreases |input|, 1
  {
    if |input| <= 1024 then PlainChunk(m, counter, input)
    else
      DoubledSplits(1, |input|);
      var p := Doubled(1024, |input|);
      var left, right := PlainCv(m, counter, input[..p]), PlainCv(m, counter + p / 1024, input[p..]);
      var both: seq<Byte> := left;
      Output(m.key, both + right, 64, 0, m.flags + 4)
  }

  function PlainCv(m: Mode, counter: nat, input: seq<Byte>): Cv
    decreases |input|, 2
  {
    var o := PlainNode(m, counter, input);
    PlainBytes(m.fn.inPlace(o.cv, o.block, o.blockLen, o.counter, o.flags))
  }

  function PlainHash(m: Mode, message: seq<Byte>, from: nat, n: nat): seq<Byte> {
    var o := PlainNode(m, 0, message);
    seq(n, i requires 0 <= i < n => m.fn.xof(o.cv, o.block, o.blockLen, (from + i) / 64, o.flags + 8)[(from + i) % 64])
  }

  lemma {:induction false} DoubledSplits(q: nat, n: nat)
    requires IsPow2(q) && 1024 * q < n
    ensures var p := Doubled(1024 * q, n); 0 < p < n <= 2 * p && p % 1024 == 0 && IsPow2(p / 1024)
    decreases n - 1024 * q
  {
    if n > 2048 * q { DoubledSplits(2 * q, n); }
  }

  // ---------- and they are the same ----------

  lemma {:induction false} ByteIsPlain(w: Word, i: nat)
    ensures i < 4 ==> ByteOfWord(w, i) as nat == (w as nat / Pow256(i)) % 256
  {
    if 0 < i < 4 {
      ByteIsPlain(w / 256, i - 1);
      TwoDivisions(w as nat, Pow256(i - 1));
    }
  }

  lemma {:induction false} TwoDivisions(n: nat, p: nat)
    requires p > 0
    ensures n / 256 / p == n / (256 * p)
  {
    var q := n / 256 / p;
    assert 256 * p * q <= n by { assert p * q <= n / 256; assert 256 * (p * q) == 256 * p * q; }
    assert n < 256 * p * (q + 1) by { assert n / 256 < p * (q + 1); assert 256 * (p * (q + 1)) == 256 * p * (q + 1); }
    QuotientIs(n, 256 * p, q);
  }

  lemma {:induction false} QuotientIs(n: nat, d: nat, q: nat)
    requires d > 0 && d * q <= n < d * (q + 1)
    ensures n / d == q
  {
    var r := n / d;
    assert d * r <= n < d * (r + 1);
    TimesMono(d, r + 1, q);
    TimesMono(d, q + 1, r);
  }

  lemma {:induction false} TimesMono(d: nat, a: nat, b: nat)
    ensures a <= b ==> d * a <= d * b
  {}

  lemma {:induction false} BytesArePlain(ws: Words)
    ensures StoreCvWords(ws) == PlainBytes(ws)
  {
    forall i: nat | i < 32 ensures StoreCvWords(ws)[i] == PlainBytes(ws)[i] { ByteIsPlain(ws[i / 4], i % 4); }
  }

  lemma {:induction false} ChainIsPlain(m: Mode, counter: nat, chunk: seq<Byte>, n: nat)
    requires IsMode(m.flags) && 64 * n <= |chunk|
    ensures ChunkChain(m, counter, chunk, n) == PlainChain(m, counter, chunk, n)
  {
    if n > 0 {
      FlagsAre(m.flags, if n == 1 then First else Middle);
      hide BitOr;
      ChainIsPlain(m, counter, chunk, n - 1);
    }
  }

  lemma {:induction false} ChunkIsPlain(m: Mode, counter: nat, chunk: seq<Byte>)
    requires IsMode(m.flags) && |chunk| <= 1024
    ensures ChunkOutput(m, counter, chunk) == PlainChunk(m, counter, chunk)
  {
    var n := LastBlock(|chunk|);
    FlagsAre(m.flags, if n == 0 then Only else Last);
    ChainIsPlain(m, counter, chunk, n);
    hide BitOr, ChunkChain, PlainChain;
    assert Pad(chunk[64 * n..]) == chunk[64 * n..] + seq(64 - |chunk[64 * n..]|, _ => 0);
  }

  lemma {:induction false} LeafIsPlain(m: Mode, counter: nat, input: seq<Byte>)
    requires IsMode(m.flags) && |input| <= 1024
    ensures SubtreeOutput(m, counter, input) == PlainNode(m, counter, input)
  {
    ChunkIsPlain(m, counter, input);
    hide ChunkOutput, PlainChunk;
  }

  lemma {:induction false} CvIsPlain(m: Mode, counter: nat, input: seq<Byte>)
    requires SubtreeOutput(m, counter, input) == PlainNode(m, counter, input)
    ensures SubtreeCv(m, counter, input) == PlainCv(m, counter, input)
  {
    var o := PlainNode(m, counter, input);
    BytesArePlain(m.fn.inPlace(o.cv, o.block, o.blockLen, o.counter, o.flags));
    hide StoreCvWords, PlainBytes, PlainNode, SubtreeOutput;
  }

  lemma {:induction false} InnerIsPlain(m: Mode, counter: nat, input: seq<Byte>, p: nat)
    requires IsMode(m.flags) && |input| > 1024 && p == Doubled(1024, |input|) && 0 < p < |input| && p % 1024 == 0
    requires LeftLen(|input|) == p
    requires SubtreeCv(m, counter, input[..p]) == PlainCv(m, counter, input[..p])
    requires SubtreeCv(m, counter + p / 1024, input[p..]) == PlainCv(m, counter + p / 1024, input[p..])
    ensures SubtreeOutput(m, counter, input) == PlainNode(m, counter, input)
  {
    FlagsAre(m.flags, Parent);
    hide BitOr, SubtreeCv, PlainCv, Doubled, LeftLen;
  }

  /** Every node of the tree is that of the plain one. */
  lemma {:induction false} TreeIsPlain(m: Mode, counter: nat, input: seq<Byte>)
    requires IsMode(m.flags)
    ensures SubtreeOutput(m, counter, input) == PlainNode(m, counter, input)
    ensures SubtreeCv(m, counter, input) == PlainCv(m, counter, input)
    decreases |input|
  {
    hide SubtreeOutput, PlainNode, SubtreeCv, PlainCv, IsPow2, Doubled, LeftLen;
    if |input| <= 1024 {
      LeafIsPlain(m, counter, input);
    } else {
      DoubledSplits(1, |input|);
      var p := Doubled(1024, |input|);
      LeftLenIs(p / 1024, |input|);
      TreeIsPlain(m, counter, input[..p]);
      TreeIsPlain(m, counter + p / 1024, input[p..]);
      InnerIsPlain(m, counter, input, p);
    }
    CvIsPlain(m, counter, input);
  }

  lemma {:induction false} RootFlags(m: Mode, message: seq<Byte>)
    requires IsMode(m.flags)
    ensures BitOr(PlainNode(m, 0, message).flags, 8) == PlainNode(m, 0, message).flags + 8
  {
    FlagsAre(m.flags, Last);
    FlagsAre(m.flags, Only);
    FlagsAre(m.flags, Parent);
    FlagsAre(m.flags, RootLast);
    FlagsAre(m.flags, RootOnly);
    FlagsAre(m.flags, RootParent);
    hide BitOr;
  }

  /** The hash is the plain one, in every mode. */
  lemma {:induction false} HashIsPlain(m: Mode, message: seq<Byte>, from: nat, n: nat)
    requires IsMode(m.flags)
    ensures Hash(m, message, from, n) == PlainHash(m, message, from, n)
  {
    TreeIsPlain(m, 0, message);
    RootFlags(m, message);
    hide BitOr, SubtreeOutput, PlainNode;
    var a, b := Hash(m, message, from, n), PlainHash(m, message, from, n);
    forall i: nat | i < n ensures a[i] == b[i] {
      assert a[i] == RootByte(m.fn, PlainNode(m, 0, message), from + i);
    }
  }
}
