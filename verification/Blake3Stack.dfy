/** The stack of chaining values: what it holds after n whole chunks, how lazy merging keeps it that
    way, and why rolling it up at the end gives the tree over the whole message. */
module Blake3Stack {
  import opened Bits
  import opened Blake3Tree
  import opened Blake3Levels

  /** The merged stack over n whole chunks: one subtree per one bit of n, the largest at the bottom. */
  ghost function Stack(m: Mode, base: nat, n: nat, bytes: seq<Byte>): seq<Cv>
    requires |bytes| == 1024 * n
    decreases n
  {
    if n == 0 then []
    else
      var p := RoundDownPow2(n);
      [SubtreeCv(m, base, bytes[..1024 * p])] + Stack(m, base + p, n - p, bytes[1024 * p..])
  }

  /** What lazy merging allows: merged up to the last entry, which stands for top chunks. */
  ghost predicate Lazy(m: Mode, n: nat, top: nat, bytes: seq<Byte>, stack: seq<Cv>) {
    && |bytes| == 1024 * n
    && if n == 0 then stack == [] else
         && IsPow2(top) && IsPow2(2 * top) && top <= n && Multiple(n, top)
         && stack == Stack(m, 0, n - top, bytes[..1024 * (n - top)])
                     + [SubtreeCv(m, n - top, bytes[1024 * (n - top)..])]
  }

  /** The top entry completes a pair, so the next merge would consume it. */
  ghost predicate Unmerged(n: nat, top: nat) {
    n > 0 && IsPow2(2 * top) && Multiple(n, 2 * top)
  }

  lemma {:induction false} PopcntTopBit(n: nat)
    requires n > 0
    ensures Popcnt(n) == 1 + Popcnt(n - RoundDownPow2(n))
  {
    if n > 1 {
      PopcntTopBit(n / 2);
      var p := RoundDownPow2(n / 2);
      assert (n - 2 * p) / 2 == n / 2 - p && (n - 2 * p) % 2 == n % 2;
    }
  }

  lemma {:induction false} PopcntZero()
    ensures Popcnt(0) == 0
  {}

  /** The merged stack has one entry for each one bit of the chunk count. */
  lemma {:induction false} StackLength(m: Mode, base: nat, n: nat, bytes: seq<Byte>)
    requires |bytes| == 1024 * n
    ensures |Stack(m, base, n, bytes)| == Popcnt(n)
    decreases n
  {
    hide SubtreeCv, RoundDownPow2, Popcnt;
    if n == 0 {
      PopcntZero();
    } else {
      var p := RoundDownPow2(n);
      PopcntTopBit(n);
      StackLength(m, base + p, n - p, bytes[1024 * p..]);
    }
  }

  /** A subtree smaller than every entry goes on top without any merging. */
  lemma {:induction false} StackAppend(m: Mode, base: nat, n: nat, bytes: seq<Byte>, s: nat, sub: seq<Byte>)
    requires IsPow2(s) && IsPow2(2 * s) && Multiple(n, 2 * s)
    requires |bytes| == 1024 * n && |sub| == 1024 * s
    ensures Stack(m, base, n + s, bytes + sub) == Stack(m, base, n, bytes) + [SubtreeCv(m, base + n, sub)]
    decreases n
  {
    hide SubtreeCv, RoundDownPow2, IsPow2, Multiple;
    Pow2Positive(s);
    if n == 0 {
      RoundDownUnique(s, s);
      assert bytes + sub == sub == sub[..1024 * s];
      assert Stack(m, base, s, sub) == [SubtreeCv(m, base, sub)] + Stack(m, base + s, 0, sub[1024 * s..]);
    } else {
      var p := RoundDownPow2(n);
      RoomForSmaller(n, p, s);
      StackAppend(m, base + p, n - p, bytes[1024 * p..], s, sub);
      var all := bytes + sub;
      assert all[..1024 * p] == bytes[..1024 * p];
      assert all[1024 * p..] == bytes[1024 * p..] + sub;
      assert base + p + (n - p) == base + n;
    }
  }

  lemma {:induction false} RoomForSmaller(n: nat, p: nat, s: nat)
    requires n > 0 && p == RoundDownPow2(n) && IsPow2(s) && IsPow2(2 * s) && Multiple(n, 2 * s)
    ensures Multiple(n - p, 2 * s) && RoundDownPow2(n + s) == p
  {
    hide RoundDownPow2;
    Pow2Positive(s);
    MultipleLowerBound(n, 2 * s);
    Pow2Gap(2 * s, p);
    Pow2Multiple(2 * s, p);
    MultipleSum(p, n - p, 2 * s);
    MultipleRoom(n, 2 * s, 2 * p);
    RoundDownUnique(p, n + s);
  }

  /** How many entries a lazily merged stack has, against the merged length. */
  lemma {:induction false} LazyLength(m: Mode, n: nat, top: nat, bytes: seq<Byte>, stack: seq<Cv>)
    requires Lazy(m, n, top, bytes, stack)
    ensures Popcnt(n) <= |stack|
    ensures n > 0 ==> |stack| == Popcnt(n - top) + 1
    ensures n > 0 && Multiple(n - top, 2 * top) ==> |stack| == Popcnt(n)
  {
    hide SubtreeCv, Popcnt;
    if n == 0 {
      PopcntZero();
    } else {
      StackLength(m, 0, n - top, bytes[..1024 * (n - top)]);
      PopcntAddPow2(n - top, top);
    }
  }

  /** Exactly one of n and n - top is a multiple of 2 * top. */
  lemma {:induction false} OddOrEven(n: nat, top: nat)
    requires IsPow2(top) && IsPow2(2 * top) && top <= n && Multiple(n, top)
    ensures Multiple(n - top, 2 * top) <==> !Multiple(n, 2 * top)
    decreases top
  {
    if top > 1 {
      OddOrEven(n / 2, top / 2);
      assert (n - top) / 2 == n / 2 - top / 2;
    }
  }

  /** The length of a lazy stack tells whether its last entry has a partner. */
  lemma {:induction false} LengthTellsTop(m: Mode, n: nat, top: nat, bytes: seq<Byte>, stack: seq<Cv>)
    requires Lazy(m, n, top, bytes, stack)
    ensures n > 0 ==> IsPow2(top) && IsPow2(2 * top) && top <= n
    ensures |stack| == Popcnt(n) <==> !Unmerged(n, top)
  {
    hide SubtreeCv, Popcnt, Stack, IsPow2, Multiple;
    LazyLength(m, n, top, bytes, stack);
    if n > 0 {
      OddOrEven(n, top);
      if Multiple(n, 2 * top) {
        MultipleLowerBound(n, 2 * top);
        var y := n - 2 * top;
        MultipleOfSelf(2 * top);
        MultipleSum(2 * top, y, 2 * top);
        PopcntAddPow2(y, top);
        PopcntAddPow2(y, 2 * top);
      }
    } else {
      PopcntZero();
    }
  }

  /** A lazy stack whose last entry has no partner is the merged stack. */
  lemma {:induction false} LazyIsMerged(m: Mode, n: nat, top: nat, bytes: seq<Byte>, stack: seq<Cv>)
    requires Lazy(m, n, top, bytes, stack) && !Unmerged(n, top)
    ensures stack == Stack(m, 0, n, bytes)
  {
    hide SubtreeCv, IsPow2, Multiple;
    if n > 0 {
      var k := 1024 * (n - top);
      OddOrEven(n, top);
      StackAppend(m, 0, n - top, bytes[..k], top, bytes[k..]);
      assert bytes[..k] + bytes[k..] == bytes;
    }
  }

  /** The top two entries of a lazy stack whose last entry has a partner. */
  lemma {:induction false} TopTwo(m: Mode, n: nat, top: nat, bytes: seq<Byte>, stack: seq<Cv>)
    requires Lazy(m, n, top, bytes, stack) && Unmerged(n, top)
    ensures |stack| >= 2 && 0 < 2 * top <= n
    ensures var j, k := n - 2 * top, |stack| - 2;
            && Multiple(j, 2 * top)
            && stack[..k] == Stack(m, 0, j, bytes[..1024 * j])
            && SubtreeOutput(m, j, bytes[1024 * j..]) == ParentOutput(m, stack[k], stack[k + 1])
  {
    hide Stack, SubtreeCv, IsPow2, Multiple, SubtreeOutput, ParentOutput;
    Pow2Positive(top);
    MultipleLowerBound(n, 2 * top);
    var j := n - 2 * top;
    MultipleOfSelf(2 * top);
    MultipleSum(2 * top, j, 2 * top);
    var low, pair := bytes[..1024 * j], bytes[1024 * j..];
    StackAppend(m, 0, j, low, top, pair[..1024 * top]);
    assert low + pair[..1024 * top] == bytes[..1024 * (n - top)];
    assert pair[1024 * top..] == bytes[1024 * (n - top)..];
    FullParent(m, j, top, pair);
    FullOutput(m, j, top, pair);
    assert stack == Stack(m, 0, j, low)
                    + [SubtreeCv(m, j, pair[..1024 * top]), SubtreeCv(m, n - top, pair[1024 * top..])];
  }

  lemma {:induction false} FullOutput(m: Mode, counter: nat, s: nat, pair: seq<Byte>)
    requires IsPow2(s) && |pair| == 2048 * s
    ensures SubtreeOutput(m, counter, pair) == ParentOutput(m, LeftCv(m, counter, pair), RightCv(m, counter, pair))
  {
    Pow2Positive(s);
    hide LeftCv, RightCv, ParentOutput;
  }

  /** Replacing the top two entries by their parent doubles the last entry. */
  lemma {:induction false} MergeStep(m: Mode, n: nat, top: nat, bytes: seq<Byte>, stack: seq<Cv>)
    requires Lazy(m, n, top, bytes, stack) && Unmerged(n, top)
    ensures 2 * top <= n && |stack| >= 2
    ensures var k := |stack| - 2;
            Lazy(m, n, 2 * top, bytes, stack[..k] + [ParentCv(m, stack[k], stack[k + 1])])
  {
    hide IsPow2, Multiple, Stack, SubtreeOutput, ParentOutput, ChainingValue;
    TopTwo(m, n, top, bytes, stack);
    Pow2Twice(2 * top);
  }

  /** A full subtree of 2 * s chunks is the parent of its two halves. */
  lemma {:induction false} FullParent(m: Mode, counter: nat, s: nat, pair: seq<Byte>)
    requires IsPow2(s) && |pair| == 2048 * s
    ensures SubtreeCv(m, counter, pair)
         == ParentCv(m, SubtreeCv(m, counter, pair[..1024 * s]), SubtreeCv(m, counter + s, pair[1024 * s..]))
    ensures LeftCv(m, counter, pair) == SubtreeCv(m, counter, pair[..1024 * s])
    ensures RightCv(m, counter, pair) == SubtreeCv(m, counter + s, pair[1024 * s..])
  {
    Pow2Positive(s);
    hide SubtreeCv, LeftCv, RightCv, LeftLen, ParentCv;
    LeftLenIs(s, |pair|);
    ChildCvs(m, counter, pair, s);
  }

  lemma {:induction false} Pow2Twice(p: nat)
    requires IsPow2(p)
    ensures IsPow2(2 * p)
  {}

  /** Merges the entries of a stack into an output, from the top down. */
  ghost function RollUp(m: Mode, stack: seq<Cv>, o: Output): Output
    decreases |stack|
  {
    if stack == [] then o
    else
      var k := |stack| - 1;
      RollUp(m, stack[..k], ParentOutput(m, stack[k], ChainingValue(m.fn, o)))
  }

  lemma {:induction false} RollUpFront(m: Mode, bottom: Cv, rest: seq<Cv>, o: Output)
    ensures RollUp(m, [bottom] + rest, o) == ParentOutput(m, bottom, ChainingValue(m.fn, RollUp(m, rest, o)))
    decreases |rest|
  {
    hide ChainingValue;
    var stack := [bottom] + rest;
    if rest == [] {
      assert stack[..0] == [];
    } else {
      var k := |rest| - 1;
      assert stack[..k + 1] == [bottom] + rest[..k];
      RollUpFront(m, bottom, rest[..k], ParentOutput(m, rest[k], ChainingValue(m.fn, o)));
    }
  }

  lemma {:induction false} RollUpEmpty(m: Mode, o: Output)
    ensures RollUp(m, [], o) == o
  {}

  /** Rolling the merged stack up over the output of what follows gives the output of the whole. */
  lemma {:induction false} RollUpIsTree(m: Mode, base: nat, n: nat, bytes: seq<Byte>, s: nat, rest: seq<Byte>)
    requires |bytes| == 1024 * n
    requires IsPow2(s) && Multiple(n, s) && 0 < |rest| <= 1024 * s
    ensures RollUp(m, Stack(m, base, n, bytes), SubtreeOutput(m, base + n, rest))
         == SubtreeOutput(m, base, bytes + rest)
    decreases n
  {
    hide SubtreeCv, SubtreeOutput, ParentOutput, ChainingValue, IsPow2, Multiple, RollUp, RoundDownPow2;
    if n == 0 {
      assert bytes + rest == rest;
      RollUpEmpty(m, SubtreeOutput(m, base, rest));
    } else {
      var p := RoundDownPow2(n);
      var all := bytes + rest;
      var left, right := bytes[..1024 * p], bytes[1024 * p..];
      SplitBelow(n, p, s);
      RollUpIsTree(m, base + p, n - p, right, s, rest);
      assert base + p + (n - p) == base + n;
      assert all[..1024 * p] == left && all[1024 * p..] == right + rest;
      OutputSplits(m, base, all, p);
      assert Stack(m, base, n, bytes) == [SubtreeCv(m, base, left)] + Stack(m, base + p, n - p, right);
      RollUpFront(m, SubtreeCv(m, base, left), Stack(m, base + p, n - p, right), SubtreeOutput(m, base + n, rest));
    }
  }

  lemma {:induction false} SplitBelow(n: nat, p: nat, s: nat)
    requires n > 0 && p == RoundDownPow2(n) && IsPow2(s) && Multiple(n, s)
    ensures 0 < s <= p && Multiple(n - p, s) && n + s <= 2 * p
  {
    hide RoundDownPow2;
    MultipleLowerBound(n, s);
    Pow2Gap(s, p);
    Pow2Multiple(s, p);
    MultipleSum(p, n - p, s);
    MultipleRoom(n, s, 2 * p);
  }

  lemma {:induction false} OutputSplits(m: Mode, counter: nat, input: seq<Byte>, p: nat)
    requires IsPow2(p) && 1024 * p < |input| <= 2048 * p
    ensures SubtreeOutput(m, counter, input)
         == ParentOutput(m, SubtreeCv(m, counter, input[..1024 * p]),
                         ChainingValue(m.fn, SubtreeOutput(m, counter + p, input[1024 * p..])))
  {
    Pow2Positive(p);
    LeftLenIs(p, |input|);
    ChildCvs(m, counter, input, p);
    hide LeftLen, ChunkOutput, IsPow2, LeftCv, RightCv;
  }
}
