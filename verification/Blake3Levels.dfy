/** Rows of chaining values: what pairing neighbours over and over does to them, and why a row that
    is not uniform still collapses to the two children of the tree's top node. */
module Blake3Levels {
  import opened Bits
  import opened Blake3Tree

  /** Chaining values of the successive chunks of a non-empty input. */
  function ChunkCvs(m: Mode, counter: nat, input: seq<Byte>): (r: seq<Cv>)
    ensures input != [] ==> |r| == (|input| - 1) / 1024 + 1
    decreases |input|
  {
    if input == [] then []
    else if |input| <= 1024 then [ChunkCv(m, counter, input)]
    else [ChunkCv(m, counter, input[..1024])] + ChunkCvs(m, counter + 1, input[1024..])
  }

  /** One layer of parents: neighbours pair up, an odd one at the end passes through. */
  function PairUp(m: Mode, row: seq<Cv>): (r: seq<Cv>)
    ensures |r| == (|row| + 1) / 2
  {
    if |row| < 2 then row else [ParentCv(m, row[0], row[1])] + PairUp(m, row[2..])
  }

  /** Pair up until one value is left. */
  function Collapse(m: Mode, row: seq<Cv>): Cv
    requires row != []
    decreases |row|
  {
    if |row| == 1 then row[0] else Collapse(m, PairUp(m, row))
  }

  /** Pair up until two values are left. */
  function TopPair(m: Mode, row: seq<Cv>): (r: seq<Cv>)
    requires |row| >= 2
    ensures |r| == 2
    decreases |row|
  {
    if |row| == 2 then row else TopPair(m, PairUp(m, row))
  }

  /** A row that stands for the subtree over input: it collapses to the subtree's chaining value,
      and when the input has more than one chunk, to the chaining values of its two children. */
  ghost predicate Represents(m: Mode, counter: nat, input: seq<Byte>, row: seq<Cv>) {
    && row != []
    && Collapse(m, row) == SubtreeCv(m, counter, input)
    && (|input| > CHUNK_LEN ==>
      |row| >= 2 && TopPair(m, row) == [LeftCv(m, counter, input), RightCv(m, counter, input)])
  }

  lemma {:induction false} PairUpConcat(m: Mode, a: seq<Cv>, b: seq<Cv>)
    requires |a| % 2 == 0
    ensures PairUp(m, a + b) == PairUp(m, a) + PairUp(m, b)
    decreases |a|
  {
    if a == [] {
      assert a + b == b;
    } else {
      PairUpConcat(m, a[2..], b);
      assert (a + b)[2..] == a[2..] + b;
    }
  }

  /** A full row on the left and no more on the right keep apart until only two values are left. */
  lemma {:induction false} CollapseConcat(m: Mode, a: seq<Cv>, b: seq<Cv>)
    requires IsPow2(|a|) && 1 <= |b| <= |a|
    ensures TopPair(m, a + b) == [Collapse(m, a), Collapse(m, b)]
    ensures Collapse(m, a + b) == ParentCv(m, Collapse(m, a), Collapse(m, b))
    decreases |a|
  {
    if |a| == 1 {
      assert a + b == [a[0], b[0]];
      assert PairUp(m, [a[0], b[0]]) == [ParentCv(m, a[0], b[0])];
    } else {
      PairUpConcat(m, a, b);
      CollapseConcat(m, PairUp(m, a), PairUp(m, b));
    }
  }

  lemma {:induction false} ChunkCvsConcat(m: Mode, counter: nat, a: seq<Byte>, b: seq<Byte>, p: nat)
    requires p > 0 && |a| == 1024 * p && b != []
    ensures ChunkCvs(m, counter, a + b) == ChunkCvs(m, counter, a) + ChunkCvs(m, counter + p, b)
    decreases p
  {
    hide ChunkCv;
    var input := a + b;
    assert input[..1024] == a[..1024];
    assert input[1024..] == a[1024..] + b;
    if p > 1 {
      ChunkCvsConcat(m, counter + 1, a[1024..], b, p - 1);
    } else {
      assert a[..1024] == a && a[1024..] + b == b;
    }
  }

  lemma {:induction false} ChildCvs(m: Mode, counter: nat, input: seq<Byte>, p: nat)
    requires |input| > CHUNK_LEN && LeftLen(|input|) == 1024 * p
    ensures LeftCv(m, counter, input) == SubtreeCv(m, counter, input[..1024 * p])
    ensures RightCv(m, counter, input) == SubtreeCv(m, counter + p, input[1024 * p..])
    ensures SubtreeCv(m, counter, input) == ParentCv(m, LeftCv(m, counter, input), RightCv(m, counter, input))
  {}

  lemma {:induction false} PairUpKeepsTop(m: Mode, row: seq<Cv>)
    requires |row| > 2
    ensures TopPair(m, PairUp(m, row)) == TopPair(m, row)
    ensures Collapse(m, PairUp(m, row)) == Collapse(m, row)
  {}

  /** Two represented halves, put side by side, represent the whole. */
  lemma {:induction false} ConcatRepresents(m: Mode, counter: nat, input: seq<Byte>, p: nat, a: seq<Cv>, b: seq<Cv>)
    requires |input| > CHUNK_LEN && LeftLen(|input|) == 1024 * p
    requires a != [] && Collapse(m, a) == SubtreeCv(m, counter, input[..1024 * p])
    requires b != [] && Collapse(m, b) == SubtreeCv(m, counter + p, input[1024 * p..])
    requires IsPow2(|a|) && |b| <= |a|
    ensures Represents(m, counter, input, a + b)
    ensures |a| > 1 ==> Represents(m, counter, input, PairUp(m, a + b))
  {
    ChildCvs(m, counter, input, p);
    CollapseConcat(m, a, b);
    if |a| > 1 { PairUpKeepsTop(m, a + b); }
  }

  lemma {:induction false} ChunkCvsSplit(m: Mode, counter: nat, input: seq<Byte>, p: nat)
    requires 0 < p && 1024 * p < |input| <= 2048 * p
    ensures var a, b := ChunkCvs(m, counter, input[..1024 * p]), ChunkCvs(m, counter + p, input[1024 * p..]);
            ChunkCvs(m, counter, input) == a + b && |a| == p && 1 <= |b| <= p
  {
    var left, right := input[..1024 * p], input[1024 * p..];
    assert left + right == input;
    ChunkCvsConcat(m, counter, left, right, p);
  }

  lemma {:induction false} OneChunkRepresents(m: Mode, counter: nat, input: seq<Byte>)
    requires 0 < |input| <= CHUNK_LEN
    ensures Represents(m, counter, input, ChunkCvs(m, counter, input))
  {
    assert Collapse(m, [ChunkCv(m, counter, input)]) == ChunkCv(m, counter, input);
  }

  /** The row of chunk chaining values represents its input. */
  lemma {:induction false} ChunkCvsRepresent(m: Mode, counter: nat, input: seq<Byte>)
    requires input != []
    ensures Represents(m, counter, input, ChunkCvs(m, counter, input))
    decreases |input|
  {
    hide ChunkCv, LeftLen, SubtreeCv;
    if |input| <= CHUNK_LEN {
      OneChunkRepresents(m, counter, input);
    } else {
      var p := SplitPoint(|input|);
      ChunkCvsSplit(m, counter, input, p);
      ChunkCvsRepresent(m, counter, input[..1024 * p]);
      ChunkCvsRepresent(m, counter + p, input[1024 * p..]);
      ConcatRepresents(m, counter, input, p,
                       ChunkCvs(m, counter, input[..1024 * p]), ChunkCvs(m, counter + p, input[1024 * p..]));
    }
  }

  /** The whole tree is the row of chunks, paired up layer by layer: the plain recursion and the
      layered one agree on every input. */
  lemma {:induction false} TreeIsLayered(m: Mode, counter: nat, input: seq<Byte>)
    requires input != []
    ensures SubtreeCv(m, counter, input) == Collapse(m, ChunkCvs(m, counter, input))
  {
    ChunkCvsRepresent(m, counter, input);
  }
}
