/** The two reading operations as they run at a client. */
module ReadFutures {
  import opened Registers
  import opened PutFutures

  datatype ReadStep = Reading | WritingBack | ReadDone

  function CountOf(regs: seq<Register>, x: Register): (n: nat)
    ensures n <= |regs|
    ensures n == |regs| <==> forall i :: 0 <= i < |regs| ==> regs[i] == x
    ensures (forall i :: 0 <= i < |regs| ==> regs[i] != x) ==> n == 0
  {
    if regs == [] then 0 else CountOf(regs[..|regs| - 1], x) + (if regs[|regs| - 1] == x then 1 else 0)
  }

  /** The requests of a write-back: one for each slot whose answer is not the maximum. */
  function WriteBackRound(regs: seq<Register>, best: Register, quorum: seq<nat>, n: nat): seq<Request>
    requires n <= |quorum| == |regs|
  {
    if n == 0 then []
    else WriteBackRound(regs, best, quorum, n - 1)
         + (if regs[n - 1] == best then [] else [CasRequest(quorum[n - 1], regs[n - 1], best)])
  }

  /** A write-back asks exactly the slots that answered something else, expecting that and installing the maximum,
      and no server twice. Nothing it installs is below what it expects. */
  lemma {:induction false} WriteBackAsks(regs: seq<Register>, best: Register, quorum: seq<nat>, n: nat)
    requires n <= |quorum| == |regs| && forall i, j :: 0 <= i < j < |quorum| ==> quorum[i] != quorum[j]
    ensures forall r :: r in WriteBackRound(regs, best, quorum, n) <==>
              exists i :: 0 <= i < n && regs[i] != best && r == CasRequest(quorum[i], regs[i], best)
    ensures forall a, b :: 0 <= a < b < |WriteBackRound(regs, best, quorum, n)| ==>
              WriteBackRound(regs, best, quorum, n)[a].server != WriteBackRound(regs, best, quorum, n)[b].server
  {
    if n > 0 {
      WriteBackAsks(regs, best, quorum, n - 1);
      var before, round := WriteBackRound(regs, best, quorum, n - 1), WriteBackRound(regs, best, quorum, n);
      forall a | 0 <= a < |before| ensures before[a].server != quorum[n - 1] {
        assert before[a] in before;
      }
      if regs[n - 1] != best { assert CasRequest(quorum[n - 1], regs[n - 1], best) == round[|before|]; }
    }
  }

  /** One more answer moves the running maximum and how often it was seen. */
  lemma {:induction false} OneMoreAnswer(regs: seq<Register>, n: nat)
    requires n < |regs|
    ensures var m, c := MaxRegister(ZERO, regs[..n]), CountOf(regs[..n], MaxRegister(ZERO, regs[..n]));
            && MaxRegister(ZERO, regs[..n + 1]) == (if m.Less(regs[n]) then regs[n] else m)
            && CountOf(regs[..n + 1], MaxRegister(ZERO, regs[..n + 1]))
               == (if m.Less(regs[n]) then 1 else if regs[n] == m then c + 1 else c)
  {
    var m := MaxRegister(ZERO, regs[..n]);
    assert regs[..n + 1][..n] == regs[..n];
    if m.Less(regs[n]) {
      forall i | 0 <= i < n ensures regs[..n][i] != regs[n] {
        assert !m.Less(regs[..n][i]);
      }
    }
  }

  class GetFuture {
    const quorum: seq<nat>
    const numServers: nat
    const writebackOn: bool
    const cacheOn: bool

    var step: ReadStep
    var ongoing: seq<int>
    var readBufs: seq<Register>
    var best: Register
    var bestCount: nat
    var expected: seq<Register>
    var result: nat
    var cache: Option<Register>

    ghost var inFlight: seq<Request>

    ghost predicate Valid()
      reads this
    {
      && (forall i :: 0 <= i < |quorum| ==> quorum[i] < numServers)
      && (forall i, j :: 0 <= i < j < |quorum| ==> quorum[i] != quorum[j])
      && |readBufs| == numServers && |expected| == |quorum|
      && Counted(ongoing, inFlight, numServers)
    }

    method Post(server: nat, ghost request: Request)
      requires server < numServers && request.server == server && Counted(ongoing, inFlight, numServers)
      modifies this`ongoing, this`inFlight
      ensures Counted(ongoing, inFlight, numServers) && inFlight == old(inFlight) + [request]
    {
      CountForAppend(inFlight, request);
      ongoing := ongoing[server := ongoing[server] + 1];
      inFlight := inFlight + [request];
    }

    /** A completion from a server; the answer of a read lands in its buffer. */
    method AddToOngoingRDMA(server: nat, isRead: bool, answer: Register, ghost k: nat)
      requires Valid() && k < |inFlight| && inFlight[k].server == server && inFlight[k].ReadRequest? == isRead
      modifies this`ongoing, this`inFlight, this`readBufs
      ensures Valid() && inFlight == old(inFlight)[..k] + old(inFlight)[k + 1..]
      ensures readBufs == if isRead then old(readBufs)[server := answer] else old(readBufs)
    {
      CountedLess(ongoing, inFlight, numServers, k);
      if isRead { readBufs := readBufs[server := answer]; }
      ongoing := ongoing[server := ongoing[server] - 1];
      inFlight := inFlight[..k] + inFlight[k + 1..];
    }

    method DoGet()
      requires Valid() && step.ReadDone? && inFlight == []
      modifies this`best, this`bestCount, this`step, this`ongoing, this`inFlight
      ensures Valid() && step.Reading? && best == ZERO && bestCount == 0
      ensures |inFlight| == |quorum| && forall i :: 0 <= i < |quorum| ==> inFlight[i] == ReadRequest(quorum[i])
    {
      hide Counted;
      best, bestCount := ZERO, 0;
      for i := 0 to |quorum|
        invariant Valid() && inFlight == ReadRound(quorum)[..i] && best == ZERO && bestCount == 0
      {
        Post(quorum[i], ReadRequest(quorum[i]));
      }
      step := Reading;
    }

    method PostWriteback()
      requires Valid() && inFlight == []
      modifies this`ongoing, this`inFlight
      ensures Valid() && inFlight == WriteBackRound(expected, best, quorum, |quorum|)
    {
      hide Counted;
      for i := 0 to |quorum|
        invariant Valid() && inFlight == WriteBackRound(expected, best, quorum, i)
      {
        if expected[i] != best {
          Post(quorum[i], CasRequest(quorum[i], expected[i], best));
        }
      }
    }

    /** All answers are in: the result is the greatest register, and unless every slot already holds
        exactly it, write-back sends it to the slots that do not. */
    method FinishReading()
      requires Valid() && step.Reading? && inFlight == [] && best == ZERO && bestCount == 0
      modifies this`best, this`bestCount, this`expected, this`cache, this`result, this`step, this`ongoing, this`inFlight
      ensures Valid()
      ensures expected == Slots(readBufs, quorum) && best == MaxRegister(ZERO, expected) && result == best.value
      ensures cache == if cacheOn then Some(best) else old(cache)
      ensures if writebackOn && exists i :: 0 <= i < |expected| && expected[i] != best
              then step.WritingBack? && inFlight == WriteBackRound(expected, best, quorum, |quorum|)
              else step.ReadDone? && inFlight == []
    {
      hide Counted, MaxRegister, CountOf;
      GatherMaximum();
      if cacheOn { cache := Some(best); }
      result := best.value;
      if writebackOn && bestCount < |quorum| {
        PostWriteback();
        step := WritingBack;
        return;
      }
      step := ReadDone;
    }

    method GatherMaximum()
      requires Valid() && best == ZERO && bestCount == 0
      modifies this`best, this`bestCount, this`expected
      ensures Valid() && expected == Slots(readBufs, quorum)
      ensures best == MaxRegister(ZERO, expected) && bestCount == CountOf(expected, best)
    {
      hide Counted, MaxRegister, CountOf;
      ghost var got := Slots(readBufs, quorum);
      assert got[..0] == [];
      NoAnswers();
      for i := 0 to |quorum|
        invariant Valid() && expected[..i] == got[..i]
        invariant best == MaxRegister(ZERO, got[..i]) && bestCount == CountOf(got[..i], best)
      {
        var reg := readBufs[quorum[i]];
        expected := expected[i := reg];
        OneMoreAnswer(got, i);
        assert expected[..i + 1] == got[..i + 1];
        if best.Less(reg) {
          best, bestCount := reg, 1;
        } else if reg == best {
          bestCount := bestCount + 1;
        }
      }
      assert expected[..|quorum|] == expected && got[..|quorum|] == got;
    }

    method TryStepForward() returns (progressed: bool)
      requires Valid() && (step.Reading? ==> best == ZERO && bestCount == 0)
      modifies this`best, this`bestCount, this`expected, this`cache, this`result, this`step, this`ongoing, this`inFlight
      ensures Valid() && (progressed <==> old(inFlight) == [])
      ensures !progressed ==> step == old(step) && inFlight == old(inFlight) && cache == old(cache)
      ensures progressed && !old(step).Reading? ==> step.ReadDone? && inFlight == [] && cache == old(cache) && result == old(result)
      ensures progressed && old(step).Reading? ==>
        && best == MaxRegister(ZERO, Slots(readBufs, quorum)) && result == best.value
        && cache == (if cacheOn then Some(best) else old(cache))
        && (step.WritingBack? <==> writebackOn && exists i :: 0 <= i < |quorum| && Slots(readBufs, quorum)[i] != best)
        && inFlight == (if step.WritingBack? then WriteBackRound(Slots(readBufs, quorum), best, quorum, |quorum|) else [])
      ensures progressed && step.WritingBack? ==>
        && (forall r :: r in inFlight <==> exists i :: 0 <= i < |quorum| && readBufs[quorum[i]] != best
                                                       && r == CasRequest(quorum[i], readBufs[quorum[i]], best))
        && (forall a, b :: 0 <= a < b < |inFlight| ==> inFlight[a].server != inFlight[b].server)
        && forall r :: r in inFlight ==> !r.target.Less(r.expected) && (r.expected.Less(r.target) || r.expected.SameTag(r.target))
    {
      hide MaxRegister;
      for s := 0 to numServers
        invariant forall j :: 0 <= j < s ==> ongoing[j] == 0
      {
        if ongoing[s] > 0 {
          CountPositive(inFlight, s);
          return false;
        }
      }
      NothingOutstanding(inFlight, numServers);
      progressed := true;
      match step {
      case Reading =>
        FinishReading();
        WriteBackAsks(expected, best, quorum, |quorum|);
        GreatestBelow(expected, best);
      case WritingBack => step := ReadDone;
      case ReadDone =>
      }
    }
  }

  lemma {:induction false} GreatestBelow(regs: seq<Register>, best: Register)
    requires best == MaxRegister(ZERO, regs)
    ensures forall i :: 0 <= i < |regs| ==> !best.Less(regs[i]) && (regs[i].Less(best) || regs[i].SameTag(best))
  {}

  lemma {:induction false} NoAnswers()
    ensures MaxRegister(ZERO, []) == ZERO && CountOf([], ZERO) == 0
  {}

  // ---------- reading a range of keys ----------

  /** Slot i's answer for the key at offset off; each server has its own slice of the buffer. */
  function Cell(bulk: seq<Register>, quorum: seq<nat>, stride: nat, i: nat, off: nat): Register
    requires i < |quorum| && quorum[i] * stride + off < |bulk|
  {
    bulk[quorum[i] * stride + off]
  }

  ghost predicate Fits(size: nat, quorum: seq<nat>, stride: nat, len: nat) {
    && len <= stride
    && (forall i :: 0 <= i < |quorum| ==> quorum[i] * stride + len <= size)
    && (forall i, j :: 0 <= i < j < |quorum| ==> quorum[i] != quorum[j])
  }

  /** The answers for one key, from slot `from` up to slot n. */
  function Column(bulk: seq<Register>, quorum: seq<nat>, stride: nat, len: nat, n: nat, off: nat): (regs: seq<Register>)
    requires Fits(|bulk|, quorum, stride, len) && off < len && 1 <= n <= |quorum|
  {
    seq(n - 1, i requires 0 <= i < n - 1 => Cell(bulk, quorum, stride, i + 1, off))
  }

  function ColumnMax(bulk: seq<Register>, quorum: seq<nat>, stride: nat, len: nat, n: nat, off: nat): Register
    requires Fits(|bulk|, quorum, stride, len) && off < len && 1 <= n <= |quorum|
  {
    MaxRegister(Cell(bulk, quorum, stride, 0, off), Column(bulk, quorum, stride, len, n, off))
  }

  /** The greatest answer of the first n slots, key by key. */
  function Maxima(bulk: seq<Register>, quorum: seq<nat>, stride: nat, len: nat, n: nat): (regs: seq<Register>)
    requires Fits(|bulk|, quorum, stride, len) && 1 <= n <= |quorum|
    ensures |regs| == len
    ensures forall off :: 0 <= off < len ==> regs[off] == ColumnMax(bulk, quorum, stride, len, n, off)
  {
    seq(len, off requires 0 <= off < len => ColumnMax(bulk, quorum, stride, len, n, off))
  }

  /** The first slot's slice holds the maxima of the first n slots; the rest of the buffer is as it was. */
  ghost predicate Merged(bulk: seq<Register>, was: seq<Register>, quorum: seq<nat>, stride: nat, len: nat, n: nat)
    requires Fits(|was|, quorum, stride, len) && 1 <= n <= |quorum|
  {
    Spliced(bulk, was, quorum[0] * stride, Maxima(was, quorum, stride, len, n))
  }

  /** The buffer with the slice at acc replaced. */
  ghost predicate Spliced(bulk: seq<Register>, was: seq<Register>, acc: nat, slice: seq<Register>) {
    acc + |slice| <= |was| && bulk == was[..acc] + slice + was[acc + |slice|..]
  }

  lemma {:induction false} SplicedAt(bulk: seq<Register>, was: seq<Register>, acc: nat, slice: seq<Register>, k: nat)
    requires Spliced(bulk, was, acc, slice) && k < |was|
    ensures |bulk| == |was| && bulk[k] == if acc <= k < acc + |slice| then slice[k - acc] else was[k]
  {}

  lemma {:induction false} SplicedUpdate(bulk: seq<Register>, was: seq<Register>, acc: nat, slice: seq<Register>, o: nat, x: Register)
    requires Spliced(bulk, was, acc, slice) && o < |slice|
    ensures |bulk| == |was| && Spliced(bulk[acc + o := x], was, acc, slice[o := x])
  {
    var p, q := was[..acc], was[acc + |slice|..];
    assert (p + slice + q)[acc + o := x] == p + slice[o := x] + q;
  }

  lemma {:induction false} ColumnGrows(bulk: seq<Register>, quorum: seq<nat>, stride: nat, len: nat, n: nat, off: nat)
    requires Fits(|bulk|, quorum, stride, len) && off < len && 1 <= n < |quorum|
    ensures var m, x := ColumnMax(bulk, quorum, stride, len, n, off), Cell(bulk, quorum, stride, n, off);
            ColumnMax(bulk, quorum, stride, len, n + 1, off) == if m.Less(x) then x else m
  {
    var c := Column(bulk, quorum, stride, len, n + 1, off);
    assert c[..n - 1] == Column(bulk, quorum, stride, len, n, off);
  }

  lemma {:induction false} Apart(a: nat, b: nat, stride: nat)
    requires a != b
    ensures a * stride + stride <= b * stride || b * stride + stride <= a * stride
  {
    if a < b { TimesMonotone(a + 1, b, stride); } else { TimesMonotone(b + 1, a, stride); }
  }

  lemma {:induction false} TimesMonotone(a: nat, b: nat, stride: nat)
    requires a <= b
    ensures a * stride <= b * stride
    decreases b - a
  {
    if a < b { TimesMonotone(a, b - 1, stride); }
  }

  /** The value v comes from an answer for the key at offset off above which no slot's answer is. */
  ghost predicate Greatest(bulk: seq<Register>, quorum: seq<nat>, stride: nat, len: nat, off: nat, v: nat)
    requires Fits(|bulk|, quorum, stride, len) && off < len
  {
    exists i :: 0 <= i < |quorum| && Cell(bulk, quorum, stride, i, off).value == v
      && forall j :: 0 <= j < |quorum| ==> !Cell(bulk, quorum, stride, i, off).Less(Cell(bulk, quorum, stride, j, off))
  }

  lemma {:induction false} EveryGreatest(bulk: seq<Register>, quorum: seq<nat>, stride: nat, len: nat)
    requires Fits(|bulk|, quorum, stride, len) && |quorum| > 0
    ensures forall o :: 0 <= o < len ==>
              Greatest(bulk, quorum, stride, len, o, Maxima(bulk, quorum, stride, len, |quorum|)[o].value)
  {
    hide Fits, ColumnMax, Cell;
    forall o | 0 <= o < len
      ensures Greatest(bulk, quorum, stride, len, o, Maxima(bulk, quorum, stride, len, |quorum|)[o].value)
    {
      ColumnMaxIsMaximum(bulk, quorum, stride, len, o);
    }
  }

  lemma {:induction false} CachedAll(on: bool, cache: map<nat, Register>, key: nat, regs: seq<Register>)
    ensures var r := CachedIf(on, cache, key, regs, |regs|);
            && (on ==> forall k :: key <= k < key + |regs| ==> k in r && r[k] == regs[k - key])
            && forall k :: !(on && key <= k < key + |regs|) ==> (k in r <==> k in cache) && (k in r ==> r[k] == cache[k])
  {}

  class RangeFuture {
    const quorum: seq<nat>
    const stride: nat
    const bulk: array<Register>
    const cacheOn: bool

    var startKey: nat
    var len: nat
    var results: seq<nat>
    var cache: map<nat, Register>

    ghost predicate Valid()
      reads this
    {
      |quorum| > 0 && Fits(bulk.Length, quorum, stride, len)
    }

    /** Merges slot i's slice into the first slot's, key by key, in place. */
    method MergeSlice(i: nat, ghost was: seq<Register>)
      requires Valid() && 0 < i < |quorum| && |was| == bulk.Length
      requires Merged(bulk[..], was, quorum, stride, len, i)
      modifies bulk
      ensures Merged(bulk[..], was, quorum, stride, len, i + 1)
    {
      ghost var before, after := Maxima(was, quorum, stride, len, i), Maxima(was, quorum, stride, len, i + 1);
      var acc, src := quorum[0] * stride, quorum[i] * stride;
      SliceApart(bulk.Length, quorum, stride, len, i);
      RowMerges(was, quorum, stride, len, i);
      hide Fits, ColumnMax, Maxima, Spliced;
      MergeColumns(acc, src, was, before, after);
    }

    /** The inner loop, off the slice at src into the one at acc. */
    method MergeColumns(acc: nat, src: nat, ghost was: seq<Register>, ghost before: seq<Register>, ghost after: seq<Register>)
      requires |was| == bulk.Length && acc + len <= bulk.Length && src + len <= bulk.Length && |before| == |after| == len
      requires acc + len <= src || src + len <= acc
      requires RowMerged(before, was[src..src + len], after) && Spliced(bulk[..], was, acc, before)
      modifies bulk
      ensures Spliced(bulk[..], was, acc, after)
    {
      hide Spliced;
      ghost var slice := before;
      for off := 0 to len
        invariant |slice| == len && Spliced(bulk[..], was, acc, slice)
        invariant slice[..off] == after[..off] && slice[off..] == before[off..]
      {
        SplicedAt(bulk[..], was, acc, slice, acc + off);
        SplicedAt(bulk[..], was, acc, slice, src + off);
        assert slice[off..][0] == before[off..][0] && was[src..src + len][off] == was[src + off];
        SplicedUpdate(bulk[..], was, acc, slice, off, after[off]);
        SliceStep(slice, before, after, off);
        ghost var next := bulk[..][acc + off := after[off]];
        slice := slice[off := after[off]];
        if bulk[acc + off].Less(bulk[src + off]) {
          bulk[acc + off] := bulk[src + off];
        }
        assert bulk[..] == next;
      }
      assert slice[..len] == slice && after[..len] == after;
    }

    method MergeAll()
      requires Valid()
      modifies bulk
      ensures Merged(bulk[..], old(bulk[..]), quorum, stride, len, |quorum|)
    {
      hide Merged, Fits;
      ghost var was := bulk[..];
      FirstColumn(was, quorum, stride, len);
      for i := 1 to |quorum|
        invariant Merged(bulk[..], was, quorum, stride, len, i)
      {
        MergeSlice(i, was);
      }
    }

    /** Every answer is in: each key's result is the greatest register its quorum returned. */
    method FinishReading()
      requires Valid()
      modifies this`results, this`cache, bulk
      ensures var best := Maxima(old(bulk[..]), quorum, stride, len, |quorum|);
              && results == Values(best)
              && cache == CachedIf(cacheOn, old(cache), startKey, best, len)
      ensures |results| == len && forall o :: 0 <= o < len ==> Greatest(old(bulk[..]), quorum, stride, len, o, results[o])
      ensures cacheOn ==> forall k :: startKey <= k < startKey + len ==>
                k in cache && Greatest(old(bulk[..]), quorum, stride, len, k - startKey, cache[k].value)
      ensures forall k :: !(cacheOn && startKey <= k < startKey + len) ==>
                (k in cache <==> k in old(cache)) && (k in cache ==> cache[k] == old(cache)[k])
    {
      EveryGreatest(bulk[..], quorum, stride, len);
      CachedAll(cacheOn, cache, startKey, Maxima(bulk[..], quorum, stride, len, |quorum|));
      ghost var best := Maxima(bulk[..], quorum, stride, len, |quorum|);
      MergeAll();
      SliceBounds(bulk.Length, quorum, stride, len, 0);
      MergedSlice(bulk[..], old(bulk[..]), quorum, stride, len);
      hide Maxima, Merged, Fits, ColumnMax, CachedIf, Greatest;
      Extract(quorum[0] * stride, best);
    }

    method Extract(acc: nat, ghost best: seq<Register>)
      requires acc + len <= bulk.Length && bulk[acc..acc + len] == best
      modifies this`results, this`cache
      ensures results == Values(best) && cache == CachedIf(cacheOn, old(cache), startKey, best, len)
    {
      hide CachedIf;
      CachedNone(cacheOn, cache, startKey, best);
      results := seq(len, _ => 0);
      for off := 0 to len
        invariant |results| == len
        invariant forall o :: 0 <= o < off ==> results[o] == best[o].value
        invariant cache == CachedIf(cacheOn, old(cache), startKey, best, off)
      {
        var reg := bulk[acc + off];
        assert reg == best[off];
        CachedMore(cacheOn, old(cache), startKey, best, off);
        results := results[off := reg.value];
        if cacheOn { cache := cache[startKey + off := reg]; }
      }
    }
  }

  lemma {:induction false} MergedSlice(bulk: seq<Register>, was: seq<Register>, quorum: seq<nat>, stride: nat, len: nat)
    requires Fits(|was|, quorum, stride, len) && |quorum| > 0 && Merged(bulk, was, quorum, stride, len, |quorum|)
    ensures var acc := quorum[0] * stride;
            acc + len <= |bulk| && bulk[acc..acc + len] == Maxima(was, quorum, stride, len, |quorum|)
  {}

  function Values(regs: seq<Register>): seq<nat> {
    seq(|regs|, i requires 0 <= i < |regs| => regs[i].value)
  }

  /** The cache after the first n registers of a range were put into it. */
  function CachedFrom(cache: map<nat, Register>, key: nat, regs: seq<Register>, n: nat): (r: map<nat, Register>)
    requires n <= |regs|
    ensures forall k :: k in r <==> k in cache || key <= k < key + n
    ensures forall k :: k in r ==> r[k] == if key <= k < key + n then regs[k - key] else cache[k]
  {
    if n == 0 then cache else CachedFrom(cache, key, regs, n - 1)[key + n - 1 := regs[n - 1]]
  }

  function CachedIf(on: bool, cache: map<nat, Register>, key: nat, regs: seq<Register>, n: nat): map<nat, Register>
    requires n <= |regs|
  {
    if on then CachedFrom(cache, key, regs, n) else cache
  }

  lemma {:induction false} CachedNone(on: bool, cache: map<nat, Register>, key: nat, regs: seq<Register>)
    ensures CachedIf(on, cache, key, regs, 0) == cache
  {}

  lemma {:induction false} CachedMore(on: bool, cache: map<nat, Register>, key: nat, regs: seq<Register>, n: nat)
    requires n < |regs|
    ensures var c := CachedIf(on, cache, key, regs, n);
            CachedIf(on, cache, key, regs, n + 1) == if on then c[key + n := regs[n]] else c
  {}

  lemma {:induction false} SliceBounds(size: nat, quorum: seq<nat>, stride: nat, len: nat, i: nat)
    requires Fits(size, quorum, stride, len) && i < |quorum|
    ensures quorum[0] * stride + len <= size && quorum[i] * stride + len <= size
  {}

  lemma {:induction false} SliceApart(size: nat, quorum: seq<nat>, stride: nat, len: nat, i: nat)
    requires Fits(size, quorum, stride, len) && 0 < i < |quorum|
    ensures var acc, src := quorum[0] * stride, quorum[i] * stride;
            acc + len <= size && src + len <= size && (acc + len <= src || src + len <= acc)
  {
    Apart(quorum[0], quorum[i], stride);
  }

  /** A row of answers merged into running maxima. */
  ghost predicate RowMerged(before: seq<Register>, row: seq<Register>, after: seq<Register>) {
    && |before| == |row| == |after|
    && forall o :: 0 <= o < |after| ==> after[o] == if before[o].Less(row[o]) then row[o] else before[o]
  }

  lemma {:induction false} RowMerges(bulk: seq<Register>, quorum: seq<nat>, stride: nat, len: nat, n: nat)
    requires Fits(|bulk|, quorum, stride, len) && 1 <= n < |quorum|
    ensures var src := quorum[n] * stride;
            src + len <= |bulk| && RowMerged(Maxima(bulk, quorum, stride, len, n), bulk[src..src + len], Maxima(bulk, quorum, stride, len, n + 1))
  {
    var before, after := Maxima(bulk, quorum, stride, len, n), Maxima(bulk, quorum, stride, len, n + 1);
    var src := quorum[n] * stride;
    var row := bulk[src..src + len];
    forall o | 0 <= o < len ensures after[o] == if before[o].Less(row[o]) then row[o] else before[o] {
      ColumnGrows(bulk, quorum, stride, len, n, o);
      assert row[o] == Cell(bulk, quorum, stride, n, o);
    }
  }

  lemma {:induction false} SliceStep(slice: seq<Register>, before: seq<Register>, after: seq<Register>, o: nat)
    requires |slice| == |before| == |after| && o < |slice| && slice[..o] == after[..o] && slice[o..] == before[o..]
    ensures slice[o := after[o]][..o + 1] == after[..o + 1] && slice[o := after[o]][o + 1..] == before[o + 1..]
  {
    assert slice[o + 1..] == slice[o..][1..] && before[o + 1..] == before[o..][1..];
    assert after[..o + 1] == after[..o] + [after[o]];
  }

  lemma {:induction false} FirstColumn(bulk: seq<Register>, quorum: seq<nat>, stride: nat, len: nat)
    requires Fits(|bulk|, quorum, stride, len) && |quorum| > 0
    ensures Merged(bulk, bulk, quorum, stride, len, 1)
  {
    var acc := quorum[0] * stride;
    var slice := Maxima(bulk, quorum, stride, len, 1);
    assert bulk[acc..acc + len] == slice;
    assert bulk == bulk[..acc] + bulk[acc..acc + len] + bulk[acc + len..];
  }

  /** What the merge keeps is one of the answers, and no answer is above it. */
  lemma {:induction false} ColumnMaxIsMaximum(bulk: seq<Register>, quorum: seq<nat>, stride: nat, len: nat, off: nat)
    requires Fits(|bulk|, quorum, stride, len) && off < len && |quorum| > 0
    ensures var m := ColumnMax(bulk, quorum, stride, len, |quorum|, off);
            && (exists i :: 0 <= i < |quorum| && Cell(bulk, quorum, stride, i, off) == m)
            && forall i :: 0 <= i < |quorum| ==> !m.Less(Cell(bulk, quorum, stride, i, off))
  {
    var m, c := ColumnMax(bulk, quorum, stride, len, |quorum|, off), Column(bulk, quorum, stride, len, |quorum|, off);
    if m == Cell(bulk, quorum, stride, 0, off) {
    } else {
      var k :| 0 <= k < |c| && c[k] == m;
      assert Cell(bulk, quorum, stride, k + 1, off) == m;
    }
    forall i | 0 <= i < |quorum| ensures !m.Less(Cell(bulk, quorum, stride, i, off)) {
      if i > 0 { assert c[i - 1] == Cell(bulk, quorum, stride, i, off); }
    }
  }
}
