/** A pool of equally spaced chunks in a buffer, with its free chunks linked through the chunks
    themselves, and an arena that cuts a buffer into pools. Addresses are numbers; null is 0. */
module Pools {
  import opened Sets

  /** The least multiple of m at or above n. For a power of two the source computes it by masking. */
  function RoundUp(n: nat, m: nat): nat
    requires m > 0
  {
    (n + m - 1) / m * m
  }

  ghost predicate Multiple(n: nat, m: nat) {
    exists q: nat :: IsTimes(n, q, m)
  }

  predicate IsTimes(n: nat, q: nat, m: nat) {
    n == q * m
  }

  lemma {:induction false} RoundUpMeans(n: nat, m: nat)
    requires m > 0
    ensures n <= RoundUp(n, m) < n + m && Multiple(RoundUp(n, m), m)
  {
    var q := (n + m - 1) / m;
    assert n + m - 1 == q * m + (n + m - 1) % m;
    assert IsTimes(RoundUp(n, m), q, m);
  }

  lemma {:induction false} TimesGrows(i: nat, j: nat, m: nat)
    requires i <= j
    ensures i * m <= j * m && (i < j ==> i * m + m <= j * m)
    decreases j - i
  {
    if i < j {
      TimesGrows(i, j - 1, m);
      assert j * m == (j - 1) * m + m;
    }
  }

  /** header is where the object sits in a chunk of chunkSize bytes. */
  datatype Layout = Layout(header: nat, chunkSize: nat, alignment: nat) {
    ghost predicate Valid() {
      header < chunkSize && alignment > 0
    }

    function Stride(): nat
      requires alignment > 0
    {
      RoundUp(chunkSize, alignment)
    }

    function TrueStart(start: nat): int
      requires alignment > 0
    {
      RoundUp(start + header, alignment) - header
    }

    function ChunkStart(first: nat, i: nat): nat
      requires alignment > 0
    {
      first + i * Stride()
    }

    /** The last byte of the last chunk, or the start when there is none. */
    function TrueEnd(first: nat, objects: nat): nat
      requires alignment > 0 && chunkSize > 0
    {
      if objects == 0 then first else ChunkStart(first, objects - 1) + chunkSize - 1
    }

    /** Room for the objects when the start happens to be aligned. */
    function SpaceRequired(objects: nat): nat
      requires alignment > 0 && chunkSize > 0
    {
      if objects == 0 then 0 else TrueEnd(0, objects) + 1
    }

    /** Room for the objects whatever the start. */
    function AlignedSpaceRequirement(objects: nat): nat
      requires alignment > 0 && chunkSize > 0
    {
      SpaceRequired(objects) + alignment + header
    }

    /** The two checks of the constructor. */
    predicate Accepts(start: nat, size: nat, objects: nat)
      requires Valid()
    {
      TrueStart(start) >= 0 && TrueStart(start) < start + size && TrueEnd(TrueStart(start), objects) < start + size
    }
  }

  lemma {:induction false} TrueStartMeans(l: Layout, start: nat)
    requires l.Valid()
    ensures start <= l.TrueStart(start) < start + l.alignment && Multiple(l.TrueStart(start) + l.header, l.alignment)
  {
    RoundUpMeans(start + l.header, l.alignment);
  }

  /** Chunks are as close as their alignment lets them be, and a pool starts at the first place that aligns its
      first object. It is accepted exactly if its last byte, or without objects its start, lies in the buffer. */
  lemma {:induction false} PlacedTightly(l: Layout, start: nat, size: nat, objects: nat)
    requires l.Valid()
    ensures l.chunkSize <= l.Stride() < l.chunkSize + l.alignment && Multiple(l.Stride(), l.alignment)
    ensures start <= l.TrueStart(start) < start + l.alignment && Multiple(l.TrueStart(start) + l.header, l.alignment)
    ensures l.Accepts(start, size, objects) <==>
              l.TrueStart(start) + (if objects == 0 then 1 else (objects - 1) * l.Stride() + l.chunkSize) <= start + size
    ensures l.AlignedSpaceRequirement(objects)
            == l.alignment + l.header + (if objects == 0 then 0 else (objects - 1) * l.Stride() + l.chunkSize)
  {
    RoundUpMeans(l.chunkSize, l.alignment);
    TrueStartMeans(l, start);
    if objects > 0 { TimesGrows(0, objects - 1, l.Stride()); }
  }

  /** A buffer of the advertised size is accepted wherever it starts. */
  lemma {:induction false} AdvertisedSizeFits(l: Layout, start: nat, objects: nat)
    requires l.Valid()
    ensures l.Accepts(start, l.AlignedSpaceRequirement(objects), objects)
  {
    TrueStartMeans(l, start);
  }

  /** Chunks follow each other without overlap, their objects aligned. */
  lemma {:induction false} ChunksApart(l: Layout, first: nat, i: nat, j: nat)
    requires l.Valid() && i < j
    ensures l.ChunkStart(first, i) + l.chunkSize <= l.ChunkStart(first, j)
  {
    RoundUpMeans(l.chunkSize, l.alignment);
    TimesGrows(i, j, l.Stride());
  }

  lemma {:induction false} ChunkAligned(l: Layout, first: nat, i: nat)
    requires l.Valid() && Multiple(first + l.header, l.alignment)
    ensures Multiple(l.ChunkStart(first, i) + l.header, l.alignment)
  {
    RoundUpMeans(l.chunkSize, l.alignment);
    var q: nat :| IsTimes(first + l.header, q, l.alignment);
    var p: nat :| IsTimes(l.Stride(), p, l.alignment);
    Distribute(q, i, p, l.alignment);
    assert IsTimes(l.ChunkStart(first, i) + l.header, q + i * p, l.alignment);
  }

  lemma {:induction false} Distribute(q: nat, i: nat, p: nat, m: nat)
    ensures (q + i * p) * m == q * m + i * (p * m)
  {}

  class PoolAllocator {
    const layout: Layout
    const first: nat
    const objects: nat
    const limit: nat

    /** The link of each chunk, by chunk number; a link is a chunk number plus one, or zero for none. */
    var links: seq<nat>
    var next: nat

    ghost var free: seq<nat>
    ghost var live: set<nat>

    /** The links spell out the free list, and free and live chunks together are all chunks, each once. */
    ghost predicate Valid()
      reads this
    {
      && PlaceOk(layout, first, objects, limit) && |links| == objects
      && Chain(links, next, free) && Distinct(free)
      && (forall c :: c in free ==> c < objects && c !in live)
      && (forall c :: c in live ==> c < objects)
      && (forall c: nat :: c < objects ==> c in free || c in live)
    }

    constructor (layout: Layout, start: nat, size: nat, objects: nat)
      requires layout.Valid() && layout.Accepts(start, size, objects)
      ensures Valid() && live == {} && |free| == objects && forall k :: 0 <= k < objects ==> free[k] == k
      ensures first == layout.TrueStart(start)
      ensures this.layout == layout && this.objects == objects && limit == start + size && start <= first
    {
      TrueStartMeans(layout, start);
      this.layout, this.first, this.objects, this.limit := layout, layout.TrueStart(start), objects, start + size;
      this.links := seq(objects, i => 0);
      this.next, this.live, this.free := 0, {}, [];
      new;
      Initialize();
    }

    method Initialize()
      requires PlaceOk(layout, first, objects, limit) && |links| == objects && next == 0 && free == [] && live == {}
      modifies this
      ensures Valid() && live == {} && |free| == objects && forall k :: 0 <= k < objects ==> free[k] == k
    {
      if objects == 0 { return; }
      hide PlaceOk, Chain, Distinct;
      next := 1;
      LinkAll();
      free := seq(objects, i => i);
      FreshChain(links, free);
    }

    /** Links every chunk to its successor. */
    method LinkAll()
      requires |links| == objects > 0
      modifies this`links
      ensures |links| == objects && links[objects - 1] == 0 && forall k :: 0 <= k < objects - 1 ==> links[k] == k + 2
    {
      links := links[objects - 1 := 0];
      for i := 0 to objects - 1
        invariant |links| == objects && links[objects - 1] == 0
        invariant forall k :: 0 <= k < i ==> links[k] == k + 2
      {
        links := links[i := i + 2];
      }
    }

    /** Hands out the first free chunk, or none. */
    method Create() returns (chunk: nat, ok: bool)
      requires Valid()
      modifies this`next, this`free, this`live
      ensures Valid() && (ok <==> old(free) != [])
      ensures ok ==> chunk == old(free)[0] && chunk !in old(live) && live == old(live) + {chunk} && free == old(free)[1..]
      ensures !ok ==> live == old(live) && free == old(free)
    {
      hide PlaceOk;
      if next == 0 { return 0, false; }
      PopChain(links, next, free);
      chunk, ok := next - 1, true;
      next := links[chunk];
      live, free := live + {chunk}, free[1..];
    }

    /** Takes a live chunk back. */
    method Destroy(chunk: nat)
      requires Valid() && chunk in live
      modifies this`next, this`free, this`live, this`links
      ensures Valid() && live == old(live) - {chunk} && free == [chunk] + old(free)
    {
      hide PlaceOk;
      PushChain(links, next, free, chunk);
      links := links[chunk := next];
      next := chunk + 1;
      live, free := live - {chunk}, [chunk] + free;
    }

    /** A live object is aligned and its chunk lies inside the buffer. */
    lemma {:induction false} LiveObject(a: nat)
      requires Valid() && a in live
      ensures var p := layout.ChunkStart(first, a);
              Multiple(p + layout.header, layout.alignment) && first <= p && p + layout.chunkSize <= limit
    {
      ChunkAligned(layout, first, a);
      TimesGrows(a, objects - 1, layout.Stride());
    }

    /** Two live objects do not overlap. */
    lemma {:induction false} LiveObjectsApart(a: nat, b: nat)
      requires Valid() && a in live && b in live && a < b
      ensures layout.ChunkStart(first, a) + layout.chunkSize <= layout.ChunkStart(first, b)
    {
      ChunksApart(layout, first, a, b);
    }

    /** Nothing is lost: the live chunks and the free ones always add up to all of them. */
    lemma {:induction false} NothingLost()
      requires Valid()
      ensures |live| + |free| == objects
    {
      PartsAddUp(free, live, objects);
    }
  }

  ghost predicate PlaceOk(layout: Layout, first: nat, objects: nat, limit: nat) {
    && layout.Valid() && Multiple(first + layout.header, layout.alignment)
    && layout.TrueEnd(first, objects) < limit
  }

  ghost predicate Chain(links: seq<nat>, head: nat, free: seq<nat>) {
    && (forall k :: 0 <= k < |free| ==> free[k] < |links|)
    && head == (if free == [] then 0 else free[0] + 1)
    && forall k :: 0 <= k < |free| ==> links[free[k]] == if k + 1 < |free| then free[k + 1] + 1 else 0
  }

  lemma {:induction false} PopChain(links: seq<nat>, head: nat, free: seq<nat>)
    requires Chain(links, head, free) && Distinct(free) && head > 0
    ensures free != [] && free[0] == head - 1 < |links| && Chain(links, links[head - 1], free[1..]) && Distinct(free[1..])
    ensures free[0] !in free[1..] && forall c :: c in free <==> c == free[0] || c in free[1..]
  {
    assert forall k :: 0 <= k < |free[1..]| ==> free[1..][k] == free[k + 1];
    assert free == [free[0]] + free[1..];
  }

  lemma {:induction false} PushChain(links: seq<nat>, head: nat, free: seq<nat>, c: nat)
    requires Chain(links, head, free) && Distinct(free) && c < |links| && c !in free
    ensures Chain(links[c := head], c + 1, [c] + free) && Distinct([c] + free)
  {
    var f := [c] + free;
    assert forall k :: 0 < k < |f| ==> f[k] == free[k - 1];
    assert forall k :: 0 <= k < |free| ==> free[k] != c;
    forall k | 0 <= k < |f| ensures links[c := head][f[k]] == if k + 1 < |f| then f[k + 1] + 1 else 0 {
      if k > 0 { assert f[k] == free[k - 1]; }
    }
  }

  ghost predicate Distinct(s: seq<nat>) {
    forall i, j :: 0 <= i < j < |s| ==> s[i] != s[j]
  }

  function Members(s: seq<nat>): (r: set<nat>)
    ensures forall c :: c in r <==> c in s
  {
    set c | c in s
  }

  lemma {:induction false} MembersSize(s: seq<nat>)
    requires Distinct(s)
    ensures |Members(s)| == |s|
  {
    if s == [] {
      assert Members(s) == {};
    } else {
      var init, last := s[..|s| - 1], s[|s| - 1];
      assert forall i :: 0 <= i < |init| ==> init[i] == s[i];
      assert s == init + [last];
      MembersSize(init);
      assert Members(s) == Members(init) + {last};
    }
  }

  lemma {:induction false} PartsAddUp(free: seq<nat>, live: set<nat>, n: nat)
    requires Distinct(free) && (forall c :: c in free ==> c < n && c !in live) && (forall c :: c in live ==> c < n)
    requires forall c: nat :: c < n ==> c in free || c in live
    ensures |live| + |free| == n
  {
    MembersSize(free);
    assert live !! Members(free);
    assert live + Members(free) == UpTo(n);
  }

  lemma {:induction false} FreshChain(links: seq<nat>, free: seq<nat>)
    requires |links| == |free| > 0 && (forall k :: 0 <= k < |links| - 1 ==> links[k] == k + 2) && links[|links| - 1] == 0
    requires forall k :: 0 <= k < |free| ==> free[k] == k
    ensures Chain(links, 1, free) && Distinct(free)
    ensures forall c: nat :: c in free <==> c < |free|
  {
    forall c: nat | c < |free| ensures c in free { assert free[c] == c; }
  }

  lemma {:induction false} EndAfterStart(l: Layout, first: nat, objects: nat)
    requires l.Valid()
    ensures first <= l.TrueEnd(first, objects)
  {
    if objects > 0 { TimesGrows(0, objects - 1, l.Stride()); }
  }

  class ArenaPoolAllocator {
    var bufNext: nat
    var bufSize: nat

    /** First and last byte of every pool made so far, in the order they were made. */
    ghost var taken: seq<(nat, nat)>

    ghost predicate Valid()
      reads this
    {
      && (forall i :: 0 <= i < |taken| ==> taken[i].0 <= taken[i].1 < bufNext)
      && forall i, j :: 0 <= i < j < |taken| ==> taken[i].1 < taken[j].0
    }

    constructor (start: nat, size: nat)
      ensures Valid() && bufNext == start && bufSize == size && taken == []
    {
      bufNext, bufSize, taken := start, size, [];
    }

    /** Cuts a pool off the front of what remains, if it fits. No two pools overlap, and the end of the
        buffer stays where it was. */
    method CreatePool(layout: Layout, objects: nat) returns (first: nat, ok: bool)
      requires Valid() && layout.Valid()
      modifies this
      ensures Valid() && bufNext + bufSize == old(bufNext) + old(bufSize) && bufNext >= old(bufNext)
      ensures ok <==> layout.Accepts(old(bufNext), old(bufSize), objects)
      ensures ok ==> old(bufNext) <= first < old(bufNext) + layout.alignment && Multiple(first + layout.header, layout.alignment)
      ensures ok ==> bufNext == first + (if objects == 0 then 1 else (objects - 1) * layout.Stride() + layout.chunkSize)
      ensures ok ==> taken == old(taken) + [(first, bufNext - 1)]
      ensures !ok ==> taken == old(taken) && bufNext == old(bufNext)
    {
      TrueStartMeans(layout, bufNext);
      EndAfterStart(layout, layout.TrueStart(bufNext), objects);
      hide RoundUp, Multiple;
      if !layout.Accepts(bufNext, bufSize, objects) { return 0, false; }
      first := layout.TrueStart(bufNext);
      ok := true;
      var end := layout.TrueEnd(first, objects);
      bufSize := bufNext + bufSize - (end + 1);
      bufNext := end + 1;
      taken := taken + [(first, end)];
    }
  }
}
