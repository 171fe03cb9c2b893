/** The structure's own debug checks. Everything the other modules keep is accepted by them. */
module SkipCheck {
  import opened SkipVectors
  import opened SkipLayers
  import opened SkipOps
  import opened SkipSearch

  /** A vector's own check: within capacity, keys strictly increasing. */
  method VerifyVector(es: seq<Entry>, cap: nat) returns (ok: bool)
    ensures ok <==> |es| <= cap && Sorted(es)
  {
    if cap < |es| { return false; }
    var i := 1;
    while i < |es|
      invariant 1 <= i && (i <= |es| || |es| == 0) && (i <= |es| ==> Sorted(es[..i]))
    {
      if es[i].key <= es[i - 1].key { return false; }
      Extends(es, i);
      i := i + 1;
    }
    assert es[..|es|] == es;
    ok := true;
  }

  lemma {:induction false} Extends(es: seq<Entry>, i: nat)
    requires 0 < i < |es| && Sorted(es[..i]) && es[i - 1].key < es[i].key
    ensures Sorted(es[..i + 1])
  {
    var s := es[..i + 1];
    forall a, b | 0 <= a < b < |s| ensures s[a].key < s[b].key {
      if b < i {
        assert es[..i][a].key < es[..i][b].key;
      } else {
        assert a < i - 1 ==> es[..i][a].key < es[..i][i - 1].key;
      }
    }
  }

  /** Any two nodes of a well-formed layer: entries in order, and each vector fine by itself. */
  lemma {:induction false} NodesInOrder(layer: seq<Node>, a: nat, b: nat, cap: nat)
    requires LayerOk(layer, cap) && a < b < |layer|
    ensures NodeOk(layer[a], cap) && Sorted(layer[a].entries)
    ensures layer[a].entries != [] && layer[b].entries != [] ==>
      layer[a].entries[|layer[a].entries| - 1].key < layer[b].entries[0].key
  {
    FlatReplace(layer, a, []);
    SortedParts(Flat(layer[..a]) + layer[a].entries, Flat(layer[a + 1..]));
    SortedParts(Flat(layer[..a]), layer[a].entries);
    if layer[a].entries != [] && layer[b].entries != [] {
      var e, rest := layer[b].entries[0], layer[a + 1..];
      assert rest[b - a - 1] == layer[b];
      FlatMember(rest, e);
      var left := Flat(layer[..a]) + layer[a].entries;
      assert left[|left| - 1] == layer[a].entries[|layer[a].entries| - 1];
    }
  }

  lemma {:induction false} LastNode(layer: seq<Node>, a: nat, cap: nat)
    requires LayerOk(layer, cap) && a < |layer|
    ensures NodeOk(layer[a], cap) && Sorted(layer[a].entries)
  {
    FlatReplace(layer, a, []);
    SortedParts(Flat(layer[..a]) + layer[a].entries, Flat(layer[a + 1..]));
    SortedParts(Flat(layer[..a]), layer[a].entries);
  }

  function FirstKey(n: Node): int
    requires n.entries != []
  {
    n.entries[0].key
  }

  function LastKey(n: Node): int
    requires n.entries != []
  {
    n.entries[|n.entries| - 1].key
  }

  /** What the check of one layer accepts: vectors fine by themselves, empty nodes orphans but for a head with
      nothing after it, and keys that do not fall from one node to a later one. */
  ghost predicate LayerPasses(layer: seq<Node>, cap: nat)
    requires |layer| > 0
  {
    && (forall i :: 0 <= i < |layer| ==> |layer[i].entries| <= cap && Sorted(layer[i].entries))
    && (forall i :: 1 <= i < |layer| && layer[i].entries == [] ==> layer[i].orphan)
    && (layer[0].entries == [] && !layer[0].orphan ==> forall i :: 1 <= i < |layer| ==> layer[i].entries == [])
    && forall a, b :: 0 <= a < b < |layer| && layer[a].entries != [] && layer[b].entries != [] ==>
         LastKey(layer[a]) <= FirstKey(layer[b])
  }

  lemma {:induction false} GoodPasses(layer: seq<Node>, cap: nat)
    requires |layer| > 0 && LayerOk(layer, cap)
    ensures LayerPasses(layer, cap)
  {
    forall i | 0 <= i < |layer| ensures |layer[i].entries| <= cap && Sorted(layer[i].entries) { LastNode(layer, i, cap); }
    forall a, b | 0 <= a < b < |layer| && layer[a].entries != [] && layer[b].entries != []
      ensures LastKey(layer[a]) <= FirstKey(layer[b])
    {
      NodesInOrder(layer, a, b, cap);
    }
  }

  /** LayerPasses, of the nodes before curr, and of their order up to it. */
  ghost predicate PassesUpTo(layer: seq<Node>, cap: nat, curr: nat)
    requires |layer| > 0 && curr <= |layer|
  {
    && (forall i :: 0 <= i < curr ==> |layer[i].entries| <= cap && Sorted(layer[i].entries))
    && (forall i :: 1 <= i < curr && layer[i].entries == [] ==> layer[i].orphan)
    && (layer[0].entries == [] && !layer[0].orphan ==> forall i :: 1 <= i <= curr && i < |layer| ==> layer[i].entries == [])
    && forall a, b :: 0 <= a < b <= curr && b < |layer| && layer[a].entries != [] && layer[b].entries != [] ==>
         LastKey(layer[a]) <= FirstKey(layer[b])
  }

  /** The next node with entries follows in order. */
  lemma {:induction false} PassesOn(layer: seq<Node>, cap: nat, curr: nat, next: nat)
    requires |layer| > 0 && curr < next <= |layer| && PassesUpTo(layer, cap, curr)
    requires |layer[curr].entries| <= cap && Sorted(layer[curr].entries)
    requires forall i :: curr < i < next ==> layer[i].entries == [] && layer[i].orphan
    requires curr > 0 ==> layer[curr].entries != []
    requires next < |layer| ==> layer[next].entries != [] && if layer[curr].entries == [] then layer[curr].orphan
                                                             else LastKey(layer[curr]) <= FirstKey(layer[next])
    ensures PassesUpTo(layer, cap, next)
  {
    if layer[curr].entries != [] { FirstBeforeLast(layer[curr].entries); }
    forall a, b | 0 <= a < b <= next && b < |layer| && layer[a].entries != [] && layer[b].entries != []
      ensures LastKey(layer[a]) <= FirstKey(layer[b])
    {
      if b > curr { assert b == next && a <= curr; }
    }
  }

  lemma {:induction false} FirstBeforeLast(es: seq<Entry>)
    requires es != [] && Sorted(es)
    ensures es[0].key <= es[|es| - 1].key
  {}

  /** The check of one layer by itself. */
  method VerifyLayer(layer: seq<Node>, cap: nat) returns (ok: bool)
    requires |layer| > 0
    ensures ok <==> LayerPasses(layer, cap)
    ensures LayerOk(layer, cap) ==> ok
  {
    hide Flat, Sorted;
    if LayerOk(layer, cap) { GoodPasses(layer, cap); }
    var curr := 0;
    while curr < |layer|
      invariant curr <= |layer| && PassesUpTo(layer, cap, curr) && (0 < curr < |layer| ==> layer[curr].entries != [])
    {
      var v := VerifyVector(layer[curr].entries, cap);
      if !v { return false; }
      var next, allEmpty := SkipEmpty(layer, curr + 1);
      if !allEmpty { return false; }
      if next < |layer| {
        if layer[curr].entries == [] {
          if !layer[curr].orphan { return false; }
        } else if layer[curr].entries[|layer[curr].entries| - 1].key > layer[next].entries[0].key {
          assert LastKey(layer[curr]) > FirstKey(layer[next]);
          return false;
        }
      }
      PassesOn(layer, cap, curr, next);
      curr := next;
    }
    ok := true;
  }

  /** Passes over empty nodes, which must be orphans. */
  method SkipEmpty(layer: seq<Node>, start: nat) returns (next: nat, ok: bool)
    requires start <= |layer|
    ensures start <= next <= |layer| && (ok && next < |layer| ==> layer[next].entries != [])
    ensures ok ==> forall i :: start <= i < next ==> layer[i].entries == [] && layer[i].orphan
    ensures !ok ==> next < |layer| && layer[next].entries == [] && !layer[next].orphan
  {
    next := start;
    while next < |layer| && layer[next].entries == []
      invariant start <= next <= |layer| && forall i :: start <= i < next ==> layer[i].entries == [] && layer[i].orphan
    {
      if !layer[next].orphan { return next, false; }
      next := next + 1;
    }
    ok := true;
  }

  // ---------- an index layer against the layer below ----------

  /** Where the trace through the lower layer stands when the first n entries above have been matched. */
  ghost predicate Traced(lower: seq<Node>, trace: nat, flat: seq<Entry>, n: nat) {
    trace <= |lower| && n <= |flat| && Targets(lower[..trace]) == flat[..n]
  }

  lemma {:induction false} TraceStep(lower: seq<Node>, trace: nat, flat: seq<Entry>, n: nat)
    requires Traced(lower, trace, flat, n) && n < |flat| && flat == Targets(lower)
    ensures trace < |lower|
    ensures Target(lower[trace]) == [] ==> Traced(lower, trace + 1, flat, n)
    ensures Target(lower[trace]) != [] ==> Target(lower[trace]) == [flat[n]] && Traced(lower, trace + 1, flat, n + 1)
  {
    NotAtEnd(lower, trace, flat, n);
    FlatReplace(lower, trace, []);
    FlatNext(lower, trace);
    var a, t, c := Targets(lower[..trace]), Target(lower[trace]), Targets(lower[trace + 1..]);
    hide Targets, Flat, Target;
    if t != [] { TraceExtends(a, t, c, flat, n); } else { assert a + t == a; }
  }

  lemma {:induction false} NotAtEnd(lower: seq<Node>, trace: nat, flat: seq<Entry>, n: nat)
    requires Traced(lower, trace, flat, n) && n < |flat| && flat == Targets(lower)
    ensures trace < |lower|
  {
    WholeSlice(lower);
  }

  lemma {:induction false} TraceExtends(a: seq<Entry>, t: seq<Entry>, c: seq<Entry>, flat: seq<Entry>, n: nat)
    requires flat == a + t + c && n < |flat| && a == flat[..n] && t != [] && |t| <= 1
    ensures t == [flat[n]] && a + t == flat[..n + 1]
  {}

  /** From start the next node with the entry's id is m, past orphans only, and it is a non-orphan that starts with
      the entry's key. */
  ghost predicate Reaches(lower: seq<Node>, start: nat, e: Entry, m: nat) {
    && start <= m < |lower| && lower[m].id == e.val
    && !lower[m].orphan && lower[m].entries != [] && lower[m].entries[0].key == e.key
    && forall i :: start <= i < m ==> lower[i].orphan && lower[i].id != e.val
  }

  function After(at: seq<nat>, n: nat): nat
    requires n <= |at|
  {
    if n == 0 then 0 else at[n - 1] + 1
  }

  /** One after the other, the first entries reach the nodes at these places. */
  ghost predicate Matched(lower: seq<Node>, flat: seq<Entry>, at: seq<nat>) {
    |at| <= |flat| && forall n :: 0 <= n < |at| ==> Reaches(lower, After(at, n), flat[n], at[n])
  }

  ghost predicate AllMatched(lower: seq<Node>, flat: seq<Entry>) {
    exists at :: |at| == |flat| && Matched(lower, flat, at)
  }

  lemma {:induction false} SamePlaces(lower: seq<Node>, flat: seq<Entry>, a: seq<nat>, b: seq<nat>, n: nat)
    requires Matched(lower, flat, a) && Matched(lower, flat, b) && n <= |a| && n <= |b|
    ensures After(a, n) == After(b, n)
  {
    hide Reaches;
    if n > 0 {
      SamePlaces(lower, flat, a, b, n - 1);
      OnlyPlace(lower, After(a, n - 1), flat[n - 1], a[n - 1], b[n - 1]);
    }
  }

  lemma {:induction false} OnlyPlace(lower: seq<Node>, start: nat, e: Entry, m: nat, m': nat)
    requires Reaches(lower, start, e, m) && Reaches(lower, start, e, m')
    ensures m == m'
  {}

  /** Where the next entry reaches nothing, the entries cannot all be matched. */
  lemma {:induction false} Stuck(lower: seq<Node>, flat: seq<Entry>, at: seq<nat>)
    requires Matched(lower, flat, at) && |at| < |flat|
    requires forall m :: !Reaches(lower, After(at, |at|), flat[|at|], m)
    ensures !AllMatched(lower, flat)
  {
    if b :| |b| == |flat| && Matched(lower, flat, b) {
      SamePlaces(lower, flat, at, b, |at|);
      assert Reaches(lower, After(b, |at|), flat[|at|], b[|at|]);
    }
  }

  lemma {:induction false} MatchOne(lower: seq<Node>, flat: seq<Entry>, at: seq<nat>, m: nat)
    requires Matched(lower, flat, at) && |at| < |flat| && Reaches(lower, After(at, |at|), flat[|at|], m)
    ensures Matched(lower, flat, at + [m])
  {
    hide Reaches;
    var b := at + [m];
    forall n | 0 <= n < |b| ensures Reaches(lower, After(b, n), flat[n], b[n]) {
      assert After(b, n) == After(at, n);
    }
  }

  /** Moves the trace to the node with the given id, past orphans only. */
  method FindDown(lower: seq<Node>, start: nat, e: Entry, ghost flat: seq<Entry>, ghost n: nat, cap: nat)
    returns (trace: nat, ok: bool)
    requires start <= |lower|
    ensures start <= trace <= |lower| && (ok ==> trace < |lower| && lower[trace].id == e.val)
    ensures ok ==> forall i :: start <= i < trace ==> lower[i].orphan && lower[i].id != e.val
    ensures !ok ==> forall m :: !Reaches(lower, start, e, m)
    ensures LayerOk(lower, cap) && flat == Targets(lower) && Traced(lower, start, flat, n) && n < |flat| && flat[n] == e ==>
      ok && Target(lower[trace]) == [e] && Traced(lower, trace + 1, flat, n + 1)
  {
    hide Targets, Flat;
    ghost var good := LayerOk(lower, cap) && flat == Targets(lower) && Traced(lower, start, flat, n) && n < |flat| && flat[n] == e;
    trace := start;
    while trace < |lower| && lower[trace].id != e.val
      invariant start <= trace <= |lower|
      invariant forall i :: start <= i < trace ==> lower[i].orphan && lower[i].id != e.val
      invariant good ==> Traced(lower, trace, flat, n)
    {
      if good { TraceStep(lower, trace, flat, n); assert NodeOk(lower[trace], cap); }
      if !lower[trace].orphan { return trace, false; }
      trace := trace + 1;
    }
    if trace == |lower| {
      if good { TraceStep(lower, trace, flat, n); }
      return trace, false;
    }
    if good { RightNode(lower, trace, flat, n, e); }
    ok := true;
  }

  /** The node with the awaited id is the one the trace was to find. */
  lemma {:induction false} RightNode(lower: seq<Node>, trace: nat, flat: seq<Entry>, n: nat, e: Entry)
    requires (forall i, j :: 0 <= i < j < |lower| ==> lower[i].id != lower[j].id)
    requires flat == Targets(lower) && Traced(lower, trace, flat, n) && n < |flat| && flat[n] == e
    requires trace < |lower| && lower[trace].id == e.val
    ensures Target(lower[trace]) == [e] && Traced(lower, trace + 1, flat, n + 1)
  {
    TargetIsEntry(lower, e);
    var i :| 0 <= i < |lower| && !lower[i].orphan && lower[i].entries != [] && e == Entry(lower[i].entries[0].key, lower[i].id);
    SameId(lower, i, trace);
    TraceStep(lower, trace, flat, n);
  }

  /** Checks every down pointer of an index layer: found in order, no orphan, starting with its key. */
  method VerifyIndex(upper: seq<Node>, lower: seq<Node>, cap: nat, cap': nat) returns (ok: bool)
    requires |upper| > 0 && |lower| > 0
    ensures ok <==> AllMatched(lower, Flat(upper)) && LayerPasses(upper, cap)
    ensures LayerOk(upper, cap) && LayerOk(lower, cap') && Flat(upper) == Targets(lower) ==> ok
  {
    hide Targets, Flat, LayerPasses, Matched, AllMatched;
    ghost var good := LayerOk(lower, cap') && Flat(upper) == Targets(lower);
    ghost var at: seq<nat> := [];
    var trace: nat := 0;
    Begun(upper, lower);
    if good { StartsTraced(upper, lower); }
    for curr := 0 to |upper|
      invariant trace == After(at, |at|) && |at| == |Flat(upper[..curr])| && Matched(lower, Flat(upper), at)
      invariant trace <= |lower| && (good ==> Traced(lower, trace, Flat(upper), |Flat(upper[..curr])|))
    {
      var v;
      v, trace, at := VerifyNode(upper, lower, curr, trace, cap', at);
      if !v { return false; }
    }
    assert upper[..|upper|] == upper;
    assert AllMatched(lower, Flat(upper)) by { Complete(lower, Flat(upper), at); }
    ok := VerifyLayer(upper, cap);
  }

  lemma {:induction false} Begun(upper: seq<Node>, lower: seq<Node>)
    ensures Matched(lower, Flat(upper), []) && |Flat(upper[..0])| == 0
  {
    assert upper[..0] == [];
  }

  lemma {:induction false} Complete(lower: seq<Node>, flat: seq<Entry>, at: seq<nat>)
    requires |at| == |flat| && Matched(lower, flat, at)
    ensures AllMatched(lower, flat)
  {}

  lemma {:induction false} StartsTraced(upper: seq<Node>, lower: seq<Node>)
    ensures Traced(lower, 0, Flat(upper), 0) && |Flat(upper[..0])| == 0
  {
    assert lower[..0] == [] && upper[..0] == [];
  }

  lemma {:induction false} NodeSlice(upper: seq<Node>, curr: nat)
    requires curr < |upper|
    ensures var n := |Flat(upper[..curr])|; var es := upper[curr].entries;
            && n + |es| == |Flat(upper[..curr + 1])| && n + |es| <= |Flat(upper)|
            && Flat(upper)[n..n + |es|] == es
  {
    FlatReplace(upper, curr, []);
    FlatNext(upper, curr);
    SliceAt(Flat(upper[..curr]), upper[curr].entries, Flat(upper[curr + 1..]));
    hide *;
  }

  lemma {:induction false} SliceAt(a: seq<Entry>, b: seq<Entry>, c: seq<Entry>)
    ensures (a + b + c)[|a|..|a| + |b|] == b && |a + b| == |a| + |b| <= |a + b + c|
  {}

  method VerifyNode(upper: seq<Node>, lower: seq<Node>, curr: nat, start: nat, cap: nat, ghost before: seq<nat>)
    returns (ok: bool, trace: nat, ghost at: seq<nat>)
    requires curr < |upper| && start == After(before, |before|) <= |lower|
    requires |before| == |Flat(upper[..curr])| && Matched(lower, Flat(upper), before)
    ensures trace <= |lower|
    ensures if ok then trace == After(at, |at|) && |at| == |Flat(upper[..curr + 1])| && Matched(lower, Flat(upper), at)
            else !AllMatched(lower, Flat(upper))
    ensures LayerOk(lower, cap) && Flat(upper) == Targets(lower) && Traced(lower, start, Flat(upper), |Flat(upper[..curr])|) ==>
      ok && Traced(lower, trace, Flat(upper), |Flat(upper[..curr + 1])|)
  {
    hide Targets, Flat, Matched, AllMatched;
    ghost var flat, n := Flat(upper), |Flat(upper[..curr])|;
    ghost var good := LayerOk(lower, cap) && flat == Targets(lower) && Traced(lower, start, flat, n);
    NodeSlice(upper, curr);
    trace, at := start, before;
    var es := upper[curr].entries;
    for j := 0 to |es|
      invariant trace == After(at, |at|) <= |lower| && |at| == n + j && Matched(lower, flat, at)
      invariant good ==> Traced(lower, trace, flat, n + j)
    {
      assert flat[n..n + |es|][j] == flat[n + j];
      var found, next;
      next, found := FindDown(lower, trace, es[j], flat, n + j, cap);
      if !found {
        Stuck(lower, flat, at);
        return false, next, at;
      }
      var down := lower[next];
      if down.orphan || down.entries == [] || es[j].key != down.entries[0].key {
        Stuck(lower, flat, at);
        return false, next, at;
      }
      MatchOne(lower, flat, at, next);
      trace, at := next + 1, at + [next];
    }
    ok := true;
  }

  /** The whole check, top down. As written its result is that of the lowest layer only; indexOk is what
      became of the checks of the index layers. */
  method Verify(levels: seq<seq<Node>>, caps: seq<nat>) returns (ok: bool, indexOk: bool)
    requires |levels| == |caps| >= 2 && forall l :: 0 <= l < |levels| ==> |levels[l]| > 0
    ensures ok <==> LayerPasses(levels[0], caps[0])
    ensures indexOk <==> forall l :: 0 < l < |levels| ==>
              AllMatched(levels[l - 1], Flat(levels[l])) && LayerPasses(levels[l], caps[l])
    ensures (exists nextId :: LayersOk(levels, caps, nextId)) && LinkedAbove(levels, 0) ==> ok && indexOk
  {
    hide Targets, Flat, LayerOk, LayerPasses, AllMatched;
    ghost var good := (exists nextId :: LayersOk(levels, caps, nextId)) && LinkedAbove(levels, 0);
    indexOk := true;
    var layer := |levels| - 1;
    while layer > 0
      invariant 0 <= layer < |levels| && (good ==> indexOk)
      invariant indexOk <==> forall l :: layer < l < |levels| ==>
                  AllMatched(levels[l - 1], Flat(levels[l])) && LayerPasses(levels[l], caps[l])
    {
      var v := VerifyIndex(levels[layer], levels[layer - 1], caps[layer], caps[layer - 1]);
      indexOk := indexOk && v;
      layer := layer - 1;
    }
    ok := VerifyLayer(levels[0], caps[0]);
  }

  /** A structure that passes although it is ill-formed: key 5 is stored in two nodes, and the index layer points
      to a node that does not exist. */
  lemma {:induction false} IllFormedPasses()
    ensures var lower := [Node(0, true, 0, [Entry(5, 1)]), Node(1, true, 0, [Entry(5, 2)])];
            var upper := [Node(0, true, 0, [Entry(7, 9)])];
            LayerPasses(lower, 2) && !LayerOk(lower, 2) && !LinkedAbove([lower, upper], 0)
  {
    var lower := [Node(0, true, 0, [Entry(5, 1)]), Node(1, true, 0, [Entry(5, 2)])];
    var upper := [Node(0, true, 0, [Entry(7, 9)])];
    assert lower[..1] == [lower[0]] && lower[..1][..0] == [] && upper[..0] == [];
    assert Flat(lower)[0].key == Flat(lower)[1].key;
    assert Flat([lower, upper][1]) != Targets([lower, upper][0]);
  }
}
