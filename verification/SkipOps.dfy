/** What the operations on one node do to its layer: which entries the layer holds afterwards, and which
    the layer above must hold. */
module SkipOps {
  import opened SkipVectors
  import opened SkipLayers

  ghost predicate IdsBelow(layer: seq<Node>, bound: nat) {
    forall i :: 0 <= i < |layer| ==> layer[i].id < bound
  }

  /** The nodes that may stand in for node j: it comes first, the others are new. */
  ghost predicate StandIns(layer: seq<Node>, j: nat, ns: seq<Node>, bound: nat, cap: nat)
    requires j < |layer|
  {
    && |ns| > 0 && ns[0].id == layer[j].id && (j == 0 ==> ns[0].orphan)
    && (forall i :: 0 < i < |ns| ==> bound <= ns[i].id)
    && (forall i, m :: 0 < i < m < |ns| ==> ns[i].id != ns[m].id)
    && (forall i :: 0 <= i < |ns| ==> NodeOk(ns[i], cap))
  }

  lemma {:induction false} ReplaceOk(layer: seq<Node>, j: nat, ns: seq<Node>, bound: nat, cap: nat)
    requires LayerOk(layer, cap) && j < |layer| && IdsBelow(layer, bound) && StandIns(layer, j, ns, bound, cap)
    requires Sorted(Flat(Replace(layer, j, ns)))
    ensures LayerOk(Replace(layer, j, ns), cap)
  {
    hide Flat, Sorted, NodeOk;
    var r := Replace(layer, j, ns);
    forall i | 0 <= i < |r| ensures NodeOk(r[i], cap) { At(layer, j, ns, i); }
    forall i, m | 0 <= i < m < |r| ensures r[i].id != r[m].id { At(layer, j, ns, i); At(layer, j, ns, m); }
    At(layer, j, ns, 0);
  }

  lemma {:induction false} At(layer: seq<Node>, j: nat, ns: seq<Node>, i: nat)
    requires j < |layer| && i < |Replace(layer, j, ns)|
    ensures Replace(layer, j, ns)[i]
         == if i < j then layer[i] else if i < j + |ns| then ns[i - j] else layer[i - |ns| + 1]
  {}

  /** No node but the head is empty, if the stand-ins keep it so. */
  lemma {:induction false} ReplaceNoGaps(layer: seq<Node>, j: nat, ns: seq<Node>)
    requires j < |layer| && NoGaps(layer) && |ns| > 0
    requires forall i :: 0 <= i < |ns| && (i > 0 || j > 0) ==> ns[i].entries != []
    ensures NoGaps(Replace(layer, j, ns))
  {
    var r := Replace(layer, j, ns);
    forall i | 0 < i < |r| ensures r[i].entries != [] { At(layer, j, ns, i); }
  }

  lemma {:induction false} ReplaceIds(layer: seq<Node>, j: nat, ns: seq<Node>, bound: nat)
    requires j < |layer| && IdsBelow(layer, bound) && IdsBelow(ns, bound)
    ensures IdsBelow(Replace(layer, j, ns), bound)
  {
    var r := Replace(layer, j, ns);
    forall i | 0 <= i < |r| ensures r[i].id < bound { At(layer, j, ns, i); }
  }

  // ---------- inserting an entry into the covering node ----------

  /** The node's own insert: an overfull vector gives its upper half to a new orphan. */
  function NodeInsert(n: Node, e: Entry, cap: nat, newId: nat, addr: nat): (ns: seq<Node>)
    ensures |ns| > 0
  {
    if Has(n.entries, e.key) then [n]
    else if |n.entries| < cap then [n.(entries := Put(n.entries, e))]
    else
      var r := StealHalfAndInsert(n.entries, e);
      [n.(entries := r.left), Node(newId, true, addr, r.right)]
  }

  /** A covering non-orphan keeps its first key. */
  lemma {:induction false} CoveringStarts(layer: seq<Node>, j: nat, k: int, cap: nat)
    requires LayerOk(layer, cap) && Covers(layer, j, k)
    ensures !layer[j].orphan ==> layer[j].entries != [] && layer[j].entries[0].key <= k
    ensures j > 0 && !Has(layer[j].entries, k) ==> Find(layer[j].entries, k) > 0
    ensures !layer[j].orphan ==> j > 0
  {}

  lemma {:induction false} NodeInsertFlat(n: Node, e: Entry, cap: nat, newId: nat, addr: nat)
    requires Sorted(n.entries) && cap > 0 && NodeOk(n, cap)
    requires !n.orphan ==> n.entries[0].key <= e.key
    ensures var ns := NodeInsert(n, e, cap, newId, addr);
            && Flat(ns) == Put(n.entries, e) && Targets(ns) == Target(n)
            && ns[0].id == n.id && ns[0].orphan == n.orphan && (|ns| == 1 || (|ns| == 2 && ns[1].id == newId))
            && (forall i :: 0 <= i < |ns| ==> NodeOk(ns[i], cap))
            && (forall i :: 0 <= i < |ns| ==> ns[i].entries != [])
  {
    hide Put, StealHalfAndInsert, Find, Sorted;
    if Has(n.entries, e.key) {
      FlatOne(n);
      PutPresent(n.entries, e);
      HasSome(n.entries, e.key);
    } else if |n.entries| < cap {
      PutFits(n, e);
    } else {
      PutOverflows(n, e, cap, newId, addr);
    }
  }

  lemma {:induction false} HasSome(es: seq<Entry>, k: int)
    requires Has(es, k)
    ensures es != []
  {}

  lemma {:induction false} PutFits(n: Node, e: Entry)
    requires !Has(n.entries, e.key) && (!n.orphan ==> n.entries != [] && n.entries[0].key <= e.key)
    ensures var m := n.(entries := Put(n.entries, e));
            && Flat([m]) == m.entries && Targets([m]) == Target(n)
            && |m.entries| == |n.entries| + 1
  {
    FlatOne(n.(entries := Put(n.entries, e)));
    if !n.orphan { KeepsFirst(n.entries, e); } else { PutAt(n.entries, e); }
  }

  lemma {:induction false} PutOverflows(n: Node, e: Entry, cap: nat, newId: nat, addr: nat)
    requires Sorted(n.entries) && cap > 0 && |n.entries| == cap && !Has(n.entries, e.key)
    requires !n.orphan ==> n.entries[0].key <= e.key
    ensures var r := StealHalfAndInsert(n.entries, e);
            var a, b := n.(entries := r.left), Node(newId, true, addr, r.right);
            && Flat([a, b]) == Put(n.entries, e) && Targets([a, b]) == Target(n)
            && 0 < |a.entries| <= cap && 0 < |b.entries| <= cap
  {
    StealHalfAndInsertIsPut(n.entries, e, cap);
    if !n.orphan { NotFirst(n.entries, e.key); }
    hide StealHalfAndInsert, Find, Has, Put;
    var r := StealHalfAndInsert(n.entries, e);
    var a, b := n.(entries := r.left), Node(newId, true, addr, r.right);
    FlatTwo(a, b);
    assert Target(a) + [] == Target(a);
  }

  lemma {:induction false} KeepsFirst(es: seq<Entry>, e: Entry)
    requires es != [] && es[0].key <= e.key && !Has(es, e.key)
    ensures |Put(es, e)| == |es| + 1 && Put(es, e)[0] == es[0]
  {
    NotFirst(es, e.key);
  }

  /** Stand-ins that put an entry into the covering node put it into the layer. */
  lemma {:induction false} PutKeeps(layer: seq<Node>, j: nat, ns: seq<Node>, e: Entry, cap: nat, newId: nat)
    requires LayerOk(layer, cap) && Covers(layer, j, e.key) && IdsBelow(layer, newId)
    requires StandIns(layer, j, ns, newId, cap) && Flat(ns) == Put(layer[j].entries, e) && IdsBelow(ns, newId + 1)
    requires forall i :: 0 <= i < |ns| && (i > 0 || j > 0) ==> ns[i].entries != []
    ensures var r := Replace(layer, j, ns);
            && LayerOk(r, cap) && IdsBelow(r, newId + 1) && Flat(r) == Put(Flat(layer), e)
            && (NoGaps(layer) ==> NoGaps(r))
  {
    hide Put, Flat, Targets, Has, Find;
    CoversSplits(layer, j, e.key);
    FlatReplace(layer, j, ns);
    PutInside(Flat(layer[..j]), layer[j].entries, Flat(layer[j + 1..]), e);
    PutSorted(Flat(layer), e);
    ReplaceOk(layer, j, ns, newId, cap);
    hide Sorted, Covers, Below, Above;
    ReplaceIds(layer, j, ns, newId + 1);
    if NoGaps(layer) { ReplaceNoGaps(layer, j, ns); }
  }

  lemma {:induction false} InsertKeeps(layer: seq<Node>, j: nat, e: Entry, cap: nat, newId: nat, addr: nat)
    requires LayerOk(layer, cap) && Covers(layer, j, e.key) && cap > 0 && IdsBelow(layer, newId)
    ensures var r := Replace(layer, j, NodeInsert(layer[j], e, cap, newId, addr));
            && LayerOk(r, cap) && IdsBelow(r, newId + 1)
            && Flat(r) == Put(Flat(layer), e) && Targets(r) == Targets(layer)
            && (NoGaps(layer) ==> NoGaps(r))
  {
    CoversSplits(layer, j, e.key);
    CoveringStarts(layer, j, e.key, cap);
    var n := layer[j];
    var ns := NodeInsert(n, e, cap, newId, addr);
    InsertStandIns(layer, j, e, cap, newId, addr);
    FlatReplace(layer, j, ns);
    hide *;
    PutKeeps(layer, j, ns, e, cap, newId);
  }

  lemma {:induction false} InsertStandIns(layer: seq<Node>, j: nat, e: Entry, cap: nat, newId: nat, addr: nat)
    requires LayerOk(layer, cap) && j < |layer| && Sorted(layer[j].entries) && cap > 0 && IdsBelow(layer, newId)
    requires !layer[j].orphan ==> layer[j].entries != [] && layer[j].entries[0].key <= e.key
    ensures var ns := NodeInsert(layer[j], e, cap, newId, addr);
            && StandIns(layer, j, ns, newId, cap) && IdsBelow(ns, newId + 1)
            && Flat(ns) == Put(layer[j].entries, e) && Targets(ns) == Target(layer[j])
            && forall i :: 0 <= i < |ns| && (i > 0 || j > 0) ==> ns[i].entries != []
  {
    hide Put, Flat, Targets, Has, Find, NodeInsert, Sorted;
    NodeInsertFlat(layer[j], e, cap, newId, addr);
  }

  // ---------- splitting the covering node at a new key ----------

  /** The covering node keeps what is below e; a new non-orphan takes e and the rest. */
  function NodeSplit(n: Node, e: Entry, newId: nat, addr: nat): seq<Node> {
    var r := SplitInsert(n.entries, e);
    [n.(entries := r.left), Node(newId, false, addr, r.right)]
  }

  lemma {:induction false} SplitTargets(n: Node, e: Entry, newId: nat, addr: nat)
    requires Sorted(n.entries) && !Has(n.entries, e.key)
    requires !n.orphan ==> n.entries != [] && n.entries[0].key < e.key
    ensures var ns := NodeSplit(n, e, newId, addr);
            && Flat(ns) == Put(n.entries, e) && Targets(ns) == Put(Target(n), Entry(e.key, newId))
  {
    SplitInsertIsPut(n.entries, e);
    var ns := NodeSplit(n, e, newId, addr);
    FlatTwo(ns[0], ns[1]);
    if !n.orphan {
      if Find(n.entries, e.key) == 0 { assert false; }
      PutAfter(Target(n), Entry(e.key, newId));
    } else {
      PutAfter([], Entry(e.key, newId));
    }
  }

  /** Putting a key above all others appends it. */
  lemma {:induction false} PutAfter(es: seq<Entry>, e: Entry)
    requires Below(es, e.key)
    ensures Put(es, e) == es + [e]
  {
    assert es[..|es|] == es && es[|es|..] == [];
    FindIs(es, e.key, |es|);
  }

  lemma {:induction false} SplitKeeps(layer: seq<Node>, j: nat, e: Entry, cap: nat, newId: nat, addr: nat)
    requires LayerOk(layer, cap) && Covers(layer, j, e.key) && IdsBelow(layer, newId)
    requires !Has(layer[j].entries, e.key) && |layer[j].entries| - Find(layer[j].entries, e.key) < cap
    ensures var r := Replace(layer, j, NodeSplit(layer[j], e, newId, addr));
            && LayerOk(r, cap) && IdsBelow(r, newId + 1)
            && Flat(r) == Put(Flat(layer), e) && Targets(r) == Put(Targets(layer), Entry(e.key, newId))
            && (NoGaps(layer) ==> NoGaps(r))
  {
    var ns := NodeSplit(layer[j], e, newId, addr);
    CoversSplits(layer, j, e.key);
    CoveringStarts(layer, j, e.key, cap);
    if !layer[j].orphan { NotFirst(layer[j].entries, e.key); }
    SplitStandIns(layer, j, e, cap, newId, addr);
    SplitTargetsOfLayer(layer, j, e, newId, addr);
    hide *;
    PutKeeps(layer, j, ns, e, cap, newId);
  }

  lemma {:induction false} SplitStandIns(layer: seq<Node>, j: nat, e: Entry, cap: nat, newId: nat, addr: nat)
    requires LayerOk(layer, cap) && Covers(layer, j, e.key) && Sorted(layer[j].entries) && IdsBelow(layer, newId)
    requires !Has(layer[j].entries, e.key) && |layer[j].entries| - Find(layer[j].entries, e.key) < cap
    ensures var ns := NodeSplit(layer[j], e, newId, addr);
            && StandIns(layer, j, ns, newId, cap) && IdsBelow(ns, newId + 1)
            && Flat(ns) == Put(layer[j].entries, e)
            && forall i :: 0 <= i < |ns| && (i > 0 || j > 0) ==> ns[i].entries != []
  {
    CoveringStarts(layer, j, e.key, cap);
    if !layer[j].orphan { NotFirst(layer[j].entries, e.key); }
    SplitSizes(layer[j], e, cap, newId, addr);
    SplitTargets(layer[j], e, newId, addr);
    var ns := NodeSplit(layer[j], e, newId, addr);
    assert ns == [ns[0], ns[1]];
    TwoStandIns(layer, j, ns[0], ns[1], newId, cap);
    hide *;
  }

  lemma {:induction false} TwoStandIns(layer: seq<Node>, j: nat, a: Node, b: Node, newId: nat, cap: nat)
    requires LayerOk(layer, cap) && j < |layer| && IdsBelow(layer, newId)
    requires a.id == layer[j].id && a.orphan == layer[j].orphan && NodeOk(a, cap) && (j > 0 ==> a.entries != [])
    requires b.id == newId && NodeOk(b, cap) && b.entries != []
    ensures StandIns(layer, j, [a, b], newId, cap) && IdsBelow([a, b], newId + 1)
    ensures forall i :: 0 <= i < 2 && (i > 0 || j > 0) ==> [a, b][i].entries != []
  {}

  lemma {:induction false} SplitSizes(n: Node, e: Entry, cap: nat, newId: nat, addr: nat)
    requires Sorted(n.entries) && !Has(n.entries, e.key) && |n.entries| - Find(n.entries, e.key) < cap && |n.entries| <= cap
    ensures var ns := NodeSplit(n, e, newId, addr);
            && |ns| == 2 && ns[0].id == n.id && ns[0].orphan == n.orphan && ns[1].id == newId && !ns[1].orphan
            && |ns[0].entries| == Find(n.entries, e.key) <= cap && 0 < |ns[1].entries| <= cap
  {
    SplitInsertIsPut(n.entries, e);
  }

  lemma {:induction false} SplitTargetsOfLayer(layer: seq<Node>, j: nat, e: Entry, newId: nat, addr: nat)
    requires Sorted(Flat(layer)) && Covers(layer, j, e.key) && !Has(layer[j].entries, e.key)
    requires !layer[j].orphan ==> layer[j].entries != [] && layer[j].entries[0].key < e.key
    ensures Targets(Replace(layer, j, NodeSplit(layer[j], e, newId, addr))) == Put(Targets(layer), Entry(e.key, newId))
  {
    CoversSplits(layer, j, e.key);
    TargetsBelow(layer[..j], e.key);
    TargetsAbove(layer[j + 1..], e.key);
    hide Put, Flat, Targets, Has, Find, Sorted, Below, Above, NodeSplit, Target;
    var n, ns := layer[j], NodeSplit(layer[j], e, newId, addr);
    SplitTargets(n, e, newId, addr);
    FlatReplace(layer, j, ns);
    PutInside(Targets(layer[..j]), Target(n), Targets(layer[j + 1..]), Entry(e.key, newId));
  }

  lemma {:induction false} NotFirst(es: seq<Entry>, k: int)
    requires es != [] && !Has(es, k) && es[0].key <= k
    ensures es[0].key < k && Find(es, k) > 0
  {
  }

  // ---------- splitting the covering node at a key it holds ----------

  function NodeSplitAt(n: Node, k: int, newId: nat, addr: nat): seq<Node> {
    var r := SplitAt(n.entries, k);
    [n.(entries := r.left), Node(newId, false, addr, r.right)]
  }

  lemma {:induction false} SplitAtNode(n: Node, k: int, newId: nat, addr: nat)
    requires Sorted(n.entries) && Has(n.entries, k) && n.entries[0].key != k
    ensures var ns := NodeSplitAt(n, k, newId, addr);
            && Flat(ns) == n.entries && Targets(ns) == Put(Target(n), Entry(k, newId))
            && 0 < |ns[0].entries| <= |n.entries| && 0 < |ns[1].entries| <= |n.entries|
  {
    var ns := NodeSplitAt(n, k, newId, addr);
    var p := Find(n.entries, k);
    FlatTwo(ns[0], ns[1]);
    assert n.entries[..p] + n.entries[p..] == n.entries;
    assert ns[1].entries[0].key == k && ns[0].entries[0] == n.entries[0];
    PutAfter(Target(n), Entry(k, newId));
  }

  /** Stand-ins that hold the same entries leave the layer's entries alone. */
  lemma {:induction false} SameKeeps(layer: seq<Node>, j: nat, ns: seq<Node>, cap: nat, newId: nat)
    requires LayerOk(layer, cap) && j < |layer| && IdsBelow(layer, newId)
    requires StandIns(layer, j, ns, newId, cap) && Flat(ns) == layer[j].entries && IdsBelow(ns, newId + 1)
    ensures var r := Replace(layer, j, ns);
            LayerOk(r, cap) && IdsBelow(r, newId + 1) && Flat(r) == Flat(layer)
  {
    hide Flat, Targets, StandIns;
    FlatReplace(layer, j, ns);
    ReplaceOk(layer, j, ns, newId, cap);
    hide LayerOk;
    ReplaceIds(layer, j, ns, newId + 1);
  }

  lemma {:induction false} SplitAtKeeps(layer: seq<Node>, j: nat, k: int, cap: nat, newId: nat, addr: nat)
    requires LayerOk(layer, cap) && Covers(layer, j, k) && IdsBelow(layer, newId)
    requires Has(layer[j].entries, k) && layer[j].entries[0].key != k
    ensures var r := Replace(layer, j, NodeSplitAt(layer[j], k, newId, addr));
            && LayerOk(r, cap) && IdsBelow(r, newId + 1)
            && Flat(r) == Flat(layer) && Targets(r) == Put(Targets(layer), Entry(k, newId))
            && (NoGaps(layer) ==> NoGaps(r))
  {
    var ns := NodeSplitAt(layer[j], k, newId, addr);
    CoversSplits(layer, j, k);
    SplitAtNode(layer[j], k, newId, addr);
    TargetsBelow(layer[..j], k);
    TargetsAbove(layer[j + 1..], k);
    assert StandIns(layer, j, ns, newId, cap) && IdsBelow(ns, newId + 1);
    if NoGaps(layer) { ReplaceNoGaps(layer, j, ns); }
    hide *;
    FlatReplace(layer, j, ns);
    PutInside(Targets(layer[..j]), Target(layer[j]), Targets(layer[j + 1..]), Entry(k, newId));
    SameKeeps(layer, j, ns, cap, newId);
  }

  // ---------- shedding the upper half of a full head ----------

  function NodeShed(n: Node, newId: nat): seq<Node> {
    var r := StealHalf(n.entries);
    [n.(entries := r.left), Node(newId, true, 0, r.right)]
  }

  lemma {:induction false} ShedKeeps(layer: seq<Node>, k: int, cap: nat, newId: nat)
    requires LayerOk(layer, cap) && Covers(layer, 0, k) && IdsBelow(layer, newId)
    requires |layer[0].entries| == cap > 0 && k < layer[0].entries[0].key
    ensures var r := Replace(layer, 0, NodeShed(layer[0], newId));
            && LayerOk(r, cap) && IdsBelow(r, newId + 1) && Flat(r) == Flat(layer) && Targets(r) == Targets(layer)
            && Covers(r, 0, k) && |r[0].entries| < cap && Above(r[0].entries, k)
            && (NoGaps(layer) ==> NoGaps(r))
  {
    var n := layer[0];
    var ns := NodeShed(n, newId);
    FlatTwo(ns[0], ns[1]);
    assert StandIns(layer, 0, ns, newId, cap) && IdsBelow(ns, newId + 1);
    if NoGaps(layer) { ReplaceNoGaps(layer, 0, ns); }
    FlatReplace(layer, 0, ns);
    SameKeeps(layer, 0, ns, cap, newId);
    ShedCovers(layer, k, newId);
    hide *;
  }

  lemma {:induction false} ShedCovers(layer: seq<Node>, k: int, newId: nat)
    requires Sorted(Flat(layer)) && |layer| > 0 && Covers(layer, 0, k)
    requires |layer[0].entries| > 0 && k < layer[0].entries[0].key
    ensures var r := Replace(layer, 0, NodeShed(layer[0], newId));
            Covers(r, 0, k) && Above(r[0].entries, k)
  {
    var n, ns := layer[0], NodeShed(layer[0], newId);
    CoversSplits(layer, 0, k);
    assert Above(n.entries, k);
    ShedTail(layer, ns[0], ns[1]);
    FlatConcat([ns[1]], layer[1..]);
    FlatOne(ns[1]);
    AboveBoth(ns[1].entries, Flat(layer[1..]), k);
  }

  lemma {:induction false} ShedTail(layer: seq<Node>, a: Node, b: Node)
    requires |layer| > 0
    ensures Replace(layer, 0, [a, b])[0] == a && Replace(layer, 0, [a, b])[1..] == [b] + layer[1..]
  {}

  lemma {:induction false} AboveBoth(a: seq<Entry>, b: seq<Entry>, k: int)
    requires Above(a, k) && Above(b, k)
    ensures Above(a + b, k)
  {}

  // ---------- adopting a remote address ----------

  lemma {:induction false} RetagKeeps(layer: seq<Node>, j: nat, cap: nat, newId: nat, addr: nat)
    requires LayerOk(layer, cap) && j < |layer| && IdsBelow(layer, newId)
    ensures var r := Replace(layer, j, [layer[j].(addr := addr)]);
            && LayerOk(r, cap) && IdsBelow(r, newId) && Flat(r) == Flat(layer) && Targets(r) == Targets(layer)
            && (NoGaps(layer) ==> NoGaps(r))
  {
    var ns := [layer[j].(addr := addr)];
    FlatOne(ns[0]);
    FlatReplace(layer, j, ns);
    assert StandIns(layer, j, ns, newId, cap) && IdsBelow(ns, newId);
    SameKeeps(layer, j, ns, cap, newId);
    if NoGaps(layer) { ReplaceNoGaps(layer, j, ns); }
    ReplaceIds(layer, j, ns, newId);
  }

  // ---------- which keys and targets there are ----------

  lemma {:induction false} PutPresent(es: seq<Entry>, e: Entry)
    requires Has(es, e.key)
    ensures Put(es, e) == es
  {}

  lemma {:induction false} PutMember(es: seq<Entry>, e: Entry, t: Entry)
    requires t in Put(es, e)
    ensures t in es || t == e
  {}

  lemma {:induction false} PutHas(es: seq<Entry>, e: Entry)
    requires Sorted(es)
    ensures Has(Put(es, e), e.key)
  {
    if !Has(es, e.key) {
      var p := Find(es, e.key);
      assert Put(es, e)[..p] == es[..p];
      FindIs(Put(es, e), e.key, p);
    }
  }

  lemma {:induction false} TargetsSorted(layer: seq<Node>)
    requires Sorted(Flat(layer))
    ensures Sorted(Targets(layer))
  {
    if layer != [] {
      var init, last := layer[..|layer| - 1], layer[|layer| - 1];
      SortedParts(Flat(init), last.entries);
      TargetsSorted(init);
      if !last.orphan && last.entries != [] { TargetsBelow(init, last.entries[0].key); }
    }
  }

  /** A non-orphan that starts with k is among the targets. */
  lemma {:induction false} StartIsTarget(layer: seq<Node>, j: nat)
    requires Sorted(Flat(layer)) && j < |layer| && !layer[j].orphan && layer[j].entries != []
    ensures var t := Entry(layer[j].entries[0].key, layer[j].id);
            t in Targets(layer) && Has(Targets(layer), t.key) && Put(Targets(layer), t) == Targets(layer)
  {
    var t := Entry(layer[j].entries[0].key, layer[j].id);
    assert t in Target(layer[j]);
    TargetsMember(layer, t);
    TargetsSorted(layer);
    HasMeans(Targets(layer), t.key);
    PutPresent(Targets(layer), t);
  }

  lemma {:induction false} PutKeepsHas(es: seq<Entry>, e: Entry, k: int)
    requires Sorted(es) && Has(es, k)
    ensures Has(Put(es, e), k)
  {
    if !Has(es, e.key) {
      PutSorted(es, e);
      var i, p := Find(es, k), Find(es, e.key);
      var r := Put(es, e);
      assert r[if i < p then i else i + 1] == es[i];
      HasMeans(r, k);
    }
  }

  lemma {:induction false} EmptyLayer(cap: nat)
    ensures var layer := [Node(0, true, 0, [])];
            LayerOk(layer, cap) && IdsBelow(layer, 1) && NoGaps(layer) && Flat(layer) == [] && Targets(layer) == []
  {
    FlatOne(Node(0, true, 0, []));
  }
}
