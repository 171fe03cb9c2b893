/** Merging an orphan into its left neighbour and removing keys, as the map does lazily. */
module SkipRemoval {
  import opened SkipVectors
  import opened SkipLayers
  import opened SkipOps
  import opened SkipSearch

  ghost predicate AllOrphans(layer: seq<Node>) {
    forall i :: 0 <= i < |layer| ==> layer[i].orphan
  }

  // ---------- merging ----------

  function MergeNext(layer: seq<Node>, j: nat): seq<Node>
    requires j + 1 < |layer|
  {
    layer[..j] + [layer[j].(entries := layer[j].entries + layer[j + 1].entries)] + layer[j + 2..]
  }

  lemma {:induction false} MergeFlat(layer: seq<Node>, j: nat)
    requires j + 1 < |layer| && layer[j + 1].orphan && (!layer[j].orphan ==> layer[j].entries != [])
    ensures Flat(MergeNext(layer, j)) == Flat(layer) && Targets(MergeNext(layer, j)) == Targets(layer)
  {
    var n, m := layer[j], layer[j + 1];
    var both := n.(entries := n.entries + m.entries);
    var a, c := layer[..j], layer[j + 2..];
    assert layer == a + [n, m] + c;
    FlatTwo(n, m);
    FlatOne(both);
    FlatConcat(a + [n, m], c);
    FlatConcat(a, [n, m]);
    FlatConcat(a + [both], c);
    FlatConcat(a, [both]);
    TargetsConcat(a + [n, m], c);
    TargetsConcat(a, [n, m]);
    TargetsConcat(a + [both], c);
    TargetsConcat(a, [both]);
    assert Target(both) == Target(n) + Target(m);
  }

  lemma {:induction false} MergeAt(layer: seq<Node>, j: nat, i: nat)
    requires j + 1 < |layer| && i < |MergeNext(layer, j)|
    ensures |MergeNext(layer, j)| == |layer| - 1
    ensures var r := MergeNext(layer, j);
            r[i] == if i < j then layer[i] else if i == j then r[j] else layer[i + 1]
    ensures MergeNext(layer, j)[j] == layer[j].(entries := layer[j].entries + layer[j + 1].entries)
  {}

  lemma {:induction false} MergeKeeps(layer: seq<Node>, j: nat, cap: nat, bound: nat)
    requires LayerOk(layer, cap) && IdsBelow(layer, bound) && j + 1 < |layer| && layer[j + 1].orphan
    requires |layer[j].entries| + |layer[j + 1].entries| <= cap
    ensures var r := MergeNext(layer, j);
            && LayerOk(r, cap) && IdsBelow(r, bound) && |r| == |layer| - 1
            && Flat(r) == Flat(layer) && Targets(r) == Targets(layer)
            && (AllOrphans(layer) ==> AllOrphans(r))
            && (forall k :: Starts(layer, j, k) ==> Starts(r, j, k))
  {
    MergeFlat(layer, j);
    hide Flat, Targets, Sorted;
    var r := MergeNext(layer, j);
    forall i | 0 <= i < |r| ensures NodeOk(r[i], cap) && r[i].id < bound && (AllOrphans(layer) ==> r[i].orphan) {
      MergeAt(layer, j, i);
    }
    forall i, m | 0 <= i < m < |r| ensures r[i].id != r[m].id {
      MergeAt(layer, j, i);
      MergeAt(layer, j, m);
    }
    MergeAt(layer, j, 0);
  }

  /** The nodes of a layer that hold something. */
  ghost function InUse(layer: seq<Node>): seq<Node> {
    if layer == [] then []
    else
      var last := layer[|layer| - 1];
      InUse(layer[..|layer| - 1]) + (if last.entries == [] then [] else [last])
  }

  lemma {:induction false} InUseConcat(a: seq<Node>, b: seq<Node>)
    ensures InUse(a + b) == InUse(a) + InUse(b)
    decreases |b|
  {
    if b == [] {
      assert a + b == a;
    } else {
      assert (a + b)[..|a + b| - 1] == a + b[..|b| - 1];
      InUseConcat(a, b[..|b| - 1]);
    }
  }

  /** Merging an empty orphan only unlinks it. */
  lemma {:induction false} EmptyUnlinked(layer: seq<Node>, j: nat)
    requires j + 1 < |layer| && layer[j + 1].entries == []
    ensures InUse(MergeNext(layer, j)) == InUse(layer)
  {
    var a, c := layer[..j + 1], layer[j + 2..];
    assert layer == a + [layer[j + 1]] + c;
    assert MergeNext(layer, j) == a + c by { assert layer[j].entries + [] == layer[j].entries; }
    InUseConcat(a + [layer[j + 1]], c);
    InUseConcat(a, [layer[j + 1]]);
    InUseConcat(a, c);
    assert InUse([layer[j + 1]]) == [];
  }

  // ---------- removing ----------

  function Removed(n: Node, k: int): Node {
    n.(entries := Drop(n.entries, k))
  }

  lemma {:induction false} DropSorted(es: seq<Entry>, k: int)
    requires Sorted(es)
    ensures Sorted(Drop(es, k)) && |Drop(es, k)| <= |es| && !Has(Drop(es, k), k)
    ensures es != [] && es[0].key < k ==> Drop(es, k) != [] && Drop(es, k)[0] == es[0]
  {
    var p, r := Find(es, k), Drop(es, k);
    if Has(es, k) {
      forall i | 0 <= i < |r| ensures r[i] == es[if i < p then i else i + 1] {}
      assert r[..p] == es[..p];
      FindIs(r, k, p);
    }
  }

  /** Removing k from the node covering it, unless k is what the layer above knows the node by. */
  lemma {:induction false} RemoveKeeps(layer: seq<Node>, j: nat, k: int, cap: nat, bound: nat)
    requires LayerOk(layer, cap) && IdsBelow(layer, bound) && Covers(layer, j, k)
    requires layer[j].orphan || layer[j].entries[0].key != k
    ensures var r := Replace(layer, j, [Removed(layer[j], k)]);
            && LayerOk(r, cap) && IdsBelow(r, bound)
            && Flat(r) == Drop(Flat(layer), k) && Targets(r) == Targets(layer)
            && (AllOrphans(layer) ==> AllOrphans(r))
  {
    var ns := [Removed(layer[j], k)];
    CoversSplits(layer, j, k);
    CoveringStarts(layer, j, k, cap);
    RemovedStandIn(layer, j, k, cap, bound);
    FlatReplace(layer, j, ns);
    ReplaceOrphans(layer, j, ns);
    assert AllOrphans(layer) ==> AllOrphans(ns);
    hide *;
    DropKeeps(layer, j, ns, k, cap, bound);
  }

  lemma {:induction false} RemovedStandIn(layer: seq<Node>, j: nat, k: int, cap: nat, bound: nat)
    requires LayerOk(layer, cap) && IdsBelow(layer, bound) && j < |layer| && Sorted(layer[j].entries)
    requires !layer[j].orphan ==> layer[j].entries[0].key < k
    ensures var ns := [Removed(layer[j], k)];
            && StandIns(layer, j, ns, bound, cap) && IdsBelow(ns, bound)
            && Flat(ns) == Drop(layer[j].entries, k) && Targets(ns) == Target(layer[j])
  {
    var n := Removed(layer[j], k);
    DropSorted(layer[j].entries, k);
    FlatOne(n);
    assert Target(n) == Target(layer[j]);
    OneStandIn(layer, j, n, cap, bound);
    hide *;
  }

  /** Stand-ins that drop a key from the covering node drop it from the layer. */
  lemma {:induction false} DropKeeps(layer: seq<Node>, j: nat, ns: seq<Node>, k: int, cap: nat, bound: nat)
    requires LayerOk(layer, cap) && IdsBelow(layer, bound) && Covers(layer, j, k)
    requires StandIns(layer, j, ns, bound, cap) && IdsBelow(ns, bound) && Flat(ns) == Drop(layer[j].entries, k)
    ensures var r := Replace(layer, j, ns);
            LayerOk(r, cap) && IdsBelow(r, bound) && Flat(r) == Drop(Flat(layer), k)
  {
    hide Drop, Flat, Targets, Has, Find, StandIns;
    CoversSplits(layer, j, k);
    FlatReplace(layer, j, ns);
    DropInside(Flat(layer[..j]), layer[j].entries, Flat(layer[j + 1..]), k);
    DropSorted(Flat(layer), k);
    ReplaceOk(layer, j, ns, bound, cap);
    hide Sorted, Covers, Below, Above;
    ReplaceIds(layer, j, ns, bound);
  }

  lemma {:induction false} ReplaceOrphans(layer: seq<Node>, j: nat, ns: seq<Node>)
    requires j < |layer|
    ensures AllOrphans(layer) && AllOrphans(ns) ==> AllOrphans(Replace(layer, j, ns))
  {
    var r := Replace(layer, j, ns);
    forall i | 0 <= i < |r| && AllOrphans(layer) && AllOrphans(ns) ensures r[i].orphan { At(layer, j, ns, i); }
  }

  /** A node that starts with k covers it. */
  lemma {:induction false} StartCovers(layer: seq<Node>, j: nat, k: int)
    requires Sorted(Flat(layer)) && j < |layer| && layer[j].entries != [] && layer[j].entries[0].key == k
    ensures Covers(layer, j, k)
  {
    FlatReplace(layer, j, []);
    var a, b, c := Flat(layer[..j]), layer[j].entries, Flat(layer[j + 1..]);
    SortedParts(a + b, c);
    assert (a + b)[|a|] == b[0];
  }

  /** Removing the first key of a non-orphan turns it into an orphan and takes it off the targets. */
  lemma {:induction false} OrphanKeeps(layer: seq<Node>, j: nat, k: int, cap: nat, bound: nat)
    requires LayerOk(layer, cap) && IdsBelow(layer, bound) && j < |layer| && !layer[j].orphan
    requires layer[j].entries != [] && layer[j].entries[0].key == k
    ensures var r := Replace(layer, j, [Removed(layer[j], k).(orphan := true)]);
            && LayerOk(r, cap) && IdsBelow(r, bound)
            && Flat(r) == Drop(Flat(layer), k) && Targets(r) == Drop(Targets(layer), k)
  {
    var ns := [Removed(layer[j], k).(orphan := true)];
    StartCovers(layer, j, k);
    OrphanStandIn(layer, j, k, cap, bound);
    OrphanTargets(layer, j, k);
    hide *;
    DropKeeps(layer, j, ns, k, cap, bound);
  }

  lemma {:induction false} OrphanStandIn(layer: seq<Node>, j: nat, k: int, cap: nat, bound: nat)
    requires LayerOk(layer, cap) && IdsBelow(layer, bound) && j < |layer| && Covers(layer, j, k)
    ensures var ns := [Removed(layer[j], k).(orphan := true)];
            StandIns(layer, j, ns, bound, cap) && IdsBelow(ns, bound) && Flat(ns) == Drop(layer[j].entries, k)
  {
    CoversSplits(layer, j, k);
    DropSorted(layer[j].entries, k);
    var n := Removed(layer[j], k).(orphan := true);
    FlatOne(n);
    OneStandIn(layer, j, n, cap, bound);
    hide *;
  }

  lemma {:induction false} OneStandIn(layer: seq<Node>, j: nat, n: Node, cap: nat, bound: nat)
    requires LayerOk(layer, cap) && IdsBelow(layer, bound) && j < |layer|
    requires n.id == layer[j].id && NodeOk(n, cap) && (j == 0 ==> n.orphan)
    ensures StandIns(layer, j, [n], bound, cap) && IdsBelow([n], bound)
  {}

  lemma {:induction false} OrphanTargets(layer: seq<Node>, j: nat, k: int)
    requires Sorted(Flat(layer)) && Covers(layer, j, k) && !layer[j].orphan
    requires layer[j].entries != [] && layer[j].entries[0].key == k
    ensures Targets(Replace(layer, j, [Removed(layer[j], k).(orphan := true)])) == Drop(Targets(layer), k)
  {
    var ns := [Removed(layer[j], k).(orphan := true)];
    CoversSplits(layer, j, k);
    TargetsBelow(layer[..j], k);
    TargetsAbove(layer[j + 1..], k);
    DropOnly(Entry(k, layer[j].id));
    assert Drop(Target(layer[j]), k) == [];
    FlatOne(ns[0]);
    assert Targets(ns) == [];
    hide *;
    FlatReplace(layer, j, ns);
    DropInside(Targets(layer[..j]), Target(layer[j]), Targets(layer[j + 1..]), k);
  }

  lemma {:induction false} DropOnly(e: Entry)
    ensures Drop([e], e.key) == []
  {
    FindIs([e], e.key, 0);
  }

  // ---------- the map a sorted sequence stands for ----------

  function MapOf(es: seq<Entry>): map<int, nat> {
    if es == [] then map[] else MapOf(es[..|es| - 1])[es[|es| - 1].key := es[|es| - 1].val]
  }

  lemma {:induction false} MapAt(es: seq<Entry>, k: int)
    requires Sorted(es)
    ensures k in MapOf(es) <==> Has(es, k)
    ensures Has(es, k) ==> MapOf(es)[k] == es[Find(es, k)].val
  {
    if es != [] {
      var n := |es| - 1;
      MapAt(es[..n], k);
      if es[n].key == k { FindIs(es, k, n); } else { InitHas(es, k); }
    }
  }

  lemma {:induction false} InitHas(es: seq<Entry>, k: int)
    requires Sorted(es) && es != [] && es[|es| - 1].key != k
    ensures var init := es[..|es| - 1];
            Has(es, k) == Has(init, k) && (Has(es, k) ==> es[Find(es, k)] == init[Find(init, k)])
  {
    var n := |es| - 1;
    var p := Find(es, k);
    if p < n {
      assert es[..n][..p] == es[..p];
      FindIs(es[..n], k, p);
    } else {
      assert es[..n][..n] == es[..n];
      forall i | 0 <= i < n ensures es[i].key < k { BelowAt(es, p, k, i); }
      FindIs(es[..n], k, n);
    }
  }

  lemma {:induction false} HasOther(es: seq<Entry>, e: Entry, k: int)
    requires Sorted(es) && k != e.key && !Has(es, e.key)
    ensures Has(Put(es, e), k) == Has(es, k)
    ensures Has(es, k) ==> Put(es, e)[Find(Put(es, e), k)] == es[Find(es, k)]
  {
    if k < e.key { HasLower(es, e, k); } else { HasUpper(es, e, k); }
  }

  lemma {:induction false} HasLower(es: seq<Entry>, e: Entry, k: int)
    requires Sorted(es) && k < e.key && !Has(es, e.key)
    ensures Has(Put(es, e), k) == Has(es, k)
    ensures Has(es, k) ==> Put(es, e)[Find(Put(es, e), k)] == es[Find(es, k)]
  {
    var p, q := Find(es, e.key), Find(es, k);
    var r := Put(es, e);
    if p < q { BelowAt(es, q, k, p); }
    assert r[..q] == es[..q];
    FindIs(r, k, q);
  }

  lemma {:induction false} HasUpper(es: seq<Entry>, e: Entry, k: int)
    requires Sorted(es) && e.key < k && !Has(es, e.key)
    ensures Has(Put(es, e), k) == Has(es, k)
    ensures Has(es, k) ==> Put(es, e)[Find(Put(es, e), k)] == es[Find(es, k)]
  {
    var p, q := Find(es, e.key), Find(es, k);
    var r := Put(es, e);
    if q < p { BelowAt(es, p, e.key, q); }
    assert r[..q + 1] == es[..p] + [e] + es[p..q];
    assert es[..q] == es[..p] + es[p..q];
    BelowInsert(es[..p], e, es[p..q], k);
    FindIs(r, k, q + 1);
  }

  lemma {:induction false} BelowInsert(a: seq<Entry>, e: Entry, b: seq<Entry>, k: int)
    requires Below(a + b, k) && e.key < k
    ensures Below(a + [e] + b, k)
  {
    forall i | 0 <= i < |a + [e] + b| ensures (a + [e] + b)[i].key < k {
      if i < |a| { assert (a + b)[i] == a[i]; } else if i > |a| { assert (a + b)[i - 1] == b[i - 1 - |a|]; }
    }
  }

  /** Put and Drop are the map's insert-if-absent and remove. */
  lemma {:induction false} MapPut(es: seq<Entry>, e: Entry)
    requires Sorted(es)
    ensures MapOf(Put(es, e)) == if e.key in MapOf(es) then MapOf(es) else MapOf(es)[e.key := e.val]
  {
    MapAt(es, e.key);
    if !Has(es, e.key) {
      PutSorted(es, e);
      PutFinds(es, e);
      var a, b := MapOf(Put(es, e)), MapOf(es)[e.key := e.val];
      hide MapOf, Put, Find, Has, Sorted;
      forall k ensures (k in a <==> k in b) && (k in a ==> a[k] == b[k]) {
        MapAt(es, k);
        MapAt(Put(es, e), k);
        if k != e.key { HasOther(es, e, k); }
      }
    }
  }

  lemma {:induction false} PutFinds(es: seq<Entry>, e: Entry)
    requires Sorted(es) && !Has(es, e.key)
    ensures Has(Put(es, e), e.key) && Put(es, e)[Find(Put(es, e), e.key)] == e
  {
    var p := Find(es, e.key);
    assert Put(es, e)[..p] == es[..p];
    FindIs(Put(es, e), e.key, p);
  }

  lemma {:induction false} MapDrop(es: seq<Entry>, k: int)
    requires Sorted(es)
    ensures MapOf(Drop(es, k)) == MapOf(es) - {k}
  {
    MapAt(es, k);
    DropSorted(es, k);
    MapAt(Drop(es, k), k);
    if Has(es, k) {
      DropPut(es, k);
      hide MapOf, Put, Find, Has, Sorted, Drop;
      MapPut(Drop(es, k), Entry(k, es[Find(es, k)].val));
      MapWithout(MapOf(Drop(es, k)), k, es[Find(es, k)].val);
    } else {
      assert MapOf(es) - {k} == MapOf(es);
    }
  }

  lemma {:induction false} MapWithout(m: map<int, nat>, k: int, v: nat)
    requires k !in m
    ensures m[k := v] - {k} == m
  {}

  /** Putting back what was removed. */
  lemma {:induction false} DropPut(es: seq<Entry>, k: int)
    requires Sorted(es) && Has(es, k)
    ensures Put(Drop(es, k), es[Find(es, k)]) == es
  {
    var p, d := Find(es, k), Drop(es, k);
    DropSorted(es, k);
    assert d[..p] == es[..p];
    FindIs(d, k, p);
    PutAt(d, es[p]);
    hide Find, Has, Sorted, Put, Drop;
    assert d == es[..p] + es[p + 1..];
    assert d[p..] == es[p + 1..];
    Whole(es, p);
  }

  lemma {:induction false} Whole(es: seq<Entry>, p: nat)
    requires p < |es|
    ensures es == es[..p] + [es[p]] + es[p + 1..]
  {}
}
