/** A client's local mirror of the remote index: it only ever adds entries and boundaries. Level 0 is
    the directory; its entries map keys to remote addresses. Null is 0. */
module SkipMirror {
  import opened SkipVectors
  import opened SkipLayers
  import opened SkipOps
  import opened SkipSearch

  /** What a remote descent saw of one level. */
  datatype PathStep = PathStep(kMin: int, addr: nat, firstDown: nat)

  datatype Made = Nothing | NodeMade(id: nat)

  ghost predicate AllNoGaps(levels: seq<seq<Node>>) {
    forall l :: 0 <= l < |levels| ==> NoGaps(levels[l])
  }

  ghost predicate StartsWith(n: Node, k: int) {
    n.entries != [] && n.entries[0].key == k
  }

  /** A node that starts with k, of the given kind. */
  ghost predicate HasNode(layer: seq<Node>, k: int, orphan: bool, addr: nat) {
    exists i :: 0 <= i < |layer| && StartsWith(layer[i], k) && layer[i].orphan == orphan && (orphan || layer[i].addr == addr)
  }

  /** m is n later on: the same node of the same kind, a non-orphan with the same first key, and with the same
      remote address unless it is a non-orphan that starts with k. */
  ghost predicate Stays(n: Node, m: Node, k: int) {
    && m.id == n.id && m.orphan == n.orphan
    && (!n.orphan && n.entries != [] ==> StartsWith(m, n.entries[0].key))
    && (m.addr == n.addr || (!n.orphan && StartsWith(n, k)))
  }

  ghost predicate StaysIn(n: Node, now: seq<Node>, k: int) {
    exists m :: 0 <= m < |now| && Stays(n, now[m], k)
  }

  /** Every node that was there is there still. */
  ghost predicate NodesStay(was: seq<Node>, now: seq<Node>, k: int) {
    forall i :: 0 <= i < |was| ==> StaysIn(was[i], now, k)
  }

  ghost predicate WasThere(was: seq<Node>, id: nat) {
    exists i :: 0 <= i < |was| && was[i].id == id
  }

  /** Nodes that were not there are orphans with one of these addresses, or start with k and have address addr. */
  ghost predicate NewNodes(was: seq<Node>, now: seq<Node>, k: int, addr: nat, orphanAddrs: set<nat>) {
    forall m :: 0 <= m < |now| && !WasThere(was, now[m].id) ==>
      if now[m].orphan then now[m].addr in orphanAddrs else StartsWith(now[m], k) && now[m].addr == addr
  }

  /** Nodes that were not there are orphans with one of these addresses. */
  ghost predicate NewOrphans(was: seq<Node>, now: seq<Node>, orphanAddrs: set<nat>) {
    forall m :: 0 <= m < |now| && !WasThere(was, now[m].id) ==> now[m].orphan && now[m].addr in orphanAddrs
  }

  lemma {:induction false} ReplaceStays(layer: seq<Node>, j: nat, ns: seq<Node>, k: int)
    requires j < |layer| && |ns| > 0 && Stays(layer[j], ns[0], k)
    ensures NodesStay(layer, Replace(layer, j, ns), k)
    ensures forall m :: 0 <= m < |Replace(layer, j, ns)| ==>
              WasThere(layer, Replace(layer, j, ns)[m].id) || (j < m < j + |ns| && Replace(layer, j, ns)[m] == ns[m - j])
  {
    var r := Replace(layer, j, ns);
    forall i | 0 <= i < |layer| ensures StaysIn(layer[i], r, k) {
      var m := if i <= j then i else i + |ns| - 1;
      At(layer, j, ns, m);
      assert Stays(layer[i], r[m], k);
    }
    forall m | 0 <= m < |r|
      ensures WasThere(layer, r[m].id) || (j < m < j + |ns| && r[m] == ns[m - j])
    {
      At(layer, j, ns, m);
    }
  }

  lemma {:induction false} Unchanged(layer: seq<Node>, k: int, addr: nat, orphanAddrs: set<nat>)
    ensures NodesStay(layer, layer, k) && NewNodes(layer, layer, k, addr, orphanAddrs) && NewOrphans(layer, layer, orphanAddrs)
  {
    forall i | 0 <= i < |layer| ensures StaysIn(layer[i], layer, k) { assert Stays(layer[i], layer[i], k); }
  }

  lemma {:induction false} StayOn(a: seq<Node>, b: seq<Node>, c: seq<Node>, k: int, cap: nat)
    requires LayerOk(a, cap) && NodesStay(a, b, k) && NodesStay(b, c, k)
    ensures NodesStay(a, c, k)
  {
    hide Sorted, Flat;
    forall i | 0 <= i < |a| ensures StaysIn(a[i], c, k) {
      assert StaysIn(a[i], b, k) && NodeOk(a[i], cap);
      var m :| 0 <= m < |b| && Stays(a[i], b[m], k);
      assert StaysIn(b[m], c, k);
      var p :| 0 <= p < |c| && Stays(b[m], c[p], k);
      assert Stays(a[i], c[p], k);
    }
  }

  lemma {:induction false} NewOn(a: seq<Node>, b: seq<Node>, c: seq<Node>, k: int, addr: nat, first: set<nat>, then_: set<nat>, cap: nat)
    requires LayerOk(c, cap) && NewOrphans(a, b, first) && NodesStay(b, c, k) && NewNodes(b, c, k, addr, then_)
    ensures NewNodes(a, c, k, addr, first + then_)
  {
    hide Sorted, Flat;
    forall p | 0 <= p < |c| && !WasThere(a, c[p].id)
      ensures if c[p].orphan then c[p].addr in first + then_ else StartsWith(c[p], k) && c[p].addr == addr
    {
      if WasThere(b, c[p].id) {
        var m :| 0 <= m < |b| && b[m].id == c[p].id;
        assert StaysIn(b[m], c, k);
        var q :| 0 <= q < |c| && Stays(b[m], c[q], k);
        assert q == p;
      }
    }
  }

  lemma {:induction false} NewGrow(a: seq<Node>, b: seq<Node>, k: int, addr: nat, few: set<nat>, many: set<nat>)
    requires few <= many
    ensures NewNodes(a, b, k, addr, few) ==> NewNodes(a, b, k, addr, many)
    ensures NewOrphans(a, b, few) ==> NewNodes(a, b, k, addr, many)
  {}

  /** Every node is there still, and new ones are orphans with one of these addresses or mirror addr. */
  ghost predicate Grown(was: seq<Node>, now: seq<Node>, k: int, addr: nat, orphanAddrs: set<nat>) {
    NodesStay(was, now, k) && NewNodes(was, now, k, addr, orphanAddrs)
  }

  /** Levels lo up to hi have grown with only null-addressed orphans; the others are as they were. */
  ghost predicate Lined(was: seq<seq<Node>>, now: seq<seq<Node>>, lo: nat, hi: nat, k: int, addrs: seq<nat>) {
    && |was| == |now| <= |addrs|
    && forall l :: 0 <= l < |was| ==> if lo <= l < hi then Grown(was[l], now[l], k, addrs[l], {0}) else now[l] == was[l]
  }

  /** Level l has gained at most an orphan with its address; the others are as they were. */
  ghost predicate Joined(was: seq<seq<Node>>, now: seq<seq<Node>>, l: nat, k: int, addrs: seq<nat>) {
    && |was| == |now| <= |addrs| && l < |was| && now == was[l := now[l]]
    && NodesStay(was[l], now[l], k) && NewOrphans(was[l], now[l], {addrs[l]})
  }

  /** Every level has grown, its new orphans null-addressed or with the level's address. */
  ghost predicate AllGrown(was: seq<seq<Node>>, now: seq<seq<Node>>, k: int, addrs: seq<nat>) {
    && |was| == |now| <= |addrs|
    && forall l :: 0 <= l < |was| ==> Grown(was[l], now[l], k, addrs[l], {0, addrs[l]})
  }

  /** Below top only nodes that start with k and null-addressed orphans are new, at top only an orphan. */
  ghost predicate RaisedTo(was: seq<seq<Node>>, now: seq<seq<Node>>, top: nat, k: int, addrs: seq<nat>) {
    exists split :: Lined(was, split, 0, top, k, addrs)
      && if top < |was| then Joined(split, now, top, k, addrs) else now == split
  }

  /** What a path says of the first n levels, null above its end. */
  function AddrsOf(path: seq<PathStep>, n: nat): (addrs: seq<nat>)
    ensures |addrs| == n && forall l :: 0 <= l < n ==> addrs[l] == if l < |path| then path[l].addr else 0
  {
    seq(n, l requires 0 <= l < n => if l < |path| then path[l].addr else 0)
  }

  lemma {:induction false} GrownOn(a: seq<seq<Node>>, b: seq<seq<Node>>, c: seq<seq<Node>>, k: int, addrs: seq<nat>, cap: nat)
    requires |a| > 0 && Joined(a, b, 0, k, addrs) && AllGrown(b, c, k, addrs) && LayerOk(a[0], cap) && LayerOk(c[0], cap)
    ensures AllGrown(a, c, k, addrs)
  {
    var addr := addrs[0];
    assert Grown(b[0], c[0], k, addr, {0, addr});
    StayOn(a[0], b[0], c[0], k, cap);
    NewOn(a[0], b[0], c[0], k, addr, {addr}, {0, addr}, cap);
    assert {addr} + {0, addr} == {0, addr};
    hide NodesStay, NewNodes, NewOrphans, LayerOk;
    forall l | 0 < l < |a| ensures Grown(a[l], c[l], k, addrs[l], {0, addrs[l]}) {
      assert Grown(b[l], c[l], k, addrs[l], {0, addrs[l]});
    }
  }

  lemma {:induction false} LinedOne(was: seq<seq<Node>>, now: seq<seq<Node>>, l: nat, k: int, addrs: seq<nat>)
    requires |was| == |now| <= |addrs| && l < |was| && now == was[l := now[l]]
    requires NodesStay(was[l], now[l], k) && NewNodes(was[l], now[l], k, addrs[l], {0})
    ensures Lined(was, now, l, l + 1, k, addrs)
  {
    hide NodesStay, NewNodes;
  }

  lemma {:induction false} LinedOn(a: seq<seq<Node>>, b: seq<seq<Node>>, c: seq<seq<Node>>, lo: nat, mid: nat, hi: nat, k: int, addrs: seq<nat>)
    requires lo <= mid <= hi && Lined(a, b, lo, mid, k, addrs) && Lined(b, c, mid, hi, k, addrs)
    ensures Lined(a, c, lo, hi, k, addrs)
  {
    hide Grown;
  }

  lemma {:induction false} LinedNone(was: seq<seq<Node>>, l: nat, k: int, addrs: seq<nat>)
    requires |was| <= |addrs|
    ensures Lined(was, was, l, l, k, addrs)
  {}

  lemma {:induction false} AllOf(a: seq<seq<Node>>, b: seq<seq<Node>>, c: seq<seq<Node>>, level: nat, k: int, addrs: seq<nat>)
    requires Lined(a, b, 0, level, k, addrs) && (c == b || (level < |b| && Joined(b, c, level, k, addrs)))
    ensures AllGrown(a, c, k, addrs)
  {
    forall l | 0 <= l < |a| ensures Grown(a[l], c[l], k, addrs[l], {0, addrs[l]}) {
      Unchanged(a[l], k, addrs[l], {0, addrs[l]});
      if l < level { NewGrow(a[l], c[l], k, addrs[l], {0}, {0, addrs[l]}); }
      else { NewGrow(a[l], c[l], k, addrs[l], {addrs[l]}, {0, addrs[l]}); }
      hide NodesStay, NewNodes, NewOrphans;
    }
  }

  /** Stand-ins for the node at j: its own, and new ones. */
  lemma {:induction false} TwoStay(layer: seq<Node>, j: nat, a: Node, b: Node, k: int, addr: nat, orphanAddrs: set<nat>)
    requires j < |layer| && Stays(layer[j], a, k)
    ensures NodesStay(layer, Replace(layer, j, [a]), k) && NodesStay(layer, Replace(layer, j, [a, b]), k)
    ensures NewOrphans(layer, Replace(layer, j, [a]), orphanAddrs)
    ensures b.orphan && b.addr in orphanAddrs ==> NewOrphans(layer, Replace(layer, j, [a, b]), orphanAddrs)
    ensures !b.orphan && StartsWith(b, k) && b.addr == addr ==> NewNodes(layer, Replace(layer, j, [a, b]), k, addr, orphanAddrs)
  {
    hide Stays, StartsWith;
    ReplaceStays(layer, j, [a], k);
    ReplaceStays(layer, j, [a, b], k);
    hide Replace, WasThere;
    forall m | 0 <= m < |Replace(layer, j, [a, b])| && !WasThere(layer, Replace(layer, j, [a, b])[m].id)
      ensures Replace(layer, j, [a, b])[m] == b
    {}
  }

  class Mirror {
    const cap: nat
    var levels: seq<seq<Node>>
    var nextId: nat

    ghost predicate Shaped()
      reads this
    {
      && |levels| >= 2
      && LayersOk(levels, seq(|levels|, _ => cap), nextId)
      && AllNoGaps(levels)
    }

    ghost predicate Valid()
      reads this
    {
      Shaped() && LinkedAbove(levels, 0)
    }

    constructor (layers: nat, cap: nat)
      requires layers >= 2 && cap > 0
      ensures Valid() && this.cap == cap && |levels| == layers
      ensures forall l :: 0 <= l < layers ==> levels[l] == [Node(0, true, 0, [])]
    {
      this.cap, this.nextId := cap, 1;
      this.levels := seq(layers, _ => [Node(0, true, 0, [])]);
      EmptyLayer(cap);
      hide LayerOk, Flat, Targets, NoGaps, IdsBelow;
    }

    /** Walks right from a node that starts at or below k. */
    method CheckNext(level: nat, start: nat, k: int) returns (j: nat)
      requires Shaped() && level < |levels| && start < |levels[level]| && Starts(levels[level], start, k)
      ensures Covers(levels[level], j, k)
    {
      hide Sorted, Flat;
      var layer := levels[level];
      j := start;
      while j + 1 < |layer| && (layer[j].entries == [] || k > layer[j].entries[|layer[j].entries| - 1].key)
        invariant j < |layer| && Starts(layer, j, k)
      {
        if k < layer[j + 1].entries[0].key {
          StopsHere(layer, j, k);
          return;
        }
        j := j + 1;
      }
      StopsHere(layer, j, k);
    }

    /** One step down: the target of the greatest entry at or below k, or the head of the next layer. */
    method Follow(level: nat, start: nat, k: int) returns (at: nat, down: nat)
      requires Shaped() && 0 < level < |levels| && LinkedAbove(levels, level - 1)
      requires start < |levels[level]| && Starts(levels[level], start, k)
      ensures Covers(levels[level], at, k)
      ensures down < |levels[level - 1]| && Starts(levels[level - 1], down, k)
      ensures var es := levels[level][at].entries; var p := FindLte(es, k);
              if p == 0 then down == 0 else levels[level - 1][down].id == es[p - 1].val
    {
      at := CheckNext(level, start, k);
      var es := levels[level][at].entries;
      var p := FindLte(es, k);
      if p == 0 { return at, 0; }
      DownStarts(levels[level - 1], levels[level], at, k, cap, cap);
      down := IndexOf(levels[level - 1], es[p - 1].val);
    }

    /** The node covering k at a level, searched from the head of the top layer. */
    method Descend(level: nat, k: int) returns (j: nat)
      requires Shaped() && LinkedAbove(levels, level) && level < |levels|
      ensures Covers(levels[level], j, k)
    {
      var layer := |levels| - 1;
      var curr: nat := 0;
      while layer > level
        invariant level <= layer < |levels| && curr < |levels[layer]| && Starts(levels[layer], curr, k)
      {
        var _, down := Follow(layer, curr, k);
        curr := down;
        layer := layer - 1;
      }
      j := CheckNext(level, curr, k);
    }

    /** The value at the greatest key at or below k in the whole directory, null when there is none. */
    method LocateData(k: int) returns (addr: nat)
      requires Valid()
      ensures var all := Flat(levels[0]); var p := FindLte(all, k);
              && (forall i :: 0 <= i < p ==> all[i].key <= k) && (forall i :: p <= i < |all| ==> k < all[i].key)
              && addr == if p > 0 then all[p - 1].val else 0
    {
      var j := Descend(0, k);
      CoverFindsLte(levels[0], j, k);
      FindLteMeans(Flat(levels[0]), k);
      var es := levels[0][j].entries;
      var p := FindLte(es, k);
      addr := if p > 0 then es[p - 1].val else 0;
    }

    lemma {:induction false} HeadStarts(k: int)
      requires Shaped()
      ensures forall l :: 0 <= l < |levels| ==> |levels[l]| > 0 && Starts(levels[l], 0, k)
    {
      forall l | 0 <= l < |levels| ensures |levels[l]| > 0 { LevelFacts(l); }
    }

    lemma {:induction false} LinkedBelow()
      requires Valid()
      ensures forall l: nat :: l < |levels| ==> LinkedAbove(levels, l)
    {}

    lemma {:induction false} LevelFacts(level: nat)
      requires Shaped() && level < |levels|
      ensures LayerOk(levels[level], cap) && IdsBelow(levels[level], nextId) && NoGaps(levels[level])
      ensures |levels[level]| > 0 && cap > 0
    {}

    lemma {:induction false} CoversIn(layer: seq<Node>, j: nat, k: int)
      requires Covers(layer, j, k)
      ensures j < |layer|
    {}

    lemma {:induction false} ScanOfLevel(level: nat, at: nat, k: int)
      requires Shaped() && level < |levels| && Covers(levels[level], at, k)
      ensures at < |levels[level]| && |levels[level]| > 0 && Scan(levels[level], 0, k) == at
    {
      ScanFindsCover(levels[level], 0, at, k);
    }

    /** At every level below the height, the remote address of the node a plain scan of that level ends at. */
    method GatherPrevs(k: int, height: nat) returns (prevs: seq<nat>)
      requires Valid() && 0 < height
      ensures |prevs| == height
      ensures forall l :: 0 <= l < height && l < |levels| ==> prevs[l] == levels[l][Scan(levels[l], 0, k)].addr
    {
      hide Sorted, Flat, LayersOk, AllNoGaps, Targets, LinkedAbove, Covers;
      HeadStarts(k);
      LinkedBelow();
      prevs := seq(height, _ => 0);
      var layer := |levels| - 1;
      var curr: nat := 0;
      while layer > 0
        invariant 0 <= layer < |levels| && curr < |levels[layer]| && Starts(levels[layer], curr, k) && |prevs| == height
        invariant forall l :: layer < l < height && l < |levels| ==> prevs[l] == levels[l][Scan(levels[l], 0, k)].addr
      {
        var at, down := Follow(layer, curr, k);
        ScanOfLevel(layer, at, k);
        if layer < height { prevs := prevs[layer := levels[layer][at].addr]; }
        curr := down;
        layer := layer - 1;
      }
      var at := CheckNext(0, curr, k);
      ScanOfLevel(0, at, k);
      prevs := prevs[0 := levels[0][at].addr];
    }
  
    // ---------- one level changes ----------

    lemma {:induction false} LevelChanged(was: seq<seq<Node>>, level: nat, r: seq<Node>, nextId': nat)
      requires |was| >= 2 && level < |was|
      requires LayersOk(was, seq(|was|, _ => cap), nextId) && AllNoGaps(was)
      requires LayerOk(r, cap) && IdsBelow(r, nextId') && NoGaps(r) && nextId <= nextId'
      ensures LayersOk(was[level := r], seq(|was|, _ => cap), nextId')
      ensures AllNoGaps(was[level := r])
    {
      hide LayerOk, NoGaps;
    }

    /** There is no room for k in front of everything the node holds. */
    predicate Overfull(n: Node, k: int) {
      n.entries != [] && |n.entries| == cap && k < n.entries[0].key
    }

    /** A full node that k would go in front of gives its upper half to an orphan first. */
    method ShedIfFull(level: nat, j: nat, k: int)
      requires Shaped() && level < |levels| && Covers(levels[level], j, k) && !Has(levels[level][j].entries, k)
      modifies this
      ensures Shaped() && |levels| == old(|levels|) && levels == old(levels)[level := levels[level]]
      ensures Flat(levels[level]) == Flat(old(levels)[level]) && Targets(levels[level]) == Targets(old(levels)[level])
      ensures Covers(levels[level], j, k) && !Has(levels[level][j].entries, k)
      ensures |levels[level][j].entries| - Find(levels[level][j].entries, k) < cap
      ensures NodesStay(old(levels)[level], levels[level], k) && NewOrphans(old(levels)[level], levels[level], {0})
      ensures if Overfull(old(levels)[level][j], k) then |levels[level]| == |old(levels)[level]| + 1 else levels == old(levels)
    {
      hide NodesStay, NewOrphans, LayersOk, AllNoGaps, Flat, Targets, Sorted, IdsBelow, NoGaps, LayerOk, NodeShed, Has, Find;
      LevelFacts(level);
      CoversIn(levels[level], j, k);
      hide Covers;
      var layer := levels[level];
      var es := layer[j].entries;
      Unchanged(layer, k, 0, {0});
      FullCover(layer, j, k, cap);
      if |es| == cap && k < es[0].key {
        ShedFacts(layer, k, cap, nextId);
        var r := Replace(layer, 0, NodeShed(layer[0], nextId));
        hide Replace;
        LevelChanged(levels, level, r, nextId + 1);
        levels, nextId := levels[level := r], nextId + 1;
      }
    }

    /** Only the head can be in the way of a key below it. */
    lemma {:induction false} FullCover(layer: seq<Node>, j: nat, k: int, cap: nat)
      requires LayerOk(layer, cap) && Covers(layer, j, k) && j < |layer| && !Has(layer[j].entries, k) && cap > 0
      ensures |layer[j].entries| <= cap && (|layer[j].entries| == cap && k < layer[j].entries[0].key ==> j == 0)
      ensures |layer[j].entries| < cap || layer[j].entries[0].key <= k ==> |layer[j].entries| - Find(layer[j].entries, k) < cap
    {
      assert NodeOk(layer[j], cap);
      if |layer[j].entries| == cap && layer[j].entries[0].key <= k { NotFirst(layer[j].entries, k); }
    }

    lemma {:induction false} ShedFacts(layer: seq<Node>, k: int, cap: nat, newId: nat)
      requires LayerOk(layer, cap) && Covers(layer, 0, k) && IdsBelow(layer, newId) && NoGaps(layer)
      requires |layer[0].entries| == cap > 0 && k < layer[0].entries[0].key
      ensures var r := Replace(layer, 0, NodeShed(layer[0], newId));
              && LayerOk(r, cap) && IdsBelow(r, newId + 1) && NoGaps(r) && Flat(r) == Flat(layer) && Targets(r) == Targets(layer)
              && Covers(r, 0, k) && |r| > 0 && |r[0].entries| < cap && !Has(r[0].entries, k)
              && NodesStay(layer, r, k) && NewOrphans(layer, r, {0}) && |r| == |layer| + 1
    {
      ShedKeeps(layer, k, cap, newId);
      ShedStays(layer, newId, k);
      var r := Replace(layer, 0, NodeShed(layer[0], newId));
      hide *;
      AboveHasNot(r[0].entries, k);
    }

    /** k becomes the first key of a new node that takes everything above it. */
    method SplitNew(level: nat, j: nat, e: Entry, addr: nat) returns (id: nat)
      requires Shaped() && level < |levels| && Covers(levels[level], j, e.key) && !Has(levels[level][j].entries, e.key)
      requires |levels[level][j].entries| - Find(levels[level][j].entries, e.key) < cap
      modifies this
      ensures Shaped() && |levels| == old(|levels|) && levels == old(levels)[level := levels[level]]
      ensures Flat(levels[level]) == Put(Flat(old(levels)[level]), e)
      ensures Targets(levels[level]) == Put(Targets(old(levels)[level]), Entry(e.key, id))
      ensures HasNode(levels[level], e.key, false, addr)
      ensures NodesStay(old(levels)[level], levels[level], e.key) && NewNodes(old(levels)[level], levels[level], e.key, addr, {})
      ensures |levels[level]| == |old(levels)[level]| + 1
    {
      hide LayersOk, AllNoGaps, Flat, Targets, Sorted, IdsBelow, NoGaps, NodesStay, NewNodes;
      var layer := levels[level];
      id := nextId;
      LevelFacts(level);
      CoversIn(layer, j, e.key);
      SplitStays(layer, j, e, cap, id, addr);
      var r := Replace(layer, j, NodeSplit(layer[j], e, id, addr));
      SplitKeeps(layer, j, e, cap, id, addr);
      At(layer, j, NodeSplit(layer[j], e, id, addr), j + 1);
      assert HasNode(r, e.key, false, addr) by { assert StartsWith(r[j + 1], e.key) && !r[j + 1].orphan; }
      assert NoGaps(layer);
      hide *;
      LevelChanged(levels, level, r, nextId + 1);
      levels, nextId := levels[level := r], nextId + 1;
    }

    /** The node is split at a key it already holds. */
    method SplitKnown(level: nat, j: nat, k: int, addr: nat) returns (id: nat)
      requires Shaped() && level < |levels| && Covers(levels[level], j, k)
      requires Has(levels[level][j].entries, k) && levels[level][j].entries[0].key != k
      modifies this
      ensures Shaped() && |levels| == old(|levels|) && levels == old(levels)[level := levels[level]]
      ensures Flat(levels[level]) == Flat(old(levels)[level])
      ensures Targets(levels[level]) == Put(Targets(old(levels)[level]), Entry(k, id))
      ensures HasNode(levels[level], k, false, addr)
      ensures NodesStay(old(levels)[level], levels[level], k) && NewNodes(old(levels)[level], levels[level], k, addr, {})
      ensures |levels[level]| == |old(levels)[level]| + 1
    {
      hide LayersOk, AllNoGaps, Flat, Targets, Sorted, IdsBelow, NoGaps, NodesStay, NewNodes;
      var layer := levels[level];
      id := nextId;
      LevelFacts(level);
      CoversIn(layer, j, k);
      SplitAtStays(layer, j, k, cap, id, addr);
      var r := Replace(layer, j, NodeSplitAt(layer[j], k, id, addr));
      SplitAtKeeps(layer, j, k, cap, id, addr);
      At(layer, j, NodeSplitAt(layer[j], k, id, addr), j + 1);
      assert HasNode(r, k, false, addr) by { assert StartsWith(r[j + 1], k) && !r[j + 1].orphan; }
      assert NoGaps(layer);
      hide *;
      LevelChanged(levels, level, r, nextId + 1);
      levels, nextId := levels[level := r], nextId + 1;
    }

    /** The node that already starts with k takes over the remote address. */
    method Adopt(level: nat, j: nat, k: int, addr: nat)
      requires Shaped() && level < |levels| && Covers(levels[level], j, k)
      requires StartsWith(levels[level][j], k) && !levels[level][j].orphan
      modifies this`levels
      ensures Shaped() && |levels| == old(|levels|) && levels == old(levels)[level := levels[level]]
      ensures Flat(levels[level]) == Flat(old(levels)[level]) && Targets(levels[level]) == Targets(old(levels)[level])
      ensures HasNode(levels[level], k, false, addr)
      ensures old(levels)[level][j].addr == addr ==> levels == old(levels)
      ensures NodesStay(old(levels)[level], levels[level], k) && NewOrphans(old(levels)[level], levels[level], {})
      ensures |levels[level]| == |old(levels)[level]|
    {
      hide LayersOk, AllNoGaps, Flat, Targets, Sorted, IdsBelow, NoGaps, NodesStay, NewOrphans;
      var layer := levels[level];
      LevelFacts(level);
      CoversIn(layer, j, k);
      TwoStay(layer, j, layer[j].(addr := addr), layer[j], k, addr, {});
      var r := Replace(layer, j, [layer[j].(addr := addr)]);
      RetagKeeps(layer, j, cap, nextId, addr);
      At(layer, j, [layer[j].(addr := addr)], j);
      assert HasNode(r, k, false, addr) by { assert StartsWith(r[j], k) && !r[j].orphan; }
      assert layer[j].addr == addr ==> r == layer;
      assert NoGaps(layer);
      hide *;
      LevelChanged(levels, level, r, nextId);
      levels := levels[level := r];
    }
  
    // ---------- k at one level ----------

    /** Makes k the first key of a node at this level and hands that node up as the target for the next
        level; gives up when k is the first key of an orphan. */
    method SplitAtLevel(k: int, level: nat, down: nat, addr: nat) returns (made: Made)
      requires Shaped() && level < |levels| && Pending(levels, level, Entry(k, down))
      modifies this
      ensures Shaped() && |levels| == old(|levels|) && levels == old(levels)[level := levels[level]]
      ensures Flat(levels[level]) == Put(Flat(old(levels)[level]), Entry(k, down))
      ensures made.NodeMade? ==>
        && Pending(levels, level + 1, Entry(k, made.id)) && HasNode(levels[level], k, false, addr)
        && Targets(levels[level]) == Put(Targets(old(levels)[level]), Entry(k, made.id))
      ensures made.Nothing? ==> levels == old(levels) && nextId == old(nextId) && HasNode(levels[level], k, true, 0)
      ensures old(HasNode(levels[level], k, false, addr)) ==>
        made.NodeMade? && levels == old(levels) && nextId == old(nextId)
      ensures old(HasNode(levels[level], k, true, 0)) ==> made.Nothing?
      ensures NodesStay(old(levels)[level], levels[level], k) && NewNodes(old(levels)[level], levels[level], k, addr, {0})
      ensures var was := old(levels)[level]; var n := was[Scan(was, 0, k)];
              |levels[level]| == |was| + (if StartsWith(n, k) then 0 else if Overfull(n, k) then 2 else 1)
    {
      hide NodesStay, NewNodes;
      PendingLinks(levels, level, Entry(k, down));
      var j := Descend(level, k);
      ScanOfLevel(level, j, k);
      var n := levels[level][j];
      CoverFacts(level, j, k);
      if n.entries != [] && n.entries[0].key == k {
        made := AtStart(level, j, k, down, addr);
        return;
      }
      var id := Divide(level, j, k, down, addr);
      made := NodeMade(id);
    }

    method Divide(level: nat, j: nat, k: int, down: nat, addr: nat) returns (id: nat)
      requires Shaped() && level < |levels| && Pending(levels, level, Entry(k, down))
      requires Covers(levels[level], j, k) && !StartsWith(levels[level][j], k)
      requires Has(Flat(levels[level]), k) == Has(levels[level][j].entries, k)
      modifies this
      ensures Shaped() && |levels| == old(|levels|) && levels == old(levels)[level := levels[level]]
      ensures Flat(levels[level]) == Put(Flat(old(levels)[level]), Entry(k, down))
      ensures Pending(levels, level + 1, Entry(k, id)) && HasNode(levels[level], k, false, addr)
      ensures Targets(levels[level]) == Put(Targets(old(levels)[level]), Entry(k, id))
      ensures NodesStay(old(levels)[level], levels[level], k) && NewNodes(old(levels)[level], levels[level], k, addr, {0})
      ensures |levels[level]| == |old(levels)[level]| + (if Overfull(old(levels)[level][j], k) then 2 else 1)
    {
      hide NodesStay, NewNodes, NewOrphans, LayersOk, AllNoGaps, Flat, Targets, Sorted, IdsBelow, NoGaps, Put, LayerOk, Pending;
      ghost var was := levels;
      if Has(levels[level][j].entries, k) {
        LevelFacts(level);
        NotOverfull(levels[level], j, k);
        id := SplitKnown(level, j, k, addr);
        NewGrow(was[level], levels[level], k, addr, {}, {0});
        PutPresent(Flat(was[level]), Entry(k, down));
      } else {
        LevelFacts(level);
        ShedIfFull(level, j, k);
        ghost var shed := levels[level];
        id := SplitNew(level, j, Entry(k, down), addr);
        LevelFacts(level);
        StayOn(was[level], shed, levels[level], k, cap);
        NewOn(was[level], shed, levels[level], k, addr, {0}, {}, cap);
        assert {0} + {} == {0};
      }
      hide *;
      Raised(was, level, levels[level], Entry(k, down), id);
    }

    lemma {:induction false} NotOverfull(layer: seq<Node>, j: nat, k: int)
      requires LayerOk(layer, cap) && Covers(layer, j, k) && Has(layer[j].entries, k)
      ensures !Overfull(layer[j], k)
    {
      CoversSplits(layer, j, k);
    }

    method AtStart(level: nat, j: nat, k: int, down: nat, addr: nat) returns (made: Made)
      requires Shaped() && level < |levels| && Pending(levels, level, Entry(k, down))
      requires Covers(levels[level], j, k) && StartsWith(levels[level][j], k)
      modifies this`levels
      ensures Shaped() && |levels| == old(|levels|) && levels == old(levels)[level := levels[level]]
      ensures Flat(levels[level]) == Put(Flat(old(levels)[level]), Entry(k, down))
      ensures made.NodeMade? ==>
        && Pending(levels, level + 1, Entry(k, made.id)) && HasNode(levels[level], k, false, addr)
        && Targets(levels[level]) == Put(Targets(old(levels)[level]), Entry(k, made.id))
      ensures made.Nothing? <==> old(levels)[level][j].orphan
      ensures made.Nothing? || old(levels)[level][j].addr == addr ==> levels == old(levels)
      ensures NodesStay(old(levels)[level], levels[level], k) && NewNodes(old(levels)[level], levels[level], k, addr, {0})
      ensures |levels[level]| == |old(levels)[level]|
    {
      hide NodesStay, NewNodes, NewOrphans, LayersOk, AllNoGaps, Flat, Targets, Put, Pending, Sorted, Has, HasNode, LayerOk;
      ghost var was := levels;
      CoversIn(levels[level], j, k);
      hide Covers;
      var n := levels[level][j];
      Unchanged(levels[level], k, addr, {0});
      StartFacts(level, j, k, down);
      if n.orphan { return Nothing; }
      Adopt(level, j, k, addr);
      NewGrow(was[level], levels[level], k, addr, {}, {0});
      hide StartsWith;
      Raised(was, level, levels[level], Entry(k, down), n.id);
      made := NodeMade(n.id);
    }

    lemma {:induction false} StartFacts(level: nat, j: nat, k: int, down: nat)
      requires Shaped() && level < |levels| && Covers(levels[level], j, k) && StartsWith(levels[level][j], k)
      ensures Put(Flat(levels[level]), Entry(k, down)) == Flat(levels[level])
      ensures !levels[level][j].orphan ==> Put(Targets(levels[level]), Entry(k, levels[level][j].id)) == Targets(levels[level])
    {
      StartHas(level, j, k);
      PutPresent(Flat(levels[level]), Entry(k, down));
      if !levels[level][j].orphan { StartIsTarget(levels[level], j); }
    }

    lemma {:induction false} StartHas(level: nat, j: nat, k: int)
      requires Shaped() && level < |levels| && Covers(levels[level], j, k) && StartsWith(levels[level][j], k)
      ensures Has(Flat(levels[level]), k) && LayerOk(levels[level], cap)
    {
      var layer := levels[level];
      CoveredHas(layer, j, k);
      CoversSplits(layer, j, k);
      HasMeans(layer[j].entries, k);
    }

    /** The covering node tells whether k is there, and is the node that starts with k if there is one. */
    lemma {:induction false} CoverFacts(level: nat, j: nat, k: int)
      requires Shaped() && level < |levels| && Covers(levels[level], j, k)
      ensures Has(Flat(levels[level]), k) == Has(levels[level][j].entries, k)
      ensures forall orphan, addr :: HasNode(levels[level], k, orphan, addr) ==>
        StartsWith(levels[level][j], k) && levels[level][j].orphan == orphan && (orphan || levels[level][j].addr == addr)
      ensures StartsWith(levels[level][j], k) && levels[level][j].orphan ==> HasNode(levels[level], k, true, 0)
    {
      var layer := levels[level];
      CoveredHas(layer, j, k);
      forall orphan, addr | HasNode(layer, k, orphan, addr)
        ensures StartsWith(layer[j], k) && layer[j].orphan == orphan && (orphan || layer[j].addr == addr)
      {
        var i :| 0 <= i < |layer| && StartsWith(layer[i], k) && layer[i].orphan == orphan && (orphan || layer[i].addr == addr);
        FirstIsCover(layer, i, j, k);
      }
    }

    /** Puts k into the node covering it at this level, which settles what was pending there. */
    method InsertAt(k: int, level: nat, down: nat, addr: nat)
      requires Shaped() && level < |levels| && Pending(levels, level, Entry(k, down))
      modifies this
      ensures Valid() && |levels| == old(|levels|) && levels == old(levels)[level := levels[level]]
      ensures Flat(levels[level]) == Put(Flat(old(levels)[level]), Entry(k, down))
      ensures Targets(levels[level]) == Targets(old(levels)[level])
      ensures Has(Flat(levels[level]), k)
      ensures Has(Flat(old(levels)[level]), k) ==> levels == old(levels) && nextId == old(nextId)
      ensures forall b :: NodesStay(old(levels)[level], levels[level], b)
      ensures NewOrphans(old(levels)[level], levels[level], {addr})
      ensures var was := old(levels)[level]; var n := was[Scan(was, 0, k)];
              |levels[level]| == |was| + (if !Has(n.entries, k) && |n.entries| == cap then 1 else 0)
    {
      hide NodesStay, NewOrphans;
      var e := Entry(k, down);
      PendingLinks(levels, level, e);
      var j := Descend(level, k);
      ScanOfLevel(level, j, k);
      CoverFacts(level, j, k);
      ghost var was := levels;
      InsertInto(level, j, e, addr);
      hide *;
      Parented(was, level, levels[level], e);
    }

    method InsertInto(level: nat, j: nat, e: Entry, addr: nat)
      requires Shaped() && level < |levels| && Covers(levels[level], j, e.key)
      requires Has(Flat(levels[level]), e.key) == Has(levels[level][j].entries, e.key)
      modifies this
      ensures Shaped() && |levels| == old(|levels|) && levels == old(levels)[level := levels[level]]
      ensures Flat(levels[level]) == Put(Flat(old(levels)[level]), e) && Has(Flat(levels[level]), e.key)
      ensures Targets(levels[level]) == Targets(old(levels)[level])
      ensures Has(Flat(old(levels)[level]), e.key) ==> levels == old(levels) && nextId == old(nextId)
      ensures forall b :: NodesStay(old(levels)[level], levels[level], b)
      ensures NewOrphans(old(levels)[level], levels[level], {addr})
      ensures var n := old(levels)[level][j];
              |levels[level]| == |old(levels)[level]| + (if !Has(n.entries, e.key) && |n.entries| == cap then 1 else 0)
    {
      hide LayersOk, AllNoGaps, Flat, Targets, Sorted, IdsBelow, NoGaps, NodesStay, NewOrphans;
      var layer := levels[level];
      LevelFacts(level);
      CoversIn(layer, j, e.key);
      var ns := NodeInsert(layer[j], e, cap, nextId, addr);
      var r := Replace(layer, j, ns);
      InsertKeeps(layer, j, e, cap, nextId, addr);
      InsertIds(layer, j, e, cap, nextId, addr);
      InsertStays(layer, j, e, cap, nextId, addr);
      PutHas(Flat(layer), e);
      assert j < |layer|;
      hide *;
      var bound := if |ns| == 1 then nextId else nextId + 1;
      LevelChanged(levels, level, r, bound);
      levels, nextId := levels[level := r], bound;
    }
  
    // ---------- what callers use ----------

    /** Mirrors a key inserted remotely with a height: below its top level it starts a node of its own,
        at its top level it joins the node covering it. */
    method MirrorInsert(k: int, height: nat, dataAddr: nat, addrs: seq<nat>, ghost supplied: seq<set<int>>)
      requires Valid() && 1 <= height <= |levels| + 1 && |addrs| >= |levels|
      requires Within(levels, supplied) && forall l :: 0 <= l < height - 1 && l < |levels| ==> k in supplied[l]
      modifies this
      ensures Valid() && |levels| == old(|levels|)
      ensures Flat(levels[0]) == Put(Flat(old(levels)[0]), Entry(k, dataAddr))
      ensures Within(levels, supplied)
      ensures !Has(Flat(old(levels)[0]), k) ==>
        forall l :: 0 <= l < height - 1 && l < |levels| ==> HasNode(levels[l], k, false, addrs[l])
      ensures AllGrown(old(levels), levels, k, addrs)
      ensures !Has(Flat(old(levels)[0]), k) ==> RaisedTo(old(levels), levels, height - 1, k, addrs)
    {
      hide LayersOk, LinkedAbove, Flat, Targets, Put, AllNoGaps, HasNode, Has, Lined, Joined, AllGrown, NodesStay, NewNodes, NewOrphans;
      var top := height - 1;
      ghost var was := levels;
      NotIndexed(k);
      AllLinked(levels, Entry(k, dataAddr));
      LinedNone(levels, 0, k, addrs);
      if top == 0 {
        Join(k, 0, dataAddr, addrs, supplied);
        AllOf(was, was, levels, 0, k, addrs);
        return;
      }
      var made := SplitAtLevel(k, 0, dataAddr, addrs[0]);
      if made.Nothing? {
        AllOf(was, was, levels, 0, k, addrs);
        NodeMeansHas(0, k);
        NothingPending(levels, Entry(k, dataAddr));
        return;
      }
      PutWithin(was, 0, levels[0], Entry(k, made.id), supplied);
      LinedOne(was, levels, 0, k, addrs);
      ghost var split := levels;
      var level, child := Rise(k, made.id, top, addrs, supplied);
      LinedOn(was, split, levels, 0, 1, level, k, addrs);
      ghost var risen := levels;
      if level < |levels| {
        Join(k, level, child, addrs, supplied);
      } else {
        NothingAbove(levels, Entry(k, child));
      }
      AllOf(was, risen, levels, level, k, addrs);
    }

    /** Levels 1 up to top: k starts a node of its own, until it is found to be an orphan's. */
    method Rise(k: int, first: nat, top: nat, addrs: seq<nat>, ghost supplied: seq<set<int>>) returns (level: nat, child: nat)
      requires Shaped() && 1 <= top <= |levels| <= |addrs| && Pending(levels, 1, Entry(k, first)) && Within(levels, supplied)
      requires forall l :: 0 <= l < top ==> k in supplied[l]
      modifies this
      ensures Shaped() && |levels| == old(|levels|) && Within(levels, supplied)
      ensures 1 <= level <= top && Pending(levels, level, Entry(k, child)) && Lined(old(levels), levels, 1, level, k, addrs)
      ensures levels[0] == old(levels)[0] && forall l :: level <= l < |levels| ==> levels[l] == old(levels)[l]
      ensures forall l :: 1 <= l < level ==> HasNode(levels[l], k, false, addrs[l])
      ensures level < top ==> Has(Flat(old(levels)[level]), k)
    {
      hide LayersOk, LinkedAbove, Flat, Targets, Put, AllNoGaps, HasNode, Has, Lined, NodesStay, NewNodes;
      ghost var was := levels;
      level, child := 1, first;
      LinedNone(levels, 1, k, addrs);
      while level < top
        invariant 1 <= level <= top <= |levels| == |was| && Shaped() && Within(levels, supplied)
        invariant Pending(levels, level, Entry(k, child)) && Lined(was, levels, 1, level, k, addrs) && levels[0] == was[0]
        invariant forall l :: level <= l < |levels| ==> levels[l] == was[l]
        invariant forall l :: 1 <= l < level ==> HasNode(levels[l], k, false, addrs[l])
      {
        ghost var before := levels;
        var next := SplitAtLevel(k, level, child, addrs[level]);
        if next.Nothing? { NodeMeansHas(level, k); break; }
        PutWithin(before, level, levels[level], Entry(k, next.id), supplied);
        LinedOne(before, levels, level, k, addrs);
        LinedOn(was, before, levels, 1, level, level + 1, k, addrs);
        child := next.id;
        level := level + 1;
      }
    }

    method Join(k: int, level: nat, child: nat, addrs: seq<nat>, ghost supplied: seq<set<int>>)
      requires Shaped() && level < |levels| <= |addrs| && Pending(levels, level, Entry(k, child)) && Within(levels, supplied)
      modifies this
      ensures Valid() && |levels| == old(|levels|) && levels == old(levels)[level := levels[level]] && Within(levels, supplied)
      ensures forall b :: Joined(old(levels), levels, level, b, addrs)
      ensures Flat(levels[level]) == Put(Flat(old(levels)[level]), Entry(k, child)) && Has(Flat(levels[level]), k)
      ensures Has(Flat(old(levels)[level]), k) ==> levels == old(levels) && nextId == old(nextId)
    {
      ghost var was := levels;
      InsertAt(k, level, child, addrs[level]);
      hide Flat, Targets, Put, Has;
      SameWithin(was, level, levels[level], supplied);
    }

    /** A key that is not in the directory is in no index layer. */
    lemma {:induction false} NotIndexed(k: int)
      requires Valid()
      ensures !Has(Flat(levels[0]), k) ==> forall l :: 0 <= l < |levels| ==> !Has(Flat(levels[l]), k)
    {
      forall l: nat | l < |levels| && Has(Flat(levels[l]), k) ensures Has(Flat(levels[0]), k) { IndexedIsStored(l, k); }
    }

    lemma {:induction false} IndexedIsStored(level: nat, k: int)
      requires Valid() && level < |levels| && Has(Flat(levels[level]), k)
      ensures Has(Flat(levels[0]), k)
    {
      if level > 0 {
        assert Flat(levels[level]) == Targets(levels[level - 1]);
        LevelFacts(level);
        LevelFacts(level - 1);
        TargetsHeld(levels[level], levels[level - 1], k);
        IndexedIsStored(level - 1, k);
      }
    }

    /** Repairs the mirror from what a remote descent saw: installs the entry of the data node, then lines
        nodes up with the remote boundary that starts the lowest node seen, as high as it is a boundary. */
    method MirrorReconcile(dataKMin: int, dataAddr: nat, path: seq<PathStep>, ghost supplied: seq<set<int>>)
      requires Valid()
      requires Within(levels, supplied) && forall l :: 0 <= l < |path| && l < |levels| ==> path[l].kMin in supplied[l]
      modifies this
      ensures Valid() && |levels| == old(|levels|)
      ensures var d := Put(Flat(old(levels)[0]), Entry(dataKMin, dataAddr));
              Flat(levels[0]) == if path == [] then d else Put(d, Entry(path[0].kMin, path[0].firstDown))
      ensures Within(levels, supplied)
      ensures Reconciled(levels, dataKMin, path)
      ensures old(Reconciled(levels, dataKMin, path)) ==> levels == old(levels) && nextId == old(nextId)
      ensures AllGrown(old(levels), levels, if path == [] then dataKMin else path[0].kMin, AddrsOf(path, |levels|))
    {
      hide LayersOk, LinkedAbove, Flat, Targets, Put, AllNoGaps, HasNode, Lined, Joined, AllGrown;
      ghost var was := levels;
      ghost var b := if path == [] then dataKMin else path[0].kMin;
      var addrs := AddrsOf(path, |levels|);
      AllLinked(levels, Entry(dataKMin, dataAddr));
      LevelFacts(0);
      Join(dataKMin, 0, dataAddr, addrs, supplied);
      assert Joined(was, levels, 0, b, addrs);
      if path == [] {
        LinedNone(was, 0, b, addrs);
        AllOf(was, was, levels, 0, b, addrs);
        return;
      }
      ghost var joined := levels;
      LineUp(dataKMin, path, supplied);
      LevelFacts(0);
      GrownOn(was, joined, levels, b, addrs, cap);
    }

    method LineUp(dataKMin: int, path: seq<PathStep>, ghost supplied: seq<set<int>>)
      requires Valid() && path != [] && Has(Flat(levels[0]), dataKMin)
      requires Within(levels, supplied) && forall l :: 0 <= l < |path| && l < |levels| ==> path[l].kMin in supplied[l]
      modifies this
      ensures Valid() && |levels| == old(|levels|)
      ensures Flat(levels[0]) == Put(Flat(old(levels)[0]), Entry(path[0].kMin, path[0].firstDown))
      ensures Within(levels, supplied)
      ensures Has(Flat(levels[0]), dataKMin) && exists s :: SettledAt(levels, path, s)
      ensures (exists s :: SettledAt(old(levels), path, s)) ==> levels == old(levels) && nextId == old(nextId)
      ensures AllGrown(old(levels), levels, path[0].kMin, AddrsOf(path, |levels|))
    {
      hide LayersOk, LinkedAbove, Flat, Targets, Put, AllNoGaps, HasNode, Has, Lined, Joined, AllGrown, NodesStay, NewNodes;
      var b := path[0].kMin;
      ghost var addrs := AddrsOf(path, |levels|);
      LinedNone(levels, 0, b, addrs);
      ghost var was, ids := levels, nextId;
      ghost var settled := exists s :: SettledAt(was, path, s);
      ghost var stop := if settled then (var s :| SettledAt(was, path, s); s) else 0;
      KeepsKey(0, Entry(b, path[0].firstDown), dataKMin);
      AllLinked(levels, Entry(b, path[0].firstDown));
      var made := SplitAtLevel(b, 0, path[0].firstDown, path[0].addr);
      if made.Nothing? {
        AllOf(was, was, levels, 0, b, addrs);
        NothingPending(levels, Entry(b, path[0].firstDown));
        assert SettledAt(levels, path, 0);
        return;
      }
      PutWithin(was, 0, levels[0], Entry(b, made.id), supplied);
      LinedOne(was, levels, 0, b, addrs);
      ghost var split := levels;
      var level, child, orphaned := Climb(b, made.id, path, supplied);
      LinedOn(was, split, levels, 0, 1, level, b, addrs);
      ghost var risen := levels;
      Parent(level, b, child, path, supplied, orphaned);
      AllOf(was, risen, levels, level, b, addrs);
      assert settled ==> level == stop;
      assert SettledAt(levels, path, level);
    }

    /** Builds nodes that start with b upwards from level 1 while b is a boundary there too. */
    method Climb(b: int, first: nat, path: seq<PathStep>, ghost supplied: seq<set<int>>)
      returns (level: nat, child: nat, ghost orphaned: bool)
      requires Shaped() && path != [] && path[0].kMin == b && Pending(levels, 1, Entry(b, first))
      requires HasNode(levels[0], b, false, path[0].addr)
      requires Within(levels, supplied) && forall l :: 0 <= l < |path| && l < |levels| ==> path[l].kMin in supplied[l]
      modifies this
      ensures Shaped() && |levels| == old(|levels|) && Within(levels, supplied) && levels[0] == old(levels)[0]
      ensures 1 <= level <= |levels| && level <= |path| && Pending(levels, level, Entry(b, child))
      ensures forall l :: 0 <= l < level ==> path[l].kMin == b && HasNode(levels[l], b, false, path[l].addr)
      ensures level < |path| && level < |levels| ==> path[level].kMin != b || orphaned
      ensures orphaned ==> level < |levels| && HasNode(levels[level], b, true, 0)
      ensures forall stop :: SettledAt(old(levels), path, stop) && stop > 0 ==>
        levels == old(levels) && nextId == old(nextId) && level == stop
      ensures Lined(old(levels), levels, 1, level, b, AddrsOf(path, |levels|))
    {
      hide LayersOk, LinkedAbove, Flat, Targets, Put, AllNoGaps, HasNode, Has, Lined, NodesStay, NewNodes;
      ghost var was, ids := levels, nextId;
      ghost var addrs := AddrsOf(path, |levels|);
      LinedNone(levels, 1, b, addrs);
      level, child, orphaned := 1, first, false;
      var top := if |path| < |levels| then |path| else |levels|;
      while level < top && path[level].kMin == b
        invariant 1 <= level <= top <= |levels| == |was| && Shaped() && Within(levels, supplied)
        invariant Pending(levels, level, Entry(b, child)) && levels[0] == was[0]
        invariant forall l :: 0 <= l < level ==> path[l].kMin == b && HasNode(levels[l], b, false, path[l].addr)
        invariant forall stop :: SettledAt(was, path, stop) && stop > 0 ==> levels == was && nextId == ids && level <= stop
        invariant !orphaned && Lined(was, levels, 1, level, b, addrs)
      {
        ghost var before := levels;
        var next := SplitAtLevel(b, level, child, path[level].addr);
        if next.Nothing? { orphaned := true; return; }
        PutWithin(before, level, levels[level], Entry(b, next.id), supplied);
        LinedOne(before, levels, level, b, addrs);
        LinedOn(was, before, levels, 1, level, level + 1, b, addrs);
        child := next.id;
        level := level + 1;
      }
    }

    /** What the climb stopped on gets its parent one level up. */
    method Parent(level: nat, b: int, child: nat, path: seq<PathStep>, ghost supplied: seq<set<int>>, ghost orphaned: bool)
      requires Shaped() && 1 <= level <= |levels| && Pending(levels, level, Entry(b, child)) && Within(levels, supplied)
      requires orphaned ==> level < |levels| && HasNode(levels[level], b, true, 0)
      modifies this
      ensures Valid() && |levels| == old(|levels|) && forall l :: 0 <= l < level ==> levels[l] == old(levels)[l]
      ensures Within(levels, supplied)
      ensures level < |levels| ==> Has(Flat(levels[level]), b)
      ensures orphaned ==> level < |levels| && HasNode(levels[level], b, true, 0)
      ensures level == |levels| || old(Has(Flat(levels[level]), b)) ==> levels == old(levels) && nextId == old(nextId)
      ensures if level < |levels| then Joined(old(levels), levels, level, b, AddrsOf(path, |levels|)) else levels == old(levels)
    {
      hide LayersOk, LinkedAbove, Flat, Targets, Put, AllNoGaps, HasNode, Has, Joined;
      ghost var before := levels;
      if level < |levels| {
        if orphaned { NodeMeansHas(level, b); }
        Join(b, level, child, AddrsOf(path, |levels|), supplied);
      } else {
        NothingAbove(levels, Entry(b, child));
      }
    }

    lemma {:induction false} NodeMeansHas(level: nat, k: int)
      requires Shaped() && level < |levels| && HasNode(levels[level], k, true, 0)
      ensures Has(Flat(levels[level]), k)
    {
      var layer := levels[level];
      assert LayerOk(layer, cap);
      var i :| 0 <= i < |layer| && StartsWith(layer[i], k);
      FlatMember(layer, layer[i].entries[0]);
      HasMeans(Flat(layer), k);
    }

    lemma {:induction false} KeepsKey(level: nat, e: Entry, k: int)
      requires Shaped() && level < |levels| && Has(Flat(levels[level]), k)
      ensures Has(Put(Flat(levels[level]), e), k)
    {
      assert LayerOk(levels[level], cap);
      PutKeepsHas(Flat(levels[level]), e, k);
    }
  }

  lemma {:induction false} ShedStays(layer: seq<Node>, newId: nat, k: int)
    requires |layer| > 0 && layer[0].orphan
    ensures var r := Replace(layer, 0, NodeShed(layer[0], newId));
            NodesStay(layer, r, k) && NewOrphans(layer, r, {0})
  {
    var ns := NodeShed(layer[0], newId);
    TwoStay(layer, 0, ns[0], ns[1], k, 0, {0});
  }

  lemma {:induction false} SplitStays(layer: seq<Node>, j: nat, e: Entry, cap: nat, newId: nat, addr: nat)
    requires LayerOk(layer, cap) && Covers(layer, j, e.key) && !Has(layer[j].entries, e.key)
    ensures j < |layer|
    ensures var r := Replace(layer, j, NodeSplit(layer[j], e, newId, addr));
            NodesStay(layer, r, e.key) && NewNodes(layer, r, e.key, addr, {})
  {
    CoveringStarts(layer, j, e.key, cap);
    var n, ns := layer[j], NodeSplit(layer[j], e, newId, addr);
    if !n.orphan { NotFirst(n.entries, e.key); }
    TwoStay(layer, j, ns[0], ns[1], e.key, addr, {});
  }

  lemma {:induction false} SplitAtStays(layer: seq<Node>, j: nat, k: int, cap: nat, newId: nat, addr: nat)
    requires LayerOk(layer, cap) && Covers(layer, j, k) && Has(layer[j].entries, k) && layer[j].entries[0].key != k
    ensures var r := Replace(layer, j, NodeSplitAt(layer[j], k, newId, addr));
            NodesStay(layer, r, k) && NewNodes(layer, r, k, addr, {})
  {
    var n, ns := layer[j], NodeSplitAt(layer[j], k, newId, addr);
    TwoStay(layer, j, ns[0], ns[1], k, addr, {});
  }

  lemma {:induction false} InsertStays(layer: seq<Node>, j: nat, e: Entry, cap: nat, newId: nat, addr: nat)
    requires LayerOk(layer, cap) && Covers(layer, j, e.key) && cap > 0 && IdsBelow(layer, newId)
    ensures j < |layer|
    ensures var r := Replace(layer, j, NodeInsert(layer[j], e, cap, newId, addr));
            (forall b :: NodesStay(layer, r, b)) && NewOrphans(layer, r, {addr})
  {
    CoversSplits(layer, j, e.key);
    CoveringStarts(layer, j, e.key, cap);
    var n, ns := layer[j], NodeInsert(layer[j], e, cap, newId, addr);
    InsertedStarts(n, e, cap, newId, addr);
    hide LayerOk, Covers, Put, Has, Find, StealHalfAndInsert, NodesStay, NewOrphans, NodeInsert;
    forall b ensures NodesStay(layer, Replace(layer, j, ns), b) && NewOrphans(layer, Replace(layer, j, ns), {addr}) {
      assert Stays(n, ns[0], b);
      assert ns == if |ns| == 1 then [ns[0]] else [ns[0], ns[1]];
      TwoStay(layer, j, ns[0], ns[|ns| - 1], b, addr, {addr});
    }
  }

  lemma {:induction false} InsertedStarts(n: Node, e: Entry, cap: nat, newId: nat, addr: nat)
    requires Sorted(n.entries) && cap > 0 && NodeOk(n, cap) && (!n.orphan ==> n.entries[0].key <= e.key)
    ensures var ns := NodeInsert(n, e, cap, newId, addr);
            && 1 <= |ns| <= 2 && ns[0].id == n.id && ns[0].orphan == n.orphan && ns[0].addr == n.addr
            && (!n.orphan ==> StartsWith(ns[0], n.entries[0].key))
            && (|ns| == 2 ==> ns[1].orphan && ns[1].addr == addr)
  {
    NodeInsertFlat(n, e, cap, newId, addr);
    var ns := NodeInsert(n, e, cap, newId, addr);
    if |ns| == 1 { FlatOne(ns[0]); } else { FlatTwo(ns[0], ns[1]); }
    hide Put, Has, Find, Sorted, StealHalfAndInsert, Flat, Targets;
  }

  /** Every boundary, the first key of a non-orphan, is one of the keys supplied for its level. */
  ghost predicate Within(levels: seq<seq<Node>>, supplied: seq<set<int>>) {
    && |supplied| == |levels|
    && forall l, t :: 0 <= l < |levels| && t in Targets(levels[l]) ==> t.key in supplied[l]
  }

  /** Where a reconciliation with this path stops, nothing is left to do: below, every level has a node
      that starts with the boundary and mirrors the remote address; there, the boundary is an entry. */
  ghost predicate SettledAt(levels: seq<seq<Node>>, path: seq<PathStep>, s: nat)
    requires path != []
  {
    var b := path[0].kMin;
    && s <= |path| && s <= |levels|
    && (forall l :: 0 <= l < s ==> path[l].kMin == b && HasNode(levels[l], b, false, path[l].addr))
    && (s < |path| && s < |levels| ==> path[s].kMin != b || HasNode(levels[s], b, true, 0))
    && (0 < s < |levels| ==> Has(Flat(levels[s]), b))
  }

  ghost predicate Reconciled(levels: seq<seq<Node>>, dataKMin: int, path: seq<PathStep>) {
    && |levels| > 0 && Has(Flat(levels[0]), dataKMin)
    && (path != [] ==> exists s :: SettledAt(levels, path, s))
  }

  lemma {:induction false} SameWithin(was: seq<seq<Node>>, level: nat, r: seq<Node>, supplied: seq<set<int>>)
    requires Within(was, supplied) && level < |was| && Targets(r) == Targets(was[level])
    ensures Within(was[level := r], supplied)
  {}

  lemma {:induction false} PutWithin(was: seq<seq<Node>>, level: nat, r: seq<Node>, t: Entry, supplied: seq<set<int>>)
    requires Within(was, supplied) && level < |was| && Targets(r) == Put(Targets(was[level]), t) && t.key in supplied[level]
    ensures Within(was[level := r], supplied)
  {
    forall x | x in Targets(r) ensures x.key in supplied[level] { PutMember(Targets(was[level]), t, x); }
  }

  lemma {:induction false} InsertIds(layer: seq<Node>, j: nat, e: Entry, cap: nat, newId: nat, addr: nat)
    requires j < |layer| && IdsBelow(layer, newId)
    ensures var ns := NodeInsert(layer[j], e, cap, newId, addr);
            && IdsBelow(Replace(layer, j, ns), if |ns| == 1 then newId else newId + 1)
            && (Has(layer[j].entries, e.key) ==> Replace(layer, j, ns) == layer && |ns| == 1)
  {
    var ns := NodeInsert(layer[j], e, cap, newId, addr);
    ReplaceIds(layer, j, ns, if |ns| == 1 then newId else newId + 1);
  }

  /** The break out of mirror_insert's climb can be reached: a key mirrored with height 2 is the first key of
      the head above, so mirroring it again with a greater height stops at that head. */
  method ClimbCanStop() returns (m: Mirror)
    ensures fresh(m) && m.Valid() && |m.levels| == 3
    ensures HasNode(m.levels[0], 5, false, 7) && HasNode(m.levels[1], 5, true, 0)
  {
    hide Within, Targets, Flat, Put, Has, HasNode, LayersOk, LinkedAbove, AllNoGaps;
    m := new Mirror(3, 4);
    ghost var supplied: seq<set<int>> := [{5}, {}, {}];
    EmptyWithin(m.levels, supplied);
    m.MirrorInsert(5, 2, 9, [7, 8, 8], supplied);
    StopsAbove(m, supplied);
  }

  lemma {:induction false} EmptyWithin(levels: seq<seq<Node>>, supplied: seq<set<int>>)
    requires |supplied| == |levels| > 0 && forall l :: 0 <= l < |levels| ==> levels[l] == [Node(0, true, 0, [])]
    ensures Within(levels, supplied) && Flat(levels[0]) == [] && !Has(Flat(levels[0]), 5)
  {
    EmptyLayer(4);
    forall l | 0 <= l < |levels| ensures Targets(levels[l]) == [] { assert levels[l] == [Node(0, true, 0, [])]; }
  }

  lemma {:induction false} StopsAbove(m: Mirror, supplied: seq<set<int>>)
    requires m.Valid() && |m.levels| == 3 && HasNode(m.levels[0], 5, false, 7) && Flat(m.levels[0]) == Put([], Entry(5, 9))
    requires Within(m.levels, supplied) && supplied[1] == {}
    ensures HasNode(m.levels[1], 5, true, 0)
  {
    m.LevelFacts(0);
    m.LevelFacts(1);
    var lower, upper := m.levels[0], m.levels[1];
    var j :| 0 <= j < |lower| && StartsWith(lower[j], 5) && !lower[j].orphan;
    StartIsTarget(lower, j);
    var t := Entry(5, lower[j].id);
    assert t in Flat(upper);
    FlatMember(upper, t);
    var i :| 0 <= i < |upper| && t in upper[i].entries;
    var f := upper[i].entries[0];
    OnlyFive(lower, upper, f, i);
    if !upper[i].orphan { StartIsTarget(upper, i); }
    assert StartsWith(upper[i], 5);
  }

  /** With one key stored, every index entry has that key. */
  lemma {:induction false} OnlyFive(lower: seq<Node>, upper: seq<Node>, f: Entry, i: nat)
    requires Flat(lower) == Put([], Entry(5, 9)) && Flat(upper) == Targets(lower)
    requires i < |upper| && f in upper[i].entries
    ensures f.key == 5
  {
    FlatMember(upper, f);
    TargetIsEntry(lower, f);
    var e :| e in Flat(lower) && e.key == f.key;
    PutMember([], Entry(5, 9), e);
  }

  lemma {:induction false} AboveHasNot(es: seq<Entry>, k: int)
    requires Above(es, k)
    ensures !Has(es, k)
  {}
}
