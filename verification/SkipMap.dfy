/** The skip vector as an ordered map, its operations run one at a time with any heights. Level 0 holds
    the data; level l above it is index layer l - 1. */
module SkipMap {
  import opened SkipVectors
  import opened SkipLayers
  import opened SkipOps
  import opened SkipSearch
  import opened SkipRemoval

  /** Only one level differs, and only in how its entries are spread over nodes. */
  ghost predicate Tidied(was: seq<seq<Node>>, now: seq<seq<Node>>, level: nat) {
    && |now| == |was| && level < |was| && now == was[level := now[level]]
    && Flat(now[level]) == Flat(was[level]) && Targets(now[level]) == Targets(was[level])
  }

  /** All levels hold what they held. */
  ghost predicate SameFlats(was: seq<seq<Node>>, now: seq<seq<Node>>) {
    && |now| == |was|
    && forall l :: 0 <= l < |was| ==> Flat(now[l]) == Flat(was[l]) && Targets(now[l]) == Targets(was[l])
  }

  /** All levels have the same nodes, but for empty ones that were unlinked. */
  ghost predicate SameNodes(was: seq<seq<Node>>, now: seq<seq<Node>>) {
    |now| == |was| && forall l :: 0 <= l < |was| ==> InUse(now[l]) == InUse(was[l])
  }

  /** A level gains one entry, for k, which it did not have. */
  ghost predicate Gains(was: seq<Entry>, now: seq<Entry>, k: int) {
    !Has(was, k) && exists id :: now == Put(was, Entry(k, id))
  }

  /** The index layers up to this height gain k and the others hold what they held. */
  ghost predicate IndexedTo(was: seq<seq<Node>>, now: seq<seq<Node>>, height: nat, k: int) {
    && |now| == |was|
    && forall l :: 0 < l < |was| ==> if l <= height then Gains(Flat(was[l]), Flat(now[l]), k) else Flat(now[l]) == Flat(was[l])
  }

  /** Every level loses k and nothing else. */
  ghost predicate Dropped(was: seq<seq<Node>>, now: seq<seq<Node>>, k: int) {
    |now| == |was| && forall l :: 0 <= l < |was| ==> Flat(now[l]) == Drop(Flat(was[l]), k)
  }

  lemma {:induction false} SameIndexed(was: seq<seq<Node>>, mid: seq<seq<Node>>, now: seq<seq<Node>>, height: nat, k: int)
    requires SameFlats(was, mid)
    ensures IndexedTo(mid, now, height, k) ==> IndexedTo(was, now, height, k)
    ensures SameFlats(mid, now) ==> SameFlats(was, now)
    ensures Dropped(mid, now, k) ==> Dropped(was, now, k)
  {
    hide Flat, Targets, Gains, Drop;
  }

  /** One level below m was not cleaned of k yet: level m + 1 no longer has it, level m still targets it. */
  ghost predicate PendingDrop(levels: seq<seq<Node>>, m: nat, k: int) {
    && (forall l :: 0 < l < |levels| && l != m + 1 ==> Flat(levels[l]) == Targets(levels[l - 1]))
    && (m + 1 < |levels| ==> Flat(levels[m + 1]) == Drop(Targets(levels[m]), k))
  }

  class SkipVectorMap {
    const caps: seq<nat>
    const mergeBelow: seq<nat>   // the least whole number not below merge_threshold * 2^EXP
    var levels: seq<seq<Node>>
    var nextId: nat

    ghost predicate Shaped()
      reads this
    {
      && |levels| >= 2 && |mergeBelow| == |levels|
      && LayersOk(levels, caps, nextId)
      && (forall l :: 0 <= l < |levels| ==> mergeBelow[l] <= caps[l])
      && AllOrphans(levels[|levels| - 1])
    }

    ghost predicate Valid()
      reads this
    {
      Shaped() && LinkedAbove(levels, 0)
    }

    ghost function Contents(): map<int, nat>
      reads this
      requires |levels| > 0
    {
      MapOf(Flat(levels[0]))
    }

    constructor (caps: seq<nat>, mergeBelow: seq<nat>)
      requires |caps| == |mergeBelow| >= 2 && forall l :: 0 <= l < |caps| ==> caps[l] > 0 && mergeBelow[l] <= caps[l]
      ensures Valid() && Contents() == map[]
    {
      this.caps, this.mergeBelow, this.nextId := caps, mergeBelow, 1;
      this.levels := seq(|caps|, _ => [Node(0, true, 0, [])]);
      new;
      hide Flat, Targets, Sorted;
      forall l | 0 <= l < |caps| ensures LayerOk(levels[l], caps[l]) && IdsBelow(levels[l], 1) { EmptyLayer(caps[l]); }
    }

    /** An orphan is merged when empty, and with cleanup also when both fit well below capacity. */
    predicate ShouldMerge(level: nat, n: Node, next: Node, cleanup: bool)
      requires level < |mergeBelow|
    {
      next.orphan && (next.entries == [] || (cleanup && |n.entries| + |next.entries| < mergeBelow[level]))
    }

    /** A search for k that has to look past node j finds nothing there that it would have to merge. */
    predicate Tidy(level: nat, layer: seq<Node>, j: nat, k: int)
      requires level < |mergeBelow|
    {
      j + 1 < |layer| && (layer[j].entries == [] || k > layer[j].entries[|layer[j].entries| - 1].key) ==>
        !ShouldMerge(level, layer[j], layer[j + 1], true)
    }

    lemma {:induction false} LevelTidied(was: seq<seq<Node>>, level: nat, r: seq<Node>)
      requires level < |was| && |was| == |caps| >= 2 && LayersOk(was, caps, nextId) && AllOrphans(was[|was| - 1])
      requires LayerOk(r, caps[level]) && IdsBelow(r, nextId) && (AllOrphans(was[level]) ==> AllOrphans(r))
      ensures LayersOk(was[level := r], caps, nextId) && AllOrphans(was[level := r][|was| - 1])
    {
      hide LayerOk, AllOrphans, IdsBelow;
    }

    /** Unlinks the orphans after node j that should be merged into it. */
    method MergeRun(level: nat, j: nat, k: int, cleanup: bool)
      requires Shaped() && level < |levels| && j < |levels[level]| && Starts(levels[level], j, k)
      modifies this`levels
      ensures Shaped() && Tidied(old(levels), levels, level)
      ensures j < |levels[level]| <= |old(levels)[level]| && Starts(levels[level], j, k)
      ensures !cleanup ==> SameNodes(old(levels), levels)
      ensures j + 1 < |levels[level]| ==> levels[level][j + 1].entries != []
      ensures j + 1 < |levels[level]| && levels[level][j + 1].orphan && cleanup ==>
                |levels[level][j].entries| + |levels[level][j + 1].entries| >= mergeBelow[level]
      ensures var layer := old(levels)[level];
              if j + 1 < |layer| && layer[j + 1].orphan && (layer[j + 1].entries == []
                   || (cleanup && |layer[j].entries| + |layer[j + 1].entries| < mergeBelow[level]))
              then |levels[level]| < |layer| else levels == old(levels)
    {
      hide LayersOk, AllOrphans, Starts, Flat, Targets, InUse;
      ghost var was := levels;
      ghost var first := j + 1 < |levels[level]| && ShouldMerge(level, levels[level][j], levels[level][j + 1], cleanup);
      while j + 1 < |levels[level]| && ShouldMerge(level, levels[level][j], levels[level][j + 1], cleanup)
        invariant Shaped() && Tidied(was, levels, level)
        invariant j < |levels[level]| <= |was[level]| && Starts(levels[level], j, k)
        invariant levels == was || (first && |levels[level]| < |was[level]|)
        invariant !cleanup ==> SameNodes(was, levels)
        decreases |levels[level]|
      {
        MergeOne(level, j, k, cleanup);
      }
      NextNotEmpty(level, j, cleanup);
    }

    method MergeOne(level: nat, j: nat, k: int, cleanup: bool)
      requires Shaped() && level < |levels| && j + 1 < |levels[level]| && Starts(levels[level], j, k)
      requires ShouldMerge(level, levels[level][j], levels[level][j + 1], cleanup)
      modifies this`levels
      ensures Shaped() && Tidied(old(levels), levels, level)
      ensures |levels[level]| == |old(levels)[level]| - 1 && Starts(levels[level], j, k)
      ensures !cleanup ==> SameNodes(old(levels), levels)
    {
      hide LayersOk, AllOrphans, Flat, Targets, Sorted, IdsBelow, NoGaps, InUse;
      if !cleanup { EmptyUnlinked(levels[level], j); }
      var layer := levels[level];
      LevelSorted(level);
      assert NodeOk(layer[j], caps[level]);
      MergeKeeps(layer, j, caps[level], nextId);
      var r := MergeNext(layer, j);
      LevelTidied(levels, level, r);
      assert !cleanup ==> SameNodes(levels, levels[level := r]);
      hide *;
      levels := levels[level := r];
    }

    lemma {:induction false} NextNotEmpty(level: nat, j: nat, cleanup: bool)
      requires Shaped() && level < |levels| && j < |levels[level]|
      requires j + 1 < |levels[level]| ==> !ShouldMerge(level, levels[level][j], levels[level][j + 1], cleanup)
      ensures j + 1 < |levels[level]| ==> levels[level][j + 1].entries != []
    {
      assert LayerOk(levels[level], caps[level]);
      if j + 1 < |levels[level]| { assert NodeOk(levels[level][j + 1], caps[level]); }
    }

    lemma {:induction false} LevelSorted(level: nat)
      requires Shaped() && level < |levels|
      ensures LayerOk(levels[level], caps[level]) && Sorted(Flat(levels[level])) && |levels[level]| > 0
      ensures |caps| == |levels| && caps[level] > 0 && IdsBelow(levels[level], nextId)
      ensures level == |levels| - 1 ==> AllOrphans(levels[level])
    {}

    /** Walks right from node start to the node covering k, merging on the way. */
    method CheckNext(level: nat, start: nat, k: int, cleanup: bool) returns (j: nat)
      requires Shaped() && level < |levels| && start < |levels[level]| && Starts(levels[level], start, k)
      modifies this`levels
      ensures Shaped() && Tidied(old(levels), levels, level) && Covers(levels[level], j, k)
      ensures if cleanup then Tidy(level, levels[level], j, k) else SameNodes(old(levels), levels)
    {
      hide Sorted, Flat, Targets, LayersOk, AllOrphans, Covers, InUse;
      ghost var was := levels;
      j := start;
      while j + 1 < |levels[level]|
            && (levels[level][j].entries == [] || k > levels[level][j].entries[|levels[level][j].entries| - 1].key)
        invariant Shaped() && Tidied(was, levels, level) && j < |levels[level]| && Starts(levels[level], j, k)
        invariant !cleanup ==> SameNodes(was, levels)
        decreases |levels[level]| - j
      {
        NextNotEmptyUnless(level, j, cleanup);
        if ShouldMerge(level, levels[level][j], levels[level][j + 1], cleanup) {
          MergeRun(level, j, k, cleanup);
          if j + 1 == |levels[level]| { break; }
          if cleanup { continue; }
        }
        if k < levels[level][j + 1].entries[0].key { break; }
        j := j + 1;
      }
      LevelSorted(level);
      StopsHere(levels[level], j, k);
    }

    lemma {:induction false} NextNotEmptyUnless(level: nat, j: nat, cleanup: bool)
      requires Shaped() && level < |levels| && j + 1 < |levels[level]|
      ensures ShouldMerge(level, levels[level][j], levels[level][j + 1], cleanup) || levels[level][j + 1].entries != []
    {
      if !ShouldMerge(level, levels[level][j], levels[level][j + 1], cleanup) { NextNotEmpty(level, j, cleanup); }
    }

    /** The variant used when loading: it merges without looking at the node's own last key again. */
    method CheckNextSequential(level: nat, start: nat, k: int) returns (j: nat)
      requires Shaped() && level < |levels| && start < |levels[level]| && Starts(levels[level], start, k)
      modifies this`levels
      ensures Shaped() && Tidied(old(levels), levels, level) && Covers(levels[level], j, k) && Tidy(level, levels[level], j, k)
    {
      hide Sorted, Flat, Targets, LayersOk, AllOrphans, Covers;
      ghost var was := levels;
      j := start;
      while j + 1 < |levels[level]|
            && (levels[level][j].entries == [] || k > levels[level][j].entries[|levels[level][j].entries| - 1].key)
        invariant Shaped() && Tidied(was, levels, level) && j < |levels[level]| && Starts(levels[level], j, k)
        decreases |levels[level]| - j
      {
        MergeRun(level, j, k, true);
        if j + 1 == |levels[level]| || k < levels[level][j + 1].entries[0].key { break; }
        j := j + 1;
      }
      LevelSorted(level);
      StopsHere(levels[level], j, k);
    }

    /** From level up, every layer is tidy at a node that covers k. */
    ghost predicate TidyFrom(layers: seq<seq<Node>>, level: nat, k: int)
      requires |layers| <= |mergeBelow|
    {
      forall l :: level <= l < |layers| ==> TidySomewhere(l, layers[l], k)
    }

    lemma {:induction false} TidyMore(was: seq<seq<Node>>, now: seq<seq<Node>>, level: nat, j: nat, k: int)
      requires Tidied(was, now, level) && |was| <= |mergeBelow| && TidyFrom(was, level + 1, k) && TidyCover(level, now[level], j, k)
      ensures TidyFrom(now, level, k)
    {
      hide TidyCover, Flat, Targets;
      assert TidySomewhere(level, now[level], k);
      hide TidySomewhere;
    }

    ghost predicate TidySomewhere(level: nat, layer: seq<Node>, k: int)
      requires level < |mergeBelow|
    {
      exists j: nat :: TidyCover(level, layer, j, k)
    }

    ghost predicate TidyCover(level: nat, layer: seq<Node>, j: nat, k: int)
      requires level < |mergeBelow|
    {
      Covers(layer, j, k) && Tidy(level, layer, j, k)
    }

    // ---------- looking up ----------

    lemma {:induction false} TidyLinks(was: seq<seq<Node>>, level: nat)
      requires Tidied(was, levels, level) && LinkedAbove(was, 0)
      ensures LinkedAbove(levels, 0) && SameFlats(was, levels)
    {
      hide Flat, Targets;
    }

    /** Where to go on one level below the node covering k. */
    method Down(level: nat, j: nat, k: int) returns (down: nat)
      requires Valid() && 0 < level < |levels| && Covers(levels[level], j, k)
      ensures down < |levels[level - 1]| && Starts(levels[level - 1], down, k)
      ensures var es := levels[level][j].entries; var p := FindLte(es, k);
              if p == 0 then down == 0 else levels[level - 1][down].id == es[p - 1].val
    {
      LevelSorted(level);
      LevelSorted(level - 1);
      var es := levels[level][j].entries;
      var p := FindLte(es, k);
      if p == 0 { return 0; }
      DownStarts(levels[level - 1], levels[level], j, k, caps[level - 1], caps[level]);
      down := IndexOf(levels[level - 1], es[p - 1].val);
    }

    /** Looking up moves no entry: it unlinks empty nodes at most. */
    method Contains(k: int) returns (found: bool, value: nat)
      requires Valid()
      modifies this`levels
      ensures Valid() && SameFlats(old(levels), levels)
      ensures found <==> k in Contents()
      ensures found ==> value == Contents()[k]
      ensures SameNodes(old(levels), levels)
    {
      hide Sorted, Flat, Targets, LayersOk, AllOrphans, Covers, LinkedAbove, Starts, InUse;
      ghost var was := levels;
      HeadStarts(k);
      var layer := |levels| - 1;
      var curr: nat := 0;
      while layer > 0
        invariant 0 <= layer < |levels| && Valid() && SameFlats(was, levels) && SameNodes(was, levels)
        invariant curr < |levels[layer]| && Starts(levels[layer], curr, k)
      {
        ghost var before := levels;
        curr := CheckNext(layer, curr, k, false);
        TidyLinks(before, layer);
        curr := Down(layer, curr, k);
        layer := layer - 1;
      }
      ghost var before := levels;
      var j := CheckNext(0, curr, k, false);
      TidyLinks(before, 0);
      DataHas(j, k);
      var es := levels[0][j].entries;
      found := Has(es, k);
      value := if found then es[Find(es, k)].val else 0;
    }

    lemma {:induction false} HeadStarts(k: int)
      requires Shaped()
      ensures forall l :: 0 <= l < |levels| ==> |levels[l]| > 0 && Starts(levels[l], 0, k)
    {
      forall l | 0 <= l < |levels| ensures |levels[l]| > 0 { LevelSorted(l); }
    }

    lemma {:induction false} DataHas(j: nat, k: int)
      requires Shaped() && Covers(levels[0], j, k)
      ensures j < |levels[0]|
      ensures var es := levels[0][j].entries;
              && (Has(es, k) <==> k in Contents())
              && (Has(es, k) ==> Contents()[k] == es[Find(es, k)].val && Find(es, k) < |es|)
    {
      LevelSorted(0);
      CoversSplits(levels[0], j, k);
      var a, b, c := Flat(levels[0][..j]), levels[0][j].entries, Flat(levels[0][j + 1..]);
      assert Flat(levels[0]) == a + b + c;
      hide Flat, Targets, LayersOk, Covers, Has, Find, MapOf, AllOrphans;
      FindInside(a, b, c, k);
      MapAt(Flat(levels[0]), k);
      HasMeans(b, k);
    }

    // ---------- inserting ----------

    lemma {:induction false} LevelReplaced(was: seq<seq<Node>>, level: nat, r: seq<Node>, bound: nat)
      requires level < |was| && |was| == |caps| >= 2 && LayersOk(was, caps, nextId) && AllOrphans(was[|was| - 1])
      requires LayerOk(r, caps[level]) && IdsBelow(r, bound) && nextId <= bound
      requires level == |was| - 1 ==> AllOrphans(r)
      ensures LayersOk(was[level := r], caps, bound) && AllOrphans(was[level := r][|was| - 1])
    {
      hide LayerOk, AllOrphans;
    }

    /** There is no room for k in front of everything the node holds. */
    predicate Overfull(level: nat, n: Node, k: int)
      requires level < |caps|
    {
      n.entries != [] && |n.entries| == caps[level] && k < n.entries[0].key
    }

    /** A full node that k would go in front of gives its upper half to an orphan first. */
    method ShedIfFull(level: nat, j: nat, k: int)
      requires Shaped() && level + 1 < |levels| && Covers(levels[level], j, k) && !Has(levels[level][j].entries, k)
      modifies this
      ensures Shaped() && Tidied(old(levels), levels, level)
      ensures Covers(levels[level], j, k) && !Has(levels[level][j].entries, k)
      ensures |levels[level][j].entries| - Find(levels[level][j].entries, k) < caps[level]
      ensures if Overfull(level, old(levels)[level][j], k) then |levels[level]| == |old(levels)[level]| + 1 else levels == old(levels)
    {
      hide LayersOk, AllOrphans, Flat, Targets, Sorted, IdsBelow, NoGaps;
      LevelSorted(level);
      var layer, cap := levels[level], caps[level];
      CoversIn(layer, j, k);
      var es := layer[j].entries;
      assert NodeOk(layer[j], cap);
      if |es| == cap && k < es[0].key {
        ShedKeeps(layer, k, cap, nextId);
        var r := Replace(layer, 0, NodeShed(layer[0], nextId));
        NoneAbove(r[0].entries, k);
        assert |r| == |layer| + 1;
        hide *;
        LevelReplaced(levels, level, r, nextId + 1);
        levels, nextId := levels[level := r], nextId + 1;
      } else if |es| == cap {
        NotFirst(es, k);
      }
    }

    lemma {:induction false} CoversIn(layer: seq<Node>, j: nat, k: int)
      requires Covers(layer, j, k)
      ensures j < |layer| && (j > 0 ==> layer[j].entries != [] && layer[j].entries[0].key <= k)
    {}

    lemma {:induction false} NoneAbove(es: seq<Entry>, k: int)
      requires Above(es, k)
      ensures !Has(es, k)
    {}

    /** k becomes the first key of a new node at this level; the next level must point to it. */
    method Partition(level: nat, j: nat, e: Entry) returns (id: nat)
      requires Shaped() && level + 1 < |levels| && Covers(levels[level], j, e.key) && Pending(levels, level, e)
      requires !Has(Flat(levels[level]), e.key)
      modifies this
      ensures Shaped() && |levels| == |old(levels)| && levels == old(levels)[level := levels[level]]
      ensures Flat(levels[level]) == Put(Flat(old(levels)[level]), e) && Pending(levels, level + 1, Entry(e.key, id))
      ensures |levels[level]| == |old(levels)[level]| + (if Overfull(level, old(levels)[level][j], e.key) then 2 else 1)
    {
      hide LayersOk, AllOrphans, Flat, Targets, Sorted, IdsBelow, NoGaps;
      ghost var was := levels;
      LevelSorted(level);
      CoveredHas(levels[level], j, e.key);
      ShedIfFull(level, j, e.key);
      id := SplitHere(level, j, e);
      hide *;
      Raised(was, level, levels[level], e, id);
    }

    method SplitHere(level: nat, j: nat, e: Entry) returns (id: nat)
      requires Shaped() && level + 1 < |levels| && Covers(levels[level], j, e.key) && !Has(levels[level][j].entries, e.key)
      requires |levels[level][j].entries| - Find(levels[level][j].entries, e.key) < caps[level]
      modifies this
      ensures Shaped() && |levels| == |old(levels)| && levels == old(levels)[level := levels[level]]
      ensures Flat(levels[level]) == Put(Flat(old(levels)[level]), e)
      ensures Targets(levels[level]) == Put(Targets(old(levels)[level]), Entry(e.key, id))
      ensures |levels[level]| == |old(levels)[level]| + 1
    {
      hide LayersOk, AllOrphans, Flat, Targets, Sorted, IdsBelow, NoGaps;
      var layer := levels[level];
      id := nextId;
      LevelSorted(level);
      CoversIn(layer, j, e.key);
      SplitKeeps(layer, j, e, caps[level], id, 0);
      hide *;
      var r := Replace(layer, j, NodeSplit(layer[j], e, id, 0));
      LevelReplaced(levels, level, r, nextId + 1);
      levels, nextId := levels[level := r], nextId + 1;
    }

    /** The entry joins the node covering it. */
    method InsertHere(level: nat, j: nat, e: Entry)
      requires Shaped() && level < |levels| && Covers(levels[level], j, e.key) && Pending(levels, level, e)
      modifies this
      ensures Valid() && |levels| == |old(levels)| && levels == old(levels)[level := levels[level]]
      ensures Flat(levels[level]) == Put(Flat(old(levels)[level]), e)
    {
      hide LayersOk, AllOrphans, Flat, Targets, Sorted, IdsBelow, NoGaps;
      ghost var was := levels;
      var layer := levels[level];
      LevelSorted(level);
      CoversIn(layer, j, e.key);
      InsertKeeps(layer, j, e, caps[level], nextId, 0);
      var ns := NodeInsert(layer[j], e, caps[level], nextId, 0);
      InsertOrphans(layer, j, e, caps[level], nextId);
      hide *;
      var r := Replace(layer, j, ns);
      LevelReplaced(levels, level, r, nextId + 1);
      levels, nextId := levels[level := r], nextId + 1;
      Parented(was, level, r, e);
    }

    lemma {:induction false} InsertOrphans(layer: seq<Node>, j: nat, e: Entry, cap: nat, newId: nat)
      requires j < |layer|
      ensures AllOrphans(layer) ==> AllOrphans(Replace(layer, j, NodeInsert(layer[j], e, cap, newId, 0)))
    {
      ReplaceOrphans(layer, j, NodeInsert(layer[j], e, cap, newId, 0));
    }

    // ---------- where a key goes ----------

    /** The covering node holds k as the greatest key at or below k exactly when the level holds k. */
    lemma {:induction false} FoundMeans(level: nat, j: nat, k: int)
      requires Shaped() && level < |levels| && Covers(levels[level], j, k)
      ensures j < |levels[level]| && NodeOk(levels[level][j], caps[level])
      ensures var es := levels[level][j].entries; var p := FindLte(es, k);
              && (p > 0 && es[p - 1].key == k <==> Has(Flat(levels[level]), k))
              && Has(Flat(levels[level]), k) == Has(es, k)
    {
      LevelSorted(level);
      CoveredHas(levels[level], j, k);
      CoversSplits(levels[level], j, k);
      HasMeans(levels[level][j].entries, k);
    }

    /** A key in an index layer is a key of the map. */
    lemma {:induction false} IndexedIsStored(level: nat, k: int)
      requires Valid() && level < |levels| && Has(Flat(levels[level]), k)
      ensures Has(Flat(levels[0]), k)
    {
      if level > 0 {
        assert Flat(levels[level]) == Targets(levels[level - 1]);
        LevelSorted(level);
        LevelSorted(level - 1);
        TargetsHeld(levels[level], levels[level - 1], k);
        IndexedIsStored(level - 1, k);
      }
    }

    /** The descent of insert: the covering node of every level up to the height, unless an index layer
        holds the key. */
    method FindPlaces(k: int, height: nat) returns (found: bool, prevs: seq<nat>, j: nat)
      requires Valid() && height < |levels|
      modifies this`levels
      ensures Valid() && SameFlats(old(levels), levels)
      ensures found ==> Has(Flat(levels[0]), k)
      ensures !found ==> |prevs| == |levels| && Covers(levels[0], j, k)
      ensures !found ==> forall l :: 0 < l <= height ==> Covers(levels[l], prevs[l], k) && !Has(Flat(levels[l]), k)
      ensures !found ==> TidyFrom(levels, 0, k)
    {
      hide Tidy,  Sorted, Flat, Targets, LayersOk, AllOrphans, Covers, LinkedAbove, Starts, FindLte, Has;
      ghost var was := levels;
      HeadStarts(k);
      prevs := seq(|levels|, _ => 0);
      var layer := |levels| - 1;
      var curr: nat := 0;
      while layer > 0
        invariant 0 <= layer < |levels| == |prevs| && Valid() && SameFlats(was, levels)
        invariant curr < |levels[layer]| && Starts(levels[layer], curr, k)
        invariant forall l :: layer < l <= height ==> Covers(levels[l], prevs[l], k) && !Has(Flat(levels[l]), k)
        invariant TidyFrom(levels, layer + 1, k)
      {
        ghost var before := levels;
        curr := CheckNextSequential(layer, curr, k);
        TidyLinks(before, layer);
        TidyMore(before, levels, layer, curr, k);
        FoundMeans(layer, curr, k);
        if layer <= height { prevs := prevs[layer := curr]; }
        var es := levels[layer][curr].entries;
        var p := FindLte(es, k);
        if p > 0 && es[p - 1].key == k {
          IndexedIsStored(layer, k);
          return true, prevs, 0;
        }
        curr := Down(layer, curr, k);
        layer := layer - 1;
      }
      ghost var before := levels;
      j := CheckNextSequential(0, curr, k);
      TidyLinks(before, 0);
      TidyMore(before, levels, 0, j, k);
      found := false;
    }

    /** Inserts with an arbitrary height: below it the key starts nodes of its own, at it the key joins a
        node. A key that is there already is left alone. */
    method InsertSeq(k: int, v: nat, height: nat) returns (inserted: bool)
      requires Valid() && height < |levels|
      modifies this
      ensures Valid()
      ensures inserted <==> k !in old(Contents())
      ensures Contents() == if inserted then old(Contents())[k := v] else old(Contents())
      ensures if inserted then IndexedTo(old(levels), levels, height, k) else SameFlats(old(levels), levels)
    {
      hide Sorted, Flat, Targets, LayersOk, AllOrphans, Covers, LinkedAbove, Starts, Pending, Has, Put, MapOf, IndexedTo, Dropped;
      ghost var was := levels;
      var found, prevs, j := FindPlaces(k, height);
      ghost var mid := levels;
      LevelSorted(0);
      MapAt(Flat(levels[0]), k);
      if found { return false; }
      FoundMeans(0, j, k);
      MapPut(Flat(levels[0]), Entry(k, v));
      AllLinked(levels, Entry(k, v));
      var held := Has(levels[0][j].entries, k);
      if height == 0 {
        InsertHere(0, j, Entry(k, v));
        OnlyData(mid, levels, Entry(k, v));
        SameIndexed(was, mid, levels, 0, k);
        return !held;
      }
      if held { return false; }
      Build(k, v, height, prevs, j);
      SameIndexed(was, mid, levels, height, k);
      return true;
    }

    lemma {:induction false} OnlyData(was: seq<seq<Node>>, now: seq<seq<Node>>, e: Entry)
      requires |was| == |now| >= 2 && now == was[0 := now[0]] && LinkedAbove(was, 0) && LinkedAbove(now, 0)
      requires Flat(now[0]) == Put(Flat(was[0]), e)
      ensures IndexedTo(was, now, 0, e.key) && (Has(Flat(was[0]), e.key) ==> SameFlats(was, now))
    {
      hide Flat, Targets, Put, Has;
      assert Targets(now[0]) == Flat(now[1]) && Flat(was[1]) == Targets(was[0]) && now[1] == was[1];
      if Has(Flat(was[0]), e.key) { PutPresent(Flat(was[0]), e); }
    }

    /** Partitions every level below the height and joins the node at the height. */
    method Build(k: int, v: nat, height: nat, prevs: seq<nat>, j: nat)
      requires Shaped() && 0 < height < |levels| == |prevs| && Pending(levels, 0, Entry(k, v))
      requires Covers(levels[0], j, k) && !Has(Flat(levels[0]), k)
      requires forall l :: 0 < l <= height ==> Covers(levels[l], prevs[l], k) && !Has(Flat(levels[l]), k)
      modifies this
      ensures Valid() && |levels| == |old(levels)| && Flat(levels[0]) == Put(Flat(old(levels)[0]), Entry(k, v))
      ensures IndexedTo(old(levels), levels, height, k)
    {
      hide Sorted, Flat, Targets, LayersOk, AllOrphans, Covers, LinkedAbove, Pending, Has, Put;
      ghost var was := levels;
      var child := Partition(0, j, Entry(k, v));
      var level := 1;
      while level < height
        invariant 1 <= level <= height < |levels| == |was| && Shaped() && Pending(levels, level, Entry(k, child))
        invariant Flat(levels[0]) == Put(Flat(was[0]), Entry(k, v))
        invariant forall l :: level <= l < |levels| ==> levels[l] == was[l]
        invariant forall l :: 0 < l < level ==> Gains(Flat(was[l]), Flat(levels[l]), k)
      {
        child := Partition(level, prevs[level], Entry(k, child));
        level := level + 1;
      }
      InsertHere(height, prevs[height], Entry(k, child));
    }

    // ---------- removing ----------

    /** Remove's "not the uppermost instance" restart cannot happen when operations run one at a time. */
    lemma {:induction false} NoRestart(level: nat, j: nat, k: int)
      requires Valid() && level < |levels| && j < |levels[level]|
      requires level + 1 < |levels| ==> !Has(Flat(levels[level + 1]), k)
      ensures levels[level][j].orphan || (levels[level][j].entries != [] && levels[level][j].entries[0].key != k)
    {
      LevelSorted(level);
      var n := levels[level][j];
      assert NodeOk(n, caps[level]);
      if !n.orphan && n.entries[0].key == k {
        StartIsTarget(levels[level], j);
      }
    }

    /** The descent of remove: stops at the uppermost level that holds k, or at the data. */
    method FindUppermost(k: int) returns (level: nat, j: nat)
      requires Valid()
      modifies this`levels
      ensures Valid() && SameFlats(old(levels), levels) && level < |levels|
      ensures Covers(levels[level], j, k) && j < |levels[level]|
      ensures level > 0 ==> Has(levels[level][j].entries, k)
      ensures forall l :: level < l < |levels| ==> !Has(Flat(levels[l]), k)
      ensures Has(levels[level][j].entries, k) == Has(Flat(levels[level]), k)
      ensures levels[level][j].orphan || (levels[level][j].entries != [] && levels[level][j].entries[0].key != k)
      ensures TidyFrom(levels, level, k)
    {
      hide Tidy, Sorted, Flat, Targets, LayersOk, AllOrphans, Covers, LinkedAbove, Starts, FindLte, Has;
      ghost var was := levels;
      HeadStarts(k);
      level := |levels| - 1;
      var curr: nat := 0;
      while level > 0
        invariant level < |levels| && Valid() && SameFlats(was, levels)
        invariant curr < |levels[level]| && Starts(levels[level], curr, k)
        invariant forall l :: level < l < |levels| ==> !Has(Flat(levels[l]), k)
        invariant TidyFrom(levels, level + 1, k)
      {
        ghost var before := levels;
        curr := CheckNext(level, curr, k, true);
        TidyLinks(before, level);
        TidyMore(before, levels, level, curr, k);
        FoundMeans(level, curr, k);
        var n := levels[level][curr];
        var p := FindLte(n.entries, k);
        if p > 0 && n.entries[p - 1].key == k {
          NoRestart(level, curr, k);
          if !n.orphan && n.entries[0].key == k { assert false; }
          return level, curr;
        }
        curr := Down(level, curr, k);
        level := level - 1;
      }
      ghost var before := levels;
      j := CheckNext(0, curr, k, true);
      TidyLinks(before, 0);
      TidyMore(before, levels, 0, j, k);
      FoundMeans(0, j, k);
      NoRestart(0, j, k);
      if !levels[0][j].orphan && levels[0][j].entries[0].key == k { assert false; }
    }

    /** Removes k: at its uppermost level it leaves its node, below that its nodes become orphans. */
    method Remove(k: int) returns (removed: bool)
      requires Valid()
      modifies this
      ensures Valid()
      ensures removed <==> k in old(Contents())
      ensures Contents() == old(Contents()) - {k}
      ensures Dropped(old(levels), levels, k)
    {
      hide Sorted, Flat, Targets, LayersOk, AllOrphans, Covers, LinkedAbove, Has, Drop, MapOf, PendingDrop, IndexedTo, Dropped;
      ghost var was := levels;
      var level, j := FindUppermost(k);
      ghost var mid := levels;
      LevelSorted(0);
      MapAt(Flat(levels[0]), k);
      MapDrop(Flat(levels[0]), k);
      removed := Has(levels[level][j].entries, k);
      if level == 0 {
        RemoveData(j, k);
        DroppedDown(mid, levels, 0, k);
        SameIndexed(was, mid, levels, 0, k);
        return;
      }
      IndexedIsStored(level, k);
      var down := RemoveTop(level, j, k);
      RemoveBelow(level, down, k);
      DroppedDown(mid, levels, level, k);
      SameIndexed(was, mid, levels, 0, k);
    }

    /** Below its uppermost level k starts a node of its own on every level. */
    method RemoveBelow(level: nat, child: nat, k: int)
      requires Shaped() && 0 < level < |levels| && PendingDrop(levels, level - 1, k)
      requires IndexOf(levels[level - 1], child) < |levels[level - 1]|
      requires StartsNonOrphan(levels[level - 1], IndexOf(levels[level - 1], child), k)
      modifies this`levels
      ensures Valid() && |levels| == |old(levels)|
      ensures forall l :: 0 <= l < |levels| ==>
        if l < level then Flat(levels[l]) == Drop(Flat(old(levels)[l]), k) else levels[l] == old(levels)[l]
    {
      hide Sorted, Flat, Targets, LayersOk, AllOrphans, Covers, LinkedAbove, Has, Drop, PendingDrop;
      var i, down := level - 1, child;
      ghost var was := levels;
      while i > 0
        invariant 0 <= i < level < |levels| == |was| && Shaped() && PendingDrop(levels, i, k)
        invariant IndexOf(levels[i], down) < |levels[i]| && StartsNonOrphan(levels[i], IndexOf(levels[i], down), k)
        invariant forall l :: 0 <= l < |was| ==>
          if i < l < level then Flat(levels[l]) == Drop(Flat(was[l]), k) else levels[l] == was[l]
      {
        down := RemoveMiddle(i, IndexOf(levels[i], down), k);
        i := i - 1;
      }
      RemoveBottom(IndexOf(levels[0], down), k);
    }

    lemma {:induction false} DroppedDown(was: seq<seq<Node>>, now: seq<seq<Node>>, level: nat, k: int)
      requires |was| == |now| && forall l :: level < l < |was| ==> !Has(Flat(was[l]), k) && now[l] == was[l]
      requires forall l :: 0 <= l <= level && l < |was| ==> Flat(now[l]) == Drop(Flat(was[l]), k)
      ensures Dropped(was, now, k)
    {
      hide Flat;
    }

    /** k, not known to the index, leaves the data. */
    method RemoveData(j: nat, k: int)
      requires Valid() && Covers(levels[0], j, k) && j < |levels[0]|
      requires levels[0][j].orphan || (levels[0][j].entries != [] && levels[0][j].entries[0].key != k)
      modifies this`levels
      ensures Valid() && |levels| == |old(levels)| && Flat(levels[0]) == Drop(Flat(old(levels)[0]), k)
      ensures levels == old(levels)[0 := levels[0]]
    {
      hide LayersOk, AllOrphans, Flat, Targets, Sorted, IdsBelow, NoGaps;
      ghost var was := levels;
      LevelSorted(0);
      RemoveKeeps(levels[0], j, k, caps[0], nextId);
      var r := Replace(levels[0], j, [Removed(levels[0][j], k)]);
      hide *;
      LevelReplaced(levels, 0, r, nextId);
      levels := levels[0 := r];
      SameTargets(was, 0, r);
    }

    lemma {:induction false} SameTargets(was: seq<seq<Node>>, level: nat, r: seq<Node>)
      requires level < |was| && LinkedAbove(was, 0) && Targets(r) == Targets(was[level])
      ensures level == 0 ==> LinkedAbove(was[level := r], 0)
    {}

    /** What an entry of level i points to starts with its key and is no orphan. */
    lemma {:induction false} ChildStarts(i: nat, j: nat, k: int)
      requires Shaped() && 0 < i < |levels| && j < |levels[i]| && Has(levels[i][j].entries, k)
      requires Flat(levels[i]) == Targets(levels[i - 1])
      ensures var id := levels[i][j].entries[Find(levels[i][j].entries, k)].val;
              IndexOf(levels[i - 1], id) < |levels[i - 1]| && StartsNonOrphan(levels[i - 1], IndexOf(levels[i - 1], id), k)
    {
      var e := levels[i][j].entries[Find(levels[i][j].entries, k)];
      LevelSorted(i - 1);
      FlatMember(levels[i], e);
      assert e in levels[i][j].entries;
      TargetIsEntry(levels[i - 1], e);
      var lower := levels[i - 1];
      var m :| 0 <= m < |lower| && !lower[m].orphan && lower[m].entries != [] && e == Entry(lower[m].entries[0].key, lower[m].id);
      SameId(lower, m, IndexOf(lower, e.val));
    }

    /** k leaves the node that holds it at its uppermost level. */
    method RemoveTop(level: nat, j: nat, k: int) returns (down: nat)
      requires Valid() && 0 < level < |levels| && Covers(levels[level], j, k) && j < |levels[level]|
      requires Has(levels[level][j].entries, k)
      requires levels[level][j].orphan || (levels[level][j].entries != [] && levels[level][j].entries[0].key != k)
      modifies this`levels
      ensures Shaped() && |levels| == |old(levels)| && PendingDrop(levels, level - 1, k) && Flat(levels[0]) == Flat(old(levels)[0])
      ensures levels == old(levels)[level := levels[level]] && Flat(levels[level]) == Drop(Flat(old(levels)[level]), k)
      ensures IndexOf(levels[level - 1], down) < |levels[level - 1]|
      ensures StartsNonOrphan(levels[level - 1], IndexOf(levels[level - 1], down), k)
    {
      hide LayersOk, AllOrphans, Flat, Targets, Sorted, IdsBelow, NoGaps;
      ghost var was := levels;
      LevelSorted(level);
      ChildStarts(level, j, k);
      down := levels[level][j].entries[Find(levels[level][j].entries, k)].val;
      RemoveKeeps(levels[level], j, k, caps[level], nextId);
      var r := Replace(levels[level], j, [Removed(levels[level][j], k)]);
      DropBegins(was, level, r, k);
      hide *;
      LevelReplaced(levels, level, r, nextId);
      levels := levels[level := r];
    }

    /** The node below, known by k, loses k and becomes an orphan. */
    method Disown(i: nat, j: nat, k: int)
      requires Shaped() && i + 1 < |levels| && StartsNonOrphan(levels[i], j, k)
      modifies this`levels
      ensures Shaped() && |levels| == |old(levels)| && levels == old(levels)[i := levels[i]]
      ensures Flat(levels[i]) == Drop(Flat(old(levels)[i]), k) && Targets(levels[i]) == Drop(Targets(old(levels)[i]), k)
    {
      LevelSorted(i);
      assert j < |levels[i]|;
      OrphanKeeps(levels[i], j, k, caps[i], nextId);
      hide *;
      var r := Replace(levels[i], j, [Removed(levels[i][j], k).(orphan := true)]);
      LevelReplaced(levels, i, r, nextId);
      levels := levels[i := r];
    }

    method RemoveMiddle(i: nat, j: nat, k: int) returns (down: nat)
      requires Shaped() && 0 < i && i + 1 < |levels| && PendingDrop(levels, i, k) && StartsNonOrphan(levels[i], j, k)
      modifies this`levels
      ensures Shaped() && |levels| == |old(levels)| && PendingDrop(levels, i - 1, k) && Flat(levels[0]) == Flat(old(levels)[0])
      ensures levels == old(levels)[i := levels[i]] && Flat(levels[i]) == Drop(Flat(old(levels)[i]), k)
      ensures IndexOf(levels[i - 1], down) < |levels[i - 1]|
      ensures StartsNonOrphan(levels[i - 1], IndexOf(levels[i - 1], down), k)
    {
      ghost var was := levels;
      FirstHas(levels[i][j].entries, k);
      ChildStarts(i, j, k);
      down := levels[i][j].entries[0].val;
      Disown(i, j, k);
      DropMoves(was, i, levels[i], k);
      hide *;
    }

    method RemoveBottom(j: nat, k: int)
      requires Shaped() && PendingDrop(levels, 0, k) && StartsNonOrphan(levels[0], j, k)
      modifies this`levels
      ensures Valid() && |levels| == |old(levels)| && Flat(levels[0]) == Drop(Flat(old(levels)[0]), k)
      ensures levels == old(levels)[0 := levels[0]]
    {
      ghost var was := levels;
      Disown(0, j, k);
      DropEnds(was, levels[0], k);
      hide *;
    }
  }

  ghost predicate StartsNonOrphan(layer: seq<Node>, j: nat, k: int) {
    j < |layer| && !layer[j].orphan && layer[j].entries != [] && layer[j].entries[0].key == k
  }

  lemma {:induction false} FirstHas(es: seq<Entry>, k: int)
    requires es != [] && es[0].key == k
    ensures Has(es, k) && Find(es, k) == 0
  {
    FindIs(es, k, 0);
  }

  lemma {:induction false} DropBegins(was: seq<seq<Node>>, level: nat, r: seq<Node>, k: int)
    requires 0 < level < |was| && LinkedAbove(was, 0)
    requires Flat(r) == Drop(Flat(was[level]), k) && Targets(r) == Targets(was[level])
    ensures PendingDrop(was[level := r], level - 1, k)
  {
    hide Flat, Targets, Drop;
  }

  lemma {:induction false} DropMoves(was: seq<seq<Node>>, i: nat, r: seq<Node>, k: int)
    requires 0 < i < |was| && PendingDrop(was, i, k)
    requires Flat(r) == Drop(Flat(was[i]), k) && Targets(r) == Drop(Targets(was[i]), k)
    ensures PendingDrop(was[i := r], i - 1, k)
  {
    hide Flat, Targets, Drop;
  }

  lemma {:induction false} DropEnds(was: seq<seq<Node>>, r: seq<Node>, k: int)
    requires 0 < |was| && PendingDrop(was, 0, k) && Targets(r) == Drop(Targets(was[0]), k)
    ensures LinkedAbove(was[0 := r], 0)
  {
    hide Flat, Targets, Drop;
  }
}
