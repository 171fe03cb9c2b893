/** Searching a stack of layers from the top down. */
module SkipSearch {
  import opened SkipVectors
  import opened SkipLayers
  import opened SkipOps

  /** levels[0] is the lowest. Each layer but the lowest holds exactly the targets of the one below. */
  ghost predicate LinkedAbove(levels: seq<seq<Node>>, m: nat) {
    forall l :: m < l < |levels| ==> Flat(levels[l]) == Targets(levels[l - 1])
  }

  ghost predicate LayersOk(levels: seq<seq<Node>>, caps: seq<nat>, nextId: nat) {
    && |levels| == |caps|
    && forall l :: 0 <= l < |levels| ==> LayerOk(levels[l], caps[l]) && IdsBelow(levels[l], nextId) && caps[l] > 0
  }

  /** Where the node with a given id is, or the layer's length. */
  function IndexOf(layer: seq<Node>, id: nat): (i: nat)
    ensures i <= |layer| && (i < |layer| ==> layer[i].id == id)
    ensures i == |layer| ==> forall j :: 0 <= j < |layer| ==> layer[j].id != id
  {
    if layer == [] then 0
    else if layer[0].id == id then 0
    else IndexOf(layer[1..], id) + 1
  }

  /** Following the greatest entry at or below k leads to a non-orphan that starts with its key. */
  lemma {:induction false} DownStarts(lower: seq<Node>, upper: seq<Node>, j: nat, k: int, cap: nat, cap': nat)
    requires LayerOk(lower, cap) && LayerOk(upper, cap') && Flat(upper) == Targets(lower) && Covers(upper, j, k)
    requires FindLte(upper[j].entries, k) > 0
    ensures var e := upper[j].entries[FindLte(upper[j].entries, k) - 1]; var i := IndexOf(lower, e.val);
            && i < |lower| && !lower[i].orphan && lower[i].entries != [] && lower[i].entries[0].key == e.key && e.key <= k
            && Starts(lower, i, k)
  {
    CoversSplits(upper, j, k);
    FindLteMeans(upper[j].entries, k);
    var e := upper[j].entries[FindLte(upper[j].entries, k) - 1];
    FlatMember(upper, e);
    assert e in Targets(lower);
    TargetIsEntry(lower, e);
    var i :| 0 <= i < |lower| && !lower[i].orphan && lower[i].entries != []
             && e == Entry(lower[i].entries[0].key, lower[i].id);
    SameId(lower, i, IndexOf(lower, e.val));
  }

  lemma {:induction false} SameId(layer: seq<Node>, i: nat, m: nat)
    requires (forall a, b :: 0 <= a < b < |layer| ==> layer[a].id != layer[b].id) && i < |layer| && m <= |layer|
    requires m < |layer| ==> layer[m].id == layer[i].id
    requires m == |layer| ==> forall j :: 0 <= j < |layer| ==> layer[j].id != layer[i].id
    ensures m == i
  {
    var a := layer[i];
    if m < |layer| { var b := layer[m]; }
  }

  // ---------- a plain scan ----------

  /** Where a scan from node j to the right ends. */
  function Scan(layer: seq<Node>, j: nat, k: int): (r: nat)
    requires j < |layer|
    ensures j <= r < |layer|
    decreases |layer| - j
  {
    if j + 1 < |layer| && layer[j + 1].entries != [] && layer[j + 1].entries[0].key <= k
    then Scan(layer, j + 1, k) else j
  }

  /** Whatever way a search took to the covering node, a plain scan of the layer from its head ends there too. */
  lemma {:induction false} ScanFindsCover(layer: seq<Node>, from: nat, j: nat, k: int)
    requires Sorted(Flat(layer)) && NoGaps(layer) && Covers(layer, j, k) && from <= j
    ensures Scan(layer, from, k) == j
    decreases j - from
  {
    if from < j {
      FirstBelow(layer, from + 1, j, k);
      ScanFindsCover(layer, from + 1, j, k);
    } else if j + 1 < |layer| {
      FlatStarts(layer[j + 1..]);
    }
  }

  /** Nodes up to the covering one start at or below the key. */
  lemma {:induction false} FirstBelow(layer: seq<Node>, i: nat, j: nat, k: int)
    requires Sorted(Flat(layer)) && NoGaps(layer) && Covers(layer, j, k) && 0 < i <= j
    ensures layer[i].entries != [] && layer[i].entries[0].key <= k
  {
    if i < j {
      CoversSplits(layer, j, k);
      var left := layer[..j];
      FlatMember(left, left[i].entries[0]);
      assert left[i].entries[0] in Flat(left);
    }
  }

  /** The node that starts with k, if there is one, is the covering one. */
  lemma {:induction false} FirstIsCover(layer: seq<Node>, i: nat, j: nat, k: int)
    requires Sorted(Flat(layer)) && Covers(layer, j, k) && i < |layer|
    requires layer[i].entries != [] && layer[i].entries[0].key == k
    ensures i == j
  {
    CoversSplits(layer, j, k);
    var e := layer[i].entries[0];
    if i < j {
      assert layer[..j][i] == layer[i];
      FlatMember(layer[..j], e);
    } else if i > j {
      assert layer[j + 1..][i - j - 1] == layer[i];
      FlatMember(layer[j + 1..], e);
    }
  }

  /** What the covering node says about k is what the whole layer says. */
  lemma {:induction false} CoverFindsLte(layer: seq<Node>, j: nat, k: int)
    requires Sorted(Flat(layer)) && Covers(layer, j, k)
    ensures var p, q := FindLte(Flat(layer), k), FindLte(layer[j].entries, k);
            && (p > 0 <==> q > 0) && (q > 0 ==> Flat(layer)[p - 1] == layer[j].entries[q - 1])
  {
    CoversSplits(layer, j, k);
    var a, b, c := Flat(layer[..j]), layer[j].entries, Flat(layer[j + 1..]);
    FindInside(a, b, c, k);
    var q := FindLte(b, k);
    if j == 0 {
      assert layer[..0] == [];
    } else {
      FindLteMeans(b, k);
      assert q > 0;
    }
    assert FindLte(a + b + c, k) == |a| + q;
  }

  // ---------- while an operation climbs ----------

  /** Every level but m matches the targets of the level below; level m still lacks e, unless it has it. */
  ghost predicate Pending(levels: seq<seq<Node>>, m: nat, e: Entry) {
    && (forall l :: 0 < l < |levels| && l != m ==> Flat(levels[l]) == Targets(levels[l - 1]))
    && (0 < m < |levels| ==> Put(Flat(levels[m]), e) == Targets(levels[m - 1]))
  }

  lemma {:induction false} PendingLinks(levels: seq<seq<Node>>, m: nat, e: Entry)
    requires Pending(levels, m, e) && m < |levels|
    ensures LinkedAbove(levels, m)
    ensures m == 0 ==> LinkedAbove(levels, 0)
  {}

  /** A level that took e and has a new target passes the debt one level up. */
  lemma {:induction false} Raised(was: seq<seq<Node>>, level: nat, r: seq<Node>, e: Entry, id: nat)
    requires level < |was| && Pending(was, level, e)
    requires Flat(r) == Put(Flat(was[level]), e) && Targets(r) == Put(Targets(was[level]), Entry(e.key, id))
    ensures Pending(was[level := r], level + 1, Entry(e.key, id))
  {}

  lemma {:induction false} Parented(was: seq<seq<Node>>, level: nat, r: seq<Node>, e: Entry)
    requires level < |was| && Pending(was, level, e)
    requires Flat(r) == Put(Flat(was[level]), e) && Targets(r) == Targets(was[level])
    ensures LinkedAbove(was[level := r], 0)
  {}

  lemma {:induction false} AllLinked(levels: seq<seq<Node>>, e: Entry)
    requires LinkedAbove(levels, 0)
    ensures Pending(levels, 0, e)
  {}

  lemma {:induction false} NothingPending(levels: seq<seq<Node>>, e: Entry)
    requires Pending(levels, 0, e)
    ensures LinkedAbove(levels, 0)
  {}

  lemma {:induction false} NothingAbove(levels: seq<seq<Node>>, e: Entry)
    requires Pending(levels, |levels|, e)
    ensures LinkedAbove(levels, 0)
  {}

  /** A key of an index layer is a key of the layer below. */
  lemma {:induction false} TargetsHeld(upper: seq<Node>, lower: seq<Node>, k: int)
    requires Flat(upper) == Targets(lower) && Has(Flat(upper), k) && Sorted(Flat(upper)) && Sorted(Flat(lower))
    ensures Has(Flat(lower), k)
  {
    HasMeans(Flat(upper), k);
    TargetIsEntry(lower, Flat(upper)[Find(Flat(upper), k)]);
    HasMeans(Flat(lower), k);
  }

  /** A boundary at one level is a boundary at every level below. */
  lemma {:induction false} BoundariesNest(levels: seq<seq<Node>>, caps: seq<nat>, nextId: nat, upper: nat, lower: nat, k: int)
    requires LayersOk(levels, caps, nextId) && LinkedAbove(levels, 0) && lower <= upper < |levels|
    requires exists t :: t in Targets(levels[upper]) && t.key == k
    ensures exists t :: t in Targets(levels[lower]) && t.key == k
    decreases upper - lower
  {
    if lower < upper {
      BoundariesNest(levels, caps, nextId, upper, lower + 1, k);
      var t :| t in Targets(levels[lower + 1]) && t.key == k;
      TargetIsEntry(levels[lower + 1], t);
      var e :| e in Flat(levels[lower + 1]) && e.key == k;
      assert e in Targets(levels[lower]);
    }
  }
}
