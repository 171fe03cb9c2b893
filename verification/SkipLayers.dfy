/** Layers of a skip vector: nodes in the order of their next links, each holding a vector. A node is
    known by its id, which is what down pointers hold. */
module SkipLayers {
  import opened SkipVectors

  datatype Node = Node(id: nat, orphan: bool, addr: nat, entries: seq<Entry>)

  /** All entries of a layer, left to right. */
  function Flat(layer: seq<Node>): seq<Entry> {
    if layer == [] then [] else Flat(layer[..|layer| - 1]) + layer[|layer| - 1].entries
  }

  function Target(n: Node): (t: seq<Entry>)
    ensures |t| <= 1
  {
    if n.orphan || n.entries == [] then [] else [Entry(n.entries[0].key, n.id)]
  }

  /** What the layer above must hold: every non-orphan under its first key. */
  function Targets(layer: seq<Node>): seq<Entry> {
    if layer == [] then [] else Targets(layer[..|layer| - 1]) + Target(layer[|layer| - 1])
  }

  /** Heads have id 0. */
  ghost predicate LayerOk(layer: seq<Node>, cap: nat) {
    && |layer| > 0 && layer[0].orphan && layer[0].id == 0
    && (forall i, j :: 0 <= i < j < |layer| ==> layer[i].id != layer[j].id)
    && Sorted(Flat(layer))
    && (forall i :: 0 <= i < |layer| ==> NodeOk(layer[i], cap))
  }

  ghost predicate NodeOk(n: Node, cap: nat) {
    |n.entries| <= cap && (!n.orphan ==> n.entries != [])
  }

  ghost predicate NoGaps(layer: seq<Node>) {
    forall i :: 0 < i < |layer| ==> layer[i].entries != []
  }

  // ---------- concatenation ----------

  lemma {:induction false} FlatConcat(a: seq<Node>, b: seq<Node>)
    ensures Flat(a + b) == Flat(a) + Flat(b)
  {
    if b == [] {
      assert a + b == a;
    } else {
      var last := b[|b| - 1];
      assert (a + b)[..|a + b| - 1] == a + b[..|b| - 1];
      FlatConcat(a, b[..|b| - 1]);
      Assoc(Flat(a), Flat(b[..|b| - 1]), last.entries);
    }
  }

  lemma {:induction false} Assoc(a: seq<Entry>, b: seq<Entry>, c: seq<Entry>)
    ensures (a + b) + c == a + (b + c)
  {}

  lemma {:induction false} TargetsConcat(a: seq<Node>, b: seq<Node>)
    ensures Targets(a + b) == Targets(a) + Targets(b)
  {
    if b == [] {
      assert a + b == a;
    } else {
      assert (a + b)[..|a + b| - 1] == a + b[..|b| - 1];
      TargetsConcat(a, b[..|b| - 1]);
      Assoc(Targets(a), Targets(b[..|b| - 1]), Target(b[|b| - 1]));
    }
  }

  lemma {:induction false} FlatOne(n: Node)
    ensures Flat([n]) == n.entries && Targets([n]) == Target(n)
  {
    assert [n][..0] == [];
    assert Flat([]) == [];
  }

  lemma {:induction false} FlatTwo(n: Node, m: Node)
    ensures Flat([n, m]) == n.entries + m.entries && Targets([n, m]) == Target(n) + Target(m)
  {
    FlatConcat([n], [m]);
    TargetsConcat([n], [m]);
    assert [n] + [m] == [n, m];
    FlatOne(n);
    FlatOne(m);
  }

  /** The layer with node j replaced by the nodes ns. */
  function Replace(layer: seq<Node>, j: nat, ns: seq<Node>): seq<Node>
    requires j < |layer|
  {
    layer[..j] + ns + layer[j + 1..]
  }

  lemma {:induction false} FlatReplace(layer: seq<Node>, j: nat, ns: seq<Node>)
    requires j < |layer|
    ensures Flat(layer) == Flat(layer[..j]) + layer[j].entries + Flat(layer[j + 1..])
    ensures Flat(Replace(layer, j, ns)) == Flat(layer[..j]) + Flat(ns) + Flat(layer[j + 1..])
    ensures Targets(layer) == Targets(layer[..j]) + Target(layer[j]) + Targets(layer[j + 1..])
    ensures Targets(Replace(layer, j, ns)) == Targets(layer[..j]) + Targets(ns) + Targets(layer[j + 1..])
  {
    var a, c := layer[..j], layer[j + 1..];
    assert layer == a + [layer[j]] + c;
    FlatOne(layer[j]);
    FlatConcat(a + [layer[j]], c);
    FlatConcat(a, [layer[j]]);
    TargetsConcat(a + [layer[j]], c);
    TargetsConcat(a, [layer[j]]);
    FlatConcat(a + ns, c);
    FlatConcat(a, ns);
    TargetsConcat(a + ns, c);
    TargetsConcat(a, ns);
  }

  /** One node more. */
  lemma {:induction false} FlatNext(layer: seq<Node>, i: nat)
    requires i < |layer|
    ensures Flat(layer[..i + 1]) == Flat(layer[..i]) + layer[i].entries
    ensures Targets(layer[..i + 1]) == Targets(layer[..i]) + Target(layer[i])
  {
    assert layer[..i + 1][..i] == layer[..i];
  }

  lemma {:induction false} WholeSlice<T>(s: seq<T>)
    ensures s[..|s|] == s
  {}

  /** Every entry of a layer is in one of its nodes, and the other way round. */
  lemma {:induction false} FlatMember(layer: seq<Node>, e: Entry)
    ensures e in Flat(layer) <==> exists i :: 0 <= i < |layer| && e in layer[i].entries
  {
    if layer != [] {
      var n := |layer| - 1;
      FlatMember(layer[..n], e);
      if e in Flat(layer[..n]) {
        var i :| 0 <= i < |layer[..n]| && e in layer[..n][i].entries;
        assert e in layer[i].entries;
      }
      if i :| 0 <= i < |layer| && e in layer[i].entries {
        if i < n { assert e in layer[..n][i].entries; }
      }
    }
  }

  lemma {:induction false} TargetsMember(layer: seq<Node>, e: Entry)
    ensures e in Targets(layer) <==> exists i :: 0 <= i < |layer| && e in Target(layer[i])
  {
    if layer != [] {
      var n := |layer| - 1;
      TargetsMember(layer[..n], e);
      if e in Targets(layer[..n]) {
        var i :| 0 <= i < |layer[..n]| && e in Target(layer[..n][i]);
        assert e in Target(layer[i]);
      }
      if i :| 0 <= i < |layer| && e in Target(layer[i]) {
        if i < n { assert e in Target(layer[..n][i]); }
      }
    }
  }

  // ---------- the node covering a key ----------

  /** Node j is where a scan for k ends up: nothing to its right is at or below k, and it starts at or
      below k unless it is the head. */
  ghost predicate Covers(layer: seq<Node>, j: nat, k: int) {
    && j < |layer| && Starts(layer, j, k)
    && Above(Flat(layer[j + 1..]), k)
  }

  predicate Starts(layer: seq<Node>, j: nat, k: int)
    requires j < |layer|
  {
    j == 0 || (layer[j].entries != [] && layer[j].entries[0].key <= k)
  }

  /** Around the covering node everything is strictly smaller on the left and strictly greater on the right. */
  lemma {:induction false} CoversSplits(layer: seq<Node>, j: nat, k: int)
    requires Sorted(Flat(layer)) && Covers(layer, j, k)
    ensures Below(Flat(layer[..j]), k) && Above(Flat(layer[j + 1..]), k) && Sorted(layer[j].entries)
    ensures Flat(layer) == Flat(layer[..j]) + layer[j].entries + Flat(layer[j + 1..])
  {
    FlatReplace(layer, j, []);
    var a, b, c := Flat(layer[..j]), layer[j].entries, Flat(layer[j + 1..]);
    SortedParts(a + b, c);
    SortedParts(a, b);
    if j == 0 { assert layer[..0] == []; }
  }

  lemma {:induction false} CoveredHas(layer: seq<Node>, j: nat, k: int)
    requires Sorted(Flat(layer)) && Covers(layer, j, k)
    ensures Has(Flat(layer), k) == Has(layer[j].entries, k)
  {
    CoversSplits(layer, j, k);
    FindInside(Flat(layer[..j]), layer[j].entries, Flat(layer[j + 1..]), k);
  }

  /** A node that starts at or below k, with nothing at or below k in its successor, covers k. */
  lemma {:induction false} StopsHere(layer: seq<Node>, j: nat, k: int)
    requires Sorted(Flat(layer)) && j < |layer| && Starts(layer, j, k)
    requires || j + 1 == |layer|
             || (layer[j].entries != [] && k <= layer[j].entries[|layer[j].entries| - 1].key)
             || (layer[j + 1].entries != [] && k < layer[j + 1].entries[0].key)
    ensures Covers(layer, j, k)
  {
    if j + 1 == |layer| {
      assert layer[j + 1..] == [];
      assert Flat([]) == [];
    } else if layer[j].entries != [] && k <= layer[j].entries[|layer[j].entries| - 1].key {
      StopsAtLast(layer, j, k);
    } else {
      StopsBeforeNext(layer, j, k);
    }
  }

  lemma {:induction false} StopsAtLast(layer: seq<Node>, j: nat, k: int)
    requires Sorted(Flat(layer)) && j < |layer|
    requires layer[j].entries != [] && k <= layer[j].entries[|layer[j].entries| - 1].key
    ensures Above(Flat(layer[j + 1..]), k)
  {
    FlatReplace(layer, j, []);
    AfterLast(Flat(layer[..j]), layer[j].entries, Flat(layer[j + 1..]), k);
  }

  lemma {:induction false} AfterLast(a: seq<Entry>, b: seq<Entry>, c: seq<Entry>, k: int)
    requires Sorted(a + b + c) && b != [] && k <= b[|b| - 1].key
    ensures Above(c, k)
  {
    SortedParts(a + b, c);
    assert (a + b)[|a| + |b| - 1] == b[|b| - 1];
  }

  lemma {:induction false} StopsBeforeNext(layer: seq<Node>, j: nat, k: int)
    requires Sorted(Flat(layer)) && j + 1 < |layer|
    requires layer[j + 1].entries != [] && k < layer[j + 1].entries[0].key
    ensures Above(Flat(layer[j + 1..]), k)
  {
    FlatReplace(layer, j, []);
    SortedParts(Flat(layer[..j]) + layer[j].entries, Flat(layer[j + 1..]));
    FlatStarts(layer[j + 1..]);
  }

  lemma {:induction false} FlatStarts(layer: seq<Node>)
    requires |layer| > 0 && layer[0].entries != []
    ensures |Flat(layer)| > 0 && Flat(layer)[0] == layer[0].entries[0]
  {
    FlatConcat([layer[0]], layer[1..]);
    assert layer == [layer[0]] + layer[1..];
    FlatOne(layer[0]);
  }

  // ---------- keys of targets are keys of the layer ----------

  lemma {:induction false} TargetsBelow(layer: seq<Node>, k: int)
    requires Below(Flat(layer), k)
    ensures Below(Targets(layer), k)
  {
    forall i | 0 <= i < |Targets(layer)| ensures Targets(layer)[i].key < k {
      TargetIsEntry(layer, Targets(layer)[i]);
    }
  }

  lemma {:induction false} TargetsAbove(layer: seq<Node>, k: int)
    requires Above(Flat(layer), k)
    ensures Above(Targets(layer), k)
  {
    forall i | 0 <= i < |Targets(layer)| ensures k < Targets(layer)[i].key {
      TargetIsEntry(layer, Targets(layer)[i]);
    }
  }

  /** A target is some non-orphan's first key and id. */
  lemma {:induction false} TargetIsEntry(layer: seq<Node>, t: Entry)
    requires t in Targets(layer)
    ensures exists i :: 0 <= i < |layer| && !layer[i].orphan && layer[i].entries != []
                        && t == Entry(layer[i].entries[0].key, layer[i].id)
    ensures exists e :: e in Flat(layer) && e.key == t.key
  {
    TargetsMember(layer, t);
    var i :| 0 <= i < |layer| && t in Target(layer[i]);
    FlatMember(layer, layer[i].entries[0]);
    assert layer[i].entries[0] in Flat(layer);
  }
}
