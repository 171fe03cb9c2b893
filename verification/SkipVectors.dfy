/** The bounded sorted vectors a skip vector is made of, as sequences of entries sorted by key. */
module SkipVectors {

  datatype Entry = Entry(key: int, val: nat)

  ghost predicate Sorted(es: seq<Entry>) {
    forall i, j :: 0 <= i < j < |es| ==> es[i].key < es[j].key
  }

  ghost predicate Below(es: seq<Entry>, k: int) { forall i :: 0 <= i < |es| ==> es[i].key < k }
  ghost predicate Above(es: seq<Entry>, k: int) { forall i :: 0 <= i < |es| ==> k < es[i].key }

  /** Where key k is, or would go. */
  function Find(es: seq<Entry>, k: int): (p: nat)
    ensures p <= |es| && Below(es[..p], k) && (p < |es| ==> k <= es[p].key)
    ensures Sorted(es) ==> forall i :: p <= i < |es| ==> k <= es[i].key
  {
    if es == [] || es[0].key >= k then 0
    else
      var p := Find(es[1..], k);
      assert forall i :: 0 < i < |es| ==> es[i] == es[1..][i - 1];
      assert Sorted(es) ==> Sorted(es[1..]);
      p + 1
  }

  lemma {:induction false} BelowAt(es: seq<Entry>, n: nat, k: int, i: nat)
    requires i < n <= |es| && Below(es[..n], k)
    ensures es[i].key < k
  {
    assert es[..n][i] == es[i];
  }

  lemma {:induction false} FindIs(es: seq<Entry>, k: int, p: nat)
    requires p <= |es| && Below(es[..p], k) && (p < |es| ==> k <= es[p].key)
    ensures Find(es, k) == p
  {
    var q := Find(es, k);
    if p < q {
      BelowAt(es, q, k, p);
    } else if q < p {
      BelowAt(es, p, k, q);
    }
  }

  /** The vector's own binary search. */
  method FindPosition(es: seq<Entry>, k: int) returns (p: nat)
    requires Sorted(es)
    ensures p == Find(es, k)
  {
    var left, right := 0, |es| - 1;
    while right >= left
      invariant 0 <= left <= |es| && -1 <= right < |es| && left <= right + 1
      invariant Below(es[..left], k)
      invariant right + 1 < |es| ==> k < es[right + 1].key
    {
      var mid := left + (right - left) / 2;
      if es[mid].key == k {
        FindIs(es, k, mid);
        return mid;
      }
      if es[mid].key > k { right := mid - 1; } else { left := mid + 1; }
    }
    FindIs(es, k, left);
    p := left;
  }

  predicate Has(es: seq<Entry>, k: int) {
    var p := Find(es, k);
    p < |es| && es[p].key == k
  }

  /** Adding an entry unless its key is there; removing a key if it is there. */
  function Put(es: seq<Entry>, e: Entry): seq<Entry> {
    var p := Find(es, e.key);
    if Has(es, e.key) then es else es[..p] + [e] + es[p..]
  }

  function Drop(es: seq<Entry>, k: int): seq<Entry> {
    var p := Find(es, k);
    if Has(es, k) then es[..p] + es[p + 1..] else es
  }

  /** The greatest entry at or below k. */
  function FindLte(es: seq<Entry>, k: int): (p: nat)
    ensures p <= |es|
  {
    var q := Find(es, k);
    if q < |es| && es[q].key == k then q + 1 else q
  }

  lemma {:induction false} HasMeans(es: seq<Entry>, k: int)
    requires Sorted(es)
    ensures Has(es, k) <==> exists i :: 0 <= i < |es| && es[i].key == k
  {
    var p := Find(es, k);
    forall i | 0 <= i < |es| && es[i].key == k ensures i == p {
      if i < p { BelowAt(es, p, k, i); }
    }
  }

  lemma {:induction false} FindLteMeans(es: seq<Entry>, k: int)
    requires Sorted(es)
    ensures var p := FindLte(es, k);
            (forall i :: 0 <= i < p ==> es[i].key <= k) && (forall i :: p <= i < |es| ==> k < es[i].key)
  {
    var q := Find(es, k);
    forall i | 0 <= i < q ensures es[i].key < k { assert es[..q][i] == es[i]; }
  }

  lemma {:induction false} PutSorted(es: seq<Entry>, e: Entry)
    requires Sorted(es)
    ensures Sorted(Put(es, e))
  {
    var p := Find(es, e.key);
    var r := Put(es, e);
    forall i | 0 <= i < p ensures es[i].key < e.key { BelowAt(es, p, e.key, i); }
    if !Has(es, e.key) {
      forall i, j | 0 <= i < j < |r| ensures r[i].key < r[j].key {
        assert r[i] == (if i < p then es[i] else if i == p then e else es[i - 1]);
        assert r[j] == (if j < p then es[j] else if j == p then e else es[j - 1]);
      }
    }
  }

  // ---------- a piece of a sorted sequence ----------

  lemma {:induction false} FindInside(a: seq<Entry>, b: seq<Entry>, c: seq<Entry>, k: int)
    requires Below(a, k) && Above(c, k)
    ensures Find(a + b + c, k) == |a| + Find(b, k)
    ensures Has(a + b + c, k) == Has(b, k)
  {
    var p, s := Find(b, k), a + b + c;
    assert s[..|a| + p] == a + b[..p];
    assert |a| + p < |s| ==> k <= s[|a| + p].key;
    FindIs(s, k, |a| + p);
  }

  lemma {:induction false} Slices(a: seq<Entry>, b: seq<Entry>, c: seq<Entry>, p: nat)
    requires p <= |b|
    ensures (a + b + c)[..|a| + p] == a + b[..p] && (a + b + c)[|a| + p..] == b[p..] + c
  {}

  lemma {:induction false} Regroup(a: seq<Entry>, b: seq<Entry>, m: seq<Entry>, d: seq<Entry>, c: seq<Entry>)
    ensures (a + b) + m + (d + c) == a + (b + m + d) + c
  {}

  lemma {:induction false} PutInside(a: seq<Entry>, b: seq<Entry>, c: seq<Entry>, e: Entry)
    requires Below(a, e.key) && Above(c, e.key)
    ensures Put(a + b + c, e) == a + Put(b, e) + c
  {
    var p := Find(b, e.key);
    FindInside(a, b, c, e.key);
    Slices(a, b, c, p);
    Regroup(a, b[..p], [e], b[p..], c);
    hide Find, Has, Below, Above;
    if !Has(b, e.key) {
      PutAt(b, e);
      PutAt(a + b + c, e);
    }
  }

  lemma {:induction false} PutAt(es: seq<Entry>, e: Entry)
    requires !Has(es, e.key)
    ensures Put(es, e) == es[..Find(es, e.key)] + [e] + es[Find(es, e.key)..]
  {}

  lemma {:induction false} DropAt(es: seq<Entry>, k: int)
    requires Has(es, k)
    ensures Find(es, k) < |es| && Drop(es, k) == es[..Find(es, k)] + [] + es[Find(es, k) + 1..]
  {
    var x, y := es[..Find(es, k)], es[Find(es, k) + 1..];
    assert x + [] == x;
  }

  lemma {:induction false} DropInside(a: seq<Entry>, b: seq<Entry>, c: seq<Entry>, k: int)
    requires Below(a, k) && Above(c, k)
    ensures Drop(a + b + c, k) == a + Drop(b, k) + c
  {
    FindInside(a, b, c, k);
    if Has(b, k) {
      DropInsideAt(a, b, c, k, Find(b, k));
    }
  }

  lemma {:induction false} DropInsideAt(a: seq<Entry>, b: seq<Entry>, c: seq<Entry>, k: int, p: nat)
    requires Has(b, k) && Has(a + b + c, k) && p == Find(b, k) && Find(a + b + c, k) == |a| + p
    ensures Drop(a + b + c, k) == a + Drop(b, k) + c
  {
    hide *;
    DropAt(b, k);
    DropAt(a + b + c, k);
    Slices(a, b, c, p);
    Slices(a, b, c, p + 1);
    Regroup(a, b[..p], [], b[p + 1..], c);
  }

  lemma {:induction false} SortedParts(a: seq<Entry>, b: seq<Entry>)
    requires Sorted(a + b)
    ensures Sorted(a) && Sorted(b)
    ensures forall i, j :: 0 <= i < |a| && 0 <= j < |b| ==> a[i].key < b[j].key
  {
    var s := a + b;
    forall i | 0 <= i < |a| ensures s[i] == a[i] {}
    forall j | 0 <= j < |b| ensures s[|a| + j] == b[j] {}
    forall i, j | 0 <= i < |a| && 0 <= j < |b| ensures a[i].key < b[j].key {
      assert s[i] == a[i] && s[|a| + j] == b[j];
    }
    forall i, j | 0 <= i < j < |b| ensures b[i].key < b[j].key {
      assert s[|a| + i] == b[i] && s[|a| + j] == b[j];
    }
  }

  // ---------- the vector's operations on two vectors ----------

  datatype Pair = Pair(left: seq<Entry>, right: seq<Entry>)

  /** Moves the latter half away. */
  function StealHalf(es: seq<Entry>): (r: Pair)
    ensures r.left + r.right == es && |r.left| <= |r.right| <= |r.left| + 1
  {
    Pair(es[..|es| / 2], es[|es| / 2..])
  }

  /** Moves the latter half away and adds e to the half it belongs to. */
  function StealHalfAndInsert(es: seq<Entry>, e: Entry): Pair {
    var p, m := Find(es, e.key), |es| / 2;
    if p <= m then Pair(Put(es[..m], e), es[m..])
    else Pair(es[..m + 1], es[m + 1..p] + [e] + es[p..])
  }

  /** The new vector takes e and everything above it. */
  function SplitInsert(es: seq<Entry>, e: Entry): Pair {
    var p := Find(es, e.key);
    Pair(es[..p], [e] + es[p..])
  }

  /** The new vector takes k, which is there, and everything above it. */
  function SplitAt(es: seq<Entry>, k: int): (r: Pair)
    ensures r.left + r.right == es
  {
    var p := Find(es, k);
    Pair(es[..p], es[p..])
  }

  lemma {:induction false} StealHalfAndInsertIsPut(es: seq<Entry>, e: Entry, cap: nat)
    requires Sorted(es) && !Has(es, e.key) && |es| == cap && cap > 0
    ensures var r := StealHalfAndInsert(es, e);
            && r.left + r.right == Put(es, e)
            && 0 < |r.left| <= cap && 0 < |r.right| <= cap
            && |r.right| == (|es| + 1) / 2 && |r.left| == |es| + 1 - (|es| + 1) / 2
            && (Find(es, e.key) > 0 ==> r.left[0] == es[0])
  {
    var p, m := Find(es, e.key), |es| / 2;
    if p <= m { StealLow(es, e, p, m); } else { StealHigh(es, e, p, m); }
  }

  lemma {:induction false} StealLow(es: seq<Entry>, e: Entry, p: nat, m: nat)
    requires !Has(es, e.key) && p == Find(es, e.key) <= m <= |es|
    ensures Put(es[..m], e) + es[m..] == Put(es, e) && |Put(es[..m], e)| == m + 1
    ensures p > 0 ==> Put(es[..m], e)[0] == es[0]
  {
    FindFront(es, m, e.key);
    PutAt(es[..m], e);
    PutAt(es, e);
    hide Find, Has, Put;
    assert es[..m][..p] == es[..p];
    var x, y, z := es[..p], es[..m][p..], es[m..];
    assert y + z == es[p..];
    Append3(x, [e], y, z);
  }

  lemma {:induction false} Append3(x: seq<Entry>, m: seq<Entry>, y: seq<Entry>, z: seq<Entry>)
    ensures (x + m + y) + z == x + m + (y + z)
  {}

  lemma {:induction false} StealHigh(es: seq<Entry>, e: Entry, p: nat, m: nat)
    requires !Has(es, e.key) && p == Find(es, e.key) && m < p <= |es|
    ensures es[..m + 1] + (es[m + 1..p] + [e] + es[p..]) == Put(es, e)
  {
    PutAt(es, e);
    hide Find, Has, Put;
    Append4(es[..m + 1], es[m + 1..p], [e], es[p..]);
    SliceJoin(es, m + 1, p);
  }

  lemma {:induction false} SliceJoin(es: seq<Entry>, i: nat, j: nat)
    requires i <= j <= |es|
    ensures es[..i] + es[i..j] == es[..j]
  {}

  lemma {:induction false} Append4(x: seq<Entry>, y: seq<Entry>, m: seq<Entry>, z: seq<Entry>)
    ensures x + (y + m + z) == (x + y) + m + z
  {}

  lemma {:induction false} FindFront(es: seq<Entry>, m: nat, k: int)
    requires Find(es, k) <= m <= |es| && !Has(es, k)
    ensures Find(es[..m], k) == Find(es, k) && !Has(es[..m], k)
  {
    var p := Find(es, k);
    assert es[..m][..p] == es[..p];
    FindIs(es[..m], k, p);
  }

  lemma {:induction false} SplitInsertIsPut(es: seq<Entry>, e: Entry)
    requires Sorted(es) && !Has(es, e.key)
    ensures var r := SplitInsert(es, e);
            && r.left + r.right == Put(es, e)
            && |r.left| + |r.right| == |es| + 1 && |r.left| == Find(es, e.key)
  {}
}
