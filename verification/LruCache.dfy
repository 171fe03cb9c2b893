/** The CLOCK cache: a map from keys to values and a ring of keys with use counters. */
module LruCache {

  type Key = int
  type Val = int

  datatype Slot = Slot(key: Key, uses: nat)
  datatype Item = Item(val: Val, slot: nat)
  datatype Hit = Miss | Found(val: Val)

  function RingKeys(ring: seq<Slot>): set<Key> {
    set i | 0 <= i < |ring| :: ring[i].key
  }

  ghost predicate DistinctKeys(ring: seq<Slot>) {
    forall i, j :: 0 <= i < j < |ring| ==> ring[i].key != ring[j].key
  }

  function TotalUses(ring: seq<Slot>): nat {
    if ring == [] then 0 else TotalUses(ring[..|ring| - 1]) + ring[|ring| - 1].uses
  }

  lemma {:induction false} UsesUpdate(ring: seq<Slot>, i: nat, s: Slot)
    requires i < |ring|
    ensures TotalUses(ring[i := s]) == TotalUses(ring) - ring[i].uses + s.uses
  {
    var n := |ring| - 1;
    if i == n {
      assert ring[i := s][..n] == ring[..n];
    } else {
      assert ring[i := s][..n] == ring[..n][i := s];
      UsesUpdate(ring[..n], i, s);
    }
  }

  lemma {:induction false} RingSize(ring: seq<Slot>)
    requires DistinctKeys(ring)
    ensures |RingKeys(ring)| == |ring|
  {
    if ring != [] {
      var n := |ring| - 1;
      RingSize(ring[..n]);
      assert RingKeys(ring) == RingKeys(ring[..n]) + {ring[n].key};
      assert ring[n].key !in RingKeys(ring[..n]);
    } else {
      assert RingKeys(ring) == {};
    }
  }

  /** Changing a slot's counter changes no key. */
  lemma {:induction false} SameKeys(ring: seq<Slot>, i: nat, uses: nat)
    requires i < |ring|
    ensures var r := ring[i := Slot(ring[i].key, uses)];
            RingKeys(r) == RingKeys(ring) && (DistinctKeys(ring) ==> DistinctKeys(r))
  {
    var r := ring[i := Slot(ring[i].key, uses)];
    assert forall j :: 0 <= j < |ring| ==> r[j].key == ring[j].key;
    forall k | k in RingKeys(ring) ensures k in RingKeys(r) {
      var j :| 0 <= j < |ring| && ring[j].key == k;
      assert r[j].key == k;
    }
  }

  /** A new key takes the place of an old one. */
  lemma {:induction false} KeyReplaced(ring: seq<Slot>, i: nat, key: Key)
    requires i < |ring| && DistinctKeys(ring) && key !in RingKeys(ring)
    ensures var r := ring[i := Slot(key, 0)];
            DistinctKeys(r) && RingKeys(r) == RingKeys(ring) - {ring[i].key} + {key}
  {
    var r := ring[i := Slot(key, 0)];
    assert forall j :: 0 <= j < |ring| ==> ring[j].key in RingKeys(ring);
    forall k | k in RingKeys(ring) - {ring[i].key} + {key} ensures k in RingKeys(r) {
      if k == key {
        assert r[i].key == key;
      } else {
        var j :| 0 <= j < |ring| && ring[j].key == k;
        assert r[j].key == k;
      }
    }
    forall k | k in RingKeys(r) ensures k in RingKeys(ring) - {ring[i].key} + {key} {
      var j :| 0 <= j < |r| && r[j].key == k;
      if j != i { assert ring[j].key != ring[i].key; }
    }
  }

  lemma {:induction false} KeyAdded(ring: seq<Slot>, key: Key)
    requires DistinctKeys(ring) && key !in RingKeys(ring)
    ensures DistinctKeys(ring + [Slot(key, 0)]) && RingKeys(ring + [Slot(key, 0)]) == RingKeys(ring) + {key}
  {
    var r := ring + [Slot(key, 0)];
    assert forall j :: 0 <= j < |ring| ==> ring[j].key in RingKeys(ring) && r[j] == ring[j];
    assert r[|ring|].key == key;
    forall k | k in RingKeys(ring) ensures k in RingKeys(r) {
      var j :| 0 <= j < |ring| && ring[j].key == k;
      assert r[j].key == k;
    }
  }

  /** How far the hand is from slot i of n. */
  function Ahead(hand: nat, i: nat, n: nat): nat
    requires hand < n && i < n
  {
    if i >= hand then i - hand else i + n - hand
  }

  /** Slot v has the fewest uses, and of those it is the first the hand comes to. */
  ghost predicate FirstLeast(ring: seq<Slot>, hand: nat, v: nat) {
    && hand < |ring| && v < |ring|
    && forall i :: 0 <= i < |ring| ==>
         ring[i].uses >= ring[v].uses + Passed(Ahead(hand, i, |ring|), Ahead(hand, v, |ring|))
  }

  /** One more use is taken off the slots that the hand has already come to in its current round. */
  function Passed(ahead: nat, d: nat): nat {
    if ahead < d then 1 else 0
  }

  /** The ring when the hand has gone round q times and d slots further. */
  ghost predicate Aged(was: seq<Slot>, ring: seq<Slot>, hand: nat, q: nat, d: nat) {
    && |ring| == |was| && hand < |was|
    && forall i :: 0 <= i < |was| ==>
         ring[i].key == was[i].key && ring[i].uses + q + Passed(Ahead(hand, i, |was|), d) == was[i].uses
  }

  /** The next slot has a use left and loses it. */
  lemma {:induction false} AgesOne(was: seq<Slot>, ring: seq<Slot>, hand: nat, at: nat, q: nat, d: nat)
    requires Aged(was, ring, hand, q, d) && at < |was| && d == Ahead(hand, at, |was|) && ring[at].uses > 0
    ensures var r := ring[at := Slot(ring[at].key, ring[at].uses - 1)];
            if d + 1 < |was| then Aged(was, r, hand, q, d + 1) else Aged(was, r, hand, q + 1, 0)
  {}

  lemma {:induction false} NextAhead(hand: nat, at: nat, n: nat)
    requires hand < n && at < n
    ensures (at + 1) % n == if at + 1 == n then 0 else at + 1
    ensures Ahead(hand, (at + 1) % n, n) == if Ahead(hand, at, n) + 1 == n then 0 else Ahead(hand, at, n) + 1
  {
    if at + 1 < n { assert (at + 1) % n == at + 1; }
  }

  /** The least used slot goes, the first of them from the hand; every slot has lost that many uses, and those the
      hand passed in its last round one more. */
  ghost predicate EvictedAt(was: seq<Slot>, hand: nat, v: nat, aged: seq<Slot>) {
    && FirstLeast(was, hand, v) && |aged| == |was|
    && forall i :: 0 <= i < |was| ==>
         aged[i].key == was[i].key
         && aged[i].uses + was[v].uses + (if Ahead(hand, i, |was|) < Ahead(hand, v, |was|) then 1 else 0) == was[i].uses
  }

  lemma {:induction false} LeastFound(was: seq<Slot>, ring: seq<Slot>, hand: nat, at: nat, q: nat, d: nat)
    requires Aged(was, ring, hand, q, d) && at < |was| && d == Ahead(hand, at, |was|) && ring[at].uses == 0
    ensures EvictedAt(was, hand, at, ring) && q == was[at].uses && ring[at].key == was[at].key
  {}

  class LRUCache {
    const size: nat
    var items: map<Key, Item>
    var ring: seq<Slot>
    var hand: nat

    /** Everything ever put, the last value for each key. */
    ghost var last: map<Key, Val>

    ghost predicate Valid()
      reads this
    {
      && items.Keys == RingKeys(ring) && DistinctKeys(ring) && |ring| <= size
      && (if ring == [] then hand == 0 else hand < |ring|)
      && (forall k :: k in items ==> items[k].slot < |ring| && k in last && items[k].val == last[k])
    }

    constructor (size: nat)
      ensures Valid() && this.size == size && items == map[] && last == map[]
    {
      this.size, items, ring, hand, last := size, map[], [], 0, map[];
      new;
      assert RingKeys(ring) == {};
    }

    /** A key that is there gets the new value. Otherwise, in a full cache, the hand takes one use off every
        slot it passes until it finds an unused one, and that key goes: the least used, the first of them. */
    method Put(key: Key, val: Val)
      requires Valid()
      modifies this
      ensures Valid() && last == (if size == 0 then old(last) else old(last)[key := val])
      ensures size > 0 ==> key in items && items[key].val == val
      ensures size == 0 ==> items == old(items) && ring == old(ring) && hand == old(hand)
      ensures key in old(items) ==>
        var s := old(items)[key].slot;
        && items == old(items)[key := Item(val, s)] && hand == old(hand)
        && ring == old(ring)[s := Slot(old(ring)[s].key, old(ring)[s].uses + 1)]
      ensures size > 0 && key !in old(items) && |old(items)| < size ==>
        && items == old(items)[key := Item(val, old(hand))] && ring == old(ring) + [Slot(key, 0)]
        && hand == (old(hand) + 1) % |ring|
      ensures size > 0 && key !in old(items) && |old(items)| == size ==>
        exists v: nat, aged: seq<Slot> :: EvictedAt(old(ring), old(hand), v, aged)
          && items == (old(items) - {old(ring)[v].key})[key := Item(val, v)] && ring == aged[v := Slot(key, 0)]
          && hand == (v + 1) % |ring|
    {
      hide RingKeys, DistinctKeys;
      RingSize(ring);
      if size == 0 { return; }
      last := last[key := val];
      if key in items {
        Touch(key, val);
        return;
      }
      if |ring| == size {
        Evict(key, val);
      } else {
        Append(key, val);
      }
      hand := (hand + 1) % |ring|;
    }

    method Touch(key: Key, val: Val)
      requires items.Keys == RingKeys(ring) && DistinctKeys(ring) && key in items && items[key].slot < |ring|
      modifies this`items, this`ring
      ensures items == old(items)[key := Item(val, old(items)[key].slot)]
      ensures var s := old(items)[key].slot; ring == old(ring)[s := Slot(old(ring)[s].key, old(ring)[s].uses + 1)]
      ensures RingKeys(ring) == RingKeys(old(ring)) && DistinctKeys(ring)
    {
      var slot := items[key].slot;
      items := items[key := Item(val, slot)];
      SameKeys(ring, slot, ring[slot].uses + 1);
      ring := ring[slot := Slot(ring[slot].key, ring[slot].uses + 1)];
    }

    method Append(key: Key, val: Val)
      requires items.Keys == RingKeys(ring) && DistinctKeys(ring) && key !in items
      modifies this`items, this`ring
      ensures items == old(items)[key := Item(val, hand)] && ring == old(ring) + [Slot(key, 0)]
      ensures items.Keys == RingKeys(ring) && DistinctKeys(ring)
    {
      KeyAdded(ring, key);
      items := items[key := Item(val, hand)];
      ring := ring + [Slot(key, 0)];
    }

    method Evict(key: Key, val: Val)
      requires items.Keys == RingKeys(ring) && DistinctKeys(ring) && 0 < |ring| <= size && hand < |ring|
      requires forall k :: k in items ==> items[k].slot < |ring| && k in last && items[k].val == last[k]
      requires key !in items && key in last && last[key] == val
      modifies this`items, this`ring, this`hand
      ensures items.Keys == RingKeys(ring) && DistinctKeys(ring) && |ring| == |old(ring)| && hand < |ring|
      ensures forall k :: k in items ==> items[k].slot < |ring| && k in last && items[k].val == last[k]
      ensures exists aged :: EvictedAt(old(ring), old(hand), hand, aged) && ring == aged[hand := Slot(key, 0)]
      ensures items == (old(items) - {old(ring)[hand].key})[key := Item(val, hand)]
    {
      hide RingKeys, DistinctKeys, FirstLeast, EvictedAt, Aged;
      ghost var q, d := TurnHand();
      LeastFound(old(ring), ring, old(hand), hand, q, d);
      ghost var gone := ring[hand].key;
      KeyReplaced(ring, hand, key);
      items := (items - {ring[hand].key})[key := Item(val, hand)];
      ring := ring[hand := Slot(key, 0)];
      assert items.Keys == old(items).Keys - {gone} + {key};
    }

    /** The hand takes one use off every slot it passes until it finds an unused one. */
    method TurnHand() returns (ghost q: nat, ghost d: nat)
      requires DistinctKeys(ring) && hand < |ring|
      modifies this`ring, this`hand
      ensures hand < |ring| == |old(ring)| && ring[hand].uses == 0 && DistinctKeys(ring) && RingKeys(ring) == RingKeys(old(ring))
      ensures Aged(old(ring), ring, old(hand), q, d) && d == Ahead(old(hand), hand, |old(ring)|)
    {
      q, d := 0, 0;
      assert Aged(ring, ring, hand, 0, 0);
      hide RingKeys, DistinctKeys, Aged, Ahead;
      while ring[hand].uses != 0
        invariant |ring| == |old(ring)| && hand < |ring| && DistinctKeys(ring) && RingKeys(ring) == RingKeys(old(ring))
        invariant Aged(old(ring), ring, old(hand), q, d) && d == Ahead(old(hand), hand, |old(ring)|)
        decreases TotalUses(ring)
      {
        AgesOne(old(ring), ring, old(hand), hand, q, d);
        if d + 1 < |ring| { d := d + 1; } else { q, d := q + 1, 0; }
        UsesUpdate(ring, hand, Slot(ring[hand].key, ring[hand].uses - 1));
        SameKeys(ring, hand, ring[hand].uses - 1);
        ring := ring[hand := Slot(ring[hand].key, ring[hand].uses - 1)];
        NextAhead(old(hand), hand, |ring|);
        hand := (hand + 1) % |ring|;
      }
    }

    /** A hit returns the last value put for the key and counts one use. */
    method Get(key: Key) returns (hit: Hit)
      requires Valid()
      modifies this`ring
      ensures Valid() && (hit.Found? <==> key in items) && (hit.Found? ==> hit.val == last[key])
      ensures ring == if key !in items then old(ring)
                      else var s := items[key].slot; old(ring)[s := Slot(old(ring)[s].key, old(ring)[s].uses + 1)]
    {
      if size == 0 {
        assert ring == [];
        assert RingKeys(ring) == {};
        return Miss;
      }
      if key in items {
        var slot := items[key].slot;
        SameKeys(ring, slot, ring[slot].uses + 1);
        ring := ring[slot := Slot(ring[slot].key, ring[slot].uses + 1)];
        return Found(items[key].val);
      }
      return Miss;
    }
  }
}
