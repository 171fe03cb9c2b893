/** Packed registers and what one operation on a replicated register computes from what its quorum
    answered. Everything here is indexed by quorum slot. */
module Registers {

  datatype Option<+T> = None | Some(value: T)

  /** A register's tag is (num, clientId), num being its sequence number; two registers are the same exactly when all fields agree. */
  datatype Register = Register(num: nat, clientId: nat, value: nat) {
    predicate Less(other: Register) {
      if num != other.num then num < other.num else clientId < other.clientId
    }

    predicate SameTag(other: Register) {
      num == other.num && clientId == other.clientId
    }
  }

  const ZERO := Register(0, 0, 0)

  /** Sequence numbers are sixteen bits wide. */
  const SEQ_LIMIT: nat := 0x1_0000

  function NextSeq(z: nat): nat {
    (z + 1) % SEQ_LIMIT
  }

  /** A put between two network rounds. */
  datatype PutData = PutData(value: nat, needs: seq<bool>, expected: seq<Register>, target: Register) {
    ghost predicate Shape(q: nat) {
      |needs| == |expected| == q
    }

    predicate Finished() {
      forall i :: 0 <= i < |needs| ==> !needs[i]
    }
  }

  function MaxSeq(regs: seq<Register>): (z: nat)
    ensures forall i :: 0 <= i < |regs| ==> regs[i].num <= z
    ensures z == 0 || exists i :: 0 <= i < |regs| && regs[i].num == z
  {
    if regs == [] then 0
    else
      var last := regs[|regs| - 1];
      var z := MaxSeq(regs[..|regs| - 1]);
      if last.num > z then last.num else z
  }

  function Max(a: nat, b: nat): nat { if a > b then a else b }

  lemma {:induction false} MaxSeqAppend(regs: seq<Register>, x: Register)
    ensures MaxSeq(regs + [x]) == Max(MaxSeq(regs), x.num)
  {
    assert (regs + [x])[..|regs|] == regs;
  }

  /** Cache miss: every replica was read; aim one above the highest sequence number seen. */
  function AfterReads(me: nat, value: nat, got: seq<Register>): PutData {
    PutData(value, seq(|got|, _ => true), got, Register(NextSeq(MaxSeq(got)), me, value))
  }

  /** Cache hit: expect the cached register everywhere. */
  function Optimistic(me: nat, value: nat, cached: Register, q: nat): PutData {
    PutData(value, seq(q, _ => true), seq(q, _ => cached), Register(NextSeq(cached.num), me, value))
  }

  /** The answers of the slots whose compare-and-swap failed. */
  function Failures(d: PutData, swap: seq<Register>, n: nat): seq<Register>
    requires n <= |swap| && |d.expected| == |swap|
  {
    if n == 0 then []
    else Failures(d, swap, n - 1) + (if swap[n - 1] == d.expected[n - 1] then [] else [swap[n - 1]])
  }

  lemma {:induction false} FailuresAre(d: PutData, swap: seq<Register>, n: nat)
    requires n <= |swap| && |d.expected| == |swap|
    ensures Failures(d, swap, n) == [] <==> forall i :: 0 <= i < n ==> swap[i] == d.expected[i]
    ensures forall i :: 0 <= i < n && swap[i] != d.expected[i] ==> swap[i].num <= MaxSeq(Failures(d, swap, n))
  {
    hide MaxSeq;
    if n > 0 {
      FailuresAre(d, swap, n - 1);
      if swap[n - 1] == d.expected[n - 1] {
        assert Failures(d, swap, n) == Failures(d, swap, n - 1);
      } else {
        MaxSeqAppend(Failures(d, swap, n - 1), swap[n - 1]);
      }
    }
  }

  lemma {:induction false} FailuresBelow(d: PutData, swap: seq<Register>, n: nat, z: nat)
    requires n <= |swap| && |d.expected| == |swap| && forall i :: 0 <= i < n ==> swap[i].num <= z
    ensures MaxSeq(Failures(d, swap, n)) <= z
  {
    hide MaxSeq;
    if n == 0 { MaxSeqNone(); } else {
      FailuresBelow(d, swap, n - 1, z);
      if swap[n - 1] == d.expected[n - 1] {
        assert Failures(d, swap, n) == Failures(d, swap, n - 1);
      } else {
        MaxSeqAppend(Failures(d, swap, n - 1), swap[n - 1]);
      }
    }
  }

  lemma {:induction false} MaxSeqNone()
    ensures MaxSeq([]) == 0
  {}

  /** The optimistic round came back: keep the successes, aim above every failure at the rest. */
  function AfterOptimistic(me: nat, d: PutData, swap: seq<Register>): PutData
    requires d.Shape(|swap|)
  {
    var q := |swap|;
    var needs := seq(q, i requires 0 <= i < q => swap[i] != d.expected[i]);
    var expected := seq(q, i requires 0 <= i < q => if swap[i] == d.expected[i] then d.target else swap[i]);
    var floor := (d.target.num + SEQ_LIMIT - 1) % SEQ_LIMIT;
    var z := MaxSeq(Failures(d, swap, q));
    var target := if Failures(d, swap, q) == [] then d.target
                  else Register(NextSeq(if floor > z then floor else z), me, d.value);
    PutData(d.value, needs, expected, target)
  }

  /** Slot i failed and its answer is at or above the target. */
  predicate Bumps(d: PutData, swap: seq<Register>, i: nat)
    requires d.Shape(|swap|) && i < |swap|
  {
    d.needs[i] && swap[i] != d.expected[i] && swap[i].num >= d.target.num
  }

  /** The first slot that bumps the target, or the number of slots. */
  function FirstBump(d: PutData, swap: seq<Register>): (b: nat)
    requires d.Shape(|swap|)
    ensures b <= |swap|
    ensures b < |swap| ==> Bumps(d, swap, b)
    ensures forall i :: 0 <= i < b ==> !Bumps(d, swap, i)
  {
    FirstBumpFrom(d, swap, 0)
  }

  function FirstBumpFrom(d: PutData, swap: seq<Register>, i: nat): (b: nat)
    requires d.Shape(|swap|) && i <= |swap|
    ensures i <= b <= |swap|
    ensures b < |swap| ==> Bumps(d, swap, b)
    ensures forall j :: i <= j < b ==> !Bumps(d, swap, j)
    decreases |swap| - i
  {
    if i == |swap| || Bumps(d, swap, i) then i else FirstBumpFrom(d, swap, i + 1)
  }

  /** A compare-and-swap round came back. Without a bump the successes are ticked off. A bump raises
      the target once, leaves every slot up to the bumping one to be redone, and ticks off every later
      slot whatever its answer was, because the reset makes its answer equal what it now expects. */
  function AfterCas(me: nat, d: PutData, swap: seq<Register>): PutData
    requires d.Shape(|swap|)
  {
    var q, b := |swap|, FirstBump(d, swap);
    if b == q then
      d.(needs := seq(q, i requires 0 <= i < q => d.needs[i] && swap[i] != d.expected[i]),
         expected := seq(q, i requires 0 <= i < q => if d.needs[i] then swap[i] else d.expected[i]))
    else
      PutData(d.value, seq(q, i requires 0 <= i < q => i <= b), swap, Register(NextSeq(swap[b].num), me, d.value))
  }

  /** The running maximum a read keeps, starting from start; ties keep the earlier one. */
  function MaxRegister(start: Register, regs: seq<Register>): (r: Register)
    ensures r == start || r in regs
    ensures start.num <= r.num
    ensures !r.Less(start)
    ensures forall i :: 0 <= i < |regs| ==> !r.Less(regs[i]) && regs[i].num <= r.num
  {
    if regs == [] then start
    else
      var last := regs[|regs| - 1];
      var r := MaxRegister(start, regs[..|regs| - 1]);
      if r.Less(last) then last else r
  }

  /** Tags stay below the wrap exactly when the highest number seen leaves room. */
  lemma {:induction false} NextSeqGrows(z: nat)
    requires z < 65536
    ensures z < 65535 ==> NextSeq(z) == z + 1
    ensures z == 65535 ==> NextSeq(z) == 0
  {}

  /** The order of registers is that of the upper half of their eight bytes: sequence number, then client. */
  lemma {:induction false} OrderIsPacked(r: Register, t: Register)
    requires r.clientId < 0x1_0000 && t.clientId < 0x1_0000
    ensures r.Less(t) <==> r.num * 0x1_0000 + r.clientId < t.num * 0x1_0000 + t.clientId
    ensures r.SameTag(t) <==> r.num * 0x1_0000 + r.clientId == t.num * 0x1_0000 + t.clientId
  {}
}
