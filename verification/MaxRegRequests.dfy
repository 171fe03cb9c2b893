/** What a step of the max register asks a server for, and what a replication that asks for notifications hears. */
module MaxRegRequests {
  import opened Registers
  import opened MaxReg
  import opened MaxRegRising

  /** A step reads the array, swaps the client's slot for the entry, and asks for notifications, as its name says;
      nothing of it is answered yet. */
  lemma {:induction false} RequestAsks(f: Future, entry: nat, clients: nat)
    ensures Request(f, entry, clients).None? <==> f.step == Done
    ensures f.step != Done ==>
      var m := Request(f, entry, clients).value;
      && (m.wantsArray <==> f.step == ReadTs || (f.step == TryWriteAll && clients > 1))
      && (m.swaps <==> f.step != ReadTs && f.step != ReadNotifs)
      && (m.notifs <==> f.step == ReplicateAll || f.step == ReplicateTs || f.step == ReadNotifs)
      && m.expected == (if f.myLast.Some? then f.myLast.value else 0) && m.value == entry
      && |m.slots| == clients && (forall j :: 0 <= j < clients ==> m.slots[j].None?) && m.swapback.None? && !m.notified
  {}

  /** What is taken next for a step asked for: what is known to be there, up to its verified bit, is not written
      again but at most its timestamp, and that only if it is above what was seen. */
  lemma {:induction false} NothingTwice(f: Future, entry: nat, s: Step)
    requires s != Done
    ensures var t := Target(f, entry, s); var odd := f.maxSeen + (f.maxSeen + 1) % 2;
            match s
            case ReadTs => t == s
            case ReadNotifs => t == s
            case WriteTsAndIn => t == s
            case ReplicateAll => t == if entry > odd then s else ReadNotifs
            case ReplicateTs => t == if entry > odd then s else ReadNotifs
            case WriteTs => t == if entry > f.maxSeen then s else Done
            case _ => t == if entry > odd then s else if entry > f.maxSeen then WriteTs else Done
  {}

  /** What is noted for later when a step is asked for: what has been seen already is not noted to be written again. */
  lemma {:induction false} NotedForLater(f: Future, entry: nat, s: Step)
    ensures var n := DoNext(f, entry, s).next; var odd := f.maxSeen + (f.maxSeen + 1) % 2;
            match s
            case ReplicateAll => n == Some(if entry >= odd then s else ReadNotifs)
            case ReplicateTs => n == Some(if entry >= odd then s else ReadNotifs)
            case WriteTs => n == Some(if entry >= f.maxSeen then s else Done)
            case WriteAll => n == Some(if entry >= odd then s else if entry >= f.maxSeen then WriteTs else Done)
            case TryWriteAll => n == Some(if entry >= odd then s else if entry >= f.maxSeen then WriteTs else Done)
            case _ => n == Some(s)
  {}

  /** With nothing noted, a write goes on until the entry's timestamp was seen, a replication until more than the entry
      was, and everything else is done. */
  lemma {:induction false} GoesOn(f: Future, entry: nat, write: nat)
    requires f.next.None?
    ensures var g := Onward(f, entry, write); var odd := f.maxSeen + (f.maxSeen + 1) % 2;
            && g.maxSeen == f.maxSeen && g.myLast == f.myLast && g.next.None?
            && match f.step
               case WriteAll => g.step == if entry > f.maxSeen then WriteTs else Done
               case WriteTsAndIn => g.step == if entry > f.maxSeen then WriteTs else Done
               case WriteTs => g.step == if entry > f.maxSeen then WriteTs else Done
               case ReplicateAll => g.step == if entry > odd then ReplicateTs else if entry == odd then ReadNotifs else Done
               case ReplicateTs => g.step == if entry > odd then ReplicateTs else if entry == odd then ReadNotifs else Done
               case _ => g.step == Done
  {}

  /** Idle, a future counts as done exactly if nothing more goes out from it, whatever its entry is made to say. */
  lemma {:induction false} DoneForGood(f: Future, write: nat)
    requires f.step == Done
    ensures f.IsDone() <==> forall entry :: Onward(f, entry, write).step == Done
  {
    var high := f.maxSeen + 2;
    if f.next.Some? { assert Onward(f, high, write).step == Done ==> f.next.value == Done; }
  }

  /** While writing, a server counts for the entry once that was seen there up to the verified bit, once the future
      is to do nothing more after its current answer, or once nothing is left of it. */
  lemma {:induction false} CountsFor(x: Client, s: nat)
    requires s < |x.futures| && x.write < |x.tsps|
    ensures var f := x.futures[s]; var odd := f.maxSeen + (f.maxSeen + 1) % 2;
            Ready(x, s) <==>
              || (f.step == Done && (f.next == None || f.next == Some(Done)))
              || (x.phase == Writing && (f.next == Some(Done) || x.tsps[x.write] <= odd))
  {}

  /** What an answer tells: a swap what the client's slot holds now, an array the maximum, and unless it was read
      while a swap was under way, the client's slot too. */
  lemma {:induction false} AnswerTells(f: Future, tsps: seq<nat>, m: Message, me: nat)
    requires me < |m.slots| && f.ongoing < |tsps| && m.Complete()
    ensures var g := Absorb(f, tsps, m, me); var mine := if f.myLast.Some? then f.myLast.value else 0;
            var told := if m.swapback == Some(mine) then tsps[f.ongoing] else if m.swapback.Some? then m.swapback.value else 0;
            && g.myLast == (if m.wantsArray && f.step != TryWriteAll then m.slots[me] else if m.swaps then Some(told) else f.myLast)
            && g.maxSeen >= f.maxSeen && (m.swaps ==> g.maxSeen >= told)
            && (m.wantsArray ==> forall j :: 0 <= j < |m.slots| ==> g.maxSeen >= m.slots[j].value)
            && (g.maxSeen == f.maxSeen || (m.swaps && g.maxSeen == told) || (m.wantsArray && Some(g.maxSeen) in m.slots))
  {
    if m.wantsArray {
      var a := Filled(m.slots);
      assert forall j :: 0 <= j < |m.slots| ==> a[j] <= MaxOf(a);
      if MaxOf(a) > 0 {
        var j :| 0 <= j < |a| && a[j] == MaxOf(a);
        assert m.slots[j] == Some(MaxOf(a));
      }
      hide MaxOf, Filled;
    }
  }

  /** Taking in a swap also writes the client's slot into the array of the entry it was made from, where that array
      is being read and that slot was answered. */
  lemma {:induction false} SwapSmudges(x: Client, s: nat, me: nat, clients: nat, k: nat)
    requires Shaped(x, |x.futures|, clients) && s < |x.futures| && me < clients && k < |x.futures| && k != s
    ensures var t, u := x.traffic[k], Stepped(x, s, me, clients).traffic[k]; var f, m := x.futures[s], x.traffic[s];
            if m.Some? && m.value.Complete() && m.value.swaps && f.ongoing == 1 + k
               && t.Some? && t.value.wantsArray && t.value.slots[me].Some?
            then
              var mine := if f.myLast.Some? then f.myLast.value else 0;
              u == Some(t.value.(slots := t.value.slots[me := if m.value.swapback == Some(mine) then Some(x.tsps[1 + k]) else m.value.swapback]))
            else u == t
  {
    hide StepOne;
  }

  /** The client was told to replicate and to read notifications, and has not heard them yet. */
  predicate Hearing(f: Future) {
    if f.next.Some? then f.next.value in {ReplicateAll, ReplicateTs, ReadNotifs} else f.step in {ReplicateAll, ReplicateTs, ReadNotifs}
  }

  /** Told to replicate and read notifications, a future is not done before they were read from its server. */
  lemma {:induction false} HeardBeforeDone(slots: seq<nat>, f: Future, t: Option<Message>, tsps: seq<nat>, write: nat, me: nat)
    requires me < |slots| && MessageFits(slots, f, t) && f.ongoing < |tsps| && write < |tsps| && Hearing(f)
    ensures var g := StepOne(f, t, tsps, write, me, |slots|).0;
            Hearing(g) || (g.step.Done? && g.next.None? && t.Some? && t.value.notifs && t.value.notified)
  {
    hide AbsorbSwap, AbsorbArray, Filled;
  }

  lemma {:induction false} StartsHearing(x: Client, verify: bool, s: nat)
    requires x.readEntry + 1 < |x.tsps| && s < |x.futures|
    ensures Hearing(Started(x, KReplicateAndReadNotifs(verify)).futures[s])
  {}
}
