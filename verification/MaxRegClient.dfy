/** The max register as its client runs it: one object per server, and the majority layer that loops over them. */
module MaxRegClient {
  import opened Registers
  import opened MaxReg

  class UnreliableMaxReg {
    var step: Step
    var next: Option<Step>
    var maxSeen: nat
    var myLast: Option<nat>
    var ongoing: nat
    var traffic: Option<Message>   // what is out, with the buffers its answers land in

    function View(): Future
      reads this
    {
      Future(step, next, maxSeen, myLast, ongoing)
    }

    method DoNext(entry: nat, s: Step)
      modifies this`next
      ensures View() == MaxReg.DoNext(old(View()), entry, s)
      decreases if s.WriteTs? then 1 else if s.Done? || s.ReadNotifs? then 0 else 2
    {
      match s {
      case ReplicateAll => if entry < Verified(maxSeen) { DoNext(entry, ReadNotifs); return; }
      case ReplicateTs => if entry < Verified(maxSeen) { DoNext(entry, ReadNotifs); return; }
      case WriteAll => if entry < Verified(maxSeen) { DoNext(entry, WriteTs); return; }
      case TryWriteAll => if entry < Verified(maxSeen) { DoNext(entry, WriteTs); return; }
      case WriteTs => if entry < maxSeen { DoNext(entry, Done); return; }
      case _ =>
      }
      next := Some(s);
    }

    method TransitionTo(entry: nat, write: nat, s: Step, clients: nat)
      modifies this`step, this`ongoing, this`traffic
      ensures View() == MaxReg.TransitionTo(old(View()), entry, write, s) && traffic == Request(View(), entry, clients)
      decreases if s.WriteTs? then 1 else if s.Done? || s.ReadNotifs? then 0 else 2
    {
      match s {
      case ReplicateAll => if entry <= Verified(maxSeen) { TransitionTo(entry, write, ReadNotifs, clients); return; }
      case ReplicateTs => if entry <= Verified(maxSeen) { TransitionTo(entry, write, ReadNotifs, clients); return; }
      case WriteAll => if entry <= Verified(maxSeen) { TransitionTo(entry, write, WriteTs, clients); return; }
      case TryWriteAll => if entry <= Verified(maxSeen) { TransitionTo(entry, write, WriteTs, clients); return; }
      case WriteTs => if entry <= maxSeen { TransitionTo(entry, write, Done, clients); return; }
      case _ =>
      }
      step := s;
      if !step.Done? { ongoing := write; }
      traffic := Request(View(), entry, clients);
    }

    /** Takes in a complete answer. */
    method AbsorbAnswer(tsps: seq<nat>, me: nat)
      requires traffic.Some? && me < |traffic.value.slots| && ongoing < |tsps|
      modifies this`maxSeen, this`myLast
      ensures View() == Absorb(old(View()), tsps, traffic.value, me)
    {
      var m := traffic.value;
      if m.swaps && m.swapback.Some? {
        var mine := if myLast.Some? then myLast.value else 0;
        myLast := if mine == m.swapback.value then Some(tsps[ongoing]) else m.swapback;
        if maxSeen < myLast.value { maxSeen := myLast.value; }
      }
      if m.wantsArray {
        var newMax := MaxOf(Filled(m.slots));
        if maxSeen < newMax { maxSeen := newMax; }
        if !step.TryWriteAll? { myLast := Some(Filled(m.slots)[me]); }
      }
    }

    /** mine is what the client's slot in the entry a swap was made from is set to. */
    method TryStepForward(tsps: seq<nat>, write: nat, me: nat, clients: nat) returns (mine: Option<nat>)
      requires me < clients && (traffic.Some? ==> |traffic.value.slots| == clients) && ongoing < |tsps| && write < |tsps|
      modifies this
      ensures (View(), traffic) == StepOne(old(View()), old(traffic), tsps, write, me, clients)
      ensures mine == if SwapTaken(old(traffic))
                      then Some(AbsorbSwap(old(View()), tsps[old(ongoing)], old(traffic).value.swapback.value).Mine()) else None
    {
      mine := None;
      if traffic.Some? && !traffic.value.Complete() { return; }
      if traffic.Some? {
        if traffic.value.swaps {
          var swapback := traffic.value.swapback.value;
          mine := Some(if (if myLast.Some? then myLast.value else 0) == swapback then tsps[ongoing] else swapback);
        }
        AbsorbAnswer(tsps, me);
      }
      var entry := tsps[write];
      if next.Some? {
        var s := next.value;
        next := None;
        TransitionTo(entry, write, s, clients);
        return;
      }
      match step
      case Done => traffic := None;
      case WriteAll => TransitionTo(entry, write, WriteTs, clients);
      case WriteTsAndIn => TransitionTo(entry, write, WriteTs, clients);
      case WriteTs => TransitionTo(entry, write, WriteTs, clients);
      case ReplicateAll => TransitionTo(entry, write, if entry < Verified(maxSeen) then Done else ReplicateTs, clients);
      case ReplicateTs => TransitionTo(entry, write, if entry < Verified(maxSeen) then Done else ReplicateTs, clients);
      case _ => TransitionTo(entry, write, Done, clients);
    }

    /** A write of the client's own timestamp reaches a timestamp array that is being read into this buffer. */
    method Smudge(me: nat, mine: nat)
      modifies this`traffic
      ensures View() == old(View())
      ensures [traffic] == Smudged([old(traffic)], 1, me, mine)
    {
      if traffic.Some? && traffic.value.wantsArray && me < |traffic.value.slots| && traffic.value.slots[me].Some? {
        traffic := Some(traffic.value.(slots := traffic.value.slots[me := Some(mine)]));
      }
    }
  }

  lemma {:induction false} SmudgedOne(traffic: seq<Option<Message>>, k: nat, me: nat, mine: nat)
    requires k < |traffic|
    ensures Smudged(traffic, 1 + k, me, mine) == traffic[k := Smudged([traffic[k]], 1, me, mine)[0]]
  {}

  lemma {:induction false} NoSmudge(traffic: seq<Option<Message>>, me: nat, mine: nat)
    ensures Smudged(traffic, 0, me, mine) == traffic
  {}

  class RelaxedMaxReg {
    const me: nat
    const clients: nat
    const majority: nat
    const regs: seq<UnreliableMaxReg>

    var tsps: seq<nat>        // the timestamps in the write entry and in the read buffers
    var write: nat
    var readEntry: nat
    var maxTsp: nat
    var phase: Phase
    var inPlace: seq<bool>
    ghost var high: nat

    ghost predicate Valid()
      reads this, regs
    {
      && me < clients && |inPlace| == |regs| == |tsps| - 1 && write <= |regs| && readEntry < |regs|
      && (forall i, j :: 0 <= i < j < |regs| ==> regs[i] != regs[j])
      && (forall i :: 0 <= i < |regs| ==> regs[i].ongoing <= |regs|)
      && forall i :: 0 <= i < |regs| && regs[i].traffic.Some? ==> |regs[i].traffic.value.slots| == clients
    }

    ghost function View(): (x: Client)
      reads this, regs
      ensures |x.futures| == |x.traffic| == |regs|
    {
      Client(seq(|regs|, i requires 0 <= i < |regs| reads this, regs => regs[i].View()),
             seq(|regs|, i requires 0 <= i < |regs| reads this, regs => regs[i].traffic),
             tsps, write, readEntry, maxTsp, phase, inPlace, high)
    }

    /** One round of the loop: server s steps, is counted, and what it has seen is taken over. */
    method SweepOne(s: nat, ghost w: Swept, countReady: nat, countDone: nat) returns (ready: nat, done: nat)
      requires Valid() && s < |regs| && w.x == View() && (forall r :: r in w.ready || r in w.done ==> r < s)
      requires countReady == |w.ready| && countDone == |w.done|
      modifies this`tsps, this`readEntry, this`maxTsp, this`high, regs
      ensures Valid()
      ensures var v := SweptOne(w, s, me, clients);
              View() == v.x && ready == |v.ready| && done == |v.done|
    {
      hide StepOne, Stepped, Noted;
      StepReg(s);
      ghost var y := View();
      ready, done := countReady, countDone;
      var isDone := regs[s].View().IsDone();
      if isDone || (phase.Writing? && regs[s].View().IsLinearized(tsps[write])) { ready := ready + 1; }
      if isDone { done := done + 1; }
      Note(s);
    }

    method StepReg(s: nat)
      requires Valid() && s < |regs|
      modifies regs
      ensures Valid() && View() == Stepped(old(View()), s, me, clients)
    {
      hide StepOne, Smudged, AbsorbSwap;
      var from, mine := StepAlone(s);
      if mine.Some? && from > 0 { SmudgeReg(from - 1, mine.value); }
      else if mine.Some? { NoSmudge(View().traffic, me, mine.value); }
    }

    /** Server s steps, but for what its answer writes into the array of the entry its request was made from. */
    method StepAlone(s: nat) returns (from: nat, mine: Option<nat>)
      requires Valid() && s < |regs|
      modifies regs[s]
      ensures Valid() && from == old(View()).futures[s].ongoing <= |regs|
      ensures var x := old(View()); var (g, u) := StepOne(x.futures[s], x.traffic[s], tsps, write, me, clients);
              && View() == x.(futures := x.futures[s := g], traffic := x.traffic[s := u])
              && mine == if SwapTaken(x.traffic[s])
                         then Some(AbsorbSwap(x.futures[s], tsps[from], x.traffic[s].value.swapback.value).Mine()) else None
    {
      hide StepOne, AbsorbSwap;
      ghost var x := View();
      from := regs[s].ongoing;
      mine := regs[s].TryStepForward(tsps, write, me, clients);
      ghost var (g, u) := StepOne(x.futures[s], x.traffic[s], tsps, write, me, clients);
      assert View().futures == x.futures[s := g] && View().traffic == x.traffic[s := u];
    }

    method SmudgeReg(k: nat, mine: nat)
      requires Valid() && k < |regs|
      modifies regs[k]
      ensures Valid() && View() == old(View()).(traffic := Smudged(old(View()).traffic, 1 + k, me, mine))
    {
      hide Smudged;
      ghost var x := View();
      SmudgedOne(x.traffic, k, me, mine);
      regs[k].Smudge(me, mine);
      assert regs[k].traffic == Smudged([x.traffic[k]], 1, me, mine)[0];
      assert View().futures == x.futures;
      assert View().traffic == x.traffic[k := Smudged([x.traffic[k]], 1, me, mine)[0]];
    }

    method Note(s: nat)
      requires Valid() && s < |regs|
      modifies this`tsps, this`readEntry, this`maxTsp, this`high
      ensures Valid() && View() == Noted(old(View()), s)
    {
      ghost var x := View();
      var reg := regs[s];
      if maxTsp < reg.maxSeen || (maxTsp == reg.maxSeen && inPlace[s]) {
        maxTsp, readEntry := reg.maxSeen, s;
        tsps := tsps[1 + s := maxTsp];
        if write == 1 + s { high := Max(high, maxTsp); }
      }
      assert View().futures == x.futures && View().traffic == x.traffic;
    }

    /** Steps every server's register forward except the lazy and dead ones, and concludes once a
        majority is ready. */
    method TryStepForward(skip: set<nat>)
      requires Valid()
      modifies this`tsps, this`readEntry, this`maxTsp, this`high, this`phase, regs
      ensures Valid() && View() == Forwarded(old(View()), skip, majority, me, clients)
    {
      hide Stepped, Noted, Ready, SweptOne;
      if phase.Finished? { return; }
      var countReady, countDone := 0, 0;
      ghost var x := View();
      assert Shaped(x, |regs|, clients);
      for s := 0 to |regs|
        invariant Valid() && !phase.Finished? && phase == x.phase
        invariant var w := Sweep(x, skip, s, me, clients);
                  w.x == View() && countReady == |w.ready| && countDone == |w.done|
      {
        if s !in skip {
          countReady, countDone := SweepOne(s, Sweep(x, skip, s, me, clients), countReady, countDone);
        }
      }
      Conclude(Sweep(x, skip, |regs|, me, clients), countReady, countDone);
    }

    method Conclude(ghost w: Swept, countReady: nat, countDone: nat)
      requires Valid() && w.x == View() && countReady == |w.ready| && countDone == |w.done| && !phase.Finished?
      modifies this`phase, regs
      ensures Valid() && View() == Concluded(w, majority)
    {
      if countReady < majority { return; }
      if phase.Writing? && countDone < majority {
        phase := Linearized;
        assert View() == w.x.(phase := Linearized);
        return;
      }
      phase := Finished;
      assert View() == w.x.(phase := Finished);
      MarkAsDone();
    }

    method MarkAsDone()
      requires Valid()
      modifies regs
      ensures Valid() && View() == MarkedDone(old(View()))
    {
      ghost var x := View();
      for s := 0 to |regs|
        invariant Valid()
        invariant forall i :: 0 <= i < |regs| ==> regs[i].traffic == x.traffic[i]
        invariant forall i :: 0 <= i < |regs| ==>
          regs[i].View() == if i < s then MaxReg.DoNext(x.futures[i], x.Entry(), Done) else x.futures[i]
      {
        regs[s].DoNext(tsps[write], Done);
      }
      assert View().futures == MarkedDone(x).futures;
      assert View().traffic == x.traffic;
    }
  }
}
