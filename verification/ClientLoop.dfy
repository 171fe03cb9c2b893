/** The client loop's bookkeeping: per server how many completions are still to be polled, per future and
    server how many of its requests are outstanding. */
module ClientLoop {

  /** A future is known by its kind and index; a work request carries both in one number. */
  datatype Owner = Owner(range: bool, id: nat)

  const RANGE_BIT: nat := 0x8000_0000_0000_0000

  function WrId(o: Owner): nat {
    o.id + (if o.range then RANGE_BIT else 0)
  }

  function OwnerOf(raw: nat): Owner {
    Owner((raw / RANGE_BIT) != 0, raw % RANGE_BIT)
  }

  lemma {:induction false} OwnerComesBack(o: Owner)
    requires o.id < 9223372036854775808
    ensures OwnerOf(WrId(o)) == o && WrId(o) == o.id + (if o.range then 9223372036854775808 else 0)
  {}

  /** Since was, exactly one request numbered raw went out to each server in round, in any order. */
  ghost predicate Sent(was: seq<seq<nat>>, out: seq<seq<nat>>, raw: nat, round: seq<nat>) {
    && |out| == |was|
    && forall s :: 0 <= s < |was| ==> SentTo(was[s], out[s], raw, multiset(round)[s])
  }

  ghost predicate SentTo(was: seq<nat>, out: seq<nat>, raw: nat, n: nat) {
    was <= out && |out| == |was| + n && forall k :: |was| <= k < |out| ==> out[k] == raw
  }

  lemma {:induction false} SendOne(was: seq<seq<nat>>, out: seq<seq<nat>>, raw: nat, round: seq<nat>, k: nat)
    requires k < |round| && round[k] < |was| && Sent(was, out, raw, round[..k])
    ensures Sent(was, out[round[k] := out[round[k]] + [raw]], raw, round[..k + 1])
  {
    assert round[..k + 1] == round[..k] + [round[k]];
    assert multiset(round[..k + 1]) == multiset(round[..k]) + multiset{round[k]};
  }

  /** The two vectors of futures side by side, plain ones first. */
  function Slot(o: Owner, parallel: nat): nat {
    o.id + (if o.range then parallel else 0)
  }

  function SlotOf(raw: nat, parallel: nat): nat {
    Slot(OwnerOf(raw), parallel)
  }

  function CountSlot(out: seq<nat>, slot: nat, parallel: nat): nat {
    if out == [] then 0
    else CountSlot(out[1..], slot, parallel) + (if SlotOf(out[0], parallel) == slot then 1 else 0)
  }

  lemma {:induction false} CountAppend(out: seq<nat>, raw: nat, slot: nat, parallel: nat)
    ensures CountSlot(out + [raw], slot, parallel) == CountSlot(out, slot, parallel) + (if SlotOf(raw, parallel) == slot then 1 else 0)
  {
    if out == [] {
      assert out + [raw] == [raw];
    } else {
      assert (out + [raw])[1..] == out[1..] + [raw];
      CountAppend(out[1..], raw, slot, parallel);
    }
  }

  ghost predicate Known(out: seq<nat>, parallel: nat) {
    forall k :: 0 <= k < |out| ==> OwnerOf(out[k]).id < parallel
  }

  function SumOver(ongoing: seq<seq<int>>, s: nat): int
    requires forall i :: 0 <= i < |ongoing| ==> s < |ongoing[i]|
  {
    if ongoing == [] then 0 else SumOver(ongoing[..|ongoing| - 1], s) + ongoing[|ongoing| - 1][s]
  }

  /** Summed over all futures, the counts are the requests outstanding. */
  lemma {:induction false} CountsAddUp(out: seq<nat>, parallel: nat)
    requires Known(out, parallel)
    ensures CountUpTo(out, parallel, 2 * parallel) == |out|
  {
    if out == [] {
      NoneCounted(parallel, 2 * parallel);
    } else {
      CountsAddUp(out[1..], parallel);
      OneCounted(out, parallel, 2 * parallel);
    }
  }

  function CountUpTo(out: seq<nat>, parallel: nat, n: nat): nat {
    if n == 0 then 0 else CountUpTo(out, parallel, n - 1) + CountSlot(out, n - 1, parallel)
  }

  lemma {:induction false} NoneCounted(parallel: nat, n: nat)
    ensures CountUpTo([], parallel, n) == 0
  {
    if n > 0 { NoneCounted(parallel, n - 1); }
  }

  lemma {:induction false} OneCounted(out: seq<nat>, parallel: nat, n: nat)
    requires out != []
    ensures CountUpTo(out, parallel, n) == CountUpTo(out[1..], parallel, n) + (if SlotOf(out[0], parallel) < n then 1 else 0)
  {
    if n > 0 { OneCounted(out, parallel, n - 1); }
  }

  class DsClient {
    const servers: nat
    const parallel: nat
    var toPoll: seq<int>
    var ongoing: seq<seq<int>>   // by slot, then by server
    var progress: seq<bool>      // by slot
    var done: seq<bool>          // by slot

    /** The network: what is outstanding at each server, in the order it was posted. */
    var out: seq<seq<nat>>

    /** Every count is what is outstanding, and a done future has nothing outstanding. */
    ghost predicate Counted()
      reads this
    {
      Sized() && Tallied()
    }

    ghost predicate Sized()
      reads this
    {
      && parallel < RANGE_BIT
      && |toPoll| == |out| == servers && |ongoing| == |progress| == |done| == 2 * parallel
      && forall i :: 0 <= i < |ongoing| ==> |ongoing[i]| == servers
    }

    ghost predicate Tallied()
      requires Sized()
      reads this
    {
      && (forall s :: 0 <= s < servers ==> Known(out[s], parallel) && toPoll[s] == |out[s]|)
      && (forall i, s :: 0 <= i < |ongoing| && 0 <= s < servers ==> ongoing[i][s] == CountSlot(out[s], i, parallel))
      && (forall i, s :: 0 <= i < |ongoing| && done[i] && 0 <= s < servers ==> ongoing[i][s] == 0)
    }

    ghost predicate Waits(i: nat)
      requires i < |ongoing| && |ongoing[i]| == servers
      reads this
    {
      exists s :: 0 <= s < servers && ongoing[i][s] > 0
    }

    /** No future is forgotten: one that is neither done nor waiting for anything is flagged to step. */
    ghost predicate Valid()
      reads this
    {
      Counted() && forall i :: 0 <= i < |ongoing| ==> done[i] || progress[i] || Waits(i)
    }

    constructor (servers: nat, parallel: nat)
      requires parallel < RANGE_BIT
      ensures Valid() && this.servers == servers && this.parallel == parallel
      ensures out == seq(servers, _ => [])
    {
      this.servers, this.parallel := servers, parallel;
      toPoll, out := seq(servers, _ => 0), seq(servers, _ => []);
      ongoing := seq(2 * parallel, _ => seq(servers, _ => 0));
      progress, done := seq(2 * parallel, _ => false), seq(2 * parallel, _ => true);
    }

    /** A future posts one request to a server. */
    method Post(o: Owner, s: nat)
      requires Counted() && o.id < parallel && s < servers && !done[Slot(o, parallel)]
      modifies this`toPoll, this`ongoing, this`out
      ensures Counted() && out == old(out)[s := old(out)[s] + [WrId(o)]]
      ensures ongoing[Slot(o, parallel)][s] > 0
      ensures ongoing == old(ongoing)[Slot(o, parallel) := old(ongoing)[Slot(o, parallel)][s := old(ongoing)[Slot(o, parallel)][s] + 1]]
    {
      var i := Slot(o, parallel);
      OwnerComesBack(o);
      forall j ensures CountSlot(out[s] + [WrId(o)], j, parallel) == CountSlot(out[s], j, parallel) + (if i == j then 1 else 0) {
        CountAppend(out[s], WrId(o), j, parallel);
      }
      ongoing := ongoing[i := ongoing[i][s := ongoing[i][s] + 1]];
      toPoll := toPoll[s := toPoll[s] + 1];
      out := out[s := out[s] + [WrId(o)]];
    }

    /** One completion of server s reaches the future that posted the request. */
    method Deliver(s: nat)
      requires s < servers && DeliveryOk(s)
      modifies this`ongoing, this`progress, this`out
      ensures DeliveryOk0(s) && out == old(out)[s := old(out)[s][1..]]
      ensures var i := SlotOf(old(out)[s][0], parallel);
              && i < 2 * parallel && progress == old(progress)[i := true]
              && ongoing == old(ongoing)[i := old(ongoing)[i][s := old(ongoing)[i][s] - 1]]
    {
      var o := OwnerOf(out[s][0]);
      var i := Slot(o, parallel);
      assert CountSlot(out[s], i, parallel) > 0;
      ongoing := ongoing[i := ongoing[i][s := ongoing[i][s] - 1]];
      progress := progress[i := true];
      out := out[s := out[s][1..]];
    }

    /** As Valid, but with toPoll of server s not yet brought up to date. */
    ghost predicate DeliveryOk0(s: nat)
      reads this
    {
      && parallel < RANGE_BIT && s < servers
      && |toPoll| == |out| == servers && |ongoing| == |progress| == |done| == 2 * parallel
      && (forall i :: 0 <= i < |ongoing| ==> |ongoing[i]| == servers)
      && (forall t :: 0 <= t < servers ==> Known(out[t], parallel) && (t != s ==> toPoll[t] == |out[t]|))
      && (forall i, t :: 0 <= i < |ongoing| && 0 <= t < servers ==> ongoing[i][t] == CountSlot(out[t], i, parallel))
      && (forall i, t :: 0 <= i < |ongoing| && done[i] && 0 <= t < servers ==> ongoing[i][t] == 0)
    }

    ghost predicate DeliveryOk(s: nat)
      reads this
    {
      DeliveryOk0(s) && out[s] != []
    }

    /** Polls every server for at most as many completions as are counted outstanding there; ready[s] is how many
        the server's queue would yield. */
    method TickRdma(ready: seq<nat>) returns (any: bool)
      requires Valid() && |ready| == servers
      modifies this`toPoll, this`ongoing, this`progress, this`out
      ensures Valid() && (any <==> exists s :: 0 <= s < servers && ready[s] > 0 && old(out)[s] != [])
      ensures forall s :: 0 <= s < servers ==>
                out[s] == if ready[s] < |old(out)[s]| then old(out)[s][ready[s]..] else []
      ensures forall i :: 0 <= i < 2 * parallel && old(progress)[i] ==> progress[i]
    {
      any := false;
      for s := 0 to servers
        invariant Valid() && (any <==> exists t :: 0 <= t < s && ready[t] > 0 && old(out)[t] != [])
        invariant forall t :: 0 <= t < servers ==>
          out[t] == if t >= s then old(out)[t] else if ready[t] < |old(out)[t]| then old(out)[t][ready[t]..] else []
        invariant forall i :: 0 <= i < 2 * parallel && old(progress)[i] ==> progress[i]
      {
        if toPoll[s] > 0 {
          var some := PollServer(s, if ready[s] < toPoll[s] then ready[s] else toPoll[s]);
          any := any || some;
        }
      }
    }

    method PollServer(s: nat, n: nat) returns (any: bool)
      requires Valid() && s < servers && n <= |out[s]|
      modifies this`toPoll, this`ongoing, this`progress, this`out
      ensures Valid() && (any <==> n > 0) && out == old(out)[s := old(out)[s][n..]]
      ensures forall i :: 0 <= i < 2 * parallel && old(progress)[i] ==> progress[i]
    {
      any := false;
      for k := 0 to n
        invariant DeliveryOk0(s) && toPoll == old(toPoll) && out == old(out)[s := old(out)[s][k..]]
        invariant forall i :: 0 <= i < |ongoing| ==> done[i] || progress[i] || Waits(i)
        invariant any <==> k > 0
        invariant forall i :: 0 <= i < 2 * parallel && old(progress)[i] ==> progress[i]
      {
        ghost var was, flags := ongoing, progress;
        Deliver(s);
        any := true;
        forall i | 0 <= i < |ongoing| ensures done[i] || progress[i] || Waits(i) {
          assert flags[i] ==> progress[i];
          assert ongoing[i] == was[i] || progress[i];
        }
      }
      toPoll := toPoll[s := toPoll[s] - n];
      assert forall i :: 0 <= i < |ongoing| ==> done[i] || progress[i] || Waits(i);
    }

    /** A future steps forward: not while it has anything outstanding; otherwise it is done, or posts its
        next round, which is never empty. */
    method TryStepForward(o: Owner, finishes: bool, round: seq<nat>) returns (moved: bool)
      requires Valid() && o.id < parallel && (forall k :: 0 <= k < |round| ==> round[k] < servers) && (finishes || round != [])
      modifies this`toPoll, this`ongoing, this`out, this`done
      ensures Valid() && (moved <==> forall s :: 0 <= s < servers ==> old(ongoing)[Slot(o, parallel)][s] == 0)
      ensures !moved ==> out == old(out) && done == old(done)
      ensures moved && !old(done)[Slot(o, parallel)] ==> done[Slot(o, parallel)] == finishes
      ensures moved ==> if old(done)[Slot(o, parallel)] || finishes then out == old(out) else Sent(old(out), out, WrId(o), round)
      ensures forall i :: 0 <= i < 2 * parallel && i != Slot(o, parallel) ==> ongoing[i] == old(ongoing)[i] && done[i] == old(done)[i]
      ensures done[Slot(o, parallel)] || Waits(Slot(o, parallel))
      ensures old(done)[Slot(o, parallel)] ==> done[Slot(o, parallel)]
    {
      var i := Slot(o, parallel);
      for s := 0 to servers
        invariant forall t :: 0 <= t < s ==> ongoing[i][t] == 0
      {
        assert ongoing[i][s] == CountSlot(out[s], i, parallel);
        if ongoing[i][s] > 0 { return false; }
      }
      moved := true;
      if done[i] { return; }
      if finishes {
        done := done[i := true];
        forall j | 0 <= j < |ongoing| ensures done[j] || progress[j] || Waits(j) {
          if j != i { assert old(done[j] || progress[j] || exists s :: 0 <= s < servers && ongoing[j][s] > 0); }
        }
        return;
      }
      PostRound(o, round);
    }

    method PostRound(o: Owner, round: seq<nat>)
      requires Counted() && o.id < parallel && !done[Slot(o, parallel)] && round != []
      requires forall j :: 0 <= j < |ongoing| && j != Slot(o, parallel) ==> done[j] || progress[j] || Waits(j)
      requires forall k :: 0 <= k < |round| ==> round[k] < servers
      modifies this`toPoll, this`ongoing, this`out
      ensures Valid() && Waits(Slot(o, parallel)) && Sent(old(out), out, WrId(o), round)
      ensures forall j :: 0 <= j < 2 * parallel && j != Slot(o, parallel) ==> ongoing[j] == old(ongoing)[j]
    {
      var i := Slot(o, parallel);
      assert Sent(out, out, WrId(o), round[..0]);
      hide CountSlot, Sent, Tallied, Waits;
      for k := 0 to |round|
        invariant Counted() && (k > 0 ==> Waits(i)) && Sent(old(out), out, WrId(o), round[..k])
        invariant forall j :: 0 <= j < |ongoing| && j != i ==> done[j] || progress[j] || Waits(j)
        invariant forall j :: 0 <= j < 2 * parallel && j != i ==> ongoing[j] == old(ongoing)[j]
      {
        PostNext(o, round, k, old(out));
      }
      assert round[..|round|] == round;
    }

    method PostNext(o: Owner, round: seq<nat>, k: nat, ghost was: seq<seq<nat>>)
      requires Counted() && o.id < parallel && !done[Slot(o, parallel)] && k < |round| && round[k] < servers
      requires Sent(was, out, WrId(o), round[..k])
      modifies this`toPoll, this`ongoing, this`out
      ensures Counted() && Waits(Slot(o, parallel)) && Sent(was, out, WrId(o), round[..k + 1])
      ensures forall j :: 0 <= j < 2 * parallel && j != Slot(o, parallel) ==>
                ongoing[j] == old(ongoing)[j] && (Waits(j) <==> old(Waits(j)))
    {
      ghost var before := ongoing;
      SendOne(was, out, WrId(o), round, k);
      hide CountSlot, Sent, Tallied;
      Post(o, round[k]);
      forall j | 0 <= j < 2 * parallel && j != Slot(o, parallel) ensures Waits(j) <==> old(Waits(j)) {
        assert ongoing[j] == before[j];
      }
    }

    /** A done future starts a new operation with its first round. */
    method Start(o: Owner, round: seq<nat>)
      requires Valid() && o.id < parallel && done[Slot(o, parallel)] && round != []
      requires forall k :: 0 <= k < |round| ==> round[k] < servers
      modifies this`toPoll, this`ongoing, this`out, this`done
      ensures Valid() && done == old(done)[Slot(o, parallel) := false] && Sent(old(out), out, WrId(o), round)
    {
      done := done[Slot(o, parallel) := false];
      PostRound(o, round);
    }

    /** One scan of the loop that looks for a free future of one kind: flagged ones step, and the first that is done
        is returned. If none is, each of them has something outstanding, so polling goes on with a purpose.
        finishes and rounds say what each future does if it steps. */
    method ScanForFree(range: bool, finishes: seq<bool>, rounds: seq<seq<nat>>) returns (free: int)
      requires Valid() && |finishes| == |rounds| == parallel
      requires forall i :: 0 <= i < parallel ==> finishes[i] || rounds[i] != []
      requires forall i, k :: 0 <= i < parallel && 0 <= k < |rounds[i]| ==> rounds[i][k] < servers
      modifies this`toPoll, this`ongoing, this`out, this`done, this`progress
      ensures Valid() && -1 <= free < parallel
      ensures free >= 0 ==> done[Slot(Owner(range, free), parallel)]
      ensures forall s :: 0 <= s < servers ==> old(out)[s] <= out[s]
      ensures forall i :: 0 <= i < (if free < 0 then parallel else free) ==>
                var j := Slot(Owner(range, i), parallel); !done[j] && !progress[j] && Waits(j)
    {
      for i := 0 to parallel
        invariant Valid() && forall s :: 0 <= s < servers ==> old(out)[s] <= out[s]
        invariant forall k :: 0 <= k < i ==> var j := Slot(Owner(range, k), parallel); !done[j] && !progress[j] && Waits(j)
      {
        var o := Owner(range, i);
        var j := Slot(o, parallel);
        if progress[j] { StepFlagged(o, finishes[i], rounds[i]); }
        if done[j] { return i; }
        assert Waits(j);
      }
      return -1;
    }

    /** One turn of the loop that drains the futures of index id: poll, then step whichever of the two is flagged.
        Both are then done or wait for something, and nothing that was done comes undone. */
    method FinishTurn(id: nat, ready: seq<nat>, finishes: seq<bool>, rounds: seq<seq<nat>>)
      requires Valid() && id < parallel && |ready| == servers && |finishes| == |rounds| == 2
      requires forall i :: 0 <= i < 2 ==> finishes[i] || rounds[i] != []
      requires forall i, k :: 0 <= i < 2 && 0 <= k < |rounds[i]| ==> rounds[i][k] < servers
      modifies this`toPoll, this`ongoing, this`out, this`done, this`progress
      ensures Valid() && (done[id] || Waits(id)) && (done[id + parallel] || Waits(id + parallel))
      ensures forall i :: 0 <= i < 2 * parallel && old(done)[i] ==> done[i]
      ensures forall s :: 0 <= s < servers ==> Unpolled(old(out)[s], ready[s]) <= out[s]
      ensures AllPolled(old(out), ready, id) && finishes[0] ==> done[id]
      ensures AllPolled(old(out), ready, id + parallel) && finishes[1] ==> done[id + parallel]
    {
      assert |out| == servers;
      hide CountSlot, Tallied, Waits, AllPolled;
      var any := TickRdma(ready);
      assert forall s :: 0 <= s < servers ==> out[s] == Unpolled(old(out)[s], ready[s]);
      NotWaiting(id, old(out), ready);
      NotWaiting(id + parallel, old(out), ready);
      hide Unpolled;
      StepBoth(id, finishes, rounds);
    }

    method StepBoth(id: nat, finishes: seq<bool>, rounds: seq<seq<nat>>)
      requires Valid() && id < parallel && |finishes| == |rounds| == 2
      requires forall i :: 0 <= i < 2 ==> finishes[i] || rounds[i] != []
      requires forall i, k :: 0 <= i < 2 && 0 <= k < |rounds[i]| ==> rounds[i][k] < servers
      modifies this`toPoll, this`ongoing, this`out, this`done, this`progress
      ensures Valid() && (done[id] || Waits(id)) && (done[id + parallel] || Waits(id + parallel))
      ensures forall i :: 0 <= i < 2 * parallel && old(done)[i] ==> done[i]
      ensures forall s :: 0 <= s < servers ==> old(out)[s] <= out[s]
      ensures !old(Waits(id)) && finishes[0] ==> done[id]
      ensures !old(Waits(id + parallel)) && finishes[1] ==> done[id + parallel]
    {
      assert |out| == servers;
      hide CountSlot, Tallied, Waits;
      StepIfFlagged(Owner(false, id), finishes[0], rounds[0]);
      StepIfFlagged(Owner(true, id), finishes[1], rounds[1]);
    }

    lemma {:induction false} NotWaiting(i: nat, was: seq<seq<nat>>, ready: seq<nat>)
      requires Counted() && i < 2 * parallel && |was| == |ready| == servers
      requires forall s :: 0 <= s < servers ==> out[s] == Unpolled(was[s], ready[s])
      ensures |ongoing| == 2 * parallel && |ongoing[i]| == servers && (AllPolled(was, ready, i) ==> !Waits(i))
    {
      assert forall s :: 0 <= s < servers ==> ongoing[i][s] == CountSlot(out[s], i, parallel);
    }

    method StepIfFlagged(o: Owner, finishes: bool, round: seq<nat>)
      requires Valid() && o.id < parallel && (forall k :: 0 <= k < |round| ==> round[k] < servers) && (finishes || round != [])
      modifies this`toPoll, this`ongoing, this`out, this`done, this`progress
      ensures Valid() && (done[Slot(o, parallel)] || Waits(Slot(o, parallel)))
      ensures old(done)[Slot(o, parallel)] || (finishes && !old(Waits(Slot(o, parallel)))) ==> done[Slot(o, parallel)]
      ensures forall s :: 0 <= s < servers ==> old(out)[s] <= out[s]
      ensures forall i :: 0 <= i < 2 * parallel && i != Slot(o, parallel) ==>
                done[i] == old(done)[i] && progress[i] == old(progress)[i] && (Waits(i) <==> old(Waits(i)))
    {
      ghost var was := ongoing;
      if progress[Slot(o, parallel)] { StepFlagged(o, finishes, round); }
      forall i | 0 <= i < 2 * parallel && i != Slot(o, parallel) ensures Waits(i) <==> old(Waits(i)) {
        assert ongoing[i] == was[i];
      }
    }

    /** What is left at a server when its queue yields ready completions. */
    function Unpolled(out: seq<nat>, ready: nat): seq<nat> {
      if ready < |out| then out[ready..] else []
    }

    /** Nothing of the future in slot i is left at any server. */
    ghost predicate AllPolled(out: seq<seq<nat>>, ready: seq<nat>, i: nat)
      requires |out| == |ready|
      reads this
    {
      forall s :: 0 <= s < |out| ==> CountSlot(Unpolled(out[s], ready[s]), i, parallel) == 0
    }

    /** A flagged future tries to step and its flag is cleared: whatever comes of it, it is done or waits. */
    method StepFlagged(o: Owner, finishes: bool, round: seq<nat>)
      requires Valid() && o.id < parallel && (forall k :: 0 <= k < |round| ==> round[k] < servers) && (finishes || round != [])
      modifies this`toPoll, this`ongoing, this`out, this`done, this`progress
      ensures Valid() && progress == old(progress)[Slot(o, parallel) := false]
      ensures done[Slot(o, parallel)] || Waits(Slot(o, parallel))
      ensures old(done)[Slot(o, parallel)] ==> done[Slot(o, parallel)]
      ensures if old(done)[Slot(o, parallel)] || finishes || old(Waits(Slot(o, parallel))) then out == old(out)
              else Sent(old(out), out, WrId(o), round)
      ensures !old(done)[Slot(o, parallel)] && !old(Waits(Slot(o, parallel))) ==> done[Slot(o, parallel)] == finishes
      ensures forall i :: 0 <= i < 2 * parallel && i != Slot(o, parallel) ==> ongoing[i] == old(ongoing)[i] && done[i] == old(done)[i]
    {
      var i := Slot(o, parallel);
      assert forall s :: 0 <= s < servers ==> ongoing[i][s] == CountSlot(out[s], i, parallel);
      var moved := TryStepForward(o, finishes, round);
      ghost var was := ongoing;
      assert done[i] || exists s :: 0 <= s < servers && was[i][s] > 0;
      progress := progress[i := false];
      forall j | 0 <= j < |ongoing| ensures done[j] || progress[j] || Waits(j) {
        if j != i { assert done[j] || progress[j] || exists s :: 0 <= s < servers && was[j][s] > 0; }
      }
    }

    /** A server's count of completions to poll is the sum of what all futures have outstanding there, and
        never negative; a done future has nothing outstanding. */
    lemma {:induction false} Balanced(s: nat)
      requires Valid() && s < servers
      ensures toPoll[s] >= 0 && toPoll[s] == SumOver(ongoing, s)
      ensures forall i :: 0 <= i < |ongoing| && done[i] ==> ongoing[i][s] == 0
    {
      CountsAddUp(out[s], parallel);
      SumIsCount(2 * parallel, s);
      assert ongoing[..2 * parallel] == ongoing;
    }

    lemma {:induction false} SumIsCount(n: nat, s: nat)
      requires Valid() && s < servers && n <= 2 * parallel
      ensures SumOver(ongoing[..n], s) == CountUpTo(out[s], parallel, n)
    {
      if n > 0 {
        SumIsCount(n - 1, s);
        assert ongoing[..n][..n - 1] == ongoing[..n - 1];
      }
    }
  }
}
