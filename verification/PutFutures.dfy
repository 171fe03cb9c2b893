/** The put operation as it runs at a client: work requests go out, answers land in buffers, and each
    step forward loops over the quorum. */
module PutFutures {
  import opened Registers

  datatype Step = ReadSeq | OptimisticChain | Cas | Done

  /** A work request on its way to a server. */
  datatype Request = ReadRequest(server: nat) | CasRequest(server: nat, expected: Register, target: Register)

  function CountFor(requests: seq<Request>, server: nat): nat {
    if requests == [] then 0
    else CountFor(requests[..|requests| - 1], server) + (if requests[|requests| - 1].server == server then 1 else 0)
  }

  lemma {:induction false} CountForAppend(requests: seq<Request>, r: Request)
    ensures forall s :: CountFor(requests + [r], s) == CountFor(requests, s) + (if r.server == s then 1 else 0)
  {
    assert (requests + [r])[..|requests|] == requests;
  }

  /** Each server's counter is the number of requests in flight to it. */
  ghost predicate Counted(ongoing: seq<int>, inFlight: seq<Request>, servers: nat) {
    && |ongoing| == servers
    && (forall s :: 0 <= s < servers ==> ongoing[s] == CountFor(inFlight, s))
    && (forall k :: 0 <= k < |inFlight| ==> inFlight[k].server < servers)
  }

  lemma {:induction false} CountForWithout(requests: seq<Request>, k: nat, s: nat)
    requires k < |requests|
    ensures CountFor(requests[..k] + requests[k + 1..], s)
         == CountFor(requests, s) - (if requests[k].server == s then 1 else 0)
  {
    var n := |requests| - 1;
    var less := requests[..k] + requests[k + 1..];
    if k == n {
      assert less == requests[..n];
    } else {
      var init := requests[..n];
      assert less[..|less| - 1] == init[..k] + init[k + 1..];
      assert less[|less| - 1] == requests[n] && init[k] == requests[k];
      CountForWithout(init, k, s);
    }
  }

  lemma {:induction false} CountedLess(ongoing: seq<int>, inFlight: seq<Request>, servers: nat, k: nat)
    requires Counted(ongoing, inFlight, servers) && k < |inFlight|
    ensures var s := inFlight[k].server;
            s < servers && Counted(ongoing[s := ongoing[s] - 1], inFlight[..k] + inFlight[k + 1..], servers)
  {
    forall s: nat | s < servers
      ensures CountFor(inFlight[..k] + inFlight[k + 1..], s) == CountFor(inFlight, s) - (if inFlight[k].server == s then 1 else 0)
    {
      CountForWithout(inFlight, k, s);
    }
  }

  function CountFalse(flags: seq<bool>): (n: nat)
    ensures n <= |flags|
    ensures n == |flags| <==> forall i :: 0 <= i < |flags| ==> !flags[i]
  {
    if flags == [] then 0
    else CountFalse(flags[..|flags| - 1]) + (if flags[|flags| - 1] then 0 else 1)
  }

  lemma {:induction false} CountFalseUpdate(flags: seq<bool>, i: nat, b: bool)
    requires i < |flags|
    ensures CountFalse(flags[i := b])
         == CountFalse(flags) + (if b then 0 else 1) - (if flags[i] then 0 else 1)
  {
    var k := |flags| - 1;
    if i == k {
      assert flags[i := b][..k] == flags[..k];
    } else {
      assert flags[i := b][..k] == flags[..k][i := b];
      CountFalseUpdate(flags[..k], i, b);
    }
  }

  lemma {:induction false} CountFalseNone(flags: seq<bool>)
    requires forall i :: 0 <= i < |flags| ==> flags[i]
    ensures CountFalse(flags) == 0
  {
    if flags != [] { CountFalseNone(flags[..|flags| - 1]); }
  }

  /** The requests of one compare-and-swap round: one for each slot still needing it. */
  function CasRound(d: PutData, quorum: seq<nat>, n: nat): seq<Request>
    requires d.Shape(|quorum|) && n <= |quorum|
  {
    if n == 0 then []
    else CasRound(d, quorum, n - 1)
         + (if d.needs[n - 1] then [CasRequest(quorum[n - 1], d.expected[n - 1], d.target)] else [])
  }

  lemma {:induction false} CasRoundStarts(d: PutData, quorum: seq<nat>)
    requires d.Shape(|quorum|)
    ensures CasRound(d, quorum, 0) == []
  {}

  lemma {:induction false} CasRoundNext(d: PutData, quorum: seq<nat>, n: nat)
    requires d.Shape(|quorum|) && n < |quorum|
    ensures CasRound(d, quorum, n + 1)
         == CasRound(d, quorum, n) + (if d.needs[n] then [CasRequest(quorum[n], d.expected[n], d.target)] else [])
  {}

  /** A round asks exactly the slots that need it, for what each of them expects, and no server twice. */
  lemma {:induction false} CasRoundAsks(d: PutData, quorum: seq<nat>, n: nat)
    requires d.Shape(|quorum|) && n <= |quorum| && forall i, j :: 0 <= i < j < |quorum| ==> quorum[i] != quorum[j]
    ensures forall r :: r in CasRound(d, quorum, n) <==>
              exists i :: 0 <= i < n && d.needs[i] && r == CasRequest(quorum[i], d.expected[i], d.target)
    ensures forall a, b :: 0 <= a < b < |CasRound(d, quorum, n)| ==>
              CasRound(d, quorum, n)[a].server != CasRound(d, quorum, n)[b].server
  {
    if n > 0 {
      CasRoundAsks(d, quorum, n - 1);
      var before, round := CasRound(d, quorum, n - 1), CasRound(d, quorum, n);
      forall a | 0 <= a < |before| ensures before[a].server != quorum[n - 1] {
        assert before[a] in before;
      }
      if d.needs[n - 1] { assert CasRequest(quorum[n - 1], d.expected[n - 1], d.target) == round[|before|]; }
    }
  }

  function ReadRound(quorum: seq<nat>): seq<Request> {
    seq(|quorum|, i requires 0 <= i < |quorum| => ReadRequest(quorum[i]))
  }

  function Slots<T>(perServer: seq<T>, quorum: seq<nat>): (slots: seq<T>)
    requires forall i :: 0 <= i < |quorum| ==> quorum[i] < |perServer|
    ensures |slots| == |quorum|
    ensures forall i :: 0 <= i < |quorum| ==> slots[i] == perServer[quorum[i]]
  {
    seq(|quorum|, i requires 0 <= i < |quorum| => perServer[quorum[i]])
  }

  class PutFuture {
    const me: nat
    const quorum: seq<nat>       // server of each slot
    const numServers: nat

    var step: Step
    var value: nat
    var ongoing: seq<int>        // per server
    var needsCas: seq<bool>      // per server
    var expected: seq<Register>  // per slot
    var target: Register
    var successCount: nat
    var readBufs: seq<Register>  // per server
    var swapBufs: seq<Register>  // per server
    var cache: Option<Register>

    ghost var inFlight: seq<Request>

    ghost predicate Valid()
      reads this
    {
      && QuorumOk()
      && |needsCas| == |readBufs| == |swapBufs| == numServers
      && |expected| == |quorum|
      && Counted(ongoing, inFlight, numServers)
      && (step.ReadSeq? ==> successCount == 0)
      && (step.OptimisticChain? || step.Cas? ==> successCount == CountFalse(Slots(needsCas, quorum)))
      && (step.OptimisticChain? ==> forall i :: 0 <= i < |quorum| ==> needsCas[quorum[i]])
    }

    ghost predicate QuorumOk()
      reads this
    {
      && (forall i :: 0 <= i < |quorum| ==> quorum[i] < numServers)
      && (forall i, j :: 0 <= i < j < |quorum| ==> quorum[i] != quorum[j])
    }

    ghost function Data(): (d: PutData)
      requires Valid()
      reads this
      ensures d.Shape(|quorum|)
    {
      PutData(value, Slots(needsCas, quorum), expected, target)
    }

    /** Outstanding are compare-and-swaps for exactly the slots still needing one, each expecting what that slot is
        expected to hold and installing the target, and none twice. */
    ghost predicate AsksNeeded()
      requires Valid()
      reads this
    {
      && (forall r :: r in inFlight <==>
            exists i :: 0 <= i < |quorum| && needsCas[quorum[i]] && r == CasRequest(quorum[i], expected[i], target))
      && forall a, b :: 0 <= a < b < |inFlight| ==> inFlight[a].server != inFlight[b].server
    }

    /** Hands one request to the network. */
    method Post(server: nat, ghost request: Request)
      requires server < numServers && request.server == server
      requires Counted(ongoing, inFlight, numServers)
      modifies this`ongoing, this`inFlight
      ensures Counted(ongoing, inFlight, numServers) && inFlight == old(inFlight) + [request]
    {
      CountForAppend(inFlight, request);
      ongoing := ongoing[server := ongoing[server] + 1];
      inFlight := inFlight + [request];
    }

    /** A completion from a server: the answer has landed in its buffer and its request, number k of those
        in flight, is no longer outstanding. */
    method AddToOngoingRDMA(server: nat, isRead: bool, answer: Register, ghost k: nat)
      requires Valid() && k < |inFlight| && inFlight[k].server == server && inFlight[k].ReadRequest? == isRead
      modifies this`ongoing, this`inFlight, this`readBufs, this`swapBufs
      ensures Valid() && inFlight == old(inFlight)[..k] + old(inFlight)[k + 1..]
      ensures readBufs == if isRead then old(readBufs)[server := answer] else old(readBufs)
      ensures swapBufs == if isRead then old(swapBufs) else old(swapBufs)[server := answer]
    {
      hide CountFor, CountFalse;
      CountedLess(ongoing, inFlight, numServers, k);
      if isRead { readBufs := readBufs[server := answer]; } else { swapBufs := swapBufs[server := answer]; }
      ongoing := ongoing[server := ongoing[server] - 1];
      inFlight := inFlight[..k] + inFlight[k + 1..];
    }

    method PostReads()
      requires Valid() && inFlight == []
      modifies this`ongoing, this`inFlight
      ensures Valid() && inFlight == ReadRound(quorum)
    {
      for i := 0 to |quorum|
        invariant Valid() && inFlight == ReadRound(quorum)[..i]
      {
        Post(quorum[i], ReadRequest(quorum[i]));
      }
    }

    method PostCas()
      requires Valid() && inFlight == []
      modifies this`ongoing, this`inFlight
      ensures Valid() && inFlight == CasRound(Data(), quorum, |quorum|)
    {
      for i := 0 to |quorum|
        invariant Valid() && Data() == old(Data()) && inFlight == CasRound(Data(), quorum, i)
      {
        var r := quorum[i];
        if needsCas[r] {
          Post(r, CasRequest(r, expected[i], target));
        }
      }
    }

    /** Cache hit: one compare-and-swap per slot, straight away, expecting the cached register. */
    method PostOptimisticChain(cached: Register)
      requires Valid() && inFlight == [] && step.Done? && successCount == 0
      requires target == Register(NextSeq(cached.num), me, value)
      modifies this`step, this`needsCas, this`expected, this`ongoing, this`inFlight
      ensures Valid() && step == OptimisticChain
      ensures Data() == Optimistic(me, value, cached, |quorum|)
      ensures inFlight == CasRound(Data(), quorum, |quorum|)
    {
      hide CountFalse, Counted, CasRound;
      CasRoundStarts(Optimistic(me, value, cached, |quorum|), quorum);
      ghost var d := Optimistic(me, value, cached, |quorum|);
      for i := 0 to |quorum|
        invariant Valid() && step.Done?
        invariant forall j :: 0 <= j < i ==> expected[j] == cached && needsCas[quorum[j]]
        invariant inFlight == CasRound(d, quorum, i)
      {
        expected := expected[i := cached];
        needsCas := needsCas[quorum[i] := true];
        CasRoundNext(d, quorum, i);
        Post(quorum[i], CasRequest(quorum[i], expected[i], target));
      }
      assert expected == d.expected && Slots(needsCas, quorum) == d.needs;
      CountFalseNone(Slots(needsCas, quorum));
      step := OptimisticChain;
    }

    /** Starts a put: optimistic when a register is cached, otherwise by reading the quorum. */
    method DoPut(v: nat)
      requires Valid() && step.Done? && inFlight == []
      modifies this`step, this`value, this`successCount, this`needsCas, this`expected, this`target,
               this`ongoing, this`inFlight
      ensures Valid()
      ensures cache.Some? ==>
        && step == OptimisticChain && Data() == Optimistic(me, v, cache.value, |quorum|)
        && inFlight == CasRound(Data(), quorum, |quorum|)
      ensures cache.None? ==> step == ReadSeq && value == v && inFlight == ReadRound(quorum)
      ensures cache.None? ==> |inFlight| == |quorum| && forall i :: 0 <= i < |quorum| ==> inFlight[i] == ReadRequest(quorum[i])
      ensures cache.Some? ==> AsksNeeded()
    {
      hide CountFalse, CasRound, Counted;
      value, successCount := v, 0;
      needsCas := seq(numServers, _ => false);
      if cache.Some? {
        target := Register(NextSeq(cache.value.num), me, v);
        PostOptimisticChain(cache.value);
        CasRoundAsks(Data(), quorum, |quorum|);
        return;
      }
      PostReads();
      step := ReadSeq;
    }

    method SetNeeds(i: nat, b: bool)
      requires QuorumOk() && |needsCas| == numServers && i < |quorum|
      modifies this`needsCas
      ensures |needsCas| == numServers
      ensures Slots(needsCas, quorum) == Slots(old(needsCas), quorum)[i := b]
      ensures CountFalse(Slots(needsCas, quorum))
           == CountFalse(Slots(old(needsCas), quorum)) + (if b then 0 else 1) - (if old(needsCas)[quorum[i]] then 0 else 1)
    {
      CountFalseUpdate(Slots(needsCas, quorum), i, b);
      needsCas := needsCas[quorum[i] := b];
    }

    /** Every read is back: aim above the highest sequence number seen, everywhere. */
    method FinishReads()
      requires Valid() && inFlight == [] && step.ReadSeq?
      modifies this`step, this`needsCas, this`expected, this`target, this`ongoing, this`inFlight
      ensures Valid() && step == Cas && Data() == AfterReads(me, value, Slots(readBufs, quorum))
      ensures inFlight == CasRound(Data(), quorum, |quorum|)
    {
      hide CountFalse, CasRound, Counted;
      var zMax := GatherReads();
      target := Register(NextSeq(zMax), me, value);
      CountFalseNone(Slots(needsCas, quorum));
      step := Cas;
      assert Data() == AfterReads(me, value, Slots(readBufs, quorum));
      PostCas();
    }

    method GatherReads() returns (zMax: nat)
      requires Valid() && step.ReadSeq?
      modifies this`needsCas, this`expected
      ensures Valid() && zMax == MaxSeq(Slots(readBufs, quorum))
      ensures expected == Slots(readBufs, quorum)
      ensures Slots(needsCas, quorum) == seq(|quorum|, _ => true)
    {
      hide CountFalse, CasRound, Counted, MaxSeq, Slots;
      ghost var got := Slots(readBufs, quorum);
      zMax := 0;
      MaxSeqNone();
      for i := 0 to |quorum|
        invariant Valid() && step.ReadSeq?
        invariant zMax == MaxSeq(got[..i])
        invariant expected[..i] == got[..i]
        invariant forall j :: 0 <= j < i ==> Slots(needsCas, quorum)[j]
      {
        var r := quorum[i];
        var reg := readBufs[r];
        MaxSeqAppend(got[..i], got[i]);
        assert got[..i + 1] == got[..i] + [got[i]];
        expected := expected[i := reg];
        assert expected[..i + 1] == expected[..i] + [reg];
        if reg.num > zMax { zMax := reg.num; }
        SetNeeds(i, true);
      }
      assert got[..|quorum|] == got && expected[..|quorum|] == expected;
    }

    /** Every optimistic compare-and-swap is back. */
    method FinishOptimistic()
      requires Valid() && inFlight == [] && step.OptimisticChain?
      modifies this`step, this`successCount, this`needsCas, this`expected, this`target, this`cache,
               this`ongoing, this`inFlight
      ensures Valid() && Data() == AfterOptimistic(me, old(Data()), Slots(swapBufs, quorum)) && Settled(old(cache))
    {
      hide CountFalse, CasRound, Counted, Observed, Refreshed, AfterOptimistic, HighestSeen;
      OptimisticLoops(me, Data(), Slots(swapBufs, quorum));
      var zMax := CompareAll();
      RefreshAll(old(Data()));
      AllFalse(Data().needs);
      if successCount >= |quorum| {
        cache := Some(target);
        step := Done;
        return;
      }
      target := Register(NextSeq(zMax), me, value);
      PostCas();
    }

    /** The second loop: what succeeded now holds the target, so that is what a retry must expect. */
    method RefreshAll(ghost d: PutData)
      requires Valid() && step.Cas? && d.Shape(|quorum|)
      requires Data() == Refreshed(d, Slots(swapBufs, quorum), 0)
      modifies this`expected
      ensures Valid() && Data() == Refreshed(d, Slots(swapBufs, quorum), |quorum|)
    {
      hide CountFalse, CasRound, Counted, Refreshed;
      for i := 0 to |quorum|
        invariant Valid()
        invariant Data() == Refreshed(d, Slots(swapBufs, quorum), i)
      {
        RefreshedStep(d, Slots(swapBufs, quorum), i);
        assert needsCas[quorum[i]] == Data().needs[i];
        if !needsCas[quorum[i]] { expected := expected[i := target]; }
      }
    }

    /** The first loop over the answers of the optimistic round. */
    method CompareAll() returns (zMax: nat)
      requires Valid() && inFlight == [] && step.OptimisticChain?
      modifies this`step, this`successCount, this`needsCas, this`expected
      ensures Valid() && step == Cas
      ensures Data() == Observed(old(Data()), Slots(swapBufs, quorum), |quorum|)
      ensures zMax == HighestSeen(old(Data()), Slots(swapBufs, quorum), |quorum|)
    {
      hide CountFalse, CasRound, Counted, Observed, HighestSeen;
      ghost var d, swap := Data(), Slots(swapBufs, quorum);
      zMax := (target.num + SEQ_LIMIT - 1) % SEQ_LIMIT;
      CountFalseNone(Data().needs);
      ObservedStarts(d, swap);
      step := Cas;
      for i := 0 to |quorum|
        invariant Valid() && step.Cas?
        invariant Data() == Observed(d, swap, i)
        invariant zMax == HighestSeen(d, swap, i)
      {
        var observed := swapBufs[quorum[i]];
        ObservedStep(d, swap, i);
        HighestSeenStep(d, swap, i);
        assert Data().needs[i];
        if observed == expected[i] {
          SetNeeds(i, false);
          successCount := successCount + 1;
        } else {
          expected := expected[i := observed];
          if observed.num > zMax { zMax := observed.num; }
        }
      }
    }

    /** Every compare-and-swap of this round is back. A failure whose answer is at or above the
        target raises the target and resets every slot, in the middle of the loop. */
    method FinishCas()
      requires Valid() && inFlight == [] && step.Cas?
      modifies this`step, this`successCount, this`needsCas, this`expected, this`target, this`cache,
               this`ongoing, this`inFlight
      ensures Valid() && Data() == AfterCas(me, old(Data()), Slots(swapBufs, quorum)) && Settled(old(cache))
    {
      hide CountFalse, CasRound, Counted, AfterCas;
      CompareCas();
      AllFalse(Data().needs);
      if successCount >= |quorum| {
        cache := Some(target);
        step := Done;
      } else {
        PostCas();
      }
    }

    method CompareCas()
      requires Valid() && inFlight == [] && step.Cas?
      modifies this`successCount, this`needsCas, this`expected, this`target
      ensures Valid() && Data() == AfterCas(me, old(Data()), Slots(swapBufs, quorum))
    {
      hide CountFalse, CasRound, Counted, CasUpTo, AfterCas;
      ghost var d, swap := Data(), Slots(swapBufs, quorum);
      CasUpToEnds(me, d, swap);
      for i := 0 to |quorum|
        invariant Valid()
        invariant Data() == CasUpTo(me, d, swap, i)
      {
        var r := quorum[i];
        CasUpToStep(me, d, swap, i);
        if needsCas[r] {
          assert Data().needs[i];
          var observed := swapBufs[r];
          if observed == expected[i] {
            SetNeeds(i, false);
            successCount := successCount + 1;
          } else {
            expected := expected[i := observed];
            if observed.num >= target.num {
              target := Register(NextSeq(observed.num), me, value);
              ResetAll();
            }
          }
        } else { assert !Data().needs[i]; }
      }
    }

    /** Every slot is to be redone, expecting what its last answer was. */
    method ResetAll()
      requires QuorumOk() && |needsCas| == |swapBufs| == numServers && |expected| == |quorum|
      modifies this`needsCas, this`expected, this`successCount
      ensures |needsCas| == numServers && expected == Slots(swapBufs, quorum)
      ensures Slots(needsCas, quorum) == seq(|quorum|, _ => true)
      ensures successCount == CountFalse(Slots(needsCas, quorum))
    {
      hide CountFalse;
      ghost var swap := Slots(swapBufs, quorum);
      for j := 0 to |quorum|
        invariant |needsCas| == numServers && |expected| == |quorum|
        invariant forall k :: 0 <= k < j ==> expected[k] == swap[k] && Slots(needsCas, quorum)[k]
      {
        SetNeeds(j, true);
        expected := expected[j := swapBufs[quorum[j]]];
      }
      successCount := 0;
      CountFalseNone(Slots(needsCas, quorum));
    }

    /** Moves the operation on once nothing is outstanding; otherwise leaves it alone. */
    method TryStepForward() returns (progressed: bool)
      requires Valid()
      modifies this`step, this`successCount, this`needsCas, this`expected, this`target, this`cache,
               this`ongoing, this`inFlight
      ensures Valid()
      ensures progressed <==> old(inFlight) == []
      ensures !progressed ==> step == old(step) && Data() == old(Data()) && cache == old(cache) && inFlight == old(inFlight)
      ensures progressed && old(step).Done? ==> step == Done && cache == old(cache) && inFlight == []
      ensures progressed && old(step).ReadSeq? ==>
        && step == Cas && cache == old(cache) && Data() == AfterReads(me, value, Slots(readBufs, quorum))
        && inFlight == CasRound(Data(), quorum, |quorum|)
      ensures progressed && old(step).OptimisticChain? ==>
        Data() == AfterOptimistic(me, old(Data()), Slots(swapBufs, quorum)) && Settled(old(cache))
      ensures progressed && old(step).Cas? ==>
        Data() == AfterCas(me, old(Data()), Slots(swapBufs, quorum)) && Settled(old(cache))
      ensures progressed && step.Cas? ==> AsksNeeded()
    {
      hide CountFalse, CasRound, AfterReads, AfterOptimistic, AfterCas;
      for s := 0 to numServers
        invariant forall j :: 0 <= j < s ==> ongoing[j] == 0
      {
        if ongoing[s] > 0 {
          CountPositive(inFlight, s);
          return false;
        }
      }
      NothingOutstanding(inFlight, numServers);
      progressed := true;
      match step {
      case ReadSeq => FinishReads();
      case OptimisticChain => FinishOptimistic();
      case Cas => FinishCas();
      case Done =>
      }
      if step.Cas? { CasRoundAsks(Data(), quorum, |quorum|); }
    }

    /** A round either finished the put, caching the target, or posted the next round. */
    ghost predicate Settled(before: Option<Register>)
      requires Valid()
      reads this
    {
      if Data().Finished() then step == Done && inFlight == [] && cache == Some(target)
      else step == Cas && inFlight == CasRound(Data(), quorum, |quorum|) && cache == before
    }
  }

  lemma {:induction false} CountPositive(requests: seq<Request>, s: nat)
    requires CountFor(requests, s) > 0
    ensures requests != []
  {}

  lemma {:induction false} NothingOutstanding(requests: seq<Request>, servers: nat)
    requires forall k :: 0 <= k < |requests| ==> requests[k].server < servers
    requires forall s :: 0 <= s < servers ==> CountFor(requests, s) == 0
    ensures requests == []
  {
    if requests != [] {
      assert CountFor(requests, requests[|requests| - 1].server) > 0;
    }
  }

  /** Where the first loop over the answers of the optimistic round stands after n slots. */
  function Observed(d: PutData, swap: seq<Register>, n: nat): (r: PutData)
    requires d.Shape(|swap|) && n <= |swap|
    ensures r.Shape(|swap|)
  {
    d.(needs := seq(|swap|, i requires 0 <= i < |swap| => i >= n || swap[i] != d.expected[i]),
       expected := seq(|swap|, i requires 0 <= i < |swap| => if i < n then swap[i] else d.expected[i]))
  }

  function HighestSeen(d: PutData, swap: seq<Register>, n: nat): (z: nat)
    requires d.Shape(|swap|) && n <= |swap|
  {
    Max((d.target.num + SEQ_LIMIT - 1) % SEQ_LIMIT, MaxSeq(Failures(d, swap, n)))
  }

  lemma {:induction false} ObservedStarts(d: PutData, swap: seq<Register>)
    requires d.Shape(|swap|) && forall i :: 0 <= i < |swap| ==> d.needs[i]
    ensures Observed(d, swap, 0) == d && HighestSeen(d, swap, 0) == (d.target.num + SEQ_LIMIT - 1) % SEQ_LIMIT
  {}

  lemma {:induction false} ObservedStep(d: PutData, swap: seq<Register>, n: nat)
    requires d.Shape(|swap|) && n < |swap|
    ensures var o := Observed(d, swap, n);
            && o.needs[n] && o.expected[n] == d.expected[n]
            && Observed(d, swap, n + 1)
               == (if swap[n] == d.expected[n] then o.(needs := o.needs[n := false])
                   else o.(expected := o.expected[n := swap[n]]))
  {
    var o, e := Observed(d, swap, n), Observed(d, swap, n + 1);
    if swap[n] == d.expected[n] {
      assert e.needs == o.needs[n := false];
      assert e.expected == o.expected;
    } else {
      assert e.needs == o.needs;
      assert e.expected == o.expected[n := swap[n]];
    }
  }

  lemma {:induction false} HighestSeenStep(d: PutData, swap: seq<Register>, n: nat)
    requires d.Shape(|swap|) && n < |swap|
    ensures HighestSeen(d, swap, n + 1)
         == if swap[n] == d.expected[n] then HighestSeen(d, swap, n) else Max(HighestSeen(d, swap, n), swap[n].num)
  {
    hide MaxSeq;
    var f := Failures(d, swap, n);
    if swap[n] == d.expected[n] {
      assert Failures(d, swap, n + 1) == f;
    } else {
      assert Failures(d, swap, n + 1) == f + [swap[n]];
      MaxSeqAppend(f, swap[n]);
    }
  }

  /** Where the second loop stands: the successes now expect the target. */
  function Refreshed(d: PutData, swap: seq<Register>, n: nat): (r: PutData)
    requires d.Shape(|swap|) && n <= |swap|
    ensures r.Shape(|swap|) && r.target == d.target && r.value == d.value
  {
    d.(needs := seq(|swap|, i requires 0 <= i < |swap| => swap[i] != d.expected[i]),
       expected := seq(|swap|, i requires 0 <= i < |swap| => if i < n && swap[i] == d.expected[i] then d.target else swap[i]))
  }

  lemma {:induction false} RefreshedStep(d: PutData, swap: seq<Register>, n: nat)
    requires d.Shape(|swap|) && n < |swap|
    ensures var o := Refreshed(d, swap, n);
            Refreshed(d, swap, n + 1) == if o.needs[n] then o else o.(expected := o.expected[n := d.target])
  {
    var o, e := Refreshed(d, swap, n), Refreshed(d, swap, n + 1);
    assert e.needs == o.needs;
    assert e.expected == if o.needs[n] then o.expected else o.expected[n := d.target];
  }

  /** The two loops together compute the round's result. */
  lemma {:induction false} OptimisticLoops(me: nat, d: PutData, swap: seq<Register>)
    requires d.Shape(|swap|)
    ensures var q := |swap|; var r := Refreshed(d, swap, q);
            && Observed(d, swap, q) == Refreshed(d, swap, 0)
            && AfterOptimistic(me, d, swap)
               == if r.Finished() then r else r.(target := Register(NextSeq(HighestSeen(d, swap, q)), me, d.value))
  {
    FailuresAre(d, swap, |swap|);
    var q := |swap|;
    assert Observed(d, swap, q).expected == Refreshed(d, swap, 0).expected;
    assert Observed(d, swap, q).needs == Refreshed(d, swap, 0).needs;
    var r, a := Refreshed(d, swap, q), AfterOptimistic(me, d, swap);
    assert a.needs == r.needs && a.expected == r.expected;
    assert r.Finished() <==> forall i :: 0 <= i < q ==> !r.needs[i];
    assert forall i :: 0 <= i < q ==> r.needs[i] == (swap[i] != d.expected[i]);
  }

  lemma {:induction false} AllFalse(flags: seq<bool>)
    ensures CountFalse(flags) >= |flags| <==> forall i :: 0 <= i < |flags| ==> !flags[i]
  {}

  /** Where the loop over the answers of a compare-and-swap round stands after n slots. */
  function CasUpTo(me: nat, d: PutData, swap: seq<Register>, n: nat): (r: PutData)
    requires d.Shape(|swap|) && n <= |swap|
    ensures r.Shape(|swap|)
  {
    var q, b := |swap|, FirstBump(d, swap);
    if n <= b then
      d.(needs := seq(q, i requires 0 <= i < q => d.needs[i] && (i >= n || swap[i] != d.expected[i])),
         expected := seq(q, i requires 0 <= i < q => if i < n && d.needs[i] then swap[i] else d.expected[i]))
    else
      PutData(d.value, seq(q, i requires 0 <= i < q => i <= b || i >= n), swap, Register(NextSeq(swap[b].num), me, d.value))
  }

  lemma {:induction false} CasUpToEnds(me: nat, d: PutData, swap: seq<Register>)
    requires d.Shape(|swap|)
    ensures CasUpTo(me, d, swap, 0) == d
    ensures CasUpTo(me, d, swap, |swap|) == AfterCas(me, d, swap)
  {}

  lemma {:induction false} CasUpToStep(me: nat, d: PutData, swap: seq<Register>, n: nat)
    requires d.Shape(|swap|) && n < |swap|
    ensures var c := CasUpTo(me, d, swap, n);
            CasUpTo(me, d, swap, n + 1)
            == if !c.needs[n] then c
               else if swap[n] == c.expected[n] then c.(needs := c.needs[n := false])
               else if swap[n].num >= c.target.num then
                 PutData(d.value, seq(|swap|, _ => true), swap, Register(NextSeq(swap[n].num), me, d.value))
               else c.(expected := c.expected[n := swap[n]])
  {
    var b := FirstBump(d, swap);
    var c := CasUpTo(me, d, swap, n);
    var e := CasUpTo(me, d, swap, n + 1);
    if n < b {
      assert !Bumps(d, swap, n);
      assert e.target == c.target;
    } else if n == b {
      assert e.needs == seq(|swap|, _ => true);
    } else {
      assert e.expected == c.expected == swap;
    }
  }
}
