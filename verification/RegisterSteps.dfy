/** Every step of the register protocol keeps the invariant. */
module RegisterSteps {
  import opened Registers
  import opened RegisterProtocol
  import opened RegisterSafety

  // ---------- what a finished round leaves ----------

  ghost predicate Low(regs: seq<Register>) {
    forall i :: 0 <= i < |regs| ==> regs[i].num < SEQ_LIMIT - 1
  }

  /** What a round may do to a put: raise the target, keep owner and value, expect known registers. */
  ghost predicate RoundOk(me: nat, d: PutData, swaps: seq<Register>, r: PutData)
    requires d.Shape(|swaps|)
  {
    && r.Shape(|swaps|)
    && r.value == d.value && r.target.num >= d.target.num
    && r.target.clientId == me && r.target.value == d.value
    && (forall i :: 0 <= i < |swaps| ==> r.expected[i] in [d.expected[i], swaps[i], d.target])
    && (r.Finished() ==>
          r.target == d.target && exists i :: 0 <= i < |swaps| && d.needs[i] && swaps[i] == d.expected[i])
    && (!r.Finished() ==> PutOk(r, swaps))
  }

  /** The target's number stays, or is one above an answer that was at or above it. */
  ghost predicate Retargets(d: PutData, swaps: seq<Register>, r: PutData)
    requires d.Shape(|swaps|)
  {
    || r.target.num == d.target.num
    || exists i :: 0 <= i < |swaps| && d.needs[i] && swaps[i] != d.expected[i]
                   && swaps[i].num >= d.target.num && r.target.num == swaps[i].num + 1
  }

  lemma {:induction false} AfterReadsOk(me: nat, value: nat, got: seq<Register>, swaps: seq<Register>)
    requires |got| == |swaps| > 0 && Low(got)
    ensures var r := AfterReads(me, value, got);
            && r.Shape(|swaps|) && !r.Finished() && PutOk(r, swaps) && r.expected == got
            && r.target == Register(MaxSeq(got) + 1, me, value)
  {
    var r := AfterReads(me, value, got);
    assert r.needs[0];
    assert MaxSeq(got) < SEQ_LIMIT - 1;
  }

  lemma {:induction false} OptimisticOk(me: nat, value: nat, cached: Register, swaps: seq<Register>)
    requires |swaps| > 0 && cached.num < SEQ_LIMIT - 1
    ensures var r := Optimistic(me, value, cached, |swaps|);
            && r.Shape(|swaps|) && !r.Finished() && PutOk(r, swaps)
            && r.target == Register(cached.num + 1, me, value)
  {
    assert Optimistic(me, value, cached, |swaps|).needs[0];
  }

  lemma {:induction false} HighestFailure(d: PutData, swaps: seq<Register>, n: nat)
    requires n <= |swaps| && |d.expected| == |swaps|
    ensures var z := MaxSeq(Failures(d, swaps, n));
            z == 0 || exists i :: 0 <= i < n && swaps[i] != d.expected[i] && swaps[i].num == z
  {
    hide MaxSeq;
    if n == 0 { MaxSeqNone(); } else {
      HighestFailure(d, swaps, n - 1);
      if swaps[n - 1] == d.expected[n - 1] {
        assert Failures(d, swaps, n) == Failures(d, swaps, n - 1);
      } else {
        MaxSeqAppend(Failures(d, swaps, n - 1), swaps[n - 1]);
      }
    }
  }

  lemma {:induction false} AfterOptimisticOk(me: nat, d: PutData, swaps: seq<Register>)
    requires d.Shape(|swaps|) && |swaps| > 0 && PutOk(d, swaps) && Low(swaps)
    requires forall i :: 0 <= i < |swaps| ==> d.needs[i]
    requires d.target.clientId == me && d.target.value == d.value && d.target.num < SEQ_LIMIT - 1
    ensures RoundOk(me, d, swaps, AfterOptimistic(me, d, swaps))
  {
    hide MaxSeq, Failures;
    FailuresAre(d, swaps, |swaps|);
    FailuresBelow(d, swaps, |swaps|, SEQ_LIMIT - 2);
    var r := AfterOptimistic(me, d, swaps);
    assert d.expected[0].num < d.target.num;
    var floor := (d.target.num + SEQ_LIMIT - 1) % SEQ_LIMIT;
    assert floor == d.target.num - 1;
    if Failures(d, swaps, |swaps|) == [] {
      assert r.Finished();
      assert d.needs[0] && swaps[0] == d.expected[0];
    } else {
      var i :| 0 <= i < |swaps| && swaps[i] != d.expected[i];
      assert r.needs[i];
    }
  }

  lemma {:induction false} OptimisticRetargets(me: nat, d: PutData, swaps: seq<Register>)
    requires d.Shape(|swaps|) && Low(swaps) && 0 < d.target.num < SEQ_LIMIT - 1
    requires forall i :: 0 <= i < |swaps| ==> d.needs[i]
    ensures Retargets(d, swaps, AfterOptimistic(me, d, swaps))
  {
    hide MaxSeq, Failures;
    HighestFailure(d, swaps, |swaps|);
    FailuresBelow(d, swaps, |swaps|, SEQ_LIMIT - 2);
    assert (d.target.num + SEQ_LIMIT - 1) % SEQ_LIMIT == d.target.num - 1;
  }

  lemma {:induction false} CasRetargets(me: nat, d: PutData, swaps: seq<Register>)
    requires d.Shape(|swaps|) && Low(swaps)
    ensures Retargets(d, swaps, AfterCas(me, d, swaps))
  {}

  lemma {:induction false} AfterCasOk(me: nat, d: PutData, swaps: seq<Register>)
    requires d.Shape(|swaps|) && PutOk(d, swaps) && Low(swaps)
    requires d.target.clientId == me && d.target.value == d.value
    ensures RoundOk(me, d, swaps, AfterCas(me, d, swaps))
  {
    var r, b := AfterCas(me, d, swaps), FirstBump(d, swaps);
    if b == |swaps| {
      if r.Finished() {
        var i :| 0 <= i < |swaps| && d.needs[i];
        assert !r.needs[i];
      } else {
        forall i | 0 <= i < |swaps| && r.needs[i] ensures r.expected[i].num < r.target.num {
          assert !Bumps(d, swaps, i);
        }
      }
    } else {
      assert r.needs[b] && Bumps(d, swaps, b);
      forall i | 0 <= i < |swaps| && r.needs[i] ensures r.expected[i].num < r.target.num {
        if i < b { assert !Bumps(d, swaps, i); }
      }
    }
  }

  // ---------- the registers a client holds are low enough ----------

  lemma {:induction false} KnownLow(issued: map<Register, nat>, regs: seq<Register>)
    requires AllKnown(issued, regs) && forall r :: r in issued ==> r.num < SEQ_LIMIT - 1
    ensures Low(regs)
  {}

  lemma {:induction false} SameTagSameRegister(issued: map<Register, nat>, r: Register, t: Register)
    requires IssuedOk(issued) && Known(issued, r) && Known(issued, t) && r.SameTag(t)
    ensures r == t
  {}

  // ---------- starting ----------

  lemma {:induction false} FreshPut(issued: map<Register, nat>, c: nat, x: Client, target: Register, value: nat)
    requires IssuedOk(issued) && OwnIssues(issued, c, x) && target.clientId == c && target.num > x.floor && target.value == value
    requires !x.phase.Optimism? && !x.phase.Casing?
    ensures IssuedOk(issued[target := x.puts])
    ensures target !in issued
    ensures forall r :: r in issued && r.clientId == c ==> issued[r] < x.puts && r.num <= x.floor
  {
  }

  lemma {:induction false} Again(issued: map<Register, nat>, c: nat, x: Client, target: Register)
    requires IssuedOk(issued) && OwnIssues(issued, c, x) && PutIssued(issued, c, x)
    requires x.phase.Optimism? || x.phase.Casing?
    requires target.clientId == c && target.num >= x.data.target.num && target.value == x.data.value
    ensures IssuedOk(issued[target := x.puts])
    ensures target in issued ==> issued[target] == x.puts
  {}

  /** Client y's move is fine: it keeps its own part, and what it files is new to itself only. */
  ghost predicate MovedOk(cfg: Config, replicas: seq<Register>, issued: map<Register, nat>, c: nat, y: Client)
    requires cfg.Valid() && |replicas| == cfg.servers
  {
    var issued' := Filed(issued, y);
    && ClientOk(cfg, replicas, issued', c, y) && IssuedOk(issued') && Later(cfg, replicas, issued, replicas, issued')
    && forall r :: r in issued' && r !in issued ==> r.clientId == c
  }

  /** A client that starts or continues its put with data d, its requests now posted. */
  lemma {:induction false} RoundPosted(cfg: Config, replicas: seq<Register>, issued: map<Register, nat>, c: nat, x: Client, y: Client)
    requires cfg.Valid() && |replicas| == cfg.servers && ClientOk(cfg, replicas, issued, c, x)
    requires y.data.Shape(cfg.quorum) && y == x.(phase := y.phase, data := y.data, flight := Posted(y.data.needs))
    requires y.phase.Casing? || (y.phase.Optimism? && forall i :: 0 <= i < cfg.quorum ==> y.data.needs[i])
    requires PutOk(y.data, y.swaps)
    requires y.data.target.clientId == c && y.data.target.value == y.data.value && x.floor < y.data.target.num
    requires forall r :: r in issued && r.clientId == c && r.num > x.floor ==>
      r.num <= y.data.target.num && r.value == y.data.value && issued[r] == x.puts
    requires y.data.target in issued ==> issued[y.data.target] == x.puts
    requires AllKnown(Filed(issued, y), y.data.expected) && IssuedOk(Filed(issued, y))
    ensures MovedOk(cfg, replicas, issued, c, y)
  {
    var issued' := Filed(issued, y);
    assert Later(cfg, replicas, issued, replicas, issued');
    HeldStays(issued, issued', x);
    assert OwnIssues(issued', c, y) by { hide PutOk, IssuedOk; }
    assert PhaseOk(cfg, replicas, issued', c, y) by { hide PutOk, IssuedOk, OwnIssues; }
  }

  lemma {:induction false} HeldStays(issued: map<Register, nat>, issued': map<Register, nat>, x: Client)
    requires forall r :: r in issued ==> r in issued'
    requires AllKnown(issued, x.got) && AllKnown(issued, x.swaps)
    ensures AllKnown(issued', x.got) && AllKnown(issued', x.swaps)
    ensures forall r :: Known(issued, r) ==> Known(issued', r)
  {}

  lemma {:induction false} StartPutOk(cfg: Config, replicas: seq<Register>, issued: map<Register, nat>, c: nat, x: Client, v: nat)
    requires cfg.Valid() && |replicas| == cfg.servers && ClientOk(cfg, replicas, issued, c, x) && x.phase.Idle?
    requires IssuedOk(issued) && forall r :: r in issued ==> r.num < SEQ_LIMIT - 1
    ensures MovedOk(cfg, replicas, issued, c, StartedPut(cfg, c, x, v))
  {
    if x.cache.Some? {
      StartCachedOk(cfg, replicas, issued, c, x, v);
    } else {
      StartPutReadingOk(cfg, replicas, issued, c, x, v);
    }
  }

  lemma {:induction false} StartCachedOk(cfg: Config, replicas: seq<Register>, issued: map<Register, nat>, c: nat, x: Client, v: nat)
    requires cfg.Valid() && |replicas| == cfg.servers && ClientOk(cfg, replicas, issued, c, x) && x.phase.Idle?
    requires IssuedOk(issued) && forall r :: r in issued ==> r.num < SEQ_LIMIT - 1
    requires x.cache.Some?
    ensures MovedOk(cfg, replicas, issued, c, StartedPut(cfg, c, x, v))
  {
    hide PutOk, PhaseOk, IssuedOk, WillSee, Reached;
    var y := StartedPut(cfg, c, x, v);
    OptimisticOk(c, v, x.cache.value, x.swaps);
    assert AllOut(cfg.quorum) == Posted(y.data.needs);
    assert AllKnown(Filed(issued, y), y.data.expected);
    hide Optimistic, Posted, AllKnown;
    FreshPut(issued, c, x, y.data.target, v);
    RoundPosted(cfg, replicas, issued, c, x, y);
  }

  lemma {:induction false} StartPutReadingOk(cfg: Config, replicas: seq<Register>, issued: map<Register, nat>, c: nat, x: Client, v: nat)
    requires cfg.Valid() && |replicas| == cfg.servers && ClientOk(cfg, replicas, issued, c, x) && x.phase.Idle?
    requires IssuedOk(issued) && x.cache.None?
    ensures MovedOk(cfg, replicas, issued, c, StartedPut(cfg, c, x, v))
  {
    hide IssuedOk, AllKnown;
    var y := StartedPut(cfg, c, x, v);
    var i :| 0 <= i < cfg.quorum && replicas[cfg.Server(c, i)].num >= x.floor;
    assert y.flight[i].Out?;
    QuietOwnIssues(issued, c, x, y);
    Reassemble(cfg, replicas, issued, c, y);
  }

  lemma {:induction false} StartReadOk(cfg: Config, replicas: seq<Register>, issued: map<Register, nat>, c: nat, x: Client, range: bool)
    requires cfg.Valid() && |replicas| == cfg.servers && ClientOk(cfg, replicas, issued, c, x) && x.phase.Idle?
    ensures ClientOk(cfg, replicas, issued, c, x.(phase := Reading(range), flight := AllOut(cfg.quorum)))
  {
    var y := x.(phase := Reading(range), flight := AllOut(cfg.quorum));
    var i :| 0 <= i < cfg.quorum && replicas[cfg.Server(c, i)].num >= x.floor;
    assert y.flight[i].Out?;
  }

  // ---------- a server executes a request, a client polls ----------

  lemma {:induction false} ReadOk(cfg: Config, replicas: seq<Register>, issued: map<Register, nat>, c: nat, x: Client, i: nat)
    requires cfg.Valid() && |replicas| == cfg.servers && ClientOk(cfg, replicas, issued, c, x) && AllKnown(issued, replicas)
    requires SendsReads(x) && i < cfg.quorum && x.flight[i].Out?
    ensures ClientOk(cfg, replicas, issued, c, x.(flight := x.flight[i := Back], got := x.got[i := replicas[cfg.Server(c, i)]]))
  {
    var y := x.(flight := x.flight[i := Back], got := x.got[i := replicas[cfg.Server(c, i)]]);
    var j :| 0 <= j < cfg.quorum && replicas[cfg.Server(c, j)].num >= x.floor
             && (x.flight[j].Out? || x.got[j].num >= x.floor);
    assert y.flight[j].Out? || y.got[j].num >= y.floor;
  }

  /** A compare-and-swap that succeeds raises the replica's tag; a put's raises its sequence number. */
  lemma {:induction false} SwapRaises(cfg: Config, s: State, c: nat, i: nat)
    requires cfg.Valid() && Inv(cfg, s) && c < cfg.clients && i < cfg.quorum
    requires s.clients[c].flight[i].Out? && !SendsReads(s.clients[c])
    ensures var x := s.clients[c];
            && Expects(x, i).Less(Installs(x)) && Expects(x, i).num <= Installs(x).num
            && Known(s.issued, Installs(x))
            && (!x.phase.WritingBack? ==> x.data.needs[i] && Expects(x, i).num < Installs(x).num)
  {
    var x := s.clients[c];
    assert ClientOk(cfg, s.replicas, s.issued, c, x);
    if x.phase.WritingBack? && x.got[i].SameTag(x.best) {
      SameTagSameRegister(s.issued, x.got[i], x.best);
    }
  }

  lemma {:induction false} QuietOwnIssues(issued: map<Register, nat>, c: nat, x: Client, y: Client)
    requires OwnIssues(issued, c, x) && y.puts == x.puts && y.floor == x.floor
    requires !x.phase.Optimism? && !x.phase.Casing?
    ensures OwnIssues(issued, c, y)
  {}

  lemma {:induction false} InvWellFormed(cfg: Config, s: State)
    requires cfg.Valid() && Inv(cfg, s)
    ensures WellFormed(cfg, s)
  {
    forall c | 0 <= c < cfg.clients ensures Shaped(cfg, s.clients[c]) {
      assert ClientOk(cfg, s.replicas, s.issued, c, s.clients[c]);
    }
  }

  lemma {:induction false} SwapOk(cfg: Config, s: State, c: nat, i: nat)
    requires cfg.Valid() && Inv(cfg, s) && c < cfg.clients && i < cfg.quorum
    requires s.clients[c].flight[i].Out? && !SendsReads(s.clients[c])
    ensures Inv(cfg, Apply(cfg, s, Execute(c, i)))
  {
    InvWellFormed(cfg, s);
    SwapRaises(cfg, s, c, i);
    hide ClientOk, IssuedOk;
    var s' := Apply(cfg, s, Execute(c, i));
    assert Later(cfg, s.replicas, s.issued, s'.replicas, s'.issued);
    forall d | 0 <= d < cfg.clients ensures ClientOk(cfg, s'.replicas, s'.issued, d, s'.clients[d]) {
      Bystander(cfg, s.replicas, s.issued, s'.replicas, s'.issued, d, s.clients[d]);
      if d == c { SwapperOk(cfg, s, c, i); }
    }
  }

  lemma {:induction false} SwapperOk(cfg: Config, s: State, c: nat, i: nat)
    requires cfg.Valid() && Inv(cfg, s) && c < cfg.clients && i < cfg.quorum
    requires s.clients[c].flight[i].Out? && !SendsReads(s.clients[c])
    requires var s' := Apply(cfg, s, Execute(c, i)); |s'.replicas| == cfg.servers && ClientOk(cfg, s'.replicas, s.issued, c, s.clients[c])
    ensures var s' := Apply(cfg, s, Execute(c, i)); ClientOk(cfg, s'.replicas, s.issued, c, s'.clients[c])
  {
    hide IssuedOk, OwnIssues;
    var s' := Apply(cfg, s, Execute(c, i));
    var x, y := s.clients[c], s'.clients[c];
    assert Known(s.issued, s.replicas[cfg.Server(c, i)]);
    assert OwnIssues(s.issued, c, y) by { assert OwnIssues(s.issued, c, x); SameOwnIssues(s.issued, c, x, y); }
  }

  lemma {:induction false} SameOwnIssues(issued: map<Register, nat>, c: nat, x: Client, y: Client)
    requires OwnIssues(issued, c, x) && y.puts == x.puts && y.floor == x.floor && y.phase == x.phase && y.data == x.data
    ensures OwnIssues(issued, c, y)
  {}

  lemma {:induction false} PollOk(cfg: Config, replicas: seq<Register>, issued: map<Register, nat>, c: nat, x: Client, i: nat)
    requires cfg.Valid() && |replicas| == cfg.servers && ClientOk(cfg, replicas, issued, c, x)
    requires i < cfg.quorum && x.flight[i].Back?
    ensures ClientOk(cfg, replicas, issued, c, x.(flight := x.flight[i := Quiet]))
  {
    var y := x.(flight := x.flight[i := Quiet]);
    if SendsReads(x) {
      var j :| 0 <= j < cfg.quorum && replicas[cfg.Server(c, j)].num >= x.floor
               && (x.flight[j].Out? || x.got[j].num >= x.floor);
      assert y.flight[j].Out? || y.got[j].num >= y.floor;
    }
  }

  // ---------- stepping forward ----------

  /** A read that is back has seen the client's floor. */
  lemma {:induction false} SawFloor(cfg: Config, replicas: seq<Register>, issued: map<Register, nat>, c: nat, x: Client)
    requires cfg.Valid() && |replicas| == cfg.servers && ClientOk(cfg, replicas, issued, c, x) && SendsReads(x) && x.AllQuiet()
    ensures exists i :: 0 <= i < cfg.quorum && x.got[i].num >= x.floor
    ensures MaxSeq(x.got) >= x.floor
    ensures MaxRegister(ZERO, x.got).num >= x.floor
    ensures MaxRegister(x.got[0], x.got[1..]).num >= x.floor
  {
    var i :| 0 <= i < cfg.quorum && replicas[cfg.Server(c, i)].num >= x.floor
             && (x.flight[i].Out? || x.got[i].num >= x.floor);
    assert x.got[i].num >= x.floor;
    if i > 0 { assert x.got[1..][i - 1] == x.got[i]; }
  }

  lemma {:induction false} ReadDoneOk(cfg: Config, replicas: seq<Register>, issued: map<Register, nat>, c: nat, x: Client)
    requires cfg.Valid() && |replicas| == cfg.servers && ClientOk(cfg, replicas, issued, c, x)
    requires x.phase.Reading? && x.AllQuiet() && IssuedOk(issued)
    ensures MovedOk(cfg, replicas, issued, c, Forwarded(cfg, c, x))
  {
    hide MaxRegister, IssuedOk, Known;
    SawFloor(cfg, replicas, issued, c, x);
    var y := Forwarded(cfg, c, x);
    QuietOwnIssues(issued, c, x, y);
    BestOk(issued, x.got, x.phase.range);
    ReadDonePhase(cfg, replicas, issued, c, x);
    hide OwnIssues, Reached, AllKnown, PhaseOk;
    Reassemble(cfg, replicas, issued, c, y);
  }

  lemma {:induction false} ReadDonePhase(cfg: Config, replicas: seq<Register>, issued: map<Register, nat>, c: nat, x: Client)
    requires cfg.Valid() && |replicas| == cfg.servers && Shaped(cfg, x) && x.phase.Reading? && x.AllQuiet()
    ensures PhaseOk(cfg, replicas, issued, c, Forwarded(cfg, c, x))
  {}

  /** A client that posts no compare-and-swap for a put files nothing. */
  lemma {:induction false} Reassemble(cfg: Config, replicas: seq<Register>, issued: map<Register, nat>, c: nat, y: Client)
    requires cfg.Valid() && |replicas| == cfg.servers && Shaped(cfg, y) && IssuedOk(issued)
    requires !y.phase.Optimism? && !y.phase.Casing?
    requires AllKnown(issued, y.got) && AllKnown(issued, y.swaps) && Known(issued, y.best)
    requires y.cache.Some? ==> cfg.cacheOn && Known(issued, y.cache.value) && y.cache.value.num >= y.floor
    requires OwnIssues(issued, c, y) && Reached(cfg, replicas, c, y.floor) && PhaseOk(cfg, replicas, issued, c, y)
    ensures MovedOk(cfg, replicas, issued, c, y)
  {
    hide AllKnown, Known, OwnIssues, Reached, PhaseOk, IssuedOk;
    assert Filed(issued, y) == issued;
    assert ClientOk(cfg, replicas, issued, c, y);
  }

  lemma {:induction false} BestOk(issued: map<Register, nat>, got: seq<Register>, range: bool)
    requires AllKnown(issued, got) && |got| > 0
    ensures Known(issued, if range then MaxRegister(got[0], got[1..]) else MaxRegister(ZERO, got))
  {}

  lemma {:induction false} PutEnds(cfg: Config, replicas: seq<Register>, issued: map<Register, nat>, c: nat, x: Client, r: PutData)
    requires cfg.Valid() && |replicas| == cfg.servers && ClientOk(cfg, replicas, issued, c, x)
    requires (x.phase.Optimism? || x.phase.Casing?) && x.AllQuiet() && IssuedOk(issued)
    requires RoundOk(c, x.data, x.swaps, r) && r.Finished()
    ensures MovedOk(cfg, replicas, issued, c, PutOn(cfg, x, r))
    ensures Reached(cfg, replicas, c, r.target.num)
  {
    EndReached(cfg, replicas, issued, c, x, r);
    assert PutIssued(issued, c, x);
    hide AllKnown, IssuedOk, Reached, PutOk, RoundOk, Landed, OwnIssues, PhaseOk;
    assert r.Shape(cfg.quorum);
    var y := PutOn(cfg, x, r);
    EndsOwnIssues(issued, c, x, y);
    IdlePhase(cfg, replicas, issued, c, y);
    Reassemble(cfg, replicas, issued, c, y);
  }

  lemma {:induction false} IdlePhase(cfg: Config, replicas: seq<Register>, issued: map<Register, nat>, c: nat, y: Client)
    requires cfg.Valid() && |replicas| == cfg.servers && Shaped(cfg, y) && y.phase.Idle? && y.AllQuiet()
    ensures PhaseOk(cfg, replicas, issued, c, y)
  {}

  lemma {:induction false} EndReached(cfg: Config, replicas: seq<Register>, issued: map<Register, nat>, c: nat, x: Client, r: PutData)
    requires cfg.Valid() && |replicas| == cfg.servers && ClientOk(cfg, replicas, issued, c, x)
    requires (x.phase.Optimism? || x.phase.Casing?) && x.AllQuiet()
    requires RoundOk(c, x.data, x.swaps, r) && r.Finished()
    ensures r.Shape(cfg.quorum) && r.target == x.data.target && Reached(cfg, replicas, c, r.target.num)
  {
    hide AllKnown, OwnIssues, PutOk, PutIssued;
    assert Landed(cfg, replicas, c, x);
    var i :| 0 <= i < cfg.quorum && x.data.needs[i] && x.swaps[i] == x.data.expected[i];
    assert x.flight[i].Quiet?;
    assert replicas[cfg.Server(c, i)].num >= x.data.target.num;
  }

  lemma {:induction false} EndsOwnIssues(issued: map<Register, nat>, c: nat, x: Client, y: Client)
    requires OwnIssues(issued, c, x) && PutIssued(issued, c, x)
    requires y.puts == x.puts + 1 && y.floor == x.data.target.num
    ensures OwnIssues(issued, c, y)
  {}

  lemma {:induction false} PutContinues(cfg: Config, replicas: seq<Register>, issued: map<Register, nat>, c: nat, x: Client, r: PutData)
    requires cfg.Valid() && |replicas| == cfg.servers && ClientOk(cfg, replicas, issued, c, x)
    requires (x.phase.Optimism? || x.phase.Casing?) && IssuedOk(issued)
    requires RoundOk(c, x.data, x.swaps, r) && !r.Finished()
    ensures MovedOk(cfg, replicas, issued, c, PutOn(cfg, x, r))
  {
    var y := PutOn(cfg, x, r);
    Again(issued, c, x, r.target);
    ContinuesOwn(issued, c, x, r);
    assert PutIssued(issued, c, x);
    ExpectedKnown(issued, c, x, r);
    hide PutOk, IssuedOk, OwnIssues, Landed, Reached, AllKnown, PhaseOk;
    RoundPosted(cfg, replicas, issued, c, x, y);
  }

  lemma {:induction false} ContinuesOwn(issued: map<Register, nat>, c: nat, x: Client, r: PutData)
    requires OwnIssues(issued, c, x) && PutIssued(issued, c, x)
    requires r.value == x.data.value && r.target.num >= x.data.target.num
    ensures forall k :: k in issued && k.clientId == c && k.num > x.floor ==>
      k.num <= r.target.num && k.value == r.value && issued[k] == x.puts
  {}

  lemma {:induction false} ExpectedKnown(issued: map<Register, nat>, c: nat, x: Client, r: PutData)
    requires |x.swaps| == |x.data.expected| && x.data.Shape(|x.swaps|)
    requires AllKnown(issued, x.swaps) && PutIssued(issued, c, x) && RoundOk(c, x.data, x.swaps, r)
    ensures AllKnown(issued[r.target := x.puts], r.expected)
  {}

  lemma {:induction false} ReadsBackOk(cfg: Config, replicas: seq<Register>, issued: map<Register, nat>, c: nat, x: Client)
    requires cfg.Valid() && |replicas| == cfg.servers && ClientOk(cfg, replicas, issued, c, x)
    requires x.phase.PutReading? && x.AllQuiet() && IssuedOk(issued)
    requires forall r :: r in issued ==> r.num < SEQ_LIMIT - 1
    ensures MovedOk(cfg, replicas, issued, c, Forwarded(cfg, c, x))
  {
    hide MaxSeq, AfterReads, PutOk, IssuedOk;
    var r := AfterReads(c, x.data.value, x.got);
    SawFloor(cfg, replicas, issued, c, x);
    AfterReadsOk(c, x.data.value, x.got, x.swaps);
    FreshPut(issued, c, x, r.target, x.data.value);
    var y := PutOn(cfg, x, r);
    HeldStays(issued, Filed(issued, y), x);
    AfterReadsValue(c, x.data.value, x.got);
    RoundPosted(cfg, replicas, issued, c, x, y);
  }

  lemma {:induction false} AfterReadsValue(me: nat, value: nat, got: seq<Register>)
    ensures AfterReads(me, value, got).value == value
  {}

  /** The client that moves keeps its part, and issues only registers of its own. */
  lemma {:induction false} MoverOk(cfg: Config, replicas: seq<Register>, issued: map<Register, nat>, c: nat, x: Client)
    requires cfg.Valid() && |replicas| == cfg.servers && ClientOk(cfg, replicas, issued, c, x) && x.AllQuiet() && !x.phase.Idle?
    requires IssuedOk(issued) && forall r :: r in issued ==> r.num < SEQ_LIMIT - 1
    ensures MovedOk(cfg, replicas, issued, c, Forwarded(cfg, c, x))
  {
    match x.phase
    case Idle =>
    case Reading(_) => ReadDoneOk(cfg, replicas, issued, c, x);
    case WritingBack => WriteBackDone(cfg, replicas, issued, c, x);
    case PutReading => ReadsBackOk(cfg, replicas, issued, c, x);
    case Optimism => RoundBack(cfg, replicas, issued, c, x, AfterOptimistic(c, x.data, x.swaps));
    case Casing => RoundBack(cfg, replicas, issued, c, x, AfterCas(c, x.data, x.swaps));
  }

  lemma {:induction false} WriteBackDone(cfg: Config, replicas: seq<Register>, issued: map<Register, nat>, c: nat, x: Client)
    requires cfg.Valid() && |replicas| == cfg.servers && ClientOk(cfg, replicas, issued, c, x)
    requires x.phase.WritingBack? && x.AllQuiet() && IssuedOk(issued)
    ensures MovedOk(cfg, replicas, issued, c, x.(phase := Idle))
  {}

  lemma {:induction false} RoundBack(cfg: Config, replicas: seq<Register>, issued: map<Register, nat>, c: nat, x: Client, r: PutData)
    requires cfg.Valid() && |replicas| == cfg.servers && ClientOk(cfg, replicas, issued, c, x) && x.AllQuiet()
    requires IssuedOk(issued) && forall r :: r in issued ==> r.num < SEQ_LIMIT - 1
    requires || (x.phase.Optimism? && r == AfterOptimistic(c, x.data, x.swaps))
             || (x.phase.Casing? && r == AfterCas(c, x.data, x.swaps))
    ensures RoundOk(c, x.data, x.swaps, r)
    ensures MovedOk(cfg, replicas, issued, c, PutOn(cfg, x, r))
    ensures r.Finished() ==> Reached(cfg, replicas, c, r.target.num)
  {
    hide AfterOptimistic, AfterCas, PutOk, Filed, MovedOk, RoundOk, Landed;
    KnownLow(issued, x.swaps);
    if x.phase.Optimism? { AfterOptimisticOk(c, x.data, x.swaps); } else { AfterCasOk(c, x.data, x.swaps); }
    RoundShape(c, x.data, x.swaps, r);
    if r.Finished() { PutEnds(cfg, replicas, issued, c, x, r); } else { PutContinues(cfg, replicas, issued, c, x, r); }
  }

  lemma {:induction false} RoundShape(me: nat, d: PutData, swaps: seq<Register>, r: PutData)
    requires d.Shape(|swaps|) && RoundOk(me, d, swaps, r)
    ensures r.Shape(|swaps|)
  {}

  // ---------- every step ----------

  lemma {:induction false} Frame(cfg: Config, s: State, c: nat, y: Client, issued': map<Register, nat>)
    requires cfg.Valid() && Inv(cfg, s) && c < cfg.clients
    requires Later(cfg, s.replicas, s.issued, s.replicas, issued') && IssuedOk(issued')
    requires forall k :: k in issued' && k !in s.issued ==> k.clientId == c
    requires ClientOk(cfg, s.replicas, issued', c, y)
    ensures Inv(cfg, s.(clients := s.clients[c := y], issued := issued'))
  {
    forall d | 0 <= d < cfg.clients && d != c ensures ClientOk(cfg, s.replicas, issued', d, s.clients[d]) {
      Bystander(cfg, s.replicas, s.issued, s.replicas, issued', d, s.clients[d]);
    }
  }

  lemma {:induction false} StepKeepsInv(cfg: Config, s: State, e: Event)
    requires cfg.Valid() && Inv(cfg, s) && Room(s) && Enabled(cfg, s, e)
    ensures Inv(cfg, Apply(cfg, s, e))
  {
    var c, x := e.c, s.clients[e.c];
    assert ClientOk(cfg, s.replicas, s.issued, c, x);
    var s' := Apply(cfg, s, e);
    match e
    case StartPut(_, v) => StartPutOk(cfg, s.replicas, s.issued, c, x, v); Frame(cfg, s, c, s'.clients[c], s'.issued);
    case StartGet(_) => StartReadOk(cfg, s.replicas, s.issued, c, x, false); Frame(cfg, s, c, s'.clients[c], s'.issued);
    case StartRange(_) => StartReadOk(cfg, s.replicas, s.issued, c, x, true); Frame(cfg, s, c, s'.clients[c], s'.issued);
    case Execute(_, i) =>
      if SendsReads(x) {
        ReadOk(cfg, s.replicas, s.issued, c, x, i);
        Frame(cfg, s, c, s'.clients[c], s'.issued);
      } else {
        SwapOk(cfg, s, c, i);
      }
    case Poll(_, i) => PollOk(cfg, s.replicas, s.issued, c, x, i); Frame(cfg, s, c, s'.clients[c], s'.issued);
    case Forward(_) => MoverOk(cfg, s.replicas, s.issued, c, x); Frame(cfg, s, c, s'.clients[c], s'.issued);
  }
}
