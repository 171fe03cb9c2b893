/** What a user of the replicated register can rely on in every run. */
module RegisterTheorems {
  import opened Registers
  import opened RegisterProtocol
  import opened RegisterSafety
  import opened RegisterSteps

  ghost predicate IsStep(cfg: Config, s: State, e: Event, s': State)
    requires cfg.Valid()
  {
    WellFormed(cfg, s) && Enabled(cfg, s, e) && s' == Apply(cfg, s, e)
  }

  /** A run of any events by any clients, none of whose states has run out of sequence numbers. */
  ghost predicate IsRun(cfg: Config, states: seq<State>, events: seq<Event>)
    requires cfg.Valid()
  {
    && |states| == |events| + 1
    && states[0] == Init(cfg)
    && (forall k :: 0 <= k < |states| ==> Room(states[k]))
    && (forall k :: 0 <= k < |events| ==> IsStep(cfg, states[k], events[k], states[k + 1]))
  }

  lemma {:induction false} RunKeepsInv(cfg: Config, states: seq<State>, events: seq<Event>, k: nat)
    requires cfg.Valid() && IsRun(cfg, states, events) && k < |states|
    ensures Inv(cfg, states[k])
  {
    hide Inv, Init, IsStep, Room;
    if k == 0 {
      InitInv(cfg);
    } else {
      RunKeepsInv(cfg, states, events, k - 1);
      NextKeepsInv(cfg, states[k - 1], events[k - 1], states[k]);
    }
  }

  lemma {:induction false} NextKeepsInv(cfg: Config, s: State, e: Event, s': State)
    requires cfg.Valid() && Inv(cfg, s) && Room(s) && IsStep(cfg, s, e, s')
    ensures Inv(cfg, s')
  {
    hide Inv, Apply, Enabled, WellFormed, Room;
    StepKeepsInv(cfg, s, e);
  }

  /** Every register anywhere in the system: at a server, in a buffer, in a cache, or on its way. */
  ghost predicate Present(s: State, r: Register) {
    || r in s.replicas
    || r in s.issued
    || exists c :: 0 <= c < |s.clients| && HeldBy(s.clients[c], r)
  }

  ghost predicate HeldBy(x: Client, r: Register) {
    || r in x.got || r in x.swaps || r == x.best || x.cache == Some(r)
    || ((x.phase.Optimism? || x.phase.Casing?) && (r == x.data.target || r in x.data.expected))
  }

  lemma {:induction false} PresentIsKnown(cfg: Config, s: State, r: Register)
    requires cfg.Valid() && Inv(cfg, s) && Present(s, r)
    ensures Known(s.issued, r)
  {
    hide OwnIssues, Reached, IssuedOk;
    if c :| 0 <= c < |s.clients| && HeldBy(s.clients[c], r) {
      assert ClientOk(cfg, s.replicas, s.issued, c, s.clients[c]);
    }
  }

  /** In every reachable state the tag determines the value. */
  lemma {:induction false} TagDeterminesValue(cfg: Config, states: seq<State>, events: seq<Event>, k: nat, r: Register, t: Register)
    requires cfg.Valid() && IsRun(cfg, states, events) && k < |states|
    requires Present(states[k], r) && Present(states[k], t) && r.SameTag(t)
    ensures r == t
  {
    RunKeepsInv(cfg, states, events, k);
    PresentIsKnown(cfg, states[k], r);
    PresentIsKnown(cfg, states[k], t);
    SameTagSameRegister(states[k].issued, r, t);
  }

  /** A client's later put never tries a sequence number at or below one its earlier put tried. */
  lemma {:induction false} PutsRise(cfg: Config, states: seq<State>, events: seq<Event>, k: nat, r: Register, t: Register)
    requires cfg.Valid() && IsRun(cfg, states, events) && k < |states|
    requires r in states[k].issued && t in states[k].issued && r.clientId == t.clientId
    requires states[k].issued[r] < states[k].issued[t]
    ensures r.num < t.num
  {
    RunKeepsInv(cfg, states, events, k);
  }

  /** Every compare-and-swap waiting to execute would raise the tag of the replica it succeeds at,
      and a put's would raise its sequence number. */
  lemma {:induction false} WaitingSwapsRise(cfg: Config, states: seq<State>, events: seq<Event>, k: nat, c: nat, i: nat)
    requires cfg.Valid() && IsRun(cfg, states, events) && k < |states| && c < cfg.clients && i < cfg.quorum
    requires WellFormed(cfg, states[k])
    requires var x := states[k].clients[c]; x.flight[i].Out? && !SendsReads(x)
    ensures var x := states[k].clients[c];
            && Expects(x, i).Less(Installs(x))
            && (!x.phase.WritingBack? ==> Expects(x, i).num < Installs(x).num)
  {
    RunKeepsInv(cfg, states, events, k);
    SwapRaises(cfg, states[k], c, i);
  }

  /** One step never lowers a replica's tag. */
  lemma {:induction false} StepRaises(cfg: Config, s: State, e: Event, r: nat)
    requires cfg.Valid() && Inv(cfg, s) && WellFormed(cfg, s) && Enabled(cfg, s, e) && r < cfg.servers
    ensures var s' := Apply(cfg, s, e);
            |s'.replicas| == cfg.servers && !s'.replicas[r].Less(s.replicas[r]) && s.replicas[r].num <= s'.replicas[r].num
  {
    if e.Execute? && !SendsReads(s.clients[e.c]) { SwapRaises(cfg, s, e.c, e.slot); }
  }

  /** Along a run every replica's tag, and with it its sequence number, only grows. */
  lemma {:induction false} ReplicasRise(cfg: Config, states: seq<State>, events: seq<Event>, j: nat, k: nat, r: nat)
    requires cfg.Valid() && IsRun(cfg, states, events) && j <= k < |states| && r < cfg.servers
    ensures |states[j].replicas| == |states[k].replicas| == cfg.servers
    ensures !states[k].replicas[r].Less(states[j].replicas[r])
    ensures states[j].replicas[r].num <= states[k].replicas[r].num
  {
    hide Apply, WellFormed, Enabled, Room, ClientOk, IssuedOk;
    RunKeepsInv(cfg, states, events, j);
    if j < k {
      ReplicasRise(cfg, states, events, j, k - 1, r);
      RunKeepsInv(cfg, states, events, k - 1);
      assert IsStep(cfg, states[k - 1], events[k - 1], states[k]);
      StepRaises(cfg, states[k - 1], events[k - 1], r);
    }
  }

  /** The step that finishes a put leaves its final target, or something newer, at a replica of the
      client's quorum, and that target is above everything the client's earlier puts tried. */
  lemma {:induction false} PutLands(cfg: Config, states: seq<State>, events: seq<Event>, k: nat, c: nat)
    requires cfg.Valid() && IsRun(cfg, states, events) && k < |events| && events[k] == Forward(c)
    requires WellFormed(cfg, states[k]) && WellFormed(cfg, states[k + 1])
    requires c < cfg.clients && states[k + 1].clients[c].puts > states[k].clients[c].puts
    ensures var before, y := states[k], states[k + 1].clients[c];
            && y.phase.Idle? && y.floor == y.data.target.num > before.clients[c].floor
            && y.data.target.clientId == c && y.data.target.value == y.data.value
            && Reached(cfg, before.replicas, c, y.data.target.num)
            && (cfg.cacheOn ==> y.cache == Some(y.data.target))
            && forall r :: r in before.issued && r.clientId == c ==> r.num <= y.data.target.num
  {
    RunKeepsInv(cfg, states, events, k);
    RunKeepsInv(cfg, states, events, k + 1);
    assert IsStep(cfg, states[k], events[k], states[k + 1]);
    Lands(cfg, states[k], c);
  }

  lemma {:induction false} Lands(cfg: Config, s: State, c: nat)
    requires cfg.Valid() && Inv(cfg, s) && Room(s) && WellFormed(cfg, s) && Enabled(cfg, s, Forward(c))
    requires Apply(cfg, s, Forward(c)).clients[c].puts > s.clients[c].puts
    ensures var x, y := s.clients[c], Apply(cfg, s, Forward(c)).clients[c];
            && y.phase.Idle? && y.floor == y.data.target.num > x.floor
            && y.data.target.clientId == c && y.data.target.value == y.data.value
            && Reached(cfg, s.replicas, c, y.data.target.num)
            && (cfg.cacheOn ==> y.cache == Some(y.data.target))
            && forall r :: r in s.issued && r.clientId == c ==> r.num <= y.data.target.num
  {
    var x := s.clients[c];
    assert ClientOk(cfg, s.replicas, s.issued, c, x);
    NothingToDo(cfg, s, c);
    hide Inv, ClientOk, AfterOptimistic, AfterCas, Reached, IssuedOk, PutOn;
    RoundEnds(cfg, s.replicas, s.issued, c, x,
              if x.phase.Optimism? then AfterOptimistic(c, x.data, x.swaps) else AfterCas(c, x.data, x.swaps));
  }

  lemma {:induction false} RoundEnds(cfg: Config, replicas: seq<Register>, issued: map<Register, nat>, c: nat, x: Client, r: PutData)
    requires cfg.Valid() && |replicas| == cfg.servers && ClientOk(cfg, replicas, issued, c, x) && x.AllQuiet()
    requires IssuedOk(issued) && forall k :: k in issued ==> k.num < SEQ_LIMIT - 1
    requires || (x.phase.Optimism? && r == AfterOptimistic(c, x.data, x.swaps))
             || (x.phase.Casing? && r == AfterCas(c, x.data, x.swaps))
    requires PutOn(cfg, x, r).puts > x.puts
    ensures var y := PutOn(cfg, x, r);
            && y.phase.Idle? && y.floor == y.data.target.num > x.floor
            && y.data.target.clientId == c && y.data.target.value == y.data.value
            && Reached(cfg, replicas, c, y.data.target.num)
            && (cfg.cacheOn ==> y.cache == Some(y.data.target))
            && forall k :: k in issued && k.clientId == c ==> k.num <= y.data.target.num
  {
    hide ClientOk, AfterOptimistic, AfterCas, RoundOk, Reached;
    RoundBack(cfg, replicas, issued, c, x, r);
    RoundLands(cfg, replicas, issued, c, x, r);
  }

  /** Only a round of compare-and-swaps finishes a put. */
  lemma {:induction false} NothingToDo(cfg: Config, s: State, c: nat)
    requires cfg.Valid() && Inv(cfg, s) && Room(s) && WellFormed(cfg, s) && Enabled(cfg, s, Forward(c))
    requires Apply(cfg, s, Forward(c)).clients[c].puts > s.clients[c].puts
    ensures s.clients[c].phase.Optimism? || s.clients[c].phase.Casing?
  {
    var x := s.clients[c];
    hide Inv, AfterOptimistic, AfterCas, MaxRegister, MaxSeq;
    if x.phase.PutReading? { ReadsGoOn(c, x.data.value, x.got); }
  }

  lemma {:induction false} ReadsGoOn(me: nat, value: nat, got: seq<Register>)
    requires |got| > 0
    ensures !AfterReads(me, value, got).Finished()
  {
    assert AfterReads(me, value, got).needs[0];
  }

  lemma {:induction false} RoundLands(cfg: Config, replicas: seq<Register>, issued: map<Register, nat>, c: nat, x: Client, r: PutData)
    requires cfg.Valid() && |replicas| == cfg.servers && ClientOk(cfg, replicas, issued, c, x)
    requires (x.phase.Optimism? || x.phase.Casing?) && RoundOk(c, x.data, x.swaps, r) && r.Finished()
    ensures var y := PutOn(cfg, x, r);
            && y.phase.Idle? && y.data == r && y.floor == r.target.num > x.floor
            && r.target.clientId == c && r.target.value == r.value && (cfg.cacheOn ==> y.cache == Some(r.target))
    ensures forall k :: k in issued && k.clientId == c ==> k.num <= r.target.num
  {
    assert PutIssued(issued, c, x) && OwnIssues(issued, c, x);
    hide AllKnown, PutOk, Landed;
  }

  /** What a client reads or takes from its cache is never older than its own last finished put. */
  lemma {:induction false} OwnReadsNotOld(cfg: Config, states: seq<State>, events: seq<Event>, k: nat, c: nat)
    requires cfg.Valid() && IsRun(cfg, states, events) && k < |events| && events[k] == Forward(c)
    requires WellFormed(cfg, states[k]) && WellFormed(cfg, states[k + 1]) && c < cfg.clients
    ensures var x, y := states[k].clients[c], states[k + 1].clients[c];
            && (x.phase.Reading? ==> y.best.num >= x.floor && IsMaximum(y.best, x.got))
            && (y.cache.Some? ==> y.cache.value.num >= y.floor)
  {
    RunKeepsInv(cfg, states, events, k);
    RunKeepsInv(cfg, states, events, k + 1);
    assert IsStep(cfg, states[k], events[k], states[k + 1]);
    if states[k].clients[c].phase.Reading? { ForwardReads(cfg, states[k], c); }
    hide PhaseOk, OwnIssues, Reached, AllKnown, IssuedOk, IsMaximum;
    assert ClientOk(cfg, states[k + 1].replicas, states[k + 1].issued, c, states[k + 1].clients[c]);
  }

  lemma {:induction false} ForwardReads(cfg: Config, s: State, c: nat)
    requires cfg.Valid() && Inv(cfg, s) && WellFormed(cfg, s) && Enabled(cfg, s, Forward(c))
    requires s.clients[c].phase.Reading?
    ensures var x, y := s.clients[c], Apply(cfg, s, Forward(c)).clients[c];
            y.best.num >= x.floor && IsMaximum(y.best, x.got)
  {
    hide MaxRegister, IsMaximum;
    var x := s.clients[c];
    assert ClientOk(cfg, s.replicas, s.issued, c, x);
    SawFloor(cfg, s.replicas, s.issued, c, x);
    BestIsMaximum(x.got, x.phase.range);
  }

  ghost predicate IsMaximum(best: Register, got: seq<Register>) {
    best in [ZERO] + got && forall i :: 0 <= i < |got| ==> !best.Less(got[i])
  }

  lemma {:induction false} BestIsMaximum(got: seq<Register>, range: bool)
    requires |got| > 0
    ensures var best := if range then MaxRegister(got[0], got[1..]) else MaxRegister(ZERO, got);
            IsMaximum(best, got)
  {
    if range {
      var best := MaxRegister(got[0], got[1..]);
      assert got == [got[0]] + got[1..];
      forall i | 0 <= i < |got| ensures !best.Less(got[i]) {
        if i > 0 { assert got[i] == got[1..][i - 1]; }
      }
    }
  }
}
