/** When exactly reusing the write entry makes a client report a write that no majority holds. */
module MaxRegExact {
  import opened Registers
  import opened Sets
  import opened MaxReg
  import opened MaxRegProtocol
  import opened MaxRegRising
  import opened MaxRegTruth
  import opened MaxRegSteps
  import opened MaxRegTheorems
  import opened MaxRegDrive

  /** Polling all but the skipped servers makes client c report its write of tsp, which no majority holds. */
  ghost predicate Misreports(cfg: Config, st: State, c: nat, skip: set<nat>, tsp: nat) {
    && WellFormed(cfg, st) && c < cfg.clients && st.clients[c].phase.Writing?
    && Idle(Apply(cfg, st, Forward(c, skip)).clients[c])
    && |Holding(st.slots, tsp)| < cfg.majority
  }

  /** After this start some continuation, in which others keep the rules, ends in a misreport. */
  ghost predicate CanMisreport(cfg: Config, st: State, c: nat, anew: bool, kind: Kind)
    requires WellFormed(cfg, st) && Possible(cfg, st, Start(c, anew, kind)) && kind.IsLocal()
  {
    exists events: seq<Event>, b: State, skip: set<nat> ::
      LeadsTo(cfg, c, Apply(cfg, st, Start(c, anew, kind)), events, b) && Misreports(cfg, b, c, skip, kind.tsp)
  }

  // ---------- by the rules there is no misreport ----------

  lemma {:induction false} LeadsKeeps(cfg: Config, c: nat, a: State, events: seq<Event>, b: State)
    requires Inv(cfg, a) && LeadsTo(cfg, c, a, events, b) && c < cfg.clients
    ensures Inv(cfg, b) && |a.goals| == |b.goals| == cfg.clients && b.goals[c] == a.goals[c]
    decreases |events|
  {
    if events != [] {
      var d := Apply(cfg, a, events[0]);
      assert d.goals[c] == a.goals[c];
      hide Possible, Allowed, Apply, SideTrue, LeadsTo;
      StepKeepsInv(cfg, a, events[0]);
      LeadsKeeps(cfg, c, d, events[1..], b);
    }
  }

  lemma {:induction false} LeadsRises(cfg: Config, c: nat, a: State, events: seq<Event>, b: State)
    requires LiteInv(cfg, a) && LeadsTo(cfg, c, a, events, b)
    ensures LiteInv(cfg, b) && NoneFalls(cfg, a, b)
    decreases |events|
  {
    StaysPut(cfg, a);
    if events != [] {
      var d := Apply(cfg, a, events[0]);
      hide LiteInv, Possible, Apply, NoneFalls, Lite;
      StepLiteInv(cfg, a, events[0]);
      LeadsRises(cfg, c, d, events[1..], b);
      RisesOn(cfg, a, d, b);
    }
  }

  lemma {:induction false} RuledNoMisreport(cfg: Config, st: State, c: nat, anew: bool, kind: Kind)
    requires Inv(cfg, st) && Possible(cfg, st, Start(c, anew, kind)) && kind.IsLocal()
    requires Allowed(cfg, st, Start(c, anew, kind))
    ensures !CanMisreport(cfg, st, c, anew, kind)
  {
    hide Possible, Allowed, SideTrue, LeadsTo, Holding, Forwarded, Started;
    var a := Apply(cfg, st, Start(c, anew, kind));
    StepKeepsInv(cfg, st, Start(c, anew, kind));
    assert a.goals[c] == kind.tsp by { assert c < cfg.clients by { StartsOwn(cfg, st, c, anew, kind); } }
    hide Apply;
    forall events: seq<Event>, b: State, skip: set<nat> | LeadsTo(cfg, c, a, events, b)
      ensures !Misreports(cfg, b, c, skip, kind.tsp)
    {
      StartsOwn(cfg, st, c, anew, kind);
      LeadsKeeps(cfg, c, a, events, b);
      if Misreports(cfg, b, c, skip, kind.tsp) { LinearizedMeansHeld(cfg, b, c, skip); }
    }
  }

  lemma {:induction false} StartsOwn(cfg: Config, st: State, c: nat, anew: bool, kind: Kind)
    requires WellFormed(cfg, st) && Possible(cfg, st, Start(c, anew, kind))
    ensures c < cfg.clients && Idle(st.clients[c])
    ensures anew ==> forall s :: 0 <= s < cfg.servers ==> st.clients[c].traffic[s].None?
  {}

  lemma {:induction false} HeldNoMisreport(cfg: Config, st: State, c: nat, anew: bool, kind: Kind)
    requires LiteInv(cfg, st) && Possible(cfg, st, Start(c, anew, kind)) && kind.IsLocal()
    requires NotBlindlyLower(Fresh(st.clients[c], anew), kind) && |Holding(st.slots, kind.tsp)| >= cfg.majority
    ensures !CanMisreport(cfg, st, c, anew, kind)
  {
    hide Possible, LeadsTo, Holding, Forwarded, Started, Lite, AtMost, LiteSide;
    var a := Apply(cfg, st, Start(c, anew, kind));
    StepLiteInv(cfg, st, Start(c, anew, kind));
    assert a.slots == st.slots;
    hide Apply;
    forall events: seq<Event>, b: State, skip: set<nat> | LeadsTo(cfg, c, a, events, b)
      ensures !Misreports(cfg, b, c, skip, kind.tsp)
    {
      LeadsRises(cfg, c, a, events, b);
      HoldingGrows(a.slots, b.slots, kind.tsp);
    }
  }

  // ---------- the misreport is driven ----------

  lemma {:induction false} Enlarge(a: set<nat>, all: set<nat>, n: nat) returns (r: set<nat>)
    requires a <= all && |a| <= n <= |all|
    ensures a <= r <= all && |r| == n
    decreases n - |a|
  {
    if |a| == n {
      r := a;
    } else {
      if all <= a { SubsetSize(all, a); }
      var x :| x in all && x !in a;
      r := Enlarge(a + {x}, all, n);
    }
  }

  lemma {:induction false} ElsewhereOn(cfg: Config, a: State, b: State, d: State, c: nat, s: nat)
    requires WellFormed(cfg, a) && WellFormed(cfg, b) && WellFormed(cfg, d) && c < cfg.clients
    requires Elsewhere(cfg, a, b, c, s) && Elsewhere(cfg, b, d, c, s)
    ensures Elsewhere(cfg, a, d, c, s)
  {}

  lemma {:induction false} DriveOne(cfg: Config, st: State, c: nat, tsp: nat, s: nat, k: nat) returns (events: seq<Event>, b: State)
    requires Driving(cfg, st, c, tsp) && s < cfg.servers && cfg.majority > 1
    requires Near(st.slots[s], c, st.clients[c].futures[s], st.clients[c].traffic[s], tsp, k)
    ensures LeadsTo(cfg, c, st, events, b) && Driving(cfg, b, c, tsp) && Elsewhere(cfg, st, b, c, s)
    ensures Verified(b.clients[c].futures[s].maxSeen) >= tsp
    decreases k
  {
    if k == 0 {
      events, b := [], st;
    } else {
      hide Near, LiteSide;
      var j, d, more;
      events, d, j := RoundAt(cfg, st, c, tsp, s, k);
      more, b := DriveOne(cfg, d, c, tsp, s, j);
      hide LeadsTo, Elsewhere;
      LeadsOn(cfg, c, st, events, d, more, b);
      ElsewhereOn(cfg, st, d, b, c, s);
      events := events + more;
    }
  }

  /** The client has seen tsp at server s or has its write still to post there. */
  ghost predicate Drivable(cfg: Config, st: State, c: nat, tsp: nat, s: nat)
    requires WellFormed(cfg, st) && c < cfg.clients && s < cfg.servers
  {
    var f, t := st.clients[c].futures[s], st.clients[c].traffic[s];
    Near(st.slots[s], c, f, t, tsp, 0) || Near(st.slots[s], c, f, t, tsp, 3)
  }

  ghost predicate SameAt(cfg: Config, a: State, b: State, c: nat, r: nat)
    requires WellFormed(cfg, a) && WellFormed(cfg, b) && c < cfg.clients && r < cfg.servers
  {
    b.slots[r] == a.slots[r] && b.clients[c].futures[r] == a.clients[c].futures[r] && b.clients[c].traffic[r] == a.clients[c].traffic[r]
  }

  lemma {:induction false} DriveAll(cfg: Config, st: State, c: nat, tsp: nat, todo: set<nat>) returns (events: seq<Event>, b: State)
    requires Driving(cfg, st, c, tsp) && (todo != {} ==> cfg.majority > 1)
    requires forall s :: s in todo ==> s < cfg.servers && Drivable(cfg, st, c, tsp, s)
    ensures LeadsTo(cfg, c, st, events, b) && Driving(cfg, b, c, tsp)
    ensures forall s :: s in todo ==> Verified(b.clients[c].futures[s].maxSeen) >= tsp
    ensures forall r :: 0 <= r < cfg.servers && r !in todo ==> SameAt(cfg, st, b, c, r)
    decreases todo
  {
    if todo == {} {
      events, b := [], st;
    } else {
      hide LiteSide, LeadsTo, Near;
      var s :| s in todo;
      var d, more;
      events, d := DriveOne(cfg, st, c, tsp, s, if Near(st.slots[s], c, st.clients[c].futures[s], st.clients[c].traffic[s], tsp, 0) then 0 else 3);
      forall r | r in todo - {s} ensures Drivable(cfg, d, c, tsp, r) { assert Drivable(cfg, st, c, tsp, r); }
      more, b := DriveAll(cfg, d, c, tsp, todo - {s});
      assert SameAt(cfg, d, b, c, s);
      LeadsOn(cfg, c, st, events, d, more, b);
      events := events + more;
      forall r | 0 <= r < cfg.servers && r !in todo ensures SameAt(cfg, st, b, c, r) { assert SameAt(cfg, d, b, c, r); }
    }
  }

  // ---------- the last poll ----------

  /** Once this future has stepped the client takes its server to hold tsp. */
  ghost predicate Ripe(f: Future, t: Option<Message>, tsp: nat) {
    || Verified(f.maxSeen) >= tsp
    || (f.ongoing == 0 && t.Some? && t.value.Complete() && t.value.swaps && t.value.swapback == Some(f.Mine()))
  }

  lemma {:induction false} RipeSees(f: Future, t: Option<Message>, tsps: seq<nat>, tsp: nat, me: nat, clients: nat)
    requires me < clients && (t.Some? ==> |t.value.slots| == clients) && f.ongoing < |tsps| && 0 < |tsps| && tsps[0] == tsp
    requires Ripe(f, t, tsp)
    ensures Verified(StepOne(f, t, tsps, 0, me, clients).0.maxSeen) >= tsp
  {
    if Answered(t) {
      var a := Taken(f, t, tsps, me);
      assert a.maxSeen >= f.maxSeen;
      if Verified(f.maxSeen) < tsp { SureSwap(f, t.value, tsps, me); }
      hide Taken, Onward, Absorb;
      OnwardKeeps(a, tsp);
    }
  }

  lemma {:induction false} SweepReady(x: Client, skip: set<nat>, n: nat, tsp: nat, me: nat, clients: nat)
    requires Shaped(x, |x.futures|, clients) && n <= |x.futures| && me < clients && BuffersFree(x) && x.write == 0
    requires x.tsps[0] == tsp && x.phase.Writing?
    requires forall s :: 0 <= s < |x.futures| && s !in skip ==> Ripe(x.futures[s], x.traffic[s], tsp)
    ensures var y := Sweep(x, skip, n, me, clients).x;
            && |y.futures| == |x.futures| && BuffersFree(y) && y.tsps[0] == tsp
            && forall s :: n <= s < |x.futures| ==> y.futures[s] == x.futures[s] && y.traffic[s] == x.traffic[s]
    ensures forall s :: 0 <= s < n && s !in skip ==> s in Sweep(x, skip, n, me, clients).ready
  {
    hide Ripe, StepOne, Stepped;
    if n > 0 {
      SweepReady(x, skip, n - 1, tsp, me, clients);
      var w := Sweep(x, skip, n - 1, me, clients);
      if n - 1 !in skip {
        StepPlain(w.x, n - 1, me, clients);
        RipeSees(w.x.futures[n - 1], w.x.traffic[n - 1], w.x.tsps, tsp, me, clients);
        hide Verified, BuffersFree;
        NotedFree(Stepped(w.x, n - 1, me, clients), n - 1);
      }
    }
  }

  lemma {:induction false} NotedFree(x: Client, s: nat)
    requires s < |x.futures| == |x.inPlace| == |x.traffic| && s + 1 < |x.tsps| && BuffersFree(x)
    ensures BuffersFree(Noted(x, s))
  {}

  lemma {:induction false} AllRipeEnds(x: Client, picked: set<nat>, tsp: nat, majority: nat, me: nat, clients: nat)
    requires Shaped(x, |x.futures|, clients) && me < clients && BuffersFree(x) && x.write == 0
    requires x.tsps[0] == tsp && x.phase.Writing? && |picked| >= majority
    requires forall s :: s in picked ==> s < |x.futures| && Ripe(x.futures[s], x.traffic[s], tsp)
    ensures Idle(Forwarded(x, UpTo(|x.futures|) - picked, majority, me, clients))
  {
    var skip := UpTo(|x.futures|) - picked;
    hide Ripe, BuffersFree, Sweep;
    SweepReady(x, skip, |x.futures|, tsp, me, clients);
    var w := Sweep(x, skip, |x.futures|, me, clients);
    assert picked <= w.ready;
    SubsetSize(picked, w.ready);
  }

  // ---------- the theorem ----------

  predicate Writes(kind: Kind) {
    kind.KWrite? || kind.KWriteTsAndIn?
  }

  lemma {:induction false} StartDrives(cfg: Config, st: State, c: nat, kind: Kind)
    requires LiteInv(cfg, st) && Possible(cfg, st, Start(c, false, kind)) && Writes(kind) && OtherRules(st.clients[c], kind)
    ensures var a := Apply(cfg, st, Start(c, false, kind)); var x, y := st.clients[c], a.clients[c];
            && Driving(cfg, a, c, kind.tsp) && a.slots == st.slots && y.traffic == x.traffic
            && forall s :: 0 <= s < cfg.servers ==> Drivable(cfg, a, c, kind.tsp, s) && StillOut(x.futures[s], y.futures[s])
  {
    hide Lite;
    StepLiteInv(cfg, st, Start(c, false, kind));
    var a := Apply(cfg, st, Start(c, false, kind));
    var x, y := st.clients[c], a.clients[c];
    hide LiteInv;
    forall s | 0 <= s < cfg.servers ensures Drivable(cfg, a, c, kind.tsp, s) && StillOut(x.futures[s], y.futures[s]) {
      assert y.futures[s] == DoNext(x.futures[s], kind.tsp, kind.First());
    }
  }

  ghost predicate StillOut(f: Future, g: Future) {
    g.ongoing == f.ongoing && g.myLast == f.myLast
  }

  lemma {:induction false} StaysLow(slots: seq<nat>, c: nat, m: Message, tsp: nat)
    requires c < |slots| && Verified(m.value) < tsp && Verified(MaxOf(slots)) < tsp
    ensures Verified(MaxOf(Swapped(slots, c, m))) < tsp
  {
    var later := Swapped(slots, c, m);
    if MaxOf(later) > 0 {
      var j :| 0 <= j < |later| && later[j] == MaxOf(later);
      assert slots[j] <= MaxOf(slots);
      assert later[j] == slots[j] || later[j] == m.value;
      hide MaxOf;
    }
  }

  /** The swap that will mislead the client is answered: the client is about to take the server to hold tsp,
      which it does not. */
  lemma {:induction false} SwapMisleads(cfg: Config, st: State, c: nat, tsp: nat, s: nat, m: Message)
    returns (events: seq<Event>, b: State)
    requires Driving(cfg, st, c, tsp) && s < cfg.servers && st.clients[c].traffic[s] == Some(m)
    requires m.swaps && st.clients[c].futures[s].ongoing == 0 && !Harmless(st.slots[s], c, m, tsp)
    ensures LeadsTo(cfg, c, st, events, b) && Driving(cfg, b, c, tsp) && Elsewhere(cfg, st, b, c, s)
    ensures Ripe(b.clients[c].futures[s], b.clients[c].traffic[s], tsp) && Verified(MaxOf(b.slots[s])) < tsp
  {
    var n;
    assert Lite(st.slots[s], c, st.clients[c].futures[s], st.clients[c].traffic[s], st.clients[c]) by {
      assert LiteSide(cfg, st.slots, c, st.clients[c]);
    }
    events, b, n := FinishMessage(cfg, st, c, tsp, s, m);
    StaysLow(st.slots[s], c, m, tsp);
    hide MaxOf, LeadsTo, Swapped;
  }

  lemma {:induction false} NotHeldBeyond(cfg: Config, a: State, b: State, picked: set<nat>, s: nat, tsp: nat)
    requires |a.slots| == |b.slots| == cfg.servers && s in picked && s < cfg.servers && Verified(MaxOf(b.slots[s])) < tsp
    requires Holding(a.slots, tsp) <= picked
    requires forall r :: 0 <= r < cfg.servers && r !in picked ==> b.slots[r] == a.slots[r]
    ensures |Holding(b.slots, tsp)| < |picked|
  {
    hide MaxOf, Verified;
    assert Holding(b.slots, tsp) <= picked - {s};
    SubsetSize(Holding(b.slots, tsp), picked - {s});
  }

  lemma {:induction false} HoldsOrNot(slots: seq<seq<nat>>, tsp: nat, s: nat)
    requires s < |slots| && Verified(MaxOf(slots[s])) < tsp
    ensures s !in Holding(slots, tsp) && Holding(slots, tsp) <= UpTo(|slots|)
  {}

  lemma {:induction false} Pick(cfg: Config, slots: seq<seq<nat>>, tsp: nat, s: nat) returns (picked: set<nat>)
    requires |slots| == cfg.servers && s < cfg.servers && Verified(MaxOf(slots[s])) < tsp
    requires |Holding(slots, tsp)| < cfg.majority <= cfg.servers
    ensures Holding(slots, tsp) + {s} <= picked <= UpTo(cfg.servers) && |picked| == cfg.majority
  {
    HoldsOrNot(slots, tsp, s);
    hide Holding;
    picked := Enlarge(Holding(slots, tsp) + {s}, UpTo(cfg.servers), cfg.majority);
  }

  /** Started all the same, the client writes at as many servers as it still needs, lets the old swap complete,
      and reports. */
  lemma {:induction false} DrivenMisreport(cfg: Config, st: State, c: nat, tsp: nat, s: nat, m: Message)
    returns (events: seq<Event>, b: State, skip: set<nat>)
    requires Driving(cfg, st, c, tsp) && s < cfg.servers && st.clients[c].traffic[s] == Some(m)
    requires forall r :: 0 <= r < cfg.servers ==> Drivable(cfg, st, c, tsp, r)
    requires m.swaps && st.clients[c].futures[s].ongoing == 0 && !Harmless(st.slots[s], c, m, tsp)
    requires |Holding(st.slots, tsp)| < cfg.majority <= cfg.servers
    ensures LeadsTo(cfg, c, st, events, b) && Misreports(cfg, b, c, skip, tsp)
  {
    hide Near, LiteSide, Drivable, Holding, LeadsTo, Ripe, Finishes, MaxOf, Verified;
    var picked := Pick(cfg, st.slots, tsp, s);
    assert picked == (picked - {s}) + {s};
    var d, more;
    events, d := DriveAll(cfg, st, c, tsp, picked - {s});
    assert SameAt(cfg, st, d, c, s);
    more, b := SwapMisleads(cfg, d, c, tsp, s, m);
    LeadsOn(cfg, c, st, events, d, more, b);
    events := events + more;
    AllLow(cfg, st, d, b, c, picked, s, tsp);
    AllRipe(cfg, d, b, c, picked, s, tsp);
    skip := UpTo(cfg.servers) - picked;
    RipeMisreports(cfg, b, c, picked, tsp);
  }

  lemma {:induction false} RipeMisreports(cfg: Config, b: State, c: nat, picked: set<nat>, tsp: nat)
    requires Driving(cfg, b, c, tsp) && |Holding(b.slots, tsp)| < |picked| == cfg.majority
    requires forall r :: r in picked ==> r < cfg.servers && Ripe(b.clients[c].futures[r], b.clients[c].traffic[r], tsp)
    ensures Misreports(cfg, b, c, UpTo(cfg.servers) - picked, tsp)
  {
    hide Holding, Ripe, LiteSide, Forwarded;
    AllRipeEnds(b.clients[c], picked, tsp, cfg.majority, c, cfg.clients);
  }

  lemma {:induction false} AllLow(cfg: Config, st: State, d: State, b: State, c: nat, picked: set<nat>, s: nat, tsp: nat)
    requires WellFormed(cfg, st) && WellFormed(cfg, d) && WellFormed(cfg, b) && c < cfg.clients
    requires s in picked && s < cfg.servers && Elsewhere(cfg, d, b, c, s) && Verified(MaxOf(b.slots[s])) < tsp
    requires forall r :: 0 <= r < cfg.servers && r !in picked - {s} ==> SameAt(cfg, st, d, c, r)
    requires Holding(st.slots, tsp) <= picked
    ensures |Holding(b.slots, tsp)| < |picked|
  {
    forall r | 0 <= r < cfg.servers && r !in picked ensures b.slots[r] == st.slots[r] { assert SameAt(cfg, st, d, c, r); }
    hide Holding;
    NotHeldBeyond(cfg, st, b, picked, s, tsp);
  }

  lemma {:induction false} AllRipe(cfg: Config, d: State, b: State, c: nat, picked: set<nat>, s: nat, tsp: nat)
    requires WellFormed(cfg, d) && WellFormed(cfg, b) && c < cfg.clients && Elsewhere(cfg, d, b, c, s)
    requires forall r :: r in picked ==> r < cfg.servers
    requires s in picked && Ripe(b.clients[c].futures[s], b.clients[c].traffic[s], tsp)
    requires forall r :: r in picked - {s} ==> Verified(d.clients[c].futures[r].maxSeen) >= tsp
    ensures forall r :: r in picked ==> r < cfg.servers && Ripe(b.clients[c].futures[r], b.clients[c].traffic[r], tsp)
  {}

  /** A write that keeps the other rules can be misreported exactly if it is not at a majority yet and some
      swap still out was made from the write entry it reuses, carries less, and will succeed where less is held. */
  lemma {:induction false} MisreportExactly(cfg: Config, st: State, c: nat, anew: bool, kind: Kind)
    requires Inv(cfg, st) && Possible(cfg, st, Start(c, anew, kind)) && Writes(kind) && 1 <= cfg.majority <= cfg.servers
    requires OtherRules(Fresh(st.clients[c], anew), kind)
    ensures CanMisreport(cfg, st, c, anew, kind)
            <==> |Holding(st.slots, kind.tsp)| < cfg.majority
                 && exists s :: 0 <= s < cfg.servers && OutFrom(st.clients[c], s, 0)
                                && !Harmless(st.slots[s], c, st.clients[c].traffic[s].value, kind.tsp)
  {
    var x := st.clients[c];
    TruthIsLite(cfg, st);
    StartsOwn(cfg, st, c, anew, kind);
    hide CanMisreport, Holding, SideTrue, LiteSide, Harmless;
    if |Holding(st.slots, kind.tsp)| >= cfg.majority {
      HeldNoMisreport(cfg, st, c, anew, kind);
    } else if s :| 0 <= s < cfg.servers && OutFrom(x, s, 0) && !Harmless(st.slots[s], c, x.traffic[s].value, kind.tsp) {
      RiskyMisreports(cfg, st, c, kind, s);
    } else {
      RuledNoMisreport(cfg, st, c, anew, kind);
    }
  }

  lemma {:induction false} RiskyMisreports(cfg: Config, st: State, c: nat, kind: Kind, s: nat)
    requires LiteInv(cfg, st) && Possible(cfg, st, Start(c, false, kind)) && Writes(kind)
    requires OtherRules(st.clients[c], kind) && s < cfg.servers && OutFrom(st.clients[c], s, 0)
    requires !Harmless(st.slots[s], c, st.clients[c].traffic[s].value, kind.tsp)
    requires |Holding(st.slots, kind.tsp)| < cfg.majority <= cfg.servers
    ensures CanMisreport(cfg, st, c, false, kind)
  {
    hide Holding, Harmless, Lite, Misreports, LeadsTo;
    StartDrives(cfg, st, c, kind);
    var a := Apply(cfg, st, Start(c, false, kind));
    hide Apply, Possible, LiteSide, OtherRules;
    assert StillOut(st.clients[c].futures[s], a.clients[c].futures[s]);
    var events, b, skip := DrivenMisreport(cfg, a, c, kind.tsp, s, st.clients[c].traffic[s].value);
  }
}
