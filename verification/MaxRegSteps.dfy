/** Every step keeps what clients believe true, as long as operations are started by the rules. */
module MaxRegSteps {
  import opened Registers
  import opened MaxReg
  import opened MaxRegProtocol
  import opened MaxRegRising
  import opened MaxRegTruth

  // ---------- one server's future steps ----------

  lemma {:induction false} TakenBuffer(slots: seq<nat>, c: nat, f: Future, t: Option<Message>, x: Client, goal: nat)
    requires c < |slots| && x.write < |x.tsps| && f.ongoing < |x.tsps| && Lite(slots, c, f, t, x) && Answered(t)
    requires Believes(slots, c, f, t, x, goal) && BufferOk(slots, c, f, t, x, goal) && Verified(x.Entry()) == Verified(goal)
    ensures Taken(f, t, x.tsps, c).maxSeen <= Verified(goal)
  {
    hide MaxOf;
  }

  lemma {:induction false} OnwardBuffer(slots: seq<nat>, c: nat, f: Future, x: Client, goal: nat)
    requires c < |slots| && x.write < |x.tsps| && !(f.step.Done? && f.next.None?)
    requires f.maxSeen <= Verified(goal) && slots[c] <= Verified(goal)
    requires !f.step.Reads() && (f.next.Some? ==> !f.next.value.Reads())
    ensures var g := Onward(f, x.Entry(), x.write); BufferOk(slots, c, g, Request(g, x.Entry(), |slots|), x, goal)
  {}

  lemma {:induction false} StepOneBuffer(slots: seq<nat>, c: nat, f: Future, t: Option<Message>, x: Client, goal: nat)
    requires c < |slots| && x.write < |x.tsps| && f.ongoing < |x.tsps| && Lite(slots, c, f, t, x)
    requires Believes(slots, c, f, t, x, goal) && BufferOk(slots, c, f, t, x, goal) && Verified(x.Entry()) == Verified(goal)
    ensures var r := StepOne(f, t, x.tsps, x.write, c, |slots|); BufferOk(slots, c, r.0, r.1, x, goal)
  {
    if Answered(t) {
      TakenBuffer(slots, c, f, t, x, goal);
      var a := Taken(f, t, x.tsps, c);
      if !(a.step.Done? && a.next.None?) {
        hide Taken, Onward, Believes, Lite, Request, MaxOf;
        OnwardBuffer(slots, c, a, x, goal);
      }
    }
  }

  lemma {:induction false} BufferAfter(cfg: Config, slots: seq<seq<nat>>, c: nat, x: Client, goal: nat, bases: seq<seq<nat>>, s: nat)
    requires Sized(cfg, slots) && c < cfg.clients && s < cfg.servers && SideTrue(cfg, slots, c, x, goal, bases) && x.write > 0
    ensures var (g, u) := StepOne(x.futures[s], x.traffic[s], x.tsps, x.write, c, cfg.clients); var k := x.write - 1;
            && BufferOk(slots[k], c, x.futures[s := g][k], x.traffic[s := u][k], x, goal)
            && (x.traffic[s := u][k].Some? ==> !x.traffic[s := u][k].value.wantsArray)
  {
    var f, t, k := x.futures[s], x.traffic[s], x.write - 1;
    assert Lite(slots[s], c, f, t, x) && FutureTrue(slots[s], c, x, s, goal, bases[s]);
    assert Lite(slots[k], c, x.futures[k], x.traffic[k], x);
    var (g, u) := StepOne(f, t, x.tsps, x.write, c, cfg.clients);
    hide MaxOf, Harmless, AtMost, WriteOk, ReadOk, StepOne;
    if k == s {
      StepOneLite(slots[s], c, f, t, x);
      StepOneBuffer(slots[s], c, f, t, x, goal);
      NothingWanted(slots[k], c, g, u, x, goal);
    } else {
      NothingWanted(slots[k], c, x.futures[k], x.traffic[k], x, goal);
    }
  }

  lemma {:induction false} Unsmudged(x: Client, s: nat, me: nat, clients: nat, g: Future, u: Option<Message>)
    requires Shaped(x, |x.futures|, clients) && s < |x.futures| && me < clients
    requires (g, u) == StepOne(x.futures[s], x.traffic[s], x.tsps, x.write, me, clients)
    requires SwapTaken(x.traffic[s]) && x.futures[s].ongoing > 0 ==>
      x.futures[s].ongoing == x.write && (x.traffic[s := u][x.write - 1].Some? ==> !x.traffic[s := u][x.write - 1].value.wantsArray)
    ensures Stepped(x, s, me, clients) == x.(futures := x.futures[s := g], traffic := x.traffic[s := u])
  {
    hide StepOne, AbsorbSwap;
  }

  /** By the rules no answer smudges an array that is being read. */
  lemma {:induction false} NoSmudge(cfg: Config, slots: seq<seq<nat>>, c: nat, x: Client, goal: nat, bases: seq<seq<nat>>, s: nat)
    requires Sized(cfg, slots) && c < cfg.clients && s < cfg.servers && SideTrue(cfg, slots, c, x, goal, bases)
    ensures var (g, u) := StepOne(x.futures[s], x.traffic[s], x.tsps, x.write, c, cfg.clients);
            && Stepped(x, s, c, cfg.clients) == x.(futures := x.futures[s := g], traffic := x.traffic[s := u])
            && (x.write > 0 ==> BufferOk(slots[x.write - 1], c, x.futures[s := g][x.write - 1], x.traffic[s := u][x.write - 1], x, goal))
  {
    var f, t := x.futures[s], x.traffic[s];
    assert FutureTrue(slots[s], c, x, s, goal, bases[s]);
    assert SwapTaken(t) && f.ongoing > 0 ==> f.ongoing == x.write;
    if x.write > 0 { BufferAfter(cfg, slots, c, x, goal, bases, s); }
    SideShape(cfg, slots, c, x, goal, bases);
    hide *;
    var (g, u) := StepOne(f, t, x.tsps, x.write, c, cfg.clients);
    Unsmudged(x, s, c, cfg.clients, g, u);
  }

  lemma {:induction false} NothingWanted(slots: seq<nat>, c: nat, f: Future, t: Option<Message>, x: Client, goal: nat)
    requires c < |slots| && x.write < |x.tsps| && Lite(slots, c, f, t, x) && BufferOk(slots, c, f, t, x, goal)
    ensures t.Some? ==> !t.value.wantsArray
  {}

  lemma {:induction false} SameFuture(slots: seq<nat>, c: nat, x: Client, y: Client, s: nat, goal: nat, base: seq<nat>)
    requires c < |slots| && s < |x.futures| == |x.traffic| && y == x.(futures := y.futures, traffic := y.traffic)
    requires |y.futures| == |y.traffic| == |x.futures| && y.futures[s] == x.futures[s] && y.traffic[s] == x.traffic[s]
    requires x.futures[s].ongoing < |x.tsps| && (x.traffic[s].Some? ==> |x.traffic[s].value.slots| == |slots|)
    requires FutureTrue(slots, c, x, s, goal, base)
    ensures FutureTrue(slots, c, y, s, goal, base)
  {
    hide MaxOf, Harmless;
  }

  lemma {:induction false} StepFutures(cfg: Config, slots: seq<seq<nat>>, c: nat, x: Client, goal: nat, bases: seq<seq<nat>>, s: nat, r: nat)
    requires Sized(cfg, slots) && c < cfg.clients && s < cfg.servers && r < cfg.servers && SideTrue(cfg, slots, c, x, goal, bases)
    ensures FutureTrue(slots[r], c, Stepped(x, s, c, cfg.clients), r, goal, bases[r])
    ensures Stepped(x, s, c, cfg.clients).futures[s].maxSeen >= x.futures[s].maxSeen
  {
    var f, t := x.futures[s], x.traffic[s];
    var y := Stepped(x, s, c, cfg.clients);
    assert Lite(slots[s], c, f, t, x) && FutureTrue(slots[s], c, x, s, goal, bases[s]) && AtMost(bases[s], slots[s]);
    assert FutureTrue(slots[r], c, x, r, goal, bases[r]);
    NoSmudge(cfg, slots, c, x, goal, bases, s);
    StepOneTrue(slots[s], c, f, t, x, goal, bases[s]);
    hide StepOne, Stepped, Lite, MaxOf, Believes, WriteOk, ReadOk;
    if r == s { OwnFuture(slots[s], c, x, y, s, goal, bases[s]); } else { SameFuture(slots[r], c, x, y, r, goal, bases[r]); }
  }

  lemma {:induction false} StepBooks(x: Client, y: Client, s: nat, goal: nat, servers: nat, clients: nat)
    requires Shaped(x, servers, clients) && Books(x, goal) && NotedBut(x, servers) && s < servers
    requires y == x.(futures := y.futures, traffic := y.traffic) && |y.futures| == servers
    requires (forall r :: 0 <= r < servers && r != s ==> y.futures[r] == x.futures[r]) && y.futures[s].maxSeen >= x.futures[s].maxSeen
    ensures Books(y, goal) && NotedBut(y, s)
  {}

  lemma {:induction false} StepSide(cfg: Config, slots: seq<seq<nat>>, c: nat, x: Client, goal: nat, bases: seq<seq<nat>>, s: nat)
    requires Sized(cfg, slots) && c < cfg.clients && s < cfg.servers && SideTrue(cfg, slots, c, x, goal, bases)
    ensures SideBut(cfg, slots, c, Stepped(x, s, c, cfg.clients), goal, bases, s)
    ensures Stepped(x, s, c, cfg.clients).futures[s].maxSeen >= x.futures[s].maxSeen
  {
    hide StepOne, Stepped, Lite, FutureTrue, AtMost, BufferOk;
    var y := Stepped(x, s, c, cfg.clients);
    StepLite(cfg, slots, c, x, s);
    NoSmudge(cfg, slots, c, x, goal, bases, s);
    forall r | 0 <= r < cfg.servers ensures FutureTrue(slots[r], c, y, r, goal, bases[r]) {
      StepFutures(cfg, slots, c, x, goal, bases, s, r);
    }
    StepFutures(cfg, slots, c, x, goal, bases, s, s);
    StepBooks(x, y, s, goal, cfg.servers, cfg.clients);
    if x.write > 0 { SameBuffer(slots[x.write - 1], c, y.futures[x.write - 1], y.traffic[x.write - 1], x, y, goal); }
  }

  lemma {:induction false} SameBuffer(slots: seq<nat>, c: nat, f: Future, t: Option<Message>, x: Client, y: Client, goal: nat)
    requires c < |slots| && BufferOk(slots, c, f, t, x, goal) && y.write == x.write
    ensures BufferOk(slots, c, f, t, y, goal)
  {}

  lemma {:induction false} OwnFuture(slots: seq<nat>, c: nat, x: Client, y: Client, s: nat, goal: nat, base: seq<nat>)
    requires c < |slots| && s < |x.futures| == |x.traffic| == |y.futures| == |y.traffic|
    requires y == x.(futures := y.futures, traffic := y.traffic)
    requires y.futures[s].ongoing < |x.tsps| && (y.traffic[s].Some? ==> |y.traffic[s].value.slots| == |slots|)
    requires Believes(slots, c, y.futures[s], y.traffic[s], x, goal)
    requires (x.phase.Writing? ==> WriteOk(y.futures[s], goal)) && (x.phase.Reading? ==> ReadOk(y.futures[s], y.traffic[s], base))
    ensures FutureTrue(slots, c, y, s, goal, base)
  {
    hide MaxOf, Harmless;
  }

  // ---------- the majority layer takes note ----------

  lemma {:induction false} NotedFuture(slots: seq<nat>, c: nat, x: Client, s: nat, r: nat, goal: nat, base: seq<nat>)
    requires c < |slots| && s < |x.futures| == |x.traffic| == |x.inPlace| == |x.tsps| - 1 && r < |x.futures|
    requires x.write < |x.tsps| && x.readEntry < |x.futures| && Books(x, goal)
    requires x.futures[r].ongoing < |x.tsps| && (x.traffic[r].Some? ==> |x.traffic[r].value.slots| == |slots|)
    requires FutureTrue(slots, c, x, r, goal, base)
    requires x.write == 1 + s ==> x.futures[s].maxSeen <= Verified(goal)
    ensures FutureTrue(slots, c, Noted(x, s), r, goal, base)
  {
    hide MaxOf;
  }

  lemma {:induction false} NotedBooks(x: Client, s: nat, goal: nat, servers: nat, clients: nat)
    requires Shaped(x, servers, clients) && s < servers && Books(x, goal) && NotedBut(x, s)
    requires x.write == 1 + s ==> x.futures[s].maxSeen <= Verified(goal)
    ensures var y := Noted(x, s);
            Books(y, goal) && NotedBut(y, servers) && y.maxTsp >= x.maxTsp && y.maxTsp >= x.futures[s].maxSeen
  {}

  lemma {:induction false} NotedAt(cfg: Config, slots: seq<seq<nat>>, c: nat, x: Client, goal: nat, bases: seq<seq<nat>>, s: nat, r: nat)
    requires Sized(cfg, slots) && c < cfg.clients && s < cfg.servers && r < cfg.servers && SideBut(cfg, slots, c, x, goal, bases, s)
    ensures FutureTrue(slots[r], c, Noted(x, s), r, goal, bases[r])
  {
    hide Lite, AtMost;
    NotedFuture(slots[r], c, x, s, r, goal, bases[r]);
  }

  lemma {:induction false} BufferBound(cfg: Config, slots: seq<seq<nat>>, c: nat, x: Client, goal: nat, bases: seq<seq<nat>>, s: nat)
    requires Sized(cfg, slots) && c < cfg.clients && s < cfg.servers && SideBut(cfg, slots, c, x, goal, bases, s)
    ensures x.write == 1 + s ==> x.futures[s].maxSeen <= Verified(goal)
    ensures LiteSide(cfg, slots, c, x) && Books(x, goal) && NotedBut(x, s) && |bases| == cfg.servers
    ensures forall r :: 0 <= r < cfg.servers ==> AtMost(bases[r], slots[r])
    ensures x.write > 0 ==> BufferOk(slots[x.write - 1], c, x.futures[x.write - 1], x.traffic[x.write - 1], x, goal)
  {
    hide Lite, AtMost, FutureTrue;
  }

  lemma {:induction false} NotedFutures(cfg: Config, slots: seq<seq<nat>>, c: nat, x: Client, goal: nat, bases: seq<seq<nat>>, s: nat)
    requires Sized(cfg, slots) && c < cfg.clients && s < cfg.servers && SideBut(cfg, slots, c, x, goal, bases, s)
    requires Shaped(x, cfg.servers, cfg.clients) && Shaped(Noted(x, s), cfg.servers, cfg.clients) && |bases| == cfg.servers
    ensures forall r :: 0 <= r < cfg.servers ==> FutureTrue(slots[r], c, Noted(x, s), r, goal, bases[r])
  {
    hide SideBut, FutureTrue, Noted;
    forall r | 0 <= r < cfg.servers ensures FutureTrue(slots[r], c, Noted(x, s), r, goal, bases[r]) {
      NotedAt(cfg, slots, c, x, goal, bases, s, r);
    }
  }

  lemma {:induction false} NotedBuffer(slots: seq<nat>, c: nat, x: Client, s: nat, goal: nat)
    requires c < |slots| && 0 < x.write <= |x.futures| == |x.traffic| == |x.inPlace| && s < |x.futures| && s + 1 < |x.tsps|
    requires BufferOk(slots, c, x.futures[x.write - 1], x.traffic[x.write - 1], x, goal)
    ensures var y := Noted(x, s);
            y.write == x.write && BufferOk(slots, c, y.futures[x.write - 1], y.traffic[x.write - 1], y, goal)
  {}

  lemma {:induction false} NoteSide(cfg: Config, slots: seq<seq<nat>>, c: nat, x: Client, goal: nat, bases: seq<seq<nat>>, s: nat)
    requires Sized(cfg, slots) && c < cfg.clients && s < cfg.servers && SideBut(cfg, slots, c, x, goal, bases, s)
    ensures var y := Noted(x, s);
            SideTrue(cfg, slots, c, y, goal, bases) && y.maxTsp >= x.maxTsp && y.maxTsp >= x.futures[s].maxSeen
  {
    hide SideBut, SideTrue, FutureTrue, AtMost, Books, NotedBut, BufferOk, Lite;
    BufferBound(cfg, slots, c, x, goal, bases, s);
    NoteLite(cfg, slots, c, x, s);
    NotedBooks(x, s, goal, cfg.servers, cfg.clients);
    NotedFutures(cfg, slots, c, x, goal, bases, s);
    if x.write > 0 { NotedBuffer(slots[x.write - 1], c, x, s, goal); }
    SideOf(cfg, slots, c, Noted(x, s), goal, bases);
  }

  lemma {:induction false} SideOf(cfg: Config, slots: seq<seq<nat>>, c: nat, x: Client, goal: nat, bases: seq<seq<nat>>)
    requires Sized(cfg, slots) && c < cfg.clients && LiteSide(cfg, slots, c, x)
    requires Books(x, goal) && NotedBut(x, cfg.servers) && |bases| == cfg.servers
    requires forall s :: 0 <= s < cfg.servers ==> AtMost(bases[s], slots[s]) && FutureTrue(slots[s], c, x, s, goal, bases[s])
    requires x.write > 0 ==> BufferOk(slots[x.write - 1], c, x.futures[x.write - 1], x.traffic[x.write - 1], x, goal)
    ensures SideTrue(cfg, slots, c, x, goal, bases)
  {
    hide Lite, FutureTrue, AtMost, Books, NotedBut, BufferOk;
  }

  /** What a server counted as ready has shown its client. */
  ghost predicate Shown(x: Client, s: nat, goal: nat, base: seq<nat>)
    requires s < |x.futures|
  {
    && (x.phase.Writing? ==> Verified(x.futures[s].maxSeen) >= goal)
    && (x.phase.Reading? ==> MaxOf(base) <= x.futures[s].maxSeen <= x.maxTsp)
  }

  lemma {:induction false} ReadyShows(slots: seq<nat>, c: nat, x: Client, s: nat, goal: nat, base: seq<nat>)
    requires c < |slots| && s < |x.futures| == |x.traffic| && x.write < |x.tsps| && x.readEntry < |x.futures| < |x.tsps|
    requires x.futures[s].ongoing < |x.tsps| && (x.traffic[s].Some? ==> |x.traffic[s].value.slots| == |slots|)
    requires FutureTrue(slots, c, x, s, goal, base) && Books(x, goal) && Ready(x, s)
    ensures x.phase.Writing? ==> Verified(x.futures[s].maxSeen) >= goal
    ensures x.phase.Reading? ==> MaxOf(base) <= x.futures[s].maxSeen
  {
    hide MaxOf;
  }

  /** The loop so far: what the client believes is true, and the servers counted have shown it enough. */
  ghost predicate SweptTrue(cfg: Config, slots: seq<seq<nat>>, c: nat, w: Swept, goal: nat, bases: seq<seq<nat>>, n: nat)
    requires Sized(cfg, slots) && c < cfg.clients && n <= cfg.servers
  {
    && SideTrue(cfg, slots, c, w.x, goal, bases)
    && forall r :: r in w.ready ==> r < n && Shown(w.x, r, goal, bases[r])
  }

  lemma {:induction false} SweepStep(cfg: Config, slots: seq<seq<nat>>, c: nat, w: Swept, goal: nat, bases: seq<seq<nat>>, s: nat)
    requires Sized(cfg, slots) && c < cfg.clients && s < cfg.servers && SweptTrue(cfg, slots, c, w, goal, bases, s)
    requires Shaped(w.x, |w.x.futures|, cfg.clients) && |w.x.futures| == cfg.servers
    ensures var v := SweptOne(w, s, c, cfg.clients);
            SweptTrue(cfg, slots, c, v, goal, bases, s + 1) && v.x.maxTsp >= w.x.maxTsp
  {
    SideShape(cfg, slots, c, w.x, goal, bases);
    hide MaxOf, Verified, SideTrue, SideBut;
    var y := Stepped(w.x, s, c, cfg.clients);
    StepSide(cfg, slots, c, w.x, goal, bases, s);
    NoteSide(cfg, slots, c, y, goal, bases, s);
    if Ready(y, s) { ReadyOne(cfg, slots, c, y, goal, bases, s); }
    var z := Noted(y, s);
    hide Stepped, Noted, Ready;
    forall r | r in w.ready ensures Shown(z, r, goal, bases[r]) { ShownStays(w.x, z, r, goal, bases[r]); }
  }

  lemma {:induction false} ShownStays(x: Client, y: Client, r: nat, goal: nat, base: seq<nat>)
    requires r < |x.futures| == |y.futures| && y.futures[r] == x.futures[r] && y.phase == x.phase && y.maxTsp >= x.maxTsp
    requires Shown(x, r, goal, base)
    ensures Shown(y, r, goal, base)
  {}

  lemma {:induction false} SweepStarts(cfg: Config, slots: seq<seq<nat>>, c: nat, x: Client, goal: nat, bases: seq<seq<nat>>)
    requires Sized(cfg, slots) && c < cfg.clients && SideTrue(cfg, slots, c, x, goal, bases)
    ensures SweptTrue(cfg, slots, c, Swept(x, {}, {}), goal, bases, 0)
  {}

  lemma {:induction false} SweepSkips(cfg: Config, slots: seq<seq<nat>>, c: nat, w: Swept, goal: nat, bases: seq<seq<nat>>, n: nat)
    requires Sized(cfg, slots) && c < cfg.clients && n < cfg.servers && SweptTrue(cfg, slots, c, w, goal, bases, n)
    ensures SweptTrue(cfg, slots, c, w, goal, bases, n + 1)
  {
    hide SideTrue, Shown;
  }

  lemma {:induction false} ReadyOne(cfg: Config, slots: seq<seq<nat>>, c: nat, x: Client, goal: nat, bases: seq<seq<nat>>, s: nat)
    requires Sized(cfg, slots) && c < cfg.clients && s < cfg.servers && SideBut(cfg, slots, c, x, goal, bases, s)
    requires x.write < |x.tsps| && Ready(x, s)
    ensures x.phase.Writing? ==> Verified(x.futures[s].maxSeen) >= goal
    ensures x.phase.Reading? ==> MaxOf(bases[s]) <= x.futures[s].maxSeen
  {
    hide Lite, BufferOk;
    ReadyShows(slots[s], c, x, s, goal, bases[s]);
  }

  lemma {:induction false} SweepKeeps(cfg: Config, slots: seq<seq<nat>>, c: nat, x: Client, goal: nat, bases: seq<seq<nat>>,
                                      skip: set<nat>, n: nat)
    requires Sized(cfg, slots) && c < cfg.clients && n <= cfg.servers && SideTrue(cfg, slots, c, x, goal, bases)
    requires Shaped(x, |x.futures|, cfg.clients) && |x.futures| == cfg.servers
    ensures var w := Sweep(x, skip, n, c, cfg.clients);
            SweptTrue(cfg, slots, c, w, goal, bases, n) && w.x.maxTsp >= x.maxTsp
  {
    hide SideTrue, SweptTrue, SweptOne;
    if n == 0 {
      SweepStarts(cfg, slots, c, x, goal, bases);
    } else {
      var w := Sweep(x, skip, n - 1, c, cfg.clients);
      SweepKeeps(cfg, slots, c, x, goal, bases, skip, n - 1);
      if n - 1 in skip {
        SweepSkips(cfg, slots, c, w, goal, bases, n - 1);
      } else {
        SweepStep(cfg, slots, c, w, goal, bases, n - 1);
      }
    }
  }

  lemma {:induction false} SideShape(cfg: Config, slots: seq<seq<nat>>, c: nat, x: Client, goal: nat, bases: seq<seq<nat>>)
    requires Sized(cfg, slots) && c < cfg.clients && SideTrue(cfg, slots, c, x, goal, bases)
    ensures Shaped(x, cfg.servers, cfg.clients) && |bases| == cfg.servers
  {}

  // ---------- concluding ----------

  /** Neither an idle phase nor a step still to be taken that is done asks anything more of a future. */
  lemma {:induction false} IdleFuture(slots: seq<nat>, c: nat, x: Client, y: Client, s: nat, goal: nat, base: seq<nat>)
    requires c < |slots| && s < |x.futures| == |x.traffic| && y == x.(phase := y.phase, futures := y.futures) && Idle(y)
    requires x.write < |x.tsps| && |y.futures| == |x.futures|
    requires y.futures[s] == x.futures[s] || y.futures[s] == x.futures[s].(next := Some(Done))
    requires x.futures[s].ongoing < |x.tsps| && (x.traffic[s].Some? ==> |x.traffic[s].value.slots| == |slots|)
    requires FutureTrue(slots, c, x, s, goal, base) && Lite(slots, c, x.futures[s], x.traffic[s], x)
    ensures FutureTrue(slots, c, y, s, goal, base) && Lite(slots, c, y.futures[s], y.traffic[s], y)
  {
    hide WriteOk, ReadOk, MaxOf, Verified, Harmless;
  }

  lemma {:induction false} IdleSide(cfg: Config, slots: seq<seq<nat>>, c: nat, x: Client, y: Client, goal: nat, bases: seq<seq<nat>>)
    requires Sized(cfg, slots) && c < cfg.clients && SideTrue(cfg, slots, c, x, goal, bases) && Idle(y)
    requires y == x.(phase := y.phase, futures := y.futures) && |y.futures| == |x.futures|
    requires forall s :: 0 <= s < |x.futures| ==> y.futures[s] == x.futures[s] || y.futures[s] == x.futures[s].(next := Some(Done))
    ensures SideTrue(cfg, slots, c, y, goal, bases)
  {
    hide FutureTrue, Lite, AtMost, Verified;
    forall s | 0 <= s < cfg.servers
      ensures FutureTrue(slots[s], c, y, s, goal, bases[s]) && Lite(slots[s], c, y.futures[s], y.traffic[s], y)
    {
      IdleFuture(slots[s], c, x, y, s, goal, bases[s]);
    }
  }

  lemma {:induction false} ConcludedSide(cfg: Config, slots: seq<seq<nat>>, c: nat, w: Swept, goal: nat, bases: seq<seq<nat>>)
    requires Sized(cfg, slots) && c < cfg.clients && SideTrue(cfg, slots, c, w.x, goal, bases) && w.x.write < |w.x.tsps|
    ensures SideTrue(cfg, slots, c, Concluded(w, cfg.majority), goal, bases)
  {
    hide SideTrue;
    IdleSide(cfg, slots, c, w.x, w.x.(phase := Linearized), goal, bases);
    IdleSide(cfg, slots, c, w.x, MarkedDone(w.x.(phase := Finished)), goal, bases);
  }

  lemma {:induction false} ForwardKeeps(cfg: Config, slots: seq<seq<nat>>, c: nat, x: Client, goal: nat, bases: seq<seq<nat>>, skip: set<nat>)
    requires Sized(cfg, slots) && c < cfg.clients && SideTrue(cfg, slots, c, x, goal, bases)
    ensures Shaped(x, cfg.servers, cfg.clients)
    ensures SideTrue(cfg, slots, c, Forwarded(x, skip, cfg.majority, c, cfg.clients), goal, bases)
  {
    SideShape(cfg, slots, c, x, goal, bases);
    if !x.phase.Finished? {
      hide SideTrue, Concluded, Sweep;
      SweepKeeps(cfg, slots, c, x, goal, bases, skip, cfg.servers);
      ConcludedSide(cfg, slots, c, Sweep(x, skip, cfg.servers, c, cfg.clients), goal, bases);
    }
  }

  // ---------- starting an operation ----------

  lemma {:induction false} ForKVSide(cfg: Config, slots: seq<seq<nat>>, c: nat, x: Client, goal: nat, bases: seq<seq<nat>>)
    requires Sized(cfg, slots) && c < cfg.clients && SideTrue(cfg, slots, c, x, goal, bases) && Idle(x)
    requires forall s :: 0 <= s < |x.traffic| ==> x.traffic[s].None?
    ensures SideTrue(cfg, slots, c, ForKV(x), goal, bases)
  {
    ForKVLite(cfg, slots, c, x);
    hide Lite, AtMost, MaxOf;
  }

  lemma {:induction false} StartedFuture(slots: seq<nat>, c: nat, x: Client, kind: Kind, s: nat, goal: nat, base: seq<nat>)
    requires c < |slots| && s < |x.futures| == |x.traffic| == |x.inPlace| == |x.tsps| - 1
    requires x.write < |x.tsps| && x.readEntry < |x.futures| && x.futures[s].ongoing < |x.tsps|
    requires x.traffic[s].Some? ==> |x.traffic[s].value.slots| == |slots|
    requires FutureTrue(slots, c, x, s, goal, base) && Lite(slots, c, x.futures[s], x.traffic[s], x) && OtherRules(x, kind)
    requires kind.IsLocal() && OutFrom(x, s, 0) ==> Harmless(slots, c, x.traffic[s].value, kind.tsp)
    ensures FutureTrue(slots, c, Started(x, kind), s, Asked(x, kind), slots)
  {
    hide MaxOf, Harmless, AnswersTrue;
    var z := Started(x, kind);
    var f, g := x.futures[s], z.futures[s];
    assert g == DoNext(f, z.Entry(), kind.First());
    StartedWrites(f, z.Entry(), kind, Asked(x, kind));
    if x.traffic[s].Some? && x.traffic[s].value.swaps {
      assert SwapSound(slots, c, f, x.traffic[s].value, x, goal);
      assert f.ongoing == 0;
    }
    hide NextStep, WriteOk;
  }

  lemma {:induction false} StartedWrites(f: Future, entry: nat, kind: Kind, goal: nat)
    requires kind.PhaseOf().Writing? ==> entry == goal
    ensures kind.PhaseOf().Writing? ==> WriteOk(DoNext(f, entry, kind.First()), goal)
    ensures kind.KRead? ==> DoNext(f, entry, kind.First()).next == Some(ReadTs)
  {}

  lemma {:induction false} StartedBuffer(slots: seq<nat>, c: nat, x: Client, kind: Kind, goal: nat, base: seq<nat>)
    requires c < |slots| && x.readEntry < |x.futures| == |x.traffic| == |x.inPlace| == |x.tsps| - 1
    requires x.write < |x.tsps| && x.futures[x.readEntry].ongoing < |x.tsps|
    requires x.traffic[x.readEntry].Some? ==> |x.traffic[x.readEntry].value.slots| == |slots|
    requires FutureTrue(slots, c, x, x.readEntry, goal, base) && Lite(slots, c, x.futures[x.readEntry], x.traffic[x.readEntry], x)
    requires Books(x, goal) && NotedBut(x, |x.futures|) && OtherRules(x, kind) && kind.Replicates()
    ensures var z := Started(x, kind); var r := x.readEntry;
            BufferOk(slots, c, z.futures[r], z.traffic[r], z, Asked(x, kind))
  {
    var z, r := Started(x, kind), x.readEntry;
    var f := x.futures[r];
    assert x.traffic[r].None? && f.step.Done? && f.maxSeen <= x.maxTsp;
    assert Verified(Asked(x, kind)) == Verified(x.maxTsp);
    assert slots[c] <= Verified(f.maxSeen);
    assert z.futures[r] == DoNext(f, z.Entry(), kind.First());
  }

  lemma {:induction false} StartedBooks(x: Client, kind: Kind, goal: nat)
    requires x.write < |x.tsps| && x.readEntry < |x.futures| == |x.traffic| == |x.tsps| - 1
    requires Books(x, goal) && NotedBut(x, |x.futures|) && OtherRules(x, kind)
    ensures Books(Started(x, kind), Asked(x, kind)) && NotedBut(Started(x, kind), |x.futures|)
  {}

  lemma {:induction false} StartSide(cfg: Config, slots: seq<seq<nat>>, c: nat, x: Client, kind: Kind, goal: nat, bases: seq<seq<nat>>)
    requires Sized(cfg, slots) && c < cfg.clients && SideTrue(cfg, slots, c, x, goal, bases) && Shaped(x, cfg.servers, cfg.clients)
    requires OtherRules(x, kind) && (kind.IsLocal() ==> EntryFree(slots, c, x, kind.tsp))
    ensures SideTrue(cfg, slots, c, Started(x, kind), Asked(x, kind), slots)
  {
    var z := Started(x, kind);
    StartLite(cfg, slots, c, x, kind);
    StartedBooks(x, kind, goal);
    hide Books, NotedBut, FutureTrue, Lite, BufferOk, BuffersFree;
    if kind.Replicates() { StartedBuffer(slots[x.readEntry], c, x, kind, goal, bases[x.readEntry]); }
    assert z.write == if kind.Replicates() then 1 + x.readEntry else 0;
    forall s | 0 <= s < cfg.servers ensures FutureTrue(slots[s], c, z, s, Asked(x, kind), slots[s]) {
      StartedFuture(slots[s], c, x, kind, s, goal, bases[s]);
    }
    hide Started, OtherRules, EntryFree, Asked, SideTrue;
    SideOf(cfg, slots, c, z, Asked(x, kind), slots);
  }

  // ---------- answers arrive ----------

  /** The same request with one more answer in. */
  ghost predicate Answers(slots: seq<nat>, m: Message, n: Message) {
    || (exists j :: 0 <= j < |slots| == |m.slots| && n == m.(slots := m.slots[j := Some(slots[j])]))
    || n == m.(notified := true)
  }

  lemma {:induction false} AnswerFuture(slots: seq<nat>, c: nat, x: Client, s: nat, goal: nat, base: seq<nat>, n: Message)
    requires c < |slots| && s < |x.futures| == |x.traffic| && x.futures[s].ongoing < |x.tsps| && AtMost(base, slots)
    requires x.traffic[s].Some? && |x.traffic[s].value.slots| == |n.slots| == |slots| && Answers(slots, x.traffic[s].value, n)
    requires FutureTrue(slots, c, x, s, goal, base)
    ensures FutureTrue(slots, c, WithMessage(x, s, n), s, goal, base)
  {
    hide MaxOf, WriteOk;
  }

  /** A message changed: what is left is its own future, and the buffer being replicated. */
  lemma {:induction false} MessageFutures(cfg: Config, slots: seq<seq<nat>>, later: seq<seq<nat>>, c: nat, x: Client, goal: nat,
                                          bases: seq<seq<nat>>, s: nat, n: Message)
    requires Sized(cfg, slots) && Sized(cfg, later) && c < cfg.clients && s < cfg.servers && SideTrue(cfg, slots, c, x, goal, bases)
    requires Shaped(x, cfg.servers, cfg.clients) && |bases| == cfg.servers && x.traffic[s].Some? && |n.slots| == cfg.clients
    requires (forall r :: 0 <= r < cfg.servers && r != s ==> later[r] == slots[r]) && AtMost(slots[s], later[s])
    requires FutureTrue(later[s], c, WithMessage(x, s, n), s, goal, bases[s])
    ensures forall r :: 0 <= r < cfg.servers ==> FutureTrue(later[r], c, WithMessage(x, s, n), r, goal, bases[r])
    ensures forall r :: 0 <= r < cfg.servers ==> AtMost(bases[r], later[r])
  {
    hide FutureTrue, LiteSide, BufferOk, Books, NotedBut;
    forall r | 0 <= r < cfg.servers
      ensures AtMost(bases[r], later[r]) && FutureTrue(later[r], c, WithMessage(x, s, n), r, goal, bases[r])
    {
      assert AtMost(bases[r], slots[r]);
      if r != s { SameFuture(slots[r], c, x, WithMessage(x, s, n), r, goal, bases[r]); }
    }
  }

  lemma {:induction false} MessageSide(cfg: Config, slots: seq<seq<nat>>, later: seq<seq<nat>>, c: nat, x: Client, goal: nat,
                                       bases: seq<seq<nat>>, s: nat, n: Message)
    requires Sized(cfg, slots) && Sized(cfg, later) && c < cfg.clients && s < cfg.servers && SideTrue(cfg, slots, c, x, goal, bases)
    requires Shaped(x, cfg.servers, cfg.clients) && |bases| == cfg.servers && x.traffic[s].Some? && |n.slots| == cfg.clients
    requires (forall r :: 0 <= r < cfg.servers && r != s ==> later[r] == slots[r]) && AtMost(slots[s], later[s])
    requires LiteSide(cfg, later, c, WithMessage(x, s, n)) && FutureTrue(later[s], c, WithMessage(x, s, n), s, goal, bases[s])
    requires x.write == 1 + s ==> BufferOk(later[s], c, x.futures[s], Some(n), x, goal)
    ensures SideTrue(cfg, later, c, WithMessage(x, s, n), goal, bases)
  {
    hide FutureTrue, Lite, BufferOk, AtMost;
    var y := WithMessage(x, s, n);
    MessageFutures(cfg, slots, later, c, x, goal, bases, s, n);
    if x.write > 0 { SameBuffer(later[x.write - 1], c, x.futures[x.write - 1], y.traffic[x.write - 1], x, y, goal); }
    assert Books(y, goal) && NotedBut(y, cfg.servers);
    hide Books, NotedBut, SideTrue;
    SideOf(cfg, later, c, y, goal, bases);
  }

  lemma {:induction false} SideAt(cfg: Config, slots: seq<seq<nat>>, c: nat, x: Client, goal: nat, bases: seq<seq<nat>>, s: nat)
    requires Sized(cfg, slots) && c < cfg.clients && s < cfg.servers && SideTrue(cfg, slots, c, x, goal, bases)
    ensures Shaped(x, cfg.servers, cfg.clients) && |bases| == cfg.servers
    ensures FutureTrue(slots[s], c, x, s, goal, bases[s]) && AtMost(bases[s], slots[s])
    ensures Lite(slots[s], c, x.futures[s], x.traffic[s], x)
    ensures x.write == 1 + s ==> BufferOk(slots[s], c, x.futures[s], x.traffic[s], x, goal)
  {
    hide FutureTrue, Lite, BufferOk, AtMost, Books, NotedBut;
  }

  lemma {:induction false} AnswerSide(cfg: Config, slots: seq<seq<nat>>, c: nat, x: Client, goal: nat, bases: seq<seq<nat>>, s: nat, n: Message)
    requires Sized(cfg, slots) && c < cfg.clients && s < cfg.servers && SideTrue(cfg, slots, c, x, goal, bases)
    requires x.traffic[s].Some? && |n.slots| == cfg.clients && Answers(slots[s], x.traffic[s].value, n)
    requires LiteSide(cfg, slots, c, WithMessage(x, s, n))
    ensures SideTrue(cfg, slots, c, WithMessage(x, s, n), goal, bases)
  {
    SideAt(cfg, slots, c, x, goal, bases, s);
    hide SideTrue, FutureTrue, LiteSide, Lite;
    AnswerFuture(slots[s], c, x, s, goal, bases[s], n);
    MessageSide(cfg, slots, slots, c, x, goal, bases, s, n);
  }

  // ---------- a server executes a swap ----------

  lemma {:induction false} GrownHarmless(slots: seq<nat>, later: seq<nat>, c: nat, m: Message, tsp: nat)
    requires c < |slots| && AtMost(slots, later) && later[c] == slots[c] && Harmless(slots, c, m, tsp)
    ensures Harmless(later, c, m, tsp)
  {
    MaxOfAtMost(slots, later);
    hide MaxOf;
  }

  /** Other clients' swaps only add to what a server holds. */
  lemma {:induction false} GrownFuture(slots: seq<nat>, later: seq<nat>, c: nat, x: Client, s: nat, goal: nat, base: seq<nat>)
    requires c < |slots| && s < |x.futures| == |x.traffic| && x.futures[s].ongoing < |x.tsps|
    requires x.traffic[s].Some? ==> |x.traffic[s].value.slots| == |slots|
    requires AtMost(slots, later) && later[c] == slots[c] && FutureTrue(slots, c, x, s, goal, base)
    ensures FutureTrue(later, c, x, s, goal, base)
  {
    MaxOfAtMost(slots, later);
    if x.traffic[s].Some? && x.traffic[s].value.swaps {
      GrownHarmless(slots, later, c, x.traffic[s].value, x.tsps[x.futures[s].ongoing]);
    }
    hide MaxOf, Harmless, WriteOk, ReadOk;
  }

  lemma {:induction false} BystanderSide(cfg: Config, slots: seq<seq<nat>>, later: seq<seq<nat>>, c: nat, x: Client, goal: nat, bases: seq<seq<nat>>)
    requires Sized(cfg, slots) && Sized(cfg, later) && c < cfg.clients && SideTrue(cfg, slots, c, x, goal, bases)
    requires forall s :: 0 <= s < cfg.servers ==> AtMost(slots[s], later[s]) && later[s][c] == slots[s][c]
    ensures SideTrue(cfg, later, c, x, goal, bases)
  {
    OthersLite(cfg, slots, later, c, x);
    assert x.write > 0 ==> BufferOk(later[x.write - 1], c, x.futures[x.write - 1], x.traffic[x.write - 1], x, goal);
    hide FutureTrue, Lite, BufferOk;
    forall s | 0 <= s < cfg.servers ensures AtMost(bases[s], later[s]) && FutureTrue(later[s], c, x, s, goal, bases[s]) {
      assert AtMost(bases[s], slots[s]);
      GrownFuture(slots[s], later[s], c, x, s, goal, bases[s]);
    }
    hide AtMost;
    SideOf(cfg, later, c, x, goal, bases);
  }

  lemma {:induction false} SwapHarmless(slots: seq<nat>, c: nat, m: Message, tsp: nat)
    requires c < |slots| && m.swaps && m.swapback.None? && AtMost(slots, Swapped(slots, c, m)) && Harmless(slots, c, m, tsp)
    ensures Harmless(Swapped(slots, c, m), c, m.(swapback := Some(slots[c])), tsp)
  {
    MaxOfAtMost(slots, Swapped(slots, c, m));
    hide MaxOf;
  }

  lemma {:induction false} SwapFuture(slots: seq<nat>, c: nat, x: Client, s: nat, goal: nat, base: seq<nat>)
    requires c < |slots| && s < |x.futures| == |x.traffic| && x.futures[s].ongoing < |x.tsps|
    requires x.traffic[s].Some? && |x.traffic[s].value.slots| == |slots|
    requires x.traffic[s].value.swaps && x.traffic[s].value.swapback.None?
    requires AtMost(slots, Swapped(slots, c, x.traffic[s].value)) && FutureTrue(slots, c, x, s, goal, base)
    ensures var m := x.traffic[s].value;
            FutureTrue(Swapped(slots, c, m), c, WithMessage(x, s, m.(swapback := Some(slots[c]))), s, goal, base)
  {
    var m := x.traffic[s].value;
    MaxOfAtMost(slots, Swapped(slots, c, m));
    SwapHarmless(slots, c, m, x.tsps[x.futures[s].ongoing]);
    hide MaxOf, Harmless, WriteOk;
  }

  lemma {:induction false} SwapBuffer(slots: seq<nat>, c: nat, x: Client, s: nat, goal: nat, base: seq<nat>)
    requires c < |slots| && s < |x.futures| == |x.traffic| && x.futures[s].ongoing < |x.tsps| && x.write == 1 + s
    requires x.traffic[s].Some? && |x.traffic[s].value.slots| == |slots|
    requires x.traffic[s].value.swaps && x.traffic[s].value.swapback.None? && FutureTrue(slots, c, x, s, goal, base)
    requires BufferOk(slots, c, x.futures[s], x.traffic[s], x, goal)
    ensures var m := x.traffic[s].value; var y := WithMessage(x, s, m.(swapback := Some(slots[c])));
            BufferOk(Swapped(slots, c, m), c, y.futures[s], y.traffic[s], y, goal)
  {
    hide MaxOf, Harmless;
  }

  lemma {:induction false} SwapSide(cfg: Config, slots: seq<seq<nat>>, later: seq<seq<nat>>, c: nat, x: Client, goal: nat, bases: seq<seq<nat>>, s: nat)
    requires Sized(cfg, slots) && Sized(cfg, later) && c < cfg.clients && s < cfg.servers && SideTrue(cfg, slots, c, x, goal, bases)
    requires x.traffic[s].Some? && x.traffic[s].value.swaps && x.traffic[s].value.swapback.None?
    requires later == slots[s := Swapped(slots[s], c, x.traffic[s].value)] && AtMost(slots[s], later[s])
    requires LiteSide(cfg, later, c, WithMessage(x, s, x.traffic[s].value.(swapback := Some(slots[s][c]))))
    ensures SideTrue(cfg, later, c, WithMessage(x, s, x.traffic[s].value.(swapback := Some(slots[s][c]))), goal, bases)
  {
    var n := x.traffic[s].value.(swapback := Some(slots[s][c]));
    SideAt(cfg, slots, c, x, goal, bases, s);
    hide SideTrue, FutureTrue, LiteSide, Lite, Swapped, BufferOk, AtMost;
    SwapFuture(slots[s], c, x, s, goal, bases[s]);
    if x.write == 1 + s {
      SwapBuffer(slots[s], c, x, s, goal, bases[s]);
      SameBuffer(later[s], c, x.futures[s], Some(n), WithMessage(x, s, n), x, goal);
    }
    MessageSide(cfg, slots, later, c, x, goal, bases, s, n);
  }

  // ---------- every step ----------

  lemma {:induction false} MovedInv(cfg: Config, st: State, c: nat, y: Client, goal: nat, bases: seq<seq<nat>>)
    requires Inv(cfg, st) && c < cfg.clients && SideTrue(cfg, st.slots, c, y, goal, bases)
    ensures Inv(cfg, st.(clients := st.clients[c := y], goals := st.goals[c := goal], bases := st.bases[c := bases]))
  {
    SideShape(cfg, st.slots, c, y, goal, bases);
    hide SideTrue;
  }

  lemma {:induction false} SwapKeeps(cfg: Config, st: State, c: nat, s: nat)
    requires Inv(cfg, st) && Possible(cfg, st, Swap(c, s))
    ensures Inv(cfg, Apply(cfg, st, Swap(c, s)))
  {
    TruthIsLite(cfg, st);
    StepLiteInv(cfg, st, Swap(c, s));
    var st' := Apply(cfg, st, Swap(c, s));
    hide SideTrue, AtMost, Swapped;
    forall d | 0 <= d < cfg.clients ensures SideTrue(cfg, st'.slots, d, st'.clients[d], st.goals[d], st.bases[d]) {
      if d == c {
        assert st'.slots[s] == Swapped(st.slots[s], c, st.clients[c].traffic[s].value);
        SwapSide(cfg, st.slots, st'.slots, c, st.clients[c], st.goals[c], st.bases[c], s);
      } else {
        SwapLeaves(st.slots[s], c, st.clients[c].traffic[s].value, d);
        BystanderSide(cfg, st.slots, st'.slots, d, st.clients[d], st.goals[d], st.bases[d]);
      }
    }
  }

  lemma {:induction false} SwapLeaves(slots: seq<nat>, c: nat, m: Message, d: nat)
    requires c < |slots| && d < |slots| && c != d
    ensures Swapped(slots, c, m)[d] == slots[d]
  {}

  lemma {:induction false} StartKeeps(cfg: Config, st: State, c: nat, anew: bool, kind: Kind)
    requires Inv(cfg, st) && Possible(cfg, st, Start(c, anew, kind)) && Allowed(cfg, st, Start(c, anew, kind))
    ensures Inv(cfg, Apply(cfg, st, Start(c, anew, kind)))
  {
    var x := st.clients[c];
    var y := Fresh(x, anew);
    assert SideTrue(cfg, st.slots, c, x, st.goals[c], st.bases[c]);
    hide Inv, SideTrue, OtherRules, EntryFree, ForKV, Started;
    if anew { ForKVSide(cfg, st.slots, c, x, st.goals[c], st.bases[c]); }
    SideShape(cfg, st.slots, c, y, st.goals[c], st.bases[c]);
    StartSide(cfg, st.slots, c, y, kind, st.goals[c], st.bases[c]);
    MovedInv(cfg, st, c, Started(y, kind), Asked(y, kind), st.slots);
  }

  lemma {:induction false} AnswerKeeps(cfg: Config, st: State, e: Event)
    requires Inv(cfg, st) && Possible(cfg, st, e) && (e.ReadSlot? || e.Notify?)
    ensures Inv(cfg, Apply(cfg, st, e))
  {
    var c, s, x := e.c, e.s, st.clients[e.c];
    var n := Apply(cfg, st, e).clients[c].traffic[s].value;
    TruthIsLite(cfg, st);
    StepLiteInv(cfg, st, e);
    assert SideTrue(cfg, st.slots, c, x, st.goals[c], st.bases[c]);
    assert Answers(st.slots[s], x.traffic[s].value, n);
    hide Inv, SideTrue, Answers, Lite;
    AnswerSide(cfg, st.slots, c, x, st.goals[c], st.bases[c], s, n);
    MovedInv(cfg, st, c, WithMessage(x, s, n), st.goals[c], st.bases[c]);
  }

  /** Everything any client or server does, operations started by the rules, keeps every client's beliefs true. */
  lemma {:induction false} StepKeepsInv(cfg: Config, st: State, e: Event)
    requires Inv(cfg, st) && Possible(cfg, st, e) && Allowed(cfg, st, e)
    ensures Inv(cfg, Apply(cfg, st, e))
  {
    var c := e.c;
    if e.Forward? {
      assert SideTrue(cfg, st.slots, c, st.clients[c], st.goals[c], st.bases[c]);
      hide Inv, SideTrue, Forwarded;
      ForwardKeeps(cfg, st.slots, c, st.clients[c], st.goals[c], st.bases[c], e.skip);
      MovedInv(cfg, st, c, Forwarded(st.clients[c], e.skip, cfg.majority, c, cfg.clients), st.goals[c], st.bases[c]);
    } else {
      hide Inv, Apply;
      match e
      case Start(_, anew, kind) => StartKeeps(cfg, st, c, anew, kind);
      case Swap(_, s) => SwapKeeps(cfg, st, c, s);
      case _ => AnswerKeeps(cfg, st, e);
    }
  }
}
