/** What holds however operations are started, as long as a timestamp written without looking is not below
    what the client wrote before: no timestamp at any server ever falls. */
module MaxRegRising {
  import opened Registers
  import opened MaxReg
  import opened MaxRegProtocol

  ghost predicate NotBlindlyLower(x: Client, kind: Kind) {
    kind.KWriteTsAndIn? ==> kind.tsp >= x.high
  }

  ghost predicate MessageFits(slots: seq<nat>, f: Future, t: Option<Message>) {
    && (t.Some? <==> !f.step.Done?)
    && (t.Some? ==> var m := t.value;
          && |m.slots| == |slots| && m.swaps == f.step.Swaps() && m.notifs == f.step.AsksNotifs()
          && m.wantsArray == (f.step.ReadTs? || (f.step.TryWriteAll? && |slots| > 1)))
  }

  /** One future: what is out would not lower the client's slot. */
  ghost predicate Lite(slots: seq<nat>, c: nat, f: Future, t: Option<Message>, x: Client)
    requires c < |slots| && x.write < |x.tsps|
  {
    && MessageFits(slots, f, t)
    && f.Mine() <= f.maxSeen && slots[c] <= x.high && x.Entry() <= x.high && x.tsps[0] <= x.high
    && (f.next == Some(WriteTsAndIn) ==> x.write == 0 && x.tsps[0] == x.high)
    && (t.Some? && t.value.swaps ==>
          && t.value.expected == f.Mine() && t.value.value <= x.high
          && (t.value.swapback.None? && slots[c] == t.value.expected ==> t.value.expected <= t.value.value))
  }

  ghost predicate LiteSide(cfg: Config, slots: seq<seq<nat>>, c: nat, x: Client)
    requires Sized(cfg, slots) && c < cfg.clients
  {
    && Shaped(x, cfg.servers, cfg.clients)
    && forall s :: 0 <= s < cfg.servers ==> Lite(slots[s], c, x.futures[s], x.traffic[s], x)
  }

  ghost predicate LiteInv(cfg: Config, st: State) {
    && WellFormed(cfg, st)
    && forall c :: 0 <= c < cfg.clients ==> LiteSide(cfg, st.slots, c, st.clients[c])
  }

  lemma {:induction false} InitLite(cfg: Config, inPlace: seq<seq<bool>>)
    requires cfg.servers > 0 && |inPlace| == cfg.clients && forall c :: 0 <= c < cfg.clients ==> |inPlace[c]| == cfg.servers
    ensures LiteInv(cfg, Init(cfg, inPlace))
  {}

  // ---------- a client steps forward ----------

  lemma {:induction false} TakenMine(f: Future, t: Option<Message>, tsps: seq<nat>, me: nat)
    requires f.ongoing < |tsps| && (t.Some? ==> me < |t.value.slots|) && f.Mine() <= f.maxSeen
    ensures var a := Taken(f, t, tsps, me); a.Mine() <= a.maxSeen && f.maxSeen <= a.maxSeen
  {
    if t.Some? && t.value.wantsArray { assert Filled(t.value.slots)[me] <= MaxOf(Filled(t.value.slots)); }
    hide MaxOf, Filled;
  }

  lemma {:induction false} OnwardLite(slots: seq<nat>, c: nat, f: Future, x: Client)
    requires c < |slots| && x.write < |x.tsps| && slots[c] <= x.high && x.Entry() <= x.high && x.tsps[0] <= x.high && f.Mine() <= f.maxSeen
    requires f.next == Some(WriteTsAndIn) ==> x.write == 0 && x.tsps[0] == x.high
    requires !(f.step.Done? && f.next.None?)
    ensures var g := Onward(f, x.Entry(), x.write);
            && Lite(slots, c, g, Request(g, x.Entry(), |slots|), x)
            && g.next.None? && g.maxSeen == f.maxSeen && g.myLast == f.myLast
            && (!g.step.Done? ==> g.ongoing == x.write)
  {}

  lemma {:induction false} StepOneLite(slots: seq<nat>, c: nat, f: Future, t: Option<Message>, x: Client)
    requires c < |slots| && x.write < |x.tsps| && f.ongoing < |x.tsps| && Lite(slots, c, f, t, x)
    ensures var r := StepOne(f, t, x.tsps, x.write, c, |slots|);
            Lite(slots, c, r.0, r.1, x) && f.maxSeen <= r.0.maxSeen
  {
    if Answered(t) {
      hide Absorb, Onward, Taken;
      TakenMine(f, t, x.tsps, c);
      var a := Taken(f, t, x.tsps, c);
      if !(a.step.Done? && a.next.None?) { OnwardLite(slots, c, a, x); }
    }
  }

  /** Smudging touches nothing that Lite looks at. */
  lemma {:induction false} SmudgeLite(slots: seq<nat>, c: nat, f: Future, t: Option<Message>, u: Option<Message>, x: Client, y: Client)
    requires c < |slots| && x.write < |x.tsps| && Lite(slots, c, f, t, x) && y == x.(futures := y.futures, traffic := y.traffic)
    requires u == t || (t.Some? && u.Some? && |u.value.slots| == |t.value.slots| && u.value == t.value.(slots := u.value.slots))
    ensures Lite(slots, c, f, u, y)
  {}

  /** Smudging changes at most the array of a message that wants one. */
  lemma {:induction false} SmudgedAt(traffic: seq<Option<Message>>, ongoing: nat, me: nat, mine: nat, s: nat)
    requires s < |traffic|
    ensures var t, u := traffic[s], Smudged(traffic, ongoing, me, mine)[s];
            && (u == t || (t.Some? && u.Some? && |u.value.slots| == |t.value.slots| && u.value == t.value.(slots := u.value.slots)))
            && (u != t ==> ongoing == 1 + s && t.value.wantsArray)
  {}

  lemma {:induction false} StepLite(cfg: Config, slots: seq<seq<nat>>, c: nat, x: Client, s: nat)
    requires Sized(cfg, slots) && c < cfg.clients && s < cfg.servers && LiteSide(cfg, slots, c, x)
    ensures LiteSide(cfg, slots, c, Stepped(x, s, c, cfg.clients))
    ensures Stepped(x, s, c, cfg.clients).futures[s].maxSeen >= x.futures[s].maxSeen
  {
    hide Lite, StepOne, AbsorbSwap, Smudged;
    var y := Stepped(x, s, c, cfg.clients);
    var f, t := x.futures[s], x.traffic[s];
    StepOneLite(slots[s], c, f, t, x);
    var (g, u) := StepOne(f, t, x.tsps, x.write, c, cfg.clients);
    var traffic := x.traffic[s := u];
    forall r | 0 <= r < cfg.servers ensures Lite(slots[r], c, y.futures[r], y.traffic[r], y) {
      if SwapTaken(t) {
        SmudgedAt(traffic, f.ongoing, c, AbsorbSwap(f, x.tsps[f.ongoing], t.value.swapback.value).Mine(), r);
      }
      SmudgeLite(slots[r], c, y.futures[r], traffic[r], y.traffic[r], x, y);
    }
  }

  lemma {:induction false} NoteLite(cfg: Config, slots: seq<seq<nat>>, c: nat, x: Client, s: nat)
    requires Sized(cfg, slots) && c < cfg.clients && s < cfg.servers && LiteSide(cfg, slots, c, x)
    ensures LiteSide(cfg, slots, c, Noted(x, s))
  {
    var y := Noted(x, s);
    forall r | 0 <= r < cfg.servers ensures Lite(slots[r], c, y.futures[r], y.traffic[r], y) {
      assert Lite(slots[r], c, x.futures[r], x.traffic[r], x);
    }
  }

  lemma {:induction false} SweptOneLite(cfg: Config, slots: seq<seq<nat>>, c: nat, w: Swept, s: nat)
    requires Sized(cfg, slots) && c < cfg.clients && s < cfg.servers && LiteSide(cfg, slots, c, w.x)
    ensures LiteSide(cfg, slots, c, SweptOne(w, s, c, cfg.clients).x)
  {
    hide Lite, Stepped, Noted;
    StepLite(cfg, slots, c, w.x, s);
    NoteLite(cfg, slots, c, Stepped(w.x, s, c, cfg.clients), s);
  }

  lemma {:induction false} SweepLite(cfg: Config, slots: seq<seq<nat>>, c: nat, x: Client, skip: set<nat>, n: nat)
    requires Sized(cfg, slots) && c < cfg.clients && n <= cfg.servers && LiteSide(cfg, slots, c, x)
    ensures LiteSide(cfg, slots, c, Sweep(x, skip, n, c, cfg.clients).x)
  {
    hide Lite, SweptOne;
    if n > 0 {
      SweepLite(cfg, slots, c, x, skip, n - 1);
      if n - 1 !in skip {
        SweptOneLite(cfg, slots, c, Sweep(x, skip, n - 1, c, cfg.clients), n - 1);
      }
    }
  }

  lemma {:induction false} ForwardLite(cfg: Config, slots: seq<seq<nat>>, c: nat, x: Client, skip: set<nat>)
    requires Sized(cfg, slots) && c < cfg.clients && LiteSide(cfg, slots, c, x)
    ensures LiteSide(cfg, slots, c, Forwarded(x, skip, cfg.majority, c, cfg.clients))
  {
    if !x.phase.Finished? {
      SweepLite(cfg, slots, c, x, skip, cfg.servers);
      var w := Sweep(x, skip, cfg.servers, c, cfg.clients);
      hide Sweep;
      ConcludeLite(cfg, slots, c, w);
    }
  }

  lemma {:induction false} ConcludeLite(cfg: Config, slots: seq<seq<nat>>, c: nat, w: Swept)
    requires Sized(cfg, slots) && c < cfg.clients && LiteSide(cfg, slots, c, w.x)
    ensures LiteSide(cfg, slots, c, Concluded(w, cfg.majority))
  {
    var y := Concluded(w, cfg.majority);
    forall s | 0 <= s < cfg.servers ensures Lite(slots[s], c, y.futures[s], y.traffic[s], y) {
      assert Lite(slots[s], c, w.x.futures[s], w.x.traffic[s], w.x);
    }
  }

  // ---------- the other steps ----------

  lemma {:induction false} StartLite(cfg: Config, slots: seq<seq<nat>>, c: nat, x: Client, kind: Kind)
    requires Sized(cfg, slots) && c < cfg.clients && LiteSide(cfg, slots, c, x) && NotBlindlyLower(x, kind)
    ensures LiteSide(cfg, slots, c, Started(x, kind))
  {
    var y := Started(x, kind);
    forall s | 0 <= s < cfg.servers ensures Lite(slots[s], c, y.futures[s], y.traffic[s], y) {
      assert Lite(slots[s], c, x.futures[s], x.traffic[s], x);
      assert y.futures[s] == DoNext(x.futures[s], y.Entry(), kind.First());
    }
  }

  lemma {:induction false} ForKVLite(cfg: Config, slots: seq<seq<nat>>, c: nat, x: Client)
    requires Sized(cfg, slots) && c < cfg.clients && LiteSide(cfg, slots, c, x)
    requires forall s :: 0 <= s < cfg.servers ==> x.traffic[s].None?
    ensures LiteSide(cfg, slots, c, ForKV(x))
  {
    var y := ForKV(x);
    forall s | 0 <= s < cfg.servers ensures Lite(slots[s], c, y.futures[s], y.traffic[s], y) {
      assert Lite(slots[s], c, x.futures[s], x.traffic[s], x);
    }
  }

  lemma {:induction false} ReadSlotLite(cfg: Config, slots: seq<seq<nat>>, c: nat, x: Client, s: nat, j: nat, v: nat)
    requires Sized(cfg, slots) && c < cfg.clients && s < cfg.servers && j < cfg.clients && LiteSide(cfg, slots, c, x)
    requires x.traffic[s].Some?
    ensures var m := x.traffic[s].value;
            && LiteSide(cfg, slots, c, WithMessage(x, s, m.(slots := m.slots[j := Some(v)])))
            && LiteSide(cfg, slots, c, WithMessage(x, s, m.(notified := true)))
  {
    var m := x.traffic[s].value;
    var y, z := WithMessage(x, s, m.(slots := m.slots[j := Some(v)])), WithMessage(x, s, m.(notified := true));
    forall r | 0 <= r < cfg.servers
      ensures Lite(slots[r], c, y.futures[r], y.traffic[r], y) && Lite(slots[r], c, z.futures[r], z.traffic[r], z)
    {
      assert Lite(slots[r], c, x.futures[r], x.traffic[r], x);
    }
  }

  /** The server's own slots rise, and the client stays as it should. */
  lemma {:induction false} SwapLite(slots: seq<nat>, c: nat, f: Future, m: Message, x: Client)
    requires c < |slots| && x.write < |x.tsps| && Lite(slots, c, f, Some(m), x) && m.swaps && m.swapback.None?
    ensures var later := Swapped(slots, c, m);
            AtMost(slots, later) && Lite(later, c, f, Some(m.(swapback := Some(slots[c]))), x)
  {}

  /** Other clients' slots do not matter to a client. */
  lemma {:induction false} OthersLite(cfg: Config, slots: seq<seq<nat>>, later: seq<seq<nat>>, c: nat, x: Client)
    requires Sized(cfg, slots) && Sized(cfg, later) && c < cfg.clients && LiteSide(cfg, slots, c, x)
    requires forall s :: 0 <= s < cfg.servers ==> later[s][c] == slots[s][c]
    ensures LiteSide(cfg, later, c, x)
  {
    forall s | 0 <= s < cfg.servers ensures Lite(later[s], c, x.futures[s], x.traffic[s], x) {
      assert Lite(slots[s], c, x.futures[s], x.traffic[s], x);
    }
  }

  // ---------- every step ----------

  ghost predicate NoneFalls(cfg: Config, st: State, st': State) {
    Sized(cfg, st.slots) && Sized(cfg, st'.slots) && forall s :: 0 <= s < cfg.servers ==> AtMost(st.slots[s], st'.slots[s])
  }

  lemma {:induction false} SwapStepLite(cfg: Config, st: State, c: nat, s: nat)
    requires LiteInv(cfg, st) && Possible(cfg, st, Swap(c, s))
    ensures var st' := Apply(cfg, st, Swap(c, s)); LiteInv(cfg, st') && NoneFalls(cfg, st, st')
  {
    hide Lite;
    var st' := Apply(cfg, st, Swap(c, s));
    var x, y := st.clients[c], st'.clients[c];
    assert LiteSide(cfg, st.slots, c, x);
    SwapLite(st.slots[s], c, x.futures[s], x.traffic[s].value, x);
    forall d | 0 <= d < cfg.clients ensures LiteSide(cfg, st'.slots, d, st'.clients[d]) {
      assert LiteSide(cfg, st.slots, d, st.clients[d]);
      if d != c {
        OthersLite(cfg, st.slots, st'.slots, d, st.clients[d]);
      } else {
        forall r | 0 <= r < cfg.servers ensures Lite(st'.slots[r], c, y.futures[r], y.traffic[r], y) {
          LiteOf(st'.slots[r], c, y.futures[r], y.traffic[r], x, y);
        }
      }
    }
  }

  lemma {:induction false} LiteOf(slots: seq<nat>, c: nat, f: Future, t: Option<Message>, x: Client, y: Client)
    requires c < |slots| && x.write < |x.tsps| && Lite(slots, c, f, t, x) && y == x.(futures := y.futures, traffic := y.traffic)
    ensures Lite(slots, c, f, t, y)
  {}

  lemma {:induction false} MovedLite(cfg: Config, st: State, c: nat, y: Client, goal: nat, bases: seq<seq<nat>>)
    requires LiteInv(cfg, st) && c < cfg.clients && LiteSide(cfg, st.slots, c, y)
    ensures LiteInv(cfg, st.(clients := st.clients[c := y], goals := st.goals[c := goal], bases := st.bases[c := bases]))
  {
    hide Lite;
  }

  lemma {:induction false} StepLiteInv(cfg: Config, st: State, e: Event)
    requires LiteInv(cfg, st) && Possible(cfg, st, e)
    requires e.Start? ==> NotBlindlyLower(Fresh(st.clients[e.c], e.anew), e.kind)
    ensures var st' := Apply(cfg, st, e); LiteInv(cfg, st') && NoneFalls(cfg, st, st')
  {
    hide Lite, Started, ForKV, Forwarded;
    var c, x := e.c, st.clients[e.c];
    assert LiteSide(cfg, st.slots, c, x);
    match e
    case Start(_, anew, kind) =>
      if anew { ForKVLite(cfg, st.slots, c, x); }
      StartLite(cfg, st.slots, c, Fresh(x, anew), kind);
      MovedLite(cfg, st, c, Started(Fresh(x, anew), kind), Asked(Fresh(x, anew), kind), st.slots);
    case ReadSlot(_, s, j) =>
      ReadSlotLite(cfg, st.slots, c, x, s, j, st.slots[s][j]);
      MovedLite(cfg, st, c, Apply(cfg, st, e).clients[c], st.goals[c], st.bases[c]);
    case Notify(_, s) =>
      ReadSlotLite(cfg, st.slots, c, x, s, c, 0);
      MovedLite(cfg, st, c, Apply(cfg, st, e).clients[c], st.goals[c], st.bases[c]);
    case Swap(_, s) => SwapStepLite(cfg, st, c, s);
    case Forward(_, skip) =>
      ForwardLite(cfg, st.slots, c, x, skip);
      MovedLite(cfg, st, c, Forwarded(x, skip, cfg.majority, c, cfg.clients), st.goals[c], st.bases[c]);
  }

  // ---------- whole paths ----------

  ghost predicate RisingPath(cfg: Config, states: seq<State>, events: seq<Event>) {
    && IsPath(cfg, states, events) && LiteInv(cfg, states[0])
    && forall k :: 0 <= k < |events| ==> BlindRuleKept(cfg, states[k], events[k])
  }

  ghost predicate BlindRuleKept(cfg: Config, st: State, e: Event) {
    && WellFormed(cfg, st) && Possible(cfg, st, e)
    && (e.Start? ==> NotBlindlyLower(Fresh(st.clients[e.c], e.anew), e.kind))
  }

  lemma {:induction false} PathKeepsLite(cfg: Config, states: seq<State>, events: seq<Event>, k: nat)
    requires RisingPath(cfg, states, events) && k < |states|
    ensures LiteInv(cfg, states[k])
  {
    hide LiteInv, Apply;
    if k > 0 {
      PathKeepsLite(cfg, states, events, k - 1);
      assert IsStep(cfg, states[k - 1], events[k - 1], states[k]);
      assert BlindRuleKept(cfg, states[k - 1], events[k - 1]);
      StepLiteInv(cfg, states[k - 1], events[k - 1]);
    }
  }

  lemma {:induction false} PathStepRises(cfg: Config, states: seq<State>, events: seq<Event>, k: nat)
    requires RisingPath(cfg, states, events) && k < |events|
    ensures NoneFalls(cfg, states[k], states[k + 1])
  {
    PathKeepsLite(cfg, states, events, k);
    hide LiteInv, Apply;
    assert IsStep(cfg, states[k], events[k], states[k + 1]);
    assert BlindRuleKept(cfg, states[k], events[k]);
    StepLiteInv(cfg, states[k], events[k]);
  }

  lemma {:induction false} RisesOn(cfg: Config, a: State, b: State, c: State)
    requires NoneFalls(cfg, a, b) && NoneFalls(cfg, b, c)
    ensures NoneFalls(cfg, a, c)
  {}

  lemma {:induction false} StaysPut(cfg: Config, st: State)
    requires LiteInv(cfg, st)
    ensures NoneFalls(cfg, st, st)
  {}

  /** No timestamp at any server ever falls. */
  lemma {:induction false} SlotsRise(cfg: Config, states: seq<State>, events: seq<Event>, j: nat, k: nat)
    requires RisingPath(cfg, states, events) && j <= k < |states|
    ensures NoneFalls(cfg, states[j], states[k])
  {
    hide LiteInv, NoneFalls, IsPath, BlindRuleKept;
    PathKeepsLite(cfg, states, events, j);
    StaysPut(cfg, states[j]);
    if j < k {
      SlotsRise(cfg, states, events, j, k - 1);
      assert k - 1 < |events| by { LengthOf(cfg, states, events); }
      PathStepRises(cfg, states, events, k - 1);
      RisesOn(cfg, states[j], states[k - 1], states[k]);
    }
  }

  lemma {:induction false} LengthOf(cfg: Config, states: seq<State>, events: seq<Event>)
    requires IsPath(cfg, states, events)
    ensures |states| == |events| + 1
  {}
}
