/** What the rules buy: whatever a client takes a server to hold, the server holds. */
module MaxRegTruth {
  import opened Registers
  import opened MaxReg
  import opened MaxRegProtocol
  import opened MaxRegRising

  function OutValue(t: Option<Message>): nat {
    if t.Some? && t.value.swaps then t.value.value else 0
  }

  /** Answers so far are what the server held, and of the client's own slot they are up to date. */
  ghost predicate AnswersTrue(slots: seq<nat>, c: nat, m: Message)
    requires c < |slots| == |m.slots|
  {
    && (forall j :: 0 <= j < |slots| && m.slots[j].Some? ==> m.slots[j].value <= slots[j])
    && (!m.swaps && m.slots[c].Some? ==> m.slots[c].value == slots[c])
    && (m.swapback.Some? ==> slots[c] == if m.swapback.value == m.expected then m.value else m.swapback.value)
  }

  /** A swap that is out will be remembered truthfully: the entry it was made from says no more than it
      carries or the server holds, and no less than it carries. */
  ghost predicate SwapSound(slots: seq<nat>, c: nat, f: Future, m: Message, x: Client, goal: nat)
    requires c < |slots| && f.ongoing < |x.tsps|
  {
    && (f.ongoing == 0 || f.ongoing == x.write)
    && m.value <= Verified(x.tsps[f.ongoing])
    && Harmless(slots, c, m, x.tsps[f.ongoing])
    && (f.ongoing > 0 ==> Verified(m.value) == Verified(goal))
  }

  ghost predicate Believes(slots: seq<nat>, c: nat, f: Future, t: Option<Message>, x: Client, goal: nat)
    requires c < |slots| && f.ongoing < |x.tsps| && (t.Some? ==> |t.value.slots| == |slots|)
  {
    && f.maxSeen <= Verified(MaxOf(slots))
    && (f.maxSeen > 0 ==> slots[c] <= Verified(Max(f.maxSeen, OutValue(t))))
    && (t.Some? ==> AnswersTrue(slots, c, t.value))
    && (t.Some? && t.value.swaps ==> SwapSound(slots, c, f, t.value, x, goal))
  }

  /** While the client writes towards goal it stops at a server only once it has seen enough there. */
  ghost predicate WriteOk(f: Future, goal: nat) {
    && (f.next.None? ==> !f.step.Reads() && (f.step.Done? || f.step.ReadNotifs? ==> Verified(f.maxSeen) >= goal))
    && (f.next.Some? ==> !f.next.value.Reads() && (f.next.value.Done? || f.next.value.ReadNotifs? ==> Verified(f.maxSeen) >= goal))
  }

  /** While the client reads timestamps: not begun, under way, or done with all that was there at the start. */
  ghost predicate ReadOk(f: Future, t: Option<Message>, base: seq<nat>) {
    || f.next == Some(ReadTs)
    || (f.next.None? && f.step.ReadTs? && t.Some? && |t.value.slots| == |base|
        && forall j :: 0 <= j < |base| && t.value.slots[j].Some? ==> base[j] <= t.value.slots[j].value)
    || (f.next.None? && f.step.Done? && MaxOf(base) <= f.maxSeen)
  }

  ghost predicate FutureTrue(slots: seq<nat>, c: nat, x: Client, s: nat, goal: nat, base: seq<nat>)
    requires c < |slots| && s < |x.futures| == |x.traffic| && x.futures[s].ongoing < |x.tsps|
    requires x.traffic[s].Some? ==> |x.traffic[s].value.slots| == |slots|
  {
    var f, t := x.futures[s], x.traffic[s];
    && Believes(slots, c, f, t, x, goal)
    && (x.phase.Writing? ==> WriteOk(f, goal))
    && (x.phase.Reading? ==> ReadOk(f, t, base))
  }

  /** The buffer being replicated, and its server, hold what is replicated and nothing above it. */
  ghost predicate BufferOk(slots: seq<nat>, c: nat, f: Future, t: Option<Message>, x: Client, goal: nat)
    requires c < |slots|
  {
    && f.maxSeen <= Verified(goal) && slots[c] <= Verified(goal)
    && !f.step.Reads() && (f.next.Some? ==> !f.next.value.Reads())
    && (t.Some? && t.value.swaps ==> f.ongoing == x.write)
  }

  ghost predicate Books(x: Client, goal: nat)
    requires x.write < |x.tsps| && x.readEntry < |x.futures| && x.readEntry + 1 < |x.tsps|
  {
    && (x.phase.Writing? && x.write == 0 ==> x.tsps[0] == goal)
    && (x.phase.Reading? || x.phase.TryWriting? ==> x.write == 0)
    && (x.maxTsp > 0 ==> Verified(x.tsps[1 + x.readEntry]) == Verified(x.maxTsp) && x.futures[x.readEntry].maxSeen >= x.maxTsp)
    && (x.write > 0 ==> Verified(x.Entry()) == Verified(goal) <= Verified(x.maxTsp))
  }

  /** The majority layer has taken note of every future, but for server s. */
  ghost predicate NotedBut(x: Client, s: nat) {
    forall r :: 0 <= r < |x.futures| && r != s ==> x.futures[r].maxSeen <= x.maxTsp
  }

  ghost predicate SideBut(cfg: Config, slots: seq<seq<nat>>, c: nat, x: Client, goal: nat, bases: seq<seq<nat>>, but: nat)
    requires Sized(cfg, slots) && c < cfg.clients
  {
    && LiteSide(cfg, slots, c, x) && Books(x, goal) && NotedBut(x, but) && |bases| == cfg.servers
    && (forall s :: 0 <= s < cfg.servers ==> AtMost(bases[s], slots[s]) && FutureTrue(slots[s], c, x, s, goal, bases[s]))
    && (x.write > 0 ==> BufferOk(slots[x.write - 1], c, x.futures[x.write - 1], x.traffic[x.write - 1], x, goal))
  }

  ghost predicate SideTrue(cfg: Config, slots: seq<seq<nat>>, c: nat, x: Client, goal: nat, bases: seq<seq<nat>>)
    requires Sized(cfg, slots) && c < cfg.clients
  {
    SideBut(cfg, slots, c, x, goal, bases, cfg.servers)
  }

  ghost predicate Inv(cfg: Config, st: State) {
    && WellFormed(cfg, st)
    && forall c :: 0 <= c < cfg.clients ==> SideTrue(cfg, st.slots, c, st.clients[c], st.goals[c], st.bases[c])
  }

  lemma {:induction false} InitTrue(cfg: Config, inPlace: seq<seq<bool>>)
    requires cfg.servers > 0 && |inPlace| == cfg.clients && forall c :: 0 <= c < cfg.clients ==> |inPlace[c]| == cfg.servers
    ensures Inv(cfg, Init(cfg, inPlace))
  {
    InitLite(cfg, inPlace);
  }

  lemma {:induction false} TruthIsLite(cfg: Config, st: State)
    requires Inv(cfg, st)
    ensures LiteInv(cfg, st)
  {
    forall c | 0 <= c < cfg.clients ensures LiteSide(cfg, st.slots, c, st.clients[c]) {
      assert SideTrue(cfg, st.slots, c, st.clients[c], st.goals[c], st.bases[c]);
    }
  }

  // ---------- taking in an answer ----------

  /** What a future is asked before it posts its next request. */
  ghost predicate Rested(slots: seq<nat>, c: nat, f: Future)
    requires c < |slots|
  {
    f.maxSeen <= Verified(MaxOf(slots)) && (f.maxSeen > 0 ==> slots[c] <= Verified(f.maxSeen))
  }

  lemma {:induction false} SwapTrue(slots: seq<nat>, c: nat, f: Future, m: Message, x: Client, goal: nat)
    requires c < |slots| == |m.slots| && f.ongoing < |x.tsps| && m.expected == f.Mine()
    requires m.swaps && m.swapback.Some? && Believes(slots, c, f, Some(m), x, goal)
    ensures Rested(slots, c, AbsorbSwap(f, x.tsps[f.ongoing], m.swapback.value))
    ensures slots[c] <= Verified(AbsorbSwap(f, x.tsps[f.ongoing], m.swapback.value).maxSeen)
    ensures AbsorbSwap(f, x.tsps[f.ongoing], m.swapback.value).maxSeen >= f.maxSeen
  {
    assert slots[c] <= MaxOf(slots);
    hide MaxOf;
  }

  lemma {:induction false} ArrayTrue(slots: seq<nat>, c: nat, f: Future, a: seq<nat>)
    requires c < |slots| == |a| && AtMost(a, slots) && f.maxSeen <= Verified(MaxOf(slots))
    requires a[c] == slots[c] || slots[c] <= Verified(f.maxSeen)
    ensures Rested(slots, c, AbsorbArray(f, a, c)) && AbsorbArray(f, a, c).maxSeen >= f.maxSeen
    ensures MaxOf(a) <= AbsorbArray(f, a, c).maxSeen
  {
    MaxOfAtMost(a, slots);
    assert a[c] <= MaxOf(a);
    hide MaxOf;
  }

  lemma {:induction false} TakenTrue(slots: seq<nat>, c: nat, f: Future, t: Option<Message>, x: Client, goal: nat)
    requires c < |slots| && x.write < |x.tsps| && f.ongoing < |x.tsps| && Lite(slots, c, f, t, x) && Answered(t)
    requires Believes(slots, c, f, t, x, goal)
    ensures var a := Taken(f, t, x.tsps, c); Rested(slots, c, a) && a.maxSeen >= f.maxSeen
    ensures t.Some? && t.value.wantsArray ==> MaxOf(Filled(t.value.slots)) <= Taken(f, t, x.tsps, c).maxSeen
  {
    if t.Some? {
      var m := t.value;
      var g := if m.swaps then AbsorbSwap(f, x.tsps[f.ongoing], m.swapback.value) else f;
      if m.swaps { SwapTrue(slots, c, f, m, x, goal); }
      if m.wantsArray { ArrayTrue(slots, c, g, Filled(m.slots)); }
      hide MaxOf, AbsorbArray, Filled;
    }
  }

  /** After its answer the future goes on as it should. */
  lemma {:induction false} OnwardTrue(slots: seq<nat>, c: nat, f: Future, x: Client, goal: nat)
    requires c < |slots| && x.write < |x.tsps| && Rested(slots, c, f) && !(f.step.Done? && f.next.None?)
    requires x.write > 0 ==> Verified(x.Entry()) == Verified(goal)
    ensures var g := Onward(f, x.Entry(), x.write); var r := Request(g, x.Entry(), |slots|);
            (!g.step.Done? || f.ongoing < |x.tsps|) ==> g.ongoing < |x.tsps| && Believes(slots, c, g, r, x, goal)
  {
    hide MaxOf;
  }

  lemma {:induction false} OnwardWrites(f: Future, x: Client, goal: nat)
    requires x.write < |x.tsps| && !(f.step.Done? && f.next.None?) && WriteOk(f, goal)
    requires Verified(x.Entry()) >= goal
    ensures WriteOk(Onward(f, x.Entry(), x.write), goal)
  {}

  lemma {:induction false} OnwardReads(f: Future, x: Client, clients: nat, base: seq<nat>)
    requires x.write < |x.tsps| && |base| == clients && !(f.step.Done? && f.next.None?)
    requires f.next == Some(ReadTs) || (f.next.None? && f.step.ReadTs? && MaxOf(base) <= f.maxSeen)
    ensures var g := Onward(f, x.Entry(), x.write); ReadOk(g, Request(g, x.Entry(), clients), base)
  {}

  lemma {:induction false} TakenReads(slots: seq<nat>, c: nat, f: Future, t: Option<Message>, x: Client, base: seq<nat>)
    requires c < |slots| == |base| && x.write < |x.tsps| && f.ongoing < |x.tsps| && Lite(slots, c, f, t, x) && Answered(t)
    requires ReadOk(f, t, base) && !(f.step.Done? && f.next.None?)
    requires t.Some? && t.value.wantsArray ==> MaxOf(Filled(t.value.slots)) <= Taken(f, t, x.tsps, c).maxSeen
    ensures var a := Taken(f, t, x.tsps, c);
            a.next == Some(ReadTs) || (a.next.None? && a.step.ReadTs? && MaxOf(base) <= a.maxSeen)
  {
    if f.next.None? { MaxOfAtMost(base, Filled(t.value.slots)); }
  }

  lemma {:induction false} StepOneTrue(slots: seq<nat>, c: nat, f: Future, t: Option<Message>, x: Client, goal: nat, base: seq<nat>)
    requires c < |slots| == |base| && x.write < |x.tsps| && f.ongoing < |x.tsps| && Lite(slots, c, f, t, x)
    requires Believes(slots, c, f, t, x, goal) && (x.write > 0 ==> Verified(x.Entry()) == Verified(goal))
    requires x.phase.Writing? ==> WriteOk(f, goal) && Verified(x.Entry()) >= goal
    requires x.phase.Reading? ==> ReadOk(f, t, base)
    ensures var r := StepOne(f, t, x.tsps, x.write, c, |slots|);
            && (r.1.Some? ==> |r.1.value.slots| == |slots|) && r.0.ongoing < |x.tsps| && r.0.maxSeen >= f.maxSeen
            && Believes(slots, c, r.0, r.1, x, goal)
            && (x.phase.Writing? ==> WriteOk(r.0, goal)) && (x.phase.Reading? ==> ReadOk(r.0, r.1, base))
  {
    if Answered(t) {
      TakenTrue(slots, c, f, t, x, goal);
      var a := Taken(f, t, x.tsps, c);
      if a.step.Done? && a.next.None? {
        assert t.None? && a == f;
      } else {
        if x.phase.Reading? { TakenReads(slots, c, f, t, x, base); OnwardReads(a, x, |slots|, base); }
        assert x.phase.Writing? ==> WriteOk(a, goal);
        hide MaxOf, Onward, Taken, Believes, Rested, ReadOk, Lite, Request;
        OnwardTrue(slots, c, a, x, goal);
        if x.phase.Writing? { hide WriteOk; OnwardWrites(a, x, goal); }
        OnwardKeepsSeen(a, x);
      }
    }
  }

  lemma {:induction false} OnwardKeepsSeen(f: Future, x: Client)
    requires x.write < |x.tsps|
    ensures Onward(f, x.Entry(), x.write).maxSeen == f.maxSeen
  {}
}
