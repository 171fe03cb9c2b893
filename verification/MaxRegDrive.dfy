/** How a write reaches a server: a client that polls one server gets its timestamp seen there in three rounds. */
module MaxRegDrive {
  import opened Registers
  import opened Sets
  import opened MaxReg
  import opened MaxRegProtocol
  import opened MaxRegRising

  /** The events lead from a to b while client c starts nothing and others start by the rules. */
  ghost predicate LeadsTo(cfg: Config, c: nat, a: State, events: seq<Event>, b: State)
    decreases |events|
  {
    if events == [] then a == b
    else
      && WellFormed(cfg, a) && Possible(cfg, a, events[0])
      && (events[0].Start? ==> events[0].c != c && Allowed(cfg, a, events[0]))
      && LeadsTo(cfg, c, Apply(cfg, a, events[0]), events[1..], b)
  }

  lemma {:induction false} LeadsOn(cfg: Config, c: nat, a: State, events: seq<Event>, b: State, more: seq<Event>, d: State)
    requires LeadsTo(cfg, c, a, events, b) && LeadsTo(cfg, c, b, more, d)
    ensures LeadsTo(cfg, c, a, events + more, d)
    decreases |events|
  {
    hide WellFormed, Possible, Allowed, Apply;
    if events == [] {
      assert events + more == more;
    } else {
      LeadsOn(cfg, c, Apply(cfg, a, events[0]), events[1..], b, more, d);
      assert (events + more)[1..] == events[1..] + more;
    }
  }

  lemma {:induction false} OneEvent(cfg: Config, c: nat, a: State, e: Event)
    requires WellFormed(cfg, a) && Possible(cfg, a, e) && !e.Start?
    ensures LeadsTo(cfg, c, a, [e], Apply(cfg, a, e))
  {
    hide WellFormed, Possible, Apply;
    assert LeadsTo(cfg, c, Apply(cfg, a, e), [], Apply(cfg, a, e));
  }

  /** Client c is writing tsp from its write entry and has no swap out from another. */
  ghost predicate Driving(cfg: Config, st: State, c: nat, tsp: nat) {
    && LiteInv(cfg, st) && c < cfg.clients
    && var x := st.clients[c];
       x.phase.Writing? && x.write == 0 && x.tsps[0] == tsp && BuffersFree(x)
  }

  // ---------- a message is answered in full ----------

  /** b differs from a at most in the message between client c and server s, which is m there and n here. */
  ghost predicate Renews(a: State, b: State, c: nat, s: nat, m: Message, n: Message) {
    && c < |a.clients| && s < |a.clients[c].traffic| && a.clients[c].traffic[s] == Some(m)
    && b == a.(clients := a.clients[c := WithMessage(a.clients[c], s, n)])
  }

  lemma {:induction false} RenewsOn(a: State, b: State, d: State, c: nat, s: nat, m: Message, n: Message, o: Message)
    requires Renews(a, b, c, s, m, n) && Renews(b, d, c, s, n, o)
    ensures Renews(a, d, c, s, m, o)
  {
    var t := a.clients[c].traffic;
    assert t[s := Some(n)][s := Some(o)] == t[s := Some(o)];
    assert d.clients == a.clients[c := WithMessage(a.clients[c], s, o)];
  }

  lemma {:induction false} RenewsSame(a: State, c: nat, s: nat, m: Message)
    requires c < |a.clients| && s < |a.clients[c].traffic| && a.clients[c].traffic[s] == Some(m)
    ensures Renews(a, a, c, s, m, m)
  {
    assert a.clients[c].traffic[s := Some(m)] == a.clients[c].traffic;
    assert a.clients == a.clients[c := WithMessage(a.clients[c], s, m)];
  }

  lemma {:induction false} RenewsDriving(cfg: Config, a: State, b: State, c: nat, s: nat, m: Message, n: Message, tsp: nat)
    requires Driving(cfg, a, c, tsp) && LiteInv(cfg, b) && s < cfg.servers && Renews(a, b, c, s, m, n) && n.swaps == m.swaps
    ensures Driving(cfg, b, c, tsp)
  {
    hide LiteSide;
  }

  lemma {:induction false} AnswerOne(cfg: Config, st: State, c: nat, tsp: nat, e: Event) returns (b: State)
    requires Driving(cfg, st, c, tsp) && Possible(cfg, st, e) && e.c == c && (e.ReadSlot? || e.Notify?)
    ensures LeadsTo(cfg, c, st, [e], b) && Driving(cfg, b, c, tsp)
    ensures var m := st.clients[c].traffic[e.s].value;
            Renews(st, b, c, e.s, m, if e.ReadSlot? then m.(slots := m.slots[e.j := Some(st.slots[e.s][e.j])]) else m.(notified := true))
  {
    b := Apply(cfg, st, e);
    hide Lite;
    StepLiteInv(cfg, st, e);
    OneEvent(cfg, c, st, e);
    var m := st.clients[c].traffic[e.s].value;
    RenewsDriving(cfg, st, b, c, e.s, m, b.clients[c].traffic[e.s].value, tsp);
  }

  predicate HasAll(m: Message, n: nat) {
    n <= |m.slots| && forall j :: 0 <= j < n ==> m.slots[j].Some?
  }

  lemma {:induction false} ReadAll(cfg: Config, st: State, c: nat, tsp: nat, s: nat, m: Message, k: nat)
    returns (events: seq<Event>, b: State, n: Message)
    requires Driving(cfg, st, c, tsp) && s < cfg.servers && st.clients[c].traffic[s] == Some(m)
    requires m.wantsArray && |m.slots| == cfg.clients && k <= cfg.clients
    ensures LeadsTo(cfg, c, st, events, b) && Driving(cfg, b, c, tsp)
    ensures Renews(st, b, c, s, m, n) && n == m.(slots := n.slots) && |n.slots| == |m.slots| && HasAll(n, k)
  {
    if k == 0 {
      events, b, n := [], st, m;
      RenewsSame(st, c, s, m);
    } else {
      events, b, n := ReadAll(cfg, st, c, tsp, s, m, k - 1);
      if n.slots[k - 1].None? {
        var e := ReadSlot(c, s, k - 1);
        assert Possible(cfg, b, e);
        var o := n.(slots := n.slots[k - 1 := Some(b.slots[s][k - 1])]);
        hide LeadsTo, Driving, Possible, Renews;
        var d := AnswerOne(cfg, b, c, tsp, e);
        LeadsOn(cfg, c, st, events, b, [e], d);
        RenewsOn(st, b, d, c, s, m, n, o);
        events, b, n := events + [e], d, o;
      }
    }
  }

  /** All but the swap is answered. */
  lemma {:induction false} ReadRest(cfg: Config, st: State, c: nat, tsp: nat, s: nat, m: Message)
    returns (events: seq<Event>, b: State, n: Message)
    requires Driving(cfg, st, c, tsp) && s < cfg.servers && st.clients[c].traffic[s] == Some(m) && |m.slots| == cfg.clients
    ensures LeadsTo(cfg, c, st, events, b) && Driving(cfg, b, c, tsp) && Renews(st, b, c, s, m, n)
    ensures n == m.(slots := n.slots, notified := n.notified) && |n.slots| == |m.slots|
    ensures (n.wantsArray ==> HasAll(n, cfg.clients)) && (n.notifs ==> n.notified)
  {
    events, b, n := [], st, m;
    RenewsSame(st, c, s, m);
    if m.wantsArray { events, b, n := ReadAll(cfg, st, c, tsp, s, m, cfg.clients); }
    if n.notifs && !n.notified {
      var e := Notify(c, s);
      assert Possible(cfg, b, e);
      var o := n.(notified := true);
      hide LeadsTo, Driving, Possible, Renews, HasAll;
      var d := AnswerOne(cfg, b, c, tsp, e);
      LeadsOn(cfg, c, st, events, b, [e], d);
      RenewsOn(st, b, d, c, s, m, n, o);
      assert n.wantsArray ==> HasAll(o, cfg.clients) by { assert forall k :: HasAll(n, k) ==> HasAll(o, k) by { MoreKeepsAll(n, o); } }
      events, b, n := events + [e], d, o;
    }
  }

  lemma {:induction false} MoreKeepsAll(n: Message, o: Message)
    requires o.slots == n.slots
    ensures forall k :: HasAll(n, k) ==> HasAll(o, k)
  {}

  /** b differs from a in that the server has answered m in full, as n. */
  ghost predicate Finishes(a: State, b: State, c: nat, s: nat, m: Message, n: Message) {
    && c < |a.clients| && s < |a.clients[c].traffic| == |a.slots| && a.clients[c].traffic[s] == Some(m) && c < |a.slots[s]|
    && n.Complete() && |n.slots| == |m.slots|
    && n == m.(slots := n.slots, swapback := if m.swaps && m.swapback.None? then Some(a.slots[s][c]) else m.swapback, notified := n.notified)
    && b == a.(slots := a.slots[s := if m.swaps && m.swapback.None? then Swapped(a.slots[s], c, m) else a.slots[s]],
               clients := a.clients[c := WithMessage(a.clients[c], s, n)])
  }

  lemma {:induction false} SwapLast(cfg: Config, st: State, b: State, c: nat, tsp: nat, s: nat, m: Message, n: Message)
    requires Driving(cfg, b, c, tsp) && Renews(st, b, c, s, m, n) && Possible(cfg, b, Swap(c, s)) && |st.slots| == cfg.servers
    requires n == m.(slots := n.slots, notified := n.notified) && |n.slots| == |m.slots| == cfg.clients
    requires n.(swapback := Some(0)).Complete()
    ensures var d := Apply(cfg, b, Swap(c, s));
            Driving(cfg, d, c, tsp) && Finishes(st, d, c, s, m, n.(swapback := Some(st.slots[s][c])))
  {
    StepLiteInv(cfg, b, Swap(c, s));
    var d := Apply(cfg, b, Swap(c, s));
    var o := n.(swapback := Some(st.slots[s][c]));
    hide LiteSide;
    RenewsOn(st, b, d.(slots := st.slots), c, s, m, n, o);
  }

  lemma {:induction false} NoSwapLast(st: State, b: State, c: nat, s: nat, m: Message, n: Message)
    requires Renews(st, b, c, s, m, n) && s < |st.slots| == |st.clients[c].traffic| && c < |st.slots[s]|
    requires n == m.(slots := n.slots, notified := n.notified) && |n.slots| == |m.slots| && n.Complete()
    requires !(m.swaps && m.swapback.None?)
    ensures Finishes(st, b, c, s, m, n)
  {
    assert st.slots[s := st.slots[s]] == st.slots;
  }

  lemma {:induction false} FinishMessage(cfg: Config, st: State, c: nat, tsp: nat, s: nat, m: Message)
    returns (events: seq<Event>, b: State, n: Message)
    requires Driving(cfg, st, c, tsp) && s < cfg.servers && st.clients[c].traffic[s] == Some(m)
    ensures LeadsTo(cfg, c, st, events, b) && Driving(cfg, b, c, tsp) && Finishes(st, b, c, s, m, n)
  {
    assert |m.slots| == cfg.clients;
    events, b, n := ReadRest(cfg, st, c, tsp, s, m);
    if m.swaps && m.swapback.None? {
      var e := Swap(c, s);
      SwapLast(cfg, st, b, c, tsp, s, m, n);
      var d := Apply(cfg, b, e);
      OneEvent(cfg, c, b, e);
      hide LeadsTo;
      LeadsOn(cfg, c, st, events, b, [e], d);
      events, b, n := events + [e], d, n.(swapback := Some(st.slots[s][c]));
    } else {
      NoSwapLast(st, b, c, s, m, n);
    }
  }

  // ---------- a round at one server ----------

  /** How many rounds are left, at most, until the client has seen tsp at a server: it has; the swap that is
      out will tell it so; a swap is out that may fail; or the write has yet to be posted. */
  ghost predicate Near(slots: seq<nat>, c: nat, f: Future, t: Option<Message>, tsp: nat, k: nat)
    requires c < |slots|
  {
    && k <= 3
    && (k == 0 ==> Verified(f.maxSeen) >= tsp)
    && (k == 1 ==> f.ongoing == 0 && t.Some? && t.value.swaps && !Fails(slots, c, t.value))
    && (k == 2 ==> f.next.None? && f.step in {WriteAll, WriteTsAndIn, WriteTs} && f.ongoing == 0 && t.Some? && t.value.swapback.None?)
    && (k == 3 ==> f.next == Some(WriteAll) || f.next == Some(WriteTsAndIn))
  }

  lemma {:induction false} SureSwap(f: Future, m: Message, tsps: seq<nat>, c: nat)
    requires f.ongoing == 0 && 0 < |tsps| && c < |m.slots| && m.swaps && m.swapback == Some(f.Mine())
    ensures Absorb(f, tsps, m, c).maxSeen >= tsps[0]
  {}

  lemma {:induction false} FailedSwap(f: Future, m: Message, tsps: seq<nat>, c: nat, v: nat)
    requires f.ongoing == 0 && 0 < |tsps| && c < |m.slots| && m.swaps && !m.wantsArray && m.swapback == Some(v) && v != f.Mine()
    ensures Absorb(f, tsps, m, c).Mine() == v
  {}

  lemma {:induction false} PostsWrite(f: Future, tsp: nat, clients: nat)
    requires Verified(f.maxSeen) < tsp && (f.next == Some(WriteAll) || f.next == Some(WriteTsAndIn))
    ensures var g := Onward(f, tsp, 0);
            g.maxSeen == f.maxSeen && g.next.None? && g.step in {WriteAll, WriteTsAndIn} && g.ongoing == 0
            && Request(g, tsp, clients).Some? && Request(g, tsp, clients).value.swapback.None?
  {}

  lemma {:induction false} PostsAgain(f: Future, tsp: nat, clients: nat)
    requires Verified(f.maxSeen) < tsp && f.next.None? && f.step in {WriteAll, WriteTsAndIn, WriteTs}
    ensures var g := Onward(f, tsp, 0); var u := Request(g, tsp, clients);
            g.maxSeen == f.maxSeen && g.next.None? && g.step.WriteTs? && g.ongoing == 0
            && u.Some? && u.value.swaps && u.value.swapback.None? && u.value.expected == f.Mine()
  {}

  /** The answer to a message, as the client takes it in. */
  lemma {:induction false} RoundNears(slots: seq<nat>, later: seq<nat>, c: nat, f: Future, t: Option<Message>, n: Option<Message>,
                                      x: Client, tsp: nat, k: nat) returns (j: nat)
    requires c < |slots| == |later| && 0 == x.write < |x.tsps| && x.tsps[0] == tsp && f.ongoing < |x.tsps| && 0 < k
    requires Lite(slots, c, f, t, x) && Near(slots, c, f, t, tsp, k)
    requires t.None? ==> n.None? && later == slots
    requires t.Some? ==>
      && n.Some? && n.value.Complete() && |n.value.slots| == |slots|
      && n.value == t.value.(slots := n.value.slots, notified := n.value.notified,
                             swapback := if t.value.swaps && t.value.swapback.None? then Some(slots[c]) else t.value.swapback)
      && later == if t.value.swaps && t.value.swapback.None? then Swapped(slots, c, t.value) else slots
    ensures var (g, u) := StepOne(f, n, x.tsps, 0, c, |slots|); j < k && Near(later, c, g, u, tsp, j)
  {
    hide MaxOf, Absorb, Onward;
    var a := Taken(f, n, x.tsps, c);
    if Verified(a.maxSeen) >= tsp {
      OnwardKeeps(a, tsp);
      j := 0;
    } else if k == 3 {
      PostsWrite(a, tsp, |slots|);
      j := 2;
    } else if t.value.swapback.None? && slots[c] != t.value.expected && k == 2 {
      FailedSwap(f, n.value, x.tsps, c, slots[c]);
      PostsAgain(a, tsp, |slots|);
      j := 1;
    } else {
      SureSwap(f, n.value, x.tsps, c);
      assert false;
    }
  }

  lemma {:induction false} OnwardKeeps(f: Future, tsp: nat)
    ensures Onward(f, tsp, 0).maxSeen == f.maxSeen
  {}

  /** With no swap out from a read buffer a step touches its own server only. */
  lemma {:induction false} StepPlain(x: Client, s: nat, me: nat, clients: nat)
    requires Shaped(x, |x.futures|, clients) && s < |x.futures| && me < clients && BuffersFree(x) && x.write == 0
    ensures var (g, u) := StepOne(x.futures[s], x.traffic[s], x.tsps, 0, me, clients);
            Stepped(x, s, me, clients) == x.(futures := x.futures[s := g], traffic := x.traffic[s := u])
    ensures BuffersFree(Stepped(x, s, me, clients))
  {
    hide Absorb;
    PostsFromWrite(x.futures[s], x.traffic[s], x.tsps, me, clients);
    hide StepOne;
  }

  lemma {:induction false} PostsFromWrite(f: Future, t: Option<Message>, tsps: seq<nat>, me: nat, clients: nat)
    requires me < clients && (t.Some? ==> |t.value.slots| == clients) && f.ongoing < |tsps| && 0 < |tsps|
    requires t.Some? && t.value.swaps ==> f.ongoing == 0
    ensures var (g, u) := StepOne(f, t, tsps, 0, me, clients); u.Some? && u.value.swaps ==> g.ongoing == 0
  {
    hide Absorb;
  }

  function AllBut(n: nat, s: nat): set<nat> {
    UpTo(n) - {s}
  }

  lemma {:induction false} SweepsOne(x: Client, skip: set<nat>, n: nat, a: nat, me: nat, clients: nat)
    requires Shaped(x, |x.futures|, clients) && a < |x.futures| && n <= |x.futures| && me < clients
    requires forall s :: 0 <= s < |x.futures| ==> (s in skip <==> s != a)
    ensures Sweep(x, skip, n, me, clients) == if n <= a then Swept(x, {}, {}) else SweptOne(Swept(x, {}, {}), a, me, clients)
  {
    hide SweptOne;
    if n > 0 { SweepsOne(x, skip, n - 1, a, me, clients); }
  }

  lemma {:induction false} OneIsNoMajority(x: Client, s: nat, majority: nat, me: nat, clients: nat)
    requires Shaped(x, |x.futures|, clients) && s < |x.futures| && me < clients && x.phase.Writing? && majority > 1
    ensures Forwarded(x, AllBut(|x.futures|, s), majority, me, clients) == Noted(Stepped(x, s, me, clients), s)
  {
    hide Stepped, Noted, Ready;
    SweepsOne(x, AllBut(|x.futures|, s), |x.futures|, s, me, clients);
  }

  ghost predicate Elsewhere(cfg: Config, a: State, b: State, c: nat, s: nat)
    requires WellFormed(cfg, a) && WellFormed(cfg, b) && c < cfg.clients
  {
    forall r :: 0 <= r < cfg.servers && r != s ==>
      b.slots[r] == a.slots[r] && b.clients[c].futures[r] == a.clients[c].futures[r] && b.clients[c].traffic[r] == a.clients[c].traffic[r]
  }

  /** The client polls server s only. */
  lemma {:induction false} ForwardOnly(cfg: Config, st: State, c: nat, tsp: nat, s: nat) returns (e: Event, b: State)
    requires Driving(cfg, st, c, tsp) && s < cfg.servers && cfg.majority > 1
    ensures LeadsTo(cfg, c, st, [e], b) && Driving(cfg, b, c, tsp) && Elsewhere(cfg, st, b, c, s) && b.slots == st.slots
    ensures (b.clients[c].futures[s], b.clients[c].traffic[s])
            == StepOne(st.clients[c].futures[s], st.clients[c].traffic[s], st.clients[c].tsps, 0, c, cfg.clients)
  {
    var x := st.clients[c];
    e := Forward(c, AllBut(cfg.servers, s));
    b := Apply(cfg, st, e);
    StepLiteInv(cfg, st, e);
    OneEvent(cfg, c, st, e);
    hide LiteSide, StepOne, LeadsTo;
    OneIsNoMajority(x, s, cfg.majority, c, cfg.clients);
    StepPlain(x, s, c, cfg.clients);
    hide Stepped;
  }

  lemma {:induction false} RoundAt(cfg: Config, st: State, c: nat, tsp: nat, s: nat, k: nat) returns (events: seq<Event>, b: State, j: nat)
    requires Driving(cfg, st, c, tsp) && s < cfg.servers && cfg.majority > 1
    requires 0 < k && Near(st.slots[s], c, st.clients[c].futures[s], st.clients[c].traffic[s], tsp, k)
    ensures LeadsTo(cfg, c, st, events, b) && Driving(cfg, b, c, tsp) && Elsewhere(cfg, st, b, c, s)
    ensures j < k && Near(b.slots[s], c, b.clients[c].futures[s], b.clients[c].traffic[s], tsp, j)
  {
    var x := st.clients[c];
    assert LiteSide(cfg, st.slots, c, x);
    var f, t := x.futures[s], x.traffic[s];
    assert Lite(st.slots[s], c, f, t, x);
    var d := st;
    events := [];
    assert Elsewhere(cfg, st, d, c, s);
    if t.Some? {
      var n;
      events, d, n := FinishMessage(cfg, st, c, tsp, s, t.value);
    }
    hide Lite, LeadsTo, StepOne, Near, LiteSide;
    j := RoundNears(st.slots[s], d.slots[s], c, f, t, d.clients[c].traffic[s], x, tsp, k);
    var e;
    e, b := ForwardOnly(cfg, d, c, tsp, s);
    LeadsOn(cfg, c, st, events, d, [e], b);
    events := events + [e];
  }
}
