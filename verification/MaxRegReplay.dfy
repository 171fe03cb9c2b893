/** Replaying a concrete run, one event and one polled server at a time. */
module MaxRegReplay {
  import opened Registers
  import opened Sets
  import opened MaxReg
  import opened MaxRegProtocol
  import opened MaxRegDrive
  import opened MaxRegExact

  /** A run by the rules leads from the start to st. */
  ghost predicate Reachable(cfg: Config, inPlace: seq<seq<bool>>, st: State) {
    exists states: seq<State>, events: seq<Event> :: IsRun(cfg, inPlace, states, events) && states[|events|] == st
  }

  /** The events lead from a to b, every operation started by the rules. */
  ghost predicate Continues(cfg: Config, a: State, events: seq<Event>, b: State)
    decreases |events|
  {
    if events == [] then a == b
    else
      && WellFormed(cfg, a) && Possible(cfg, a, events[0]) && Allowed(cfg, a, events[0])
      && Continues(cfg, Apply(cfg, a, events[0]), events[1..], b)
  }

  ghost predicate Leads(cfg: Config, a: State, b: State) {
    exists events: seq<Event> :: Continues(cfg, a, events, b)
  }

  /** Although it starts nothing more against the rules, client c comes to report what no majority holds. */
  ghost predicate Misled(cfg: Config, a: State, c: nat) {
    exists b: State, skip: set<nat> :: Leads(cfg, a, b) && c < |b.goals| && Misreports(cfg, b, c, skip, b.goals[c])
  }

  // ---------- one event ----------

  function Cas(expected: nat, value: nat, clients: nat, back: Option<nat>): Option<Message> {
    Some(Message(false, true, false, expected, value, Unread(clients), back, false))
  }

  function Look(expected: nat, value: nat, slots: seq<Option<nat>>): Option<Message> {
    Some(Message(true, false, false, expected, value, slots, None, false))
  }

  /** Answers arrived: the servers hold these slots and this is out from client c. */
  ghost function With(st: State, slots: seq<seq<nat>>, c: nat, traffic: seq<Option<Message>>): State
    requires c < |st.clients|
  {
    st.(slots := slots, clients := st.clients[c := st.clients[c].(traffic := traffic)])
  }

  ghost predicate AlikeClient(x: Client, y: Client) {
    && |x.futures| == |y.futures| && (forall s :: 0 <= s < |x.futures| ==> x.futures[s] == y.futures[s])
    && |x.traffic| == |y.traffic| && (forall s :: 0 <= s < |x.traffic| ==> x.traffic[s] == y.traffic[s])
    && x.tsps == y.tsps && x == y.(futures := x.futures, traffic := x.traffic, tsps := x.tsps)
  }

  ghost predicate Alike(a: State, b: State) {
    && |a.slots| == |b.slots| && (forall s :: 0 <= s < |a.slots| ==> a.slots[s] == b.slots[s])
    && |a.clients| == |b.clients| && (forall c :: 0 <= c < |a.clients| ==> AlikeClient(a.clients[c], b.clients[c]))
    && a.goals == b.goals && |a.bases| == |b.bases|
    && forall c :: 0 <= c < |a.bases| ==> AlikeSlots(a.bases[c], b.bases[c])
  }

  ghost predicate AlikeSlots(a: seq<seq<nat>>, b: seq<seq<nat>>) {
    |a| == |b| && forall s :: 0 <= s < |a| ==> a[s] == b[s]
  }

  ghost predicate Goes(cfg: Config, st: State, e: Event, st': State) {
    WellFormed(cfg, st) && Possible(cfg, st, e) && Alike(Apply(cfg, st, e), st')
  }

  lemma {:induction false} AlikeSame(a: State, b: State)
    requires Alike(a, b)
    ensures a == b
  {
    forall c | 0 <= c < |a.clients| ensures a.clients[c] == b.clients[c] { assert AlikeClient(a.clients[c], b.clients[c]); }
    forall c | 0 <= c < |a.bases| ensures a.bases[c] == b.bases[c] { assert AlikeSlots(a.bases[c], b.bases[c]); }
    assert a.slots == b.slots && a.clients == b.clients && a.bases == b.bases;
  }

  lemma {:induction false} GoesTo(cfg: Config, st: State, e: Event, st': State)
    requires Goes(cfg, st, e, st')
    ensures WellFormed(cfg, st) && Possible(cfg, st, e) && Apply(cfg, st, e) == st'
  {
    hide Alike;
    AlikeSame(Apply(cfg, st, e), st');
  }

  lemma {:induction false} Starts(cfg: Config, inPlace: seq<seq<bool>>)
    requires cfg.servers > 0 && |inPlace| == cfg.clients && forall c :: 0 <= c < cfg.clients ==> |inPlace[c]| == cfg.servers
    ensures Reachable(cfg, inPlace, Init(cfg, inPlace))
  {
    var st := Init(cfg, inPlace);
    var events: seq<Event> := [];
    assert IsRun(cfg, inPlace, [st], events);
    assert [st][|events|] == st;
  }

  lemma {:induction false} Extends(cfg: Config, inPlace: seq<seq<bool>>, states: seq<State>, events: seq<Event>, e: Event, st': State)
    requires IsRun(cfg, inPlace, states, events) && IsStep(cfg, states[|events|], e, st') && RuleKept(cfg, states[|events|], e)
    ensures IsRun(cfg, inPlace, states + [st'], events + [e])
  {
    hide RuleKept, Apply, Possible, WellFormed, Init;
    var more, later := states + [st'], events + [e];
    forall k | 0 <= k < |later| ensures IsStep(cfg, more[k], later[k], more[k + 1]) && RuleKept(cfg, more[k], later[k]) {
      if k < |events| { assert IsStep(cfg, states[k], events[k], states[k + 1]) && RuleKept(cfg, states[k], events[k]); }
    }
  }

  lemma {:induction false} Reaches(cfg: Config, inPlace: seq<seq<bool>>, st: State, e: Event, st': State)
    requires Reachable(cfg, inPlace, st) && Goes(cfg, st, e, st') && (e.Start? ==> RuleKept(cfg, st, e))
    ensures Reachable(cfg, inPlace, st')
  {
    GoesTo(cfg, st, e, st');
    assert RuleKept(cfg, st, e);
    hide RuleKept, Apply, Possible, WellFormed, Init, Goes;
    var states: seq<State>, events: seq<Event> :| IsRun(cfg, inPlace, states, events) && states[|events|] == st;
    Extends(cfg, inPlace, states, events, e, st');
  }

  lemma {:induction false} LeadsHere(cfg: Config, a: State)
    ensures Leads(cfg, a, a)
  {
    assert Continues(cfg, a, [], a);
  }

  lemma {:induction false} LeadsFurther(cfg: Config, a: State, b: State, e: Event, d: State)
    requires Leads(cfg, a, b) && Goes(cfg, b, e, d) && (e.Start? ==> RuleKept(cfg, b, e))
    ensures Leads(cfg, a, d)
  {
    hide Goes, RuleKept;
    var events: seq<Event> :| Continues(cfg, a, events, b);
    ContinuesOn(cfg, a, events, b, e, d);
  }

  lemma {:induction false} ContinuesOn(cfg: Config, a: State, events: seq<Event>, b: State, e: Event, d: State)
    requires Continues(cfg, a, events, b) && Goes(cfg, b, e, d) && (e.Start? ==> RuleKept(cfg, b, e))
    ensures Continues(cfg, a, events + [e], d)
    decreases |events|
  {
    if events == [] {
      assert RuleKept(cfg, b, e);
      hide Allowed, Apply, Possible, WellFormed, Alike;
      AlikeSame(Apply(cfg, b, e), d);
      assert ([] + [e])[1..] == [];
      assert Continues(cfg, d, [], d);
    } else {
      hide Goes, WellFormed, Possible, Allowed, Apply, RuleKept;
      ContinuesOn(cfg, Apply(cfg, a, events[0]), events[1..], b, e, d);
      assert (events + [e])[1..] == events[1..] + [e];
    }
  }

  // ---------- one poll ----------

  /** Polling server s makes x into y; ready and done say how the server is counted. */
  ghost predicate Polls(x: Client, s: nat, me: nat, clients: nat, y: Client, ready: bool, done: bool) {
    && Shaped(x, |x.futures|, clients) && s < |x.futures| && me < clients
    && var z := Stepped(x, s, me, clients);
       AlikeClient(Noted(z, s), y) && Ready(z, s) == ready && z.futures[s].IsDone() == done
  }

  lemma {:induction false} PollIs(w: Swept, s: nat, me: nat, clients: nat, y: Client, ready: bool, done: bool)
    requires Polls(w.x, s, me, clients, y, ready, done)
    ensures SweptOne(w, s, me, clients)
            == Swept(y, if ready then w.ready + {s} else w.ready, if done then w.done + {s} else w.done)
  {
    var z := Noted(Stepped(w.x, s, me, clients), s);
    hide Stepped, Noted;
    assert z.futures == y.futures && z.traffic == y.traffic;
  }

  lemma {:induction false} SweepsTwo(x: Client, skip: set<nat>, n: nat, a: nat, b: nat, me: nat, clients: nat)
    requires Shaped(x, |x.futures|, clients) && a < b < |x.futures| && n <= |x.futures| && me < clients
    requires forall s :: 0 <= s < |x.futures| ==> (s in skip <==> s != a && s != b)
    ensures var first := SweptOne(Swept(x, {}, {}), a, me, clients);
            Sweep(x, skip, n, me, clients)
            == if n <= a then Swept(x, {}, {}) else if n <= b then first else SweptOne(first, b, me, clients)
  {
    hide SweptOne;
    if n > 0 { SweepsTwo(x, skip, n - 1, a, b, me, clients); }
  }

  /** A poll of one server concludes nothing. */
  lemma {:induction false} OnePolled(x: Client, skip: set<nat>, a: nat, me: nat, clients: nat, y: Client, ready: bool, done: bool)
    requires Polls(x, a, me, clients, y, ready, done) && !x.phase.Finished?
    requires forall s :: 0 <= s < |x.futures| ==> (s in skip <==> s != a)
    ensures Forwarded(x, skip, 2, me, clients) == y
  {
    SweepsOne(x, skip, |x.futures|, a, me, clients);
    PollIs(Swept(x, {}, {}), a, me, clients, y, ready, done);
    hide Polls, SweptOne, Sweep;
  }

  /** What a poll of two servers makes of the operation, when two are a majority. */
  function Outcome(z: Client, ready: bool, done: bool): Client
    requires z.write < |z.tsps|
  {
    if !ready then z else if z.phase.Writing? && !done then z.(phase := Linearized) else MarkedDone(z.(phase := Finished))
  }

  lemma {:induction false} TwoPolled(x: Client, skip: set<nat>, a: nat, b: nat, me: nat, clients: nat, y: Client, z: Client,
                                     ready: seq<bool>, done: seq<bool>)
    requires a < b && |ready| == |done| == 2 && !x.phase.Finished? && z.write < |z.tsps|
    requires Polls(x, a, me, clients, y, ready[0], done[0]) && |y.futures| == |x.futures| && Polls(y, b, me, clients, z, ready[1], done[1])
    requires forall s :: 0 <= s < |x.futures| ==> (s in skip <==> s != a && s != b)
    ensures Forwarded(x, skip, 2, me, clients) == Outcome(z, ready[0] && ready[1], done[0] && done[1])
  {
    assert b < |x.futures|;
    SweepsTwo(x, skip, |x.futures|, a, b, me, clients);
    var w := Swept(x, {}, {});
    PollIs(w, a, me, clients, y, ready[0], done[0]);
    var v := SweptOne(w, a, me, clients);
    PollIs(v, b, me, clients, z, ready[1], done[1]);
    hide Polls, SweptOne, MarkedDone;
    var u := Sweep(x, skip, |x.futures|, me, clients);
    hide Sweep;
    assert u.ready == (if ready[0] then {a} else {}) + (if ready[1] then {b} else {});
    assert u.done == (if done[0] then {a} else {}) + (if done[1] then {b} else {});
    assert u.x == z;
  }

  /** Two done servers are a majority: nothing is left to be written anywhere. */
  lemma {:induction false} TwoDone(x: Client, skip: set<nat>, a: nat, b: nat, me: nat, clients: nat, y: Client, z: Client, end: Client)
    requires a < b && !x.phase.Finished? && z.write < |z.tsps|
    requires Polls(x, a, me, clients, y, true, true) && |y.futures| == |x.futures| && Polls(y, b, me, clients, z, true, true)
    requires forall s :: 0 <= s < |x.futures| ==> (s in skip <==> s != a && s != b)
    requires end == z.(phase := Finished, futures := end.futures) && |end.futures| == |z.futures|
    requires forall s :: 0 <= s < |z.futures| ==> end.futures[s] == z.futures[s].(next := Some(Done))
    ensures Forwarded(x, skip, 2, me, clients) == end
  {
    TwoPolled(x, skip, a, b, me, clients, y, z, [true, true], [true, true]);
    hide Polls, Forwarded;
    assert MarkedDone(z.(phase := Finished)).futures == end.futures;
  }
}
