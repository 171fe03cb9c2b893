/** A run in which a put is done although one replica of its quorum never took its final register. */
module RegisterSkip {
  import opened Registers
  import opened Sets
  import opened RegisterProtocol
  import opened RegisterTheorems
  import opened RegisterFinish

  const TWO := Config(2, 2, 2, false, false)

  ghost predicate IsRunTo(states: seq<State>, events: seq<Event>, s: State) {
    IsRun(TWO, states, events) && states[|events|] == s
  }

  ghost predicate Reachable(s: State) {
    exists states: seq<State>, events: seq<Event> :: IsRunTo(states, events, s)
  }

  lemma {:induction false} Extends(states: seq<State>, events: seq<Event>, s: State, e: Event)
    requires IsRunTo(states, events, s) && WellFormed(TWO, s) && Enabled(TWO, s, e) && Room(Apply(TWO, s, e))
    ensures IsRunTo(states + [Apply(TWO, s, e)], events + [e], Apply(TWO, s, e))
  {
    hide Apply, Enabled, WellFormed, Init, Room;
    var more, later := states + [Apply(TWO, s, e)], events + [e];
    forall k | 0 <= k < |later| ensures IsStep(TWO, more[k], later[k], more[k + 1]) {
      if k < |events| { assert IsStep(TWO, states[k], events[k], states[k + 1]); }
    }
  }

  lemma {:induction false} Reaches(s: State, e: Event)
    requires Reachable(s) && WellFormed(TWO, s) && Enabled(TWO, s, e) && Room(Apply(TWO, s, e))
    ensures Reachable(Apply(TWO, s, e))
  {
    hide IsRunTo, Apply, Enabled, WellFormed, Room;
    var states: seq<State>, events: seq<Event> :| IsRunTo(states, events, s);
    Extends(states, events, s, e);
  }

  ghost predicate AlikeClient(x: Client, y: Client) {
    && x.data.needs == y.data.needs && x.data.expected == y.data.expected && x.flight == y.flight
    && x.got == y.got && x.swaps == y.swaps
    && x == y.(data := y.data.(needs := x.data.needs, expected := x.data.expected),
               flight := x.flight, got := x.got, swaps := x.swaps)
  }

  ghost predicate Alike(a: State, b: State) {
    && a.replicas == b.replicas && a.issued == b.issued && |a.clients| == |b.clients|
    && forall c :: 0 <= c < |a.clients| ==> AlikeClient(a.clients[c], b.clients[c])
  }

  lemma {:induction false} AlikeSame(a: State, b: State)
    requires Alike(a, b)
    ensures a == b
  {
    forall c | 0 <= c < |a.clients| ensures a.clients[c] == b.clients[c] { assert AlikeClient(a.clients[c], b.clients[c]); }
    assert a.clients == b.clients;
  }

  lemma {:induction false} Arrives(s: State, e: Event, t: State)
    requires Reachable(s) && WellFormed(TWO, s) && Enabled(TWO, s, e) && Alike(Apply(TWO, s, e), t) && Room(t)
    ensures Reachable(t)
  {
    hide Reachable, Apply, Enabled, WellFormed, Alike, Room;
    AlikeSame(Apply(TWO, s, e), t);
    Reaches(s, e);
  }

  // ---------- the run ----------

  const A := Register(1, 0, 7)
  const B := Register(1, 1, 8)
  const T := Register(2, 0, 7)
  function Zeros(): seq<Register> { [ZERO, ZERO] }

  function Resting(): Client {
    Client(Idle, PutData(0, [false, false], Zeros(), ZERO), [Quiet, Quiet], Zeros(), Zeros(), ZERO, None, 0, 0)
  }

  function Asks(v: nat, f: Flight): Client {
    Client(PutReading, PutData(v, [false, false], Zeros(), ZERO), [f, f], Zeros(), Zeros(), ZERO, None, 0, 0)
  }

  function Tries(r: Register, f: Flight, swaps: seq<Register>): Client {
    Client(Casing, PutData(r.value, [true, true], Zeros(), r), [f, f], Zeros(), swaps, ZERO, None, 0, 0)
  }

  function Retries(f: Flight): Client {
    Client(Casing, PutData(7, [true, false], [B, B], T), [f, Quiet], Zeros(), [B, B], ZERO, None, 0, 0)
  }

  function Done(): Client {
    Client(Idle, PutData(7, [false, false], [B, B], T), [Quiet, Quiet], Zeros(), [B, B], ZERO, None, 1, 2)
  }

  function S0(): State { State(Zeros(), [Resting(), Resting()], map[]) }
  function S1(): State { State(Zeros(), [Asks(7, Out), Resting()], map[]) }
  function S2(): State { State(Zeros(), [Asks(7, Quiet), Resting()], map[]) }
  function S3(): State { State(Zeros(), [Tries(A, Out, Zeros()), Resting()], map[A := 0]) }
  function S4(): State { State(Zeros(), [Tries(A, Out, Zeros()), Asks(8, Out)], map[A := 0]) }
  function S5(): State { State(Zeros(), [Tries(A, Out, Zeros()), Asks(8, Quiet)], map[A := 0]) }
  function S6(): State { State(Zeros(), [Tries(A, Out, Zeros()), Tries(B, Out, Zeros())], map[A := 0, B := 0]) }
  function S7(): State { State([B, B], [Tries(A, Out, Zeros()), Tries(B, Back, Zeros())], map[A := 0, B := 0]) }
  function S8(): State { State([B, B], [Tries(A, Quiet, [B, B]), Tries(B, Back, Zeros())], map[A := 0, B := 0]) }
  function S9(): State { State([B, B], [Retries(Out), Tries(B, Back, Zeros())], map[A := 0, B := 0, T := 0]) }
  function S10(): State { State([T, B], [Retries(Quiet), Tries(B, Back, Zeros())], map[A := 0, B := 0, T := 0]) }
  function S11(): State { State([T, B], [Done(), Tries(B, Back, Zeros())], map[A := 0, B := 0, T := 0]) }

  lemma {:induction false} Begins() ensures Reachable(S0()) {
    AlikeSame(Init(TWO), S0());
    var events: seq<Event> := [];
    assert IsRunTo([S0()], events, S0());
  }

  lemma {:induction false} Asked0() requires Reachable(S0()) ensures Reachable(S1()) {
    hide Reachable;
    Arrives(S0(), StartPut(0, 7), S1());
  }

  lemma {:induction false} Read0() requires Reachable(S1()) ensures Reachable(S2()) {
    hide Reachable;
    Reaches(S1(), Execute(0, 0));
    var a := Apply(TWO, S1(), Execute(0, 0));
    Reaches(a, Execute(0, 1));
    var b := Apply(TWO, a, Execute(0, 1));
    Reaches(b, Poll(0, 0));
    Arrives(Apply(TWO, b, Poll(0, 0)), Poll(0, 1), S2());
  }

  lemma {:induction false} Aimed0() requires Reachable(S2()) ensures Reachable(S3()) {
    hide Reachable;
    assert MaxSeq(Zeros()) == 0;
    assert AfterReads(0, 7, Zeros()).needs[0];
    Arrives(S2(), Forward(0), S3());
  }

  lemma {:induction false} Asked1() requires Reachable(S3()) ensures Reachable(S4()) {
    hide Reachable;
    Arrives(S3(), StartPut(1, 8), S4());
  }

  lemma {:induction false} Read1() requires Reachable(S4()) ensures Reachable(S5()) {
    hide Reachable;
    Reaches(S4(), Execute(1, 0));
    var a := Apply(TWO, S4(), Execute(1, 0));
    Reaches(a, Execute(1, 1));
    var b := Apply(TWO, a, Execute(1, 1));
    Reaches(b, Poll(1, 0));
    Arrives(Apply(TWO, b, Poll(1, 0)), Poll(1, 1), S5());
  }

  lemma {:induction false} Aimed1() requires Reachable(S5()) ensures Reachable(S6()) {
    hide Reachable;
    assert MaxSeq(Zeros()) == 0;
    assert AfterReads(1, 8, Zeros()).needs[0];
    Arrives(S5(), Forward(1), S6());
  }

  /** Client 1's swaps both succeed. */
  lemma {:induction false} Swapped1() requires Reachable(S6()) ensures Reachable(S7()) {
    hide Reachable;
    Reaches(S6(), Execute(1, 0));
    Arrives(Apply(TWO, S6(), Execute(1, 0)), Execute(1, 1), S7());
  }

  /** Client 0's swaps both fail. */
  lemma {:induction false} Failed0() requires Reachable(S7()) ensures Reachable(S8()) {
    hide Reachable;
    Reaches(S7(), Execute(0, 0));
    var a := Apply(TWO, S7(), Execute(0, 0));
    Reaches(a, Execute(0, 1));
    var b := Apply(TWO, a, Execute(0, 1));
    Reaches(b, Poll(0, 0));
    Arrives(Apply(TWO, b, Poll(0, 0)), Poll(0, 1), S8());
  }

  /** The first failure raises the target and the second slot is ticked off. */
  lemma {:induction false} Bumped0() requires Reachable(S8()) ensures Reachable(S9()) {
    hide Reachable;
    var x := S8().clients[0];
    assert Bumps(x.data, x.swaps, 0);
    assert FirstBump(x.data, x.swaps) == 0;
    assert AfterCas(0, x.data, x.swaps).needs[0];
    Arrives(S8(), Forward(0), S9());
  }

  lemma {:induction false} Swapped0() requires Reachable(S9()) ensures Reachable(S10()) {
    hide Reachable;
    Reaches(S9(), Execute(0, 0));
    Arrives(Apply(TWO, S9(), Execute(0, 0)), Poll(0, 0), S10());
  }

  lemma {:induction false} Finishes()
    ensures WellFormed(TWO, S10()) && Enabled(TWO, S10(), Forward(0)) && Apply(TWO, S10(), Forward(0)) == S11() && Room(S11())
  {
    var x := S10().clients[0];
    assert FirstBump(x.data, x.swaps) == 2 by { assert !Bumps(x.data, x.swaps, 0) && !Bumps(x.data, x.swaps, 1); }
    assert Alike(Apply(TWO, S10(), Forward(0)), S11());
    AlikeSame(Apply(TWO, S10(), Forward(0)), S11());
  }

  /** A run ends with client 0's put done at target T, while the replica of its second slot holds B, below T,
      and has never taken T. */
  lemma {:induction false} SkippedSlotDone() returns (states: seq<State>, events: seq<Event>)
    ensures |events| > 0 && IsRun(TWO, states, events) && events[|events| - 1] == Forward(0)
    ensures states[|events| - 1] == S10() && states[|events|] == S11() && S11().clients[0].puts > S10().clients[0].puts
    ensures S11().replicas[TWO.Server(0, 1)].num < S11().clients[0].data.target.num
    ensures 1 !in Taken(TWO, states, events, |events| - 1, 0) && !FullySet(TWO, states, events, |events| - 1, 0)
  {
    Begins(); Asked0(); Read0(); Aimed0(); Asked1(); Read1(); Aimed1(); Swapped1(); Failed0(); Bumped0(); Swapped0(); Finishes();
    var before, was :| IsRunTo(before, was, S10());
    Extends(before, was, S10(), Forward(0));
    states, events := before + [S11()], was + [Forward(0)];
    NeverTook(states, events);
  }

  lemma {:induction false} NeverTook(states: seq<State>, events: seq<Event>)
    requires |events| > 0 && IsRun(TWO, states, events) && events[|events| - 1] == Forward(0)
    requires states[|events| - 1] == S10() && states[|events|] == S11()
    ensures 1 !in Taken(TWO, states, events, |events| - 1, 0) && !FullySet(TWO, states, events, |events| - 1, 0)
  {
    hide Taken, FullySet, IsRun, Apply;
    assert WellFormed(TWO, S10()) && WellFormed(TWO, S11());
    DoneMeansSwapped(TWO, states, events, |events| - 1, 0);
    if 1 in Taken(TWO, states, events, |events| - 1, 0) { TakenHolds(TWO, states, events, |events| - 1, 0, 1); }
  }
}
