/** A put that no other client disturbs: it finishes, after a bounded number of rounds, and where nothing changed
    since it looked, in one. */
module RegisterAlone {
  import opened Registers
  import opened PutFutures
  import opened RegisterProtocol
  import opened RegisterClients

  predicate Putting(x: Client) {
    x.phase.PutReading? || x.phase.Optimism? || x.phase.Casing?
  }

  predicate Swapping(x: Client) {
    x.phase.Optimism? || x.phase.Casing?
  }

  /** Steps of one client only, in the middle of one put; a step may be its server's. */
  ghost predicate IsAlone(cfg: Config, c: nat, states: seq<State>, events: seq<Event>)
    requires cfg.Valid()
  {
    && |states| == |events| + 1
    && (forall k :: 0 <= k < |states| ==> WellFormed(cfg, states[k]) && c < |states[k].clients|)
    && forall k :: 0 <= k < |events| ==> AloneStep(cfg, c, states[k], events[k], states[k + 1])
  }

  ghost predicate AloneStep(cfg: Config, c: nat, s: State, e: Event, s': State)
    requires cfg.Valid()
  {
    && WellFormed(cfg, s) && e.c == c && Enabled(cfg, s, e) && Putting(s.clients[c]) && s' == Apply(cfg, s, e)
  }

  function Rounds(events: seq<Event>): nat {
    if events == [] then 0
    else Rounds(events[..|events| - 1]) + (if events[|events| - 1].Forward? then 1 else 0)
  }

  lemma {:induction false} LastStep(cfg: Config, c: nat, states: seq<State>, events: seq<Event>)
    requires cfg.Valid() && IsAlone(cfg, c, states, events) && events != []
    ensures var n := |events| - 1;
            && IsAlone(cfg, c, states[..n + 1], events[..n]) && states[..n + 1][n] == states[n]
            && AloneStep(cfg, c, states[n], events[n], states[n + 1]) && WellFormed(cfg, states[n + 1]) && c < |states[n + 1].clients|
            && Rounds(events) == Rounds(events[..n]) + (if events[n].Forward? then 1 else 0)
  {
    hide AloneStep, WellFormed;
  }

  // ---------- what is left to go wrong ----------

  /** What slot i's compare-and-swap found, or is going to find. */
  function Finds(cfg: Config, s: State, c: nat, i: nat): Register
    requires cfg.Valid() && WellFormed(cfg, s) && c < cfg.clients && i < cfg.quorum
  {
    if s.clients[c].flight[i].Out? then s.replicas[cfg.Server(c, i)] else s.clients[c].swaps[i]
  }

  /** From slot b on, every compare-and-swap of the round succeeds; what failed is as it was found. */
  ghost predicate Fits(cfg: Config, s: State, c: nat, b: nat)
    requires cfg.Valid() && WellFormed(cfg, s) && c < cfg.clients
  {
    var x := s.clients[c];
    && x.phase.Casing?
    && (forall i :: b <= i < cfg.quorum && x.data.needs[i] ==> Finds(cfg, s, c, i) == x.data.expected[i])
    && forall i :: 0 <= i < cfg.quorum && x.data.needs[i] && Finds(cfg, s, c, i) != x.data.expected[i] ==>
         s.replicas[cfg.Server(c, i)] == Finds(cfg, s, c, i)
  }

  lemma {:induction false} FitsOn(cfg: Config, c: nat, s: State, e: Event, s': State, b: nat)
    requires cfg.Valid() && c < cfg.clients && AloneStep(cfg, c, s, e, s') && Fits(cfg, s, c, b) && !e.Forward?
    ensures WellFormed(cfg, s') && Fits(cfg, s', c, b)
  {
    Distinct(cfg, c);
    assert forall i :: 0 <= i < cfg.quorum ==> QuorumOf(cfg, c)[i] == cfg.Server(c, i);
  }

  /** A round that fits from slot b on ends the put, or leaves one that fits from an earlier slot on. */
  lemma {:induction false} NextFits(cfg: Config, c: nat, s: State, e: Event, s': State, b: nat) returns (b': nat)
    requires cfg.Valid() && c < cfg.clients && AloneStep(cfg, c, s, e, s') && Fits(cfg, s, c, b) && b <= cfg.quorum && e.Forward?
    ensures WellFormed(cfg, s')
    ensures s'.clients[c].phase.Idle? || (b' < b && Fits(cfg, s', c, b'))
  {
    var x := s.clients[c];
    var bump := FirstBump(x.data, x.swaps);
    b' := if bump < cfg.quorum then bump else 0;
  }

  /** One round on, whatever happened before, every compare-and-swap is yet to come. */
  lemma {:induction false} AnyRound(cfg: Config, c: nat, s: State, e: Event, s': State)
    requires cfg.Valid() && c < cfg.clients && AloneStep(cfg, c, s, e, s') && e.Forward?
    ensures WellFormed(cfg, s') && (s'.clients[c].phase.Idle? || Fits(cfg, s', c, cfg.quorum))
  {}

  lemma {:induction false} StillPutting(cfg: Config, c: nat, s: State, e: Event, s': State)
    requires cfg.Valid() && c < cfg.clients && AloneStep(cfg, c, s, e, s') && !e.Forward?
    ensures WellFormed(cfg, s') && s'.clients[c].phase == s.clients[c].phase
  {}

  /** Left alone from any state on, a put is finished after its current round and at most one more for each slot of
      the quorum and another one. */
  lemma {:induction false} FewRounds(cfg: Config, c: nat, states: seq<State>, events: seq<Event>) returns (b: nat)
    requires cfg.Valid() && c < cfg.clients && IsAlone(cfg, c, states, events)
    ensures var n := |events|; var r := Rounds(events);
            states[n].clients[c].phase.Idle? || r == 0 || (Fits(cfg, states[n], c, b) && b + r <= cfg.quorum + 1)
    ensures states[|events|].clients[c].phase.Idle? ==> Rounds(events) <= cfg.quorum + 2
    decreases |events|
  {
    b := 0;
    if events != [] {
      var n := |events| - 1;
      LastStep(cfg, c, states, events);
      b := FewRounds(cfg, c, states[..n + 1], events[..n]);
      var s, e, s' := states[n], events[n], states[n + 1];
      if !e.Forward? {
        StillPutting(cfg, c, s, e, s');
        if Rounds(events) > 0 { FitsOn(cfg, c, s, e, s', b); }
      } else if Rounds(events[..n]) == 0 {
        AnyRound(cfg, c, s, e, s');
        b := cfg.quorum;
      } else {
        b := NextFits(cfg, c, s, e, s', b);
      }
    }
  }

  // ---------- and nothing else holds it up ----------

  function ToDo(flight: seq<Flight>): (n: nat)
    ensures n <= 2 * |flight|
  {
    if flight == [] then 0
    else ToDo(flight[..|flight| - 1]) + (match flight[|flight| - 1] case Quiet => 0 case Back => 1 case Out => 2)
  }

  lemma {:induction false} LessToDo(flight: seq<Flight>, i: nat, f: Flight)
    requires i < |flight| && ((flight[i].Out? && f.Back?) || (flight[i].Back? && f.Quiet?))
    ensures ToDo(flight[i := f]) == ToDo(flight) - 1
  {
    var n := |flight| - 1;
    if i == n {
      assert flight[i := f][..n] == flight[..n];
    } else {
      assert flight[i := f][..n] == flight[..n][i := f];
      LessToDo(flight[..n], i, f);
    }
  }

  ghost predicate CanGoOn(cfg: Config, s: State, c: nat) {
    exists e: Event :: e.c == c && (e.Execute? || e.Poll? || e.Forward?) && Enabled(cfg, s, e)
  }

  /** A put can always take a step of its own. */
  lemma {:induction false} GoesOn(cfg: Config, s: State, c: nat)
    requires cfg.Valid() && WellFormed(cfg, s) && c < cfg.clients && Putting(s.clients[c])
    ensures CanGoOn(cfg, s, c)
  {
    var x := s.clients[c];
    if x.AllQuiet() {
      assert Enabled(cfg, s, Forward(c));
    } else {
      var i :| 0 <= i < |x.flight| && !x.flight[i].Quiet?;
      assert Enabled(cfg, s, if x.flight[i].Out? then Execute(c, i) else Poll(c, i));
    }
  }

  /** A whole round's executions and polls, and for each round ended its last step and those of the next. */
  function MostSteps(q: nat, rounds: nat): nat {
    if rounds == 0 then 2 * q else MostSteps(q, rounds - 1) + 2 * q + 1
  }

  lemma {:induction false} MostIs(q: nat, rounds: nat)
    ensures MostSteps(q, rounds) == 2 * q + rounds * (2 * q + 1)
  {
    if rounds > 0 {
      MostIs(q, rounds - 1);
      Distribute(rounds - 1, 2 * q + 1);
    }
  }

  /** Between two rounds there is only what was sent to execute and to poll. */
  lemma {:induction false} StepsAreFew(cfg: Config, c: nat, states: seq<State>, events: seq<Event>)
    requires cfg.Valid() && c < cfg.clients && IsAlone(cfg, c, states, events)
    ensures |events| + ToDo(states[|events|].clients[c].flight) <= MostSteps(cfg.quorum, Rounds(events))
    decreases |events|
  {
    if events == [] {
      assert |states[0].clients[c].flight| == cfg.quorum;
    } else {
      var n := |events| - 1;
      LastStep(cfg, c, states, events);
      StepsAreFew(cfg, c, states[..n + 1], events[..n]);
      OneStep(cfg, c, states[n], events[n], states[n + 1]);
      hide IsAlone, AloneStep, ToDo, WellFormed;
    }
  }

  lemma {:induction false} OneStep(cfg: Config, c: nat, s: State, e: Event, s': State)
    requires cfg.Valid() && c < cfg.clients && AloneStep(cfg, c, s, e, s')
    ensures WellFormed(cfg, s') && ToDo(s'.clients[c].flight) <= 2 * cfg.quorum
    ensures !e.Forward? ==> ToDo(s'.clients[c].flight) == ToDo(s.clients[c].flight) - 1
  {
    var x := s.clients[c];
    match e
    case Execute(_, i) => LessToDo(x.flight, i, Back);
    case Poll(_, i) => LessToDo(x.flight, i, Quiet);
    case Forward(_) =>
  }

  /** Left alone from any state on, a put is finished after a bounded number of steps, and until then it can take one. */
  lemma {:induction false} LeftAloneFinishes(cfg: Config, c: nat, states: seq<State>, events: seq<Event>)
    requires cfg.Valid() && c < cfg.clients && IsAlone(cfg, c, states, events)
    ensures Rounds(events) <= cfg.quorum + 2
    ensures |events| <= 2 * cfg.quorum + (cfg.quorum + 2) * (2 * cfg.quorum + 1)
    ensures Rounds(events) == cfg.quorum + 2 ==> states[|events|].clients[c].phase.Idle?
    ensures Putting(states[|events|].clients[c]) ==> CanGoOn(cfg, states[|events|], c)
  {
    hide Rounds, Fits, ToDo, MostSteps, CanGoOn, Putting, AloneStep, WellFormed;
    assert WellFormed(cfg, states[|events|]) && c < |states[|events|].clients|;
    hide IsAlone;
    var b := FewRounds(cfg, c, states, events);
    StepsAreFew(cfg, c, states, events);
    MostIs(cfg.quorum, Rounds(events));
    if Putting(states[|events|].clients[c]) { GoesOn(cfg, states[|events|], c); }
    Times(Rounds(events), cfg.quorum + 2, 2 * cfg.quorum + 1);
  }

  lemma {:induction false} Distribute(r: nat, m: nat)
    ensures (r + 1) * m == r * m + m
  {}

  lemma {:induction false} Times(a: nat, b: nat, m: nat)
    ensures a <= b ==> a * m <= b * m
  {}

  // ---------- where nothing changed since the put looked ----------

  /** Every slot of the quorum is asked, and what was or will be found there is what is expected; what was asked holds
      the target. */
  ghost predicate Taking(cfg: Config, s: State, c: nat)
    requires cfg.Valid() && WellFormed(cfg, s) && c < cfg.clients
  {
    var x := s.clients[c];
    && Swapping(x)
    && forall i :: 0 <= i < cfg.quorum ==>
         && x.data.needs[i] && Finds(cfg, s, c, i) == x.data.expected[i]
         && (!x.flight[i].Out? ==> s.replicas[cfg.Server(c, i)] == x.data.target)
  }

  /** The put is done, and its whole quorum holds what it installed. */
  ghost predicate Took(cfg: Config, s: State, c: nat, target: Register)
    requires cfg.Valid() && WellFormed(cfg, s) && c < cfg.clients
  {
    && s.clients[c].phase.Idle?
    && (cfg.cacheOn ==> s.clients[c].cache == Some(target))
    && forall i :: 0 <= i < cfg.quorum ==> s.replicas[cfg.Server(c, i)] == target
  }

  /** A put whose answers are in, and at whose quorum nothing changed since, goes on to take it in one round, one above
      the greatest number there. */
  lemma {:induction false} FreshReads(cfg: Config, s: State, c: nat)
    requires cfg.Valid() && WellFormed(cfg, s) && c < cfg.clients && s.clients[c].phase.PutReading? && s.clients[c].AllQuiet()
    requires forall i :: 0 <= i < cfg.quorum ==> s.clients[c].got[i] == s.replicas[cfg.Server(c, i)]
    ensures var s' := Apply(cfg, s, Forward(c)); var t := s'.clients[c].data.target;
            && WellFormed(cfg, s') && Taking(cfg, s', c) && t.value == s.clients[c].data.value && t.clientId == c
            && ((forall i :: 0 <= i < cfg.quorum ==> s.replicas[cfg.Server(c, i)].num < SEQ_LIMIT - 1) ==>
                  && (forall i :: 0 <= i < cfg.quorum ==> s.replicas[cfg.Server(c, i)].num < t.num)
                  && exists i :: 0 <= i < cfg.quorum && t.num == s.replicas[cfg.Server(c, i)].num + 1)
  {
    var x := s.clients[c];
    assert AfterReads(c, x.data.value, x.got).needs[0];
    assert MaxSeq(x.got) == 0 ==> x.got[0].num == 0;
    hide MaxSeq;
  }

  /** A put that starts from a cached register which all of its quorum holds takes it in one round. */
  lemma {:induction false} FreshCache(cfg: Config, s: State, c: nat, v: nat)
    requires cfg.Valid() && WellFormed(cfg, s) && c < cfg.clients && s.clients[c].phase.Idle? && s.clients[c].cache.Some?
    requires forall i :: 0 <= i < cfg.quorum ==> s.clients[c].cache.value == s.replicas[cfg.Server(c, i)]
    ensures var s' := Apply(cfg, s, StartPut(c, v)); var cached := s.clients[c].cache.value;
            && WellFormed(cfg, s') && Taking(cfg, s', c)
            && (cached.num < SEQ_LIMIT - 1 ==> s'.clients[c].data.target == Register(cached.num + 1, c, v))
  {}

  lemma {:induction false} TakingOn(cfg: Config, c: nat, s: State, e: Event, s': State)
    requires cfg.Valid() && c < cfg.clients && AloneStep(cfg, c, s, e, s') && Taking(cfg, s, c) && !e.Forward?
    ensures WellFormed(cfg, s') && Taking(cfg, s', c) && s'.clients[c].data == s.clients[c].data
  {
    Distinct(cfg, c);
    assert forall i :: 0 <= i < cfg.quorum ==> QuorumOf(cfg, c)[i] == cfg.Server(c, i);
  }

  lemma {:induction false} TakingEnds(cfg: Config, c: nat, s: State, e: Event, s': State)
    requires cfg.Valid() && c < cfg.clients && AloneStep(cfg, c, s, e, s') && Taking(cfg, s, c) && e.Forward?
    ensures WellFormed(cfg, s') && Took(cfg, s', c, s.clients[c].data.target)
  {
    FailuresAre(s.clients[c].data, s.clients[c].swaps, cfg.quorum);
  }

  /** It does so whatever the order in which its requests are executed and polled, unless somebody else interferes. */
  lemma {:induction false} OneRoundTakes(cfg: Config, c: nat, states: seq<State>, events: seq<Event>)
    requires cfg.Valid() && c < cfg.clients && IsAlone(cfg, c, states, events) && Taking(cfg, states[0], c)
    ensures var s := states[|events|]; var target := states[0].clients[c].data.target;
            if Rounds(events) == 0 then Taking(cfg, s, c) && s.clients[c].data.target == target else Took(cfg, s, c, target)
    decreases |events|
  {
    if events != [] {
      var n := |events| - 1;
      LastStep(cfg, c, states, events);
      OneRoundTakes(cfg, c, states[..n + 1], events[..n]);
      if events[n].Forward? { TakingEnds(cfg, c, states[n], events[n], states[n + 1]); }
      else { TakingOn(cfg, c, states[n], events[n], states[n + 1]); }
    }
  }
}
