/** What a put that is done has left at the replicas of its quorum. */
module RegisterFinish {
  import opened Registers
  import opened Sets
  import opened RegisterProtocol
  import opened RegisterSafety
  import opened RegisterSteps
  import opened RegisterTheorems

  /** The event gives client c's put the register it now tries to install: its own guess from the cache, one above
      what the reads found, or one above what a failed swap found. */
  ghost predicate SetsTarget(cfg: Config, s: State, e: Event, c: nat)
    requires c < |s.clients| && Shaped(cfg, s.clients[c])
  {
    var x := s.clients[c];
    && e.c == c
    && match e
       case StartPut(_, _) => x.cache.Some?
       case Forward(_) =>
         || x.phase.PutReading?
         || (x.phase.Optimism? && Failures(x.data, x.swaps, cfg.quorum) != [])
         || (x.phase.Casing? && FirstBump(x.data, x.swaps) < cfg.quorum)
       case _ => false
  }

  /** The event sets the target and leaves every slot still to be swapped to it: there is nothing to keep from
      a guess or from reads; of an optimistic round nothing succeeded; of a later round the last slot bumped. */
  ghost predicate SetsFully(cfg: Config, s: State, e: Event, c: nat)
    requires c < |s.clients| && Shaped(cfg, s.clients[c])
  {
    var x := s.clients[c];
    match e
    case StartPut(_, _) => true
    case _ =>
      match x.phase
      case Optimism => forall i :: 0 <= i < cfg.quorum ==> x.swaps[i] != x.data.expected[i]
      case Casing => FirstBump(x.data, x.swaps) == cfg.quorum - 1
      case _ => true
  }

  /** A server executes a swap of client c's put, and it succeeds. */
  ghost predicate Swaps(cfg: Config, s: State, e: Event, c: nat)
    requires cfg.Valid() && WellFormed(cfg, s) && c < |s.clients|
  {
    var x := s.clients[c];
    && e.c == c && e.Execute? && e.slot < cfg.quorum && (x.phase.Optimism? || x.phase.Casing?)
    && s.replicas[cfg.Server(c, e.slot)] == x.data.expected[e.slot]
  }

  /** The slots whose replicas have taken client c's target since it was last set. */
  ghost function Taken(cfg: Config, states: seq<State>, events: seq<Event>, k: nat, c: nat): set<nat>
    requires cfg.Valid() && IsRun(cfg, states, events) && k <= |events| && c < cfg.clients
  {
    if k == 0 then {}
    else
      assert IsStep(cfg, states[k - 1], events[k - 1], states[k]);
      if SetsTarget(cfg, states[k - 1], events[k - 1], c) then {}
      else Taken(cfg, states, events, k - 1, c)
           + if Swaps(cfg, states[k - 1], events[k - 1], c) then {events[k - 1].slot} else {}
  }

  /** Whether the event that last set client c's target left every slot to be swapped to it. */
  ghost predicate FullySet(cfg: Config, states: seq<State>, events: seq<Event>, k: nat, c: nat)
    requires cfg.Valid() && IsRun(cfg, states, events) && k <= |events| && c < cfg.clients
  {
    && k > 0
    && (assert IsStep(cfg, states[k - 1], events[k - 1], states[k]);
        if SetsTarget(cfg, states[k - 1], events[k - 1], c) then SetsFully(cfg, states[k - 1], events[k - 1], c)
        else FullySet(cfg, states, events, k - 1, c))
  }

  // ---------- what every event keeps ----------

  /** The swaps that succeeded are those of slots ticked off, unless left out when the target was set, and
      those executed in this round with the expected answer. */
  ghost predicate Accounted(cfg: Config, x: Client, taken: set<nat>, left: set<nat>)
    requires Shaped(cfg, x)
  {
    x.phase.Optimism? || x.phase.Casing? ==>
      && (forall i :: i in left ==> i < cfg.quorum && !x.data.needs[i])
      && (forall i :: i in taken ==> i < cfg.quorum && i !in left)
      && forall i :: 0 <= i < cfg.quorum && i !in left ==>
           (i in taken <==> !x.data.needs[i] || (!x.flight[i].Out? && x.swaps[i] == x.data.expected[i]))
  }

  /** The slots an event leaves out when it sets the target. */
  ghost function LeftOut(cfg: Config, x: Client): set<nat>
    requires Shaped(cfg, x)
  {
    set i | i in UpTo(cfg.quorum) && !x.data.needs[i]
  }

  ghost function Left(cfg: Config, states: seq<State>, events: seq<Event>, k: nat, c: nat): set<nat>
    requires cfg.Valid() && IsRun(cfg, states, events) && k <= |events| && c < cfg.clients
  {
    if k == 0 then {}
    else
      assert IsStep(cfg, states[k - 1], events[k - 1], states[k]);
      if SetsTarget(cfg, states[k - 1], events[k - 1], c) then LeftOut(cfg, Apply(cfg, states[k - 1], events[k - 1]).clients[c])
      else Left(cfg, states, events, k - 1, c)
  }

  ghost function NextTaken(cfg: Config, s: State, e: Event, c: nat, taken: set<nat>): set<nat>
    requires cfg.Valid() && WellFormed(cfg, s) && c < |s.clients|
  {
    if SetsTarget(cfg, s, e, c) then {} else taken + if Swaps(cfg, s, e, c) then {e.slot} else {}
  }

  ghost function NextLeft(cfg: Config, s: State, e: Event, c: nat, left: set<nat>): set<nat>
    requires cfg.Valid() && WellFormed(cfg, s) && Enabled(cfg, s, e) && c < |s.clients|
  {
    if SetsTarget(cfg, s, e, c) then LeftOut(cfg, Apply(cfg, s, e).clients[c]) else left
  }

  /** A client whose put stands between rounds does not wait for slots it no longer needs. */
  ghost predicate NeededOnly(cfg: Config, x: Client)
    requires Shaped(cfg, x)
  {
    x.phase.Optimism? || x.phase.Casing? ==> forall i :: 0 <= i < cfg.quorum && x.flight[i].Out? ==> x.data.needs[i]
  }

  lemma {:induction false} ExecuteAccounts(cfg: Config, s: State, c: nat, i: nat, taken: set<nat>, left: set<nat>)
    requires cfg.Valid() && WellFormed(cfg, s) && Enabled(cfg, s, Execute(c, i)) && Shaped(cfg, s.clients[c])
    requires Accounted(cfg, s.clients[c], taken, left) && NeededOnly(cfg, s.clients[c])
    ensures Accounted(cfg, Apply(cfg, s, Execute(c, i)).clients[c], NextTaken(cfg, s, Execute(c, i), c, taken), left)
  {}

  lemma {:induction false} StartAccounts(cfg: Config, s: State, e: Event, taken: set<nat>, left: set<nat>)
    requires cfg.Valid() && WellFormed(cfg, s) && Enabled(cfg, s, e) && (e.StartPut? || e.StartGet? || e.StartRange?)
    ensures Accounted(cfg, Apply(cfg, s, e).clients[e.c], NextTaken(cfg, s, e, e.c, taken), NextLeft(cfg, s, e, e.c, left))
  {}

  lemma {:induction false} PollAccounts(cfg: Config, s: State, c: nat, i: nat, taken: set<nat>, left: set<nat>)
    requires cfg.Valid() && WellFormed(cfg, s) && Enabled(cfg, s, Poll(c, i)) && Accounted(cfg, s.clients[c], taken, left)
    ensures Accounted(cfg, Apply(cfg, s, Poll(c, i)).clients[c], taken, left)
  {}

  /** What was ticked off in a round that keeps its target is what succeeded. */
  lemma {:induction false} CasAccounts(cfg: Config, c: nat, x: Client, taken: set<nat>, left: set<nat>)
    requires cfg.Valid() && Shaped(cfg, x) && x.phase.Casing? && x.AllQuiet() && Accounted(cfg, x, taken, left)
    requires FirstBump(x.data, x.swaps) == cfg.quorum
    ensures Accounted(cfg, PutOn(cfg, x, AfterCas(c, x.data, x.swaps)), taken, left)
  {}

  lemma {:induction false} SetAccounts(cfg: Config, x: Client, d: PutData)
    requires cfg.Valid() && Shaped(cfg, x) && d.Shape(cfg.quorum) && Shaped(cfg, PutOn(cfg, x, d))
    ensures Accounted(cfg, PutOn(cfg, x, d), {}, LeftOut(cfg, PutOn(cfg, x, d)))
  {}

  lemma {:induction false} ForwardAccounts(cfg: Config, s: State, c: nat, taken: set<nat>, left: set<nat>)
    requires cfg.Valid() && WellFormed(cfg, s) && Enabled(cfg, s, Forward(c)) && Accounted(cfg, s.clients[c], taken, left)
    ensures Shaped(cfg, Apply(cfg, s, Forward(c)).clients[c])
    ensures Accounted(cfg, Apply(cfg, s, Forward(c)).clients[c], NextTaken(cfg, s, Forward(c), c, taken), NextLeft(cfg, s, Forward(c), c, left))
  {
    var x := s.clients[c];
    hide MaxRegister, Accounted, PutOn;
    match x.phase
    case Idle =>
    case Reading(_) => NotPutting(cfg, Forwarded(cfg, c, x), NextTaken(cfg, s, Forward(c), c, taken), left);
    case WritingBack => NotPutting(cfg, Forwarded(cfg, c, x), NextTaken(cfg, s, Forward(c), c, taken), left);
    case PutReading =>
      PutShape(cfg, x, AfterReads(c, x.data.value, x.got));
      SetAccounts(cfg, x, AfterReads(c, x.data.value, x.got));
    case Optimism =>
      PutShape(cfg, x, AfterOptimistic(c, x.data, x.swaps));
      if Failures(x.data, x.swaps, cfg.quorum) != [] { SetAccounts(cfg, x, AfterOptimistic(c, x.data, x.swaps)); }
      else { GuessHeld(cfg, c, x, taken, left); }
    case Casing =>
      PutShape(cfg, x, AfterCas(c, x.data, x.swaps));
      if FirstBump(x.data, x.swaps) < cfg.quorum { SetAccounts(cfg, x, AfterCas(c, x.data, x.swaps)); }
      else { CasAccounts(cfg, c, x, taken, left); }
  }

  lemma {:induction false} NotPutting(cfg: Config, y: Client, taken: set<nat>, left: set<nat>)
    requires Shaped(cfg, y) && !y.phase.Optimism? && !y.phase.Casing?
    ensures Accounted(cfg, y, taken, left)
  {}

  lemma {:induction false} PutShape(cfg: Config, x: Client, d: PutData)
    requires Shaped(cfg, x) && d.Shape(cfg.quorum)
    ensures Shaped(cfg, PutOn(cfg, x, d))
  {}

  lemma {:induction false} GuessHeld(cfg: Config, c: nat, x: Client, taken: set<nat>, left: set<nat>)
    requires Shaped(cfg, x) && Failures(x.data, x.swaps, cfg.quorum) == []
    ensures var d := AfterOptimistic(c, x.data, x.swaps);
            d.Finished() && d.target == x.data.target && Accounted(cfg, PutOn(cfg, x, d), taken, left)
  {
    FailuresAre(x.data, x.swaps, cfg.quorum);
    hide Failures;
  }

  lemma {:induction false} OwnAccounts(cfg: Config, s: State, e: Event, taken: set<nat>, left: set<nat>)
    requires cfg.Valid() && WellFormed(cfg, s) && Enabled(cfg, s, e)
    requires Accounted(cfg, s.clients[e.c], taken, left) && NeededOnly(cfg, s.clients[e.c])
    ensures Shaped(cfg, Apply(cfg, s, e).clients[e.c])
    ensures Accounted(cfg, Apply(cfg, s, e).clients[e.c], NextTaken(cfg, s, e, e.c, taken), NextLeft(cfg, s, e, e.c, left))
  {
    hide Accounted, NextTaken, NextLeft, Forwarded, NeededOnly;
    match e
    case StartPut(_, _) => StartAccounts(cfg, s, e, taken, left);
    case StartGet(_) => StartAccounts(cfg, s, e, taken, left);
    case StartRange(_) => StartAccounts(cfg, s, e, taken, left);
    case Execute(c, i) => ExecuteAccounts(cfg, s, c, i, taken, left); NothingSet(cfg, s, e, left);
    case Poll(c, i) => PollAccounts(cfg, s, c, i, taken, left); NothingSet(cfg, s, e, left); NothingTaken(cfg, s, e, taken);
    case Forward(c) => ForwardAccounts(cfg, s, c, taken, left);
  }

  lemma {:induction false} StepAccounts(cfg: Config, s: State, e: Event, c: nat, taken: set<nat>, left: set<nat>)
    requires cfg.Valid() && Inv(cfg, s) && WellFormed(cfg, s) && Enabled(cfg, s, e) && c < cfg.clients
    requires Accounted(cfg, s.clients[c], taken, left)
    ensures Shaped(cfg, Apply(cfg, s, e).clients[c])
    ensures Accounted(cfg, Apply(cfg, s, e).clients[c], NextTaken(cfg, s, e, c, taken), NextLeft(cfg, s, e, c, left))
  {
    if e.c == c {
      AwaitsNeeded(cfg, s, c);
      hide *;
      OwnAccounts(cfg, s, e, taken, left);
    } else {
      hide *;
      OthersAccounts(cfg, s, e, c, taken, left);
    }
  }

  lemma {:induction false} OthersAccounts(cfg: Config, s: State, e: Event, c: nat, taken: set<nat>, left: set<nat>)
    requires cfg.Valid() && WellFormed(cfg, s) && Enabled(cfg, s, e) && c < cfg.clients && e.c != c
    requires c < |s.clients| && Shaped(cfg, s.clients[c]) && Accounted(cfg, s.clients[c], taken, left)
    ensures c < |Apply(cfg, s, e).clients| && Apply(cfg, s, e).clients[c] == s.clients[c]
    ensures Accounted(cfg, s.clients[c], NextTaken(cfg, s, e, c, taken), NextLeft(cfg, s, e, c, left))
  {
    hide Accounted, Forwarded;
    assert NextTaken(cfg, s, e, c, taken) == taken;
  }

  lemma {:induction false} AwaitsNeeded(cfg: Config, s: State, c: nat)
    requires cfg.Valid() && Inv(cfg, s) && WellFormed(cfg, s) && c < cfg.clients
    ensures c < |s.clients| && NeededOnly(cfg, s.clients[c])
  {
    assert ClientOk(cfg, s.replicas, s.issued, c, s.clients[c]);
  }

  lemma {:induction false} NothingSet(cfg: Config, s: State, e: Event, left: set<nat>)
    requires cfg.Valid() && WellFormed(cfg, s) && Enabled(cfg, s, e) && (e.Execute? || e.Poll?)
    ensures NextLeft(cfg, s, e, e.c, left) == left
  {}

  lemma {:induction false} NothingTaken(cfg: Config, s: State, e: Event, taken: set<nat>)
    requires cfg.Valid() && WellFormed(cfg, s) && e.c < |s.clients| && e.Poll?
    ensures NextTaken(cfg, s, e, e.c, taken) == taken
  {}

  // ---------- over whole runs ----------

  lemma {:induction false} RunSized(cfg: Config, states: seq<State>, events: seq<Event>, k: nat)
    requires cfg.Valid() && IsRun(cfg, states, events) && k < |states|
    ensures |states[k].clients| == cfg.clients
  {
    RunKeepsInv(cfg, states, events, k);
  }

  lemma {:induction false} RunAccounts(cfg: Config, states: seq<State>, events: seq<Event>, k: nat, c: nat)
    requires cfg.Valid() && IsRun(cfg, states, events) && k <= |events| && c < cfg.clients
    ensures |states[k].clients| == cfg.clients && Shaped(cfg, states[k].clients[c])
    ensures Accounted(cfg, states[k].clients[c], Taken(cfg, states, events, k, c), Left(cfg, states, events, k, c))
  {
    hide Accounted, Inv, Apply, SetsTarget, Swaps, LeftOut;
    if k == 0 {
      assert states[0].clients[c] == IdleClient(cfg.quorum);
      NotPutting(cfg, states[0].clients[c], {}, {});
    } else {
      RunAccounts(cfg, states, events, k - 1, c);
      RunKeepsInv(cfg, states, events, k - 1);
      RunSized(cfg, states, events, k);
      assert IsStep(cfg, states[k - 1], events[k - 1], states[k]);
      StepAccounts(cfg, states[k - 1], events[k - 1], c, Taken(cfg, states, events, k - 1, c), Left(cfg, states, events, k - 1, c));
    }
  }

  lemma {:induction false} NothingLeftOut(cfg: Config, y: Client)
    requires Shaped(cfg, y)
    ensures LeftOut(cfg, y) == {} <==> forall i :: 0 <= i < cfg.quorum ==> y.data.needs[i]
  {
    if LeftOut(cfg, y) == {} {
      forall i | 0 <= i < cfg.quorum ensures y.data.needs[i] { assert i !in LeftOut(cfg, y); }
    }
  }

  lemma {:induction false} CasLeaves(cfg: Config, c: nat, x: Client)
    requires cfg.Valid() && Shaped(cfg, x) && FirstBump(x.data, x.swaps) < cfg.quorum
    ensures var d := AfterCas(c, x.data, x.swaps);
            FirstBump(x.data, x.swaps) == cfg.quorum - 1 <==> forall i :: 0 <= i < cfg.quorum ==> d.needs[i]
  {
    var b := FirstBump(x.data, x.swaps);
    assert b == cfg.quorum - 1 || !AfterCas(c, x.data, x.swaps).needs[b + 1];
  }

  /** The event that sets the target leaves nothing out exactly if it sets it fully. */
  lemma {:induction false} FullLeavesNothing(cfg: Config, s: State, e: Event, c: nat)
    requires cfg.Valid() && WellFormed(cfg, s) && Enabled(cfg, s, e) && c < |s.clients| && SetsTarget(cfg, s, e, c)
    ensures Shaped(cfg, Apply(cfg, s, e).clients[c])
    ensures SetsFully(cfg, s, e, c) <==> LeftOut(cfg, Apply(cfg, s, e).clients[c]) == {}
  {
    var x, y := s.clients[c], Apply(cfg, s, e).clients[c];
    NothingLeftOut(cfg, y);
    hide LeftOut, FirstBump, Failures, AfterReads;
    if e.Forward? {
      ReadsLeave(c, x);
      GuessLeaves(cfg, c, x);
      if x.phase.Casing? { CasLeaves(cfg, c, x); }
      hide AfterCas, AfterOptimistic;
    }
  }

  lemma {:induction false} ReadsLeave(c: nat, x: Client)
    ensures var d := AfterReads(c, x.data.value, x.got); |d.needs| == |x.got| && forall i :: 0 <= i < |x.got| ==> d.needs[i]
  {}

  lemma {:induction false} GuessLeaves(cfg: Config, c: nat, x: Client)
    requires Shaped(cfg, x)
    ensures var d := AfterOptimistic(c, x.data, x.swaps);
            |d.needs| == cfg.quorum && forall i :: 0 <= i < cfg.quorum ==> (d.needs[i] <==> x.swaps[i] != x.data.expected[i])
  {
    hide Failures;
  }

  lemma {:induction false} FullySetLeavesNothing(cfg: Config, states: seq<State>, events: seq<Event>, k: nat, c: nat)
    requires cfg.Valid() && IsRun(cfg, states, events) && k <= |events| && c < cfg.clients
    requires |states[k].clients| == cfg.clients && (states[k].clients[c].phase.Optimism? || states[k].clients[c].phase.Casing?)
    ensures FullySet(cfg, states, events, k, c) <==> Left(cfg, states, events, k, c) == {}
  {
    hide Inv, SetsTarget, SetsFully, LeftOut, Apply;
    RunSized(cfg, states, events, 0);
    assert states[0].clients[c].phase.Idle?;
    assert IsStep(cfg, states[k - 1], events[k - 1], states[k]);
    if SetsTarget(cfg, states[k - 1], events[k - 1], c) {
      FullLeavesNothing(cfg, states[k - 1], events[k - 1], c);
    } else {
      StaysPutting(cfg, states[k - 1], events[k - 1], c);
      FullySetLeavesNothing(cfg, states, events, k - 1, c);
    }
  }

  /** A put that goes on without a new target was under way before. */
  lemma {:induction false} StaysPutting(cfg: Config, s: State, e: Event, c: nat)
    requires cfg.Valid() && WellFormed(cfg, s) && Enabled(cfg, s, e) && c < |s.clients| && !SetsTarget(cfg, s, e, c)
    requires var y := Apply(cfg, s, e).clients[c]; y.phase.Optimism? || y.phase.Casing?
    ensures s.clients[c].phase.Optimism? || s.clients[c].phase.Casing?
  {}

  // ---------- what being done means ----------

  /** A round that finishes a put has not moved its target. */
  lemma {:induction false} LastRound(cfg: Config, c: nat, x: Client)
    requires cfg.Valid() && Shaped(cfg, x)
    ensures AfterOptimistic(c, x.data, x.swaps).Finished() ==>
              && Failures(x.data, x.swaps, cfg.quorum) == []
              && forall i :: 0 <= i < cfg.quorum ==> x.swaps[i] == x.data.expected[i]
    ensures AfterCas(c, x.data, x.swaps).Finished() ==>
              && FirstBump(x.data, x.swaps) == cfg.quorum
              && forall i :: 0 <= i < cfg.quorum ==> !x.data.needs[i] || x.swaps[i] == x.data.expected[i]
  {
    FailuresAre(x.data, x.swaps, cfg.quorum);
    GuessLeaves(cfg, c, x);
    hide Failures, AfterOptimistic;
    var d := AfterCas(c, x.data, x.swaps);
    var b := FirstBump(x.data, x.swaps);
    assert b < cfg.quorum ==> d.needs[b];
    if d.Finished() {
      forall i | 0 <= i < cfg.quorum ensures !x.data.needs[i] || x.swaps[i] == x.data.expected[i] { assert !d.needs[i]; }
    }
  }

  lemma {:induction false} FinishKeepsTarget(cfg: Config, s: State, c: nat)
    requires cfg.Valid() && Inv(cfg, s) && WellFormed(cfg, s) && Enabled(cfg, s, Forward(c)) && Room(s)
    requires Apply(cfg, s, Forward(c)).clients[c].puts > s.clients[c].puts
    ensures var x := s.clients[c];
            && (x.phase.Optimism? || x.phase.Casing?) && !SetsTarget(cfg, s, Forward(c), c)
            && forall i :: 0 <= i < cfg.quorum ==> !x.data.needs[i] || x.swaps[i] == x.data.expected[i]
  {
    var x := s.clients[c];
    NothingToDo(cfg, s, c);
    LastRound(cfg, c, x);
    hide Inv, AfterOptimistic, AfterCas, Failures, FirstBump;
  }

  /** A put is done with exactly those slots swapped to its final target that were not left out when that target
      was set. So every replica of the quorum has taken it if and only if it was guessed and all of the guess
      held, it was set by the reads, by an optimistic round in which nothing succeeded, or by the last slot. */
  lemma {:induction false} DoneMeansSwapped(cfg: Config, states: seq<State>, events: seq<Event>, k: nat, c: nat)
    requires cfg.Valid() && IsRun(cfg, states, events) && k < |events| && c < cfg.clients && events[k] == Forward(c)
    requires WellFormed(cfg, states[k]) && WellFormed(cfg, states[k + 1]) && states[k + 1].clients[c].puts > states[k].clients[c].puts
    ensures Taken(cfg, states, events, k, c) == UpTo(cfg.quorum) - Left(cfg, states, events, k, c)
    ensures Taken(cfg, states, events, k, c) == UpTo(cfg.quorum) <==> FullySet(cfg, states, events, k, c)
  {
    RunKeepsInv(cfg, states, events, k);
    RunAccounts(cfg, states, events, k, c);
    assert IsStep(cfg, states[k], events[k], states[k + 1]);
    FinishKeepsTarget(cfg, states[k], c);
    FullySetLeavesNothing(cfg, states, events, k, c);
    hide Inv, Apply, FullySet, Taken, Left;
    AllAccounted(cfg, states[k].clients[c], Taken(cfg, states, events, k, c), Left(cfg, states, events, k, c));
  }

  lemma {:induction false} AllAccounted(cfg: Config, x: Client, taken: set<nat>, left: set<nat>)
    requires Shaped(cfg, x) && Accounted(cfg, x, taken, left) && x.AllQuiet() && (x.phase.Optimism? || x.phase.Casing?)
    requires forall i :: 0 <= i < cfg.quorum ==> !x.data.needs[i] || x.swaps[i] == x.data.expected[i]
    ensures taken == UpTo(cfg.quorum) - left
    ensures taken == UpTo(cfg.quorum) <==> left == {}
  {
    forall i: nat | i in UpTo(cfg.quorum) - left ensures i in taken { }
    if left != {} { var i :| i in left; assert i in UpTo(cfg.quorum) && i !in taken; }
  }

  lemma {:induction false} KeepsTarget(cfg: Config, s: State, e: Event, c: nat)
    requires cfg.Valid() && WellFormed(cfg, s) && Enabled(cfg, s, e) && c < |s.clients| && !SetsTarget(cfg, s, e, c)
    requires var y := Apply(cfg, s, e).clients[c]; y.phase.Optimism? || y.phase.Casing?
    ensures Apply(cfg, s, e).clients[c].data.target == s.clients[c].data.target
  {}

  ghost predicate Holds(cfg: Config, s: State, c: nat, i: nat)
    requires cfg.Valid() && WellFormed(cfg, s) && c < cfg.clients
  {
    (s.clients[c].phase.Optimism? || s.clients[c].phase.Casing?) && i < cfg.quorum ==>
      s.replicas[cfg.Server(c, i)].num >= s.clients[c].data.target.num
  }

  lemma {:induction false} StepHolds(cfg: Config, s: State, e: Event, c: nat, i: nat, taken: set<nat>)
    requires cfg.Valid() && Inv(cfg, s) && WellFormed(cfg, s) && Enabled(cfg, s, e) && c < cfg.clients && i < cfg.quorum
    requires WellFormed(cfg, Apply(cfg, s, e))
    requires i in taken ==> Holds(cfg, s, c, i)
    requires i in NextTaken(cfg, s, e, c, taken)
    ensures Holds(cfg, Apply(cfg, s, e), c, i)
  {
    var y := Apply(cfg, s, e).clients[c];
    StepRaises(cfg, s, e, cfg.Server(c, i));
    if y.phase.Optimism? || y.phase.Casing? {
      StaysPutting(cfg, s, e, c);
      KeepsTarget(cfg, s, e, c);
      if Swaps(cfg, s, e, c) && i == e.slot { SwapTakes(cfg, s, e, c); }
      hide Inv, SetsTarget, Swaps, Apply, Enabled;
    }
  }

  /** A replica that took the target holds it or something newer. */
  lemma {:induction false} TakenHolds(cfg: Config, states: seq<State>, events: seq<Event>, k: nat, c: nat, i: nat)
    requires cfg.Valid() && IsRun(cfg, states, events) && k <= |events| && c < cfg.clients && i < cfg.quorum
    requires WellFormed(cfg, states[k]) && i in Taken(cfg, states, events, k, c)
    ensures Holds(cfg, states[k], c, i)
  {
    hide Inv, SetsTarget, Swaps, Apply, Enabled, Holds, WellFormed;
    RunKeepsInv(cfg, states, events, k - 1);
    assert IsStep(cfg, states[k - 1], events[k - 1], states[k]);
    if i in Taken(cfg, states, events, k - 1, c) { TakenHolds(cfg, states, events, k - 1, c, i); }
    StepHolds(cfg, states[k - 1], events[k - 1], c, i, Taken(cfg, states, events, k - 1, c));
  }

  lemma {:induction false} SwapTakes(cfg: Config, s: State, e: Event, c: nat)
    requires cfg.Valid() && WellFormed(cfg, s) && Enabled(cfg, s, e) && c < |s.clients| && Swaps(cfg, s, e, c)
    ensures var k := cfg.Server(c, e.slot);
            e.slot < cfg.quorum && k < |Apply(cfg, s, e).replicas| && Apply(cfg, s, e).replicas[k] == s.clients[c].data.target
  {}

  /** A put whose final target was fully set is done with every replica of its quorum at that target or newer. */
  lemma {:induction false} FullySetHolds(cfg: Config, states: seq<State>, events: seq<Event>, k: nat, c: nat, i: nat)
    requires cfg.Valid() && IsRun(cfg, states, events) && k < |events| && c < cfg.clients && events[k] == Forward(c)
    requires WellFormed(cfg, states[k]) && WellFormed(cfg, states[k + 1]) && states[k + 1].clients[c].puts > states[k].clients[c].puts
    requires FullySet(cfg, states, events, k, c) && i < cfg.quorum
    ensures states[k + 1].replicas[cfg.Server(c, i)].num >= states[k + 1].clients[c].data.target.num
  {
    DoneMeansSwapped(cfg, states, events, k, c);
    RunKeepsInv(cfg, states, events, k);
    assert IsStep(cfg, states[k], events[k], states[k + 1]);
    TakenHolds(cfg, states, events, k, c, i);
    hide Inv, Taken, FullySet, IsRun;
    FinishHolds(cfg, states[k], c, i);
  }

  lemma {:induction false} FinishHolds(cfg: Config, s: State, c: nat, i: nat)
    requires cfg.Valid() && Inv(cfg, s) && WellFormed(cfg, s) && Enabled(cfg, s, Forward(c)) && Room(s) && i < cfg.quorum
    requires Apply(cfg, s, Forward(c)).clients[c].puts > s.clients[c].puts && Holds(cfg, s, c, i)
    ensures var s' := Apply(cfg, s, Forward(c));
            |s'.replicas| == cfg.servers && s'.replicas[cfg.Server(c, i)].num >= s'.clients[c].data.target.num
  {
    FinishKeepsTarget(cfg, s, c);
    hide Inv;
    EndTarget(cfg, s, c);
    hide Apply;
  }

  lemma {:induction false} EndTarget(cfg: Config, s: State, c: nat)
    requires cfg.Valid() && WellFormed(cfg, s) && Enabled(cfg, s, Forward(c)) && !SetsTarget(cfg, s, Forward(c), c)
    requires s.clients[c].phase.Optimism? || s.clients[c].phase.Casing?
    ensures Apply(cfg, s, Forward(c)).clients[c].data.target == s.clients[c].data.target
    ensures Apply(cfg, s, Forward(c)).replicas == s.replicas
  {
    hide Failures;
  }
}
