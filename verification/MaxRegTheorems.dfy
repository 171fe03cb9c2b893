/** What a finished write guarantees to every later read, in every run by the rules. */
module MaxRegTheorems {
  import opened Registers
  import opened Sets
  import opened MaxReg
  import opened MaxRegProtocol
  import opened MaxRegRising
  import opened MaxRegTruth
  import opened MaxRegSteps

  lemma {:induction false} RunKeepsInv(cfg: Config, inPlace: seq<seq<bool>>, states: seq<State>, events: seq<Event>, k: nat)
    requires IsRun(cfg, inPlace, states, events) && k < |states|
    ensures Inv(cfg, states[k])
  {
    hide Inv, Apply, Init, Allowed;
    if k == 0 {
      InitTrue(cfg, inPlace);
    } else {
      RunKeepsInv(cfg, inPlace, states, events, k - 1);
      assert IsStep(cfg, states[k - 1], events[k - 1], states[k]);
      assert RuleKept(cfg, states[k - 1], events[k - 1]);
      StepKeepsInv(cfg, states[k - 1], events[k - 1]);
    }
  }

  /** By the rules nothing is written blindly below what was written before. */
  lemma {:induction false} RunRises(cfg: Config, inPlace: seq<seq<bool>>, states: seq<State>, events: seq<Event>)
    requires IsRun(cfg, inPlace, states, events)
    ensures RisingPath(cfg, states, events)
  {
    RunKeepsInv(cfg, inPlace, states, events, 0);
    TruthIsLite(cfg, states[0]);
    hide LiteInv, Inv, Apply, WellFormed, Possible, Init;
    forall k | 0 <= k < |events| ensures BlindRuleKept(cfg, states[k], events[k]) {
      assert RuleKept(cfg, states[k], events[k]);
    }
  }

  // ---------- majorities ----------

  /** The servers whose maximum, with the verified bit set, is at least tsp. */
  ghost function Holding(slots: seq<seq<nat>>, tsp: nat): set<nat> {
    set s | 0 <= s < |slots| && Verified(MaxOf(slots[s])) >= tsp
  }

  /** Two majorities share a server. */
  lemma {:induction false} MajoritiesMeet(a: set<nat>, b: set<nat>, n: nat, majority: nat)
    requires a <= UpTo(n) && b <= UpTo(n) && |a| >= majority && |b| >= majority && 2 * majority > n
    ensures exists s :: s in a && s in b
  {
    SubsetSize(a + b, UpTo(n));
    assert |a + b| + |a * b| == |a| + |b|;
    var s :| s in a * b;
  }

  lemma {:induction false} HoldingGrows(slots: seq<seq<nat>>, later: seq<seq<nat>>, tsp: nat)
    requires |slots| == |later| && forall s :: 0 <= s < |slots| ==> AtMost(slots[s], later[s])
    ensures Holding(slots, tsp) <= Holding(later, tsp)
    ensures |Holding(slots, tsp)| <= |Holding(later, tsp)|
  {
    forall s | s in Holding(slots, tsp) ensures s in Holding(later, tsp) {
      MaxOfAtMost(slots[s], later[s]);
    }
    SubsetSize(Holding(slots, tsp), Holding(later, tsp));
  }

  // ---------- the two ends of the guarantee ----------

  /** A writing client has seen enough at every server it counts, so the server holds enough. */
  lemma {:induction false} CountedHolds(cfg: Config, slots: seq<seq<nat>>, c: nat, w: Swept, goal: nat, bases: seq<seq<nat>>, s: nat)
    requires Sized(cfg, slots) && c < cfg.clients && s in w.ready && s < cfg.servers && w.x.phase.Writing?
    requires SweptTrue(cfg, slots, c, w, goal, bases, cfg.servers)
    ensures s in Holding(slots, goal)
  {
    SideAt(cfg, slots, c, w.x, goal, bases, s);
    assert Shown(w.x, s, goal, bases[s]);
    hide MaxOf, SideTrue, Lite, BufferOk, AtMost;
    assert Believes(slots[s], c, w.x.futures[s], w.x.traffic[s], w.x, goal);
  }

  lemma {:induction false} CountedHold(cfg: Config, slots: seq<seq<nat>>, c: nat, w: Swept, goal: nat, bases: seq<seq<nat>>)
    requires Sized(cfg, slots) && c < cfg.clients && w.x.phase.Writing? && SweptTrue(cfg, slots, c, w, goal, bases, cfg.servers)
    ensures w.ready <= Holding(slots, goal)
  {
    forall s | s in w.ready ensures s in Holding(slots, goal) {
      assert s < cfg.servers;
      hide *;
      CountedHolds(cfg, slots, c, w, goal, bases, s);
    }
  }

  lemma {:induction false} EndsCounted(w: Swept, majority: nat)
    requires w.x.write < |w.x.tsps| && !Idle(w.x) && Idle(Concluded(w, majority))
    ensures |w.ready| >= majority
  {}

  /** The step that reports a write or a replication as linearized finds what was asked for, up to the
      verified bit, at every server it counts, and counts a majority. */
  lemma {:induction false} LinearizedMeansHeld(cfg: Config, st: State, c: nat, skip: set<nat>)
    requires Inv(cfg, st) && c < cfg.clients && st.clients[c].phase.Writing?
    requires Idle(Apply(cfg, st, Forward(c, skip)).clients[c])
    ensures var w := Sweep(st.clients[c], skip, cfg.servers, c, cfg.clients);
            |w.ready| >= cfg.majority && w.ready <= Holding(st.slots, st.goals[c])
    ensures |Holding(st.slots, st.goals[c])| >= cfg.majority
  {
    var x := st.clients[c];
    assert SideTrue(cfg, st.slots, c, x, st.goals[c], st.bases[c]);
    hide SideTrue, SweptTrue, Sweep, Inv, Concluded, Holding;
    var w := Sweep(x, skip, cfg.servers, c, cfg.clients);
    SweepKeeps(cfg, st.slots, c, x, st.goals[c], st.bases[c], skip, cfg.servers);
    EndsCounted(w, cfg.majority);
    CountedHold(cfg, st.slots, c, w, st.goals[c], st.bases[c]);
    SubsetSize(w.ready, Holding(st.slots, st.goals[c]));
  }

  /** A read that finishes has seen, at a majority, at least what was there when it started. */
  lemma {:induction false} ReadSeesMajority(cfg: Config, st: State, c: nat, skip: set<nat>, tsp: nat)
    requires Inv(cfg, st) && c < cfg.clients && st.clients[c].phase.Reading? && 2 * cfg.majority > cfg.servers
    requires |st.bases[c]| == cfg.servers && |Holding(st.bases[c], tsp)| >= cfg.majority
    requires var y := Apply(cfg, st, Forward(c, skip)).clients[c]; Idle(y)
    ensures Verified(Apply(cfg, st, Forward(c, skip)).clients[c].maxTsp) >= tsp
  {
    var x, bases := st.clients[c], st.bases[c];
    assert SideTrue(cfg, st.slots, c, x, st.goals[c], bases);
    hide SideTrue, Sweep, Inv, Concluded, Holding, Shown, Verified;
    var w := Sweep(x, skip, cfg.servers, c, cfg.clients);
    SweepKeeps(cfg, st.slots, c, x, st.goals[c], bases, skip, cfg.servers);
    EndsCounted(w, cfg.majority);
    SharedServer(cfg, w, st.goals[c], bases, tsp);
    SeenIsKept(w, cfg.majority);
  }

  lemma {:induction false} SeenIsKept(w: Swept, majority: nat)
    requires w.x.write < |w.x.tsps|
    ensures Concluded(w, majority).maxTsp == w.x.maxTsp
  {}

  lemma {:induction false} SharedServer(cfg: Config, w: Swept, goal: nat, bases: seq<seq<nat>>, tsp: nat)
    requires |bases| == |w.x.futures| == cfg.servers && w.x.phase.Reading? && 2 * cfg.majority > cfg.servers
    requires forall s :: s in w.ready ==> s < cfg.servers && Shown(w.x, s, goal, bases[s])
    requires |w.ready| >= cfg.majority && |Holding(bases, tsp)| >= cfg.majority
    ensures Verified(w.x.maxTsp) >= tsp
  {
    hide MaxOf;
    MajoritiesMeet(w.ready, Holding(bases, tsp), cfg.servers, cfg.majority);
    var s :| s in w.ready && s in Holding(bases, tsp);
    assert Shown(w.x, s, goal, bases[s]);
  }

  /** Until the client starts something else, what was there at the start is remembered. */
  lemma {:induction false} BaseStays(cfg: Config, inPlace: seq<seq<bool>>, states: seq<State>, events: seq<Event>,
                                     d: nat, j: nat, m: nat)
    requires IsRun(cfg, inPlace, states, events) && j < m < |states| && d < cfg.clients
    requires events[j].Start? && events[j].c == d
    requires forall i :: j < i < m ==> !(events[i].Start? && events[i].c == d)
    ensures |states[m].bases| == cfg.clients && states[m].bases[d] == states[j].slots
  {
    assert IsStep(cfg, states[m - 1], events[m - 1], states[m]);
    if m > j + 1 { BaseStays(cfg, inPlace, states, events, d, j, m - 1); }
  }

  /** Once a write is linearized, every read of timestamps that starts later and finishes returns a
      maximum that, with the verified bit set, is at least what was written. */
  lemma {:induction false} LaterReadsSee(cfg: Config, inPlace: seq<seq<bool>>, states: seq<State>, events: seq<Event>,
                      c: nat, k: nat, d: nat, j: nat, m: nat)
    requires IsRun(cfg, inPlace, states, events) && 2 * cfg.majority > cfg.servers
    requires k < j < m < |events| && c < cfg.clients && d < cfg.clients
    requires WellFormed(cfg, states[k]) && WellFormed(cfg, states[k + 1])
    requires WellFormed(cfg, states[m]) && WellFormed(cfg, states[m + 1])
    requires events[k].Forward? && events[k].c == c
    requires states[k].clients[c].phase.Writing? && Idle(states[k + 1].clients[c])
    requires events[j].Start? && events[j].c == d && events[j].kind.KRead?
    requires forall i :: j < i < m ==> !(events[i].Start? && events[i].c == d)
    requires events[m].Forward? && events[m].c == d
    requires states[m].clients[d].phase.Reading? && Idle(states[m + 1].clients[d])
    ensures Verified(states[m + 1].clients[d].maxTsp) >= states[k].goals[c]
  {
    hide Inv, Possible, IsStep, AtMost, Holding, Shaped;
    var tsp := states[k].goals[c];
    WriteEnd(cfg, inPlace, states, events, c, k);
    RunRises(cfg, inPlace, states, events);
    SlotsRise(cfg, states, events, k, j);
    HoldingGrows(states[k].slots, states[j].slots, tsp);
    BaseStays(cfg, inPlace, states, events, d, j, m);
    ReadEnd(cfg, inPlace, states, events, d, m, tsp);
  }

  lemma {:induction false} WriteEnd(cfg: Config, inPlace: seq<seq<bool>>, states: seq<State>, events: seq<Event>, c: nat, k: nat)
    requires IsRun(cfg, inPlace, states, events) && k < |events| && c < cfg.clients
    requires WellFormed(cfg, states[k]) && WellFormed(cfg, states[k + 1])
    requires events[k].Forward? && events[k].c == c
    requires states[k].clients[c].phase.Writing? && Idle(states[k + 1].clients[c])
    ensures |states[k].slots| == cfg.servers && |Holding(states[k].slots, states[k].goals[c])| >= cfg.majority
  {
    hide Inv;
    RunKeepsInv(cfg, inPlace, states, events, k);
    assert IsStep(cfg, states[k], events[k], states[k + 1]);
    LinearizedMeansHeld(cfg, states[k], c, events[k].skip);
  }

  lemma {:induction false} ReadEnd(cfg: Config, inPlace: seq<seq<bool>>, states: seq<State>, events: seq<Event>, d: nat, m: nat, tsp: nat)
    requires IsRun(cfg, inPlace, states, events) && m < |events| && d < cfg.clients && 2 * cfg.majority > cfg.servers
    requires WellFormed(cfg, states[m]) && WellFormed(cfg, states[m + 1])
    requires events[m].Forward? && events[m].c == d
    requires states[m].clients[d].phase.Reading? && Idle(states[m + 1].clients[d])
    requires |states[m].bases[d]| == cfg.servers && |Holding(states[m].bases[d], tsp)| >= cfg.majority
    ensures Verified(states[m + 1].clients[d].maxTsp) >= tsp
  {
    hide Inv, Holding;
    RunKeepsInv(cfg, inPlace, states, events, m);
    assert IsStep(cfg, states[m], events[m], states[m + 1]);
    ReadSeesMajority(cfg, states[m], d, events[m].skip, tsp);
  }
}
