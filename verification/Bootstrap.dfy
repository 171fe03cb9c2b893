/** The cluster's start-up and shut-down handshake: every process runs the same sequence of announce,
    wait, connect and withdraw calls against one shared key-value store. */
module Bootstrap {
  import opened Sets

  datatype Reason = Prepared | Connected | Initialized | Finished

  /** Qp(from, to) is the connection data `from` publishes for `to`. */
  datatype Key = Qp(from: nat, to: nat) | Ready(owner: nat, reason: Reason)

  datatype Value = Info(from: nat, to: nat) | ReadyFor(reason: Reason)

  function ValueOf(k: Key): Value {
    match k
    case Qp(from, to) => Info(from, to)
    case Ready(_, reason) => ReadyFor(reason)
  }

  type Store = map<Key, Value>

  // ---------- what one process executes ----------

  /** One access to the store. Skip stands for the loops passing over the process itself. */
  datatype Instruction = SetKey(key: Key) | RemoveKey(key: Key) | Connect(peer: nat) | Wait(peer: nat, reason: Reason) | Skip

  /** A position in the program: a stage and, in the stages that loop over all processes, how far. */
  datatype Place = Place(stage: nat, at: nat)

  predicate Loops(stage: nat) {
    stage in {0, 2, 4, 6, 7, 10, 12}
  }

  predicate PlaceOk(n: nat, pl: Place) {
    pl.stage <= 15 && (if Loops(pl.stage) then pl.at < n else pl.at == 0)
  }

  function InstructionAt(p: nat, pl: Place): Instruction {
    if Loops(pl.stage) && pl.at == p then Skip
    else match pl.stage
      case 0 => SetKey(Qp(p, pl.at))
      case 1 => SetKey(Ready(p, Prepared))
      case 2 => Wait(pl.at, Prepared)
      case 3 => RemoveKey(Ready(p, Finished))
      case 4 => Connect(pl.at)
      case 5 => SetKey(Ready(p, Connected))
      case 6 => Wait(pl.at, Connected)
      case 7 => RemoveKey(Qp(p, pl.at))
      case 8 => RemoveKey(Ready(p, Prepared))
      case 9 => SetKey(Ready(p, Initialized))
      case 10 => Wait(pl.at, Initialized)
      case 11 => SetKey(Ready(p, Finished))
      case 12 => Wait(pl.at, Finished)
      case 13 => RemoveKey(Ready(p, Initialized))
      case 14 => RemoveKey(Ready(p, Connected))
      case _ => Skip
  }

  /** Only clients wait for everybody to be initialized. */
  function Advance(n: nat, client: bool, pl: Place): Place {
    if pl.stage >= 15 then pl
    else if Loops(pl.stage) && pl.at + 1 < n then Place(pl.stage, pl.at + 1)
    else if pl.stage == 9 && !client then Place(11, 0)
    else Place(pl.stage + 1, 0)
  }

  datatype Outcome<T> = Ran(result: T) | Waits | Throws

  /** Setting a key that exists, connecting without the peer's data and finding a wrong value all throw;
      removing an absent key does not. */
  function Effect(store: Store, p: nat, ins: Instruction): Outcome<Store> {
    match ins
    case SetKey(k) => if k in store then Throws else Ran(store[k := ValueOf(k)])
    case RemoveKey(k) => Ran(store - {k})
    case Connect(j) => if Qp(j, p) in store then Ran(store) else Throws
    case Wait(j, reason) =>
      if Ready(j, reason) !in store then Waits
      else if store[Ready(j, reason)] != ReadyFor(reason) then Throws
      else Ran(store)
    case Skip => Ran(store)
  }

  function Linked(links: map<nat, Value>, store: Store, p: nat, ins: Instruction): map<nat, Value> {
    if ins.Connect? && Qp(ins.peer, p) in store then links[ins.peer := store[Qp(ins.peer, p)]] else links
  }

  /** links[p] is what process p connected to, peer by peer. */
  datatype State = State(store: Store, places: seq<Place>, links: seq<map<nat, Value>>)

  predicate Sized(st: State, clients: seq<bool>) {
    |st.places| == |st.links| == |clients|
  }

  function Step(st: State, clients: seq<bool>, p: nat): Outcome<State>
    requires Sized(st, clients) && p < |clients|
  {
    var ins := InstructionAt(p, st.places[p]);
    match Effect(st.store, p, ins)
    case Waits => Waits
    case Throws => Throws
    case Ran(store) =>
      Ran(State(store, st.places[p := Advance(|clients|, clients[p], st.places[p])],
                st.links[p := Linked(st.links[p], st.store, p, ins)]))
  }

  function Marks(of: set<nat>): set<Key> {
    set p | p in of :: Ready(p, Finished)
  }

  /** A run starts with any of the marks that earlier runs leave behind. */
  function Leftover(stale: set<nat>): Store {
    map k | k in Marks(stale) :: ReadyFor(Finished)
  }

  function Init(n: nat, stale: set<nat>): State {
    State(Leftover(stale), seq(n, _ => Place(0, 0)), seq(n, _ => map[]))
  }

  predicate AllDone(st: State) {
    forall p :: 0 <= p < |st.places| ==> st.places[p].stage == 15
  }

  // ---------- the invariant ----------

  /** The process has been through the given stage as far as peer j. */
  predicate Past(pl: Place, stage: nat, j: nat) {
    pl.stage > stage || (pl.stage == stage && pl.at > j)
  }

  /** Whether a key is in the store is settled by where its owner is. */
  predicate Present(places: seq<Place>, stale: set<nat>, k: Key) {
    match k
    case Qp(from, to) =>
      from < |places| && to < |places| && from != to && Past(places[from], 0, to) && !Past(places[from], 7, to)
    case Ready(p, Prepared) => p < |places| && 2 <= places[p].stage <= 8
    case Ready(p, Connected) => p < |places| && 6 <= places[p].stage <= 14
    case Ready(p, Initialized) => p < |places| && 10 <= places[p].stage <= 13
    case Ready(p, Finished) =>
      if p < |places| then (p in stale && places[p].stage <= 3) || 12 <= places[p].stage else p in stale
  }

  /** Having waited for j at a barrier means j had reached it. */
  predicate BarriersOk(clients: seq<bool>, places: seq<Place>, p: nat, j: nat)
    requires |places| == |clients| && p < |places| && j < |places|
  {
    && (Past(places[p], 2, j) ==> places[j].stage >= 2)
    && (Past(places[p], 6, j) ==> places[j].stage >= 6)
    && (clients[p] && Past(places[p], 10, j) ==> places[j].stage >= 10)
    && (Past(places[p], 12, j) ==> places[j].stage >= 12)
  }

  ghost predicate Inv(st: State, clients: seq<bool>, stale: set<nat>) {
    && Sized(st, clients)
    && (forall p :: 0 <= p < |clients| ==> PlaceOk(|clients|, st.places[p]))
    && (forall p :: 0 <= p < |clients| && !clients[p] ==> st.places[p].stage != 10)
    && (forall k :: k in st.store <==> Present(st.places, stale, k))
    && (forall k :: k in st.store ==> st.store[k] == ValueOf(k))
    && (forall p, j :: 0 <= p < |clients| && 0 <= j < |clients| && p != j ==> BarriersOk(clients, st.places, p, j))
    && (forall p, j :: 0 <= p < |clients| && 0 <= j < |clients| && p != j && Past(st.places[p], 4, j) ==>
          j in st.links[p] && st.links[p][j] == Info(j, p))
  }

  lemma {:induction false} InitInv(clients: seq<bool>, stale: set<nat>)
    requires |clients| > 0
    ensures Inv(Init(|clients|, stale), clients, stale)
  {}

  /** A process that looks at j while past a barrier, or sits at one, bounds how far j can be. */
  lemma {:induction false} Behind(st: State, clients: seq<bool>, stale: set<nat>, p: nat, j: nat)
    requires Inv(st, clients, stale) && p < |clients| && j < |clients| && p != j
    ensures st.places[p].stage < 2 ==> st.places[j].stage <= 2
    ensures st.places[p].stage < 6 ==> st.places[j].stage <= 6
    ensures st.places[p].stage < 12 ==> st.places[j].stage <= 12
    ensures st.places[p].stage > 2 ==> st.places[j].stage >= 2
    ensures st.places[p].stage > 6 ==> st.places[j].stage >= 6
  {
    assert BarriersOk(clients, st.places, j, p);
    assert BarriersOk(clients, st.places, p, j);
  }

  /** Nothing a process is about to do throws: no connect misses its peer's data, no set meets an existing
      key, and no awaited mark holds a wrong value. */
  lemma {:induction false} NeverThrows(st: State, clients: seq<bool>, stale: set<nat>, p: nat)
    requires Inv(st, clients, stale) && p < |clients|
    ensures !Step(st, clients, p).Throws?
  {
    var pl := st.places[p];
    match InstructionAt(p, pl)
    case SetKey(k) => assert !Present(st.places, stale, k);
    case RemoveKey(_) =>
    case Connect(j) =>
      Behind(st, clients, stale, p, j);
      assert BarriersOk(clients, st.places, j, p);
      assert Present(st.places, stale, Qp(j, p));
    case Wait(j, reason) =>
    case Skip =>
  }

  /** A mark that is awaited and found was set in this run, even where an earlier run may have left one. */
  lemma {:induction false} AwaitedMarkIsNew(st: State, clients: seq<bool>, stale: set<nat>, p: nat)
    requires Inv(st, clients, stale) && p < |clients|
    requires InstructionAt(p, st.places[p]).Wait? && Step(st, clients, p).Ran?
    ensures var w := InstructionAt(p, st.places[p]);
            && w.peer < |clients|
            && (w.reason.Prepared? ==> st.places[w.peer].stage >= 2)
            && (w.reason.Connected? ==> st.places[w.peer].stage >= 6)
            && (w.reason.Initialized? ==> st.places[w.peer].stage >= 10)
            && (w.reason.Finished? ==> st.places[w.peer].stage >= 12)
  {
    var w := InstructionAt(p, st.places[p]);
    assert Present(st.places, stale, Ready(w.peer, w.reason));
    if w.reason.Finished? { Behind(st, clients, stale, p, w.peer); }
  }

  // ---------- every step keeps the invariant ----------

  lemma {:induction false} StoreFollows(st: State, clients: seq<bool>, stale: set<nat>, p: nat)
    requires Inv(st, clients, stale) && p < |clients| && Step(st, clients, p).Ran?
    ensures var st' := Step(st, clients, p).result;
            && (forall k :: k in st'.store <==> Present(st'.places, stale, k))
            && (forall k :: k in st'.store ==> st'.store[k] == ValueOf(k))
  {
    hide BarriersOk;
    var st' := Step(st, clients, p).result;
    var ins := InstructionAt(p, st.places[p]);
    forall k ensures k in st'.store <==> Present(st'.places, stale, k) {
      OwnKeysChange(st, clients, stale, p, k);
    }
  }

  /** A step changes the presence of the key it names and of no other. */
  lemma {:induction false} OwnKeysChange(st: State, clients: seq<bool>, stale: set<nat>, p: nat, k: Key)
    requires Inv(st, clients, stale) && p < |clients| && Step(st, clients, p).Ran?
    ensures var ins := InstructionAt(p, st.places[p]); var later := Step(st, clients, p).result.places;
            Present(later, stale, k) <==>
              if ins.SetKey? && ins.key == k then true
              else if ins.RemoveKey? && ins.key == k then false
              else Present(st.places, stale, k)
  {
    hide BarriersOk;
  }

  lemma {:induction false} BarrierStep(st: State, clients: seq<bool>, stale: set<nat>, p: nat, q: nat, j: nat)
    requires Inv(st, clients, stale) && p < |clients| && q < |clients| && j < |clients| && q != j
    requires Step(st, clients, p).Ran?
    ensures BarriersOk(clients, Step(st, clients, p).result.places, q, j)
  {
    assert BarriersOk(clients, st.places, q, j);
    if q == p && InstructionAt(p, st.places[p]).Wait? { AwaitedMarkIsNew(st, clients, stale, p); }
  }

  lemma {:induction false} StepKeepsInv(st: State, clients: seq<bool>, stale: set<nat>, p: nat)
    requires Inv(st, clients, stale) && p < |clients| && Step(st, clients, p).Ran?
    ensures Inv(Step(st, clients, p).result, clients, stale)
  {
    hide BarriersOk, Present;
    var st' := Step(st, clients, p).result;
    StoreFollows(st, clients, stale, p);
    forall q, j | 0 <= q < |clients| && 0 <= j < |clients| && q != j ensures BarriersOk(clients, st'.places, q, j) {
      BarrierStep(st, clients, stale, p, q, j);
    }
    LinksFollow(st, clients, stale, p);
  }

  lemma {:induction false} LinksFollow(st: State, clients: seq<bool>, stale: set<nat>, p: nat)
    requires Inv(st, clients, stale) && p < |clients| && Step(st, clients, p).Ran?
    ensures var st' := Step(st, clients, p).result;
            && (forall q :: 0 <= q < |clients| ==> PlaceOk(|clients|, st'.places[q]))
            && (forall q :: 0 <= q < |clients| && !clients[q] ==> st'.places[q].stage != 10)
            && forall q, j :: 0 <= q < |clients| && 0 <= j < |clients| && q != j && Past(st'.places[q], 4, j) ==>
                 j in st'.links[q] && st'.links[q][j] == Info(j, q)
  {
    hide BarriersOk, Present;
  }

  // ---------- nothing gets stuck ----------

  /** A process that has gone least far can always take its next step. */
  lemma {:induction false} LeastCanStep(st: State, clients: seq<bool>, stale: set<nat>, p: nat)
    requires Inv(st, clients, stale) && p < |clients| && st.places[p].stage < 15
    requires forall j :: 0 <= j < |clients| ==> st.places[p].stage <= st.places[j].stage
    ensures Step(st, clients, p).Ran?
  {
    NeverThrows(st, clients, stale, p);
    var ins := InstructionAt(p, st.places[p]);
    if ins.Wait? {
      var j := ins.peer;
      assert j != p && j < |clients|;
      Behind(st, clients, stale, p, j);
      assert BarriersOk(clients, st.places, j, p);
      assert Present(st.places, stale, Ready(j, ins.reason));
    }
  }

  /** Somebody who has gone least far. */
  function Least(places: seq<Place>): (p: nat)
    requires |places| > 0
    ensures p < |places| && forall j :: 0 <= j < |places| ==> places[p].stage <= places[j].stage
  {
    var n := |places| - 1;
    if n == 0 then 0
    else
      var p := Least(places[..n]);
      assert forall j :: 0 <= j < n ==> places[..n][j] == places[j];
      if places[p].stage <= places[n].stage then p else n
  }

  /** No state short of the end is stuck. */
  lemma {:induction false} NeverStuck(st: State, clients: seq<bool>, stale: set<nat>)
    requires Inv(st, clients, stale) && !AllDone(st)
    ensures exists p :: 0 <= p < |clients| && CanStep(st, clients, p)
  {
    var p := Least(st.places);
    LeastCanStep(st, clients, stale, p);
    assert CanStep(st, clients, p);
  }

  predicate CanStep(st: State, clients: seq<bool>, p: nat)
    requires Sized(st, clients) && p < |clients|
  {
    st.places[p].stage < 15 && Step(st, clients, p).Ran?
  }

  // ---------- whole runs ----------

  /** A run lets the processes take their steps in any order; a wait that finds nothing changes nothing. */
  ghost predicate IsRun(clients: seq<bool>, stale: set<nat>, states: seq<State>, order: seq<nat>) {
    && |clients| > 0 && |states| == |order| + 1 && states[0] == Init(|clients|, stale)
    && forall k :: 0 <= k < |order| ==> TakesStep(clients, states[k], order[k], states[k + 1])
  }

  ghost predicate TakesStep(clients: seq<bool>, st: State, p: nat, st': State) {
    Sized(st, clients) && p < |clients| && CanStep(st, clients, p) && Step(st, clients, p) == Ran(st')
  }

  lemma {:induction false} RunKeepsInv(clients: seq<bool>, stale: set<nat>, states: seq<State>, order: seq<nat>, k: nat)
    requires IsRun(clients, stale, states, order) && k < |states|
    ensures Inv(states[k], clients, stale)
  {
    hide Inv, Step, Init, CanStep;
    if k == 0 { InitInv(clients, stale); } else {
      RunKeepsInv(clients, stale, states, order, k - 1);
      assert TakesStep(clients, states[k - 1], order[k - 1], states[k]);
      StepKeepsInv(states[k - 1], clients, stale, order[k - 1]);
    }
  }

  /** In every state of every run: no process can fail, somebody can move unless all are done, and whoever is past
      a barrier knows that everybody else has announced in this run what was waited for: "prepared" before anybody
      connects, "connected" before connection data is withdrawn, "initialized" before a client goes to work, and
      "finished" before the last marks go. By then everybody is connected to everybody else's data. */
  lemma {:induction false} EveryRunIsSafe(clients: seq<bool>, stale: set<nat>, states: seq<State>, order: seq<nat>, k: nat)
    requires IsRun(clients, stale, states, order) && k < |states|
    ensures Sized(states[k], clients)
    ensures forall p :: 0 <= p < |clients| ==> !Step(states[k], clients, p).Throws?
    ensures AllDone(states[k]) || exists p :: 0 <= p < |clients| && CanStep(states[k], clients, p)
    ensures forall p, j :: 0 <= p < |clients| && 0 <= j < |clients| && p != j ==>
      KnowsOf(clients[p], p, j, states[k].places[p], states[k].places[j], states[k].links[p])
  {
    RunKeepsInv(clients, stale, states, order, k);
    forall p | 0 <= p < |clients| ensures !Step(states[k], clients, p).Throws? {
      NeverThrows(states[k], clients, stale, p);
    }
    if !AllDone(states[k]) { NeverStuck(states[k], clients, stale); }
    forall p, j | 0 <= p < |clients| && 0 <= j < |clients| && p != j
      ensures KnowsOf(clients[p], p, j, states[k].places[p], states[k].places[j], states[k].links[p])
    {
      assert BarriersOk(clients, states[k].places, p, j);
    }
  }

  /** What p, at its place, may rely on about another process j: how many stages j has behind it, and the link to it. */
  ghost predicate KnowsOf(client: bool, p: nat, j: nat, at: Place, other: Place, links: map<nat, Value>) {
    && (at.stage > 2 ==> other.stage >= 2)
    && (at.stage > 4 ==> j in links && links[j] == Info(j, p))
    && (at.stage > 6 ==> other.stage >= 6)
    && (client && at.stage > 10 ==> other.stage >= 10)
    && (at.stage > 12 ==> other.stage >= 12)
  }

  /** Once everybody is done the store holds exactly everybody's "finished" mark, besides marks of
      processes that did not take part: a store the next run can start from. */
  lemma {:induction false} DoneLeavesFinishedMarks(clients: seq<bool>, stale: set<nat>, states: seq<State>, order: seq<nat>, k: nat)
    requires IsRun(clients, stale, states, order) && k < |states| && AllDone(states[k])
    ensures states[k].store == Leftover(stale + UpTo(|clients|))
  {
    RunKeepsInv(clients, stale, states, order, k);
    hide IsRun, BarriersOk;
    AllDoneStore(states[k], clients, stale);
  }

  lemma {:induction false} AllDoneStore(st: State, clients: seq<bool>, stale: set<nat>)
    requires Inv(st, clients, stale) && AllDone(st)
    ensures st.store == Leftover(stale + UpTo(|clients|))
  {
    hide BarriersOk, UpTo;
    var marks := Leftover(stale + UpTo(|clients|));
    forall k ensures k in st.store <==> k in marks {
      DonePresent(st, clients, stale, k);
    }
  }

  lemma {:induction false} DonePresent(st: State, clients: seq<bool>, stale: set<nat>, k: Key)
    requires Sized(st, clients) && AllDone(st)
    ensures Present(st.places, stale, k) <==> k in Marks(stale + UpTo(|clients|))
  {
    hide UpTo;
  }

  // ---------- runs end ----------

  /** What a process still has to do, counted in steps. */
  function Left(n: nat, pl: Place): nat {
    if pl.stage >= 15 || pl.at > n then 0 else (15 - pl.stage) * (n + 1) - pl.at
  }

  function TotalLeft(n: nat, places: seq<Place>): nat {
    if places == [] then 0 else TotalLeft(n, places[..|places| - 1]) + Left(n, places[|places| - 1])
  }

  lemma {:induction false} AdvanceDoesLess(n: nat, client: bool, pl: Place)
    requires PlaceOk(n, pl) && pl.stage < 15
    ensures Left(n, Advance(n, client, pl)) < Left(n, pl)
  {}

  lemma {:induction false} TotalFalls(n: nat, places: seq<Place>, p: nat, pl: Place)
    requires p < |places| && Left(n, pl) < Left(n, places[p])
    ensures TotalLeft(n, places[p := pl]) < TotalLeft(n, places)
  {
    var k := |places| - 1;
    if p == k {
      assert places[p := pl][..k] == places[..k];
    } else {
      assert places[p := pl][..k] == places[..k][p := pl];
      TotalFalls(n, places[..k], p, pl);
    }
  }

  /** Every step leaves strictly less to do, so no run is longer than what there was to do at the start. */
  lemma {:induction false} RunsEnd(clients: seq<bool>, stale: set<nat>, states: seq<State>, order: seq<nat>, k: nat)
    requires IsRun(clients, stale, states, order) && k < |states|
    ensures TotalLeft(|clients|, states[k].places) + k <= TotalLeft(|clients|, states[0].places)
  {
    if k > 0 {
      RunsEnd(clients, stale, states, order, k - 1);
      RunKeepsInv(clients, stale, states, order, k - 1);
      var st, p := states[k - 1], order[k - 1];
      assert TakesStep(clients, st, p, states[k]);
      AdvanceDoesLess(|clients|, clients[p], st.places[p]);
      TotalFalls(|clients|, st.places, p, Advance(|clients|, clients[p], st.places[p]));
    }
  }
}
