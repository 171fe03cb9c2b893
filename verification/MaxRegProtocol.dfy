/** Clients, servers and the network of the max register for one key, as interleaved steps, and the rules
    under which a client may start an operation. */
module MaxRegProtocol {
  import opened Registers
  import opened MaxReg

  datatype Config = Config(servers: nat, clients: nat, majority: nat)

  /** slots[s][c] is client c's timestamp at server s. goals[c] is what client c's last operation was asked
      to write and bases[c] are all slots as they were when it started. */
  datatype State = State(slots: seq<seq<nat>>, clients: seq<Client>, goals: seq<nat>, bases: seq<seq<seq<nat>>>)

  datatype Event =
    | Start(c: nat, anew: bool, kind: Kind)
    | ReadSlot(c: nat, s: nat, j: nat)
    | Swap(c: nat, s: nat)
    | Notify(c: nat, s: nat)
    | Forward(c: nat, skip: set<nat>)

  ghost predicate Sized(cfg: Config, slots: seq<seq<nat>>) {
    |slots| == cfg.servers && forall s :: 0 <= s < cfg.servers ==> |slots[s]| == cfg.clients
  }

  ghost predicate WellFormed(cfg: Config, st: State) {
    && Sized(cfg, st.slots) && |st.clients| == |st.goals| == |st.bases| == cfg.clients
    && (forall c :: 0 <= c < cfg.clients ==> Shaped(st.clients[c], cfg.servers, cfg.clients))
  }

  predicate Idle(x: Client) {
    x.phase.Finished? || x.phase.Linearized?
  }

  function Fresh(x: Client, anew: bool): Client {
    if anew then ForKV(x) else x
  }

  /** What the code itself asks: one operation after the other, and a new session on the key only once
      nothing of the last one is out. */
  ghost predicate Possible(cfg: Config, st: State, e: Event)
    requires WellFormed(cfg, st)
  {
    && e.c < cfg.clients
    && var x := st.clients[e.c];
       match e
       case Start(_, anew, kind) => Idle(x) && (anew ==> forall s :: 0 <= s < cfg.servers ==> x.traffic[s].None?)
       case ReadSlot(_, s, j) =>
         && s < cfg.servers && j < cfg.clients && x.traffic[s].Some?
         && x.traffic[s].value.wantsArray && x.traffic[s].value.slots[j].None?
       case Swap(_, s) => s < cfg.servers && x.traffic[s].Some? && x.traffic[s].value.swaps && x.traffic[s].value.swapback.None?
       case Notify(_, s) => s < cfg.servers && x.traffic[s].Some? && x.traffic[s].value.notifs && !x.traffic[s].value.notified
       case Forward(_, _) => true
  }

  function WithMessage(x: Client, s: nat, m: Message): Client
    requires s < |x.traffic|
  {
    x.(traffic := x.traffic[s := Some(m)])
  }

  /** A server executes a compare-and-swap on the client's slot. */
  function Swapped(slots: seq<nat>, c: nat, m: Message): seq<nat>
    requires c < |slots|
  {
    if slots[c] == m.expected then slots[c := m.value] else slots
  }

  ghost function Apply(cfg: Config, st: State, e: Event): State
    requires WellFormed(cfg, st) && Possible(cfg, st, e)
  {
    var c, x := e.c, st.clients[e.c];
    match e
    case Start(_, anew, kind) =>
      var y := Fresh(x, anew);
      st.(clients := st.clients[c := Started(y, kind)], goals := st.goals[c := Asked(y, kind)],
          bases := st.bases[c := st.slots])
    case ReadSlot(_, s, j) =>
      var m := x.traffic[s].value;
      st.(clients := st.clients[c := WithMessage(x, s, m.(slots := m.slots[j := Some(st.slots[s][j])]))])
    case Swap(_, s) =>
      var m := x.traffic[s].value;
      st.(slots := st.slots[s := Swapped(st.slots[s], c, m)],
          clients := st.clients[c := WithMessage(x, s, m.(swapback := Some(st.slots[s][c])))])
    case Notify(_, s) =>
      var m := x.traffic[s].value;
      st.(clients := st.clients[c := WithMessage(x, s, m.(notified := true))])
    case Forward(_, skip) => st.(clients := st.clients[c := Forwarded(x, skip, cfg.majority, c, cfg.clients)])
  }

  function InitClient(cfg: Config, inPlace: seq<bool>): Client {
    Client(seq(cfg.servers, _ => Future(Done, None, 0, None, 0)), seq(cfg.servers, _ => None), seq(cfg.servers + 1, _ => 0),
           0, 0, 0, Finished, inPlace, 0)
  }

  function Init(cfg: Config, inPlace: seq<seq<bool>>): State
    requires |inPlace| == cfg.clients
  {
    var slots := seq(cfg.servers, _ => seq(cfg.clients, _ => 0));
    State(slots, seq(cfg.clients, c requires 0 <= c < cfg.clients => InitClient(cfg, inPlace[c])),
          seq(cfg.clients, _ => 0), seq(cfg.clients, _ => slots))
  }

  // ---------- the rules ----------

  /** A swap that is out from client c to a server with these slots has failed or is going to. */
  predicate Fails(slots: seq<nat>, c: nat, m: Message)
    requires c < |slots|
  {
    if m.swapback.Some? then m.swapback.value != m.expected else slots[c] != m.expected
  }

  /** Reusing the write entry for tsp while this swap made from it is out does no harm: it carries enough, the
      server holds enough anyway, or it fails. */
  predicate Harmless(slots: seq<nat>, c: nat, m: Message, tsp: nat)
    requires c < |slots|
  {
    Verified(m.value) >= tsp || Verified(MaxOf(slots)) >= tsp || Fails(slots, c, m)
  }

  /** A swap is out to server s that was made from entry e. */
  predicate OutFrom(x: Client, s: nat, e: nat)
    requires s < |x.futures| == |x.traffic|
  {
    x.traffic[s].Some? && x.traffic[s].value.swaps && x.futures[s].ongoing == e
  }

  /** Rule 1, for local writes: the write entry is reused only where that is harmless. */
  ghost predicate EntryFree(slots: seq<seq<nat>>, c: nat, x: Client, tsp: nat)
    requires |slots| == |x.futures| == |x.traffic| && forall s :: 0 <= s < |slots| ==> c < |slots[s]|
  {
    forall s :: 0 <= s < |slots| && OutFrom(x, s, 0) ==> Harmless(slots[s], c, x.traffic[s].value, tsp)
  }

  /** Rule 2: no swap made from a read buffer is out. */
  predicate BuffersFree(x: Client)
    requires |x.futures| == |x.traffic|
  {
    forall s :: 0 <= s < |x.futures| && x.traffic[s].Some? && x.traffic[s].value.swaps ==> x.futures[s].ongoing == 0
  }

  /** Rule 3: timestamps made by the client do not fall below what it wrote before. */
  predicate NotLower(x: Client, kind: Kind) {
    kind.IsLocal() ==> kind.tsp >= x.high
  }

  /** Rule 4: what is replicated was seen since forKV. Rule 5: nothing is out to the server whose buffer it is in. */
  predicate BufferFilled(x: Client, kind: Kind)
    requires x.readEntry < |x.traffic|
  {
    kind.Replicates() ==> x.maxTsp > 0 && x.traffic[x.readEntry].None?
  }

  /** Rules 2 to 5. */
  predicate OtherRules(x: Client, kind: Kind)
    requires |x.futures| == |x.traffic| && x.readEntry < |x.traffic|
  {
    BuffersFree(x) && NotLower(x, kind) && BufferFilled(x, kind)
  }

  ghost predicate Allowed(cfg: Config, st: State, e: Event)
    requires WellFormed(cfg, st) && Possible(cfg, st, e)
  {
    e.Start? ==>
      var y := Fresh(st.clients[e.c], e.anew);
      OtherRules(y, e.kind) && (e.kind.IsLocal() ==> EntryFree(st.slots, e.c, y, e.kind.tsp))
  }

  /** A caller can see to rule 1 without knowing what servers hold. */
  lemma {:induction false} CallerCanCheck(slots: seq<seq<nat>>, c: nat, x: Client, tsp: nat)
    requires |slots| == |x.futures| == |x.traffic| && forall s :: 0 <= s < |slots| ==> c < |slots[s]|
    requires forall s :: 0 <= s < |slots| && OutFrom(x, s, 0) ==> Verified(x.traffic[s].value.value) >= tsp
    ensures EntryFree(slots, c, x, tsp)
  {}

  ghost predicate AtMost(a: seq<nat>, b: seq<nat>) {
    |a| == |b| && forall j :: 0 <= j < |a| ==> a[j] <= b[j]
  }

  lemma {:induction false} MaxOfAtMost(a: seq<nat>, b: seq<nat>)
    requires AtMost(a, b)
    ensures MaxOf(a) <= MaxOf(b)
  {
    if MaxOf(a) > 0 {
      var j :| 0 <= j < |a| && a[j] == MaxOf(a);
      assert a[j] <= b[j];
    }
  }

  // ---------- runs ----------

  ghost predicate IsStep(cfg: Config, st: State, e: Event, st': State) {
    WellFormed(cfg, st) && Possible(cfg, st, e) && st' == Apply(cfg, st, e)
  }

  /** A run from any state, of anything the code permits. */
  ghost predicate IsPath(cfg: Config, states: seq<State>, events: seq<Event>) {
    && |states| == |events| + 1
    && forall k :: 0 <= k < |events| ==> IsStep(cfg, states[k], events[k], states[k + 1])
  }

  ghost predicate RuleKept(cfg: Config, st: State, e: Event) {
    WellFormed(cfg, st) && Possible(cfg, st, e) && Allowed(cfg, st, e)
  }

  /** A run from the start in which every operation is started by the rules. */
  ghost predicate IsRun(cfg: Config, inPlace: seq<seq<bool>>, states: seq<State>, events: seq<Event>) {
    && cfg.servers > 0 && |inPlace| == cfg.clients && (forall c :: 0 <= c < cfg.clients ==> |inPlace[c]| == cfg.servers)
    && IsPath(cfg, states, events) && states[0] == Init(cfg, inPlace)
    && forall k :: 0 <= k < |events| ==> RuleKept(cfg, states[k], events[k])
  }
}
