/** Clients and replicas of one replicated register as interleaved steps. A step is one client starting
    an operation, one server executing one request, one client polling one completion, or one client
    stepping its operation forward. */
module RegisterProtocol {
  import opened Registers

  datatype Config = Config(clients: nat, servers: nat, quorum: nat, cacheOn: bool, writebackOn: bool) {
    ghost predicate Valid() {
      1 <= quorum <= servers && clients <= 256
    }

    /** A client's quorum is fixed: the servers following its own index. */
    function Server(c: nat, i: nat): (s: nat)
      requires servers > 0
      ensures s < servers
    {
      (c + i) % servers
    }
  }

  datatype Phase = Idle | Reading(range: bool) | WritingBack | PutReading | Optimism | Casing

  /** Where the request of a slot is: nothing outstanding, not yet executed, or executed and not yet polled. */
  datatype Flight = Quiet | Out | Back

  /** puts counts the finished puts and floor is the sequence number of the last one's final target. */
  datatype Client = Client(
    phase: Phase, data: PutData, flight: seq<Flight>, got: seq<Register>, swaps: seq<Register>,
    best: Register, cache: Option<Register>, puts: nat, floor: nat) {

    predicate AllQuiet() {
      forall i :: 0 <= i < |flight| ==> flight[i].Quiet?
    }
  }

  /** issued maps every register a put ever tried to install to that put's number at its client. */
  datatype State = State(replicas: seq<Register>, clients: seq<Client>, issued: map<Register, nat>)

  datatype Event =
    | StartPut(c: nat, value: nat) | StartGet(c: nat) | StartRange(c: nat)
    | Execute(c: nat, slot: nat) | Poll(c: nat, slot: nat) | Forward(c: nat)

  function IdleClient(q: nat): Client {
    Client(Idle, PutData(0, seq(q, _ => false), seq(q, _ => ZERO), ZERO), seq(q, _ => Quiet),
           seq(q, _ => ZERO), seq(q, _ => ZERO), ZERO, None, 0, 0)
  }

  function Init(cfg: Config): State {
    State(seq(cfg.servers, _ => ZERO), seq(cfg.clients, _ => IdleClient(cfg.quorum)), map[])
  }

  predicate Enabled(cfg: Config, s: State, e: Event) {
    && e.c < |s.clients|
    && var x := s.clients[e.c];
       match e
       case StartPut(_, _) => x.phase.Idle?
       case StartGet(_) => x.phase.Idle?
       case StartRange(_) => x.phase.Idle?
       case Execute(_, i) => i < |x.flight| && x.flight[i].Out?
       case Poll(_, i) => i < |x.flight| && x.flight[i].Back?
       case Forward(_) => x.AllQuiet() && !x.phase.Idle?
  }

  function AllOut(q: nat): seq<Flight> { seq(q, _ => Out) }

  function Posted(flags: seq<bool>): (f: seq<Flight>)
    ensures |f| == |flags| && forall i :: 0 <= i < |f| ==> f[i] == if flags[i] then Out else Quiet
  {
    seq(|flags|, i requires 0 <= i < |flags| => if flags[i] then Out else Quiet)
  }

  function StartedPut(cfg: Config, c: nat, x: Client, value: nat): Client {
    if x.cache.Some? then
      x.(phase := Optimism, data := Optimistic(c, value, x.cache.value, cfg.quorum), flight := AllOut(cfg.quorum))
    else
      x.(phase := PutReading, data := x.data.(value := value), flight := AllOut(cfg.quorum))
  }

  /** What the request of slot i expects and installs, in the phases that send compare-and-swaps. */
  function Expects(x: Client, i: nat): Register
    requires i < |x.got| && i < |x.data.expected|
  {
    if x.phase.WritingBack? then x.got[i] else x.data.expected[i]
  }

  function Installs(x: Client): Register {
    if x.phase.WritingBack? then x.best else x.data.target
  }

  predicate SendsReads(x: Client) {
    x.phase.Reading? || x.phase.PutReading?
  }

  /** The client after its put's data became d. */
  function PutOn(cfg: Config, x: Client, d: PutData): Client {
    if d.Finished() then
      x.(phase := Idle, data := d, puts := x.puts + 1, floor := d.target.num,
         cache := if cfg.cacheOn then Some(d.target) else x.cache)
    else
      x.(phase := Casing, data := d, flight := Posted(d.needs))
  }

  function Forwarded(cfg: Config, c: nat, x: Client): Client
    requires |x.swaps| == |x.got| == cfg.quorum && x.data.Shape(cfg.quorum)
  {
    match x.phase
    case Idle => x
    case Reading(range) =>
      var best := if range && |x.got| > 0 then MaxRegister(x.got[0], x.got[1..]) else MaxRegister(ZERO, x.got);
      var y := x.(best := best, cache := if cfg.cacheOn then Some(best) else x.cache);
      var behind := seq(|x.got|, i requires 0 <= i < |x.got| => x.got[i] != best);
      if !range && cfg.writebackOn && exists i :: 0 <= i < |x.got| && x.got[i] != best
      then y.(phase := WritingBack, flight := Posted(behind))
      else y.(phase := Idle)
    case WritingBack => x.(phase := Idle)
    case PutReading => PutOn(cfg, x, AfterReads(c, x.data.value, x.got))
    case Optimism => PutOn(cfg, x, AfterOptimistic(c, x.data, x.swaps))
    case Casing => PutOn(cfg, x, AfterCas(c, x.data, x.swaps))
  }

  predicate Shaped(cfg: Config, x: Client) {
    |x.flight| == |x.got| == |x.swaps| == |x.data.needs| == |x.data.expected| == cfg.quorum
  }

  ghost predicate WellFormed(cfg: Config, s: State) {
    && |s.replicas| == cfg.servers && |s.clients| == cfg.clients
    && forall c :: 0 <= c < |s.clients| ==> Shaped(cfg, s.clients[c])
  }

  /** The client's register as its put now targets it, filed under the put's number. */
  function Filed(issued: map<Register, nat>, x: Client): map<Register, nat> {
    if x.phase.Optimism? || x.phase.Casing? then issued[x.data.target := x.puts] else issued
  }

  ghost function Apply(cfg: Config, s: State, e: Event): State
    requires cfg.Valid() && WellFormed(cfg, s) && Enabled(cfg, s, e)
  {
    var c, x := e.c, s.clients[e.c];
    match e
    case StartPut(_, v) =>
      var y := StartedPut(cfg, c, x, v);
      s.(clients := s.clients[c := y], issued := Filed(s.issued, y))
    case StartGet(_) => s.(clients := s.clients[c := x.(phase := Reading(false), flight := AllOut(cfg.quorum))])
    case StartRange(_) => s.(clients := s.clients[c := x.(phase := Reading(true), flight := AllOut(cfg.quorum))])
    case Execute(_, i) =>
      var k := cfg.Server(c, i);
      var r := s.replicas[k];
      var y := x.(flight := x.flight[i := Back]);
      if SendsReads(x) then s.(clients := s.clients[c := y.(got := x.got[i := r])])
      else
        s.(replicas := if r == Expects(x, i) then s.replicas[k := Installs(x)] else s.replicas,
           clients := s.clients[c := y.(swaps := x.swaps[i := r])])
    case Poll(_, i) => s.(clients := s.clients[c := x.(flight := x.flight[i := Quiet])])
    case Forward(_) =>
      var y := Forwarded(cfg, c, x);
      s.(clients := s.clients[c := y], issued := Filed(s.issued, y))
  }

  /** Sequence numbers in use leave the last one free, so none wraps. */
  ghost predicate Room(s: State) {
    forall r :: r in s.issued ==> r.num < SEQ_LIMIT - 1
  }
}
