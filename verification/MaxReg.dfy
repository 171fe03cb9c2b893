/** A client's view of one server's max register, and the majority layer above it. A timestamp carries
    its verified flag in the lowest bit. */
module MaxReg {
  import opened Registers

  function Verified(tsp: nat): nat { if tsp % 2 == 0 then tsp + 1 else tsp }

  datatype Step = ReadTs | TryWriteAll | WriteAll | WriteTsAndIn | WriteTs | ReplicateAll | ReplicateTs | ReadNotifs | Done {
    predicate Swaps() { this in {TryWriteAll, WriteAll, WriteTsAndIn, WriteTs, ReplicateAll, ReplicateTs} }
    predicate Reads() { this in {ReadTs, TryWriteAll} }
    predicate AsksNotifs() { this in {ReplicateAll, ReplicateTs, ReadNotifs} }
  }

  /** What one client remembers about one server for the key at hand. ongoing is the entry from which its
      latest request was made: 0 is the client's write entry, 1 + k its read buffer for server k. */
  datatype Future = Future(step: Step, next: Option<Step>, maxSeen: nat, myLast: Option<nat>, ongoing: nat) {
    function Mine(): nat { if myLast.Some? then myLast.value else 0 }

    predicate IsDone() {
      step.Done? && (next.None? || next == Some(Done))
    }

    predicate IsLinearized(entry: nat) {
      (step.Done? && next.None?) || next == Some(Done) || Verified(maxSeen) >= entry
    }
  }

  /** The step that starting at s comes down to: nothing already known to be there is written again. */
  function NextStep(f: Future, entry: nat, s: Step): Step {
    match s
    case ReplicateAll => if entry < Verified(f.maxSeen) then ReadNotifs else s
    case ReplicateTs => if entry < Verified(f.maxSeen) then ReadNotifs else s
    case WriteAll => if entry < Verified(f.maxSeen) then NextWriteTs(f, entry) else s
    case TryWriteAll => if entry < Verified(f.maxSeen) then NextWriteTs(f, entry) else s
    case WriteTs => NextWriteTs(f, entry)
    case _ => s
  }

  function NextWriteTs(f: Future, entry: nat): Step {
    if entry < f.maxSeen then Done else WriteTs
  }

  function DoNext(f: Future, entry: nat, s: Step): Future {
    f.(next := Some(NextStep(f, entry, s)))
  }

  function Target(f: Future, entry: nat, s: Step): Step {
    match s
    case ReplicateAll => if entry <= Verified(f.maxSeen) then ReadNotifs else s
    case ReplicateTs => if entry <= Verified(f.maxSeen) then ReadNotifs else s
    case WriteAll => if entry <= Verified(f.maxSeen) then TargetWriteTs(f, entry) else s
    case TryWriteAll => if entry <= Verified(f.maxSeen) then TargetWriteTs(f, entry) else s
    case WriteTs => TargetWriteTs(f, entry)
    case _ => s
  }

  function TargetWriteTs(f: Future, entry: nat): Step {
    if entry <= f.maxSeen then Done else WriteTs
  }

  /** Takes a step on behalf of entry number `write`, which holds the timestamp `entry`. */
  function TransitionTo(f: Future, entry: nat, write: nat, s: Step): Future {
    var step := Target(f, entry, s);
    f.(step := step, ongoing := if step.Done? then f.ongoing else write)
  }

  /** Requests on their way to a server: a read of its timestamp array, slot by slot, a compare-and-swap
      on the client's own slot, a read of notifications, or several of them. */
  datatype Message = Message(wantsArray: bool, swaps: bool, notifs: bool, expected: nat, value: nat,
                             slots: seq<Option<nat>>, swapback: Option<nat>, notified: bool) {
    predicate Complete() {
      && (wantsArray ==> forall j :: 0 <= j < |slots| ==> slots[j].Some?)
      && (swaps ==> swapback.Some?)
      && (notifs ==> notified)
    }
  }

  /** An array none of whose slots has been read. */
  function Unread(n: nat): (r: seq<Option<nat>>)
    ensures |r| == n && forall j :: 0 <= j < n ==> r[j].None?
  {
    seq(n, _ => None)
  }

  function Request(f: Future, entry: nat, clients: nat): Option<Message> {
    if f.step.Done? then None
    else Some(Message(f.step.ReadTs? || (f.step.TryWriteAll? && clients > 1), f.step.Swaps(), f.step.AsksNotifs(),
                      f.Mine(), entry, Unread(clients), None, false))
  }

  function MaxOf(tsps: seq<nat>): (m: nat)
    ensures forall j :: 0 <= j < |tsps| ==> tsps[j] <= m
    ensures m == 0 || m in tsps
  {
    if tsps == [] then 0 else Max(MaxOf(tsps[..|tsps| - 1]), tsps[|tsps| - 1])
  }

  function Filled(slots: seq<Option<nat>>): (a: seq<nat>)
    ensures |a| == |slots| && forall j :: 0 <= j < |a| ==> a[j] == if slots[j].Some? then slots[j].value else 0
  {
    seq(|slots|, j requires 0 <= j < |slots| => if slots[j].Some? then slots[j].value else 0)
  }

  /** The answer of a finished compare-and-swap: on success the client takes its slot to hold what the
      entry it was made from says now. */
  function AbsorbSwap(f: Future, entry: nat, swapback: nat): Future {
    var mine := if f.Mine() == swapback then entry else swapback;
    f.(myLast := Some(mine), maxSeen := Max(f.maxSeen, mine))
  }

  function AbsorbArray(f: Future, a: seq<nat>, me: nat): Future
    requires me < |a|
  {
    var g := f.(maxSeen := Max(f.maxSeen, MaxOf(a)));
    if f.step.TryWriteAll? then g else g.(myLast := Some(a[me]))
  }

  function Absorb(f: Future, tsps: seq<nat>, m: Message, me: nat): (g: Future)
    requires me < |m.slots| && f.ongoing < |tsps|
    ensures g.step == f.step && g.next == f.next && g.ongoing == f.ongoing
  {
    var g := if m.swaps && m.swapback.Some? then AbsorbSwap(f, tsps[f.ongoing], m.swapback.value) else f;
    if m.wantsArray then AbsorbArray(g, Filled(m.slots), me) else g
  }

  /** The step after an answer has been absorbed. */
  function Onward(f: Future, entry: nat, write: nat): Future {
    if f.next.Some? then TransitionTo(f.(next := None), entry, write, f.next.value)
    else match f.step
      case WriteAll => TransitionTo(f, entry, write, WriteTs)
      case WriteTsAndIn => TransitionTo(f, entry, write, WriteTs)
      case WriteTs => TransitionTo(f, entry, write, WriteTs)
      case ReplicateAll => TransitionTo(f, entry, write, if entry < Verified(f.maxSeen) then Done else ReplicateTs)
      case ReplicateTs => TransitionTo(f, entry, write, if entry < Verified(f.maxSeen) then Done else ReplicateTs)
      case _ => f.(step := Done)
  }

  // ---------- the majority layer ----------

  datatype Phase = Reading | TryWriting | Writing | Linearized | Finished

  /** tsps are the timestamps in the client's entries, numbered as in Future; write is the entry being
      written, readEntry the server whose read buffer holds the maximum; high is at or above everything
      the client ever tried to write. */
  datatype Client = Client(
    futures: seq<Future>, traffic: seq<Option<Message>>, tsps: seq<nat>, write: nat, readEntry: nat, maxTsp: nat,
    phase: Phase, inPlace: seq<bool>, high: nat) {

    function Entry(): nat
      requires write < |tsps|
    {
      tsps[write]
    }
  }

  predicate Shaped(x: Client, servers: nat, clients: nat) {
    && |x.futures| == |x.traffic| == |x.inPlace| == servers && |x.tsps| == servers + 1
    && x.write <= servers && x.readEntry < servers
    && (forall s :: 0 <= s < servers ==> x.futures[s].ongoing <= servers)
    && forall s :: 0 <= s < servers && x.traffic[s].Some? ==> |x.traffic[s].value.slots| == clients
  }

  /** Whether a future is waiting for nothing more. */
  predicate Answered(t: Option<Message>) {
    t.None? || t.value.Complete()
  }

  function Taken(f: Future, t: Option<Message>, tsps: seq<nat>, me: nat): (g: Future)
    requires f.ongoing < |tsps| && (t.Some? ==> me < |t.value.slots|)
    ensures g.step == f.step && g.next == f.next && g.ongoing == f.ongoing
  {
    if t.Some? then Absorb(f, tsps, t.value, me) else f
  }

  /** A future tries to step forward: once its answer is complete it is absorbed and the next request goes out. */
  function StepOne(f: Future, t: Option<Message>, tsps: seq<nat>, write: nat, me: nat, clients: nat): (r: (Future, Option<Message>))
    requires me < clients && (t.Some? ==> |t.value.slots| == clients) && f.ongoing < |tsps| && write < |tsps|
    ensures r.1.Some? ==> |r.1.value.slots| == clients
    ensures r.0.ongoing < |tsps|
  {
    if !Answered(t) then (f, t)
    else
      var a := Taken(f, t, tsps, me);
      if a.step.Done? && a.next.None? then (a, None)
      else
        var g := Onward(a, tsps[write], write);
        (g, Request(g, tsps[write], clients))
  }

  /** What a taken answer also writes: the client's own timestamp, into the timestamp array of the entry the
      request was made from. In a read buffer that is where the array of that server lands. */
  function Smudged(traffic: seq<Option<Message>>, ongoing: nat, me: nat, mine: nat): (r: seq<Option<Message>>)
    ensures |r| == |traffic|
    ensures forall s :: 0 <= s < |r| ==> r[s].Some? == traffic[s].Some? && (r[s].Some? ==> |r[s].value.slots| == |traffic[s].value.slots|)
  {
    if ongoing == 0 || ongoing > |traffic| || traffic[ongoing - 1].None? then traffic
    else
      var m := traffic[ongoing - 1].value;
      if m.wantsArray && me < |m.slots| && m.slots[me].Some?
      then traffic[ongoing - 1 := Some(m.(slots := m.slots[me := Some(mine)]))] else traffic
  }

  predicate SwapTaken(t: Option<Message>) {
    t.Some? && t.value.Complete() && t.value.swaps
  }

  /** One server's future tries to step forward. */
  function Stepped(x: Client, s: nat, me: nat, clients: nat): (y: Client)
    requires Shaped(x, |x.futures|, clients) && s < |x.futures| && me < clients
    ensures Shaped(y, |x.futures|, clients) && y == x.(futures := y.futures, traffic := y.traffic)
    ensures forall r :: 0 <= r < |x.futures| && r != s ==> y.futures[r] == x.futures[r]
  {
    var f, t := x.futures[s], x.traffic[s];
    var (g, u) := StepOne(f, t, x.tsps, x.write, me, clients);
    var traffic := x.traffic[s := u];
    x.(futures := x.futures[s := g],
       traffic := if SwapTaken(t) then Smudged(traffic, f.ongoing, me, AbsorbSwap(f, x.tsps[f.ongoing], t.value.swapback.value).Mine())
                  else traffic)
  }

  /** The majority layer takes over the maximum a future has seen, which rewrites the timestamp of that
      server's read buffer. */
  function Noted(x: Client, s: nat): Client
    requires s < |x.futures| == |x.inPlace| && s + 1 < |x.tsps|
  {
    var seen := x.futures[s].maxSeen;
    if x.maxTsp < seen || (x.maxTsp == seen && x.inPlace[s])
    then x.(maxTsp := seen, readEntry := s, tsps := x.tsps[1 + s := seen],
            high := if x.write == 1 + s then Max(x.high, seen) else x.high)
    else x
  }

  predicate Ready(x: Client, s: nat)
    requires s < |x.futures| && x.write < |x.tsps|
  {
    x.futures[s].IsDone() || (x.phase.Writing? && x.futures[s].IsLinearized(x.Entry()))
  }

  datatype Swept = Swept(x: Client, ready: set<nat>, done: set<nat>)

  function SweptOne(w: Swept, s: nat, me: nat, clients: nat): (v: Swept)
    requires s < |w.x.futures| && Shaped(w.x, |w.x.futures|, clients) && me < clients
    ensures Shaped(v.x, |w.x.futures|, clients) && |v.x.futures| == |w.x.futures|
    ensures v.x.phase == w.x.phase && v.x.write == w.x.write
    ensures v.ready <= w.ready + {s} && v.done <= w.done + {s}
  {
    var y := Stepped(w.x, s, me, clients);
    Swept(Noted(y, s), if Ready(y, s) then w.ready + {s} else w.ready,
          if y.futures[s].IsDone() then w.done + {s} else w.done)
  }

  /** The loop over the first n servers, leaving out the lazy and the dead. */
  function Sweep(x: Client, skip: set<nat>, n: nat, me: nat, clients: nat): (w: Swept)
    requires n <= |x.futures| && Shaped(x, |x.futures|, clients) && me < clients
    ensures Shaped(w.x, |x.futures|, clients) && w.x.phase == x.phase && w.x.write == x.write
    ensures forall s :: s in w.ready || s in w.done ==> s < n && s !in skip
  {
    if n == 0 then Swept(x, {}, {})
    else
      var w := Sweep(x, skip, n - 1, me, clients);
      if n - 1 in skip then w else SweptOne(w, n - 1, me, clients)
  }

  function MarkedDone(x: Client): Client
    requires x.write < |x.tsps|
  {
    x.(futures := seq(|x.futures|, s requires 0 <= s < |x.futures| => DoNext(x.futures[s], x.Entry(), Done)))
  }

  /** What a sweep's counts make of the operation. */
  function Concluded(w: Swept, majority: nat): Client
    requires w.x.write < |w.x.tsps|
  {
    if |w.ready| < majority then w.x
    else if w.x.phase.Writing? && |w.done| < majority then w.x.(phase := Linearized)
    else MarkedDone(w.x.(phase := Finished))
  }

  function Forwarded(x: Client, skip: set<nat>, majority: nat, me: nat, clients: nat): Client
    requires Shaped(x, |x.futures|, clients) && me < clients
  {
    if x.phase.Finished? then x else Concluded(Sweep(x, skip, |x.futures|, me, clients), majority)
  }

  // ---------- starting an operation ----------

  /** Local writes name their timestamp. A replication takes the buffer that holds the maximum, as it is
      or with its verified bit set. */
  datatype Kind = KRead | KTryWrite(tsp: nat) | KWrite(tsp: nat) | KWriteTsAndIn(tsp: nat)
                | KReplicate(verify: bool) | KReplicateAndReadNotifs(verify: bool) {
    function First(): Step {
      match this
      case KRead => ReadTs
      case KTryWrite(_) => TryWriteAll
      case KWrite(_) => WriteAll
      case KWriteTsAndIn(_) => WriteTsAndIn
      case KReplicate(_) => WriteAll
      case KReplicateAndReadNotifs(_) => ReplicateAll
    }

    function PhaseOf(): Phase {
      match this
      case KRead => Reading
      case KTryWrite(_) => TryWriting
      case _ => Writing
    }

    predicate Replicates() { KReplicate? || KReplicateAndReadNotifs? }
    predicate IsLocal() { KTryWrite? || KWrite? || KWriteTsAndIn? }
  }

  /** forKV without a cached timestamp. The write entry means nothing until the next write names one. */
  function ForKV(x: Client): Client {
    x.(futures := seq(|x.futures|, s requires 0 <= s < |x.futures| => x.futures[s].(maxSeen := 0, myLast := None)),
       maxTsp := 0, readEntry := 0, write := 0)
  }

  /** The timestamp an operation is asked to write. */
  function Asked(x: Client, kind: Kind): nat
    requires x.readEntry + 1 < |x.tsps|
  {
    match kind
    case KRead => 0
    case KTryWrite(t) => t
    case KWrite(t) => t
    case KWriteTsAndIn(t) => t
    case KReplicate(v) => if v then Verified(x.tsps[1 + x.readEntry]) else x.tsps[1 + x.readEntry]
    case KReplicateAndReadNotifs(v) => if v then Verified(x.tsps[1 + x.readEntry]) else x.tsps[1 + x.readEntry]
  }

  /** The client with its entries as the operation leaves them, before any step is set. A read writes
      nothing, so which entry it leaves to be written makes no difference. */
  function Prepared(x: Client, kind: Kind): Client
    requires x.readEntry + 1 < |x.tsps|
  {
    var tsp := Asked(x, kind);
    if kind.KRead? then x.(write := 0)
    else if kind.IsLocal() then x.(write := 0, tsps := x.tsps[0 := tsp], high := Max(x.high, tsp))
    else x.(write := 1 + x.readEntry, tsps := x.tsps[1 + x.readEntry := tsp], high := Max(x.high, Verified(tsp)))
  }

  function Started(x: Client, kind: Kind): Client
    requires x.readEntry + 1 < |x.tsps|
  {
    var y := Prepared(x, kind);
    y.(futures := seq(|x.futures|, s requires 0 <= s < |x.futures| => DoNext(x.futures[s], y.Entry(), kind.First())),
       phase := kind.PhaseOf())
  }
}
