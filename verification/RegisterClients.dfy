/** The clients of the state machine send what the put, get and range operations send, and the servers answer as a
    compare-and-swap or a read does. */
module RegisterClients {
  import opened Registers
  import opened PutFutures
  import opened ReadFutures
  import opened RegisterProtocol

  function QuorumOf(cfg: Config, c: nat): (quorum: seq<nat>)
    requires cfg.servers > 0
    ensures |quorum| == cfg.quorum
  {
    seq(cfg.quorum, i requires 0 <= i < cfg.quorum => cfg.Server(c, i))
  }

  /** A client's quorum is the servers from its own index on, all different. */
  lemma {:induction false} QuorumFromOwn(cfg: Config, c: nat, i: nat, j: nat)
    requires cfg.Valid() && i < j < cfg.quorum
    ensures QuorumOf(cfg, c)[0] == c % cfg.servers
    ensures QuorumOf(cfg, c)[i + 1] == (QuorumOf(cfg, c)[i] + 1) % cfg.servers
    ensures QuorumOf(cfg, c)[i] != QuorumOf(cfg, c)[j]
  {
    OneFurther(c + i, cfg.servers);
    if (c + i) % cfg.servers == (c + j) % cfg.servers { Apart(c + i, j - i, cfg.servers); }
  }

  lemma {:induction false} OneFurther(a: nat, n: nat)
    requires n > 0
    ensures (a + 1) % n == if a % n + 1 == n then 0 else a % n + 1
    ensures (a + 1) % n == (a % n + 1) % n
  {
    var q, r := a / n, a % n;
    assert n * (q + 1) == n * q + n;
    Remainder(a + 1, n, if r + 1 == n then q + 1 else q, if r + 1 == n then 0 else r + 1);
    Remainder(r + 1, n, if r + 1 == n then 1 else 0, if r + 1 == n then 0 else r + 1);
  }

  lemma {:induction false} Remainder(a: nat, n: nat, q: nat, r: nat)
    requires r < n && a == n * q + r
    ensures a % n == r
  {
    var q', r' := a / n, a % n;
    TimesMono(n, q + 1, q');
    TimesMono(n, q' + 1, q);
    assert n * (q + 1) == n * q + n && n * (q' + 1) == n * q' + n;
  }

  lemma {:induction false} TimesMono(d: nat, a: nat, b: nat)
    ensures a <= b ==> d * a <= d * b
  {}

  /** Fewer than n steps around a circle of n do not come back. */
  lemma {:induction false} Apart(a: nat, d: nat, n: nat)
    requires 0 < d < n
    ensures (a + d) % n != a % n
  {
    Steps(a, d, n);
  }

  lemma {:induction false} Steps(a: nat, d: nat, n: nat)
    requires d < n
    ensures (a + d) % n == if a % n + d < n then a % n + d else a % n + d - n
  {
    if d > 0 {
      Steps(a, d - 1, n);
      OneFurther(a + d - 1, n);
    }
  }

  // ---------- requests ----------

  /** What client y has out, if it sends compare-and-swaps. */
  ghost predicate IsOut(cfg: Config, c: nat, y: Client, r: Request)
    requires cfg.servers > 0 && Shaped(cfg, y)
  {
    exists i :: 0 <= i < cfg.quorum && y.flight[i].Out? && r == CasRequest(cfg.Server(c, i), Expects(y, i), Installs(y))
  }

  lemma {:induction false} Distinct(cfg: Config, c: nat)
    requires cfg.Valid()
    ensures forall i, j :: 0 <= i < j < cfg.quorum ==> QuorumOf(cfg, c)[i] != QuorumOf(cfg, c)[j]
  {
    forall i, j | 0 <= i < j < cfg.quorum ensures QuorumOf(cfg, c)[i] != QuorumOf(cfg, c)[j] { QuorumFromOwn(cfg, c, i, j); }
  }

  /** A round of a put has out exactly the requests the put posts. */
  lemma {:induction false} PutSends(cfg: Config, c: nat, x: Client, d: PutData)
    requires cfg.Valid() && Shaped(cfg, x) && d.Shape(cfg.quorum) && !d.Finished()
    ensures Shaped(cfg, PutOn(cfg, x, d)) && PutOn(cfg, x, d).phase.Casing? && PutOn(cfg, x, d).data == d
    ensures forall r :: IsOut(cfg, c, PutOn(cfg, x, d), r) <==> r in CasRound(d, QuorumOf(cfg, c), cfg.quorum)
  {
    Distinct(cfg, c);
    CasRoundAsks(d, QuorumOf(cfg, c), cfg.quorum);
    hide CasRound;
  }

  /** A put that starts from the cache has out exactly the requests of the optimistic round. */
  lemma {:induction false} OptimisticSends(cfg: Config, c: nat, x: Client, value: nat)
    requires cfg.Valid() && Shaped(cfg, x) && x.cache.Some?
    ensures var y := StartedPut(cfg, c, x, value); var d := Optimistic(c, value, x.cache.value, cfg.quorum);
            && Shaped(cfg, y) && y.phase.Optimism? && y.data == d
            && forall r :: IsOut(cfg, c, y, r) <==> r in CasRound(d, QuorumOf(cfg, c), cfg.quorum)
  {
    Distinct(cfg, c);
    CasRoundAsks(Optimistic(c, value, x.cache.value, cfg.quorum), QuorumOf(cfg, c), cfg.quorum);
    hide CasRound;
  }

  /** A get whose answers are in ends as the get operation does, and has out exactly its write-back. */
  lemma {:induction false} GetSends(cfg: Config, c: nat, x: Client)
    requires cfg.Valid() && Shaped(cfg, x) && x.phase == Phase.Reading(false) && x.AllQuiet()
    ensures var y := Forwarded(cfg, c, x); var best := MaxRegister(ZERO, x.got);
            && Shaped(cfg, y) && y.best == best && y.cache == (if cfg.cacheOn then Some(best) else x.cache)
            && (y.phase.WritingBack? <==> cfg.writebackOn && exists i :: 0 <= i < cfg.quorum && x.got[i] != best)
            && (!y.phase.WritingBack? ==> y.phase.Idle? && y.AllQuiet())
            && (y.phase.WritingBack? ==>
                  forall r :: IsOut(cfg, c, y, r) <==> r in WriteBackRound(x.got, best, QuorumOf(cfg, c), cfg.quorum))
  {
    hide MaxRegister, WriteBackRound;
    Distinct(cfg, c);
    WriteBackAsks(x.got, MaxRegister(ZERO, x.got), QuorumOf(cfg, c), cfg.quorum);
  }

  /** A range whose answers for the key are in ends there and then with the greatest of them. */
  lemma {:induction false} RangeEnds(cfg: Config, c: nat, x: Client)
    requires cfg.Valid() && Shaped(cfg, x) && x.phase == Phase.Reading(true)
    ensures var y := Forwarded(cfg, c, x);
            && y.best in x.got && (forall i :: 0 <= i < cfg.quorum ==> !y.best.Less(x.got[i]))
            && y == x.(best := y.best, phase := Phase.Idle, cache := if cfg.cacheOn then Some(y.best) else x.cache)
  {
    assert forall i :: 1 <= i < |x.got| ==> x.got[i] == x.got[1..][i - 1];
  }

  // ---------- servers ----------

  /** A server executes a compare-and-swap or a read on its replica, and the client's slot gets what was there. */
  lemma {:induction false} ServerExecutes(cfg: Config, s: State, c: nat, i: nat)
    requires cfg.Valid() && WellFormed(cfg, s) && Enabled(cfg, s, Execute(c, i))
    ensures var s' := Apply(cfg, s, Execute(c, i)); var x, y := s.clients[c], s'.clients[c]; var k := (c + i) % cfg.servers;
            && y.flight == x.flight[i := Back] && (forall b :: 0 <= b < cfg.clients && b != c ==> s'.clients[b] == s.clients[b])
            && if x.phase.Reading? || x.phase.PutReading? then s'.replicas == s.replicas && y.got == x.got[i := s.replicas[k]]
               else
                 && y.swaps == x.swaps[i := s.replicas[k]]
                 && s'.replicas == (if s.replicas[k] == Expects(x, i) then s.replicas[k := Installs(x)] else s.replicas)
  {}
}
