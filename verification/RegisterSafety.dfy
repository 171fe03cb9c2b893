/** What every reachable state of the register protocol keeps. */
module RegisterSafety {
  import opened Registers
  import opened RegisterProtocol

  ghost predicate Known(issued: map<Register, nat>, r: Register) {
    r == ZERO || r in issued
  }

  ghost predicate AllKnown(issued: map<Register, nat>, regs: seq<Register>) {
    forall i :: 0 <= i < |regs| ==> Known(issued, regs[i])
  }

  /** Everything issued comes from a put of the client it names; earlier puts used lower sequence numbers,
      and one put carries one value. */
  ghost predicate IssuedOk(issued: map<Register, nat>) {
    && (forall r :: r in issued ==> r.num > 0)
    && (forall r, t :: r in issued && t in issued && r.clientId == t.clientId && issued[r] < issued[t] ==> r.num < t.num)
    && (forall r, t :: r in issued && t in issued && r.clientId == t.clientId && issued[r] == issued[t] ==> r.value == t.value)
  }

  /** Some replica of the client's quorum holds sequence number z or more. */
  ghost predicate Reached(cfg: Config, replicas: seq<Register>, c: nat, z: nat)
    requires cfg.Valid() && |replicas| == cfg.servers
  {
    exists i :: 0 <= i < cfg.quorum && replicas[cfg.Server(c, i)].num >= z
  }

  /** While a client reads its quorum, some slot's answer is, or will be, at least its floor. */
  ghost predicate WillSee(cfg: Config, replicas: seq<Register>, c: nat, x: Client)
    requires cfg.Valid() && |replicas| == cfg.servers && Shaped(cfg, x)
  {
    exists i :: 0 <= i < cfg.quorum && replicas[cfg.Server(c, i)].num >= x.floor
                && (x.flight[i].Out? || x.got[i].num >= x.floor)
  }

  /** A compare-and-swap of this round that succeeded left its replica at or above the target. */
  ghost predicate Landed(cfg: Config, replicas: seq<Register>, c: nat, x: Client)
    requires cfg.Valid() && |replicas| == cfg.servers && Shaped(cfg, x)
  {
    forall i :: 0 <= i < cfg.quorum && x.data.needs[i] && !x.flight[i].Out? && x.swaps[i] == x.data.expected[i]
      ==> replicas[cfg.Server(c, i)].num >= x.data.target.num
  }

  /** A put between rounds: what it still has to do it does against lower sequence numbers. */
  ghost predicate PutOk(d: PutData, swaps: seq<Register>)
    requires d.Shape(|swaps|)
  {
    && !d.Finished()
    && (forall i :: 0 <= i < |swaps| && d.needs[i] ==> d.expected[i].num < d.target.num)
    && (forall i, j :: 0 <= j < i < |swaps| && d.needs[i] && !d.needs[j] ==> swaps[j].num < d.target.num)
  }

  ghost predicate PutIssued(issued: map<Register, nat>, c: nat, x: Client) {
    && x.data.target in issued && issued[x.data.target] == x.puts
    && x.data.target.clientId == c && x.data.target.value == x.data.value
    && x.floor < x.data.target.num
    && AllKnown(issued, x.data.expected)
  }

  ghost predicate OwnIssues(issued: map<Register, nat>, c: nat, x: Client) {
    forall r :: r in issued && r.clientId == c ==>
      || (issued[r] < x.puts && r.num <= x.floor)
      || (issued[r] == x.puts && (x.phase.Optimism? || x.phase.Casing?)
          && x.floor < r.num <= x.data.target.num && r.value == x.data.value)
  }

  ghost predicate ClientOk(cfg: Config, replicas: seq<Register>, issued: map<Register, nat>, c: nat, x: Client)
    requires cfg.Valid() && |replicas| == cfg.servers
  {
    && Shaped(cfg, x)
    && AllKnown(issued, x.got) && AllKnown(issued, x.swaps) && Known(issued, x.best)
    && (x.cache.Some? ==> cfg.cacheOn && Known(issued, x.cache.value) && x.cache.value.num >= x.floor)
    && OwnIssues(issued, c, x)
    && Reached(cfg, replicas, c, x.floor)
    && PhaseOk(cfg, replicas, issued, c, x)
  }

  ghost predicate PhaseOk(cfg: Config, replicas: seq<Register>, issued: map<Register, nat>, c: nat, x: Client)
    requires cfg.Valid() && |replicas| == cfg.servers && Shaped(cfg, x)
  {
    match x.phase
    case Idle => x.AllQuiet()
    case Reading(_) => WillSee(cfg, replicas, c, x)
    case PutReading => WillSee(cfg, replicas, c, x)
    case WritingBack =>
      forall i :: 0 <= i < cfg.quorum ==>
        !x.best.Less(x.got[i]) && (!x.flight[i].Quiet? ==> x.got[i] != x.best)
    case Optimism =>
      && PutIssued(issued, c, x) && PutOk(x.data, x.swaps) && Landed(cfg, replicas, c, x)
      && (forall i :: 0 <= i < cfg.quorum ==> x.data.needs[i])
    case Casing =>
      && PutIssued(issued, c, x) && PutOk(x.data, x.swaps) && Landed(cfg, replicas, c, x)
      && (forall i :: 0 <= i < cfg.quorum && !x.data.needs[i] ==> x.flight[i].Quiet?)
  }

  ghost predicate Inv(cfg: Config, s: State)
    requires cfg.Valid()
  {
    && |s.replicas| == cfg.servers && |s.clients| == cfg.clients
    && IssuedOk(s.issued)
    && (forall r :: r in s.issued ==> r.clientId < cfg.clients)
    && AllKnown(s.issued, s.replicas)
    && forall c :: 0 <= c < cfg.clients ==> ClientOk(cfg, s.replicas, s.issued, c, s.clients[c])
  }

  lemma {:induction false} InitInv(cfg: Config)
    requires cfg.Valid()
    ensures Inv(cfg, Init(cfg))
  {
    var s := Init(cfg);
    forall c | 0 <= c < cfg.clients ensures Reached(cfg, s.replicas, c, 0) {
      assert s.replicas[cfg.Server(c, 0)] == ZERO;
    }
  }

  /** A later state of the replicas and of what has been issued: sequence numbers grew, issues were added. */
  ghost predicate Later(cfg: Config, replicas: seq<Register>, issued: map<Register, nat>,
                        replicas': seq<Register>, issued': map<Register, nat>)
  {
    && |replicas| == |replicas'| == cfg.servers
    && (forall k :: 0 <= k < cfg.servers ==> replicas[k].num <= replicas'[k].num)
    && (forall r :: r in issued ==> r in issued' && issued'[r] == issued[r])
  }

  /** A client that does not move keeps its part of the invariant whatever the others do. */
  lemma {:induction false} Bystander(cfg: Config, replicas: seq<Register>, issued: map<Register, nat>,
                  replicas': seq<Register>, issued': map<Register, nat>, c: nat, x: Client)
    requires cfg.Valid() && Later(cfg, replicas, issued, replicas', issued')
    requires ClientOk(cfg, replicas, issued, c, x)
    requires forall r :: r in issued' && r !in issued ==> r.clientId != c
    ensures ClientOk(cfg, replicas', issued', c, x)
  {
    KeepsReached(cfg, replicas, issued, replicas', issued', c, x.floor);
    if SendsReads(x) { KeepsWillSee(cfg, replicas, issued, replicas', issued', c, x); }
  }

  lemma {:induction false} KeepsReached(cfg: Config, replicas: seq<Register>, issued: map<Register, nat>,
                     replicas': seq<Register>, issued': map<Register, nat>, c: nat, z: nat)
    requires cfg.Valid() && Later(cfg, replicas, issued, replicas', issued') && Reached(cfg, replicas, c, z)
    ensures Reached(cfg, replicas', c, z)
  {
    var i :| 0 <= i < cfg.quorum && replicas[cfg.Server(c, i)].num >= z;
    assert replicas'[cfg.Server(c, i)].num >= z;
  }

  lemma {:induction false} KeepsWillSee(cfg: Config, replicas: seq<Register>, issued: map<Register, nat>,
                     replicas': seq<Register>, issued': map<Register, nat>, c: nat, x: Client)
    requires cfg.Valid() && Later(cfg, replicas, issued, replicas', issued') && Shaped(cfg, x) && WillSee(cfg, replicas, c, x)
    ensures WillSee(cfg, replicas', c, x)
  {
    var i :| 0 <= i < cfg.quorum && replicas[cfg.Server(c, i)].num >= x.floor
             && (x.flight[i].Out? || x.got[i].num >= x.floor);
    assert replicas'[cfg.Server(c, i)].num >= x.floor;
  }
}
