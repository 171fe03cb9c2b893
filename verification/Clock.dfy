/** Timestamps with a log id and a client id packed into 64 bits, and the guessed clock they come from. */
module Clock {
  import opened MaxReg

  const TS_LIMIT: nat := 0x1_0000_0000
  const LOG_LIMIT: nat := 0x100_0000
  const CLIENT_LIMIT: nat := 0x80

  datatype Packed = Overflow | Tsp(bits: nat)

  /** The fields do not overlap, so or-ing them together adds them up. */
  function MakeTsp(ts: nat, logId: nat, client: nat, validated: bool): Packed {
    if ts >= TS_LIMIT || logId >= LOG_LIMIT || client >= CLIENT_LIMIT then Overflow
    else Tsp(ts * 0x1_0000_0000 + logId * 0x100 + client * 2 + (if validated then 1 else 0))
  }

  function ExtractTs(v: nat): nat { (v / 0x1_0000_0000) % 0x1_0000_0000 }
  function ExtractLogId(v: nat): nat { (v / 0x100) % 0x100_0000 }
  function ExtractClient(v: nat): nat { (v / 2) % 0x80 }
  function FilterLogIdAndClient(v: nat): nat { v % 0x1_0000_0000 - v % 2 }

  lemma {:induction false} TsOut(ts: nat, low: nat)
    requires ts < TS_LIMIT && low < 0x1_0000_0000
    ensures var b := ts * 0x1_0000_0000 + low; ExtractTs(b) == ts && b % 0x1_0000_0000 == low
  {}

  lemma {:induction false} LogOut(ts: nat, logId: nat, low: nat)
    requires ts < TS_LIMIT && logId < LOG_LIMIT && low < 0x100
    ensures var b := ts * 0x1_0000_0000 + logId * 0x100 + low; ExtractLogId(b) == logId
  {
    var high := ts * 0x100_0000 + logId;
    assert ts * 0x1_0000_0000 + logId * 0x100 + low == high * 0x100 + low;
    assert (high * 0x100 + low) / 0x100 == high;
  }

  lemma {:induction false} ClientOut(high: nat, client: nat, flag: nat)
    requires client < CLIENT_LIMIT && flag < 2
    ensures var b := high * 0x100 + client * 2 + flag; ExtractClient(b) == client && b % 2 == flag
  {
    var half := high * 0x80 + client;
    assert high * 0x100 + client * 2 + flag == half * 2 + flag;
    assert (half * 2 + flag) / 2 == half;
  }

  /** What was packed comes out again, and the verified flag is the lowest bit. */
  lemma {:induction false} UnpacksExactly(ts: nat, logId: nat, client: nat, validated: bool)
    requires ts < TS_LIMIT && logId < LOG_LIMIT && client < CLIENT_LIMIT
    ensures var p := MakeTsp(ts, logId, client, validated);
            && p.Tsp? && p.bits < 0x1_0000_0000_0000_0000
            && ExtractTs(p.bits) == ts && ExtractLogId(p.bits) == logId && ExtractClient(p.bits) == client
            && p.bits % 2 == (if validated then 1 else 0)
            && MakeTsp(ts, logId, client, true) == Tsp(Verified(p.bits))
            && Tsp(FilterLogIdAndClient(p.bits)) == MakeTsp(0, logId, client, false)
  {
    var flag: nat := if validated then 1 else 0;
    TsOut(ts, logId * 0x100 + client * 2 + flag);
    LogOut(ts, logId, client * 2 + flag);
    ClientOut(ts * 0x100_0000 + logId, client, flag);
    hide ExtractTs, ExtractLogId, ExtractClient;
    var b := MakeTsp(ts, logId, client, validated).bits;
    assert b == (ts * 0x100_0000 + logId) * 0x100 + client * 2 + flag;
  }

  /** Packing fails exactly on a field wider than 32, 24 or 7 bits, and puts them side by side otherwise. */
  lemma {:induction false} PacksExactly(ts: nat, logId: nat, client: nat, validated: bool)
    ensures MakeTsp(ts, logId, client, validated).Overflow? <==> ts >= 4294967296 || logId >= 16777216 || client >= 128
    ensures var p := MakeTsp(ts, logId, client, validated);
            p.Tsp? ==> p.bits == ((ts * 16777216 + logId) * 128 + client) * 2 + (if validated then 1 else 0)
  {}

  /** Packed timestamps compare as their parts do, most significant first. */
  lemma {:induction false} OrderIsLexicographic(a: nat, l: nat, c: nat, v: bool, a': nat, l': nat, c': nat, v': bool)
    requires a < TS_LIMIT && l < LOG_LIMIT && c < CLIENT_LIMIT && a' < TS_LIMIT && l' < LOG_LIMIT && c' < CLIENT_LIMIT
    ensures MakeTsp(a, l, c, v).bits < MakeTsp(a', l', c', v').bits <==>
            a < a' || (a == a' && (l < l' || (l == l' && (c < c' || (c == c' && !v && v')))))
  {}

  // Timestamps tick every 466 nanoseconds, a third of the shortest round trip.

  datatype NewTs = Ts(ts: nat) | NotMonotone | TooLarge
  datatype Offset = Unset | Set(at: nat)

  class OopsState {
    var offset: Offset
    var maxEverSeen: nat

    /** The latest reading of the host clock, and the latest timestamp given out since the clock was started. */
    ghost var clock: nat
    ghost var lastTs: nat

    /** The clock runs at least one round trip ahead of everything it was told about, and has reached
        everything it gave out. */
    ghost predicate Valid()
      reads this
    {
      && (offset.Set? ==> offset.at + (maxEverSeen + 3) * 466 <= clock && lastTs <= (clock - offset.at) / 466)
      && (offset.Unset? ==> lastTs == 0)
    }

    constructor ()
      ensures Valid() && offset.Unset? && clock == 0
    {
      offset, maxEverSeen, clock, lastTs := Unset, 0, 0, 0;
    }

    function Reading(now: nat): nat
      requires offset.Set? ==> offset.at <= now
      reads this
    {
      (if offset.Set? then now - offset.at else 0) / 466
    }

    /** The clock's timestamp now: no smaller than any before it. It never fails to be monotone once the clock is
        initialized. */
    method NewTimestamp(now: nat) returns (r: NewTs)
      requires Valid() && now >= clock
      modifies this`clock, this`lastTs
      ensures Valid() && clock == now
      ensures r.Ts? ==> r.ts >= old(lastTs) && lastTs == r.ts
      ensures !r.Ts? ==> lastTs == old(lastTs)
      ensures old(offset).Set? ==> !r.NotMonotone?
      ensures r.TooLarge? <==> !r.NotMonotone? && Reading(now) >= 4294967296
      ensures r.NotMonotone? <==> Reading(now) < maxEverSeen
      ensures r.Ts? ==> r.ts == Reading(now)
      ensures old(offset).Set? && r.Ts? ==> r.ts >= maxEverSeen + 3
    {
      clock := now;
      var time := if offset.Set? then now - offset.at else 0;
      var ts := time / 466;
      if offset.Set? {
        Quotient(time, maxEverSeen + 3);
        Division(old(clock) - offset.at, time);
      }
      if ts < maxEverSeen { return NotMonotone; }
      if ts >= TS_LIMIT { return TooLarge; }
      lastTs := ts;
      return Ts(ts);
    }

    /** Takes note of a timestamp seen; with force it starts the clock anew. Otherwise timestamps given out later
        stay above those given out before. The host clock is taken to be past the time the timestamp stands for,
        so the subtraction does not wrap. */
    method SyncClock(tsp: nat, force: bool, now: nat)
      requires Valid() && now >= clock && (ExtractTs(tsp) + 3) * 466 <= now
      modifies this
      ensures Valid() && clock == now
      ensures force ==> maxEverSeen == ExtractTs(tsp) && Reading(now) == ExtractTs(tsp) + 3
      ensures !force && (old(offset).Unset? || ExtractTs(tsp) <= old(maxEverSeen)) ==>
        offset == old(offset) && maxEverSeen == old(maxEverSeen)
      ensures !force && old(offset).Set? && ExtractTs(tsp) > old(maxEverSeen) ==>
        && maxEverSeen == ExtractTs(tsp) && old(Reading(now)) <= Reading(now)
        && Reading(now) == (if old(Reading(now)) >= ExtractTs(tsp) + 3 then old(Reading(now)) else ExtractTs(tsp) + 3)
        && offset == (if old(offset).at <= now - (ExtractTs(tsp) + 3) * 466 then old(offset)
                      else Set(now - (ExtractTs(tsp) + 3) * 466))
      ensures lastTs == if force then 0 else old(lastTs)
    {
      clock := now;
      if force { lastTs := 0; }
      if !force && offset.Set? { Division(old(clock) - offset.at, now - offset.at); }
      if !force && offset.Unset? { return; }
      var ts := ExtractTs(tsp);
      if !force && ts <= maxEverSeen { return; }
      maxEverSeen := ts;
      var maxOffset := now - (ts + 3) * 466;
      Multiply(ts + 3);
      if !force { TickBounds(now - offset.at, ts + 3); }
      if !force && offset.at <= maxOffset { return; }
      if !force { Division(now - offset.at, now - maxOffset); }
      offset := Set(maxOffset);
    }
  }

  lemma {:induction false} Multiply(ts: nat)
    ensures ts * 466 / 466 == ts
  {}

  lemma {:induction false} TickBounds(time: nat, ts: nat)
    ensures time / 466 >= ts <==> time >= ts * 466
  {}

  lemma {:induction false} Quotient(time: nat, ts: nat)
    requires ts * 466 <= time
    ensures time / 466 >= ts
  {}

  lemma {:induction false} Division(a: nat, b: nat)
    requires a <= b
    ensures a / 466 <= b / 466
  {}

  /** A timestamp packed from the clock is above every one the clock was told about, verified or not. */
  lemma {:induction false} PackedAboveSeen(ts: nat, logId: nat, client: nat, validated: bool, seen: nat)
    requires ts < TS_LIMIT && logId < LOG_LIMIT && client < CLIENT_LIMIT
    requires seen < 0x1_0000_0000_0000_0000 && ts >= ExtractTs(seen) + 3
    ensures MakeTsp(ts, logId, client, validated).bits > Verified(seen)
  {}
}
