/** A run in which a clock held back breaks the evenness of a dense buffer. */
module MixGaps {
  import opened Ts
  import opened Rounding
  import opened Spread
  import opened Mix
  import opened MixRuns
  import opened MixLayout
  import opened MixLimits

  /** A buffer's data: the clock `second` and packets after it. */
  function HeldBatch(pid: Pid, second: nat, p: nat): (s: seq<Packet>)
    requires p > 0
    ensures |s| == p && From(Channel(0), s) && s[0] == ClockPacket(pid, second)
  {
    [ClockPacket(pid, second)] + Fillers(pid, p - 1)
  }

  /** The input after it has been asked `k` times in the second buffer. */
  function HeldInput(pid: Pid, first: nat, batch: seq<Packet>, needed: nat, k: nat): InputState {
    InputState(batch, pid, first, if k == 0 then 0 else needed, 1 + k)
  }

  /** The clock at the head may follow `first` when `z + 1` slots have been counted. */
  predicate Waits(cfg: Config, pid: Pid, first: nat, batch: seq<Packet>, z: nat) {
    && (cfg.mode == 1 || cfg.mode == 3) && pid < NULL_PID && first != 0 && z > 0
    && batch != [] && batch[0].pid == pid && HasPcr(batch[0])
    && Required(cfg, ClockDifference(batch[0].pcr.value, first)) == z + 1
  }

  lemma StillHeld(cfg: Config, pid: Pid, first: nat, batch: seq<Packet>, z: nat, k: nat)
    requires Waits(cfg, pid, first, batch, z) && k < z
    ensures Visit(cfg, HeldInput(pid, first, batch, z + 1, k)) ==
            (HeldInput(pid, first, batch, z + 1, k + 1).(sent := 1 + k), Held)
  {
    hide Required, ClockDifference;
  }

  lemma HeldNoMore(cfg: Config, pid: Pid, first: nat, batch: seq<Packet>, z: nat)
    requires Waits(cfg, pid, first, batch, z)
    ensures Visit(cfg, HeldInput(pid, first, batch, z + 1, z)) ==
            (InputState(batch[1..], pid, batch[0].pcr.value, 0, 0), Picked(batch[0]))
  {
    hide Required, ClockDifference;
  }

  /** The first `k` iterations come up empty. */
  lemma {:induction false} HeldTurns(cfg: Config, pid: Pid, first: nat, batch: seq<Packet>, p: nat, z: nat, k: nat,
                                     slots: seq<Packet>)
    requires Waits(cfg, pid, first, batch, z) && k <= z < p <= cfg.maxPackets == |slots|
    ensures Ticks(cfg, AtHead(HeldInput(pid, first, batch, z + 1, 0), p, 0, 0), slots, 4 * k) ==
            (AtHead(HeldInput(pid, first, batch, z + 1, k), p, 0, k), slots)
  {
    hide Ticks, Visit, Waits;
    var start := AtHead(HeldInput(pid, first, batch, z + 1, 0), p, 0, 0);
    if k == 0 {
      TicksNone(cfg, start, slots);
    } else {
      HeldTurns(cfg, pid, first, batch, p, z, k - 1, slots);
      StillHeld(cfg, pid, first, batch, z, k - 1);
      var r, s := HeldInput(pid, first, batch, z + 1, k - 1), HeldInput(pid, first, batch, z + 1, k).(sent := k);
      HoldsOne(cfg, r, s, p, 0, k - 1, slots);
      TicksVia(cfg, start, slots, 4 * (k - 1), AtHead(r, p, 0, k - 1), slots, 4);
    }
  }

  /** After `z` empty iterations the clock takes all `z` nulls at once. */
  lemma HeldFill(cfg: Config, pid: Pid, first: nat, batch: seq<Packet>, p: nat, z: nat, slots: seq<Packet>)
    requires Waits(cfg, pid, first, batch, z) && z < p && p + z == cfg.maxPackets == |slots|
    ensures Ticks(cfg, AtHead(HeldInput(pid, first, batch, z + 1, 0), p, 0, 0), slots, 4 * z + 3) ==
            (AtHead(InputState(batch[1..], pid, batch[0].pcr.value, 0, 1), p, z, z + 1), slots[2 * z := batch[0]])
  {
    hide Ticks, Visit, SpreadNulls;
    HeldTurns(cfg, pid, first, batch, p, z, z, slots);
    HeldNoMore(cfg, pid, first, batch, z);
    hide Waits;
    FirstPacketEven(p, z, z);
    FirstIs(p, z);
    var r, s := HeldInput(pid, first, batch, z + 1, z), InputState(batch[1..], pid, batch[0].pcr.value, 0, 0);
    ServesOne(cfg, r, s, batch[0], p, 0, z, slots);
    TicksVia(cfg, AtHead(HeldInput(pid, first, batch, z + 1, 0), p, 0, 0), slots, 4 * z, AtHead(r, p, 0, z), slots, 3);
  }

  lemma FirstIs(p: nat, k: nat)
    requires 1 <= p
    ensures forall z: nat :: NullsAfter(p, z, [k]) == SpreadNulls(p, z, k, 0)
  {
    assert [k][..0] == [];
    assert forall z: nat :: NullsAfter(p, z, []) == 0;
  }

  /** One clock fills a buffer alone; then the next one arrives, in front of `p - 1` packets. */
  function GapsRun(pid: Pid, first: nat, second: nat, p: nat, z: nat): seq<Event>
    requires p > 0
  {
    OneClockRun(pid, first) +
    ([NextBuffer, Arrive(Channel(0), HeldBatch(pid, second, p))] + Alone(3 + (4 * z + 3)))
  }

  lemma Refilled(cfg: Config, pid: Pid, first: nat, slots: seq<Packet>, batch: seq<Packet>)
    requires |slots| == cfg.maxPackets > 0 && From(Channel(0), batch) && |batch| <= cfg.inputRoom
    ensures var one := ClockPacket(pid, first);
            var c := Chain(AtHead(InputState([], pid, first, 0, 1), 1, 0, 1).(pc := Done), slots, [], [one]);
            Run(cfg, c, [NextBuffer, Arrive(Channel(0), batch)]) ==
            Chain(Mixing([], [InputState(batch, pid, first, 0, 1)], 0, 1, 0, Sum(0, 0)), Nulls(cfg.maxPackets), slots,
                  [one] + batch)
  {
    var r := InputState([], pid, first, 0, 1);
    var c := Chain(AtHead(r, 1, 0, 1).(pc := Done), slots, [], [ClockPacket(pid, first)]);
    var next, arrive := NextBuffer, Arrive(Channel(0), batch);
    hide Run;
    RunTwo(cfg, c, next, arrive);
    assert [] + slots == slots && [] + batch == batch;
    assert [r][0 := r.(buf := batch)] == [r.(buf := batch)];
    assert Next(cfg, c, next) == Chain(c.mix.(pc := Sum(0, 0)), Nulls(cfg.maxPackets), slots, c.arrived);
  }

  lemma GapsChain(cfg: Config, pid: Pid, first: nat, second: nat, p: nat, z: nat)
    requires p + z == cfg.maxPackets && 2 <= z < p <= cfg.inputRoom
    requires Waits(cfg, pid, first, HeldBatch(pid, second, p), z)
    ensures var batch := HeldBatch(pid, second, p);
            var c := Run(cfg, Start(cfg, [pid]), GapsRun(pid, first, second, p, z));
            && c.mix == AtHead(InputState(batch[1..], pid, second, 0, 1), p, z, z + 1)
            && c.slots == Nulls(cfg.maxPackets)[2 * z := batch[0]]
  {
    hide Run, Ticks, HeldBatch, OneClockRun;
    var batch, start, nulls := HeldBatch(pid, second, p), Start(cfg, [pid]), Nulls(cfg.maxPackets);
    var again, n := [NextBuffer, Arrive(Channel(0), batch)], 4 * z + 3;
    OneClockChain(cfg, pid, first);
    RunConcat(cfg, start, OneClockRun(pid, first), again + Alone(3 + n));
    var c := Run(cfg, start, OneClockRun(pid, first));
    RunConcat(cfg, c, again, Alone(3 + n));
    Refilled(cfg, pid, first, c.slots, batch);
    var d := Run(cfg, c, again);
    RunAlone(cfg, d, 3 + n);
    var r := InputState(batch, pid, first, 0, 1);
    SumsUp(cfg, r, 1, 0, nulls);
    HeldFill(cfg, pid, first, batch, p, z, nulls);
    hide Waits;
    TicksVia(cfg, d.mix, nulls, 3, AtHead(r, p, 0, 0), nulls, n);
  }

  /** A buffer with one data packet has carried one iteration. */
  lemma OneUsed(slots: seq<Packet>, p: nat, z: nat, ks: seq<nat>, s: nat, n: nat)
    requires 1 <= z <= p && p + z == |slots| && Pattern(ks, n) && n <= p
    requires s < |slots| && (forall i :: 0 <= i < |slots| ==> (slots[i] != NULL_PACKET <==> i == s))
    requires Occupied(slots, p, z, ks)
    ensures |ks| == 1 && s == ks[0] + if ks[0] <= z then ks[0] else z
  {
    hide NullsAfter, SpreadNulls;
    assert Used(p, z, ks, s);
    forall j: nat | j < |ks| ensures SlotAt(p, z, ks, j) == s {
      OnlySlot(slots, p, z, ks, s, j);
    }
    if |ks| > 1 {
      assert SlotAt(p, z, ks, 0) == SlotAt(p, z, ks, 1);
      SlotsAreSafe(p, z, ks, 0, 1);
    }
    assert ks[..1] == [ks[0]] && SlotAt(p, z, ks, 0) == s;
    FirstPacketEven(p, z, ks[0]);
  }

  lemma OnlySlot(slots: seq<Packet>, p: nat, z: nat, ks: seq<nat>, s: nat, j: nat)
    requires 1 <= p && p + z == |slots| && Pattern(ks, p) && j < |ks|
    requires s < |slots| && (forall i :: 0 <= i < |slots| ==> (slots[i] != NULL_PACKET <==> i == s))
    requires Occupied(slots, p, z, ks)
    ensures SlotAt(p, z, ks, j) == s
  {
    hide NullsAfter, SpreadNulls;
    NullsGrow(p, z, ks[..j + 1], 0);
    assert Used(p, z, ks, SlotAt(p, z, ks, j));
  }

  /** The failing pattern does arise: with two or more nulls and at least two more data packets,
      a clock that waits for `z + 1` slots is the buffer's first packet, at iteration `z`, and
      takes all its nulls. */
  lemma GapsArise(cfg: Config, pid: Pid, first: nat, second: nat, p: nat, z: nat)
    requires p + z == cfg.maxPackets && 2 <= z && z + 2 <= p <= cfg.inputRoom
    requires Waits(cfg, pid, first, HeldBatch(pid, second, p), z)
    ensures var run := GapsRun(pid, first, second, p, z);
            && Run(cfg, Start(cfg, [pid]), run).mix.packets == p
            && Carried(cfg, [pid], run) == [z]
            && !EachEven(p, z, Carried(cfg, [pid], run))
  {
    hide Run, Carried, EvenAt, NullsAfter, Waits, GapsRun, HeldBatch;
    var run := GapsRun(pid, first, second, p, z);
    var c, ks := Run(cfg, Start(cfg, [pid]), run), Carried(cfg, [pid], run);
    GapsChain(cfg, pid, first, second, p, z);
    RunLaidOut(cfg, [pid], run);
    OneUsed(c.slots, p, z, ks, 2 * z, z + 1);
    assert ks == [z];
    GapsBreakEvenness(p, z);
    assert [z][..1] == [z];
    assert !EvenAtPlace(p, z, [z], 0);
  }

  /** The clock ticks in a packet, times the bitrate. */
  const SPAN: real := (188 * 8 * 27000000) as real

  /** And there are such clocks, for every bitrate up to one packet per clock tick. */
  lemma SomeClockWaits(cfg: Config, pid: Pid, first: nat, p: nat, z: nat) returns (second: nat)
    requires (cfg.mode == 1 || cfg.mode == 3) && 0.0 < cfg.bitrate <= SPAN && pid < NULL_PID
    requires 2 <= z < p && p + z == cfg.maxPackets < INT_MAX / 2
    requires 0 < first && (z + 3) as real * SPAN / cfg.bitrate < 0x1_0000_0000_0000_0000 as real
    ensures first < second && Waits(cfg, pid, first, HeldBatch(pid, second, p), z)
  {
    var slope := cfg.bitrate / 8.0 / 27000000.0 / 188.0;
    SlopeIs(cfg.bitrate);
    var x := (z + 2) as real - 0.5;
    var d := Reaches(slope, x);
    second := first + d;
    RoundIs(slope * d as real, z + 2);
    assert Gap(cfg, d) == z + 1;
    DistanceSmall(cfg.bitrate, slope, d, z + 2);
    assert ClockDifference(second, first) == d;
  }

  lemma SlopeIs(bitrate: real)
    requires 0.0 < bitrate <= SPAN
    ensures var slope := bitrate / 8.0 / 27000000.0 / 188.0;
            0.0 < slope <= 1.0 && slope * SPAN == bitrate
  {
  }

  /** The least number of steps of at most 1 that reach `x`. */
  lemma Reaches(slope: real, x: real) returns (d: nat)
    requires 0.0 < slope <= 1.0 && x > 1.0
    ensures d > 0 && x <= slope * d as real < x + 1.0
  {
    var q := x / slope;
    assert q * slope == x;
    PositiveQuotient(x, slope);
    d := -((-q).Floor);
    assert q <= d as real < q + 1.0;
    StepsOf(slope, q, d as real, x);
  }

  lemma PositiveQuotient(x: real, slope: real)
    requires x > 0.0 && slope > 0.0
    ensures x / slope > 0.0
  {
  }

  lemma StepsOf(slope: real, q: real, d: real, x: real)
    requires 0.0 < slope <= 1.0 && q * slope == x && q <= d < q + 1.0
    ensures x <= slope * d < x + 1.0
  {
    NonNegativeProduct(d - q, slope);
    PositiveProduct(q + 1.0 - d, slope);
    assert (d - q) * slope == slope * d - x;
    assert (q + 1.0 - d) * slope == x + slope - slope * d;
  }

  lemma DistanceSmall(bitrate: real, slope: real, d: nat, n: nat)
    requires bitrate > 0.0 && slope * SPAN == bitrate && slope * d as real < (n + 1) as real
    ensures d as real < (n + 1) as real * SPAN / bitrate
  {
    var steps, all := slope * d as real, (n + 1) as real;
    PositiveProduct(all - steps, SPAN);
    assert (all - steps) * SPAN == all * SPAN - steps * SPAN;
    Exchange(slope, d as real, SPAN);
    MoreThan(d as real, all * SPAN, bitrate);
  }

  lemma Exchange(a: real, b: real, c: real)
    ensures (a * b) * c == (a * c) * b
  {
  }

  lemma MoreThan(d: real, y: real, bitrate: real)
    requires bitrate > 0.0 && bitrate * d < y
    ensures d < y / bitrate
  {
    var q := y / bitrate;
    assert q * bitrate == y;
    if d >= q {
      NonNegativeProduct(d - q, bitrate);
      assert (d - q) * bitrate == bitrate * d - y;
    }
  }
}
