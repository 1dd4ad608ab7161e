/** PCR spacing: when the mixer moves clocks, two consecutive clocks of one input are kept
    as many slots apart in the output as the output bitrate asks for. */
module MixSpacing {
  import opened Ts
  import opened Spread
  import opened Mix
  import opened MixConserve

  // ---- Clocks in a stream of slots

  predicate IsClockOf(p: Packet, i: nat, pid: Pid) {
    p.origin == Channel(i) && p.pid == pid && HasPcr(p)
  }

  function LastClock(s: seq<Packet>, i: nat, pid: Pid): (r: Option<nat>)
    ensures r.Some? ==> r.value < |s| && IsClockOf(s[r.value], i, pid)
  {
    if s == [] then None
    else if IsClockOf(s[|s| - 1], i, pid) then Some(|s| - 1)
    else LastClock(s[..|s| - 1], i, pid)
  }

  /** A clock `p` may follow the stream `s`: the last clock of its input is far enough back,
      or was 0, which the mixer takes for no clock at all. */
  predicate MayFollow(cfg: Config, s: seq<Packet>, p: Packet, i: nat, pid: Pid)
    requires HasPcr(p)
  {
    match LastClock(s, i, pid)
    case None => true
    case Some(a) =>
      s[a].pcr.value == 0 ||
      |s| - a >= Required(cfg, ClockDifference(p.pcr.value, s[a].pcr.value))
  }

  /** Every clock of input `i` in the stream may follow what comes before it. */
  predicate Spaced(cfg: Config, s: seq<Packet>, i: nat, pid: Pid) {
    s == [] ||
    var init, p := s[..|s| - 1], s[|s| - 1];
    Spaced(cfg, init, i, pid) && (IsClockOf(p, i, pid) ==> MayFollow(cfg, init, p, i, pid))
  }

  predicate Quiet(t: seq<Packet>, i: nat, pid: Pid) {
    forall j :: 0 <= j < |t| ==> !IsClockOf(t[j], i, pid)
  }

  lemma {:induction false} AppendQuiet(cfg: Config, s: seq<Packet>, t: seq<Packet>, i: nat, pid: Pid)
    requires Quiet(t, i, pid)
    ensures LastClock(s + t, i, pid) == LastClock(s, i, pid)
    ensures Spaced(cfg, s + t, i, pid) == Spaced(cfg, s, i, pid)
  {
    if t == [] {
      assert s + t == s;
    } else {
      var init := t[..|t| - 1];
      AppendQuiet(cfg, s, init, i, pid);
      assert (s + t)[..|s + t| - 1] == s + init;
    }
  }

  lemma AppendOne(cfg: Config, s: seq<Packet>, p: Packet, i: nat, pid: Pid)
    ensures LastClock(s + [p], i, pid) == if IsClockOf(p, i, pid) then Some(|s|) else LastClock(s, i, pid)
    ensures Spaced(cfg, s + [p], i, pid) <==>
            Spaced(cfg, s, i, pid) && (IsClockOf(p, i, pid) ==> MayFollow(cfg, s, p, i, pid))
  {
    assert (s + [p])[..|s|] == s;
  }

  // ---- What an input remembers of the stream

  /** A count of packets still needed belongs to the clock at the head of the queue. */
  predicate NeedIsDue(cfg: Config, r: InputState) {
    r.needed > 0 ==>
      && r.buf != [] && IsClock(r, r.buf[0]) && r.lastPcr != 0
      && r.needed == Required(cfg, ClockDifference(r.buf[0].pcr.value, r.lastPcr))
  }

  /** `s` is the output so far; `hand` is the packet about to be placed. */
  predicate Tracks(cfg: Config, s: seq<Packet>, r: InputState, i: nat, hand: Option<Packet>) {
    && Spaced(cfg, s, i, r.pcrPid)
    && NeedIsDue(cfg, r)
    && if hand.Some? && IsClockOf(hand.value, i, r.pcrPid)
       then r.lastPcr == hand.value.pcr.value && r.sent == 0 && MayFollow(cfg, s, hand.value, i, r.pcrPid)
       else match LastClock(s, i, r.pcrPid)
            case None => r.lastPcr == 0
            case Some(a) => r.lastPcr == s[a].pcr.value && r.sent <= |s| - a
  }

  lemma VisitTracks(cfg: Config, s: seq<Packet>, r: InputState, i: nat)
    requires (cfg.mode == 1 || cfg.mode == 3) && r.pcrPid != NULL_PID && From(Channel(i), r.buf)
    requires Tracks(cfg, s, r, i, None)
    ensures var (t, verdict) := Visit(cfg, r);
            && t.pcrPid == r.pcrPid
            && Tracks(cfg, s, t, i, if verdict.Picked? then Some(verdict.packet) else None)
  {
    hide Required, Spaced, LastClock;
  }

  /** Null packets, and packets of other sources, may be skipped or sent at will. */
  lemma SkipTracks(cfg: Config, s: seq<Packet>, t: seq<Packet>, r: InputState, i: nat, slots: int)
    requires Tracks(cfg, s, r, i, None) && Quiet(t, i, r.pcrPid) && slots <= |t|
    ensures Tracks(cfg, s + t, r.(sent := r.sent + slots), i, None)
  {
    hide Required, Spaced, LastClock;
    AppendQuiet(cfg, s, t, i, r.pcrPid);
    var last := LastClock(s, i, r.pcrPid);
    assert last.Some? ==> (s + t)[last.value] == s[last.value];
  }

  /** Time only helps a clock that may follow. */
  lemma MayFollowLater(cfg: Config, s: seq<Packet>, t: seq<Packet>, p: Packet, i: nat, pid: Pid)
    requires HasPcr(p) && MayFollow(cfg, s, p, i, pid) && Quiet(t, i, pid)
    ensures MayFollow(cfg, s + t, p, i, pid)
  {
    hide Required, Spaced, LastClock;
    AppendQuiet(cfg, s, t, i, pid);
    var last := LastClock(s, i, pid);
    assert last.Some? ==> (s + t)[last.value] == s[last.value];
  }

  lemma PlaceClockTracks(cfg: Config, s: seq<Packet>, p: Packet, r: InputState, i: nat)
    requires Spaced(cfg, s, i, r.pcrPid) && NeedIsDue(cfg, r)
    requires IsClockOf(p, i, r.pcrPid) && MayFollow(cfg, s, p, i, r.pcrPid)
    requires r.lastPcr == p.pcr.value && r.sent == 0
    ensures Tracks(cfg, s + [p], r.(sent := r.sent + 1), i, None)
  {
    hide Required, Spaced, LastClock, MayFollow;
    AppendOne(cfg, s, p, i, r.pcrPid);
    assert (s + [p])[|s|] == p;
  }

  lemma PlaceOtherTracks(cfg: Config, s: seq<Packet>, p: Packet, r: InputState, i: nat)
    requires Tracks(cfg, s, r, i, None) && !IsClockOf(p, i, r.pcrPid)
    ensures Tracks(cfg, s + [p], r.(sent := r.sent + 1), i, None)
  {
    hide Tracks;
    SkipTracks(cfg, s, [p], r, i, 1);
  }

  /** Placing the packet in hand after some null packets. */
  lemma PlaceTracks(cfg: Config, s: seq<Packet>, t: seq<Packet>, p: Packet, r: InputState, i: nat)
    requires Tracks(cfg, s, r, i, Some(p)) && Quiet(t, i, r.pcrPid)
    ensures Tracks(cfg, s + t + [p], r.(sent := r.sent + 1), i, None)
  {
    hide Required, Spaced, LastClock, MayFollow;
    if IsClockOf(p, i, r.pcrPid) {
      AppendQuiet(cfg, s, t, i, r.pcrPid);
      MayFollowLater(cfg, s, t, p, i, r.pcrPid);
      PlaceClockTracks(cfg, s + t, p, r, i);
    } else {
      assert Tracks(cfg, s, r, i, None);
      hide Tracks;
      SkipTracks(cfg, s, t, r, i, 0);
      assert r.(sent := r.sent + 0) == r;
      PlaceOtherTracks(cfg, s + t, p, r, i);
    }
  }

  // ---- The mixing thread

  /** The part of the current buffer that will not change any more. */
  function Written(m: Mixing, slots: seq<Packet>): seq<Packet> {
    if m.pc.Done? then slots
    else if Frontier(m) <= |slots| then slots[..Frontier(m)]
    else slots
  }

  function Hand(m: Mixing): Option<Packet> {
    if m.pc.Place? then m.pc.data else None
  }

  predicate Keeps(cfg: Config, done: seq<Packet>, m: Mixing, slots: seq<Packet>, i: nat) {
    i < |m.inputs| && m.inputs[i].pcrPid != NULL_PID
    && Tracks(cfg, done + Written(m, slots), m.inputs[i], i, Hand(m))
  }

  lemma SameTracks(cfg: Config, s: seq<Packet>, r: InputState, i: nat, p: Packet)
    requires p.origin != Channel(i)
    ensures Tracks(cfg, s, r, i, Some(p)) == Tracks(cfg, s, r, i, None)
  {
  }

  lemma VisitKeeps(cfg: Config, done: seq<Packet>, m: Mixing, slots: seq<Packet>, i: nat)
    requires (cfg.mode == 1 || cfg.mode == 3) && Tidy(cfg, m, slots) && m.pc.Scan? && m.pc.left > 0
    requires Keeps(cfg, done, m, slots, i)
    ensures Keeps(cfg, done, VisitNext(cfg, m), slots, i)
  {
    var j := NextNode(m.last, |m.inputs|);
    var (t, verdict) := Visit(cfg, m.inputs[j]);
    var s := done + Written(m, slots);
    assert done + Written(VisitNext(cfg, m), slots) == s;
    assert From(Channel(j), m.inputs[j].buf);
    VisitTakes(cfg, m.inputs[j]);
    if i == j {
      VisitTracks(cfg, s, m.inputs[i], i);
    } else if verdict.Picked? {
      SameTracks(cfg, s, m.inputs[i], i, verdict.packet);
    }
    hide Visit, Tracks;
  }

  lemma HeadKeeps(cfg: Config, done: seq<Packet>, m: Mixing, slots: seq<Packet>, i: nat)
    requires Tidy(cfg, m, slots) && m.pc.Head?
    requires Keeps(cfg, done, m, slots, i)
    ensures var n := Tick(cfg, m, slots).0; Keeps(cfg, done, n, slots, i)
  {
    var s, r := done + Written(m, slots), m.inputs[i];
    if m.pc.k >= m.packets {
      var rest := slots[Frontier(m)..];
      assert s + rest == done + slots;
      SkipTracks(cfg, s, rest, r, i, 0);
    } else if m.psi != [] {
      SameTracks(cfg, s, r, i, m.psi[0]);
    }
    hide Tracks;
  }

  lemma StartKeeps(cfg: Config, done: seq<Packet>, m: Mixing, slots: seq<Packet>, i: nat, total: nat)
    requires Tidy(cfg, m, slots) && m.pc.Sum?
    requires Keeps(cfg, done, m, slots, i)
    ensures Keeps(cfg, done, StartFill(cfg, m, total), slots, i)
  {
    assert done + slots[..0] == done;
    assert slots[..0] == [];
    SkipTracks(cfg, done, slots, m.inputs[i], i, cfg.maxPackets);
    hide Tracks;
  }

  lemma GapAndPacket(s: seq<Packet>, slots: seq<Packet>, from: nat, pos: nat, p: Packet)
    requires from <= pos < |slots|
    ensures s + slots[..from] + slots[from..pos] + [p] == s + slots[pos := p][..pos + 1]
  {
  }

  lemma PlaceKeeps(cfg: Config, done: seq<Packet>, m: Mixing, slots: seq<Packet>, i: nat)
    requires Tidy(cfg, m, slots) && m.pc.Place?
    requires Keeps(cfg, done, m, slots, i)
    ensures var (n, written) := PlacePacket(cfg, m, slots); Keeps(cfg, done, n, written, i)
  {
    hide Tracks;
    var s, r, from := done + Written(m, slots), m.inputs[i], Frontier(m);
    var n := PlacePacket(cfg, m, slots).0;
    match m.pc.data
    case None =>
      assert s + [slots[from]] == done + slots[..from + 1];
      SkipTracks(cfg, s, [slots[from]], r, i, 1);
    case Some(p) =>
      SpreadStays(m.packets, cfg.maxPackets - m.packets, m.pc.k, m.nulls);
      hide SpreadNulls;
      var pos := m.pc.k + n.nulls;
      PlaceTracks(cfg, s, slots[from..pos], p, r, i);
      GapAndPacket(done, slots, from, pos, p);
  }

  lemma TickKeeps(cfg: Config, done: seq<Packet>, m: Mixing, slots: seq<Packet>, i: nat)
    requires (cfg.mode == 1 || cfg.mode == 3) && Tidy(cfg, m, slots) && Keeps(cfg, done, m, slots, i)
    ensures var (n, written) := Tick(cfg, m, slots); Keeps(cfg, done, n, written, i)
  {
    hide VisitNext, PlacePacket, StartFill, Tracks;
    match m.pc
    case Sum(next, total) => StartKeeps(cfg, done, m, slots, i, total);
    case Head(k) => HeadKeeps(cfg, done, m, slots, i);
    case Scan(k, left, polled) =>
      if left > 0 {
        VisitKeeps(cfg, done, m, slots, i);
      }
    case Place(k, data) => PlaceKeeps(cfg, done, m, slots, i);
    case Done =>
  }

  lemma AcceptKeeps(cfg: Config, done: seq<Packet>, m: Mixing, slots: seq<Packet>, o: Origin,
                    batch: seq<Packet>, i: nat)
    requires Keeps(cfg, done, m, slots, i)
    ensures Keeps(cfg, done, Accept(m, o, batch), slots, i)
  {
    var n := Accept(m, o, batch);
    assert Written(n, slots) == Written(m, slots);
    hide Spaced, LastClock, Required;
  }

  lemma NextKeeps(cfg: Config, c: Chain, e: Event, i: nat)
    requires (cfg.mode == 1 || cfg.mode == 3) && Tidy(cfg, c.mix, c.slots) && Keeps(cfg, c.done, c.mix, c.slots, i)
    ensures var d := Next(cfg, c, e); Keeps(cfg, d.done, d.mix, d.slots, i)
  {
    hide Tick, Tracks;
    match e
    case Work => TickKeeps(cfg, c.done, c.mix, c.slots, i);
    case Arrive(o, batch) => AcceptKeeps(cfg, c.done, c.mix, c.slots, o, batch, i);
    case NextBuffer =>
      if c.mix.pc.Done? {
        var d := Next(cfg, c, e);
        assert d.done + Written(d.mix, d.slots) == c.done + Written(c.mix, c.slots);
      }
  }

  lemma {:induction false} RunKeeps(cfg: Config, pids: seq<Pid>, run: seq<Event>, i: nat)
    requires (cfg.mode == 1 || cfg.mode == 3) && i < |pids| && pids[i] != NULL_PID
    ensures var c := Run(cfg, Start(cfg, pids), run);
            && Tidy(cfg, c.mix, c.slots)
            && Keeps(cfg, c.done, c.mix, c.slots, i)
            && c.mix.inputs[i].pcrPid == pids[i]
  {
    if run == [] {
      var c := Start(cfg, pids);
      assert c.done + Written(c.mix, c.slots) == [];
    } else {
      var init, e := run[..|run| - 1], run[|run| - 1];
      RunKeeps(cfg, pids, init, i);
      var c := Run(cfg, Start(cfg, pids), init);
      NextKeeps(cfg, c, e, i);
      RunConserves(cfg, pids, init, Psi);
      RunConserves(cfg, pids, run, Psi);
      PidStays(cfg, c, e, i);
      hide Next, Keeps;
    }
  }

  lemma PidStays(cfg: Config, c: Chain, e: Event, i: nat)
    requires Shaped(cfg, c.mix, c.slots) && i < |c.mix.inputs|
    ensures var d := Next(cfg, c, e);
            |d.mix.inputs| == |c.mix.inputs| && d.mix.inputs[i].pcrPid == c.mix.inputs[i].pcrPid
  {
  }

  // ---- The theorem

  lemma {:induction false} SpacedPrefix(cfg: Config, s: seq<Packet>, i: nat, pid: Pid, n: nat)
    requires Spaced(cfg, s, i, pid) && n <= |s|
    ensures Spaced(cfg, s[..n], i, pid)
    decreases |s|
  {
    if n < |s| {
      SpacedPrefix(cfg, s[..|s| - 1], i, pid, n);
      assert s[..|s| - 1][..n] == s[..n];
    } else {
      assert s[..n] == s;
    }
  }

  lemma LastClockIs(s: seq<Packet>, i: nat, pid: Pid, a: nat)
    requires a < |s| && IsClockOf(s[a], i, pid) && Quiet(s[a + 1..], i, pid)
    ensures LastClock(s, i, pid) == Some(a)
  {
    var cfg := Config(0, 0, 0.0, 0, 0, 0);
    AppendOne(cfg, s[..a], s[a], i, pid);
    AppendQuiet(cfg, s[..a] + [s[a]], s[a + 1..], i, pid);
    assert s == s[..a] + [s[a]] + s[a + 1..];
  }

  /** The slots of the whole output so far, across buffer boundaries. */
  function Output(c: Chain): seq<Packet> {
    c.done + c.slots
  }

  lemma OutputSpaced(cfg: Config, pids: seq<Pid>, run: seq<Event>, i: nat)
    requires (cfg.mode == 1 || cfg.mode == 3) && i < |pids| && pids[i] != NULL_PID
    ensures Spaced(cfg, Output(Run(cfg, Start(cfg, pids), run)), i, pids[i])
  {
    var c := Run(cfg, Start(cfg, pids), run);
    RunKeeps(cfg, pids, run, i);
    hide Run;
    var w := Written(c.mix, c.slots);
    var rest := c.slots[|w|..];
    assert Output(c) == c.done + w + rest;
    AppendQuiet(cfg, c.done + w, rest, i, pids[i]);
  }

  /** Slots `a` and `b` hold consecutive clocks of one input. */
  predicate Consecutive(s: seq<Packet>, i: nat, pid: Pid, a: nat, b: nat) {
    a < b < |s| && IsClockOf(s[a], i, pid) && IsClockOf(s[b], i, pid) && Quiet(s[a + 1..b], i, pid)
  }

  lemma ConsecutiveApart(cfg: Config, s: seq<Packet>, i: nat, pid: Pid, a: nat, b: nat)
    requires Spaced(cfg, s, i, pid) && Consecutive(s, i, pid, a, b)
    ensures s[a].pcr.value != 0 ==> b - a >= Required(cfg, ClockDifference(s[b].pcr.value, s[a].pcr.value))
  {
    SpacedPrefix(cfg, s, i, pid, b + 1);
    assert s[..b + 1][..b] == s[..b];
    assert s[..b][a + 1..] == s[a + 1..b];
    LastClockIs(s[..b], i, pid, a);
    hide Required;
  }

  lemma GapFloor(cfg: Config, d: nat)
    requires GoodConfig(cfg)
    ensures Gap(cfg, d) >= -1
  {
    assert cfg.bitrate / 8.0 / 27000000.0 / 188.0 * d as real >= 0.0;
  }

  /** Clock ticks in a packet, times the bitrate in bits per second: 188 bytes of 8 bits, and 27
      million ticks a second. */
  const TICKS_PER_PACKET: real := 188.0 * 8.0 * 27000000.0

  lemma SlopeTimes(bitrate: real, d: real)
    ensures bitrate / 8.0 / 27000000.0 / 188.0 * d * TICKS_PER_PACKET == bitrate * d
  {
    var slope := bitrate / 8.0 / 27000000.0 / 188.0;
    assert slope * TICKS_PER_PACKET == bitrate;
    Swap(slope, d, TICKS_PER_PACKET);
  }

  lemma Swap(a: real, b: real, c: real)
    ensures a * b * c == (a * c) * b
  {
  }

  /** The packets that the bitrate sends in `d` ticks, rounded, less one. */
  lemma GapIs(cfg: Config, d: nat)
    requires GoodConfig(cfg)
    ensures var g, sent := Gap(cfg, d) as real, cfg.bitrate * d as real;
            (g + 0.5) * TICKS_PER_PACKET <= sent < (g + 1.5) * TICKS_PER_PACKET
  {
    var x := cfg.bitrate / 8.0 / 27000000.0 / 188.0 * d as real;
    assert x >= 0.0;
    SlopeTimes(cfg.bitrate, d as real);
    hide Gap;
    GapRounds(cfg, d, x);
    var g := Gap(cfg, d) as real;
    assert g + 0.5 <= x < g + 1.5;
  }

  lemma GapRounds(cfg: Config, d: nat, x: real)
    requires GoodConfig(cfg) && x == cfg.bitrate / 8.0 / 27000000.0 / 188.0 * d as real && x >= 0.0
    ensures (Gap(cfg, d) + 1) as real <= x + 0.5 < (Gap(cfg, d) + 2) as real
  {
  }

  /** One buffer, or the largest `int` halved. */
  function Cap(cfg: Config): nat {
    if cfg.maxPackets < 0x3fff_ffff then cfg.maxPackets else 0x3fff_ffff
  }

  /** `n` slots are what the bitrate sends in `d` ticks, rounded and less one, but no less than
      none and no more than the cap. */
  predicate Slots(cfg: Config, d: nat, n: int) {
    var sent := cfg.bitrate * d as real;
    && 0 <= n <= Cap(cfg)
    && (n < Cap(cfg) ==> sent < (n as real + 1.5) * TICKS_PER_PACKET)
    && (n > 0 ==> (n as real + 0.5) * TICKS_PER_PACKET <= sent)
  }

  /** The count fits an `int`. */
  predicate Countable(cfg: Config, d: nat) {
    cfg.bitrate * d as real < 0x7fff_ffff as real * TICKS_PER_PACKET
  }

  /** The required count is that number of slots, as long as the source clock did not wrap
      around and the count fits an `int`. */
  lemma RequiredIsGap(cfg: Config, first: nat, second: nat)
    requires GoodConfig(cfg)
    requires first <= second < 0x1_0000_0000_0000_0000 && Countable(cfg, second - first)
    ensures Slots(cfg, second - first, Required(cfg, ClockDifference(second, first)))
  {
    var d := second - first;
    GapFloor(cfg, d);
    GapIs(cfg, d);
    assert ClockDifference(second, first) == d;
    hide Gap;
    ClampIs(cfg, d, Gap(cfg, d));
  }

  lemma ClampIs(cfg: Config, d: nat, g: int)
    requires g >= -1 && Countable(cfg, d)
    requires (g as real + 0.5) * TICKS_PER_PACKET <= cfg.bitrate * d as real < (g as real + 1.5) * TICKS_PER_PACKET
    ensures g <= INT_MAX
    ensures Slots(cfg, d, Clamp(g, Bound(cfg)))
  {
    if g > INT_MAX {
      Larger(0x7fff_ffff as real, g as real + 0.5);
    }
    var n := Clamp(g, Bound(cfg));
    if n > 0 {
      Larger(n as real + 0.5, g as real + 0.5);
    }
    if n < Cap(cfg) {
      Larger(g as real + 1.5, n as real + 1.5);
    }
  }

  lemma Larger(a: real, b: real)
    requires a <= b
    ensures a * TICKS_PER_PACKET <= b * TICKS_PER_PACKET
  {
  }

  /** PCR spacing over every run: consecutive clocks of one input are at least the required
      number of slots apart in the output, across buffers full or all null, unless the first
      one was 0.  When the clock did not wrap around and the count fits an `int`, that is at
      least a buffer, or all but one of the packets that the bitrate sends in between. */
  lemma PcrSpacing(cfg: Config, pids: seq<Pid>, run: seq<Event>, i: nat, a: nat, b: nat)
    requires GoodConfig(cfg) && (cfg.mode == 1 || cfg.mode == 3) && i < |pids| && pids[i] != NULL_PID
    requires Consecutive(Output(Run(cfg, Start(cfg, pids), run)), i, pids[i], a, b)
    ensures var s := Output(Run(cfg, Start(cfg, pids), run));
            var first, second := s[a].pcr.value, s[b].pcr.value;
            first != 0 ==>
              && b - a >= Required(cfg, ClockDifference(second, first))
              && (first <= second < 0x1_0000_0000_0000_0000 && Countable(cfg, second - first) ==>
                    || b - a >= Cap(cfg)
                    || cfg.bitrate * (second - first) as real < ((b - a) as real + 1.5) * TICKS_PER_PACKET)
  {
    hide Run, Required, Spaced, ClockDifference, Slots;
    var s := Output(Run(cfg, Start(cfg, pids), run));
    OutputSpaced(cfg, pids, run, i);
    ConsecutiveApart(cfg, s, i, pids[i], a, b);
    var first, second := s[a].pcr.value, s[b].pcr.value;
    if first != 0 && first <= second < 0x1_0000_0000_0000_0000 && Countable(cfg, second - first) {
      var n := Required(cfg, ClockDifference(second, first));
      RequiredIsGap(cfg, first, second);
      SlotsAtLeast(cfg, second - first, n, b - a);
    }
  }

  lemma SlotsAtLeast(cfg: Config, d: nat, n: int, slots: int)
    requires Slots(cfg, d, n) && slots >= n
    ensures slots >= Cap(cfg) || cfg.bitrate * d as real < (slots as real + 1.5) * TICKS_PER_PACKET
  {
    Larger(n as real + 1.5, slots as real + 1.5);
  }
}
