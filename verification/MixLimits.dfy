/** Runs that show where the promises of the mixer end, and the exact conditions. */
module MixLimits {
  import opened Ts
  import opened Spread
  import opened Mix
  import opened MixFair
  import opened MixBudget
  import opened MixJournal
  import opened MixSpacing
  import opened MixRuns

  // ---- A clock of value 0

  function ClockPacket(pid: Pid, clock: nat): Packet {
    Packet(Channel(0), pid, 2, 0, Some(clock), 0)
  }

  function Fillers(pid: Pid, n: nat): (s: seq<Packet>)
    ensures |s| == n && forall i :: 0 <= i < n ==> s[i] == Packet(Channel(0), pid, 1, 0, None, 0)
  {
    seq(n, i => Packet(Channel(0), pid, 1, 0, None, 0))
  }

  /** A full buffer's worth of packets, clocks `first` and `second` in front. */
  function TwoClocks(cfg: Config, pid: Pid, first: nat, second: nat): (s: seq<Packet>)
    requires cfg.maxPackets >= 2
    ensures |s| == cfg.maxPackets && From(Channel(0), s)
  {
    [ClockPacket(pid, first)] + ([ClockPacket(pid, second)] + Fillers(pid, cfg.maxPackets - 2))
  }

  /** With no null slot in the buffer, a packet goes to the slot of its iteration. */
  lemma NoNullsNoSkip(p: nat, k: nat)
    requires 1 <= p
    ensures SpreadNulls(p, 0, k, 0) == 0
  {
  }

  /** An input that remembers no clock, or one of value 0, yields the next one. */
  lemma NotHeld(cfg: Config, r: InputState)
    requires MovesPcr(cfg) && r.buf != [] && IsClock(r, r.buf[0]) && r.pcrPid < NULL_PID
    requires r.lastPcr == 0 && r.needed == 0
    ensures Visit(cfg, r) == (r.(buf := r.buf[1..], lastPcr := r.buf[0].pcr.value, sent := 0), Picked(r.buf[0]))
  {
  }

  /** One iteration serves the clock `p` in front of `rest`. */
  lemma ServesClock(cfg: Config, pid: Pid, p: Packet, rest: seq<Packet>, sent: int, k: nat, slots: seq<Packet>,
                    n: Mixing)
    requires MovesPcr(cfg) && |slots| == cfg.maxPackets && k < |slots|
    requires p.pid == pid < NULL_PID && HasPcr(p)
    requires n == AtHead(InputState(rest, pid, p.pcr.value, 0, 1), |slots|, 0, k + 1)
    ensures Ticks(cfg, AtHead(InputState([p] + rest, pid, 0, 0, sent), |slots|, 0, k), slots, 3) == (n, slots[k := p])
  {
    hide Visit, SpreadNulls, Ticks, MovesPcr;
    var r, s := InputState([p] + rest, pid, 0, 0, sent), InputState(rest, pid, p.pcr.value, 0, 0);
    NotHeld(cfg, r);
    assert r.buf[1..] == rest;
    NoNullsNoSkip(|slots|, k);
    ServesOne(cfg, r, s, p, |slots|, 0, k, slots);
  }

  /** The clock after one of value 0 is served at once. */
  lemma ServesBoth(cfg: Config, pid: Pid, second: nat, rest: seq<Packet>, slots: seq<Packet>)
    requires MovesPcr(cfg) && |slots| == cfg.maxPackets >= 2 && pid < NULL_PID
    ensures var a, b := ClockPacket(pid, 0), ClockPacket(pid, second);
            var r := FreshInput(pid).(buf := [a] + ([b] + rest));
            Ticks(cfg, AtHead(r, |slots|, 0, 0), slots, 6).1 == slots[0 := a][1 := b]
  {
    var a, b := ClockPacket(pid, 0), ClockPacket(pid, second);
    var between := AtHead(InputState([b] + rest, pid, 0, 0, 1), |slots|, 0, 1);
    hide Ticks, MovesPcr;
    ServesClock(cfg, pid, a, [b] + rest, 0, 0, slots, between);
    ServesClock(cfg, pid, b, rest, 1, 1, slots[0 := a], AtHead(InputState(rest, pid, second, 0, 1), |slots|, 0, 2));
    var r := FreshInput(pid).(buf := [a] + ([b] + rest));
    TicksVia(cfg, AtHead(r, |slots|, 0, 0), slots, 3, between, slots[0 := a], 3);
  }

  /** One input, fed with `TwoClocks`, and the thread's first nine steps. */
  function ZeroClockRun(cfg: Config, pid: Pid, second: nat): seq<Event>
    requires cfg.maxPackets >= 2
  {
    [Arrive(Channel(0), TwoClocks(cfg, pid, 0, second))] + Alone(9)
  }

  /** Whatever clock follows one of value 0 may follow in the very next slot. */
  lemma ZeroClockForgotten(cfg: Config, pid: Pid, second: nat)
    requires (cfg.mode == 1 || cfg.mode == 3) && pid < NULL_PID && 2 <= cfg.maxPackets <= cfg.inputRoom
    ensures var s := Output(Run(cfg, Start(cfg, [pid]), ZeroClockRun(cfg, pid, second)));
            && Consecutive(s, 0, pid, 0, 1)
            && s[0].pcr.value == 0 && s[1].pcr.value == second
  {
    hide Run, Ticks;
    var slots := Nulls(cfg.maxPackets);
    var batch := TwoClocks(cfg, pid, 0, second);
    RunFed(cfg, pid, batch, 6);
    ServesBoth(cfg, pid, second, Fillers(pid, cfg.maxPackets - 2), slots);
    var s := slots[0 := ClockPacket(pid, 0)][1 := ClockPacket(pid, second)];
    assert [] + s == s;
  }

  /** In every run, whatever the inputs, consecutive clocks `first` and `second` are as many
      slots apart as required. */
  ghost predicate SpacingHolds(cfg: Config, first: nat, second: nat) {
    forall pids: seq<Pid>, run: seq<Event>, i: nat, a: nat, b: nat ::
      i < |pids| && pids[i] != NULL_PID && Shows(cfg, pids, run, i, a, b, first, second) ==>
        b - a >= Required(cfg, ClockDifference(second, first))
  }

  predicate Shows(cfg: Config, pids: seq<Pid>, run: seq<Event>, i: nat, a: nat, b: nat, first: nat, second: nat)
    requires i < |pids|
  {
    var s := Output(Run(cfg, Start(cfg, pids), run));
    Consecutive(s, i, pids[i], a, b) && s[a].pcr.value == first && s[b].pcr.value == second
  }

  /** The exact condition of spacing: it holds of two clock values, in all runs, if and only if
      the first is not 0 or nothing is required beyond the next slot. */
  lemma SpacingHoldsIs(cfg: Config, first: nat, second: nat)
    requires GoodConfig(cfg) && (cfg.mode == 1 || cfg.mode == 3) && 2 <= cfg.maxPackets <= cfg.inputRoom
    ensures SpacingHolds(cfg, first, second) <==> first != 0 || Required(cfg, ClockDifference(second, first)) <= 1
  {
    hide Required, ClockDifference, Output, Run, Consecutive;
    if first != 0 {
      forall pids: seq<Pid>, run: seq<Event>, i: nat, a: nat, b: nat
        | i < |pids| && pids[i] != NULL_PID && Shows(cfg, pids, run, i, a, b, first, second)
        ensures b - a >= Required(cfg, ClockDifference(second, first))
      {
        PcrSpacing(cfg, pids, run, i, a, b);
      }
    } else if Required(cfg, ClockDifference(second, first)) <= 1 {
      forall pids: seq<Pid>, run: seq<Event>, i: nat, a: nat, b: nat
        | i < |pids| && pids[i] != NULL_PID && Shows(cfg, pids, run, i, a, b, first, second)
        ensures b - a >= Required(cfg, ClockDifference(second, first))
      {
        Ordered(Output(Run(cfg, Start(cfg, pids), run)), i, pids[i], a, b);
      }
    } else {
      ZeroClockForgotten(cfg, 32, second);
      assert Shows(cfg, [32], ZeroClockRun(cfg, 32, second), 0, 0, 1, 0, second);
    }
  }

  lemma Ordered(s: seq<Packet>, i: nat, pid: Pid, a: nat, b: nat)
    requires Consecutive(s, i, pid, a, b)
    ensures a < b
  {
  }

  // ---- What `outputed_packets` does not count

  /** One input, fed with one clock, and the fill of that buffer. */
  function OneClockRun(pid: Pid, clock: nat): seq<Event> {
    [Arrive(Channel(0), [ClockPacket(pid, clock)])] + Alone(7)
  }

  lemma OneClockChain(cfg: Config, pid: Pid, clock: nat)
    requires (cfg.mode == 1 || cfg.mode == 3) && pid < NULL_PID && cfg.maxPackets >= 2 && cfg.inputRoom >= 1
    ensures var p := ClockPacket(pid, clock);
            Run(cfg, Start(cfg, [pid]), OneClockRun(pid, clock)) ==
            Chain(AtHead(InputState([], pid, clock, 0, 1), 1, 0, 1).(pc := Done),
                  Nulls(cfg.maxPackets)[0 := p], [], [p])
  {
    hide Run, SpreadNulls;
    var p, batch, slots := ClockPacket(pid, clock), [ClockPacket(pid, clock)], Nulls(cfg.maxPackets);
    var r := FreshInput(pid).(buf := batch);
    RunFed(cfg, pid, batch, 4);
    NotHeld(cfg, r);
    var s := InputState([], pid, clock, 0, 0);
    assert batch[1..] == [];
    FirstSkip(cfg.maxPackets - 1);
    hide Visit;
    ServesOne(cfg, r, s, p, 1, 0, 0, slots);
    assert Ticks(cfg, AtHead(r, 1, 0, 0), slots, 4) ==
           (AtHead(s.(sent := 1), 1, 0, 1).(pc := Done), slots[0 := p]);
  }

  /** One clock alone in a buffer: after the fill a whole buffer of slots has been settled since
      that clock, its own included, and one has been counted. */
  lemma SkippedNotCounted(cfg: Config, pid: Pid, clock: nat)
    requires (cfg.mode == 1 || cfg.mode == 3) && pid < NULL_PID && cfg.maxPackets >= 2 && cfg.inputRoom >= 1
    ensures var c := Run(cfg, Start(cfg, [pid]), OneClockRun(pid, clock));
            && c.mix.pc.Done? && c.done == []
            && c.slots[0] == ClockPacket(pid, clock)
            && |c.slots| == cfg.maxPackets
            && |c.mix.inputs| == 1 && c.mix.inputs[0].sent == 1
  {
    hide Run;
    OneClockChain(cfg, pid, clock);
  }

  /** Packet 0 goes to slot 0. */
  lemma FirstSkip(z: nat)
    ensures SpreadNulls(1, z, 0, 0) == 0
  {
    if z > 1 {
      SparseStep(1, z, 0, 0);
    } else if z == 1 {
      DenseWanted(1, 1, 0, 0);
      DenseDueZero(1, 1);
    }
  }

  // ---- The retry

  /** The turn of the packet loop that starts here ends with nothing read, so the loop retries. */
  predicate RetriesAfter(cfg: Config, m: Mixing, slots: seq<Packet>, n: nat)
    requires Shaped(cfg, m, slots) && m.pc.Head?
  {
    Ticks(cfg, m, slots, n).0.pc == Scan(m.pc.k, 0, 0)
  }

  ghost predicate Retries(cfg: Config, m: Mixing, slots: seq<Packet>)
    requires Shaped(cfg, m, slots) && m.pc.Head?
  {
    exists n: nat :: RetriesAfter(cfg, m, slots, n)
  }

  predicate AllEmpty(m: Mixing) {
    m.psi == [] && forall i :: 0 <= i < |m.inputs| ==> m.inputs[i].buf == []
  }

  /** Nothing can be read: all buffers are empty, and asking an empty input does not count as
      reading it.  It does in the modes that leave clocks where they are. */
  predicate Starved(cfg: Config, m: Mixing) {
    AllEmpty(m) && (cfg.mode == 1 || cfg.mode == 3 || m.inputs == [])
  }

  /** A scan that reads nothing leads back to the same iteration. */
  lemma {:induction false} EmptyScan(cfg: Config, m: Mixing, slots: seq<Packet>, j: nat)
    requires Shaped(cfg, m, slots) && OnList(m) && Starved(cfg, m)
    requires m.pc.Head? && m.pc.k < m.packets && j <= |m.inputs|
    ensures var n := Ticks(cfg, m, slots, j + 1).0;
            && OnList(n)
            && n == m.(last := n.last, pc := Scan(m.pc.k, |m.inputs| - j, 0))
            && Ticks(cfg, m, slots, j + 1).1 == slots
  {
    if j == 0 {
      assert Ticks(cfg, m, slots, 0) == (m, slots);
    } else {
      EmptyScan(cfg, m, slots, j - 1);
      hide Tick, Visit;
      EmptyVisit(cfg, Ticks(cfg, m, slots, j).0, slots);
    }
  }

  lemma EmptyVisit(cfg: Config, m: Mixing, slots: seq<Packet>)
    requires Shaped(cfg, m, slots) && OnList(m) && Starved(cfg, m)
    requires m.pc.Scan? && m.pc.left > 0 && m.pc.polled == 0
    ensures var (n, written) := Tick(cfg, m, slots);
            && OnList(n) && written == slots
            && n == m.(last := n.last, pc := Scan(m.pc.k, m.pc.left - 1, 0))
  {
  }

  /** Once nothing can be read with budget left over, the loop makes no more progress until a
      packet arrives. */
  lemma RetryChangesNothing(cfg: Config, m: Mixing, slots: seq<Packet>)
    requires Shaped(cfg, m, slots) && OnList(m) && Starved(cfg, m)
    requires m.pc.Head? && m.pc.k < m.packets
    ensures var r := Ticks(cfg, m, slots, |m.inputs| + 2); r == (m.(last := r.0.last), slots)
  {
    EmptyScan(cfg, m, slots, |m.inputs|);
  }

  /** Iteration `k` will read something, or is over. */
  ghost predicate WillRead(cfg: Config, m: Mixing, k: nat) {
    match m.pc
    case Sum(_, _) => false
    case Head(i) => i > k
    case Scan(i, left, polled) =>
      || i > k
      || (i == k && (|| polled > 0
                     || (cfg.mode != 1 && cfg.mode != 3 && left > 0)
                     || exists a :: Reachable(m, left, a)))
    case Place(i, _) => i >= k
    case Done => true
  }

  lemma VisitWillRead(cfg: Config, m: Mixing, slots: seq<Packet>, k: nat)
    requires Shaped(cfg, m, slots) && OnList(m) && WillRead(cfg, m, k) && m.pc.Scan? && m.pc.left > 0
    ensures WillRead(cfg, VisitNext(cfg, m), k)
  {
    var n := |m.inputs|;
    var i, v := NextNode(m.last, n), VisitNext(cfg, m);
    var (s, verdict) := Visit(cfg, m.inputs[i]);
    assert verdict == Silent ==> m.inputs[i].buf == [] && (cfg.mode == 1 || cfg.mode == 3);
    hide Visit;
    if m.pc.k == k && m.pc.polled == 0 && verdict == Silent {
      var a :| Reachable(m, m.pc.left, a);
      AheadShrinks(m.last, a, n);
      assert Reachable(v, m.pc.left - 1, a);
    }
  }

  lemma TickWillRead(cfg: Config, m: Mixing, slots: seq<Packet>, k: nat)
    requires Shaped(cfg, m, slots) && OnList(m) && WillRead(cfg, m, k)
    ensures WillRead(cfg, Tick(cfg, m, slots).0, k) && OnList(Tick(cfg, m, slots).0)
  {
    hide VisitNext, SpreadNulls;
    if m.pc.Scan? && m.pc.left > 0 {
      VisitWillRead(cfg, m, slots, k);
      VisitOnList(cfg, m);
    }
  }

  lemma VisitOnList(cfg: Config, m: Mixing)
    requires OnList(m) && m.pc.Scan? && m.pc.left > 0 && m.inputs != []
    ensures OnList(VisitNext(cfg, m))
  {
    hide Visit;
  }

  lemma {:induction false} TicksWillRead(cfg: Config, m: Mixing, slots: seq<Packet>, k: nat, n: nat)
    requires Shaped(cfg, m, slots) && OnList(m) && WillRead(cfg, m, k)
    ensures var r := Ticks(cfg, m, slots, n).0; WillRead(cfg, r, k) && OnList(r)
  {
    hide Tick, WillRead, Shaped;
    if n > 0 {
      TicksWillRead(cfg, m, slots, k, n - 1);
      var r := Ticks(cfg, m, slots, n - 1);
      TickWillRead(cfg, r.0, r.1, k);
    }
  }

  lemma SomethingReads(cfg: Config, m: Mixing, slots: seq<Packet>)
    requires Shaped(cfg, m, slots) && OnList(m) && !Starved(cfg, m)
    requires m.pc.Head? && m.pc.k < m.packets
    ensures WillRead(cfg, Tick(cfg, m, slots).0, m.pc.k) && OnList(Tick(cfg, m, slots).0)
  {
    if m.psi == [] && (cfg.mode == 1 || cfg.mode == 3) {
      var i :| 0 <= i < |m.inputs| && m.inputs[i].buf != [];
      AheadShrinks(m.last, i, |m.inputs|);
      assert Reachable(Tick(cfg, m, slots).0, |m.inputs|, i);
    }
  }

  /** With no producer at work, in every mode and with padding or without, an iteration retries
      if and only if all buffers are empty and either the mode moves clocks or there is no input. */
  lemma RetriesIs(cfg: Config, m: Mixing, slots: seq<Packet>)
    requires Shaped(cfg, m, slots) && OnList(m)
    requires m.pc.Head? && m.pc.k < m.packets
    ensures Retries(cfg, m, slots) <==> Starved(cfg, m)
  {
    if Starved(cfg, m) {
      EmptyScan(cfg, m, slots, |m.inputs|);
      assert RetriesAfter(cfg, m, slots, |m.inputs| + 1);
    } else {
      forall n: nat ensures !RetriesAfter(cfg, m, slots, n) {
        NotRetried(cfg, m, slots, n);
      }
    }
  }

  lemma NotRetried(cfg: Config, m: Mixing, slots: seq<Packet>, n: nat)
    requires Shaped(cfg, m, slots) && OnList(m) && !Starved(cfg, m)
    requires m.pc.Head? && m.pc.k < m.packets
    ensures !RetriesAfter(cfg, m, slots, n)
  {
    hide Ticks, WillRead, Starved, OnList;
    if n > 0 {
      LaterReads(cfg, m, slots, n);
      WillReadIsNoRetry(cfg, Ticks(cfg, m, slots, n).0, m.pc.k);
    } else {
      TicksNone(cfg, m, slots);
    }
  }

  lemma LaterReads(cfg: Config, m: Mixing, slots: seq<Packet>, n: nat)
    requires Shaped(cfg, m, slots) && OnList(m) && !Starved(cfg, m)
    requires m.pc.Head? && m.pc.k < m.packets && n > 0
    ensures WillRead(cfg, Ticks(cfg, m, slots, n).0, m.pc.k)
  {
    hide Tick, Ticks, WillRead, Starved, OnList, Shaped;
    var (one, written) := Tick(cfg, m, slots);
    SomethingReads(cfg, m, slots);
    TicksOne(cfg, m, slots);
    TicksWillRead(cfg, one, written, m.pc.k, n - 1);
    TicksVia(cfg, m, slots, 1, one, written, n - 1);
  }

  lemma WillReadIsNoRetry(cfg: Config, m: Mixing, k: nat)
    requires WillRead(cfg, m, k)
    ensures m.pc != Scan(k, 0, 0)
  {
  }

  /** In the modes that leave clocks alone, an input counts as read whenever it is asked. */
  predicate CountsAll(cfg: Config, m: Mixing) {
    cfg.mode != 1 && cfg.mode != 3 && m.pc.Scan? ==> m.pc.left + m.pc.polled == |m.inputs|
  }

  lemma NextCountsAll(cfg: Config, c: Chain, e: Event)
    requires Shaped(cfg, c.mix, c.slots) && CountsAll(cfg, c.mix)
    ensures CountsAll(cfg, Next(cfg, c, e).mix)
  {
    hide SpreadNulls;
  }

  /** So with an input at all these modes never retry, in any run, whatever the inputs hold. */
  lemma {:induction false} OtherModesNeverRetry(cfg: Config, pids: seq<Pid>, run: seq<Event>)
    requires cfg.mode != 1 && cfg.mode != 3 && pids != []
    ensures var m := Run(cfg, Start(cfg, pids), run).mix;
            CountsAll(cfg, m) && |m.inputs| == |pids| && !(m.pc.Scan? && m.pc.left == 0 && m.pc.polled == 0)
  {
    InputsStay(cfg, pids, run);
    if run != [] {
      OtherModesNeverRetry(cfg, pids, run[..|run| - 1]);
      NextCountsAll(cfg, Run(cfg, Start(cfg, pids), run[..|run| - 1]), run[|run| - 1]);
      hide Next;
    }
  }

  // ---- Padding

  function Padded(i: nat): Packet {
    Packet(Channel(i), NULL_PID, 1, 0, None, 0)
  }

  function PaddingRun(): seq<Event> {
    [Arrive(Channel(0), [Padded(0)]), Arrive(Channel(1), [Padded(1)])] + Alone(12)
  }

  /** Two inputs, one padding packet each: both packets are budgeted, the first iteration eats
      both, and the second one retries. */
  lemma PaddingRetries(cfg: Config, x: Pid, y: Pid)
    requires (cfg.mode == 1 || cfg.mode == 3) && cfg.maxPackets >= 2 && cfg.inputRoom >= 1
    requires x != NULL_PID && y != NULL_PID
    ensures var m := Run(cfg, Start(cfg, [x, y]), PaddingRun()).mix;
            m.pc == Scan(1, 0, 0) && m.packets == 2 && AllEmpty(m)
  {
    var slots := Nulls(cfg.maxPackets);
    var r, s := FreshInput(x).(buf := [Padded(0)]), FreshInput(y).(buf := [Padded(1)]);
    var c := Chain(Mixing([], [r, s], 1, 0, 0, Sum(0, 0)), slots, [], [Padded(0), Padded(1)]);
    PaddingArrives(cfg, x, y);
    hide Run, Tick, Ticks, AllEmpty;
    RunConcat(cfg, Start(cfg, [x, y]), PaddingRun()[..2], Alone(12));
    assert PaddingRun() == PaddingRun()[..2] + Alone(12);
    RunAlone(cfg, c, 12);
    PaddingTicks(cfg, r, s, slots);
  }

  lemma PaddingTicks(cfg: Config, r: InputState, s: InputState, slots: seq<Packet>)
    requires (cfg.mode == 1 || cfg.mode == 3) && |slots| == cfg.maxPackets >= 2 && |r.buf| == |s.buf| == 1
    requires r.buf[0].pid == NULL_PID == s.buf[0].pid && r.pcrPid != NULL_PID && s.pcrPid != NULL_PID
    ensures var m := Ticks(cfg, Mixing([], [r, s], 1, 0, 0, Sum(0, 0)), slots, 12).0;
            m.pc == Scan(1, 0, 0) && m.packets == 2 && AllEmpty(m)
  {
    PaddingSums(cfg, r, s, slots);
    PaddingEaten(cfg, r, s, slots);
    var m0, m4 := Mixing([], [r, s], 1, 0, 0, Sum(0, 0)), Mixing([], [r, s], 1, 2, 0, Head(0));
    var m9 := Mixing([], [r.(buf := [], sent := r.sent + 1), s.(buf := [], sent := s.sent + 1)], 1, 2, 0, Head(1));
    EmptyPair(cfg, m9, slots);
    hide Ticks, Tick, AllEmpty;
    TicksVia(cfg, m0, slots, 4, m4, slots, 8);
    TicksVia(cfg, m4, slots, 5, m9, slots, 3);
  }

  lemma EmptyPair(cfg: Config, m: Mixing, slots: seq<Packet>)
    requires Shaped(cfg, m, slots) && OnList(m) && (cfg.mode == 1 || cfg.mode == 3) && AllEmpty(m)
    requires m.pc == Head(1) && m.packets == 2 && |m.inputs| == 2
    ensures var n := Ticks(cfg, m, slots, 3).0; n.pc == Scan(1, 0, 0) && n.packets == 2 && AllEmpty(n)
  {
    hide Ticks;
    EmptyScan(cfg, m, slots, 2);
  }

  lemma PaddingArrives(cfg: Config, x: Pid, y: Pid)
    requires cfg.inputRoom >= 1
    ensures var r, s := FreshInput(x).(buf := [Padded(0)]), FreshInput(y).(buf := [Padded(1)]);
            Run(cfg, Start(cfg, [x, y]), PaddingRun()[..2]) ==
            Chain(Mixing([], [r, s], 1, 0, 0, Sum(0, 0)), Nulls(cfg.maxPackets), [], [Padded(0), Padded(1)])
  {
    var a, b := FreshInput(x), FreshInput(y);
    var r, s := a.(buf := [Padded(0)]), b.(buf := [Padded(1)]);
    var start, slots := Start(cfg, [x, y]), Nulls(cfg.maxPackets);
    assert FreshInputs([x, y]) == [a, b];
    assert start == Chain(Mixing([], [a, b], 1, 0, 0, Sum(0, 0)), slots, [], []);
    hide Next, Run, Start;
    var once := Chain(Mixing([], [r, b], 1, 0, 0, Sum(0, 0)), slots, [], [Padded(0)]);
    assert [] + [Padded(0)] == [Padded(0)] && [] + [Padded(1)] == [Padded(1)];
    assert [Padded(0)] + [Padded(1)] == [Padded(0), Padded(1)];
    assert [a, b][0 := r] == [r, b] && [r, b][1 := s] == [r, s];
    ArrivesOne(cfg, start, 0, Padded(0));
    ArrivesOne(cfg, once, 1, Padded(1));
    RunTwo(cfg, start, PaddingRun()[0], PaddingRun()[1]);
    assert PaddingRun()[..2] == [PaddingRun()[0], PaddingRun()[1]];
  }

  lemma PaddingSums(cfg: Config, r: InputState, s: InputState, slots: seq<Packet>)
    requires |slots| == cfg.maxPackets >= 2 && |r.buf| == |s.buf| == 1
    ensures Ticks(cfg, Mixing([], [r, s], 1, 0, 0, Sum(0, 0)), slots, 4) ==
            (Mixing([], [r, s], 1, 2, 0, Head(0)), slots)
  {
    var m := Mixing([], [r, s], 1, 0, 0, Sum(0, 0));
    assert Ticks(cfg, m, slots, 0) == (m, slots);
    assert Ticks(cfg, m, slots, 1) == (m.(pc := Sum(1, 0)), slots);
    assert Ticks(cfg, m, slots, 2) == (m.(pc := Sum(2, 1)), slots);
    assert Ticks(cfg, m, slots, 3) == (m.(pc := Sum(3, 2)), slots);
  }

  lemma PaddingTaken(cfg: Config, r: InputState)
    requires |r.buf| == 1 && r.buf[0].pid == NULL_PID && r.pcrPid != NULL_PID
    ensures Visit(cfg, r) == (r.(buf := []), Padding)
  {
    assert r.buf[1..] == [];
  }

  lemma PaddingEaten(cfg: Config, r: InputState, s: InputState, slots: seq<Packet>)
    requires |slots| == cfg.maxPackets >= 2 && |r.buf| == |s.buf| == 1
    requires r.buf[0].pid == NULL_PID == s.buf[0].pid && r.pcrPid != NULL_PID && s.pcrPid != NULL_PID
    ensures Ticks(cfg, Mixing([], [r, s], 1, 2, 0, Head(0)), slots, 5) ==
            (Mixing([], [r.(buf := [], sent := r.sent + 1), s.(buf := [], sent := s.sent + 1)], 1, 2, 0, Head(1)),
             slots)
  {
    var m := Mixing([], [r, s], 1, 2, 0, Head(0));
    var u, v := r.(buf := []), s.(buf := []);
    PaddingTaken(cfg, r);
    PaddingTaken(cfg, s);
    hide Visit;
    assert NextNode(1, 2) == 0 && NextNode(0, 2) == 1;
    assert [r, s][0 := u] == [u, s] && [u, s][1 := v] == [u, v];
    assert Ticks(cfg, m, slots, 0) == (m, slots);
    assert Ticks(cfg, m, slots, 1) == (m.(pc := Scan(0, 2, 0)), slots);
    assert Ticks(cfg, m, slots, 2) == (m.(inputs := [u, s], last := 0, pc := Scan(0, 1, 1)), slots);
    var eaten := m.(inputs := [u, v], pc := Scan(0, 0, 2));
    assert Ticks(cfg, m, slots, 3) == (eaten, slots);
    assert Ticks(cfg, m, slots, 4) == (eaten.(pc := Place(0, None)), slots);
    assert AddSent([u, v], 1) == [u.(sent := u.sent + 1), v.(sent := v.sent + 1)];
  }
}
