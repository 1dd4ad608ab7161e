/** The promises of the multiplexer as a whole, for every interleaving of its threads. */
module MuxTheorems {
  import opened Ts
  import opened Mix
  import opened MixConserve
  import opened MixBudget
  import opened MixLimits
  import opened MixSpacing
  import opened Restamp
  import opened Mux
  import opened MuxProof

  // ---- The double buffer

  /** The threads that may read or write buffer `b` now. */
  predicate MixerOwns(s: Sys, b: nat) {
    s.mixAt.MixFill? && b == s.mb
  }

  predicate WriterOwns(s: Sys, b: nat) {
    (Draining(s) || s.writeAt.WriteMark?) && b == s.wb
  }

  /** At most one thread owns a buffer, and a thread changes no buffer it does not own. */
  lemma BuffersAreExclusive(cfg: Config, pids: seq<Pid>, acts: seq<Act>, b: nat, accepted: int)
    requires GoodSetup(cfg) && b < 2
    ensures var s := Execute(cfg, pids, acts);
            && !(MixerOwns(s, b) && WriterOwns(s, b))
            && (!MixerOwns(s, b) ==> MixNext(cfg, s).bufs[b] == s.bufs[b])
            && (!WriterOwns(s, b) ==> WriteNext(cfg, s, accepted).bufs[b] == s.bufs[b])
  {
    ExecuteAgrees(cfg, pids, acts);
    hide Execute, Tick, StampAll, SentIsMixed;
    OwnersApart(cfg, Execute(cfg, pids, acts), b, accepted);
  }

  lemma OwnersApart(cfg: Config, s: Sys, b: nat, accepted: int)
    requires GoodSetup(cfg) && Formed(cfg, s) && Agreed(cfg, s) && b < 2
    ensures !(MixerOwns(s, b) && WriterOwns(s, b))
    ensures !MixerOwns(s, b) ==> MixNext(cfg, s).bufs[b] == s.bufs[b]
    ensures !WriterOwns(s, b) ==> WriteNext(cfg, s, accepted).bufs[b] == s.bufs[b]
  {
    hide Tick, StampAll, Shaped;
  }

  /** A thread's step changes nothing exactly when it waits for the other thread. */
  predicate MixerBlocked(s: Sys) {
    s.mb < |s.bufs| && s.mixAt.MixWait? && s.bufs[s.mb].status != Empty
  }

  predicate WriterBlocked(s: Sys) {
    s.wb < |s.bufs| && s.writeAt.WriteWait? && s.bufs[s.wb].status != Full
  }

  lemma TickMoves(cfg: Config, m: Mixing, slots: seq<Packet>)
    requires Shaped(cfg, m, slots) && !m.pc.Done?
    ensures Tick(cfg, m, slots).0.pc != m.pc
  {
    hide Visit;
  }

  lemma BlockedIs(cfg: Config, s: Sys, accepted: int)
    requires GoodSetup(cfg) && Formed(cfg, s)
    ensures MixNext(cfg, s) == s <==> MixerBlocked(s)
    ensures WriteNext(cfg, s, accepted) == s <==> WriterBlocked(s)
  {
    if s.mixAt.MixFill? && !s.mix.pc.Done? {
      TickMoves(cfg, s.mix, s.bufs[s.mb].slots);
    }
    hide Tick, StampAll, Shaped;
  }

  /** The protocol: completed fills are 0, 1 or 2 ahead of completed drains, what has been
      sent is a prefix of what has been mixed, and some thread can always move. */
  lemma DoubleBuffer(cfg: Config, pids: seq<Pid>, acts: seq<Act>, accepted: int)
    requires GoodSetup(cfg)
    ensures var s := Execute(cfg, pids, acts);
            && 0 <= s.fills - s.drains <= 2
            && s.drained <= |s.out| <= |s.done|
            && (forall i :: 0 <= i < |s.out| ==> SameButClock(cfg.mode, s.done[i], s.out[i]))
            && (MixNext(cfg, s) != s || WriteNext(cfg, s, accepted) != s)
  {
    ExecuteAgrees(cfg, pids, acts);
    var s := Execute(cfg, pids, acts);
    BlockedIs(cfg, s, accepted);
    hide Execute, MixNext, WriteNext, Shaped, SameButClock, Carries;
  }

  /** What leaves, packet by packet: null packets with header byte 3 at 0x10, and everything else
      as it was mixed but for the clocks that modes 2 and 3 rewrite. */
  lemma OutputIs(cfg: Config, pids: seq<Pid>, acts: seq<Act>, i: nat)
    requires GoodSetup(cfg) && i < |Execute(cfg, pids, acts).out|
    ensures var s := Execute(cfg, pids, acts);
            && i < |s.done|
            && (s.out[i].pid == 0x1fff ==> s.out[i] == s.done[i].(afc := 1, cont := 0))
            && (s.out[i].pid != 0x1fff ==> s.out[i] == s.done[i].(pcr := s.out[i].pcr))
            && (s.out[i].pid != 0x1fff && ((cfg.mode != 2 && cfg.mode != 3) || !HasPcr(s.done[i])) ==>
                  s.out[i] == s.done[i])
  {
    ExecuteAgrees(cfg, pids, acts);
    hide Execute, Agreed;
  }

  // ---- End to end

  lemma {:induction false} SameDelivery(mode: nat, a: seq<Packet>, b: seq<Packet>, o: Origin)
    requires |a| == |b| && forall i :: 0 <= i < |a| ==> SameButClock(mode, a[i], b[i])
    ensures AllUnclocked(Deliver(a, o)) == AllUnclocked(Deliver(b, o))
    ensures mode != 2 && mode != 3 ==> Deliver(a, o) == Deliver(b, o)
  {
    if a != [] {
      var n := |a| - 1;
      SameDelivery(mode, a[..n], b[..n], o);
      assert SameButClock(mode, a[n], b[n]);
      AllUnclockedConcat(Deliver(a[..n], o), Payload(a[n], o));
      AllUnclockedConcat(Deliver(b[..n], o), Payload(b[n], o));
      assert AllUnclocked(Payload(a[n], o)) == AllUnclocked(Payload(b[n], o));
    }
  }

  lemma AllUnclockedConcat(a: seq<Packet>, b: seq<Packet>)
    ensures AllUnclocked(a + b) == AllUnclocked(a) + AllUnclocked(b)
  {
  }

  /** What was mixed is what was sent followed by what was not. */
  lemma SplitDelivery(mode: nat, done: seq<Packet>, out: seq<Packet>, pending: seq<Packet>, o: Origin)
    requires |out| <= |done| && forall i :: 0 <= i < |out| ==> SameButClock(mode, done[i], out[i])
    ensures var unsent := Deliver(done[|out|..], o) + pending;
            && AllUnclocked(Deliver(done, o) + pending) == AllUnclocked(Deliver(out, o)) + AllUnclocked(unsent)
            && (mode != 2 && mode != 3 ==> Deliver(done, o) + pending == Deliver(out, o) + unsent)
  {
    hide Deliver, SameButClock, AllUnclocked;
    var sent, rest := done[..|out|], done[|out|..];
    assert done == sent + rest;
    DeliverConcat(sent, rest, o);
    SameDelivery(mode, sent, out, o);
    RegroupUnclocked(Deliver(sent, o), Deliver(rest, o), pending);
  }

  lemma RegroupUnclocked(a: seq<Packet>, b: seq<Packet>, c: seq<Packet>)
    ensures a + b + c == a + (b + c)
    ensures AllUnclocked(a + b + c) == AllUnclocked(a) + AllUnclocked(b + c)
  {
    assert a + b + c == a + (b + c);
    AllUnclockedConcat(a, b + c);
  }

  /** What of source `o` has been mixed or queued but not sent. */
  function Unsent(cfg: Config, s: Sys, o: Origin): seq<Packet>
    requires Formed(cfg, s) && |s.out| <= |s.done|
  {
    var c := ChainOf(cfg, s);
    Deliver(s.done[|s.out|..], o) + Pending(c.mix, c.slots, o)
  }

  /** End-to-end conservation: drop the null packets from the output and keep one source's
      packets, and you have, in order and up to the clocks that mode 2 or 3 rewrites, all of
      that source's accepted packets but for the ones still inside. */
  lemma EndToEnd(cfg: Config, pids: seq<Pid>, acts: seq<Act>, o: Origin)
    requires GoodSetup(cfg)
    ensures var s := Execute(cfg, pids, acts);
            && |s.out| <= |s.done|
            && AllUnclocked(Deliver(s.arrived, o)) == AllUnclocked(Deliver(s.out, o)) + AllUnclocked(Unsent(cfg, s, o))
            && (cfg.mode != 2 && cfg.mode != 3 ==> Deliver(s.arrived, o) == Deliver(s.out, o) + Unsent(cfg, s, o))
  {
    hide Run, Agreed, Deliver, Pending, SameButClock;
    var s := Execute(cfg, pids, acts);
    ExecuteAgrees(cfg, pids, acts);
    ExecuteRefines(cfg, pids, acts);
    RunConserves(cfg, pids, RunOf(cfg, pids, acts), o);
    hide Execute;
    var c := ChainOf(cfg, s);
    SplitDelivery(cfg.mode, s.done, s.out, Pending(c.mix, c.slots, o), o);
  }

  // ---- Bytes written

  /** No write takes more than it is given. */
  predicate AtMostFrames(acts: seq<Act>) {
    forall i :: 0 <= i < |acts| && acts[i].WriteStep? ==> acts[i].accepted <= FRAME * PACKET_SIZE
  }

  predicate Sends(cfg: Config, s: Sys, a: Act)
    requires Formed(cfg, s)
  {
    a.WriteStep? && s.writeAt.WriteDrain? && s.bufs[s.wb].written < cfg.maxPackets
  }

  /** The bytes of the output that failed or short writes did not take. */
  function Untaken(cfg: Config, pids: seq<Pid>, acts: seq<Act>): nat
    requires GoodSetup(cfg) && AtMostFrames(acts)
  {
    if acts == [] then 0
    else
      var init, a := acts[..|acts| - 1], acts[|acts| - 1];
      Untaken(cfg, pids, init) +
      if Sends(cfg, Execute(cfg, pids, init), a)
      then FRAME * PACKET_SIZE - (if a.accepted > 0 then a.accepted else 0) else 0
  }

  lemma StepCounts(cfg: Config, s: Sys, a: Act)
    requires GoodSetup(cfg) && Formed(cfg, s)
    ensures var t := Step(cfg, s, a);
            if Sends(cfg, s, a)
            then |t.out| == |s.out| + FRAME && t.traffic == s.traffic + if a.accepted > 0 then a.accepted else 0
            else |t.out| == |s.out| && t.traffic == s.traffic
  {
    hide Tick, StampAll, Shaped;
  }

  /** A frame is given to the write once and never again.  So the bytes counted as traffic are
      those of the output less the ones not taken, and the output of `EndToEnd` has arrived in
      full if and only if no write fell short. */
  lemma {:induction false} TrafficIs(cfg: Config, pids: seq<Pid>, acts: seq<Act>)
    requires GoodSetup(cfg) && AtMostFrames(acts)
    ensures var s := Execute(cfg, pids, acts);
            s.traffic + Untaken(cfg, pids, acts) == PACKET_SIZE * |s.out|
  {
    if acts != [] {
      var init := acts[..|acts| - 1];
      TrafficIs(cfg, pids, init);
      StepCounts(cfg, Execute(cfg, pids, init), acts[|acts| - 1]);
      hide Step, Sends;
    }
  }

  // ---- Clocks in the output

  /** Every write takes the whole frame. */
  predicate FullWrites(acts: seq<Act>) {
    forall i :: 0 <= i < |acts| && acts[i].WriteStep? ==> acts[i].accepted == FRAME * PACKET_SIZE
  }

  /** What was sent is what was mixed, restamped in one go from the very beginning. */
  predicate Stamped(cfg: Config, s: Sys)
    requires GoodSetup(cfg)
  {
    && |s.out| <= |s.done|
    && s.traffic == PACKET_SIZE * |s.out|
    && StampAll(cfg.mode, cfg.bitrate, FreshClocks(), s.done[..|s.out|], 0) == (s.clocks, s.out)
  }

  lemma SendStamped(cfg: Config, s: Sys)
    requires GoodSetup(cfg) && Formed(cfg, s) && Agreed(cfg, s) && SentIsMixed(cfg, s) && Stamped(cfg, s)
    requires s.writeAt.WriteDrain? && s.bufs[s.wb].written < cfg.maxPackets
    ensures Stamped(cfg, SendFrame(cfg, s, FRAME * PACKET_SIZE))
  {
    hide Shaped, SameButClock, StampAll;
    var buf, n := s.bufs[s.wb], |s.out|;
    var frame := buf.slots[buf.written..buf.written + FRAME];
    assert n == s.drained + buf.written && n + FRAME <= |s.done|;
    assert frame == s.done[n..n + FRAME];
    assert s.done[..n + FRAME] == s.done[..n] + frame;
    StampConcat(cfg.mode, cfg.bitrate, FreshClocks(), s.done[..n], frame, 0);
  }

  lemma StepStamped(cfg: Config, s: Sys, a: Act)
    requires GoodSetup(cfg) && Formed(cfg, s) && Agreed(cfg, s) && SentIsMixed(cfg, s) && Stamped(cfg, s)
    requires a.WriteStep? ==> a.accepted == FRAME * PACKET_SIZE
    ensures Stamped(cfg, Step(cfg, s, a))
  {
    hide Shaped, SameButClock, StampAll, Tick, Agreed;
    var t := Step(cfg, s, a);
    if a.WriteStep? && s.writeAt.WriteDrain? && s.bufs[s.wb].written < cfg.maxPackets {
      SendStamped(cfg, s);
      hide SendFrame, Stamped;
    } else {
      assert t.out == s.out && t.traffic == s.traffic && t.clocks == s.clocks;
      assert t.done[..|s.out|] == s.done[..|s.out|];
    }
  }

  lemma {:induction false} ExecuteStamped(cfg: Config, pids: seq<Pid>, acts: seq<Act>)
    requires GoodSetup(cfg) && FullWrites(acts)
    ensures Stamped(cfg, Execute(cfg, pids, acts))
  {
    if acts != [] {
      var init := acts[..|acts| - 1];
      ExecuteStamped(cfg, pids, init);
      ExecuteAgrees(cfg, pids, init);
      StepStamped(cfg, Execute(cfg, pids, init), acts[|acts| - 1]);
      hide Step, Stamped, Agreed, SentIsMixed;
    }
  }

  /** A clock in the output is the one that the writer kept when it sent it. */
  lemma StampedClock(cfg: Config, s: Sys, pid: Pid, j: nat)
    requires GoodSetup(cfg) && (cfg.mode == 2 || cfg.mode == 3) && Stamped(cfg, s)
    requires j < |s.out| && Timed(s.done[j], pid)
    ensures s.out[j].pcr == Some(Sent(cfg.mode, cfg.bitrate, s.done[..j + 1], pid))
  {
    hide Near, Wraps, Sent, StampAll;
    DriftBounded(cfg.mode, cfg.bitrate, s.done, pid, j);
    StampPrefix(cfg.mode, cfg.bitrate, s.done, |s.out|);
  }

  /** In modes 2 and 3, and as long as writes are complete, every clock in the output is the
      source clock at the start of a run, then below the ideal clock of the output bitrate by
      less than a tick for each restamp, up to wraparounds of the byte count. */
  lemma OutputClocksAccurate(cfg: Config, pids: seq<Pid>, acts: seq<Act>, pid: Pid, j: nat)
    requires GoodSetup(cfg) && FullWrites(acts) && (cfg.mode == 2 || cfg.mode == 3)
    requires j < |Execute(cfg, pids, acts).out| <= |Execute(cfg, pids, acts).done|
    requires Timed(Execute(cfg, pids, acts).done[j], pid)
    ensures var s := Execute(cfg, pids, acts);
            && s.out[j].pcr.Some?
            && Near(cfg.bitrate, s.done, pid, j, s.out[j].pcr.value, Wraps(s.done, pid, j))
            && (Restamps(s.done, pid, j) as real * cfg.bitrate <= WORD as real ==>
                  (Accurate(cfg.bitrate, s.done, pid, j, s.out[j].pcr.value) <==> Wraps(s.done, pid, j) == 0))
  {
    hide Near, Accurate, Wraps, Restamps, Sent, Stamped, Execute;
    ExecuteStamped(cfg, pids, acts);
    var s := Execute(cfg, pids, acts);
    StampedClock(cfg, s, pid, j);
    DriftBounded(cfg.mode, cfg.bitrate, s.done, pid, j);
    if Restamps(s.done, pid, j) as real * cfg.bitrate <= WORD as real {
      DriftIsAccurate(cfg.mode, cfg.bitrate, s.done, pid, j);
    }
  }

  lemma SameClockOf(mode: nat, p: Packet, q: Packet, i: nat, pid: Pid)
    requires SameButClock(mode, p, q) && pid != NULL_PID
    ensures IsClockOf(q, i, pid) == IsClockOf(p, i, pid)
  {
  }

  /** PCR spacing where it counts: in the packets sent, consecutive clocks of one input are
      as far apart as the source clocks at those places require. */
  lemma OutputClocksSpaced(cfg: Config, pids: seq<Pid>, acts: seq<Act>, i: nat, a: nat, b: nat)
    requires GoodSetup(cfg) && (cfg.mode == 1 || cfg.mode == 3) && i < |pids| && pids[i] != NULL_PID
    requires Consecutive(Execute(cfg, pids, acts).out, i, pids[i], a, b)
    ensures var s := Execute(cfg, pids, acts);
            && b < |s.done| && s.done[a].pcr.Some? && s.done[b].pcr.Some?
            && (s.done[a].pcr.value != 0 ==>
                  b - a >= Required(cfg, ClockDifference(s.done[b].pcr.value, s.done[a].pcr.value)))
  {
    hide Required, Agreed, Spaced;
    var s := Execute(cfg, pids, acts);
    ExecuteAgrees(cfg, pids, acts);
    ExecuteRefines(cfg, pids, acts);
    OutputSpaced(cfg, pids, RunOf(cfg, pids, acts), i);
    hide Execute, Run;
    forall j | 0 <= j < |s.out| ensures IsClockOf(s.out[j], i, pids[i]) == IsClockOf(s.done[j], i, pids[i]) {
      SameClockOf(cfg.mode, s.done[j], s.out[j], i, pids[i]);
    }
    var mixed := Output(ChainOf(cfg, s));
    assert forall j :: 0 <= j < |s.out| ==> mixed[j] == s.done[j];
    var between := mixed[a + 1..b];
    forall j | 0 <= j < |between| ensures !IsClockOf(between[j], i, pids[i]) {
      assert s.out[a + 1..b][j] == s.out[a + 1 + j];
    }
    ConsecutiveApart(cfg, mixed, i, pids[i], a, b);
  }

  // ---- The fill loop

  predicate CleanActs(acts: seq<Act>) {
    forall i :: 0 <= i < |acts| && acts[i].Produce? ==> NoPadding(acts[i].batch)
  }

  lemma {:induction false} RunIsClean(cfg: Config, pids: seq<Pid>, acts: seq<Act>)
    requires GoodSetup(cfg) && CleanActs(acts)
    ensures CleanRun(RunOf(cfg, pids, acts))
  {
    if acts != [] {
      RunIsClean(cfg, pids, acts[..|acts| - 1]);
    }
  }

  /** As long as no input lets padding in, or in the modes that leave clocks alone, the mixer
      never comes up empty-handed with budget left, however producers and writer interleave. */
  lemma MixerNeverRetries(cfg: Config, pids: seq<Pid>, acts: seq<Act>)
    requires GoodSetup(cfg) && (CleanActs(acts) || (cfg.mode != 1 && cfg.mode != 3 && pids != []))
    ensures var m := Execute(cfg, pids, acts).mix; !(m.pc.Scan? && m.pc.left == 0 && m.pc.polled == 0)
  {
    ExecuteRefines(cfg, pids, acts);
    if CleanActs(acts) {
      RunIsClean(cfg, pids, acts);
      StartBudgeted(cfg, pids);
      RunCovered(cfg, Start(cfg, pids), RunOf(cfg, pids, acts));
      NeverRetries(Execute(cfg, pids, acts).mix);
    } else {
      OtherModesNeverRetry(cfg, pids, RunOf(cfg, pids, acts));
    }
  }
}
