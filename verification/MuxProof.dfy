/** Safety of the double buffer, and what reaches the output, over every interleaving of the
    mixing thread, the writing thread and the producers. */
module MuxProof {
  import opened Ts
  import opened Mix
  import opened MixConserve
  import opened Restamp
  import opened Mux

  predicate AllNull(b: Obuf) {
    b.written == 0 && NullFrom(b.slots, 0)
  }

  /** The writing thread has taken a full buffer and not given it back yet. */
  predicate Draining(s: Sys) {
    s.writeAt.WriteDrain? || s.writeAt.WriteReset? || s.writeAt.WriteRelease?
  }

  /** The packets of the buffer being drained that have been sent. */
  function Progress(cfg: Config, s: Sys): nat
    requires Formed(cfg, s)
  {
    if s.writeAt.WriteDrain? then s.bufs[s.wb].written
    else if Draining(s) then cfg.maxPackets
    else 0
  }

  /** Slots `lo..hi` of the buffer hold the packets of `done` from `base + lo` on. */
  predicate Carries(slots: seq<Packet>, lo: nat, hi: nat, done: seq<Packet>, base: nat) {
    hi <= |slots| && base + hi <= |done| && forall i :: lo <= i < hi ==> slots[i] == done[base + i]
  }

  /** The buffer the writing thread drains, or drains next. */
  predicate OldestIs(cfg: Config, s: Sys, buf: Obuf) {
    && buf.status == (if Draining(s) then Emptying else Full)
    && match s.writeAt
       case WriteDrain => Carries(buf.slots, buf.written, cfg.maxPackets, s.done, s.drained)
       case WriteReset(next) =>
         buf.written == cfg.maxPackets && forall i :: 0 <= i < next < |buf.slots| + 1 ==> buf.slots[i] == NULL_PACKET
       case WriteRelease => AllNull(buf)
       case _ => buf.written == 0 && Carries(buf.slots, 0, cfg.maxPackets, s.done, s.drained)
  }

  /** The buffer the mixing thread fills, or fills next. */
  predicate NextIs(s: Sys, buf: Obuf) {
    && buf.status == (if s.mixAt.MixFill? && !s.mix.pc.Sum? then Filling else Empty)
    && buf.written == 0
    && (!s.mixAt.MixFill? ==> AllNull(buf))
  }

  /** The buffers the two threads turn to next. */
  function Oldest(s: Sys): nat {
    if s.writeAt.WriteSwitch? then Other(s.wb) else s.wb
  }

  function Newest(s: Sys): nat {
    if s.mixAt.MixSwitch? then Other(s.mb) else s.mb
  }

  /** The two threads agree on how many buffers are full, which, and with what. */
  predicate Agreed(cfg: Config, s: Sys)
    requires Formed(cfg, s)
  {
    var oldest := s.bufs[Oldest(s)];
    var other := s.bufs[Other(Oldest(s))];
    && (!s.mixAt.MixFill? ==> s.mix.pc == Sum(0, 0))
    && if s.fills == s.drains then
         && Newest(s) == Oldest(s) && |s.done| == s.drained
         && NextIs(s, oldest) && other.status == Empty && AllNull(other)
         && !Draining(s) && !s.writeAt.WriteMark?
       else if s.fills == s.drains + 1 then
         && Newest(s) == Other(Oldest(s)) && |s.done| == s.drained + cfg.maxPackets
         && OldestIs(cfg, s, oldest) && NextIs(s, other)
       else
         && s.fills == s.drains + 2
         && Newest(s) == Oldest(s) && |s.done| == s.drained + cfg.maxPackets + cfg.maxPackets
         && OldestIs(cfg, s, oldest)
         && other.status == Full && other.written == 0
         && Carries(other.slots, 0, cfg.maxPackets, s.done, s.drained + cfg.maxPackets)
         && !s.mixAt.MixFill?
  }

  lemma FillGoesOn(cfg: Config, m: Mixing, slots: seq<Packet>)
    requires Shaped(cfg, m, slots) && !m.pc.Sum?
    ensures !Tick(cfg, m, slots).0.pc.Sum?
  {
    hide Visit;
  }

  lemma FilledAgrees(cfg: Config, s: Sys)
    requires GoodSetup(cfg) && Formed(cfg, s) && Agreed(cfg, s)
    requires s.mixAt.MixFill? && s.mix.pc.Done?
    ensures Agreed(cfg, MixNext(cfg, s))
  {
    hide Tick, Shaped;
    var t := MixNext(cfg, s);
    assert t.bufs[Other(s.mb)] == s.bufs[Other(s.mb)];
  }

  lemma TickAgrees(cfg: Config, s: Sys)
    requires GoodSetup(cfg) && Formed(cfg, s) && Agreed(cfg, s)
    requires s.mixAt.MixFill? && !s.mix.pc.Done?
    ensures Agreed(cfg, MixNext(cfg, s))
  {
    if !s.mix.pc.Sum? {
      FillGoesOn(cfg, s.mix, s.bufs[s.mb].slots);
    }
    hide Tick, Shaped;
    var t := MixNext(cfg, s);
    assert t.bufs[Other(s.mb)] == s.bufs[Other(s.mb)];
  }

  lemma MixAgrees(cfg: Config, s: Sys)
    requires GoodSetup(cfg) && Formed(cfg, s) && Agreed(cfg, s)
    ensures Agreed(cfg, MixNext(cfg, s))
  {
    hide MixNext, Agreed;
    if !s.mixAt.MixFill? {
      WaitingAgrees(cfg, s);
    } else if s.mix.pc.Done? {
      FilledAgrees(cfg, s);
    } else {
      TickAgrees(cfg, s);
    }
  }

  lemma WaitingAgrees(cfg: Config, s: Sys)
    requires GoodSetup(cfg) && Formed(cfg, s) && Agreed(cfg, s) && !s.mixAt.MixFill?
    ensures Agreed(cfg, MixNext(cfg, s))
  {
    hide Tick, Shaped;
  }

  lemma SendAgrees(cfg: Config, s: Sys, accepted: int)
    requires GoodSetup(cfg) && Formed(cfg, s) && Agreed(cfg, s)
    requires s.writeAt.WriteDrain? && s.bufs[s.wb].written < cfg.maxPackets
    ensures Agreed(cfg, SendFrame(cfg, s, accepted))
  {
    hide Shaped, StampAll;
    var t := SendFrame(cfg, s, accepted);
    var before, after := s.bufs[s.wb], t.bufs[s.wb];
    forall i | after.written <= i < cfg.maxPackets ensures after.slots[i] == before.slots[i] {
    }
    assert t.bufs[Other(s.wb)] == s.bufs[Other(s.wb)];
    hide SendFrame;
  }

  lemma ResetAgrees(cfg: Config, s: Sys, accepted: int)
    requires GoodSetup(cfg) && Formed(cfg, s) && Agreed(cfg, s) && s.writeAt.WriteReset?
    ensures Agreed(cfg, WriteNext(cfg, s, accepted))
  {
    hide Shaped, SendFrame;
    var t := WriteNext(cfg, s, accepted);
    assert t.bufs[Other(s.wb)] == s.bufs[Other(s.wb)];
  }

  lemma ReleaseAgrees(cfg: Config, s: Sys, accepted: int)
    requires GoodSetup(cfg) && Formed(cfg, s) && Agreed(cfg, s) && s.writeAt.WriteRelease?
    ensures Agreed(cfg, WriteNext(cfg, s, accepted))
  {
    hide Shaped, SendFrame;
    var t := WriteNext(cfg, s, accepted);
    assert t.bufs[Other(s.wb)] == s.bufs[Other(s.wb)];
  }

  lemma WriteAgrees(cfg: Config, s: Sys, accepted: int)
    requires GoodSetup(cfg) && Formed(cfg, s) && Agreed(cfg, s)
    ensures Agreed(cfg, WriteNext(cfg, s, accepted))
  {
    hide Shaped, SendFrame;
    match s.writeAt
    case WriteDrain =>
      if s.bufs[s.wb].written < cfg.maxPackets {
        SendAgrees(cfg, s, accepted);
        hide Agreed;
      }
    case WriteReset(next) =>
      ResetAgrees(cfg, s, accepted);
      hide WriteNext, Agreed;
    case WriteRelease =>
      ReleaseAgrees(cfg, s, accepted);
      hide WriteNext, Agreed;
    case _ =>
  }

  lemma StepAgrees(cfg: Config, s: Sys, a: Act)
    requires GoodSetup(cfg) && Formed(cfg, s) && Agreed(cfg, s)
    ensures Agreed(cfg, Step(cfg, s, a))
  {
    hide MixNext, WriteNext, Shaped;
    match a
    case MixStep => MixAgrees(cfg, s); hide Agreed;
    case WriteStep(accepted) => WriteAgrees(cfg, s, accepted); hide Agreed;
    case Produce(o, batch) =>
  }

  // ---- What has been sent

  /** Packet by packet, what was sent is what was mixed, up to null headers and clocks. */
  predicate SentIsMixed(cfg: Config, s: Sys)
    requires Formed(cfg, s)
  {
    && |s.out| == s.drained + Progress(cfg, s)
    && |s.out| <= |s.done|
    && forall i :: 0 <= i < |s.out| ==> SameButClock(cfg.mode, s.done[i], s.out[i])
  }

  lemma SendIsMixed(cfg: Config, s: Sys, accepted: int)
    requires GoodSetup(cfg) && Formed(cfg, s) && Agreed(cfg, s) && SentIsMixed(cfg, s)
    requires s.writeAt.WriteDrain? && s.bufs[s.wb].written < cfg.maxPackets
    ensures SentIsMixed(cfg, SendFrame(cfg, s, accepted))
  {
    hide Shaped, StampAll, SameButClock;
    var t, buf := SendFrame(cfg, s, accepted), s.bufs[s.wb];
    var frame := buf.slots[buf.written..buf.written + FRAME];
    var sent := StampAll(cfg.mode, cfg.bitrate, s.clocks, frame, s.traffic).1;
    forall i | 0 <= i < |t.out| ensures i < |t.done| && SameButClock(cfg.mode, t.done[i], t.out[i]) {
      if i >= |s.out| {
        var j := i - |s.out|;
        StampKeeps(cfg.mode, cfg.bitrate, s.clocks, frame, s.traffic, j);
        assert frame[j] == buf.slots[buf.written + j];
        assert t.out[i] == sent[j];
      }
    }
  }

  lemma MixSends(cfg: Config, s: Sys)
    requires GoodSetup(cfg) && Formed(cfg, s) && SentIsMixed(cfg, s)
    ensures SentIsMixed(cfg, MixNext(cfg, s))
  {
    hide Tick, Shaped, SameButClock;
  }

  lemma WriteSends(cfg: Config, s: Sys, accepted: int)
    requires GoodSetup(cfg) && Formed(cfg, s) && Agreed(cfg, s) && SentIsMixed(cfg, s)
    ensures SentIsMixed(cfg, WriteNext(cfg, s, accepted))
  {
    hide Shaped, SameButClock, SendFrame, Carries;
    if s.writeAt.WriteDrain? && s.bufs[s.wb].written < cfg.maxPackets {
      SendIsMixed(cfg, s, accepted);
      hide SentIsMixed;
    }
  }

  lemma StepSends(cfg: Config, s: Sys, a: Act)
    requires GoodSetup(cfg) && Formed(cfg, s) && Agreed(cfg, s) && SentIsMixed(cfg, s)
    ensures SentIsMixed(cfg, Step(cfg, s, a))
  {
    hide MixNext, WriteNext, SameButClock;
    match a
    case MixStep => MixSends(cfg, s); hide SentIsMixed;
    case WriteStep(accepted) => WriteSends(cfg, s, accepted); hide SentIsMixed;
    case Produce(_, _) =>
  }

  // ---- The mixer in the machine is the mixer on its own

  /** The chain of output buffers that the mixing thread believes it fills. */
  function ChainOf(cfg: Config, s: Sys): (c: Chain)
    requires Formed(cfg, s)
  {
    Chain(s.mix, if s.mixAt.MixFill? then s.bufs[s.mb].slots else Nulls(cfg.maxPackets), s.done, s.arrived)
  }

  /** The event of the chain that step `a` amounts to, if any. */
  function Matching(s: Sys, a: Act): Option<Event> {
    match a
    case Produce(o, batch) => Some(Arrive(o, batch))
    case MixStep =>
      if !s.mixAt.MixFill? then None
      else if s.mix.pc.Done? then Some(NextBuffer)
      else Some(Work)
    case WriteStep(_) => None
  }

  lemma NullsAre(b: seq<Packet>, n: nat)
    requires |b| == n && NullFrom(b, 0)
    ensures b == Nulls(n)
  {
  }

  /** Refinement: each step of the two threads is a step of the chain or no step at all; the
      writing thread is invisible to the mixer. */
  lemma StepRefines(cfg: Config, s: Sys, a: Act)
    requires GoodSetup(cfg) && Formed(cfg, s) && Agreed(cfg, s)
    ensures Shaped(cfg, ChainOf(cfg, s).mix, ChainOf(cfg, s).slots)
    ensures var e := Matching(s, a);
            ChainOf(cfg, Step(cfg, s, a)) == if e.Some? then Next(cfg, ChainOf(cfg, s), e.value) else ChainOf(cfg, s)
  {
    hide Tick;
    var t := Step(cfg, s, a);
    match a
    case Produce(_, _) =>
    case MixStep =>
      if s.mixAt.MixWait? && s.bufs[s.mb].status == Empty {
        NullsAre(s.bufs[s.mb].slots, cfg.maxPackets);
      }
    case WriteStep(accepted) =>
      WriterApart(cfg, s, accepted);
      hide WriteNext;
  }

  lemma WriterApart(cfg: Config, s: Sys, accepted: int)
    requires GoodSetup(cfg) && Formed(cfg, s) && Agreed(cfg, s)
    ensures var t := WriteNext(cfg, s, accepted);
            && t.mix == s.mix && t.done == s.done && t.arrived == s.arrived && t.mb == s.mb && t.mixAt == s.mixAt
            && (s.mixAt.MixFill? ==> t.bufs[s.mb].slots == s.bufs[s.mb].slots)
  {
    hide Shaped, StampAll;
  }

  // ---- Every interleaving

  lemma {:induction false} ExecuteAgrees(cfg: Config, pids: seq<Pid>, acts: seq<Act>)
    requires GoodSetup(cfg)
    ensures var s := Execute(cfg, pids, acts); Agreed(cfg, s) && SentIsMixed(cfg, s)
  {
    if acts != [] {
      var init, a := acts[..|acts| - 1], acts[|acts| - 1];
      ExecuteAgrees(cfg, pids, init);
      StepAgrees(cfg, Execute(cfg, pids, init), a);
      StepSends(cfg, Execute(cfg, pids, init), a);
      hide Step, Agreed, SentIsMixed;
    }
  }

  /** The run of the chain inside a run of the machine. */
  function RunOf(cfg: Config, pids: seq<Pid>, acts: seq<Act>): seq<Event>
    requires GoodSetup(cfg)
  {
    if acts == [] then []
    else
      var init := acts[..|acts| - 1];
      var e := Matching(Execute(cfg, pids, init), acts[|acts| - 1]);
      RunOf(cfg, pids, init) + if e.Some? then [e.value] else []
  }

  /** Refinement over whole runs: whatever the writer does, the mixer goes through a run of
      the chain, so every theorem about the chain holds of the two threads. */
  lemma {:induction false} ExecuteRefines(cfg: Config, pids: seq<Pid>, acts: seq<Act>)
    requires GoodSetup(cfg)
    ensures ChainOf(cfg, Execute(cfg, pids, acts)) == Run(cfg, Start(cfg, pids), RunOf(cfg, pids, acts))
  {
    if acts != [] {
      var init, a := acts[..|acts| - 1], acts[|acts| - 1];
      ExecuteRefines(cfg, pids, init);
      ExecuteAgrees(cfg, pids, init);
      var s := Execute(cfg, pids, init);
      StepRefines(cfg, s, a);
      hide Step, Next, Agreed, SentIsMixed, Matching;
      var e, run := Matching(s, a), RunOf(cfg, pids, init);
      if e.Some? {
        assert (run + [e.value])[..|run|] == run;
      } else {
        assert run + [] == run;
      }
    }
  }
}
