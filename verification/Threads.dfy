/** The mixing thread's code, with its loops and fields, proved to do what `Mix` says. */
module Threads {
  import opened Ts
  import opened Spread
  import opened Mix
  import opened MixConserve
  import opened MixRuns
  import opened MixBudget
  import opened Restamp
  import opened Mux

  /** `OBUF`: an output buffer of fixed size. */
  class OutputBuffer {
    const slots: array<Packet>
    var written: nat
    var status: Status

    constructor (size: nat)
      ensures View() == Obuf(Nulls(size), 0, Empty) && fresh(slots)
    {
      slots := new Packet[size](_ => NULL_PACKET);
      written, status := 0, Empty;
      new;
      assert slots[..] == Nulls(size);
    }

    ghost function View(): Obuf
      reads this, slots
    {
      Obuf(slots[..], written, status)
    }

    /** `obuf_reset`: every slot becomes a null packet, then the buffer counts as empty. */
    method Reset()
      modifies this, slots
      ensures View() == Obuf(Nulls(slots.Length), 0, Empty)
    {
      for i := 0 to slots.Length
        invariant forall j :: 0 <= j < i ==> slots[j] == NULL_PACKET
      {
        slots[i] := NULL_PACKET;
      }
      written := 0;
      status := Empty;
      assert slots[..] == Nulls(slots.Length);
    }
  }

  /** The output side of `INPUT`: the input buffer and the PCR counters. */
  class Input {
    var buf: seq<Packet>
    var pcrPid: Pid
    var lastPcr: nat
    var needed: int
    var sent: int

    constructor (pid: Pid)
      ensures State() == FreshInput(pid)
    {
      buf, pcrPid, lastPcr, needed, sent := [], pid, 0, 0, 0;
    }

    ghost function State(): InputState
      reads this
    {
      InputState(buf, pcrPid, lastPcr, needed, sent)
    }

    /** `cbuf_get` of one packet. */
    method Get() returns (verdict: Verdict)
      requires buf != []
      modifies this`buf
      ensures (State(), verdict) == Take(old(State()))
    {
      var data := buf[0];
      buf := buf[1..];
      verdict := if data.pid < NULL_PID then Picked(data) else Padding;
    }

    /** One turn of the loop over the inputs. */
    method Ask(cfg: Config) returns (verdict: Verdict)
      modifies this
      ensures (State(), verdict) == Visit(cfg, old(State()))
    {
      if cfg.mode == 1 || cfg.mode == 3 {
        if |buf| == 0 {
          return Silent;
        }
        var data := buf[0];
        if data.pid == pcrPid && HasPcr(data) {
          if lastPcr != 0 && needed <= 0 {
            needed := ToInt(cfg, Gap(cfg, ClockDifference(data.pcr.value, lastPcr)));
            var bound := Bound(cfg);
            if needed > bound {
              needed := bound;
            } else if needed < 0 {
              needed := 0;
            }
          }
          if needed > 0 && sent < needed {
            return Held;
          }
          lastPcr := data.pcr.value;
          needed := 0;
          sent := 0;
        }
        verdict := Get();
      } else if |buf| == 0 {
        verdict := Idle;
      } else {
        verdict := Get();
      }
    }
  }

  /** The shared state of the mixing thread.  `last` is the list node of `inpt`. */
  class Mixer {
    const cfg: Config
    const inputs: seq<Input>
    var psibuf: seq<Packet>
    var last: nat

    ghost predicate Valid() {
      && GoodConfig(cfg)
      && forall i, j :: 0 <= i < j < |inputs| ==> inputs[i] != inputs[j]
    }

    constructor (cfg: Config, inputs: seq<Input>)
      requires GoodConfig(cfg)
      requires forall i, j :: 0 <= i < j < |inputs| ==> inputs[i] != inputs[j]
      ensures Valid() && this.cfg == cfg && this.inputs == inputs
      ensures psibuf == [] && last == StartMixing(seq(|inputs|, i => 0)).last
      ensures inputs != [] ==> NextNode(last, |inputs|) == 0
    {
      this.cfg, this.inputs := cfg, inputs;
      psibuf, last := [], if |inputs| == 0 then 0 else |inputs| - 1;
    }

    ghost function States(): (s: seq<InputState>)
      reads inputs
      ensures |s| == |inputs| && forall i :: 0 <= i < |s| ==> s[i] == inputs[i].State()
    {
      seq(|inputs|, i requires 0 <= i < |inputs| reads inputs => inputs[i].State())
    }

    /** The machine's state when the thread's locals are as given. */
    ghost function At(packets: nat, nulls: nat, pc: Pc): Mixing
      reads this, inputs
    {
      Mixing(psibuf, States(), last, packets, nulls, pc)
    }

    /** One visit to the next input. */
    method AskNext() returns (verdict: Verdict)
      requires Valid() && inputs != []
      modifies this`last, inputs
      ensures last == NextNode(old(last), |inputs|)
      ensures verdict == Visit(cfg, old(States())[last]).1
      ensures States() == old(States())[last := Visit(cfg, old(States())[last]).0]
    {
      var i := (last + 1) % (|inputs| + 1);
      if i == |inputs| {
        i := (i + 1) % (|inputs| + 1);
      }
      last := i;
      verdict := inputs[i].Ask(cfg);
    }

    /** The loop that adds a number of sent packets to every input. */
    method CountSent(amount: int)
      requires Valid()
      modifies inputs
      ensures States() == AddSent(old(States()), amount)
    {
      for i := 0 to |inputs|
        invariant forall j :: 0 <= j < i ==>
                    inputs[j].State() == old(inputs[j].State()).(sent := old(inputs[j].sent) + amount)
        invariant forall j :: i <= j < |inputs| ==> inputs[j].State() == old(inputs[j].State())
      {
        inputs[i].sent := inputs[i].sent + amount;
      }
    }

    /** The loop that adds up the packets waiting in all buffers. */
    method SumData(ghost packets: nat, ghost nulls: nat, ghost slots: seq<Packet>) returns (total: nat)
      requires Valid() && |slots| == cfg.maxPackets && packets <= cfg.maxPackets
      ensures Ticks(cfg, At(packets, nulls, Sum(0, 0)), slots, |inputs| + 1) ==
              (At(packets, nulls, Sum(|inputs| + 1, total)), slots)
    {
      hide Tick;
      total := |psibuf|;
      ghost var start := At(packets, nulls, Sum(0, 0));
      assert Ticks(cfg, start, slots, 0) == (start, slots);
      SumStep(cfg, start, slots);
      for i := 0 to |inputs|
        invariant Ticks(cfg, start, slots, i + 1) == (At(packets, nulls, Sum(i + 1, total)), slots)
      {
        SumStep(cfg, At(packets, nulls, Sum(i + 1, total)), slots);
        total := total + |inputs[i].buf|;
      }
    }

    /** A visit is a step of the machine. */
    method AskTick(ghost m: Mixing, ghost slots: seq<Packet>) returns (verdict: Verdict)
      requires Valid() && Shaped(cfg, m, slots)
      requires m.pc.Scan? && m.pc.left > 0 && m == At(m.packets, m.nulls, m.pc)
      modifies this`last, inputs
      ensures Tick(cfg, m, slots) ==
              (At(m.packets, m.nulls, AfterVisit(verdict, m.pc.k, m.pc.left, m.pc.polled)), slots)
    {
      verdict := AskNext();
    }

    /** The loop over the inputs: at most one visit to each, until one yields a packet. */
    method Scanning(ghost packets: nat, ghost nulls: nat, ghost k: nat, ghost slots: seq<Packet>)
      returns (data: Option<Packet>, polled: nat, ghost n: nat)
      requires Valid() && |slots| == cfg.maxPackets && k < packets <= cfg.maxPackets
      modifies this`last, inputs
      ensures Ticks(cfg, old(At(packets, nulls, Scan(k, |inputs|, 0))), slots, n) ==
              (At(packets, nulls, if data.Some? then Place(k, data) else Scan(k, 0, polled)), slots)
    {
      hide Tick;
      ghost var start := At(packets, nulls, Scan(k, |inputs|, 0));
      var left: nat := |inputs|;
      data, polled, n := None, 0, 0;
      while left > 0
        invariant left <= |inputs|
        invariant Ticks(cfg, start, slots, n) == (At(packets, nulls, Scan(k, left, polled)), slots)
      {
        var verdict := AskTick(At(packets, nulls, Scan(k, left, polled)), slots);
        n := n + 1;
        left := left - 1;
        match verdict {
          case Picked(p) =>
            data := Some(p);
            return;
          case Silent =>
          case _ =>
            polled := polled + 1;
        }
      }
    }

    /** One turn of the packet loop up to placing: PSI first, else the inputs.  `again` tells
        the retry that follows when nothing could be read. */
    method Pick(ghost packets: nat, ghost nulls: nat, ghost k: nat, ghost slots: seq<Packet>)
      returns (data: Option<Packet>, again: bool, ghost n: nat)
      requires Valid() && |slots| == cfg.maxPackets && k < packets <= cfg.maxPackets
      modifies this, inputs
      ensures n > 0 && (again ==> data == None)
      ensures Ticks(cfg, old(At(packets, nulls, Head(k))), slots, n) ==
              (At(packets, nulls, if again then Head(k) else Place(k, data)), slots)
      ensures old(Budgeted(cfg, At(packets, nulls, Head(k)), slots)) ==> !again
      ensures old(psibuf) != [] ==>
                && data == Some(old(psibuf)[0]) && psibuf == old(psibuf)[1..]
                && States() == old(States()) && last == old(last)
    {
      hide Budgeted, Visit, PlacePacket, AfterVisit;
      ghost var start := At(packets, nulls, Head(k));
      assert Ticks(cfg, start, slots, 0) == (start, slots);
      if |psibuf| > 0 {
        data := Some(psibuf[0]);
        psibuf := psibuf[1..];
        again, n := false, 1;
      } else {
        ghost var scan := At(packets, nulls, Scan(k, |inputs|, 0));
        assert Ticks(cfg, start, slots, 1) == (scan, slots);
        var polled;
        data, polled, n := Scanning(packets, nulls, k, slots);
        TicksCompose(cfg, start, slots, 1, n);
        n := n + 1;
        again := data == None && polled == 0;
        if data == None {
          n := n + 1;
        }
        if again {
          ComingBackUncovers(cfg, start, slots, n);
        }
      }
    }

    /** The two ratios that the spreading works with. */
    method SpreadRatios(packets: nat) returns (ratios: Ratios)
      requires 1 <= packets <= cfg.maxPackets
      ensures ratios == RatiosFor(packets, cfg.maxPackets - packets)
    {
      var nullPerData, dataPerNull := 1.0, 0.0;
      if cfg.maxPackets - packets != 0 {
        dataPerNull := packets as real / (cfg.maxPackets - packets) as real;
        if dataPerNull < 1.0 {
          nullPerData := (cfg.maxPackets - packets) as real / packets as real;
          dataPerNull := 1.0;
        }
      }
      ratios := Ratios(nullPerData, dataPerNull);
    }

    /** The nulls to skip before the data packet of iteration `k`. */
    method SkipNulls(packets: nat, k: nat, nulls: nat, ratios: Ratios) returns (skip: nat)
      requires 1 <= packets <= cfg.maxPackets
      requires ratios == RatiosFor(packets, cfg.maxPackets - packets)
      ensures skip == SpreadNulls(packets, cfg.maxPackets - packets, k, nulls)
    {
      hide Behind, Due, RatiosFor;
      skip := nulls;
      if nulls < cfg.maxPackets - packets {
        var behind, due := Behind(ratios, nulls), Due(ratios, k);
        if behind < due {
          skip := skip + (due - behind);
        }
        if skip > cfg.maxPackets - packets {
          skip := cfg.maxPackets - packets;
        }
      }
    }

    /** The packet found in iteration `k`, if any, goes to its slot.  `stuck` tells the branch
        that cannot happen. */
    method Stuff(ob: OutputBuffer, packets: nat, k: nat, nulls: nat, ratios: Ratios, data: Option<Packet>)
      returns (skipped: nat, stuck: bool)
      requires Valid() && ob.slots.Length == cfg.maxPackets && k < packets <= cfg.maxPackets
      requires ratios == RatiosFor(packets, cfg.maxPackets - packets)
      modifies inputs, ob.slots
      ensures Tick(cfg, old(At(packets, nulls, Place(k, data))), old(ob.slots[..])) ==
              (At(packets, skipped, if stuck then Done else Head(k + 1)), ob.slots[..])
    {
      hide SpreadNulls, RatiosFor;
      ghost var slots := ob.slots[..];
      skipped, stuck := nulls, false;
      if data.Some? {
        skipped := SkipNulls(packets, k, nulls, ratios);
        if k + skipped >= cfg.maxPackets {
          return skipped, true;
        }
        ob.slots[k + skipped] := data.value;
        assert ob.slots[..] == slots[k + skipped := data.value];
      }
      CountSent(1);
    }

    /** The packet loop. `stop` is the number of its turns before the thread is told to die.
        The loop is left unfinished only then. */
    method FillLoop(ob: OutputBuffer, packets: nat, stop: nat)
      returns (finished: bool, ghost m: Mixing, ghost n: nat)
      requires Valid() && ob.slots.Length == cfg.maxPackets && 1 <= packets <= cfg.maxPackets
      modifies this, inputs, ob.slots
      ensures (m, ob.slots[..]) == Ticks(cfg, old(At(packets, 0, Head(0))), old(ob.slots[..]), n)
      ensures m == At(packets, m.nulls, m.pc)
      ensures if finished then m.pc.Done? else m.pc.Head?
      ensures old(Budgeted(cfg, At(packets, 0, Head(0)), ob.slots[..])) && stop >= packets ==> finished
    {
      hide Tick, PlacePacket, RatiosFor, Budgeted, Steps;
      ghost var start, slots0 := At(packets, 0, Head(0)), ob.slots[..];
      var ratios := SpreadRatios(packets);
      var nulls, k, polls: nat := 0, 0, stop;
      m, n := start, 0;
      while k < packets
        invariant k <= packets && ob.slots.Length == cfg.maxPackets
        invariant m == At(packets, nulls, Head(k))
        invariant (m, ob.slots[..]) == Ticks(cfg, start, slots0, n)
        invariant Budgeted(cfg, start, slots0) ==> k + polls == stop
        decreases polls
      {
        if polls == 0 {
          return false, m, n;
        }
        polls := polls - 1;
        ghost var slots := ob.slots[..];
        if Budgeted(cfg, start, slots0) {
          TicksProgress(cfg, start, slots0, n);
        }
        var data, again;
        ghost var steps;
        data, again, steps := Pick(packets, nulls, k, slots);
        TicksCompose(cfg, start, slots0, n, steps);
        n := n + steps;
        m := At(packets, nulls, Head(k));
        if !again {
          var stuck;
          nulls, stuck := Stuff(ob, packets, k, nulls, ratios, data);
          n := n + 1;
          if stuck {
            m := At(packets, nulls, Done);
            return true, m, n;
          }
          k := k + 1;
          m := At(packets, nulls, Head(k));
        }
      }
      HeadEnds(cfg, m, ob.slots[..]);
      m, n, finished := At(packets, nulls, Done), n + 1, true;
    }

    /** The thread's work on one empty buffer: budget, fill, mark as full.  Every source's packets
        are afterwards in the buffer or still queued, in order. */
    method Fill(ob: OutputBuffer, stop: nat, ghost packets0: nat, ghost nulls0: nat)
      returns (finished: bool, ghost m: Mixing, ghost n: nat)
      requires Valid() && ob.slots.Length == cfg.maxPackets && packets0 <= cfg.maxPackets
      modifies this, inputs, ob`status, ob.slots
      ensures (m, ob.slots[..]) == Ticks(cfg, old(At(packets0, nulls0, Sum(0, 0))), old(ob.slots[..]), n)
      ensures m == At(m.packets, m.nulls, m.pc)
      ensures if finished then m.pc.Done? else m.pc.Head?
      ensures ob.status == Full && ob.written == old(ob.written)
      ensures old(Tidy(cfg, At(packets0, nulls0, Sum(0, 0)), ob.slots[..])) ==> Tidy(cfg, m, ob.slots[..])
      ensures old(Tidy(cfg, At(packets0, nulls0, Sum(0, 0)), ob.slots[..])) ==>
                forall o ::
                  Pending(m, ob.slots[..], o) == old(Pending(At(packets0, nulls0, Sum(0, 0)), ob.slots[..], o))
    {
      hide Tick, Tidy, Pending;
      ghost var start, slots0 := At(packets0, nulls0, Sum(0, 0)), ob.slots[..];
      var total := SumData(packets0, nulls0, slots0);
      SumEnds(cfg, At(packets0, nulls0, Sum(|inputs| + 1, total)), slots0);
      var packets := if total < cfg.maxPackets then total else cfg.maxPackets;
      ob.status := Filling;
      if packets == 0 {
        CountSent(cfg.maxPackets);
        m, n, finished := At(0, 0, Done), |inputs| + 2, true;
      } else {
        assert Ticks(cfg, start, slots0, |inputs| + 2) == (At(packets, 0, Head(0)), slots0);
        finished, m, n := FillLoop(ob, packets, stop);
        TicksCompose(cfg, start, slots0, |inputs| + 2, n);
        n := |inputs| + 2 + n;
      }
      ob.status := Full;
      if Tidy(cfg, start, slots0) {
        forall o ensures Tidy(cfg, m, ob.slots[..]) && Pending(m, ob.slots[..], o) == Pending(start, slots0, o) {
          TicksConserve(cfg, start, slots0, n, o);
        }
        TicksConserve(cfg, start, slots0, n, Psi);
      }
    }
  }

  /** The frames sent from a buffer when the socket takes `accepted[j]` bytes of frame `j`. */
  function SendFrames(cfg: Config, w: Outlet, buf: Obuf, accepted: seq<int>): (r: (Outlet, Obuf))
    requires cfg.bitrate > 0.0 && GoodClocks(w.clocks) && |buf.slots| % FRAME == 0 && buf.written % FRAME == 0
    requires buf.written + FRAME * |accepted| <= |buf.slots|
    ensures GoodClocks(r.0.clocks) && |r.1.slots| == |buf.slots|
    ensures r.1.written == buf.written + FRAME * |accepted|
  {
    if accepted == [] then (w, buf)
    else
      var last := |accepted| - 1;
      var r := SendFrames(cfg, w, buf, accepted[..last]);
      SendFrom(cfg, r.0, r.1, accepted[last])
  }

  /** The writing thread's part of `OUTPUT`; `out` stands for the socket and the file. */
  class Writer {
    const cfg: Config
    const lastPcr: array<nat>
    const lastOrg: array<nat>
    const lastTraffic: array<nat>
    var traffic: nat
    var out: seq<Packet>

    ghost predicate Valid() {
      && cfg.bitrate > 0.0
      && lastPcr.Length == lastOrg.Length == lastTraffic.Length == PIDS
      && lastPcr != lastOrg && lastOrg != lastTraffic && lastPcr != lastTraffic
    }

    ghost function Clock(): Clocks
      reads lastPcr, lastOrg, lastTraffic
    {
      Clocks(lastPcr[..], lastOrg[..], lastTraffic[..])
    }

    ghost function View(): Outlet
      reads this, lastPcr, lastOrg, lastTraffic
    {
      Outlet(Clock(), traffic, out)
    }

    constructor (cfg: Config)
      requires cfg.bitrate > 0.0
      ensures Valid() && View() == Outlet(FreshClocks(), 0, [])
    {
      this.cfg := cfg;
      lastPcr, lastOrg, lastTraffic := new nat[PIDS](_ => 0), new nat[PIDS](_ => 0), new nat[PIDS](_ => 0);
      traffic, out := 0, [];
      new;
      assert lastPcr[..] == Zeros(PIDS) && lastOrg[..] == Zeros(PIDS) && lastTraffic[..] == Zeros(PIDS);
    }

    /** The body of the loop in `ts_frame_process`. */
    method ProcessPacket(raw: Packet, bytes: nat) returns (p: Packet)
      requires Valid()
      modifies lastPcr, lastOrg, lastTraffic
      ensures (Clock(), p) == Stamp(cfg.mode, cfg.bitrate, old(Clock()), raw, bytes)
      ensures raw.pid == 0x1fff ==> p == raw.(afc := 1, cont := 0)
      ensures raw.pid != 0x1fff ==> p == raw.(pcr := p.pcr)
    {
      p := raw;
      if p.pid == NULL_PID {
        p := p.(afc := 1, cont := 0);
      }
      if HasPcr(p) {
        var pcr := p.pcr.value;
        var newPcr := pcr;
        if lastPcr[p.pid] != 0 && lastOrg[p.pid] < pcr {
          newPcr := lastPcr[p.pid] + Elapsed(cfg.bitrate, bytes - lastTraffic[p.pid]);
          if cfg.mode == 2 || cfg.mode == 3 {
            p := p.(pcr := Some(newPcr));
          }
        }
        lastPcr[p.pid] := newPcr;
        lastOrg[p.pid] := pcr;
        lastTraffic[p.pid] := bytes;
      }
    }

    /** `ts_frame_process`: the frame at `offset` is restamped in place. */
    method ProcessFrame(slots: array<Packet>, offset: nat)
      requires Valid() && offset + FRAME <= slots.Length
      modifies slots, lastPcr, lastOrg, lastTraffic
      ensures StampAll(cfg.mode, cfg.bitrate, old(Clock()), old(slots[offset..offset + FRAME]), traffic) ==
              (Clock(), slots[offset..offset + FRAME])
      ensures slots[..offset] == old(slots[..offset]) && slots[offset + FRAME..] == old(slots[offset + FRAME..])
    {
      hide Stamp;
      ghost var frame, clock := slots[offset..offset + FRAME], Clock();
      assert frame[..0] == [] && slots[offset..offset + 0] == [];
      for i := 0 to FRAME
        invariant slots[..offset] == old(slots[..offset])
        invariant slots[offset + i..] == old(slots[offset + i..])
        invariant StampAll(cfg.mode, cfg.bitrate, clock, frame[..i], traffic) == (Clock(), slots[offset..offset + i])
      {
        assert frame[..i + 1][..i] == frame[..i] && frame[i] == slots[offset + i];
        var p := ProcessPacket(slots[offset + i], traffic + PACKET_SIZE * i);
        ghost var before := slots[offset..offset + i];
        slots[offset + i] := p;
        assert slots[offset..offset + i + 1] == before + [p];
      }
      assert frame[..FRAME] == frame;
    }

    /** One frame: restamp, write, count the bytes taken. */
    method Send(ob: OutputBuffer, accepted: int)
      requires Valid() && Sendable(ob.View())
      modifies this, ob, ob.slots, lastPcr, lastOrg, lastTraffic
      ensures (View(), ob.View()) == SendFrom(cfg, old(View()), old(ob.View()), accepted)
    {
      ghost var before := ob.View();
      var offset := ob.written;
      ProcessFrame(ob.slots, offset);
      ghost var frame := ob.slots[offset..offset + FRAME];
      assert ob.slots[..] == before.slots[..offset] + frame + before.slots[offset + FRAME..];
      out := out + ob.slots[offset..offset + FRAME];
      if accepted > 0 {
        traffic := traffic + accepted;
      }
      ob.written := ob.written + FRAME;
    }

    /** The thread's work on one full buffer: mark, send frame by frame, reset.  The thread is
        told to die before frame `|accepted|`, if the buffer has that many. */
    method Drain(ob: OutputBuffer, accepted: seq<int>) returns (finished: bool)
      requires Valid() && ob.slots.Length % FRAME == 0 && ob.written == 0
      modifies this, ob, ob.slots, lastPcr, lastOrg, lastTraffic
      ensures finished <==> FRAME * |accepted| >= ob.slots.Length
      ensures finished ==> ob.View() == Obuf(Nulls(ob.slots.Length), 0, Empty)
      ensures finished ==>
                View() == SendFrames(cfg, old(View()), old(ob.View()).(status := Emptying),
                                     accepted[..ob.slots.Length / FRAME]).0
      ensures !finished ==>
                (View(), ob.View()) == SendFrames(cfg, old(View()), old(ob.View()).(status := Emptying), accepted)
    {
      hide SendFrom;
      ob.status := Emptying;
      ghost var w, buf := View(), ob.View();
      var j := 0;
      while ob.written < ob.slots.Length
        invariant ob.written == FRAME * j <= ob.slots.Length && j <= |accepted|
        invariant (View(), ob.View()) == SendFrames(cfg, w, buf, accepted[..j])
      {
        if j == |accepted| {
          assert accepted[..j] == accepted;
          return false;
        }
        assert accepted[..j + 1][..j] == accepted[..j];
        Send(ob, accepted[j]);
        j := j + 1;
      }
      ob.Reset();
      finished := true;
    }
  }

  lemma SumStep(cfg: Config, m: Mixing, slots: seq<Packet>)
    requires Shaped(cfg, m, slots) && m.pc.Sum? && m.pc.next <= |m.inputs|
    ensures var waiting := if m.pc.next == 0 then |m.psi| else |m.inputs[m.pc.next - 1].buf|;
            Tick(cfg, m, slots) == (m.(pc := Sum(m.pc.next + 1, m.pc.total + waiting)), slots)
  {
  }

  lemma SumEnds(cfg: Config, m: Mixing, slots: seq<Packet>)
    requires Shaped(cfg, m, slots) && m.pc.Sum? && m.pc.next == |m.inputs| + 1
    ensures Tick(cfg, m, slots) == (StartFill(cfg, m, m.pc.total), slots)
  {
  }

  lemma HeadEnds(cfg: Config, m: Mixing, slots: seq<Packet>)
    requires Shaped(cfg, m, slots) && m.pc.Head? && m.pc.k >= m.packets
    ensures Tick(cfg, m, slots) == (m.(pc := Done), slots)
  {
  }
}
