/** The two output threads and their double buffer, step by step.

    The mixing thread waits for an empty buffer, fills it and marks it full; the writing
    thread waits for a full buffer, sends it frame by frame, resets it and marks it empty.
    There is no lock: a thread that waits keeps looking at the status. */
module Mux {
  import opened Ts
  import opened Mix
  import opened Restamp

  datatype Status = Empty | Filling | Full | Emptying

  /** An output buffer.  `written` counts packets and grows by whole frames. */
  datatype Obuf = Obuf(slots: seq<Packet>, written: nat, status: Status)

  datatype MixAt = MixWait | MixFill | MixSwitch

  datatype WriteAt = WriteWait | WriteMark | WriteDrain | WriteReset(next: nat) | WriteRelease | WriteSwitch

  /** `mb` and `wb` are the two threads' `buf_in_use`.  The last six fields are history: the
      contents of all filled buffers, all packets accepted from producers, all packets sent,
      the numbers of completed fills and drains, and the slots of the completed drains. */
  datatype Sys = Sys(mix: Mixing, bufs: seq<Obuf>, mb: nat, mixAt: MixAt, wb: nat, writeAt: WriteAt,
                     clocks: Clocks, traffic: nat,
                     done: seq<Packet>, arrived: seq<Packet>, out: seq<Packet>,
                     fills: nat, drains: nat, drained: nat)

  /** One step of one thread.  `accepted` is what the socket or file took of a frame, in
      bytes of payload; it is negative after an error. */
  datatype Act = MixStep | WriteStep(accepted: int) | Produce(origin: Origin, batch: seq<Packet>)

  predicate GoodSetup(cfg: Config) {
    GoodConfig(cfg) && cfg.maxPackets % FRAME == 0
  }

  predicate Formed(cfg: Config, s: Sys) {
    && |s.bufs| == 2 && s.mb < 2 && s.wb < 2
    && (forall b :: 0 <= b < 2 ==>
          |s.bufs[b].slots| == cfg.maxPackets && s.bufs[b].written <= cfg.maxPackets && s.bufs[b].written % FRAME == 0)
    && Shaped(cfg, s.mix, s.bufs[s.mb].slots)
    && GoodClocks(s.clocks)
    && (s.writeAt.WriteReset? ==> s.writeAt.next <= cfg.maxPackets)
  }

  function Other(b: nat): nat {
    if b == 0 then 1 else 0
  }

  function MixNext(cfg: Config, s: Sys): (t: Sys)
    requires GoodSetup(cfg) && Formed(cfg, s)
    ensures Formed(cfg, t)
  {
    var buf := s.bufs[s.mb];
    match s.mixAt
    case MixWait => if buf.status == Empty then s.(mixAt := MixFill) else s
    case MixFill =>
      if s.mix.pc.Done? then
        s.(bufs := s.bufs[s.mb := buf.(status := Full)], mix := s.mix.(pc := Sum(0, 0)), mixAt := MixSwitch,
           done := s.done + buf.slots, fills := s.fills + 1)
      else
        var r := Tick(cfg, s.mix, buf.slots);
        var status := if s.mix.pc.Sum? && !r.0.pc.Sum? then Filling else buf.status;
        s.(mix := r.0, bufs := s.bufs[s.mb := buf.(slots := r.1, status := status)])
    case MixSwitch => s.(mb := Other(s.mb), mixAt := MixWait)
  }

  /** The writing thread's own state: its clocks, the bytes sent and the packets sent. */
  datatype Outlet = Outlet(clocks: Clocks, traffic: nat, out: seq<Packet>)

  predicate Sendable(buf: Obuf) {
    |buf.slots| % FRAME == 0 && buf.written % FRAME == 0 && buf.written < |buf.slots|
  }

  /** The frame at `written` is restamped in place and sent. */
  function SendFrom(cfg: Config, w: Outlet, buf: Obuf, accepted: int): (r: (Outlet, Obuf))
    requires cfg.bitrate > 0.0 && GoodClocks(w.clocks) && Sendable(buf)
    ensures GoodClocks(r.0.clocks) && |r.1.slots| == |buf.slots|
    ensures r.1.written == buf.written + FRAME <= |buf.slots| && r.1.written % FRAME == 0
  {
    var end := buf.written + FRAME;
    var r := StampAll(cfg.mode, cfg.bitrate, w.clocks, buf.slots[buf.written..end], w.traffic);
    (Outlet(r.0, w.traffic + (if accepted > 0 then accepted else 0), w.out + r.1),
     buf.(slots := buf.slots[..buf.written] + r.1 + buf.slots[end..], written := end))
  }

  function SendFrame(cfg: Config, s: Sys, accepted: int): (t: Sys)
    requires GoodSetup(cfg) && Formed(cfg, s) && s.bufs[s.wb].written < cfg.maxPackets
    ensures Formed(cfg, t)
  {
    var (w, buf) := SendFrom(cfg, Outlet(s.clocks, s.traffic, s.out), s.bufs[s.wb], accepted);
    s.(bufs := s.bufs[s.wb := buf], clocks := w.clocks, traffic := w.traffic, out := w.out)
  }

  function WriteNext(cfg: Config, s: Sys, accepted: int): (t: Sys)
    requires GoodSetup(cfg) && Formed(cfg, s)
    ensures Formed(cfg, t)
  {
    var buf := s.bufs[s.wb];
    match s.writeAt
    case WriteWait => if buf.status == Full then s.(writeAt := WriteMark) else s
    case WriteMark => s.(bufs := s.bufs[s.wb := buf.(status := Emptying)], writeAt := WriteDrain)
    case WriteDrain =>
      if buf.written < cfg.maxPackets then SendFrame(cfg, s, accepted) else s.(writeAt := WriteReset(0))
    case WriteReset(next) =>
      if next < cfg.maxPackets
      then s.(bufs := s.bufs[s.wb := buf.(slots := buf.slots[next := NULL_PACKET])], writeAt := WriteReset(next + 1))
      else s.(bufs := s.bufs[s.wb := buf.(written := 0)], writeAt := WriteRelease)
    case WriteRelease =>
      s.(bufs := s.bufs[s.wb := buf.(status := Empty)], writeAt := WriteSwitch,
         drains := s.drains + 1, drained := s.drained + cfg.maxPackets)
    case WriteSwitch => s.(wb := Other(s.wb), writeAt := WriteWait)
  }

  function Step(cfg: Config, s: Sys, a: Act): (t: Sys)
    requires GoodSetup(cfg) && Formed(cfg, s)
    ensures Formed(cfg, t)
  {
    match a
    case MixStep => MixNext(cfg, s)
    case WriteStep(accepted) => WriteNext(cfg, s, accepted)
    case Produce(o, batch) =>
      if From(o, batch) && Fits(cfg, s.mix, o, batch)
      then s.(mix := Accept(s.mix, o, batch), arrived := s.arrived + batch)
      else s
  }

  function Boot(cfg: Config, pids: seq<Pid>): (s: Sys)
    ensures Formed(cfg, s)
  {
    var buf := Obuf(Nulls(cfg.maxPackets), 0, Empty);
    Sys(StartMixing(pids), [buf, buf], 0, MixWait, 0, WriteWait, FreshClocks(), 0, [], [], [], 0, 0, 0)
  }

  /** The state after the threads have taken the steps `acts`, in any order whatever. */
  function Execute(cfg: Config, pids: seq<Pid>, acts: seq<Act>): (s: Sys)
    requires GoodSetup(cfg)
    ensures Formed(cfg, s)
  {
    if acts == [] then Boot(cfg, pids)
    else Step(cfg, Execute(cfg, pids, acts[..|acts| - 1]), acts[|acts| - 1])
  }
}
