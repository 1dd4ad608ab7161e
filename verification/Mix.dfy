/** The mixing thread as a machine: one `Tick` for each visit to a shared packet buffer.

    `Tick` is what the thread does alone.  `Chain` adds what the other threads may do
    between two ticks (a producer fills a buffer) and strings the output buffers together,
    so that theorems range over every interleaving. */
module Mix {
  import opened Ts
  import opened Rounding
  import opened Spread

  /** `mode` is the PCR mode 0..3 and `maxPackets` the slots of one output buffer.  The two
      rooms bound the PSI buffer and each input buffer.  `overflow` stands for whatever the
      platform yields when a `double` outside the range of `int` is converted. */
  datatype Config = Config(mode: nat, maxPackets: nat, bitrate: real, overflow: int,
                           psiRoom: nat, inputRoom: nat)

  predicate GoodConfig(cfg: Config) {
    cfg.maxPackets > 0 && cfg.bitrate > 0.0
  }

  predicate MovesPcr(cfg: Config) {
    cfg.mode == 1 || cfg.mode == 3
  }

  /** The fields of one input that mixing uses.  `sent` is `outputed_packets`, the packet
      slots sent since the last PCR, and `needed` is `output_pcr_packets_needed`. */
  datatype InputState = InputState(buf: seq<Packet>, pcrPid: Pid, lastPcr: nat, needed: int, sent: int)

  // ---- PCR pacing

  const INT_MAX: int := 0x7fff_ffff

  /** The difference of two clocks, in 64-bit unsigned arithmetic. */
  function ClockDifference(now: nat, before: nat): nat {
    (now - before) % 0x1_0000_0000_0000_0000
  }

  /** The slots that the output bitrate leaves between two clocks `d` ticks apart, less one. */
  function Gap(cfg: Config, d: nat): int {
    Round(cfg.bitrate / 8.0 / 27000000.0 / 188.0 * d as real) - 1
  }

  function ToInt(cfg: Config, x: int): int {
    if -INT_MAX - 1 <= x <= INT_MAX then x else cfg.overflow
  }

  function Bound(cfg: Config): nat {
    if cfg.maxPackets < INT_MAX / 2 then cfg.maxPackets else INT_MAX / 2
  }

  function Clamp(x: int, bound: nat): nat {
    if x > bound then bound else if x < 0 then 0 else x
  }

  function Required(cfg: Config, d: nat): nat {
    Clamp(ToInt(cfg, Gap(cfg, d)), Bound(cfg))
  }

  predicate IsClock(r: InputState, p: Packet) {
    p.pid == r.pcrPid && HasPcr(p)
  }

  /** The input once the packets needed before its head clock have been worked out. */
  function Paced(cfg: Config, r: InputState): InputState
    requires r.buf != [] && HasPcr(r.buf[0])
  {
    if r.lastPcr != 0 && r.needed <= 0
    then r.(needed := Required(cfg, ClockDifference(r.buf[0].pcr.value, r.lastPcr)))
    else r
  }

  predicate Holds(r: InputState) {
    r.needed > 0 && r.sent < r.needed
  }

  // ---- One visit to one input

  /** What a visit yields.  Only `Silent` leaves the loop's `read_count` alone. */
  datatype Verdict = Silent | Idle | Held | Padding | Picked(packet: Packet)

  function Take(r: InputState): (InputState, Verdict)
    requires r.buf != []
  {
    (r.(buf := r.buf[1..]), if r.buf[0].pid < NULL_PID then Picked(r.buf[0]) else Padding)
  }

  function Visit(cfg: Config, r: InputState): (InputState, Verdict) {
    if !MovesPcr(cfg) then
      if r.buf == [] then (r, Idle) else Take(r)
    else if r.buf == [] then (r, Silent)
    else if IsClock(r, r.buf[0]) then
      var paced := Paced(cfg, r);
      if Holds(paced) then (paced, Held)
      else Take(paced.(lastPcr := r.buf[0].pcr.value, needed := 0, sent := 0))
    else Take(r)
  }

  // ---- The mixing thread

  /** Where the thread stands.  `Sum` adds up the buffered packets, PSI first; `Head` is the
      top of the packet loop at iteration `k`; `Scan` goes round the inputs; `Place` holds
      what iteration `k` came up with. */
  datatype Pc =
    | Sum(next: nat, total: nat)
    | Head(k: nat)
    | Scan(k: nat, left: nat, polled: nat)
    | Place(k: nat, data: Option<Packet>)
    | Done

  /** `last` is the list node of the input used last; node `|inputs|` is the empty root. */
  datatype Mixing = Mixing(psi: seq<Packet>, inputs: seq<InputState>, last: nat, packets: nat,
                           nulls: nat, pc: Pc)

  /** The next list node, skipping the empty root. */
  function NextNode(last: nat, n: nat): (i: nat)
    requires n > 0
    ensures i < n
  {
    var i := (last + 1) % (n + 1);
    if i == n then (i + 1) % (n + 1) else i
  }

  function AddSent(inputs: seq<InputState>, amount: int): (r: seq<InputState>)
    ensures |r| == |inputs|
    ensures forall i :: 0 <= i < |r| ==> r[i] == inputs[i].(sent := inputs[i].sent + amount)
  {
    seq(|inputs|, i requires 0 <= i < |inputs| => inputs[i].(sent := inputs[i].sent + amount))
  }

  /** The packets budgeted for this buffer, and the all-null buffer when there are none. */
  function StartFill(cfg: Config, m: Mixing, total: nat): Mixing {
    var packets := if total < cfg.maxPackets then total else cfg.maxPackets;
    if packets == 0
    then m.(packets := 0, nulls := 0, inputs := AddSent(m.inputs, cfg.maxPackets), pc := Done)
    else m.(packets := packets, nulls := 0, pc := Head(0))
  }

  function AfterVisit(verdict: Verdict, k: nat, left: nat, polled: nat): Pc
    requires left > 0
  {
    match verdict
    case Picked(p) => Place(k, Some(p))
    case Silent => Scan(k, left - 1, polled)
    case _ => Scan(k, left - 1, polled + 1)
  }

  function VisitNext(cfg: Config, m: Mixing): Mixing
    requires m.pc.Scan? && m.pc.left > 0 && m.inputs != []
  {
    var i := NextNode(m.last, |m.inputs|);
    var (r, verdict) := Visit(cfg, m.inputs[i]);
    m.(inputs := m.inputs[i := r], last := i, pc := AfterVisit(verdict, m.pc.k, m.pc.left, m.pc.polled))
  }

  /** Iteration `k` ends: the packet, if any, goes to its slot. */
  function PlacePacket(cfg: Config, m: Mixing, slots: seq<Packet>): (Mixing, seq<Packet>)
    requires m.pc.Place? && 1 <= m.packets <= cfg.maxPackets && |slots| == cfg.maxPackets
  {
    var ended := m.(inputs := AddSent(m.inputs, 1), pc := Head(m.pc.k + 1));
    match m.pc.data
    case None => (ended, slots)
    case Some(p) =>
      var nulls := SpreadNulls(m.packets, cfg.maxPackets - m.packets, m.pc.k, m.nulls);
      if m.pc.k + nulls >= cfg.maxPackets then (m.(nulls := nulls, pc := Done), slots)
      else (ended.(nulls := nulls), slots[m.pc.k + nulls := p])
  }

  /** What the type of a state leaves open and every reachable state has. */
  predicate Shaped(cfg: Config, m: Mixing, slots: seq<Packet>) {
    && |slots| == cfg.maxPackets
    && m.packets <= cfg.maxPackets
    && (m.pc.Scan? || m.pc.Place? ==> m.pc.k < m.packets)
    && (m.pc.Scan? ==> m.pc.left <= |m.inputs|)
  }

  /** One step of the thread on its own state and on the buffer it fills. */
  function Tick(cfg: Config, m: Mixing, slots: seq<Packet>): (r: (Mixing, seq<Packet>))
    requires Shaped(cfg, m, slots)
    ensures Shaped(cfg, r.0, r.1)
  {
    match m.pc
    case Sum(next, total) =>
      if next == 0 then (m.(pc := Sum(1, total + |m.psi|)), slots)
      else if next <= |m.inputs| then (m.(pc := Sum(next + 1, total + |m.inputs[next - 1].buf|)), slots)
      else (StartFill(cfg, m, total), slots)
    case Head(k) =>
      if k >= m.packets then (m.(pc := Done), slots)
      else if m.psi != [] then (m.(psi := m.psi[1..], pc := Place(k, Some(m.psi[0]))), slots)
      else (m.(pc := Scan(k, |m.inputs|, 0)), slots)
    case Scan(k, left, polled) =>
      if left > 0 then (VisitNext(cfg, m), slots)
      else if polled == 0 then (m.(pc := Head(k)), slots)
      else (m.(pc := Place(k, None)), slots)
    case Place(k, data) => PlacePacket(cfg, m, slots)
    case Done => (m, slots)
  }

  /** `n` steps with no other thread in between. */
  function Ticks(cfg: Config, m: Mixing, slots: seq<Packet>, n: nat): (r: (Mixing, seq<Packet>))
    requires Shaped(cfg, m, slots)
    ensures Shaped(cfg, r.0, r.1)
  {
    if n == 0 then (m, slots)
    else var r := Ticks(cfg, m, slots, n - 1); Tick(cfg, r.0, r.1)
  }

  // ---- Every interleaving, over a whole run

  /** `done` is the contents of all finished buffers and `arrived` every packet a buffer
      ever accepted, in the order of acceptance. */
  datatype Chain = Chain(mix: Mixing, slots: seq<Packet>, done: seq<Packet>, arrived: seq<Packet>)

  datatype Event =
    | Work
    | Arrive(origin: Origin, batch: seq<Packet>)
    | NextBuffer

  /** A buffer takes all of a batch or nothing. */
  predicate Fits(cfg: Config, m: Mixing, o: Origin, batch: seq<Packet>) {
    match o
    case Stuffing => false
    case Psi => |m.psi| + |batch| <= cfg.psiRoom
    case Channel(i) => i < |m.inputs| && |m.inputs[i].buf| + |batch| <= cfg.inputRoom
  }

  function Accept(m: Mixing, o: Origin, batch: seq<Packet>): Mixing {
    match o
    case Stuffing => m
    case Psi => m.(psi := m.psi + batch)
    case Channel(i) =>
      if i < |m.inputs| then m.(inputs := m.inputs[i := m.inputs[i].(buf := m.inputs[i].buf + batch)]) else m
  }

  predicate From(o: Origin, batch: seq<Packet>) {
    forall i :: 0 <= i < |batch| ==> batch[i].origin == o
  }

  function Next(cfg: Config, c: Chain, e: Event): (d: Chain)
    requires Shaped(cfg, c.mix, c.slots)
    ensures Shaped(cfg, d.mix, d.slots)
  {
    match e
    case Work =>
      var r := Tick(cfg, c.mix, c.slots);
      c.(mix := r.0, slots := r.1)
    case Arrive(o, batch) =>
      if From(o, batch) && Fits(cfg, c.mix, o, batch)
      then c.(mix := Accept(c.mix, o, batch), arrived := c.arrived + batch)
      else c
    case NextBuffer =>
      if c.mix.pc.Done?
      then c.(mix := c.mix.(pc := Sum(0, 0)), slots := Nulls(cfg.maxPackets), done := c.done + c.slots)
      else c
  }

  function FreshInput(pcrPid: Pid): InputState {
    InputState([], pcrPid, 0, 0, 0)
  }

  function FreshInputs(pcrPids: seq<Pid>): (r: seq<InputState>)
    ensures |r| == |pcrPids| && forall i :: 0 <= i < |r| ==> r[i] == FreshInput(pcrPids[i])
  {
    seq(|pcrPids|, i requires 0 <= i < |pcrPids| => FreshInput(pcrPids[i]))
  }

  /** `inpt` starts at the tail of the list. */
  function StartMixing(pcrPids: seq<Pid>): Mixing {
    var n := |pcrPids|;
    Mixing([], FreshInputs(pcrPids), if n == 0 then 0 else n - 1, 0, 0, Sum(0, 0))
  }

  function Start(cfg: Config, pcrPids: seq<Pid>): (c: Chain)
    ensures Shaped(cfg, c.mix, c.slots)
  {
    Chain(StartMixing(pcrPids), Nulls(cfg.maxPackets), [], [])
  }

  /** The state after a run; a step that cannot be taken leaves it unchanged. */
  function Run(cfg: Config, c: Chain, run: seq<Event>): (d: Chain)
    requires Shaped(cfg, c.mix, c.slots)
    ensures Shaped(cfg, d.mix, d.slots)
  {
    if run == [] then c
    else Next(cfg, Run(cfg, c, run[..|run| - 1]), run[|run| - 1])
  }
}
