/** All threads together: inputs offer bursts to their gates, tables are numbered and offered to
    the PSI buffer, the mixer and the writer work, in any order whatever. */
module Plant {
  import opened Ts
  import opened Spread
  import opened Mix
  import opened MixConserve
  import opened MixBudget
  import opened Restamp
  import opened Mux
  import opened MuxTheorems
  import opened Feeds
  import InputBuffer
  import PsiOutput

  /** One deed of one thread: a step of the mixer or the writer, a table sent out by the
      multiplexer, or a burst offered to the buffer of an input. */
  datatype Deed =
    | Thread(act: Act)
    | Table(table: PsiOutput.Table, section: seq<Packet>)
    | Burst(input: nat, packets: seq<Packet>)

  /** `shut` is the inputs' `disabled`, and `conts` the continuity counters.  The rest is
      history: the steps of the two-thread machine, the bursts offered by each input and whether
      they were kept, and what happened to the PSI buffer. */
  datatype State = State(sys: Sys, shut: seq<bool>, conts: PsiOutput.Conts, acts: seq<Act>,
                         bursts: seq<seq<seq<Packet>>>, kept: seq<seq<bool>>, ops: seq<PsiOutput.Op>)

  /** The PIDs of the tables (section 5.1.3 of EN 300 468, and 0 for the PAT). */
  function PidOf(c: PsiOutput.Counter): (pid: Pid)
    ensures pid < 32
  {
    match c
    case PatCont => 0
    case NitCont => 0x10
    case SdtCont => 0x11
    case TdtCont => 0x14
    case EitCont => 0x12
  }

  /** Tables on one PID share a counter. */
  function TablePid(t: PsiOutput.Table): (pid: Pid)
    ensures pid == PidOf(PsiOutput.CounterOf(t))
  {
    match t
    case PatTable => 0
    case NitTable => 0x10
    case SdtTable => 0x11
    case TdtTable => 0x14
    case TotTable => 0x14
    case EitTable => 0x12
  }

  /** A table's packets come from the multiplexer and carry the table's PID. */
  predicate IsTable(t: PsiOutput.Table, section: seq<Packet>) {
    From(Psi, section) && forall i :: 0 <= i < |section| ==> section[i].pid == TablePid(t)
  }

  predicate GoodPlant(cfg: Config) {
    GoodSetup(cfg) && cfg.inputRoom > 0
  }

  predicate Sized(cfg: Config, w: State) {
    && Formed(cfg, w.sys)
    && |w.shut| == |w.bursts| == |w.kept|
    && forall i :: 0 <= i < |w.bursts| ==> |w.bursts[i]| == |w.kept[i]|
  }

  function Move(cfg: Config, w: State, a: Act): (v: State)
    requires GoodPlant(cfg) && Sized(cfg, w)
    ensures Sized(cfg, v)
  {
    w.(sys := Step(cfg, w.sys, a), acts := w.acts + [a])
  }

  /** What a thread's step does to the PSI buffer. */
  function Drained(before: Sys, after: Sys): seq<PsiOutput.Op> {
    if |after.mix.psi| < |before.mix.psi| then [PsiOutput.Drain(1)] else []
  }

  function DoThread(cfg: Config, w: State, a: Act): (v: State)
    requires GoodPlant(cfg) && Sized(cfg, w)
    ensures Sized(cfg, v)
  {
    if a.Produce? then w
    else
      var v := Move(cfg, w, a);
      v.(ops := w.ops + Drained(w.sys, v.sys))
  }

  function DoTable(cfg: Config, w: State, t: PsiOutput.Table, section: seq<Packet>): (v: State)
    requires GoodPlant(cfg) && Sized(cfg, w)
    ensures Sized(cfg, v)
  {
    if !IsTable(t, section) then w
    else
      var c := PsiOutput.CounterOf(t);
      Move(cfg, w, Produce(Psi, PsiOutput.Numbered(section, w.conts.Get(c))))
      .(conts := w.conts.Advance(c, |section|), ops := w.ops + [PsiOutput.Emit(t, section)])
  }

  /** The gate of input `i` before a burst. */
  function GateOf(w: State, i: nat): InputBuffer.Gate
    requires i < |w.shut| && i < |w.sys.mix.inputs|
  {
    InputBuffer.Gate(w.sys.mix.inputs[i].buf, w.shut[i])
  }

  function DoBurst(cfg: Config, w: State, i: nat, burst: seq<Packet>): (v: State)
    requires GoodPlant(cfg) && Sized(cfg, w)
    ensures Sized(cfg, v)
  {
    if i >= |w.shut| || i >= |w.sys.mix.inputs| || !From(Channel(i), burst) then w
    else
      var (gate, kept) := InputBuffer.AddTo(cfg.inputRoom, GateOf(w, i), burst);
      var v := if kept then Move(cfg, w, Produce(Channel(i), burst)) else w;
      v.(shut := w.shut[i := gate.disabled], bursts := w.bursts[i := w.bursts[i] + [burst]],
         kept := w.kept[i := w.kept[i] + [kept]])
  }

  function Do(cfg: Config, w: State, d: Deed): (v: State)
    requires GoodPlant(cfg) && Sized(cfg, w)
    ensures Sized(cfg, v)
  {
    match d
    case Thread(a) => DoThread(cfg, w, a)
    case Table(t, section) => DoTable(cfg, w, t, section)
    case Burst(i, burst) => DoBurst(cfg, w, i, burst)
  }

  function Begin(cfg: Config, pids: seq<Pid>): (w: State)
    requires GoodPlant(cfg)
    ensures Sized(cfg, w)
  {
    State(Boot(cfg, pids), seq(|pids|, i => false), PsiOutput.START_PSI.conts, [],
          seq(|pids|, i => []), seq(|pids|, i => []), [])
  }

  /** The state after any sequence of deeds. */
  function Live(cfg: Config, pids: seq<Pid>, deeds: seq<Deed>): (w: State)
    requires GoodPlant(cfg)
    ensures Sized(cfg, w)
  {
    if deeds == [] then Begin(cfg, pids)
    else Do(cfg, Live(cfg, pids, deeds[..|deeds| - 1]), deeds[|deeds| - 1])
  }

  // ---- The two-thread machine inside

  /** The machine is where its steps lead, and nobody but the multiplexer's tables and the
      inputs' bursts has produced anything. */
  predicate Follows(cfg: Config, pids: seq<Pid>, w: State)
    requires GoodPlant(cfg)
  {
    w.sys == Execute(cfg, pids, w.acts)
  }

  lemma MoveFollows(cfg: Config, pids: seq<Pid>, w: State, a: Act)
    requires GoodPlant(cfg) && Sized(cfg, w) && Follows(cfg, pids, w)
    ensures Follows(cfg, pids, Move(cfg, w, a))
  {
    assert (w.acts + [a])[..|w.acts|] == w.acts;
  }

  lemma DoFollows(cfg: Config, pids: seq<Pid>, w: State, d: Deed)
    requires GoodPlant(cfg) && Sized(cfg, w) && Follows(cfg, pids, w)
    ensures Follows(cfg, pids, Do(cfg, w, d))
  {
    hide Execute, Step, InputBuffer.AddTo, PsiOutput.Numbered;
    match d
    case Thread(a) => MoveFollows(cfg, pids, w, a);
    case Table(t, section) =>
      MoveFollows(cfg, pids, w, Produce(Psi, PsiOutput.Numbered(section, w.conts.Get(PsiOutput.CounterOf(t)))));
    case Burst(i, burst) => MoveFollows(cfg, pids, w, Produce(Channel(i), burst));
  }

  lemma {:induction false} LiveFollows(cfg: Config, pids: seq<Pid>, deeds: seq<Deed>)
    requires GoodPlant(cfg)
    ensures Follows(cfg, pids, Live(cfg, pids, deeds))
  {
    hide Do, Follows;
    if deeds == [] {
      BeginFollows(cfg, pids);
    } else {
      LiveFollows(cfg, pids, deeds[..|deeds| - 1]);
      DoFollows(cfg, pids, Live(cfg, pids, deeds[..|deeds| - 1]), deeds[|deeds| - 1]);
    }
  }

  lemma BeginFollows(cfg: Config, pids: seq<Pid>)
    requires GoodPlant(cfg)
    ensures Follows(cfg, pids, Begin(cfg, pids))
  {
  }

  // ---- What the steps of the machine do to the queues

  lemma ThreadQueues(cfg: Config, s: Sys, a: Act)
    requires GoodSetup(cfg) && Formed(cfg, s) && !a.Produce?
    ensures var t := Step(cfg, s, a);
            && t.arrived == s.arrived
            && |t.mix.inputs| == |s.mix.inputs|
            && (t.mix.psi == s.mix.psi || (s.mix.psi != [] && t.mix.psi == s.mix.psi[1..]))
  {
    hide StampAll, Visit, SpreadNulls;
  }

  lemma ProduceQueues(cfg: Config, s: Sys, o: Origin, batch: seq<Packet>)
    requires GoodSetup(cfg) && Formed(cfg, s)
    ensures var t := Step(cfg, s, Produce(o, batch));
            && t.arrived == s.arrived + (if From(o, batch) && Fits(cfg, s.mix, o, batch) then batch else [])
            && |t.mix.inputs| == |s.mix.inputs|
            && t.mix.psi == s.mix.psi + if o == Psi && From(o, batch) && Fits(cfg, s.mix, o, batch) then batch else []
  {
    hide Shaped;
    assert s.arrived + [] == s.arrived && s.mix.psi + [] == s.mix.psi;
  }

  // ---- What each input's buffer has taken

  predicate AllFrom(o: Origin, bursts: seq<seq<Packet>>) {
    forall k :: 0 <= k < |bursts| ==> From(o, bursts[k])
  }

  lemma {:induction false} KeptFrom(o: Origin, bursts: seq<seq<Packet>>, kept: seq<bool>)
    requires |kept| == |bursts| && AllFrom(o, bursts)
    ensures From(o, KeptOf(bursts, kept))
  {
    if bursts != [] {
      var last := |bursts| - 1;
      KeptFrom(o, bursts[..last], kept[..last]);
      assert From(o, bursts[last]);
    }
  }

  /** Input `i` has put the kept ones of its bursts into its buffer, and nothing else. */
  predicate Took(cfg: Config, w: State, i: nat)
    requires Sized(cfg, w)
  {
    && i < |w.bursts| == |w.sys.mix.inputs|
    && AllFrom(Channel(i), w.bursts[i])
    && Deliver(w.sys.arrived, Channel(i)) == Deliver(KeptOf(w.bursts[i], w.kept[i]), Channel(i))
  }

  lemma KeptOfAppend(bursts: seq<seq<Packet>>, kept: seq<bool>, burst: seq<Packet>, k: bool)
    requires |kept| == |bursts|
    ensures KeptOf(bursts + [burst], kept + [k]) == KeptOf(bursts, kept) + if k then burst else []
  {
    assert (bursts + [burst])[..|bursts|] == bursts && (kept + [k])[..|bursts|] == kept;
  }

  lemma BurstTook(cfg: Config, w: State, j: nat, burst: seq<Packet>, i: nat)
    requires GoodPlant(cfg) && Sized(cfg, w) && Took(cfg, w, i)
    ensures Took(cfg, DoBurst(cfg, w, j, burst), i)
  {
    hide Step, Deliver, KeptOf, InputBuffer.HalfEmpty;
    if j < |w.shut| && j < |w.sys.mix.inputs| && From(Channel(j), burst) {
      var kept := InputBuffer.AddTo(cfg.inputRoom, GateOf(w, j), burst).1;
      ProduceQueues(cfg, w.sys, Channel(j), burst);
      DeliverConcat(w.sys.arrived, burst, Channel(i));
      if i == j {
        KeptOfAppend(w.bursts[i], w.kept[i], burst, kept);
        var before := KeptOf(w.bursts[i], w.kept[i]);
        DeliverConcat(before, burst, Channel(i));
        assert before + [] == before;
      } else {
        ForeignBurst(w.sys.arrived, burst, j, i);
      }
    }
  }

  lemma ForeignBurst(arrived: seq<Packet>, burst: seq<Packet>, j: nat, i: nat)
    requires From(Channel(j), burst) && i != j
    ensures Deliver(arrived + burst, Channel(i)) == Deliver(arrived, Channel(i))
  {
    DeliverConcat(arrived, burst, Channel(i));
    DeliverForeign(burst, Channel(j), Channel(i));
  }

  lemma DoTook(cfg: Config, w: State, d: Deed, i: nat)
    requires GoodPlant(cfg) && Sized(cfg, w) && Took(cfg, w, i)
    ensures Took(cfg, Do(cfg, w, d), i)
  {
    hide Step, DoBurst, Deliver, KeptOf, PsiOutput.Numbered;
    match d
    case Thread(a) =>
      if !a.Produce? {
        ThreadQueues(cfg, w.sys, a);
      }
    case Table(t, section) =>
      if IsTable(t, section) {
        var batch := PsiOutput.Numbered(section, w.conts.Get(PsiOutput.CounterOf(t)));
        ProduceQueues(cfg, w.sys, Psi, batch);
        NumberedFrom(section, w.conts.Get(PsiOutput.CounterOf(t)));
        DeliverConcat(w.sys.arrived, batch, Channel(i));
        DeliverForeign(batch, Psi, Channel(i));
        assert w.sys.arrived + [] == w.sys.arrived;
      }
    case Burst(j, burst) => BurstTook(cfg, w, j, burst, i);
  }

  lemma NumberedFrom(section: seq<Packet>, cont: nat)
    requires From(Psi, section)
    ensures From(Psi, PsiOutput.Numbered(section, cont))
  {
  }

  /** The gate decides: over every sequence of deeds, an input's buffer has taken exactly the
      bursts that `input_buffer_add` kept. */
  lemma {:induction false} LiveTook(cfg: Config, pids: seq<Pid>, deeds: seq<Deed>, i: nat)
    requires GoodPlant(cfg) && i < |pids|
    ensures Took(cfg, Live(cfg, pids, deeds), i) && |Live(cfg, pids, deeds).bursts| == |pids|
  {
    hide Do, Took;
    if deeds == [] {
      BeginTook(cfg, pids, i);
    } else {
      LiveTook(cfg, pids, deeds[..|deeds| - 1], i);
      var w := Live(cfg, pids, deeds[..|deeds| - 1]);
      DoTook(cfg, w, deeds[|deeds| - 1], i);
      DoInputs(cfg, w, deeds[|deeds| - 1]);
    }
  }

  lemma BeginTook(cfg: Config, pids: seq<Pid>, i: nat)
    requires GoodPlant(cfg) && i < |pids|
    ensures Took(cfg, Begin(cfg, pids), i)
  {
    var w := Begin(cfg, pids);
    assert w.bursts[i] == [] && w.kept[i] == [];
    assert KeptOf([], []) == [];
  }

  lemma DoInputs(cfg: Config, w: State, d: Deed)
    requires GoodPlant(cfg) && Sized(cfg, w)
    ensures |Do(cfg, w, d).bursts| == |w.bursts|
  {
    hide Step, InputBuffer.AddTo, PsiOutput.Numbered;
  }

  // ---- What the PSI buffer has taken

  /** The packets that entered the PSI buffer. */
  function Numbers(entered: seq<(PsiOutput.Counter, Packet)>): (r: seq<Packet>)
    ensures |r| == |entered| && forall i :: 0 <= i < |r| ==> r[i] == entered[i].1
  {
    seq(|entered|, i requires 0 <= i < |entered| => entered[i].1)
  }

  predicate Labels(entered: seq<(PsiOutput.Counter, Packet)>) {
    forall i :: 0 <= i < |entered| ==> entered[i].1.origin == Psi && entered[i].1.pid == PidOf(entered[i].0)
  }

  /** The PSI buffer and its counters are what the record of operations makes them. */
  predicate Recorded(cfg: Config, w: State) {
    var psi, entered := PsiOutput.After(cfg.psiRoom, w.ops), PsiOutput.Entered(cfg.psiRoom, w.ops);
    && psi.buf == w.sys.mix.psi && psi.conts == w.conts
    && Labels(entered)
    && Deliver(w.sys.arrived, Psi) == Numbers(entered)
  }

  lemma AfterOne(room: nat, ops: seq<PsiOutput.Op>, op: PsiOutput.Op)
    ensures PsiOutput.After(room, ops + [op]) == PsiOutput.Apply(room, PsiOutput.After(room, ops), op)
    ensures op.Drain? ==> PsiOutput.Entered(room, ops + [op]) == PsiOutput.Entered(room, ops)
    ensures op.Emit? ==>
              var c := PsiOutput.CounterOf(op.table);
              var psi := PsiOutput.After(room, ops);
              PsiOutput.Entered(room, ops + [op]) == PsiOutput.Entered(room, ops) +
              if |psi.buf| + |op.section| <= room
              then PsiOutput.Labelled(c, PsiOutput.Numbered(op.section, psi.conts.Get(c))) else []
  {
    hide PsiOutput.Apply, PsiOutput.Numbered, PsiOutput.CounterOf;
    assert (ops + [op])[..|ops|] == ops;
    var entered := PsiOutput.Entered(room, ops);
    assert entered + [] == entered;
  }

  lemma ThreadRecorded(cfg: Config, w: State, a: Act)
    requires GoodPlant(cfg) && Sized(cfg, w) && Recorded(cfg, w)
    ensures Recorded(cfg, DoThread(cfg, w, a))
  {
    hide Step, PsiOutput.After, PsiOutput.Entered, Deliver;
    if !a.Produce? {
      ThreadQueues(cfg, w.sys, a);
      AfterOne(cfg.psiRoom, w.ops, PsiOutput.Drain(1));
      assert w.ops + [] == w.ops;
    }
  }

  lemma TableRecorded(cfg: Config, w: State, t: PsiOutput.Table, section: seq<Packet>)
    requires GoodPlant(cfg) && Sized(cfg, w) && Recorded(cfg, w) && IsTable(t, section)
    ensures Recorded(cfg, DoTable(cfg, w, t, section))
  {
    hide Step, PsiOutput.After, PsiOutput.Entered, PsiOutput.CounterOf, Deliver, PidOf;
    var c := PsiOutput.CounterOf(t);
    var batch := PsiOutput.Numbered(section, w.conts.Get(c));
    AfterOne(cfg.psiRoom, w.ops, PsiOutput.Emit(t, section));
    ProduceQueues(cfg, w.sys, Psi, batch);
    NumberedFrom(section, w.conts.Get(c));
    DeliverConcat(w.sys.arrived, batch, Psi);
    AllDelivered(batch, PidOf(c));
    var entered := PsiOutput.Entered(cfg.psiRoom, w.ops);
    assert Numbers(entered + PsiOutput.Labelled(c, batch)) == Numbers(entered) + batch;
    assert w.sys.arrived + [] == w.sys.arrived && w.sys.mix.psi + [] == w.sys.mix.psi && entered + [] == entered;
  }

  lemma {:induction false} AllDelivered(batch: seq<Packet>, pid: Pid)
    requires From(Psi, batch) && pid != NULL_PID && forall i :: 0 <= i < |batch| ==> batch[i].pid == pid
    ensures Deliver(batch, Psi) == batch
  {
    if batch != [] {
      AllDelivered(batch[..|batch| - 1], pid);
    }
  }

  lemma BurstRecorded(cfg: Config, w: State, i: nat, burst: seq<Packet>)
    requires GoodPlant(cfg) && Sized(cfg, w) && Recorded(cfg, w)
    ensures Recorded(cfg, DoBurst(cfg, w, i, burst))
  {
    hide Step, PsiOutput.After, PsiOutput.Entered, Deliver, InputBuffer.AddTo;
    if i < |w.shut| && i < |w.sys.mix.inputs| && From(Channel(i), burst) {
      ProduceQueues(cfg, w.sys, Channel(i), burst);
      DeliverConcat(w.sys.arrived, burst, Psi);
      DeliverForeign(burst, Channel(i), Psi);
      assert w.sys.mix.psi + [] == w.sys.mix.psi && w.sys.arrived + [] == w.sys.arrived;
    }
  }

  /** The record is true of every sequence of deeds. */
  lemma {:induction false} LiveRecorded(cfg: Config, pids: seq<Pid>, deeds: seq<Deed>)
    requires GoodPlant(cfg)
    ensures Recorded(cfg, Live(cfg, pids, deeds))
  {
    hide DoThread, DoTable, DoBurst, Recorded;
    if deeds == [] {
      BeginRecorded(cfg, pids);
    } else {
      var w := Live(cfg, pids, deeds[..|deeds| - 1]);
      LiveRecorded(cfg, pids, deeds[..|deeds| - 1]);
      match deeds[|deeds| - 1]
      case Thread(a) => ThreadRecorded(cfg, w, a);
      case Table(t, section) =>
        if IsTable(t, section) {
          TableRecorded(cfg, w, t, section);
        } else {
          NoTable(cfg, w, t, section);
        }
      case Burst(i, burst) => BurstRecorded(cfg, w, i, burst);
    }
  }

  lemma NoTable(cfg: Config, w: State, t: PsiOutput.Table, section: seq<Packet>)
    requires GoodPlant(cfg) && Sized(cfg, w) && !IsTable(t, section)
    ensures DoTable(cfg, w, t, section) == w
  {
  }

  lemma BeginRecorded(cfg: Config, pids: seq<Pid>)
    requires GoodPlant(cfg)
    ensures Recorded(cfg, Begin(cfg, pids))
  {
  }

  // ---- Padding

  /** No input offers padding. */
  predicate CleanBursts(w: State) {
    forall i, k :: 0 <= i < |w.bursts| && 0 <= k < |w.bursts[i]| ==> NoPadding(w.bursts[i][k])
  }

  lemma TableClean(t: PsiOutput.Table, section: seq<Packet>, cont: nat)
    requires IsTable(t, section)
    ensures NoPadding(PsiOutput.Numbered(section, cont))
  {
  }

  lemma DoClean(cfg: Config, w: State, d: Deed)
    requires GoodPlant(cfg) && Sized(cfg, w) && CleanBursts(Do(cfg, w, d))
    ensures CleanBursts(w) && (CleanActs(w.acts) ==> CleanActs(Do(cfg, w, d).acts))
  {
    hide Step, NoPadding, InputBuffer.AddTo, IsTable;
    var v := Do(cfg, w, d);
    match d
    case Thread(a) =>
    case Table(t, section) =>
      if IsTable(t, section) {
        TableClean(t, section, w.conts.Get(PsiOutput.CounterOf(t)));
      }
    case Burst(j, burst) =>
      forall i, k | 0 <= i < |w.bursts| && 0 <= k < |w.bursts[i]| ensures NoPadding(w.bursts[i][k]) {
        assert v.bursts[i][k] == w.bursts[i][k];
      }
      if v.bursts != w.bursts {
        assert v.bursts[j][|w.bursts[j]|] == burst;
      }
  }

  /** With inputs that offer no padding, the mixer's producers offer none. */
  lemma {:induction false} LiveClean(cfg: Config, pids: seq<Pid>, deeds: seq<Deed>)
    requires GoodPlant(cfg) && CleanBursts(Live(cfg, pids, deeds))
    ensures CleanActs(Live(cfg, pids, deeds).acts)
  {
    hide Do, CleanBursts;
    if deeds != [] {
      DoClean(cfg, Live(cfg, pids, deeds[..|deeds| - 1]), deeds[|deeds| - 1]);
      LiveClean(cfg, pids, deeds[..|deeds| - 1]);
    }
  }
}
