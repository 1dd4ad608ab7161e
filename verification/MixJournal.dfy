/** What the counter of sent packets counts, and exactly when a clock is held back.

    The journal lists the output slot by slot, and for each slot whether `outputed_packets`
    was increased for it. */
module MixJournal {
  import opened Ts
  import opened Spread
  import opened Mix
  import opened MixConserve
  import opened MixSpacing

  datatype Entry = Entry(packet: Packet, counted: bool)

  function Packets(j: seq<Entry>): (s: seq<Packet>)
    ensures |s| == |j| && forall i :: 0 <= i < |s| ==> s[i] == j[i].packet
  {
    seq(|j|, i requires 0 <= i < |j| => j[i].packet)
  }

  function Counted(j: seq<Entry>): nat {
    if j == [] then 0 else Counted(j[..|j| - 1]) + if j[|j| - 1].counted then 1 else 0
  }

  function Uncounted(j: seq<Entry>): nat {
    if j == [] then 0 else Uncounted(j[..|j| - 1]) + if j[|j| - 1].counted then 0 else 1
  }

  function Blank(n: nat, counted: bool): (j: seq<Entry>)
    ensures |j| == n && forall i :: 0 <= i < n ==> j[i] == Entry(NULL_PACKET, counted)
  {
    seq(n, i => Entry(NULL_PACKET, counted))
  }

  /** What a step of the mixing thread settles: all slots of an all-null buffer, the null slots
      left at the end of a fill, the slot of an empty iteration, or a data packet and the
      nulls skipped before it. */
  function Settled(cfg: Config, m: Mixing): seq<Entry> {
    match m.pc
    case Sum(next, total) =>
      if next > |m.inputs| && (total == 0 || cfg.maxPackets == 0) then Blank(cfg.maxPackets, true) else []
    case Head(k) =>
      if k >= m.packets && Frontier(m) <= cfg.maxPackets then Blank(cfg.maxPackets - Frontier(m), false) else []
    case Place(k, data) =>
      if data == None then Blank(1, true)
      else if !(1 <= m.packets <= cfg.maxPackets) then []
      else
        var after := SpreadNulls(m.packets, cfg.maxPackets - m.packets, k, m.nulls);
        Blank(if after < m.nulls then 0 else after - m.nulls, false) + [Entry(data.value, true)]
    case _ => []
  }

  function Journal(cfg: Config, pids: seq<Pid>, run: seq<Event>): seq<Entry> {
    if run == [] then []
    else
      var init := run[..|run| - 1];
      Journal(cfg, pids, init) +
      if run[|run| - 1] == Work then Settled(cfg, Run(cfg, Start(cfg, pids), init).mix) else []
  }

  // ---- The journal is that of the output

  lemma PacketsConcat(a: seq<Entry>, b: seq<Entry>)
    ensures Packets(a + b) == Packets(a) + Packets(b)
  {
  }

  lemma BlankPackets(n: nat, counted: bool)
    ensures Packets(Blank(n, counted)) == Nulls(n)
  {
  }

  lemma NullRange(slots: seq<Packet>, from: nat, to: nat)
    requires from <= to <= |slots| && NullFrom(slots, from)
    ensures slots[from..to] == Nulls(to - from)
    ensures slots[..to] == slots[..from] + Nulls(to - from)
  {
  }

  lemma PlaceSettles(cfg: Config, m: Mixing, slots: seq<Packet>)
    requires Tidy(cfg, m, slots) && m.pc.Place?
    ensures var (n, written) := PlacePacket(cfg, m, slots);
            Written(n, written) == Written(m, slots) + Packets(Settled(cfg, m))
  {
    var from := Frontier(m);
    var (n, written) := PlacePacket(cfg, m, slots);
    match m.pc.data
    case None =>
      NullRange(slots, from, from + 1);
      BlankPackets(1, true);
    case Some(p) =>
      SpreadStays(m.packets, cfg.maxPackets - m.packets, m.pc.k, m.nulls);
      hide SpreadNulls;
      var pos := m.pc.k + n.nulls;
      NullRange(slots, from, pos);
      BlankPackets(pos - from, false);
      PacketsConcat(Blank(pos - from, false), [Entry(p, true)]);
      assert slots[pos := p][..pos + 1] == slots[..pos] + [p];
  }

  lemma TickSettles(cfg: Config, m: Mixing, slots: seq<Packet>)
    requires Tidy(cfg, m, slots)
    ensures var (n, written) := Tick(cfg, m, slots);
            Written(n, written) == Written(m, slots) + Packets(Settled(cfg, m))
  {
    hide VisitNext, PlacePacket;
    var (n, written) := Tick(cfg, m, slots);
    match m.pc
    case Sum(next, total) =>
      if next > |m.inputs| {
        NullRange(slots, 0, |slots|);
        BlankPackets(cfg.maxPackets, true);
      }
    case Head(k) =>
      if k >= m.packets {
        NullRange(slots, Frontier(m), |slots|);
        BlankPackets(cfg.maxPackets - Frontier(m), false);
      }
    case Scan(k, left, polled) =>
      if left > 0 {
        VisitSettles(cfg, m, slots);
      }
    case Place(k, data) => PlaceSettles(cfg, m, slots);
    case Done =>
  }

  lemma VisitSettles(cfg: Config, m: Mixing, slots: seq<Packet>)
    requires m.pc.Scan? && m.pc.left > 0 && m.inputs != []
    ensures Written(VisitNext(cfg, m), slots) == Written(m, slots)
  {
    hide Visit;
  }

  /** The slots not counted are null packets. */
  predicate SkippedAreNull(j: seq<Entry>) {
    forall i :: 0 <= i < |j| && !j[i].counted ==> j[i].packet == NULL_PACKET
  }

  /** The journal lists the output so far. */
  lemma {:induction false} JournalIs(cfg: Config, pids: seq<Pid>, run: seq<Event>)
    ensures var c, j := Run(cfg, Start(cfg, pids), run), Journal(cfg, pids, run);
            Packets(j) == c.done + Written(c.mix, c.slots) && SkippedAreNull(j)
  {
    RunConserves(cfg, pids, run, Psi);
    if run == [] {
      var c := Start(cfg, pids);
      assert c.done + Written(c.mix, c.slots) == [];
    } else {
      var init := run[..|run| - 1];
      JournalIs(cfg, pids, init);
      RunConserves(cfg, pids, init, Psi);
      var c := Run(cfg, Start(cfg, pids), init);
      NextSettles(cfg, c, run[|run| - 1]);
      PacketsConcat(Journal(cfg, pids, init), Settled(cfg, c.mix));
      SettledSkips(cfg, c.mix);
      hide Next, Settled;
    }
  }

  lemma SettledSkips(cfg: Config, m: Mixing)
    ensures SkippedAreNull(Settled(cfg, m))
  {
    hide SpreadNulls;
  }

  lemma NextSettles(cfg: Config, c: Chain, e: Event)
    requires Tidy(cfg, c.mix, c.slots)
    ensures var d := Next(cfg, c, e);
            d.done + Written(d.mix, d.slots) ==
            c.done + Written(c.mix, c.slots) + if e == Work then Packets(Settled(cfg, c.mix)) else []
  {
    hide Tick, Settled;
    var d := Next(cfg, c, e);
    match e
    case Work => TickSettles(cfg, c.mix, c.slots);
    case Arrive(o, batch) => assert Written(d.mix, d.slots) == Written(c.mix, c.slots);
    case NextBuffer =>
      if c.mix.pc.Done? {
        assert d.done + Written(d.mix, d.slots) == c.done + Written(c.mix, c.slots);
      }
  }

  // ---- What an input counts

  /** `sent` is the number of counted slots since the input's last clock. */
  predicate Counts(j: seq<Entry>, r: InputState, i: nat, hand: Option<Packet>) {
    if hand.Some? && IsClockOf(hand.value, i, r.pcrPid) then r.sent == 0
    else match LastClock(Packets(j), i, r.pcrPid)
         case None => true
         case Some(a) => r.sent == Counted(j[a..])
  }

  lemma {:induction false} CountedConcat(a: seq<Entry>, b: seq<Entry>)
    ensures Counted(a + b) == Counted(a) + Counted(b)
    ensures Uncounted(a + b) == Uncounted(a) + Uncounted(b)
  {
    if b == [] {
      assert a + b == a;
    } else {
      CountedConcat(a, b[..|b| - 1]);
      assert (a + b)[..|a + b| - 1] == a + b[..|b| - 1];
    }
  }

  lemma {:induction false} CountedBlank(n: nat, counted: bool)
    ensures Counted(Blank(n, counted)) == if counted then n else 0
  {
    if n > 0 {
      CountedBlank(n - 1, counted);
      assert Blank(n, counted)[..n - 1] == Blank(n - 1, counted);
    }
  }

  lemma {:induction false} CountedSplit(j: seq<Entry>)
    ensures Counted(j) + Uncounted(j) == |j|
    ensures Uncounted(j) == 0 <==> forall i :: 0 <= i < |j| ==> j[i].counted
  {
    if j != [] {
      CountedSplit(j[..|j| - 1]);
    }
  }

  /** Slots without a clock of the input, counted or not. */
  lemma QuietCounts(j: seq<Entry>, t: seq<Entry>, r: InputState, i: nat)
    requires Counts(j, r, i, None) && Quiet(Packets(t), i, r.pcrPid)
    ensures Counts(j + t, r.(sent := r.sent + Counted(t)), i, None)
  {
    hide LastClock, Counted;
    PacketsConcat(j, t);
    AppendQuiet(AnyConfig(), Packets(j), Packets(t), i, r.pcrPid);
    var last := LastClock(Packets(j), i, r.pcrPid);
    if last.Some? {
      assert (j + t)[last.value..] == j[last.value..] + t;
      CountedConcat(j[last.value..], t);
    }
  }

  /** The lemmas about clocks in a stream do not look at the configuration. */
  function AnyConfig(): Config {
    Config(0, 0, 0.0, 0, 0, 0)
  }

  /** Skipped nulls, then the packet in hand. */
  lemma PacketCounts(j: seq<Entry>, skip: nat, p: Packet, r: InputState, i: nat)
    requires Counts(j, r, i, Some(p))
    ensures Counts(j + (Blank(skip, false) + [Entry(p, true)]), r.(sent := r.sent + 1), i, None)
  {
    hide LastClock, Counted;
    var nulls, one := Blank(skip, false), [Entry(p, true)];
    assert j + (nulls + one) == j + nulls + one;
    CountedOne(p);
    if IsClockOf(p, i, r.pcrPid) {
      PacketsConcat(j + nulls, one);
      assert Packets(one) == [p];
      AppendOne(AnyConfig(), Packets(j + nulls), p, i, r.pcrPid);
      assert (j + nulls + one)[|j + nulls|..] == one;
    } else {
      CountedBlank(skip, false);
      QuietCounts(j, nulls, r, i);
      assert r.(sent := r.sent + 0) == r;
      QuietCounts(j + nulls, one, r, i);
    }
  }

  lemma CountedOne(p: Packet)
    ensures Counted([Entry(p, true)]) == 1
  {
    assert [Entry(p, true)][..0] == [] && Counted([]) == 0;
  }

  lemma VisitCounts(cfg: Config, j: seq<Entry>, r: InputState, i: nat)
    requires (cfg.mode == 1 || cfg.mode == 3) && r.pcrPid != NULL_PID && From(Channel(i), r.buf)
    requires Counts(j, r, i, None)
    ensures var (t, verdict) := Visit(cfg, r);
            && t.pcrPid == r.pcrPid
            && Counts(j, t, i, if verdict.Picked? then Some(verdict.packet) else None)
  {
    hide Required, LastClock, Counted;
  }

  lemma OtherHand(j: seq<Entry>, r: InputState, i: nat, p: Packet)
    requires p.origin != Channel(i)
    ensures Counts(j, r, i, Some(p)) == Counts(j, r, i, None)
  {
  }

  /** Input `i` counts as it should. */
  predicate Counting(j: seq<Entry>, m: Mixing, i: nat) {
    i < |m.inputs| && m.inputs[i].pcrPid != NULL_PID && Counts(j, m.inputs[i], i, Hand(m))
  }

  lemma VisitCounting(cfg: Config, j: seq<Entry>, m: Mixing, slots: seq<Packet>, i: nat)
    requires (cfg.mode == 1 || cfg.mode == 3) && Tidy(cfg, m, slots) && m.pc.Scan? && m.pc.left > 0
    requires Counting(j, m, i)
    ensures Counting(j, VisitNext(cfg, m), i)
  {
    hide Counts, Visit;
    var a := NextNode(m.last, |m.inputs|);
    assert From(Channel(a), m.inputs[a].buf);
    var (t, verdict) := Visit(cfg, m.inputs[a]);
    VisitTakes(cfg, m.inputs[a]);
    if i == a {
      VisitCounts(cfg, j, m.inputs[i], i);
    } else if verdict.Picked? {
      OtherHand(j, m.inputs[i], i, verdict.packet);
    }
  }

  lemma BlankCounts(j: seq<Entry>, n: nat, counted: bool, r: InputState, i: nat)
    requires Counts(j, r, i, None)
    ensures Counts(j + Blank(n, counted), r.(sent := r.sent + if counted then n else 0), i, None)
  {
    hide Counts, Counted;
    CountedBlank(n, counted);
    QuietCounts(j, Blank(n, counted), r, i);
  }

  lemma TickCounting(cfg: Config, j: seq<Entry>, m: Mixing, slots: seq<Packet>, i: nat)
    requires (cfg.mode == 1 || cfg.mode == 3) && Tidy(cfg, m, slots) && Counting(j, m, i)
    ensures Counting(j + Settled(cfg, m), Tick(cfg, m, slots).0, i)
  {
    hide VisitNext, PlacePacket, Counts;
    var r := m.inputs[i];
    assert j + [] == j;
    match m.pc
    case Sum(next, total) =>
      BlankCounts(j, cfg.maxPackets, true, r, i);
    case Head(k) =>
      if k >= m.packets {
        BlankCounts(j, cfg.maxPackets - Frontier(m), false, r, i);
        assert r.(sent := r.sent + 0) == r;
      } else if m.psi != [] {
        OtherHand(j, r, i, m.psi[0]);
      }
    case Scan(k, left, polled) =>
      if left > 0 {
        VisitCounting(cfg, j, m, slots, i);
      }
    case Place(k, data) =>
      PlaceCounting(cfg, j, m, slots, i);
    case Done =>
  }

  lemma PlaceCounting(cfg: Config, j: seq<Entry>, m: Mixing, slots: seq<Packet>, i: nat)
    requires Tidy(cfg, m, slots) && m.pc.Place? && Counting(j, m, i)
    ensures Counting(j + Settled(cfg, m), PlacePacket(cfg, m, slots).0, i)
  {
    hide Counts;
    match m.pc.data
    case None => BlankCounts(j, 1, true, m.inputs[i], i);
    case Some(p) =>
      SpreadStays(m.packets, cfg.maxPackets - m.packets, m.pc.k, m.nulls);
      var after := SpreadNulls(m.packets, cfg.maxPackets - m.packets, m.pc.k, m.nulls);
      hide SpreadNulls;
      PacketCounts(j, after - m.nulls, p, m.inputs[i], i);
  }

  lemma NextCounting(cfg: Config, j: seq<Entry>, c: Chain, e: Event, i: nat)
    requires (cfg.mode == 1 || cfg.mode == 3) && Tidy(cfg, c.mix, c.slots) && Counting(j, c.mix, i)
    ensures Counting(j + if e == Work then Settled(cfg, c.mix) else [], Next(cfg, c, e).mix, i)
  {
    hide Tick, Settled;
    assert j + [] == j;
    match e
    case Work => TickCounting(cfg, j, c.mix, c.slots, i);
    case Arrive(o, batch) => hide LastClock, Counted;
    case NextBuffer => hide LastClock, Counted;
  }

  lemma {:induction false} RunCounting(cfg: Config, pids: seq<Pid>, run: seq<Event>, i: nat)
    requires (cfg.mode == 1 || cfg.mode == 3) && i < |pids| && pids[i] != NULL_PID
    ensures var c := Run(cfg, Start(cfg, pids), run);
            Counting(Journal(cfg, pids, run), c.mix, i) && c.mix.inputs[i].pcrPid == pids[i]
  {
    if run != [] {
      var init, e := run[..|run| - 1], run[|run| - 1];
      RunCounting(cfg, pids, init, i);
      RunConserves(cfg, pids, init, Psi);
      var c := Run(cfg, Start(cfg, pids), init);
      NextCounting(cfg, Journal(cfg, pids, init), c, e, i);
      PidStays(cfg, c, e, i);
      hide Next, Counting, Settled;
    } else {
      assert Packets([]) == [];
    }
  }

  lemma InputsStayNext(cfg: Config, c: Chain, e: Event)
    requires Shaped(cfg, c.mix, c.slots)
    ensures |Next(cfg, c, e).mix.inputs| == |c.mix.inputs|
  {
    hide Visit, SpreadNulls;
  }

  lemma {:induction false} InputsStay(cfg: Config, pids: seq<Pid>, run: seq<Event>)
    ensures |Run(cfg, Start(cfg, pids), run).mix.inputs| == |pids|
  {
    if run != [] {
      InputsStay(cfg, pids, run[..|run| - 1]);
      var c := Run(cfg, Start(cfg, pids), run[..|run| - 1]);
      hide Next;
      InputsStayNext(cfg, c, run[|run| - 1]);
    }
  }

  function InputAfter(cfg: Config, pids: seq<Pid>, run: seq<Event>, i: nat): InputState
    requires i < |pids|
  {
    InputsStay(cfg, pids, run);
    Run(cfg, Start(cfg, pids), run).mix.inputs[i]
  }

  /** The clock that input `i` remembers. */
  function ClockBefore(cfg: Config, pids: seq<Pid>, run: seq<Event>, i: nat): (r: Option<nat>)
    requires i < |pids|
    ensures r.Some? ==> r.value < |Journal(cfg, pids, run)|
  {
    LastClock(Packets(Journal(cfg, pids, run)), i, pids[i])
  }

  /** What `outputed_packets` counts, over every run: the slots since the input's last clock
      less the null slots skipped since.  So it counts "every sent packet" if and only if none
      has been skipped. */
  lemma SentIs(cfg: Config, pids: seq<Pid>, run: seq<Event>, i: nat)
    requires (cfg.mode == 1 || cfg.mode == 3) && i < |pids| && pids[i] != NULL_PID
    requires ClockBefore(cfg, pids, run, i).Some?
    requires var m := Run(cfg, Start(cfg, pids), run).mix;
             !(Hand(m).Some? && IsClockOf(Hand(m).value, i, pids[i]))
    ensures var r, j := InputAfter(cfg, pids, run, i), Journal(cfg, pids, run);
            var a := ClockBefore(cfg, pids, run, i).value;
            && r.sent == |j| - a - Uncounted(j[a..])
            && (r.sent == |j| - a <==> forall n :: a <= n < |j| ==> j[n].counted)
  {
    RunCounting(cfg, pids, run, i);
    var j, a := Journal(cfg, pids, run), ClockBefore(cfg, pids, run, i).value;
    hide Run, LastClock, Journal;
    var since := j[a..];
    CountedSplit(since);
    assert forall n :: 0 <= n < |since| ==> since[n] == j[a + n];
    assert forall n :: a <= n < |j| ==> j[n] == since[n - a];
  }

  /** In the other modes every input counts all slots but the skipped nulls, from the start, and
      remembers no clock. */
  predicate CountsOn(j: seq<Entry>, m: Mixing) {
    forall i :: 0 <= i < |m.inputs| ==>
      m.inputs[i].sent == Counted(j) && m.inputs[i].lastPcr == 0 && m.inputs[i].needed == 0
  }

  lemma TickCountsOn(cfg: Config, j: seq<Entry>, m: Mixing, slots: seq<Packet>)
    requires cfg.mode != 1 && cfg.mode != 3 && Tidy(cfg, m, slots) && CountsOn(j, m)
    ensures CountsOn(j + Settled(cfg, m), Tick(cfg, m, slots).0)
  {
    hide Counted, NullFrom, SpreadNulls;
    assert j + [] == j;
    match m.pc
    case Sum(next, total) =>
      CountedBlank(cfg.maxPackets, true);
      CountedConcat(j, Blank(cfg.maxPackets, true));
    case Head(k) =>
      if k >= m.packets {
        CountedBlank(cfg.maxPackets - Frontier(m), false);
        CountedConcat(j, Blank(cfg.maxPackets - Frontier(m), false));
      }
    case Place(k, data) =>
      SpreadStays(m.packets, cfg.maxPackets - m.packets, k, m.nulls);
      CountedPlace(cfg, m);
      CountedConcat(j, Settled(cfg, m));
    case _ =>
  }

  lemma CountedPlace(cfg: Config, m: Mixing)
    requires m.pc.Place? && 1 <= m.packets <= cfg.maxPackets
    ensures Counted(Settled(cfg, m)) == 1
  {
    hide Counted, SpreadNulls;
    match m.pc.data
    case None => CountedBlank(1, true);
    case Some(p) =>
      var after := SpreadNulls(m.packets, cfg.maxPackets - m.packets, m.pc.k, m.nulls);
      var skip := if after < m.nulls then 0 else after - m.nulls;
      CountedBlank(skip, false);
      CountedOne(p);
      CountedConcat(Blank(skip, false), [Entry(p, true)]);
  }

  lemma NextCountsOn(cfg: Config, j: seq<Entry>, c: Chain, e: Event)
    requires cfg.mode != 1 && cfg.mode != 3 && Tidy(cfg, c.mix, c.slots) && CountsOn(j, c.mix)
    ensures CountsOn(if e == Work then j + Settled(cfg, c.mix) else j, Next(cfg, c, e).mix)
  {
    hide Tick, Settled, Counted, Tidy;
    if e == Work {
      TickCountsOn(cfg, j, c.mix, c.slots);
      hide CountsOn;
    }
  }

  lemma NothingCounted(cfg: Config, pids: seq<Pid>)
    ensures CountsOn([], Start(cfg, pids).mix)
  {
  }

  lemma {:induction false} OtherModesCountOn(cfg: Config, pids: seq<Pid>, run: seq<Event>)
    requires cfg.mode != 1 && cfg.mode != 3
    ensures CountsOn(Journal(cfg, pids, run), Run(cfg, Start(cfg, pids), run).mix)
  {
    hide CountsOn, Next, Settled, Counted, Tidy, Start;
    if run == [] {
      NothingCounted(cfg, pids);
    } else {
      var init := run[..|run| - 1];
      var j := Journal(cfg, pids, init);
      OtherModesCountOn(cfg, pids, init);
      RunConserves(cfg, pids, init, Psi);
      NextCountsOn(cfg, j, Run(cfg, Start(cfg, pids), init), run[|run| - 1]);
      assert j + [] == j;
    }
  }

  // ---- When a clock is held back

  /** Exactly when the mixer holds back the clock at the head of the input it asks: the input's
      last clock in the output was not 0, and fewer slots than required have been counted
      since. */
  lemma HeldIs(cfg: Config, pids: seq<Pid>, run: seq<Event>, i: nat)
    requires (cfg.mode == 1 || cfg.mode == 3) && i < |pids| && pids[i] != NULL_PID
    requires Run(cfg, Start(cfg, pids), run).mix.pc.Scan?
    requires var r := InputAfter(cfg, pids, run, i); r.buf != [] && IsClock(r, r.buf[0])
    ensures var r, j := InputAfter(cfg, pids, run, i), Journal(cfg, pids, run);
            Visit(cfg, r).1.Held? <==>
            match ClockBefore(cfg, pids, run, i)
            case None => false
            case Some(a) =>
              && HasPcr(j[a].packet)
              && j[a].packet.pcr.value != 0
              && Counted(j[a..]) < Required(cfg, ClockDifference(r.buf[0].pcr.value, j[a].packet.pcr.value))
  {
    RunCounting(cfg, pids, run, i);
    RunKeeps(cfg, pids, run, i);
    JournalIs(cfg, pids, run);
    hide Run, LastClock, Journal, Counted, Required, ClockDifference, Spaced;
  }
}
