/** Where the mixing thread puts data packets, in every buffer of every run: the slots that
    `Spread` speaks of, and no others. */
module MixLayout {
  import opened Ts
  import opened Spread
  import opened Mix
  import opened MixConserve
  import opened MixFair
  import opened MixBudget

  /** The iterations of the current buffer that have carried data. */
  function Carried(cfg: Config, pids: seq<Pid>, run: seq<Event>): seq<nat> {
    if run == [] then []
    else
      var init := run[..|run| - 1];
      CarriedNext(Run(cfg, Start(cfg, pids), init).mix, run[|run| - 1], Carried(cfg, pids, init))
  }

  function CarriedNext(m: Mixing, e: Event, ks: seq<nat>): seq<nat> {
    if e == NextBuffer && m.pc.Done? then []
    else if e == Work && m.pc.Place? && m.pc.data.Some? then ks + [m.pc.k]
    else ks
  }

  /** Slot `s` is that of one of the iterations `ks`. */
  ghost predicate Used(p: nat, z: nat, ks: seq<nat>, s: int)
    requires 1 <= p
  {
    exists j :: 0 <= j < |ks| && s == SlotAt(p, z, ks, j)
  }

  function SlotAt(p: nat, z: nat, ks: seq<nat>, j: nat): nat
    requires 1 <= p && j < |ks|
  {
    SlotOf(p, z, ks[..j + 1])
  }

  lemma UsedAppend(p: nat, z: nat, ks: seq<nat>, k: nat, s: int)
    requires 1 <= p
    ensures Used(p, z, ks + [k], s) <==> Used(p, z, ks, s) || s == k + SpreadNulls(p, z, k, NullsAfter(p, z, ks))
  {
    hide NullsAfter, SpreadNulls;
    var more := ks + [k];
    SlotAtLast(p, z, ks, k);
    if Used(p, z, ks, s) {
      var j :| 0 <= j < |ks| && s == SlotAt(p, z, ks, j);
      assert more[..j + 1] == ks[..j + 1];
      assert s == SlotAt(p, z, more, j);
    }
    if Used(p, z, more, s) {
      var j :| 0 <= j < |more| && s == SlotAt(p, z, more, j);
      if j < |ks| {
        assert more[..j + 1] == ks[..j + 1];
        assert s == SlotAt(p, z, ks, j);
      }
    }
    if s == SlotAt(p, z, more, |ks|) {
      assert Used(p, z, more, s);
    }
  }

  lemma SlotAtLast(p: nat, z: nat, ks: seq<nat>, k: nat)
    requires 1 <= p
    ensures SlotAt(p, z, ks + [k], |ks|) == k + SpreadNulls(p, z, k, NullsAfter(p, z, ks))
  {
    assert (ks + [k])[..|ks| + 1] == ks + [k] && (ks + [k])[..|ks|] == ks;
  }

  /** Data stands in the slots used, and null packets in all others. */
  ghost predicate Occupied(slots: seq<Packet>, p: nat, z: nat, ks: seq<nat>)
    requires 1 <= p
  {
    forall s :: 0 <= s < |slots| ==> (slots[s] != NULL_PACKET <==> Used(p, z, ks, s))
  }

  /** `nulls` and the slots are what the iterations so far make them. */
  ghost predicate LaidOut(cfg: Config, m: Mixing, slots: seq<Packet>, ks: seq<nat>)
    requires Shaped(cfg, m, slots)
  {
    if m.pc.Sum? || m.packets == 0 then ks == [] && (m.pc.Sum? || m.pc.Done?) && NullFrom(slots, 0)
    else
      var z := cfg.maxPackets - m.packets;
      && Pattern(ks, if m.pc.Done? then m.packets else m.pc.k)
      && m.nulls == NullsAfter(m.packets, z, ks)
      && Occupied(slots, m.packets, z, ks)
      && (m.pc.Place? && m.pc.data.Some? ==> m.pc.data.value.origin != Stuffing)
  }

  lemma StartLaidOut(cfg: Config, m: Mixing, slots: seq<Packet>, total: nat)
    requires Tidy(cfg, m, slots) && m.pc.Sum?
    ensures LaidOut(cfg, StartFill(cfg, m, total), slots, [])
  {
  }

  lemma PlaceLaidOut(cfg: Config, m: Mixing, slots: seq<Packet>, ks: seq<nat>)
    requires Tidy(cfg, m, slots) && m.pc.Place? && LaidOut(cfg, m, slots, ks)
    ensures var (n, written) := PlacePacket(cfg, m, slots);
            Shaped(cfg, n, written) && LaidOut(cfg, n, written, CarriedNext(m, Work, ks))
  {
    hide NullsAfter, SpreadNulls, Used;
    var p, z, k := m.packets, cfg.maxPackets - m.packets, m.pc.k;
    if m.pc.data.Some? {
      SpreadStays(p, z, k, m.nulls);
      var slot := k + SpreadNulls(p, z, k, m.nulls);
      var (n, written) := PlacePacket(cfg, m, slots);
      assert written == slots[slot := m.pc.data.value];
      AfterAppend(p, z, ks, k);
      forall s | 0 <= s < |written| ensures written[s] != NULL_PACKET <==> Used(p, z, ks + [k], s) {
        UsedAppend(p, z, ks, k, s);
      }
    }
  }

  lemma AfterAppend(p: nat, z: nat, ks: seq<nat>, k: nat)
    requires 1 <= p
    ensures NullsAfter(p, z, ks + [k]) == SpreadNulls(p, z, k, NullsAfter(p, z, ks))
  {
    assert (ks + [k])[..|ks|] == ks;
  }

  lemma VisitLaidOut(cfg: Config, m: Mixing, slots: seq<Packet>, ks: seq<nat>)
    requires Tidy(cfg, m, slots) && m.pc.Scan? && m.pc.left > 0 && LaidOut(cfg, m, slots, ks)
    ensures Shaped(cfg, VisitNext(cfg, m), slots) && LaidOut(cfg, VisitNext(cfg, m), slots, ks)
  {
    hide Visit, NullsAfter, Occupied;
    var i := NextNode(m.last, |m.inputs|);
    assert From(Channel(i), m.inputs[i].buf);
    VisitTakes(cfg, m.inputs[i]);
  }

  lemma TickLaidOut(cfg: Config, m: Mixing, slots: seq<Packet>, ks: seq<nat>)
    requires Tidy(cfg, m, slots) && LaidOut(cfg, m, slots, ks)
    ensures var (n, written) := Tick(cfg, m, slots); LaidOut(cfg, n, written, CarriedNext(m, Work, ks))
  {
    hide VisitNext, PlacePacket, StartFill, NullsAfter, Occupied;
    match m.pc
    case Sum(next, total) => StartLaidOut(cfg, m, slots, total);
    case Scan(_, left, _) =>
      if left > 0 {
        VisitLaidOut(cfg, m, slots, ks);
      }
    case Place(_, _) => PlaceLaidOut(cfg, m, slots, ks);
    case _ =>
  }

  lemma NextLaidOut(cfg: Config, c: Chain, e: Event, ks: seq<nat>)
    requires Tidy(cfg, c.mix, c.slots) && LaidOut(cfg, c.mix, c.slots, ks)
    ensures var d := Next(cfg, c, e); LaidOut(cfg, d.mix, d.slots, CarriedNext(c.mix, e, ks))
  {
    hide Tick, NullsAfter, Occupied;
    match e
    case Work => TickLaidOut(cfg, c.mix, c.slots, ks);
    case Arrive(_, _) =>
    case NextBuffer =>
  }

  /** In every run, `nulls` of the current buffer is `NullsAfter` of the iterations that carried
      data, and the data packets stand in exactly their slots. */
  lemma {:induction false} RunLaidOut(cfg: Config, pids: seq<Pid>, run: seq<Event>)
    ensures var c := Run(cfg, Start(cfg, pids), run); LaidOut(cfg, c.mix, c.slots, Carried(cfg, pids, run))
  {
    if run != [] {
      var init, e := run[..|run| - 1], run[|run| - 1];
      RunLaidOut(cfg, pids, init);
      RunConserves(cfg, pids, init, Psi);
      NextLaidOut(cfg, Run(cfg, Start(cfg, pids), init), e, Carried(cfg, pids, init));
      hide Next, LaidOut, CarriedNext, Tidy;
    }
  }

  /** The data packet of iteration `ks[j]` stands in a slot of its own.  With more nulls than
      data, exactly its rounded share of nulls comes before it; otherwise every packet has its
      share if and only if no jump over empty iterations was too large; in particular when there
      was no empty iteration. */
  predicate WellSpread(slots: seq<Packet>, p: nat, z: nat, ks: seq<nat>, j: nat)
    requires 1 <= p && j < |ks|
  {
    var s := SlotAt(p, z, ks, j);
    && s < |slots| && slots[s] != NULL_PACKET
    && (p < z ==> s == ks[j] + SparseDue(p, z, ks[j]))
    && (p < z || z == 0 ==> EachEven(p, z, ks))
    && (1 <= z <= p ==> (EachEven(p, z, ks) <==> EachFits(p, z, ks)))
    && (ks == Upto(|ks|) ==> EachEven(p, z, ks))
  }

  /** So the results about spreading are about real buffers: those of every run. */
  lemma BufferIsSpread(cfg: Config, pids: seq<Pid>, run: seq<Event>, j: nat)
    requires Run(cfg, Start(cfg, pids), run).mix.packets > 0
    requires j < |Carried(cfg, pids, run)|
    ensures var c := Run(cfg, Start(cfg, pids), run);
            var p := c.mix.packets;
            p <= cfg.maxPackets && WellSpread(c.slots, p, cfg.maxPackets - p, Carried(cfg, pids, run), j)
  {
    hide WellSpread, LaidOut, Carried, Run, Tidy, Start;
    RunLaidOut(cfg, pids, run);
    RunConserves(cfg, pids, run, Psi);
    var c := Run(cfg, Start(cfg, pids), run);
    SpreadIn(cfg, c.mix, c.slots, Carried(cfg, pids, run), j);
  }

  lemma SpreadIn(cfg: Config, m: Mixing, slots: seq<Packet>, ks: seq<nat>, j: nat)
    requires Tidy(cfg, m, slots) && LaidOut(cfg, m, slots, ks) && m.packets > 0 && j < |ks|
    ensures m.packets <= cfg.maxPackets && WellSpread(slots, m.packets, cfg.maxPackets - m.packets, ks, j)
  {
    hide NullsAfter, EachEven, EachFits;
    var p, z := m.packets, cfg.maxPackets - m.packets;
    assert Pattern(ks, p);
    var s, upto := SlotAt(p, z, ks, j), ks[..j + 1];
    NullsGrow(p, z, upto, 0);
    assert Used(p, z, ks, s);
    if p < z {
      SparseClosedForm(p, z, upto);
    }
    if p < z || z == 0 {
      AnyPatternEven(p, z, ks);
    } else {
      GapsFit(p, z, ks);
      if ks == Upto(|ks|) {
        assert ks[|ks| - 1] == |ks| - 1;
        UptoEven(p, z, |ks|);
      }
    }
  }

  lemma UptoEven(p: nat, z: nat, n: nat)
    requires 1 <= p && n <= p
    ensures EachEven(p, z, Upto(n))
  {
    hide EvenAt, NullsAfter;
    forall i: nat | i < n ensures EvenAtPlace(p, z, Upto(n), i) {
      UptoEvenAt(p, z, n, i);
    }
  }

  lemma UptoEvenAt(p: nat, z: nat, n: nat, i: nat)
    requires 1 <= p && i < n <= p
    ensures EvenAtPlace(p, z, Upto(n), i)
  {
    hide NullsAfter;
    SpreadIsEven(p, z, i);
    assert Upto(n)[..i + 1] == Upto(i + 1);
  }

  // ---- Buffers without an empty iteration

  /** Iterations find data: a scan has an input with a packet ahead of it. */
  ghost predicate FindsData(m: Mixing) {
    && (m.pc.Scan? ==> exists i :: Reachable(m, m.pc.left, i))
    && (m.pc.Place? ==> m.pc.data.Some?)
  }

  lemma VisitFindsData(cfg: Config, m: Mixing, slots: seq<Packet>)
    requires cfg.mode != 1 && cfg.mode != 3 && Budgeted(cfg, m, slots) && FindsData(m) && m.pc.Scan? && m.pc.left > 0
    ensures FindsData(VisitNext(cfg, m))
  {
    var n := |m.inputs|;
    var i, v := NextNode(m.last, n), VisitNext(cfg, m);
    var r := m.inputs[i];
    assert NoPadding(r.buf);
    assert if r.buf == [] then Visit(cfg, r) == (r, Idle) else Visit(cfg, r).1.Picked?;
    hide Visit;
    if r.buf == [] {
      var a :| Reachable(m, m.pc.left, a);
      AheadShrinks(m.last, a, n);
      assert Reachable(v, m.pc.left - 1, a);
    }
  }

  lemma TickFindsData(cfg: Config, m: Mixing, slots: seq<Packet>)
    requires cfg.mode != 1 && cfg.mode != 3 && Budgeted(cfg, m, slots) && FindsData(m)
    ensures FindsData(Tick(cfg, m, slots).0)
  {
    hide VisitNext, SpreadNulls;
    match m.pc
    case Head(k) =>
      if k < m.packets && m.psi == [] {
        ScanStarts(m);
        var i :| Reachable(m, |m.inputs|, i);
        assert Reachable(m.(pc := Scan(k, |m.inputs|, 0)), |m.inputs|, i);
      }
    case Scan(_, left, _) =>
      if left > 0 {
        VisitFindsData(cfg, m, slots);
      }
    case _ =>
  }

  lemma NextFindsData(cfg: Config, c: Chain, e: Event)
    requires cfg.mode != 1 && cfg.mode != 3 && Budgeted(cfg, c.mix, c.slots) && FindsData(c.mix)
    ensures FindsData(Next(cfg, c, e).mix)
  {
    hide Tick, Covered, Clean, Owned;
    var d := Next(cfg, c, e);
    match e
    case Work => TickFindsData(cfg, c.mix, c.slots);
    case Arrive(o, batch) =>
      if c.mix.pc.Scan? {
        var i :| Reachable(c.mix, c.mix.pc.left, i);
        assert Reachable(d.mix, d.mix.pc.left, i);
      }
    case NextBuffer =>
  }

  /** The iterations over so far. */
  function Over(m: Mixing): nat {
    match m.pc
    case Sum(_, _) => 0
    case Done => m.packets
    case _ => m.pc.k
  }

  lemma NextCarriesAll(cfg: Config, c: Chain, e: Event, ks: seq<nat>)
    requires Budgeted(cfg, c.mix, c.slots) && FindsData(c.mix) && ks == Upto(Over(c.mix))
    ensures CarriedNext(c.mix, e, ks) == Upto(Over(Next(cfg, c, e).mix))
  {
    hide Visit, SpreadNulls;
    if e == Work && c.mix.pc.Place? {
      PlaceConserves(cfg, c.mix, c.slots, Psi);
      assert Upto(c.mix.pc.k) + [c.mix.pc.k] == Upto(c.mix.pc.k + 1);
    }
  }

  /** In the modes that leave clocks alone, and with no padding about, every iteration carries
      data, in every run. */
  lemma {:induction false} EveryIterationCarries(cfg: Config, pids: seq<Pid>, run: seq<Event>)
    requires cfg.mode != 1 && cfg.mode != 3 && CleanRun(run)
    ensures var c := Run(cfg, Start(cfg, pids), run);
            && Budgeted(cfg, c.mix, c.slots)
            && FindsData(c.mix)
            && Carried(cfg, pids, run) == Upto(Over(c.mix))
  {
    hide Budgeted, FindsData;
    if run == [] {
      StartBudgeted(cfg, pids);
      StartFinds(cfg, pids);
    } else {
      var init, e := run[..|run| - 1], run[|run| - 1];
      EveryIterationCarries(cfg, pids, init);
      var c := Run(cfg, Start(cfg, pids), init);
      NextCovered(cfg, c, e);
      NextFindsData(cfg, c, e);
      NextCarriesAll(cfg, c, e, Carried(cfg, pids, init));
      hide Next, CarriedNext;
    }
  }

  lemma StartFinds(cfg: Config, pids: seq<Pid>)
    ensures FindsData(Start(cfg, pids).mix)
  {
  }

  /** Hence every buffer of every such run is even, dense or sparse. */
  lemma BufferIsEven(cfg: Config, pids: seq<Pid>, run: seq<Event>)
    requires cfg.mode != 1 && cfg.mode != 3 && CleanRun(run)
    ensures var m := Run(cfg, Start(cfg, pids), run).mix;
            && m.packets <= cfg.maxPackets
            && Carried(cfg, pids, run) == Upto(Over(m))
            && (m.packets > 0 ==> EachEven(m.packets, cfg.maxPackets - m.packets, Carried(cfg, pids, run)))
  {
    hide Run, Carried, EachEven;
    EveryIterationCarries(cfg, pids, run);
    RunConserves(cfg, pids, run, Psi);
    var m := Run(cfg, Start(cfg, pids), run).mix;
    if m.packets > 0 {
      UptoEven(m.packets, cfg.maxPackets - m.packets, Over(m));
    }
  }
}
