/** Mixing neither loses, duplicates nor reorders the packets of any source. */
module MixConserve {
  import opened Ts
  import opened Spread
  import opened Mix

  /** What source `o` still has queued. */
  function Queue(m: Mixing, o: Origin): seq<Packet> {
    match o
    case Stuffing => []
    case Psi => m.psi
    case Channel(i) => if i < |m.inputs| then m.inputs[i].buf else []
  }

  /** What the thread has taken from source `o` and not placed yet. */
  function InHand(m: Mixing, o: Origin): seq<Packet> {
    if m.pc.Place? && m.pc.data.Some? then Payload(m.pc.data.value, o) else []
  }

  /** Everything of source `o` between its buffer's entrance and the slots, in order. */
  function Pending(m: Mixing, slots: seq<Packet>, o: Origin): seq<Packet> {
    Deliver(slots, o) + InHand(m, o) + Deliver(Queue(m, o), o)
  }

  predicate Owned(m: Mixing) {
    && From(Psi, m.psi)
    && forall i :: 0 <= i < |m.inputs| ==> From(Channel(i), m.inputs[i].buf)
  }

  /** The slot below which everything has been written or skipped for good. */
  function Frontier(m: Mixing): nat {
    match m.pc
    case Sum(_, _) => 0
    case Done => 0
    case _ => m.pc.k + m.nulls
  }

  predicate NullFrom(slots: seq<Packet>, from: nat) {
    forall i :: from <= i < |slots| ==> slots[i] == NULL_PACKET
  }

  /** Queues hold their own source's packets, and nothing but null packets lies ahead. */
  predicate Tidy(cfg: Config, m: Mixing, slots: seq<Packet>) {
    && Shaped(cfg, m, slots)
    && Owned(m)
    && m.nulls <= cfg.maxPackets - m.packets
    && (m.pc.Head? ==> m.pc.k <= m.packets)
    && (!m.pc.Done? ==> NullFrom(slots, Frontier(m)))
  }

  /** What a visit does to the queue it visits. */
  predicate Takes(r: InputState, s: InputState, verdict: Verdict) {
    match verdict
    case Picked(p) => r.buf != [] && p == r.buf[0] && p.pid < NULL_PID && s.buf == r.buf[1..]
    case Padding => r.buf != [] && r.buf[0].pid == NULL_PID && s.buf == r.buf[1..]
    case _ => s.buf == r.buf
  }

  lemma VisitTakes(cfg: Config, r: InputState)
    ensures var (s, verdict) := Visit(cfg, r); Takes(r, s, verdict)
  {
  }

  function Taken(verdict: Verdict, o: Origin): seq<Packet> {
    if verdict.Picked? then Payload(verdict.packet, o) else []
  }

  lemma QueueStep(r: InputState, s: InputState, verdict: Verdict, i: nat, o: Origin)
    requires Takes(r, s, verdict) && From(Channel(i), r.buf)
    ensures From(Channel(i), s.buf)
    ensures Deliver(r.buf, o) == Taken(verdict, o) + Deliver(s.buf, o)
    ensures o != Channel(i) ==> Taken(verdict, o) == []
  {
    if r.buf != [] {
      DeliverHead(r.buf, o);
      assert r.buf[0].origin == Channel(i);
    }
  }

  lemma OwnedUpdate(m: Mixing, i: nat, s: InputState, o: Origin)
    requires Owned(m) && i < |m.inputs| && From(Channel(i), s.buf)
    ensures Owned(m.(inputs := m.inputs[i := s]))
    ensures Queue(m.(inputs := m.inputs[i := s]), o) == if o == Channel(i) then s.buf else Queue(m, o)
  {
    forall j | 0 <= j < |m.inputs| ensures From(Channel(j), m.inputs[i := s][j].buf) {
      assert From(Channel(j), m.inputs[j].buf);
    }
  }

  lemma VisitConserves(cfg: Config, m: Mixing, slots: seq<Packet>, o: Origin)
    requires Tidy(cfg, m, slots) && m.pc.Scan? && m.pc.left > 0
    ensures var n := VisitNext(cfg, m);
            Tidy(cfg, n, slots) && Pending(n, slots, o) == Pending(m, slots, o)
  {
    hide Deliver, Visit;
    var i := NextNode(m.last, |m.inputs|);
    var r, n := m.inputs[i], VisitNext(cfg, m);
    var (s, verdict) := Visit(cfg, r);
    VisitTakes(cfg, r);
    assert From(Channel(i), r.buf);
    QueueStep(r, s, verdict, i, o);
    OwnedUpdate(m, i, s, o);
    assert Owned(n);
    assert Queue(n, o) == Queue(m.(inputs := m.inputs[i := s]), o);
    assert InHand(n, o) == Taken(verdict, o);
    assert InHand(m, o) == [];
  }

  lemma PlaceConserves(cfg: Config, m: Mixing, slots: seq<Packet>, o: Origin)
    requires Tidy(cfg, m, slots) && m.pc.Place?
    ensures var (n, written) := PlacePacket(cfg, m, slots);
            && Tidy(cfg, n, written)
            && Pending(n, written, o) == Pending(m, slots, o)
            && n.pc == Head(m.pc.k + 1)
  {
    hide Deliver, From;
    var (n, written) := PlacePacket(cfg, m, slots);
    SentKeepsBuffers(m, 1);
    assert Queue(n, o) == Queue(m.(inputs := AddSent(m.inputs, 1)), o);
    assert Owned(n);
    match m.pc.data
    case None =>
    case Some(p) =>
      SpreadStays(m.packets, cfg.maxPackets - m.packets, m.pc.k, m.nulls);
      hide SpreadNulls;
      DeliverPlace(slots, m.pc.k + n.nulls, p, o);
  }

  lemma SpreadStays(p: nat, z: nat, k: nat, nulls: nat)
    requires 1 <= p && nulls <= z
    ensures nulls <= SpreadNulls(p, z, k, nulls) <= z
  {
  }

  lemma SentKeepsBuffers(m: Mixing, amount: int)
    requires Owned(m)
    ensures Owned(m.(inputs := AddSent(m.inputs, amount)))
    ensures forall o :: Queue(m.(inputs := AddSent(m.inputs, amount)), o) == Queue(m, o)
  {
    var n := m.(inputs := AddSent(m.inputs, amount));
    forall j | 0 <= j < |n.inputs| ensures From(Channel(j), n.inputs[j].buf) {
      assert From(Channel(j), m.inputs[j].buf);
    }
  }

  lemma HeadConserves(cfg: Config, m: Mixing, slots: seq<Packet>, o: Origin)
    requires Tidy(cfg, m, slots) && m.pc.Head? && m.pc.k < m.packets && m.psi != []
    ensures var n := m.(psi := m.psi[1..], pc := Place(m.pc.k, Some(m.psi[0])));
            Tidy(cfg, n, slots) && Pending(n, slots, o) == Pending(m, slots, o)
  {
    hide Deliver;
    var n := m.(psi := m.psi[1..], pc := Place(m.pc.k, Some(m.psi[0])));
    DeliverHead(m.psi, o);
    assert m.psi[0].origin == Psi;
    assert InHand(n, o) == Payload(m.psi[0], o);
    assert Owned(n);
    Regroup(Deliver(slots, o), [], Payload(m.psi[0], o), Deliver(n.psi, o));
  }

  lemma TickConserves(cfg: Config, m: Mixing, slots: seq<Packet>, o: Origin)
    requires Tidy(cfg, m, slots)
    ensures var (n, written) := Tick(cfg, m, slots);
            Tidy(cfg, n, written) && Pending(n, written, o) == Pending(m, slots, o)
  {
    hide Deliver, VisitNext, PlacePacket;
    match m.pc
    case Sum(next, total) =>
      SentKeepsBuffers(m, cfg.maxPackets);
    case Head(k) =>
      if k < m.packets && m.psi != [] {
        HeadConserves(cfg, m, slots, o);
      }
    case Scan(k, left, polled) =>
      if left > 0 {
        VisitConserves(cfg, m, slots, o);
      }
    case Place(k, data) =>
      PlaceConserves(cfg, m, slots, o);
    case Done =>
  }

  /** The same for the thread on its own. */
  lemma {:induction false} TicksConserve(cfg: Config, m: Mixing, slots: seq<Packet>, n: nat, o: Origin)
    requires Tidy(cfg, m, slots)
    ensures var (r, written) := Ticks(cfg, m, slots, n);
            Tidy(cfg, r, written) && Pending(r, written, o) == Pending(m, slots, o)
  {
    hide Tick, Pending;
    if n > 0 {
      TicksConserve(cfg, m, slots, n - 1, o);
      var r := Ticks(cfg, m, slots, n - 1);
      TickConserves(cfg, r.0, r.1, o);
    }
  }

  /** Every packet of source `o` ever accepted is, in order, in a finished buffer, in the
      current one, in hand, or still queued. */
  predicate Conserved(c: Chain, o: Origin) {
    Deliver(c.arrived, o) == Deliver(c.done, o) + Pending(c.mix, c.slots, o)
  }

  lemma AcceptQueues(cfg: Config, m: Mixing, from: Origin, batch: seq<Packet>, o: Origin)
    requires Owned(m) && From(from, batch) && Fits(cfg, m, from, batch)
    ensures Owned(Accept(m, from, batch))
    ensures Deliver(Queue(Accept(m, from, batch), o), o) == Deliver(Queue(m, o), o) + Deliver(batch, o)
  {
    var n := Accept(m, from, batch);
    forall j | 0 <= j < |n.inputs| ensures From(Channel(j), n.inputs[j].buf) {
      assert From(Channel(j), m.inputs[j].buf);
    }
    if o == from {
      DeliverConcat(Queue(m, o), batch, o);
    } else {
      DeliverForeign(batch, from, o);
    }
  }

  lemma {:induction false} DeliverForeign(batch: seq<Packet>, from: Origin, o: Origin)
    requires From(from, batch) && from != o
    ensures Deliver(batch, o) == []
  {
    if batch != [] {
      DeliverForeign(batch[..|batch| - 1], from, o);
    }
  }

  lemma ArriveConserves(cfg: Config, c: Chain, from: Origin, batch: seq<Packet>, o: Origin)
    requires Tidy(cfg, c.mix, c.slots) && Conserved(c, o)
    requires From(from, batch) && Fits(cfg, c.mix, from, batch)
    ensures var m := Accept(c.mix, from, batch);
            && Tidy(cfg, m, c.slots)
            && Deliver(c.arrived + batch, o) == Deliver(c.done, o) + Pending(m, c.slots, o)
  {
    var m := Accept(c.mix, from, batch);
    AcceptQueues(cfg, c.mix, from, batch, o);
    DeliverConcat(c.arrived, batch, o);
    assert InHand(m, o) == InHand(c.mix, o);
    Regroup(Deliver(c.done, o), Deliver(c.slots, o) + InHand(m, o), Deliver(Queue(c.mix, o), o), Deliver(batch, o));
  }

  lemma Regroup(a: seq<Packet>, b: seq<Packet>, c: seq<Packet>, d: seq<Packet>)
    ensures (a + (b + c)) + d == a + (b + (c + d))
    ensures a + c + d == a + [] + (c + d)
  {
  }

  lemma BufferConserves(cfg: Config, m: Mixing, slots: seq<Packet>, o: Origin)
    requires Tidy(cfg, m, slots) && m.pc.Done?
    ensures var n, clean := m.(pc := Sum(0, 0)), Nulls(cfg.maxPackets);
            Tidy(cfg, n, clean) && Deliver(slots, o) + Pending(n, clean, o) == Pending(m, slots, o)
  {
    hide Deliver, Queue, Owned;
    var n, clean := m.(pc := Sum(0, 0)), Nulls(cfg.maxPackets);
    DeliverStuffing(clean, o);
    SameQueue(m, n, o);
    var queued := Deliver(Queue(m, o), o);
    assert Pending(n, clean, o) == queued;
    assert Pending(m, slots, o) == Deliver(slots, o) + queued;
  }

  lemma SameQueue(m: Mixing, n: Mixing, o: Origin)
    requires m.psi == n.psi && m.inputs == n.inputs
    ensures Queue(m, o) == Queue(n, o) && (Owned(m) <==> Owned(n))
  {
  }

  lemma NextConserves(cfg: Config, c: Chain, e: Event, o: Origin)
    requires Tidy(cfg, c.mix, c.slots) && Conserved(c, o)
    ensures var d := Next(cfg, c, e);
            Tidy(cfg, d.mix, d.slots) && Conserved(d, o)
  {
    hide Tick, Deliver, Pending, Tidy, Shaped;
    match e
    case Work =>
      TickConserves(cfg, c.mix, c.slots, o);
    case Arrive(from, batch) =>
      if From(from, batch) && Fits(cfg, c.mix, from, batch) {
        ArriveConserves(cfg, c, from, batch, o);
      }
    case NextBuffer =>
      if c.mix.pc.Done? {
        BufferConserves(cfg, c.mix, c.slots, o);
        DeliverConcat(c.done, c.slots, o);
        Regroup(Deliver(c.done, o), [], Deliver(c.slots, o),
                Pending(c.mix.(pc := Sum(0, 0)), Nulls(cfg.maxPackets), o));
      }
  }

  /** Conservation over every run of producers and mixer. */
  lemma {:induction false} RunConserves(cfg: Config, pids: seq<Pid>, run: seq<Event>, o: Origin)
    ensures var c := Run(cfg, Start(cfg, pids), run);
            Tidy(cfg, c.mix, c.slots) && Conserved(c, o)
  {
    if run == [] {
      DeliverStuffing(Nulls(cfg.maxPackets), o);
    } else {
      RunConserves(cfg, pids, run[..|run| - 1], o);
      NextConserves(cfg, Run(cfg, Start(cfg, pids), run[..|run| - 1]), run[|run| - 1], o);
    }
  }
}
