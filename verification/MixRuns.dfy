/** Runs put together, and runs in which the mixing thread works alone. */
module MixRuns {
  import opened Ts
  import opened Spread
  import opened Mix

  lemma {:induction false} TicksCompose(cfg: Config, m: Mixing, slots: seq<Packet>, a: nat, b: nat)
    requires Shaped(cfg, m, slots)
    ensures var r := Ticks(cfg, m, slots, a);
            Ticks(cfg, m, slots, a + b) == Ticks(cfg, r.0, r.1, b)
  {
    hide Tick, Shaped;
    if b > 0 {
      TicksCompose(cfg, m, slots, a, b - 1);
    }
  }

  lemma TicksNone(cfg: Config, m: Mixing, slots: seq<Packet>)
    requires Shaped(cfg, m, slots)
    ensures Ticks(cfg, m, slots, 0) == (m, slots)
  {
  }

  lemma TicksOne(cfg: Config, m: Mixing, slots: seq<Packet>)
    requires Shaped(cfg, m, slots)
    ensures Ticks(cfg, m, slots, 1) == Tick(cfg, m, slots)
  {
    hide Tick;
    assert Ticks(cfg, m, slots, 0) == (m, slots);
  }

  /** A run of ticks by way of a known state. */
  lemma TicksVia(cfg: Config, m: Mixing, slots: seq<Packet>, a: nat, n: Mixing, between: seq<Packet>, b: nat)
    requires Shaped(cfg, m, slots) && Ticks(cfg, m, slots, a) == (n, between)
    ensures Shaped(cfg, n, between) && Ticks(cfg, m, slots, a + b) == Ticks(cfg, n, between, b)
  {
    TicksCompose(cfg, m, slots, a, b);
  }

  lemma {:induction false} RunConcat(cfg: Config, c: Chain, a: seq<Event>, b: seq<Event>)
    requires Shaped(cfg, c.mix, c.slots)
    ensures Run(cfg, c, a + b) == Run(cfg, Run(cfg, c, a), b)
  {
    hide Next, Shaped;
    if b == [] {
      assert a + b == a;
    } else {
      RunConcat(cfg, c, a, b[..|b| - 1]);
      assert (a + b)[..|a + b| - 1] == a + b[..|b| - 1];
    }
  }

  lemma RunTwo(cfg: Config, c: Chain, a: Event, b: Event)
    requires Shaped(cfg, c.mix, c.slots)
    ensures Run(cfg, c, [a, b]) == Next(cfg, Next(cfg, c, a), b)
  {
    hide Next, Shaped;
    assert [a, b][..1] == [a] && [a][..0] == [];
    assert Run(cfg, c, []) == c;
    assert Run(cfg, c, [a]) == Next(cfg, c, a);
  }

  /** A single packet arrives at an input. */
  lemma ArrivesOne(cfg: Config, c: Chain, i: nat, p: Packet)
    requires Shaped(cfg, c.mix, c.slots) && i < |c.mix.inputs| && p.origin == Channel(i)
    requires |c.mix.inputs[i].buf| < cfg.inputRoom
    ensures var r := c.mix.inputs[i];
            Next(cfg, c, Arrive(Channel(i), [p])) ==
            c.(mix := c.mix.(inputs := c.mix.inputs[i := r.(buf := r.buf + [p])]), arrived := c.arrived + [p])
  {
  }

  function Alone(n: nat): (run: seq<Event>)
    ensures |run| == n && forall i :: 0 <= i < n ==> run[i] == Work
  {
    seq(n, i => Work)
  }

  /** Steps of the thread alone are ticks. */
  lemma {:induction false} RunAlone(cfg: Config, c: Chain, n: nat)
    requires Shaped(cfg, c.mix, c.slots)
    ensures var r := Ticks(cfg, c.mix, c.slots, n);
            Run(cfg, c, Alone(n)) == c.(mix := r.0, slots := r.1)
  {
    hide Tick, Shaped;
    if n > 0 {
      RunAlone(cfg, c, n - 1);
      assert Alone(n)[..n - 1] == Alone(n - 1);
    }
  }

  // ---- A single input

  /** The start of a run: one input, to which `batch` arrives before the thread does anything. */
  function Fed(cfg: Config, pid: Pid, batch: seq<Packet>): (c: Chain)
    ensures Shaped(cfg, c.mix, c.slots)
  {
    Next(cfg, Start(cfg, [pid]), Arrive(Channel(0), batch))
  }

  /** The state at the top of iteration `k`, with one input. */
  function AtHead(r: InputState, packets: nat, nulls: nat, k: nat): Mixing {
    Mixing([], [r], 0, packets, nulls, Head(k))
  }

  lemma FedStarts(cfg: Config, pid: Pid, batch: seq<Packet>)
    requires From(Channel(0), batch) && 0 < |batch| <= cfg.inputRoom && cfg.maxPackets > 0
    ensures var c := Fed(cfg, pid, batch);
            && c.done == [] && c.slots == Nulls(cfg.maxPackets) && c.arrived == batch
            && Ticks(cfg, c.mix, c.slots, 3) ==
               (AtHead(FreshInput(pid).(buf := batch), if |batch| < cfg.maxPackets then |batch| else cfg.maxPackets,
                       0, 0), c.slots)
  {
    var r := FreshInput(pid).(buf := batch);
    var c := Fed(cfg, pid, batch);
    assert FreshInputs([pid]) == [FreshInput(pid)];
    assert [] + batch == batch && [FreshInput(pid)][0 := r] == [r];
    assert c.mix == Mixing([], [r], 0, 0, 0, Sum(0, 0));
    hide Next, Ticks;
    SumsUp(cfg, r, 0, 0, c.slots);
  }

  /** The packets of one input are summed up. */
  lemma SumsUp(cfg: Config, r: InputState, packets: nat, nulls: nat, slots: seq<Packet>)
    requires |slots| == cfg.maxPackets > 0 && packets <= cfg.maxPackets && r.buf != []
    ensures var budget := if |r.buf| < cfg.maxPackets then |r.buf| else cfg.maxPackets;
            Ticks(cfg, Mixing([], [r], 0, packets, nulls, Sum(0, 0)), slots, 3) == (AtHead(r, budget, 0, 0), slots)
  {
    var m := Mixing([], [r], 0, packets, nulls, Sum(0, 0));
    assert Ticks(cfg, m, slots, 0) == (m, slots);
    assert Ticks(cfg, m, slots, 1) == (m.(pc := Sum(1, 0)), slots);
    assert Ticks(cfg, m, slots, 2) == (m.(pc := Sum(2, |r.buf|)), slots);
  }

  /** A run with one input that is fed `batch` and served for `n` steps of its fill. */
  lemma RunFed(cfg: Config, pid: Pid, batch: seq<Packet>, n: nat)
    requires From(Channel(0), batch) && 0 < |batch| <= cfg.inputRoom && cfg.maxPackets > 0
    ensures var packets := if |batch| < cfg.maxPackets then |batch| else cfg.maxPackets;
            var r := Ticks(cfg, AtHead(FreshInput(pid).(buf := batch), packets, 0, 0), Nulls(cfg.maxPackets), n);
            Run(cfg, Start(cfg, [pid]), [Arrive(Channel(0), batch)] + Alone(3 + n)) == Chain(r.0, r.1, [], batch)
  {
    var c, e := Fed(cfg, pid, batch), Arrive(Channel(0), batch);
    FedStarts(cfg, pid, batch);
    assert [e][..0] == [] && Run(cfg, Start(cfg, [pid]), [e]) == c;
    hide Run, Ticks, Next, Fed;
    RunConcat(cfg, Start(cfg, [pid]), [e], Alone(3 + n));
    RunAlone(cfg, c, 3 + n);
    TicksCompose(cfg, c.mix, c.slots, 3, n);
  }

  /** An iteration that serves the input. */
  lemma ServesOne(cfg: Config, r: InputState, s: InputState, p: Packet, packets: nat, nulls: nat, k: nat,
                  slots: seq<Packet>)
    requires |slots| == cfg.maxPackets && k < packets <= cfg.maxPackets
    requires Visit(cfg, r) == (s, Picked(p))
    requires k + SpreadNulls(packets, cfg.maxPackets - packets, k, nulls) < cfg.maxPackets
    ensures var after := SpreadNulls(packets, cfg.maxPackets - packets, k, nulls);
            Ticks(cfg, AtHead(r, packets, nulls, k), slots, 3) ==
            (AtHead(s.(sent := s.sent + 1), packets, after, k + 1), slots[k + after := p])
  {
    hide Visit, SpreadNulls;
    var m := AtHead(r, packets, nulls, k);
    assert Ticks(cfg, m, slots, 0) == (m, slots);
    assert Ticks(cfg, m, slots, 1) == (m.(pc := Scan(k, 1, 0)), slots);
    assert [r][0 := s] == [s];
    var placing := m.(inputs := [s], pc := Place(k, Some(p)));
    assert NextNode(0, 1) == 0;
    assert Ticks(cfg, m, slots, 2) == (placing, slots);
    assert AddSent([s], 1) == [s.(sent := s.sent + 1)];
  }

  /** An iteration in which the input's clock is held back. */
  lemma HoldsOne(cfg: Config, r: InputState, s: InputState, packets: nat, nulls: nat, k: nat, slots: seq<Packet>)
    requires |slots| == cfg.maxPackets && k < packets <= cfg.maxPackets && Visit(cfg, r) == (s, Held)
    ensures Ticks(cfg, AtHead(r, packets, nulls, k), slots, 4) ==
            (AtHead(s.(sent := s.sent + 1), packets, nulls, k + 1), slots)
  {
    hide Visit, SpreadNulls;
    var m := AtHead(r, packets, nulls, k);
    assert Ticks(cfg, m, slots, 0) == (m, slots);
    assert Ticks(cfg, m, slots, 1) == (m.(pc := Scan(k, 1, 0)), slots);
    assert [r][0 := s] == [s];
    assert NextNode(0, 1) == 0;
    assert Ticks(cfg, m, slots, 2) == (m.(inputs := [s], pc := Scan(k, 0, 1)), slots);
    assert Ticks(cfg, m, slots, 3) == (m.(inputs := [s], pc := Place(k, None)), slots);
    assert AddSent([s], 1) == [s.(sent := s.sent + 1)];
  }
}
