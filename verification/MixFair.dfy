/** The round robin over the inputs: who is asked next, and how long a ready input waits. */
module MixFair {
  import opened Ts
  import opened Mix

  /** How many inputs are asked before input `i` when the last one asked was at node `last`. */
  function Ahead(last: nat, i: nat, n: nat): nat
    requires i < n
  {
    var first := NextNode(last, n);
    if first <= i then i - first else i + n - first
  }

  /** The root is skipped: the nodes are asked in the cyclic order of the inputs. */
  lemma NextNodeIs(last: nat, n: nat)
    requires 0 < n && last <= n
    ensures NextNode(last, n) == if last + 1 < n then last + 1 else 0
  {
    if last < n {
      assert (last + 1) % (n + 1) == last + 1;
    }
  }

  /** Asking an input brings every other input one place nearer. */
  lemma AheadShrinks(last: nat, i: nat, n: nat)
    requires i < n && last <= n
    ensures var first := NextNode(last, n);
            if i == first then Ahead(last, i, n) == 0 && Ahead(first, i, n) == n - 1
            else Ahead(first, i, n) == Ahead(last, i, n) - 1
    ensures Ahead(last, i, n) <= n - 1
  {
    NextNodeIs(last, n);
    NextNodeIs(NextNode(last, n), n);
  }

  /** An input is ready when it would be served if asked: it has a packet that is neither
      padding nor a clock being held back. */
  predicate Ready(cfg: Config, r: InputState) {
    Visit(cfg, r).1.Picked?
  }

  /** The input that event `e` asks in state `c`, if any. */
  function Asked(c: Chain, e: Event): Option<nat> {
    if e == Work && c.mix.pc.Scan? && c.mix.pc.left > 0 && c.mix.inputs != []
    then Some(NextNode(c.mix.last, |c.mix.inputs|))
    else None
  }

  predicate OnList(m: Mixing) {
    m.last <= |m.inputs|
  }

  /** Waiting cannot make an input unready: time only lets held clocks go, and producers
      append behind the head. */
  lemma ReadyWaits(cfg: Config, r: InputState, more: seq<Packet>, slots: nat)
    requires Ready(cfg, r)
    ensures Ready(cfg, r.(buf := r.buf + more))
    ensures Ready(cfg, r.(sent := r.sent + slots))
  {
    assert (r.buf + more)[0] == r.buf[0];
  }

  lemma PlaceWaits(cfg: Config, m: Mixing, slots: seq<Packet>, i: nat)
    requires Shaped(cfg, m, slots) && m.pc.Place? && i < |m.inputs|
    ensures var n := PlacePacket(cfg, m, slots).0;
            && n.last == m.last && |n.inputs| == |m.inputs|
            && (n.inputs[i] == m.inputs[i] || n.inputs[i] == m.inputs[i].(sent := m.inputs[i].sent + 1))
  {
  }

  /** No event but asking input `i` takes its readiness away, moves it back in the order, or
      changes the number of inputs. */
  lemma WaitStep(cfg: Config, c: Chain, e: Event, i: nat)
    requires Shaped(cfg, c.mix, c.slots) && OnList(c.mix)
    requires i < |c.mix.inputs| && Ready(cfg, c.mix.inputs[i]) && Asked(c, e) != Some(i)
    ensures var d, n := Next(cfg, c, e), |c.mix.inputs|;
            && OnList(d.mix)
            && |d.mix.inputs| == n
            && Ready(cfg, d.mix.inputs[i])
            && Ahead(d.mix.last, i, n) == Ahead(c.mix.last, i, n) - if Asked(c, e).Some? then 1 else 0
  {
    hide Ahead, Visit, Tick;
    if e == Work {
      TickWaits(cfg, c.mix, c.slots, i);
    }
    ReadyWaits(cfg, c.mix.inputs[i], if e.Arrive? then e.batch else [], 0);
  }

  lemma TickWaits(cfg: Config, m: Mixing, slots: seq<Packet>, i: nat)
    requires Shaped(cfg, m, slots) && OnList(m)
    requires i < |m.inputs| && Ready(cfg, m.inputs[i])
    requires m.pc.Scan? && m.pc.left > 0 ==> NextNode(m.last, |m.inputs|) != i
    ensures var t, n := Tick(cfg, m, slots).0, |m.inputs|;
            && OnList(t)
            && |t.inputs| == n
            && Ready(cfg, t.inputs[i])
            && Ahead(t.last, i, n) == Ahead(m.last, i, n) - if m.pc.Scan? && m.pc.left > 0 then 1 else 0
  {
    ReadyWaits(cfg, m.inputs[i], [], 1);
    ReadyWaits(cfg, m.inputs[i], [], cfg.maxPackets);
    AheadShrinks(m.last, i, |m.inputs|);
    hide Ahead, Visit, PlacePacket;
    if m.pc.Place? {
      PlaceWaits(cfg, m, slots, i);
    }
  }

  /** The packets of other inputs picked during a run. */
  function Overtakes(cfg: Config, c: Chain, run: seq<Event>, i: nat): nat
    requires Shaped(cfg, c.mix, c.slots)
  {
    if run == [] then 0
    else
      var init, e := run[..|run| - 1], run[|run| - 1];
      var d := Run(cfg, c, init);
      Overtakes(cfg, c, init, i) +
      if Asked(d, e).Some? && Asked(d, e) != Some(i) && Next(cfg, d, e).mix.pc.Place? then 1 else 0
  }

  /** Input `i` is not asked during the run. */
  predicate Passed(cfg: Config, c: Chain, run: seq<Event>, i: nat)
    requires Shaped(cfg, c.mix, c.slots)
  {
    run == [] ||
    var init, e := run[..|run| - 1], run[|run| - 1];
    Passed(cfg, c, init, i) && Asked(Run(cfg, c, init), e) != Some(i)
  }

  lemma {:induction false} OvertakesBounded(cfg: Config, c: Chain, run: seq<Event>, i: nat)
    requires Shaped(cfg, c.mix, c.slots) && OnList(c.mix)
    requires i < |c.mix.inputs| && Ready(cfg, c.mix.inputs[i]) && Passed(cfg, c, run, i)
    ensures var d, n := Run(cfg, c, run), |c.mix.inputs|;
            && OnList(d.mix) && |d.mix.inputs| == n && Ready(cfg, d.mix.inputs[i])
            && Overtakes(cfg, c, run, i) + Ahead(d.mix.last, i, n) <= Ahead(c.mix.last, i, n)
  {
    if run != [] {
      var init, e := run[..|run| - 1], run[|run| - 1];
      OvertakesBounded(cfg, c, init, i);
      WaitStep(cfg, Run(cfg, c, init), e, i);
      hide Next, Ready, Ahead;
    }
  }

  /** Fairness: however the run goes, a ready input is asked before the other inputs have
      been served `n` times in total, and it is served when it is asked. */
  lemma ReadyInputIsServed(cfg: Config, c: Chain, run: seq<Event>, i: nat)
    requires Shaped(cfg, c.mix, c.slots) && OnList(c.mix)
    requires i < |c.mix.inputs| && Ready(cfg, c.mix.inputs[i]) && Passed(cfg, c, run, i)
    ensures Overtakes(cfg, c, run, i) <= |c.mix.inputs| - 1
    ensures var d := Run(cfg, c, run);
            Asked(d, Work) == Some(i) ==>
              && d.mix.inputs[i].buf != []
              && Next(cfg, d, Work).mix.pc == Place(d.mix.pc.k, Some(d.mix.inputs[i].buf[0]))
  {
    OvertakesBounded(cfg, c, run, i);
    AheadShrinks(c.mix.last, i, |c.mix.inputs|);
    var d := Run(cfg, c, run);
    if Asked(d, Work) == Some(i) {
      AskServes(cfg, d, i);
    }
  }

  lemma AskServes(cfg: Config, d: Chain, i: nat)
    requires Shaped(cfg, d.mix, d.slots) && Asked(d, Work) == Some(i) && Ready(cfg, d.mix.inputs[i])
    ensures d.mix.inputs[i].buf != []
    ensures Next(cfg, d, Work).mix.pc == Place(d.mix.pc.k, Some(d.mix.inputs[i].buf[0]))
  {
  }
}
