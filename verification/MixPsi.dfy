/** What the mixer takes first: the tables before the inputs, and everything that was waiting. */
module MixPsi {
  import opened Ts
  import opened Spread
  import opened Mix
  import opened MixConserve
  import opened MixBudget
  import opened MixRuns

  // ---- Tables go first

  /** The PSI queue at the beginning of the current iteration. */
  function PsiAtHead(cfg: Config, pids: seq<Pid>, run: seq<Event>): seq<Packet> {
    if run == [] then []
    else
      var init := run[..|run| - 1];
      var m := Run(cfg, Start(cfg, pids), init).mix;
      if run[|run| - 1] == Work && m.pc.Head? then m.psi else PsiAtHead(cfg, pids, init)
  }

  /** An iteration that asks the inputs, or that has a packet of one in hand, began with no table
      waiting; one that has a table in hand took the first one waiting. */
  predicate TablesFirst(m: Mixing, psi: seq<Packet>) {
    && (m.pc.Scan? ==> psi == [])
    && (m.pc.Place? ==>
          if psi == [] then m.pc.data.Some? ==> m.pc.data.value.origin.Channel?
          else m.pc.data == Some(psi[0]) && psi[0].origin == Psi)
  }

  lemma VisitTablesFirst(cfg: Config, m: Mixing, slots: seq<Packet>)
    requires Tidy(cfg, m, slots) && m.pc.Scan? && m.pc.left > 0
    ensures TablesFirst(VisitNext(cfg, m), [])
  {
    hide Visit;
    var i := NextNode(m.last, |m.inputs|);
    assert From(Channel(i), m.inputs[i].buf);
    VisitTakes(cfg, m.inputs[i]);
  }

  lemma NextTablesFirst(cfg: Config, c: Chain, e: Event, psi: seq<Packet>)
    requires Tidy(cfg, c.mix, c.slots) && TablesFirst(c.mix, psi)
    ensures TablesFirst(Next(cfg, c, e).mix, if e == Work && c.mix.pc.Head? then c.mix.psi else psi)
  {
    hide VisitNext, SpreadNulls, NullFrom;
    if e == Work && c.mix.pc.Scan? && c.mix.pc.left > 0 {
      VisitTablesFirst(cfg, c.mix, c.slots);
    }
  }

  /** Priority of the tables, over every run. */
  lemma {:induction false} TablesGoFirst(cfg: Config, pids: seq<Pid>, run: seq<Event>)
    ensures TablesFirst(Run(cfg, Start(cfg, pids), run).mix, PsiAtHead(cfg, pids, run))
  {
    if run != [] {
      var init := run[..|run| - 1];
      TablesGoFirst(cfg, pids, init);
      RunConserves(cfg, pids, init, Psi);
      NextTablesFirst(cfg, Run(cfg, Start(cfg, pids), init), run[|run| - 1], PsiAtHead(cfg, pids, init));
      hide Next, TablesFirst, Tidy;
    }
  }

  /** What the iterations that end in `run` put into their slots, one after another. */
  function Placed(cfg: Config, c: Chain, run: seq<Event>): seq<Option<Packet>>
    requires Shaped(cfg, c.mix, c.slots)
  {
    if run == [] then []
    else
      var init := run[..|run| - 1];
      var m := Run(cfg, c, init).mix;
      Placed(cfg, c, init) + if run[|run| - 1] == Work && m.pc.Place? then [m.pc.data] else []
  }

  /** After `n` iterations the first `n` tables are gone, and the next one is taken next. */
  predicate Queued(m: Mixing, psi: seq<Packet>, n: nat) {
    n < |psi| ==>
      && !m.pc.Scan?
      && if m.pc.Place? then m.pc.data == Some(psi[n]) && psi[n + 1..] <= m.psi else psi[n..] <= m.psi
  }

  lemma NextQueued(cfg: Config, c: Chain, e: Event, psi: seq<Packet>, n: nat)
    requires Tidy(cfg, c.mix, c.slots) && Queued(c.mix, psi, n)
    ensures Queued(Next(cfg, c, e).mix, psi, n + if e == Work && c.mix.pc.Place? then 1 else 0)
    ensures e == Work && c.mix.pc.Place? && n < |psi| ==> c.mix.pc.data == Some(psi[n])
  {
    hide VisitNext, SpreadNulls, NullFrom, Owned;
    if n < |psi| && !c.mix.pc.Scan? {
      if !c.mix.pc.Place? {
        assert psi[n..][0] == psi[n] && psi[n..][1..] == psi[n + 1..];
      }
      if e.Arrive? {
        var d := Next(cfg, c, e);
        assert c.mix.psi <= d.mix.psi;
      }
    }
  }

  lemma {:induction false} RunQueued(cfg: Config, pids: seq<Pid>, before: seq<Event>, run: seq<Event>)
    requires !Run(cfg, Start(cfg, pids), before).mix.pc.Scan? && !Run(cfg, Start(cfg, pids), before).mix.pc.Place?
    ensures var c := Run(cfg, Start(cfg, pids), before);
            var placed, psi := Placed(cfg, c, run), c.mix.psi;
            && Queued(Run(cfg, c, run).mix, psi, |placed|)
            && forall n :: 0 <= n < |placed| && n < |psi| ==> placed[n] == Some(psi[n])
  {
    hide Next, Queued, Tidy, Start;
    var c := Run(cfg, Start(cfg, pids), before);
    if run == [] {
      NoneQueued(c.mix);
    } else {
      var init := run[..|run| - 1];
      RunQueued(cfg, pids, before, init);
      RunConcat(cfg, Start(cfg, pids), before, init);
      RunConserves(cfg, pids, before + init, Psi);
      NextQueued(cfg, Run(cfg, c, init), run[|run| - 1], c.mix.psi, |Placed(cfg, c, init)|);
    }
  }

  lemma NoneQueued(m: Mixing)
    requires !m.pc.Scan? && !m.pc.Place?
    ensures Queued(m, m.psi, 0)
  {
    assert m.psi[0..] == m.psi;
  }

  /** A table with `n` others before it goes into the slot of the iteration that ends `n + 1`st,
      whatever the inputs offer, in this buffer or the next. */
  lemma TableIsPlaced(cfg: Config, pids: seq<Pid>, before: seq<Event>, run: seq<Event>, n: nat)
    requires !Run(cfg, Start(cfg, pids), before).mix.pc.Scan? && !Run(cfg, Start(cfg, pids), before).mix.pc.Place?
    requires var c := Run(cfg, Start(cfg, pids), before); n < |c.mix.psi| && n < |Placed(cfg, c, run)|
    ensures var c := Run(cfg, Start(cfg, pids), before);
            Placed(cfg, c, run)[n] == Some(c.mix.psi[n])
  {
    RunQueued(cfg, pids, before, run);
  }

  // ---- Everything that waits is budgeted

  /** The queues of `c` are still there, each with more behind it perhaps. */
  predicate Longer(c: Mixing, d: Mixing) {
    && |d.psi| >= |c.psi| && |d.inputs| == |c.inputs|
    && forall i :: 0 <= i < |c.inputs| ==> |d.inputs[i].buf| >= |c.inputs[i].buf|
  }

  /** What waited at `c` in the first `next` queues. */
  function WaitedIn(c: Mixing, next: nat): nat
    requires next <= |c.inputs| + 1
  {
    if next == 0 then 0 else |c.psi| + Waiting(c.inputs[..next - 1])
  }

  /** Since `c` the thread has summed up at least what waited then. */
  predicate Summed(cfg: Config, c: Mixing, d: Mixing) {
    if d.pc.Sum?
    then Longer(c, d) && d.pc.next <= |c.inputs| + 1 && d.pc.total >= WaitedIn(c, d.pc.next)
    else d.packets >= if Available(c) < cfg.maxPackets then Available(c) else cfg.maxPackets
  }

  lemma NextSummed(cfg: Config, c: Mixing, d: Chain, e: Event)
    requires Shaped(cfg, d.mix, d.slots) && Summed(cfg, c, d.mix) && e != NextBuffer
    ensures Summed(cfg, c, Next(cfg, d, e).mix)
  {
    hide Visit, SpreadNulls, Waiting;
    if e == Work && d.mix.pc.Sum? {
      var next := d.mix.pc.next;
      if next == 0 {
        NoneWaiting();
        assert c.inputs[..0] == [];
      } else if next <= |c.inputs| {
        WaitingPrefix(c.inputs, next - 1);
      } else {
        assert c.inputs[..next - 1] == c.inputs;
      }
    }
  }

  lemma NoneWaiting()
    ensures Waiting([]) == 0
  {
  }

  lemma {:induction false} RunSummed(cfg: Config, c: Chain, run: seq<Event>)
    requires Shaped(cfg, c.mix, c.slots) && c.mix.pc == Sum(0, 0) && WithinFill(run)
    ensures Summed(cfg, c.mix, Run(cfg, c, run).mix)
  {
    if run != [] {
      var init := run[..|run| - 1];
      RunSummed(cfg, c, init);
      NextSummed(cfg, c.mix, Run(cfg, c, init), run[|run| - 1]);
      hide Next, Summed;
    }
  }

  /** The budget of a buffer: all that waited when the thread began to sum up, or a whole buffer;
      and, with no padding about, no more than is there when the loop begins. */
  lemma BudgetIs(cfg: Config, pids: seq<Pid>, before: seq<Event>, run: seq<Event>)
    requires Run(cfg, Start(cfg, pids), before).mix.pc == Sum(0, 0) && WithinFill(run)
    requires Run(cfg, Run(cfg, Start(cfg, pids), before), run).mix.pc == Head(0)
    ensures var c := Run(cfg, Start(cfg, pids), before);
            var d := Run(cfg, c, run);
            var waited := Available(c.mix);
            && (if waited < cfg.maxPackets then waited else cfg.maxPackets) <= d.mix.packets <= cfg.maxPackets
            && (CleanRun(before) && CleanRun(run) ==> d.mix.packets <= Available(d.mix))
  {
    var c := Run(cfg, Start(cfg, pids), before);
    RunSummed(cfg, c, run);
    if CleanRun(before) && CleanRun(run) {
      StartBudgeted(cfg, pids);
      RunCovered(cfg, Start(cfg, pids), before);
      RunCovered(cfg, c, run);
    }
  }
}
