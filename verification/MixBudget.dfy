/** The packet budget of a buffer is always covered: the fill loop never has to retry, and
    ends after exactly the budgeted number of iterations. */
module MixBudget {
  import opened Ts
  import opened Spread
  import opened Mix
  import opened MixConserve
  import opened MixFair

  // ---- Packets waiting

  function Waiting(inputs: seq<InputState>): nat {
    if inputs == [] then 0 else Waiting(inputs[..|inputs| - 1]) + |inputs[|inputs| - 1].buf|
  }

  function Available(m: Mixing): nat {
    |m.psi| + Waiting(m.inputs)
  }

  lemma {:induction false} WaitingUpdate(inputs: seq<InputState>, i: nat, r: InputState)
    requires i < |inputs|
    ensures Waiting(inputs[i := r]) == Waiting(inputs) - |inputs[i].buf| + |r.buf|
  {
    var last := |inputs| - 1;
    if i < last {
      WaitingUpdate(inputs[..last], i, r);
      assert inputs[i := r][..last] == inputs[..last][i := r];
    } else {
      assert inputs[i := r][..last] == inputs[..last];
    }
  }

  lemma {:induction false} WaitingSent(inputs: seq<InputState>, amount: int)
    ensures Waiting(AddSent(inputs, amount)) == Waiting(inputs)
  {
    if inputs != [] {
      var init := inputs[..|inputs| - 1];
      WaitingSent(init, amount);
      assert AddSent(inputs, amount)[..|inputs| - 1] == AddSent(init, amount);
    }
  }

  lemma {:induction false} WaitingPrefix(inputs: seq<InputState>, k: nat)
    requires k < |inputs|
    ensures Waiting(inputs[..k + 1]) == Waiting(inputs[..k]) + |inputs[k].buf|
    ensures Waiting(inputs[..k + 1]) <= Waiting(inputs)
    decreases |inputs|
  {
    assert inputs[..k + 1][..k] == inputs[..k];
    if k + 1 < |inputs| {
      WaitingPrefix(inputs[..|inputs| - 1], k);
      assert inputs[..|inputs| - 1][..k + 1] == inputs[..k + 1];
      assert inputs[..|inputs| - 1][..k] == inputs[..k];
    } else {
      assert inputs[..k + 1] == inputs;
    }
  }

  lemma {:induction false} SomeoneWaits(inputs: seq<InputState>) returns (i: nat)
    requires Waiting(inputs) > 0
    ensures i < |inputs| && inputs[i].buf != []
  {
    if inputs[|inputs| - 1].buf != [] {
      i := |inputs| - 1;
    } else {
      i := SomeoneWaits(inputs[..|inputs| - 1]);
    }
  }

  // ---- The invariant

  predicate NoPadding(batch: seq<Packet>) {
    forall i :: 0 <= i < |batch| ==> batch[i].pid < NULL_PID
  }

  predicate Clean(m: Mixing) {
    forall i :: 0 <= i < |m.inputs| ==> NoPadding(m.inputs[i].buf)
  }

  /** An input with a packet is among the `left` still to be asked. */
  predicate Reachable(m: Mixing, left: nat, i: nat) {
    i < |m.inputs| && m.inputs[i].buf != [] && Ahead(m.last, i, |m.inputs|) < left
  }

  /** What has been counted is there, and stays there, until an iteration takes it. */
  ghost predicate Covered(m: Mixing) {
    match m.pc
    case Sum(next, total) =>
      && next <= |m.inputs| + 1
      && (next == 0 ==> total == 0)
      && (next > 0 ==> total <= |m.psi| + Waiting(m.inputs[..next - 1]))
    case Head(k) => Available(m) + k >= m.packets && k <= m.packets
    case Scan(k, left, polled) =>
      && Available(m) + k >= m.packets
      && (polled == 0 ==> exists i :: Reachable(m, left, i))
    case Place(k, data) => Available(m) + k + (if data.Some? then 1 else 0) >= m.packets
    case Done => true
  }

  ghost predicate Budgeted(cfg: Config, m: Mixing, slots: seq<Packet>) {
    Tidy(cfg, m, slots) && OnList(m) && Clean(m) && Covered(m)
  }

  lemma ScanStarts(m: Mixing)
    requires OnList(m) && m.psi == [] && Available(m) > 0
    ensures exists i :: Reachable(m, |m.inputs|, i)
  {
    var i := SomeoneWaits(m.inputs);
    AheadShrinks(m.last, i, |m.inputs|);
    assert Reachable(m, |m.inputs|, i);
  }

  /** The retry branch (`read_count == 0`) cannot be taken. */
  lemma NeverRetries(m: Mixing)
    requires Covered(m)
    ensures !(m.pc.Scan? && m.pc.left == 0 && m.pc.polled == 0)
  {
  }

  lemma VisitCovered(cfg: Config, m: Mixing, slots: seq<Packet>)
    requires Budgeted(cfg, m, slots) && m.pc.Scan? && m.pc.left > 0
    ensures OnList(VisitNext(cfg, m)) && Clean(VisitNext(cfg, m)) && Covered(VisitNext(cfg, m))
  {
    var n := |m.inputs|;
    var i := NextNode(m.last, n);
    var r := m.inputs[i];
    var (s, verdict) := Visit(cfg, r);
    VisitTakes(cfg, r);
    WaitingUpdate(m.inputs, i, s);
    assert NoPadding(r.buf);
    assert NoPadding(s.buf);
    assert verdict == Silent ==> r.buf == [];
    assert verdict != Padding;
    var v := VisitNext(cfg, m);
    assert Clean(v) by {
      forall j | 0 <= j < n ensures NoPadding(v.inputs[j].buf) {
        assert NoPadding(m.inputs[j].buf);
      }
    }
    if verdict == Silent && m.pc.polled == 0 {
      var j :| Reachable(m, m.pc.left, j);
      AheadShrinks(m.last, j, n);
      assert Reachable(v, m.pc.left - 1, j);
    }
    hide Visit;
  }

  lemma SumCovered(cfg: Config, m: Mixing, slots: seq<Packet>)
    requires Budgeted(cfg, m, slots) && m.pc.Sum?
    ensures var n := Tick(cfg, m, slots).0; OnList(n) && Clean(n) && Covered(n)
  {
    var next := m.pc.next;
    if next == 0 {
      assert Waiting(m.inputs[..0]) == 0;
    } else if next <= |m.inputs| {
      WaitingPrefix(m.inputs, next - 1);
    } else {
      assert m.inputs[..next - 1] == m.inputs;
      CleanSent(m, cfg.maxPackets);
    }
  }

  lemma CleanSent(m: Mixing, amount: int)
    requires Clean(m)
    ensures Clean(m.(inputs := AddSent(m.inputs, amount)))
    ensures Available(m.(inputs := AddSent(m.inputs, amount))) == Available(m)
  {
    WaitingSent(m.inputs, amount);
    forall j | 0 <= j < |m.inputs| ensures NoPadding(AddSent(m.inputs, amount)[j].buf) {
      assert NoPadding(m.inputs[j].buf);
    }
  }

  lemma PlaceCovered(cfg: Config, m: Mixing, slots: seq<Packet>)
    requires Budgeted(cfg, m, slots) && m.pc.Place?
    ensures var n := PlacePacket(cfg, m, slots).0; OnList(n) && Clean(n) && Covered(n)
  {
    CleanSent(m, 1);
    PlaceConserves(cfg, m, slots, Psi);
    hide SpreadNulls;
  }

  lemma TickCovered(cfg: Config, m: Mixing, slots: seq<Packet>)
    requires Budgeted(cfg, m, slots)
    ensures var (n, written) := Tick(cfg, m, slots); Budgeted(cfg, n, written)
  {
    TickConserves(cfg, m, slots, Psi);
    hide Tidy, VisitNext, PlacePacket;
    match m.pc
    case Sum(next, total) => SumCovered(cfg, m, slots);
    case Head(k) =>
      if k < m.packets && m.psi == [] {
        ScanStarts(m);
        var i :| Reachable(m, |m.inputs|, i);
        assert Reachable(m.(pc := Scan(k, |m.inputs|, 0)), |m.inputs|, i);
      }
    case Scan(k, left, polled) =>
      NeverRetries(m);
      if left > 0 {
        VisitCovered(cfg, m, slots);
      }
    case Place(k, data) => PlaceCovered(cfg, m, slots);
    case Done =>
  }

  // ---- Every run

  predicate CleanEvent(e: Event) {
    e.Arrive? ==> NoPadding(e.batch)
  }

  /** No producer offers padding; the admission rules of the inputs see to that. */
  predicate CleanRun(run: seq<Event>) {
    forall i :: 0 <= i < |run| ==> CleanEvent(run[i])
  }

  lemma ArriveCovered(cfg: Config, m: Mixing, slots: seq<Packet>, o: Origin, batch: seq<Packet>)
    requires Budgeted(cfg, m, slots)
    requires From(o, batch) && Fits(cfg, m, o, batch) && NoPadding(batch)
    ensures Budgeted(cfg, Accept(m, o, batch), slots)
  {
    var n := Accept(m, o, batch);
    AcceptQueues(cfg, m, o, batch, Psi);
    assert Tidy(cfg, n, slots);
    hide Tidy;
    if o.Channel? {
      InputGrows(m, o.index, batch);
    } else if m.pc.Scan? && m.pc.polled == 0 {
      var j :| Reachable(m, m.pc.left, j);
      assert Reachable(n, m.pc.left, j);
    }
  }

  lemma InputGrows(m: Mixing, i: nat, batch: seq<Packet>)
    requires Covered(m) && Clean(m) && i < |m.inputs| && NoPadding(batch)
    ensures Covered(Accept(m, Channel(i), batch)) && Clean(Accept(m, Channel(i), batch))
  {
    var n := Accept(m, Channel(i), batch);
    WaitingUpdate(m.inputs, i, n.inputs[i]);
    forall j | 0 <= j < |n.inputs| ensures NoPadding(n.inputs[j].buf) {
      assert NoPadding(m.inputs[j].buf);
    }
    if m.pc.Sum? && m.pc.next > 0 {
      PrefixGrows(m.inputs, i, n.inputs[i], m.pc.next - 1);
    }
    if m.pc.Scan? && m.pc.polled == 0 {
      var j :| Reachable(m, m.pc.left, j);
      assert Reachable(n, m.pc.left, j);
    }
  }

  lemma PrefixGrows(inputs: seq<InputState>, i: nat, r: InputState, k: nat)
    requires i < |inputs| && k <= |inputs| && |r.buf| >= |inputs[i].buf|
    ensures Waiting(inputs[i := r][..k]) >= Waiting(inputs[..k])
  {
    if i < k {
      assert inputs[i := r][..k] == inputs[..k][i := r];
      WaitingUpdate(inputs[..k], i, r);
    } else {
      assert inputs[i := r][..k] == inputs[..k];
    }
  }

  lemma NextCovered(cfg: Config, c: Chain, e: Event)
    requires Budgeted(cfg, c.mix, c.slots) && CleanEvent(e)
    ensures var d := Next(cfg, c, e); Budgeted(cfg, d.mix, d.slots)
  {
    match e
    case Work =>
      TickCovered(cfg, c.mix, c.slots);
    case Arrive(o, batch) =>
      if From(o, batch) && Fits(cfg, c.mix, o, batch) {
        ArriveCovered(cfg, c.mix, c.slots, o, batch);
      }
    case NextBuffer =>
      assert Waiting(c.mix.inputs[..0]) == 0;
  }

  /** Budgeted states are closed under every interleaving with well-behaved producers. */
  lemma {:induction false} RunCovered(cfg: Config, c: Chain, run: seq<Event>)
    requires Budgeted(cfg, c.mix, c.slots) && CleanRun(run)
    ensures var d := Run(cfg, c, run); Budgeted(cfg, d.mix, d.slots)
  {
    if run != [] {
      RunCovered(cfg, c, run[..|run| - 1]);
      NextCovered(cfg, Run(cfg, c, run[..|run| - 1]), run[|run| - 1]);
    }
  }

  lemma StartBudgeted(cfg: Config, pids: seq<Pid>)
    ensures var c := Start(cfg, pids); Budgeted(cfg, c.mix, c.slots)
  {
    var c := Start(cfg, pids);
    forall j | 0 <= j < |c.mix.inputs| ensures NoPadding(c.mix.inputs[j].buf) {
    }
  }

  // ---- The length of a fill

  /** `rounds * (n + 4)`: an iteration over `n` inputs takes at most `n + 4` steps. */
  function Rounds(rounds: nat, n: nat): nat {
    if rounds == 0 then 0 else Rounds(rounds - 1, n) + n + 4
  }

  lemma {:induction false} RoundsGrow(a: nat, b: nat, n: nat)
    requires a <= b
    ensures Rounds(a, n) <= Rounds(b, n)
  {
    if a < b {
      RoundsGrow(a, b - 1, n);
    }
  }

  function IterationsLeft(m: Mixing): nat {
    if m.pc.Sum? || m.pc.Done? || m.pc.k >= m.packets then 0 else m.packets - m.pc.k
  }

  /** An upper bound on the steps the thread still needs for the current buffer. */
  function Steps(cfg: Config, m: Mixing): nat {
    var n := |m.inputs|;
    var later := if IterationsLeft(m) == 0 then 0 else Rounds(IterationsLeft(m) - 1, n);
    match m.pc
    case Sum(next, _) => Rounds(cfg.maxPackets, n) + 2 + if next <= n + 1 then n + 2 - next else 0
    case Head(k) => Rounds(IterationsLeft(m), n) + 1
    case Scan(k, left, _) => later + 3 + left
    case Place(k, _) => later + 2
    case Done => 0
  }

  lemma VisitProgresses(cfg: Config, m: Mixing)
    requires m.pc.Scan? && m.pc.left > 0 && m.inputs != [] && m.pc.k < m.packets
    ensures Steps(cfg, VisitNext(cfg, m)) < Steps(cfg, m)
  {
    hide Visit, Rounds;
  }

  lemma PlaceProgresses(cfg: Config, m: Mixing, slots: seq<Packet>)
    requires Tidy(cfg, m, slots) && m.pc.Place?
    ensures var n := PlacePacket(cfg, m, slots).0; Steps(cfg, n) < Steps(cfg, m) && n.pc == Head(m.pc.k + 1)
  {
    PlaceConserves(cfg, m, slots, Psi);
    hide Tidy, SpreadNulls;
  }

  lemma StartProgresses(cfg: Config, m: Mixing)
    requires m.pc.Sum?
    ensures Steps(cfg, StartFill(cfg, m, m.pc.total)) <= Rounds(cfg.maxPackets, |m.inputs|) + 1
  {
    RoundsGrow(StartFill(cfg, m, m.pc.total).packets, cfg.maxPackets, |m.inputs|);
  }

  /** Every step of the thread brings the end of the fill nearer, and a placement ends its
      iteration. */
  lemma TickProgresses(cfg: Config, m: Mixing, slots: seq<Packet>)
    requires Budgeted(cfg, m, slots) && !m.pc.Done?
    ensures var n := Tick(cfg, m, slots).0;
            && Steps(cfg, n) < Steps(cfg, m)
            && (m.pc.Place? ==> n.pc == Head(m.pc.k + 1))
  {
    NeverRetries(m);
    hide VisitNext, PlacePacket, StartFill, Tidy;
    match m.pc
    case Sum(_, _) => StartProgresses(cfg, m);
    case Place(_, _) => PlaceProgresses(cfg, m, slots);
    case Scan(_, left, _) =>
      if left > 0 {
        VisitProgresses(cfg, m);
      }
    case _ =>
  }

  /** The same for the thread on its own: no state comes back. */
  lemma {:induction false} TicksProgress(cfg: Config, m: Mixing, slots: seq<Packet>, n: nat)
    requires Budgeted(cfg, m, slots)
    ensures var r := Ticks(cfg, m, slots, n);
            Budgeted(cfg, r.0, r.1) && (!r.0.pc.Done? ==> Steps(cfg, r.0) + n <= Steps(cfg, m))
  {
    hide Tick, Steps, Covered, Clean;
    if n > 0 {
      TicksProgress(cfg, m, slots, n - 1);
      var r := Ticks(cfg, m, slots, n - 1);
      TickCovered(cfg, r.0, r.1);
      if r.0.pc.Done? {
        DoneStays(cfg, r.0, r.1);
      } else {
        TickProgresses(cfg, r.0, r.1);
      }
    }
  }

  lemma DoneStays(cfg: Config, m: Mixing, slots: seq<Packet>)
    requires Shaped(cfg, m, slots) && m.pc.Done?
    ensures Tick(cfg, m, slots) == (m, slots)
  {
  }

  /** A thread that comes back to the same place had not covered its budget. */
  lemma ComingBackUncovers(cfg: Config, m: Mixing, slots: seq<Packet>, n: nat)
    requires Shaped(cfg, m, slots) && n > 0 && !m.pc.Done?
    requires var r := Ticks(cfg, m, slots, n).0;
             r.pc == m.pc && r.packets == m.packets && |r.inputs| == |m.inputs|
    ensures !Budgeted(cfg, m, slots)
  {
    hide Ticks, Budgeted;
    if Budgeted(cfg, m, slots) {
      TicksProgress(cfg, m, slots, n);
      assert false;
    }
  }

  predicate WithinFill(run: seq<Event>) {
    NextBuffer !in run
  }

  /** The steps of the mixing thread in a run, and those that end an iteration. */
  function Works(run: seq<Event>): nat {
    if run == [] then 0 else Works(run[..|run| - 1]) + if run[|run| - 1] == Work then 1 else 0
  }

  function Iterations(cfg: Config, c: Chain, run: seq<Event>): nat
    requires Shaped(cfg, c.mix, c.slots)
  {
    if run == [] then 0
    else
      var init := run[..|run| - 1];
      Iterations(cfg, c, init) +
      if run[|run| - 1] == Work && Run(cfg, c, init).mix.pc.Place? then 1 else 0
  }

  /** `count` iterations of the fill that budgeted `packets` have ended. */
  predicate Counted(m: Mixing, packets: nat, count: nat) {
    m.packets == packets && !m.pc.Sum? && (if m.pc.Done? then count == packets else count == m.pc.k)
  }

  lemma FillStep(cfg: Config, c: Chain, e: Event, count: nat)
    requires Budgeted(cfg, c.mix, c.slots) && CleanEvent(e) && e != NextBuffer
    requires Counted(c.mix, c.mix.packets, count)
    ensures var d := Next(cfg, c, e);
            && Counted(d.mix, c.mix.packets, count + if e == Work && c.mix.pc.Place? then 1 else 0)
            && (!d.mix.pc.Done? ==> Steps(cfg, d.mix) + (if e == Work then 1 else 0) <= Steps(cfg, c.mix))
            && (c.mix.pc.Done? ==> d.mix.pc.Done?)
  {
    if e == Work && !c.mix.pc.Done? {
      TickProgresses(cfg, c.mix, c.slots);
      NeverRetries(c.mix);
    }
    hide Visit, SpreadNulls, Rounds;
  }

  /** With no padding about, a fill that has budgeted `packets` ends, after at most
      `Steps` steps of the thread, and exactly when `packets` iterations have been made. */
  lemma {:induction false} FillEnds(cfg: Config, c: Chain, run: seq<Event>)
    requires Budgeted(cfg, c.mix, c.slots) && c.mix.pc == Head(0)
    requires CleanRun(run) && WithinFill(run)
    ensures var d := Run(cfg, c, run);
            && Counted(d.mix, c.mix.packets, Iterations(cfg, c, run))
            && (!d.mix.pc.Done? ==> Works(run) + Steps(cfg, d.mix) <= Steps(cfg, c.mix))
            && (Works(run) >= Steps(cfg, c.mix) ==> d.mix.pc.Done?)
  {
    if run != [] {
      var init := run[..|run| - 1];
      FillEnds(cfg, c, init);
      RunCovered(cfg, c, init);
      FillStep(cfg, Run(cfg, c, init), run[|run| - 1], Iterations(cfg, c, init));
      hide Next, Steps;
    }
    assert !Run(cfg, c, run).mix.pc.Done? ==> Steps(cfg, Run(cfg, c, run).mix) > 0;
  }
}
