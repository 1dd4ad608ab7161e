/** From the buffers to the output, PID by PID: what a demultiplexer at the far end sees. */
module Delivery {
  import opened Ts
  import opened Mix
  import opened MixJournal
  import opened Restamp
  import opened Mux
  import opened MuxProof
  import opened MuxTheorems
  import opened RewriteTheorems

  // ---- Selecting by PID and by source

  lemma {:induction false} DemuxConcat(a: seq<Packet>, b: seq<Packet>, pid: nat)
    ensures Demux(a + b, pid) == Demux(a, pid) + Demux(b, pid)
  {
    if b == [] {
      assert a + b == a;
    } else {
      var init, last := b[..|b| - 1], b[|b| - 1];
      DemuxConcat(a, init, pid);
      assert (a + b)[..|a + b| - 1] == a + init && (a + b)[|a + b| - 1] == last;
      Associative(Demux(a, pid), Demux(init, pid), if last.pid == pid then [last] else []);
    }
  }

  lemma {:induction false} DemuxNone(s: seq<Packet>, pid: nat)
    requires forall i :: 0 <= i < |s| ==> s[i].pid != pid
    ensures Demux(s, pid) == []
  {
    if s != [] {
      DemuxNone(s[..|s| - 1], pid);
    }
  }

  lemma {:induction false} DemuxUnclocked(s: seq<Packet>, pid: nat)
    ensures Demux(AllUnclocked(s), pid) == AllUnclocked(Demux(s, pid))
  {
    if s != [] {
      var init, last := s[..|s| - 1], s[|s| - 1];
      DemuxUnclocked(init, pid);
      assert AllUnclocked(s)[..|s| - 1] == AllUnclocked(init);
      AllUnclockedConcat(Demux(init, pid), if last.pid == pid then [last] else []);
    }
  }

  /** PID `pid` is used by source `o` only. */
  predicate OnlyFrom(s: seq<Packet>, pid: nat, o: Origin) {
    forall i :: 0 <= i < |s| && s[i].pid == pid ==> s[i].origin == o
  }

  lemma {:induction false} DemuxDelivered(s: seq<Packet>, pid: nat, o: Origin)
    requires OnlyFrom(s, pid, o) && pid != NULL_PID
    ensures Demux(s, pid) == Demux(Deliver(s, o), pid)
  {
    if s != [] {
      var init, last := s[..|s| - 1], s[|s| - 1];
      DemuxDelivered(init, pid, o);
      DemuxConcat(Deliver(init, o), Payload(last, o), pid);
      DemuxOfOne(last, pid, o);
      hide Payload;
    }
  }

  lemma DemuxOfOne(p: Packet, pid: nat, o: Origin)
    requires p.pid == pid ==> p.origin == o
    requires pid != NULL_PID
    ensures Demux(Payload(p, o), pid) == if p.pid == pid then [p] else []
  {
    assert [p][..0] == [] && Demux([], pid) == [];
  }

  /** A packet that is not a null packet is delivered for its own source. */
  lemma {:induction false} IsDelivered(s: seq<Packet>, k: nat) returns (m: nat)
    requires k < |s| && s[k].pid != NULL_PID
    ensures m < |Deliver(s, s[k].origin)| && Deliver(s, s[k].origin)[m] == s[k]
    decreases |s|
  {
    var last := |s| - 1;
    if k < last {
      m := IsDelivered(s[..last], k);
    } else {
      m := |Deliver(s[..last], s[k].origin)|;
    }
  }

  lemma {:induction false} DeliveredIs(s: seq<Packet>, o: Origin, m: nat) returns (k: nat)
    requires m < |Deliver(s, o)|
    ensures k < |s| && Deliver(s, o)[m] == s[k] && s[k].origin == o
    decreases |s|
  {
    var last := |s| - 1;
    if m < |Deliver(s[..last], o)| {
      k := DeliveredIs(s[..last], o, m);
    } else {
      k := last;
    }
  }

  // ---- From the buffers to the output

  lemma SentWasAccepted(cfg: Config, pids: seq<Pid>, acts: seq<Act>, k: nat) returns (j: nat)
    requires GoodSetup(cfg)
    requires k < |Execute(cfg, pids, acts).out| && Execute(cfg, pids, acts).out[k].pid != NULL_PID
    ensures var s := Execute(cfg, pids, acts); j < |s.arrived| && Unclocked(s.arrived[j]) == Unclocked(s.out[k])
  {
    var s := Execute(cfg, pids, acts);
    hide Execute, Unsent, Deliver;
    var o := s.out[k].origin;
    EndToEnd(cfg, pids, acts, o);
    var m := IsDelivered(s.out, k);
    var sent, all := Deliver(s.out, o), Deliver(s.arrived, o);
    assert AllUnclocked(all)[m] == AllUnclocked(sent)[m];
    j := DeliveredIs(s.arrived, o, m);
  }

  /** A PID that one source alone uses: the packets sent with it are, in order and up to
      rewritten clocks, the accepted ones but for those still inside. */
  lemma OutputOfPid(cfg: Config, pids: seq<Pid>, acts: seq<Act>, o: Origin, y: nat)
    requires GoodSetup(cfg) && y != NULL_PID && OnlyFrom(Execute(cfg, pids, acts).arrived, y, o)
    ensures var s := Execute(cfg, pids, acts);
            && |s.out| <= |s.done|
            && AllUnclocked(Demux(Deliver(s.arrived, o), y)) ==
               AllUnclocked(Demux(s.out, y)) + AllUnclocked(Demux(Unsent(cfg, s, o), y))
            && (cfg.mode != 2 && cfg.mode != 3 ==>
                  Demux(Deliver(s.arrived, o), y) == Demux(s.out, y) + Demux(Unsent(cfg, s, o), y))
  {
    var s := Execute(cfg, pids, acts);
    EndToEnd(cfg, pids, acts, o);
    forall k | 0 <= k < |s.out| && s.out[k].pid == y ensures s.out[k].origin == o {
      var j := SentWasAccepted(cfg, pids, acts, k);
      assert Unclocked(s.arrived[j]).origin == s.out[k].origin && Unclocked(s.arrived[j]).pid == y;
    }
    hide Execute, Unsent, Deliver, Demux, AllUnclocked;
    DemuxDelivered(s.out, y, o);
    DemuxUnclocked(Deliver(s.arrived, o), y);
    DemuxUnclocked(Deliver(s.out, o), y);
    DemuxUnclocked(Unsent(cfg, s, o), y);
    DemuxConcat(AllUnclocked(Deliver(s.out, o)), AllUnclocked(Unsent(cfg, s, o)), y);
    DemuxConcat(Deliver(s.out, o), Unsent(cfg, s, o), y);
  }

  // ---- Where accepted packets come from

  lemma StepArrives(cfg: Config, s: Sys, a: Act)
    requires GoodSetup(cfg) && Formed(cfg, s)
    ensures var t := Step(cfg, s, a);
            t.arrived == s.arrived + if a.Produce? && From(a.origin, a.batch) && Fits(cfg, s.mix, a.origin, a.batch)
                                     then a.batch else []
  {
    hide Tick, StampAll, Shaped;
    assert s.arrived + [] == s.arrived;
  }

  /** Packets are accepted from the inputs and from the multiplexer's own tables, no one else. */
  lemma {:induction false} ArrivedFrom(cfg: Config, pids: seq<Pid>, acts: seq<Act>, k: nat)
    requires GoodSetup(cfg) && k < |Execute(cfg, pids, acts).arrived|
    ensures var o := Execute(cfg, pids, acts).arrived[k].origin; o == Psi || (o.Channel? && o.index < |pids|)
    decreases |acts|
  {
    var init, a := acts[..|acts| - 1], acts[|acts| - 1];
    var s := Execute(cfg, pids, init);
    hide Run, MixNext, WriteNext;
    if k < |s.arrived| {
      StepArrives(cfg, s, a);
      ArrivedFrom(cfg, pids, init, k);
    } else {
      StepArrives(cfg, s, a);
      ExecuteRefines(cfg, pids, init);
      InputsStay(cfg, pids, RunOf(cfg, pids, init));
    }
  }
}
