/** The multiplexer from end to end, for every interleaving of all its threads. */
module Multiplex {
  import opened Ts
  import opened Mix
  import opened MixBudget
  import opened Mux
  import opened MuxTheorems
  import opened Rewrite
  import opened RewriteTheorems
  import opened AdmissionTheorems
  import opened Delivery
  import opened Feeds
  import Plant
  import PsiOutput

  // ---- From the sources to the output

  /** Each input's bursts are the offers of its connections, one connection after another, and
      `kept` of a connection is what the gate decided.  Channels have different indices. */
  ghost predicate Connected(w: Plant.State, lines: seq<seq<Feed>>, indices: seq<nat>) {
    && |lines| == |indices| == |w.bursts| == |w.kept|
    && (forall i :: 0 <= i < |lines| ==> Feeds.Sized(lines[i]) && GoodLine(lines[i], indices[i]))
    && (forall i :: 0 <= i < |lines| ==> w.bursts[i] == AllOffers(lines[i]) && w.kept[i] == AllFlags(lines[i]))
    && (forall i, j :: 0 <= i < j < |indices| ==> indices[i] != indices[j])
  }

  ghost predicate AllUndisturbed(lines: seq<seq<Feed>>, y: nat) {
    forall i :: 0 <= i < |lines| ==> LineUndisturbed(lines[i], y)
  }

  /** The packets of an input that its buffer has accepted are the kept ones of its lines. */
  lemma LineArrived(cfg: Config, pids: seq<Pid>, deeds: seq<Plant.Deed>, lines: seq<seq<Feed>>, indices: seq<nat>,
                    i: nat)
    requires Plant.GoodPlant(cfg) && i < |pids|
    requires Connected(Plant.Live(cfg, pids, deeds), lines, indices)
    ensures i < |lines| && Feeds.Sized(lines[i])
    ensures Deliver(Plant.Live(cfg, pids, deeds).sys.arrived, Channel(i)) == Deliver(LineKept(lines[i]), Channel(i))
    ensures From(Channel(i), LineKept(lines[i]))
  {
    hide Plant.Live, Deliver, LineKept, KeptOf, AllOffers, AllFlags, GoodLine, Feeds.Sized, Plant.AllFrom;
    Plant.LiveTook(cfg, pids, deeds, i);
    LineIs(lines[i]);
    Plant.KeptFrom(Channel(i), AllOffers(lines[i]), AllFlags(lines[i]));
  }

  /** A packet delivered for a source is one of the stream. */
  lemma DeliveredPid(s: seq<Packet>, t: seq<Packet>, o: Origin, k: nat) returns (m: nat)
    requires Deliver(s, o) == Deliver(t, o) && k < |s| && s[k].origin == o && s[k].pid != NULL_PID
    ensures m < |t| && t[m] == s[k]
  {
    var n := IsDelivered(s, k);
    m := DeliveredIs(t, o, n);
  }

  lemma OthersKeepAway(cfg: Config, pids: seq<Pid>, deeds: seq<Plant.Deed>, lines: seq<seq<Feed>>, indices: seq<nat>,
                       i: nat, y: nat, k: nat)
    requires Plant.GoodPlant(cfg) && i < |pids|
    requires Connected(Plant.Live(cfg, pids, deeds), lines, indices) && |lines| == |pids|
    requires BLOCK <= y < NULL_PID && InBlock(indices[i], y) && AllUndisturbed(lines, y)
    requires var s := Plant.Live(cfg, pids, deeds).sys.arrived;
             k < |s| && s[k].pid == y && s[k].origin.Channel? && s[k].origin.index < |pids|
    ensures Plant.Live(cfg, pids, deeds).sys.arrived[k].origin == Channel(i)
  {
    hide Plant.Live, Deliver, LineKept, GoodLine, Feeds.Sized, LineUndisturbed, AllOffers, AllFlags;
    var s := Plant.Live(cfg, pids, deeds).sys.arrived;
    var j := s[k].origin.index;
    if j != i {
      LineArrived(cfg, pids, deeds, lines, indices, j);
      var m := DeliveredPid(s, LineKept(lines[j]), Channel(j), k);
      assert LineUndisturbed(lines[j], y) && GoodLine(lines[j], indices[j]);
      assert indices[i] != indices[j];
      LineKeepsToItself(lines[j], indices[j], y, m);
    }
  }

  /** The multiplexer's own tables keep to the reserved PIDs. */
  lemma TablesKeepAway(cfg: Config, pids: seq<Pid>, deeds: seq<Plant.Deed>, k: nat)
    requires Plant.GoodPlant(cfg) && k < |Plant.Live(cfg, pids, deeds).sys.arrived|
    ensures var p := Plant.Live(cfg, pids, deeds).sys.arrived[k]; p.origin == Psi ==> p.pid < BLOCK || p.pid == NULL_PID
  {
    hide Plant.Live, Deliver, PsiOutput.After, PsiOutput.Entered;
    var w := Plant.Live(cfg, pids, deeds);
    Plant.LiveRecorded(cfg, pids, deeds);
    if w.sys.arrived[k].origin == Psi && w.sys.arrived[k].pid != NULL_PID {
      var m := IsDelivered(w.sys.arrived, k);
    }
  }

  lemma PidIsOwn(cfg: Config, pids: seq<Pid>, deeds: seq<Plant.Deed>, lines: seq<seq<Feed>>, indices: seq<nat>,
                 i: nat, y: nat)
    requires Plant.GoodPlant(cfg) && i < |pids| == |lines|
    requires Connected(Plant.Live(cfg, pids, deeds), lines, indices)
    requires BLOCK <= y < NULL_PID && InBlock(indices[i], y) && AllUndisturbed(lines, y)
    ensures OnlyFrom(Plant.Live(cfg, pids, deeds).sys.arrived, y, Channel(i))
  {
    hide Plant.Live, Execute, Connected, AllUndisturbed;
    var w := Plant.Live(cfg, pids, deeds);
    Plant.LiveFollows(cfg, pids, deeds);
    forall k | 0 <= k < |w.sys.arrived| && w.sys.arrived[k].pid == y ensures w.sys.arrived[k].origin == Channel(i) {
      ArrivedFrom(cfg, pids, w.acts, k);
      if w.sys.arrived[k].origin == Psi {
        TablesKeepAway(cfg, pids, deeds, k);
      } else {
        OthersKeepAway(cfg, pids, deeds, lines, indices, i, y, k);
      }
    }
  }

  /** From the sources to a demultiplexer.  Over every interleaving of all threads, every series
      of connections of every channel, and with the gates deciding what is kept: the packets sent
      with a PID `y` of channel `i` are, in order and up to rewritten clocks, the renamed packets
      of the streams that the channel's connections rename to `y`, as far as the gate kept them
      and but for those still inside.  No other channel or table uses that PID. */
  lemma SourceToOutput(cfg: Config, pids: seq<Pid>, deeds: seq<Plant.Deed>, lines: seq<seq<Feed>>, indices: seq<nat>,
                       i: nat, y: nat)
    requires Plant.GoodPlant(cfg) && i < |pids| == |lines|
    requires Connected(Plant.Live(cfg, pids, deeds), lines, indices)
    requires BLOCK <= y < NULL_PID && InBlock(indices[i], y) && AllUndisturbed(lines, y)
    requires forall n :: 0 <= n < |lines[i]| ==> NoPmtOn(lines[i][n], y)
    ensures Feeds.Sized(lines[i])
    ensures var s := Plant.Live(cfg, pids, deeds).sys;
            && OnlyFrom(s.arrived, y, Channel(i))
            && |s.out| <= |s.done|
            && AllUnclocked(LineWanted(lines[i], y)) ==
               AllUnclocked(Demux(s.out, y)) + AllUnclocked(Demux(Unsent(cfg, s, Channel(i)), y))
            && (cfg.mode != 2 && cfg.mode != 3 ==>
                  LineWanted(lines[i], y) == Demux(s.out, y) + Demux(Unsent(cfg, s, Channel(i)), y))
  {
    hide Plant.Live, Execute, Deliver, Demux, LineKept, LineWanted, Unsent, AllOffers, AllFlags, GoodLine;
    hide LineUndisturbed, NoPmtOn, Feeds.Sized, AllUnclocked;
    var w := Plant.Live(cfg, pids, deeds);
    Plant.LiveFollows(cfg, pids, deeds);
    PidIsOwn(cfg, pids, deeds, lines, indices, i, y);
    OutputOfPid(cfg, pids, w.acts, Channel(i), y);
    LineArrived(cfg, pids, deeds, lines, indices, i);
    assert LineUndisturbed(lines[i], y) && GoodLine(lines[i], indices[i]);
    DemuxDelivered(LineKept(lines[i]), y, Channel(i));
    LineDemux(lines[i], indices[i], y);
  }

  // ---- From the tables to the output

  /** Every table has its own PID: selecting by PID is selecting by producer. */
  lemma {:induction false} PacketsOfPid(entered: seq<(PsiOutput.Counter, Packet)>, c: PsiOutput.Counter)
    requires Plant.Labels(entered)
    ensures Demux(Plant.Numbers(entered), Plant.PidOf(c)) == PsiOutput.PacketsUnder(entered, c)
  {
    if entered == [] {
      assert Plant.Numbers(entered) == [] && Demux([], Plant.PidOf(c)) == [];
    } else {
      var init, last := entered[..|entered| - 1], entered[|entered| - 1];
      PacketsOfPid(init, c);
      assert Plant.Numbers(entered) == Plant.Numbers(init) + [last.1];
      DemuxAppend(Plant.Numbers(init), last.1, Plant.PidOf(c));
      OnePidEach(last.0, c);
      hide Demux, Plant.PidOf;
    }
  }

  lemma OnePidEach(a: PsiOutput.Counter, b: PsiOutput.Counter)
    ensures Plant.PidOf(a) == Plant.PidOf(b) <==> a == b
  {
  }

  lemma UnclockedConts(s: seq<Packet>)
    ensures PsiOutput.ContsIn(AllUnclocked(s)) == PsiOutput.ContsIn(s)
  {
  }

  /** The multiplexer's own packets of one table's PID in the output. */
  function SentTables(cfg: Config, w: Plant.State, c: PsiOutput.Counter): seq<Packet> {
    Demux(Deliver(w.sys.out, Psi), Plant.PidOf(c))
  }

  /** The packets sent of a table's PID are, up to clocks, those that the producers put in, in
      order, without a gap, but for the ones not sent yet. */
  lemma TablesSent(cfg: Config, pids: seq<Pid>, deeds: seq<Plant.Deed>, c: PsiOutput.Counter)
    requires Plant.GoodPlant(cfg)
    ensures var w := Plant.Live(cfg, pids, deeds);
            var put := PsiOutput.PacketsUnder(PsiOutput.Entered(cfg.psiRoom, w.ops), c);
            && AllUnclocked(SentTables(cfg, w, c)) <= AllUnclocked(put)
            && (cfg.mode != 2 && cfg.mode != 3 ==> SentTables(cfg, w, c) <= put)
  {
    hide Plant.Live, Execute, Deliver, Demux, Unsent, PsiOutput.Entered, PsiOutput.PacketsUnder, AllUnclocked;
    var w := Plant.Live(cfg, pids, deeds);
    var pid, entered := Plant.PidOf(c), PsiOutput.Entered(cfg.psiRoom, w.ops);
    Plant.LiveFollows(cfg, pids, deeds);
    Plant.LiveRecorded(cfg, pids, deeds);
    hide PsiOutput.After;
    EndToEnd(cfg, pids, w.acts, Psi);
    PacketsOfPid(entered, c);
    var sent, unsent, all := Deliver(w.sys.out, Psi), Unsent(cfg, w.sys, Psi), Deliver(w.sys.arrived, Psi);
    DemuxConcat(sent, unsent, pid);
    DemuxConcat(AllUnclocked(sent), AllUnclocked(unsent), pid);
    DemuxUnclocked(sent, pid);
    DemuxUnclocked(unsent, pid);
    DemuxUnclocked(all, pid);
  }

  lemma PrefixConts(a: seq<Packet>, b: seq<Packet>)
    requires AllUnclocked(a) <= AllUnclocked(b)
    ensures PsiOutput.ContsIn(a) <= PsiOutput.ContsIn(b)
  {
    UnclockedConts(a);
    UnclockedConts(b);
    assert PsiOutput.ContsIn(AllUnclocked(b))[..|a|] == PsiOutput.ContsIn(AllUnclocked(b)[..|a|]);
  }

  /** Their counters are those of the packets put in. */
  lemma SentConts(cfg: Config, pids: seq<Pid>, deeds: seq<Plant.Deed>, c: PsiOutput.Counter)
    requires Plant.GoodPlant(cfg)
    ensures var w := Plant.Live(cfg, pids, deeds);
            PsiOutput.ContsIn(SentTables(cfg, w, c)) <= PsiOutput.ContsUnder(PsiOutput.Entered(cfg.psiRoom, w.ops), c)
  {
    hide Plant.Live, SentTables, PsiOutput.Entered, PsiOutput.PacketsUnder;
    var w := Plant.Live(cfg, pids, deeds);
    TablesSent(cfg, pids, deeds, c);
    PrefixConts(SentTables(cfg, w, c), PsiOutput.PacketsUnder(PsiOutput.Entered(cfg.psiRoom, w.ops), c));
  }

  /** The packets sent are whole: up to counters and clocks, those of a table's PID are the packets
      of the sections that the PSI buffer took, in order, but for the ones not sent yet. */
  lemma SectionsSent(cfg: Config, pids: seq<Pid>, deeds: seq<Plant.Deed>, c: PsiOutput.Counter, m: nat)
    requires Plant.GoodPlant(cfg) && m < |SentTables(cfg, Plant.Live(cfg, pids, deeds), c)|
    ensures var w := Plant.Live(cfg, pids, deeds);
            var p, built := SentTables(cfg, w, c)[m], PsiOutput.Sections(cfg.psiRoom, w.ops, c);
            && m < |built|
            && p == built[m].(cont := p.cont, pcr := p.pcr)
            && (cfg.mode != 2 && cfg.mode != 3 ==> p.pcr == built[m].pcr)
  {
    hide Plant.Live, SentTables, PsiOutput.Entered, PsiOutput.PacketsUnder, PsiOutput.Sections;
    var w := Plant.Live(cfg, pids, deeds);
    var sent, put := SentTables(cfg, w, c), PsiOutput.PacketsUnder(PsiOutput.Entered(cfg.psiRoom, w.ops), c);
    var built := PsiOutput.Sections(cfg.psiRoom, w.ops, c);
    TablesSent(cfg, pids, deeds, c);
    PsiOutput.SectionsEntered(cfg.psiRoom, w.ops, c);
    assert |built| == |PsiOutput.Uncounted(built)| == |put|;
    assert AllUnclocked(sent)[m] == AllUnclocked(put)[m];
    assert PsiOutput.Uncounted(put)[m] == PsiOutput.Uncounted(built)[m];
  }

  /** Continuity in the output, over every interleaving: unless a table found the PSI buffer too
      full, the packets sent of each PID of the multiplexer's own tables run on modulo 16. */
  lemma TablesSentInOrder(cfg: Config, pids: seq<Pid>, deeds: seq<Plant.Deed>, c: PsiOutput.Counter, m: nat)
    requires Plant.GoodPlant(cfg)
    requires PsiOutput.NothingLost(cfg.psiRoom, Plant.Live(cfg, pids, deeds).ops, c)
    requires m < |SentTables(cfg, Plant.Live(cfg, pids, deeds), c)|
    ensures SentTables(cfg, Plant.Live(cfg, pids, deeds), c)[m].cont ==
            ((if c == PsiOutput.TdtCont then 15 else 0) + m) % 16
  {
    hide Plant.Live, SentTables, PsiOutput.Entered, PsiOutput.ContsUnder, PsiOutput.NothingLost;
    var w := Plant.Live(cfg, pids, deeds);
    SentConts(cfg, pids, deeds, c);
    PsiOutput.ConsecutiveWithoutLoss(cfg.psiRoom, w.ops, c, m);
    assert PsiOutput.ContsIn(SentTables(cfg, w, c))[m] == SentTables(cfg, w, c)[m].cont;
  }

  // ---- No padding, no retry

  /** Connections of channels 1 to 31, whose tables come from sections of at most 1024 bytes. */
  ghost predicate Sound(line: seq<Feed>) {
    forall n :: 0 <= n < |line| ==> 1 <= line[n].ch.index < 32 && SectionsFit(line[n].lib)
  }

  lemma {:induction false} LineUnpadded(line: seq<Feed>, k: nat)
    requires Sound(line) && k < |AllOffers(line)|
    ensures NoPadding(AllOffers(line)[k])
    decreases |line|
  {
    hide Served, SectionsFit;
    var init, f := line[..|line| - 1], line[|line| - 1];
    if k < |AllOffers(init)| {
      LineUnpadded(init, k);
    } else {
      ServedUnpadded(f, k - |AllOffers(init)|);
    }
  }

  /** Fed by such connections, the mixer's loop never retries, in any mode. */
  lemma ConnectionsNeverRetry(cfg: Config, pids: seq<Pid>, deeds: seq<Plant.Deed>, lines: seq<seq<Feed>>)
    requires Plant.GoodPlant(cfg)
    requires var w := Plant.Live(cfg, pids, deeds);
             && |lines| == |w.bursts|
             && forall i :: 0 <= i < |lines| ==> w.bursts[i] == AllOffers(lines[i]) && Sound(lines[i])
    ensures var w := Plant.Live(cfg, pids, deeds);
            && CleanActs(w.acts)
            && !(w.sys.mix.pc.Scan? && w.sys.mix.pc.left == 0 && w.sys.mix.pc.polled == 0)
  {
    hide Plant.Live, Execute, NoPadding, AllOffers, Sound;
    var w := Plant.Live(cfg, pids, deeds);
    forall i, k | 0 <= i < |w.bursts| && 0 <= k < |w.bursts[i]| ensures NoPadding(w.bursts[i][k]) {
      LineUnpadded(lines[i], k);
    }
    Plant.LiveClean(cfg, pids, deeds);
    Plant.LiveFollows(cfg, pids, deeds);
    MixerNeverRetries(cfg, pids, w.acts);
  }
}
