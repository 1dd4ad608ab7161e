/** What a connection does with every packet it reads: which ones pass, when tables are offered,
    and when it ends. */
module Forwarding {
  import opened Ts
  import opened PidRef
  import opened Rewrite
  import opened RewriteTheorems
  import opened Admission
  import opened AdmissionTheorems

  // ---- The PIDs learnt from a PAT

  /** A program with a number and a PID, and an entry of the NIT. */
  predicate Usable(q: Program) {
    q.number != 0 && q.pid != 0
  }

  predicate Network(q: Program) {
    q.number == 0 && q.pid != 0
  }

  function FirstUsable(ps: seq<Program>): (i: nat)
    ensures i <= |ps| && (i < |ps| ==> Usable(ps[i]))
    ensures forall j :: 0 <= j < i ==> !Usable(ps[j])
  {
    if ps == [] || Usable(ps[0]) then 0 else 1 + FirstUsable(ps[1..])
  }

  /** The PID of the first program that can be used. */
  predicate IsPmtPid(ps: seq<Program>, pid: nat) {
    FirstUsable(ps) < |ps| && ps[FirstUsable(ps)].pid == pid
  }

  /** The last entry of the NIT stands at `j`. */
  predicate Last(ps: seq<Program>, j: nat) {
    j < |ps| && Network(ps[j]) && forall l :: j < l < |ps| ==> !Network(ps[l])
  }

  predicate LastWith(ps: seq<Program>, j: nat, pid: nat) {
    Last(ps, j) && ps[j].pid == pid
  }

  /** The last of `ps` that is an entry of the NIT has PID `pid`; without one it is `none`. */
  ghost predicate LastNetwork(ps: seq<Program>, none: nat, pid: nat) {
    || (exists j: nat :: LastWith(ps, j, pid))
    || (pid == none && forall j :: 0 <= j < |ps| ==> !Network(ps[j]))
  }

  /** The PID of the last entry of the NIT before that program, or 0x10. */
  ghost predicate IsNitPid(ps: seq<Program>, pid: nat) {
    LastNetwork(ps[..FirstUsable(ps)], 0x10, pid)
  }

  lemma {:induction false} PmtPidIs(ps: seq<Program>, pid: nat)
    requires pid != 0
    ensures IsPmtPid(ps, pid) <==> PmtPid(ps) == pid
  {
    if ps != [] && !Usable(ps[0]) {
      PmtPidIs(ps[1..], pid);
    }
  }

  lemma LastMoves(q: Program, ps: seq<Program>, j: nat)
    ensures Last([q] + ps, j + 1) <==> Last(ps, j)
    ensures Last([q] + ps, 0) <==> Network(q) && forall l :: 0 <= l < |ps| ==> !Network(ps[l])
  {
    var all := [q] + ps;
    assert forall l :: 0 <= l < |ps| ==> all[l + 1] == ps[l];
    assert forall l :: 1 <= l < |all| ==> all[l] == ps[l - 1];
  }

  lemma LastNetworkHead(q: Program, ps: seq<Program>, none: nat, pid: nat)
    ensures LastNetwork([q] + ps, none, pid) <==> LastNetwork(ps, if Network(q) then q.pid else none, pid)
  {
    hide Last, Network;
    var all := [q] + ps;
    LastMoves(q, ps, 0);
    NoneMoves(q, ps);
    if j: nat :| LastWith(ps, j, pid) {
      LastMoves(q, ps, j);
      LastIn(ps, j);
      assert LastWith(all, j + 1, pid);
    }
    if j: nat :| LastWith(all, j, pid) {
      LastIn(all, j);
      if j > 0 {
        LastMoves(q, ps, j - 1);
        assert LastWith(ps, j - 1, pid);
      }
    }
    if Network(q) && forall l :: 0 <= l < |ps| ==> !Network(ps[l]) {
      assert Last(all, 0) && (LastWith(all, 0, pid) <==> q.pid == pid);
    }
  }

  lemma LastIn(ps: seq<Program>, j: nat)
    requires Last(ps, j)
    ensures j < |ps| && Network(ps[j])
  {
  }

  lemma NoneMoves(q: Program, ps: seq<Program>)
    ensures (forall j :: 0 <= j < |[q] + ps| ==> !Network(([q] + ps)[j])) <==>
            !Network(q) && forall j :: 0 <= j < |ps| ==> !Network(ps[j])
  {
    hide Network;
    var all := [q] + ps;
    assert all[0] == q;
    assert forall l :: 0 <= l < |ps| ==> all[l + 1] == ps[l];
    assert forall l :: 1 <= l < |all| ==> all[l] == ps[l - 1];
  }

  lemma {:induction false} NitPidIs(ps: seq<Program>, none: nat, pid: nat)
    ensures LastNetwork(ps[..FirstUsable(ps)], none, pid) <==> pid == NitPid(ps, none)
  {
    if ps == [] || Usable(ps[0]) {
      assert ps[..FirstUsable(ps)] == [];
    } else {
      NitPidIs(ps[1..], if Network(ps[0]) then ps[0].pid else none, pid);
      assert ps[..FirstUsable(ps)] == [ps[0]] + ps[1..][..FirstUsable(ps[1..])];
      LastNetworkHead(ps[0], ps[1..][..FirstUsable(ps[1..])], none, pid);
      hide LastNetwork;
    }
  }

  /** The PIDs of a connection are those of the PAT they were learnt from; that is the PAT that
      was rewritten, if it has a program that can be used. */
  predicate FromLearnt(t: StreamState) {
    && t.pmtPid == PmtPid(t.learnt.programs)
    && (t.nitPid == NitPid(t.learnt.programs, 0x10) || (t.nitPid == 0 && t.learnt == Pat([])))
    && (t.newPat == None ==> t.learnt == Pat([]))
    && (t.newPat.Some? && PmtPid(t.pat0.programs) != 0 ==> t.learnt == t.pat0)
  }

  /** What stays when no PAT is taken. */
  predicate SamePids(t: StreamState, u: StreamState) {
    && u.pmtPid == t.pmtPid && u.nitPid == t.nitPid && u.learnt == t.learnt
    && u.newPat == t.newPat && u.pat0 == t.pat0
  }

  lemma PatFacts(lib: Parser, ch: ChannelInfo, t: StreamState, p: Packet)
    requires FromLearnt(t)
    ensures var now := ProcessPat(lib, ch, t, p);
            var pushed := lib.pushPat(t.pat, p);
            && now.offers == [] && FromLearnt(now.stream)
            && now.stream.inputPcr == t.inputPcr
            && now.stream.pmtCont == t.pmtCont && now.stream.eitCont == t.eitCont
            && (now.reconnect <==> t.lastPat.ready && pushed.ready && !lib.samePat(pushed, t.lastPat))
  {
    hide RewritePat, NitPid, PmtPid;
    NoProgram();
  }

  lemma PmtFacts(lib: Parser, ch: ChannelInfo, t: StreamState, p: Packet)
    ensures var (u, done) := ProcessPmt(lib, ch, t, p);
            var pushed := lib.pushPmt(t.pmt, p);
            && (done == None <==> !t.lastPmt.ready && !pushed.ready)
            && (done == None ==>
                  SamePids(t, u) && u == t.(pmt := u.pmt, lastPmt := u.lastPmt))
            && (done.Some? ==>
                  var v := done.value.stream;
                  && SamePids(t, v) && v.inputPcr == t.inputPcr && v.eitCont == t.eitCont
                  && (done.value.reconnect <==> t.lastPmt.ready && pushed.ready && !lib.samePmt(pushed, t.lastPmt))
                  && if pushed.ready && (t.lastPmt.ready ==> lib.samePmt(pushed, t.lastPmt))
                     then && v.newPmt.Some?
                          && Table(ch, done.value.offers, PmtTable, v.newPmt.value.pid, t.pmtCont, v.pmtCont)
                     else done.value.offers == [] && v.pmtCont == t.pmtCont)
  {
    hide RewritePmt;
  }

  /** One table is offered, its packets numbered from `cont` on, and the counter goes on. */
  predicate Table(ch: ChannelInfo, offers: seq<Offer>, kind: Kind, pid: nat, cont: nat, next: nat) {
    && |offers| == 1 && offers[0].kind == kind && next == (cont + |offers[0].packets|) % 16
    && offers[0].packets == SectionPackets(ch, pid, cont, |offers[0].packets|)
  }

  lemma EitFacts(lib: Parser, ch: ChannelInfo, t: StreamState, p: Packet)
    ensures var now := ProcessEit(lib, ch, t, p);
            var pushed := lib.pushEit(t.eit, p);
            && SamePids(t, now.stream) && now.stream.inputPcr == t.inputPcr && now.stream.pmtCont == t.pmtCont
            && !now.reconnect
            && if ch.eitMode != 0 && pushed.ready && pushed.service == ch.service
               then Table(ch, now.offers, EitTable, EIT_PID, t.eitCont, now.stream.eitCont)
               else now.offers == [] && now.stream.eitCont == t.eitCont
  {
  }

  lemma ForwardFacts(t: StreamState, p: Packet)
    ensures var now := Forward(t, p);
            && SamePids(t, now.stream) && !now.reconnect
            && now.stream.pmtCont == t.pmtCont && now.stream.eitCont == t.eitCont
            && now.stream.inputPcr ==
               (if p.pid != EIT_PID && !Killed(t, p.pid) && Clocks(t, p) then p.pcr.value else t.inputPcr)
            && if p.pid != EIT_PID && !Killed(t, p.pid) && now.stream.inputPcr != 0
               then |now.offers| == 1 && now.offers[0].kind == Forwarded(p) else now.offers == []
  {
    hide Renamed;
  }

  /** The four ways a packet goes. */
  lemma StepIs(lib: Parser, ch: ChannelInfo, t: StreamState, p: Packet)
    ensures var now := Step(lib, ch, t, p);
            var (u, done) := ProcessPmt(lib, ch, t, p);
            if p.pid == 0 then now == ProcessPat(lib, ch, t, p)
            else if p.pid == t.pmtPid && done.Some? then now == done.value
            else
              var v := if p.pid == t.pmtPid then u else t;
              now == if p.pid == EIT_PID then ProcessEit(lib, ch, v, p) else Forward(v, p)
  {
    hide ProcessPat, ProcessPmt, ProcessEit, Forward;
  }

  lemma StepFromLearnt(lib: Parser, ch: ChannelInfo, t: StreamState, p: Packet)
    requires FromLearnt(t)
    ensures FromLearnt(Step(lib, ch, t, p).stream)
  {
    hide Step, ProcessPat, ProcessPmt, ProcessEit, Forward, NitPid, PmtPid, Killed, Clocks, Table;
    StepIs(lib, ch, t, p);
    PatFacts(lib, ch, t, p);
    PmtFacts(lib, ch, t, p);
    var v := if p.pid == t.pmtPid then ProcessPmt(lib, ch, t, p).0 else t;
    EitFacts(lib, ch, v, p);
    ForwardFacts(v, p);
  }

  // ---- What becomes of one packet

  /** The packet is not taken as part of the PAT, the PMT or an EIT, and is not one of the
      source's NIT, SDT, RST, TDT or padding.  A PMT packet passes while no PMT is complete. */
  ghost predicate Reaches(lib: Parser, t: StreamState, p: Packet) {
    && p.pid != 0
    && (IsPmtPid(t.learnt.programs, p.pid) ==> !t.lastPmt.ready && !lib.pushPmt(t.pmt, p).ready)
    && p.pid != 0x10 && p.pid != 0x11 && p.pid != 0x12 && p.pid != 0x13 && p.pid != 0x14 && p.pid < 0x1fff
    && !IsNitPid(t.learnt.programs, p.pid)
  }

  /** The packet is a clock of the program, after its PMT has been rewritten. */
  ghost predicate IsOpening(lib: Parser, t: StreamState, p: Packet) {
    Reaches(lib, t, p) && t.newPmt.Some? && p.pid == t.pmt0.pcrPid && HasPcr(p)
  }

  /** The packets of the source among the offers. */
  function Passed(offers: seq<Offer>): seq<Packet> {
    if offers == [] then []
    else
      var o := offers[|offers| - 1];
      Passed(offers[..|offers| - 1]) + if o.kind.Forwarded? then [o.kind.source] else []
  }

  lemma PassedOne(o: Offer)
    ensures Passed([o]) == if o.kind.Forwarded? then [o.kind.source] else []
  {
    assert [o][..0] == [] && Passed([]) == [];
  }

  lemma {:induction false} PassedConcat(a: seq<Offer>, b: seq<Offer>)
    ensures Passed(a + b) == Passed(a) + Passed(b)
  {
    if b == [] {
      assert a + b == a;
    } else {
      var last := |b| - 1;
      PassedConcat(a, b[..last]);
      assert (a + b)[..|a| + last] == a + b[..last];
      Associative(Passed(a), Passed(b[..last]), if b[last].kind.Forwarded? then [b[last].kind.source] else []);
    }
  }

  /** The same conditions in terms of the stream's fields. */
  lemma ReachesIs(lib: Parser, t: StreamState, p: Packet)
    requires FromLearnt(t)
    ensures Reaches(lib, t, p) <==>
            && p.pid != 0
            && (p.pid == t.pmtPid ==> !t.lastPmt.ready && !lib.pushPmt(t.pmt, p).ready)
            && p.pid != EIT_PID && !Killed(t, p.pid)
  {
    hide LastNetwork, NitPid;
    if p.pid != 0 {
      PmtPidIs(t.learnt.programs, p.pid);
    }
    NitPidIs(t.learnt.programs, 0x10, p.pid);
    EmptyPat();
  }

  lemma EmptyPat()
    ensures NitPid([], 0x10) == 0x10
  {
  }

  lemma StepForwards(lib: Parser, ch: ChannelInfo, t: StreamState, p: Packet)
    requires FromLearnt(t) && TablesAgree(ch, t)
    ensures var now := Step(lib, ch, t, p);
            && now.stream.inputPcr == (if IsOpening(lib, t, p) then p.pcr.value else t.inputPcr)
            && Passed(now.offers) == if Reaches(lib, t, p) && now.stream.inputPcr != 0 then [p] else []
  {
    ReachesIs(lib, t, p);
    PcrPidIs(ch, t);
    hide Reaches, FromLearnt, TablesAgree, Step, ProcessPat, ProcessPmt, ProcessEit, Forward, Killed, Passed;
    StepIs(lib, ch, t, p);
    PatFacts(lib, ch, t, p);
    PmtFacts(lib, ch, t, p);
    var v := if p.pid == t.pmtPid then ProcessPmt(lib, ch, t, p).0 else t;
    EitFacts(lib, ch, v, p);
    ForwardFacts(v, p);
    SameKilled(t, v, p.pid);
    PassedFew(Step(lib, ch, t, p).offers);
  }

  lemma PcrPidIs(ch: ChannelInfo, t: StreamState)
    requires TablesAgree(ch, t)
    ensures t.newPmt.Some? ==> t.pcrPid == t.pmt0.pcrPid
  {
    hide Final, RewritePat, RewritePmt, FreshTable;
  }

  lemma SameKilled(t: StreamState, v: StreamState, pid: nat)
    requires t.nitPid == v.nitPid
    ensures Killed(t, pid) == Killed(v, pid)
  {
  }

  lemma PassedFew(offers: seq<Offer>)
    ensures |offers| == 0 ==> Passed(offers) == []
    ensures |offers| == 1 ==> Passed(offers) == if offers[0].kind.Forwarded? then [offers[0].kind.source] else []
  {
    if |offers| == 1 {
      assert offers == [offers[0]];
      PassedOne(offers[0]);
    }
  }

  // ---- Every packet of a connection

  function Before(lib: Parser, ch: ChannelInfo, s: StreamState, packets: seq<Packet>, k: nat): Outcome
    requires k <= |packets|
  {
    Connection(lib, ch, s, packets[..k])
  }

  ghost predicate ReachedAt(lib: Parser, ch: ChannelInfo, s: StreamState, packets: seq<Packet>, k: nat)
    requires k < |packets|
  {
    var before := Before(lib, ch, s, packets, k);
    !before.reconnect && Reaches(lib, before.stream, packets[k])
  }

  ghost predicate OpeningAt(lib: Parser, ch: ChannelInfo, s: StreamState, packets: seq<Packet>, k: nat)
    requires k < |packets|
  {
    var before := Before(lib, ch, s, packets, k);
    !before.reconnect && IsOpening(lib, before.stream, packets[k])
  }

  /** Some clock has been among the first `n` packets, and the last one was not 0. */
  ghost predicate OpenAfter(lib: Parser, ch: ChannelInfo, s: StreamState, packets: seq<Packet>, n: nat)
    requires n <= |packets|
  {
    exists j :: 0 <= j < n && OpeningAt(lib, ch, s, packets, j) && packets[j].pcr != Some(0) &&
                forall l :: j < l < n ==> !OpeningAt(lib, ch, s, packets, l)
  }

  /** Packet `k` passes: it is taken as no table, is not killed, and the last clock up to and
      including it was not 0. */
  ghost predicate PassesAt(lib: Parser, ch: ChannelInfo, s: StreamState, packets: seq<Packet>, k: nat)
    requires k < |packets|
  {
    ReachedAt(lib, ch, s, packets, k) && OpenAfter(lib, ch, s, packets, k + 1)
  }

  /** Those of the first `n` packets that pass, in order. */
  ghost function PassedOf(lib: Parser, ch: ChannelInfo, s: StreamState, packets: seq<Packet>, n: nat): seq<Packet>
    requires n <= |packets|
  {
    if n == 0 then []
    else
      PassedOf(lib, ch, s, packets, n - 1) +
      if PassesAt(lib, ch, s, packets, n - 1) then [packets[n - 1]] else []
  }

  lemma OpenStep(lib: Parser, ch: ChannelInfo, s: StreamState, packets: seq<Packet>, n: nat)
    requires n < |packets|
    ensures OpenAfter(lib, ch, s, packets, n + 1) <==>
            if OpeningAt(lib, ch, s, packets, n) then packets[n].pcr != Some(0) else OpenAfter(lib, ch, s, packets, n)
  {
    hide OpeningAt;
    if OpenAfter(lib, ch, s, packets, n) && !OpeningAt(lib, ch, s, packets, n) {
      var j :| 0 <= j < n && OpeningAt(lib, ch, s, packets, j) && packets[j].pcr != Some(0) &&
               forall l :: j < l < n ==> !OpeningAt(lib, ch, s, packets, l);
      assert forall l :: j < l < n + 1 ==> !OpeningAt(lib, ch, s, packets, l);
    }
    if OpenAfter(lib, ch, s, packets, n + 1) && !OpeningAt(lib, ch, s, packets, n) {
      var j :| 0 <= j < n + 1 && OpeningAt(lib, ch, s, packets, j) && packets[j].pcr != Some(0) &&
               forall l :: j < l < n + 1 ==> !OpeningAt(lib, ch, s, packets, l);
      assert j < n;
    }
    if OpeningAt(lib, ch, s, packets, n) && packets[n].pcr != Some(0) {
      assert OpenAfter(lib, ch, s, packets, n + 1);
    }
  }

  lemma OneMore(lib: Parser, ch: ChannelInfo, s: StreamState, packets: seq<Packet>, n: nat)
    requires n < |packets|
    ensures var before, after := Before(lib, ch, s, packets, n), Before(lib, ch, s, packets, n + 1);
            after == if before.reconnect then before
                     else
                       var now := Step(lib, ch, before.stream, packets[n]);
                       now.(offers := before.offers + now.offers)
  {
    hide Step;
    assert packets[..n + 1][..n] == packets[..n];
  }

  lemma NoneRead(lib: Parser, ch: ChannelInfo, s: StreamState, packets: seq<Packet>)
    ensures Before(lib, ch, s, packets, 0) == Outcome(Reset(ch, s), [], false)
    ensures FromLearnt(Reset(ch, s)) && Reset(ch, s).inputPcr == 0
  {
    assert packets[..0] == [];
  }

  lemma {:induction false} BeforeFromLearnt(lib: Parser, ch: ChannelInfo, s: StreamState, packets: seq<Packet>, n: nat)
    requires n <= |packets|
    ensures FromLearnt(Before(lib, ch, s, packets, n).stream)
  {
    hide Before, Step, FromLearnt;
    if n == 0 {
      NoneRead(lib, ch, s, packets);
    } else {
      BeforeFromLearnt(lib, ch, s, packets, n - 1);
      OneMore(lib, ch, s, packets, n - 1);
      StepFromLearnt(lib, ch, Before(lib, ch, s, packets, n - 1).stream, packets[n - 1]);
    }
  }

  lemma BeforeAgrees(lib: Parser, ch: ChannelInfo, s: StreamState, packets: seq<Packet>, n: nat)
    requires n <= |packets|
    ensures TablesAgree(ch, Before(lib, ch, s, packets, n).stream)
  {
    ConnectionOpens(lib, ch, s, packets[..n]);
    hide Connection, TablesAgree, Opening;
  }

  lemma {:induction false} PassedAre(lib: Parser, ch: ChannelInfo, s: StreamState, packets: seq<Packet>, n: nat)
    requires n <= |packets|
    ensures var before := Before(lib, ch, s, packets, n);
            && Passed(before.offers) == PassedOf(lib, ch, s, packets, n)
            && (before.stream.inputPcr != 0 <==> OpenAfter(lib, ch, s, packets, n))
  {
    hide Before, Step, FromLearnt, TablesAgree, Reaches, OpenAfter;
    if n == 0 {
      NoneRead(lib, ch, s, packets);
      NothingOpen(lib, ch, s, packets);
    } else {
      var k := n - 1;
      PassedAre(lib, ch, s, packets, k);
      OneMore(lib, ch, s, packets, k);
      OpenStep(lib, ch, s, packets, k);
      BeforeFromLearnt(lib, ch, s, packets, k);
      BeforeAgrees(lib, ch, s, packets, k);
      var before := Before(lib, ch, s, packets, k);
      StepForwards(lib, ch, before.stream, packets[k]);
      PassedConcat(before.offers, Step(lib, ch, before.stream, packets[k]).offers);
      assert PassedOf(lib, ch, s, packets, k) + [] == PassedOf(lib, ch, s, packets, k);
      hide Passed;
      assert ReachedAt(lib, ch, s, packets, k) <==> !before.reconnect && Reaches(lib, before.stream, packets[k]);
    }
  }

  lemma NothingOpen(lib: Parser, ch: ChannelInfo, s: StreamState, packets: seq<Packet>)
    ensures !OpenAfter(lib, ch, s, packets, 0)
  {
  }

  /** What a connection forwards: in order, exactly those packets read that are not taken as a
      table or killed, from a clock of the program on that is not 0, up to one that is 0. */
  lemma ForwardsExactly(lib: Parser, ch: ChannelInfo, s: StreamState, packets: seq<Packet>)
    ensures Passed(Connection(lib, ch, s, packets).offers) == PassedOf(lib, ch, s, packets, |packets|)
  {
    PassedAre(lib, ch, s, packets, |packets|);
    assert packets[..|packets|] == packets;
  }

  // ---- What the rewritten tables say

  /** In every connection: the rewritten PAT and PMT name the channel's service, every numbered
      program and every stream has its own entry at its place, and the PIDs the connection goes
      by are those of the PAT it has learnt them from. */
  lemma ConnectionTables(lib: Parser, ch: ChannelInfo, s: StreamState, packets: seq<Packet>)
    ensures var t := Connection(lib, ch, s, packets).stream;
            && (t.newPat.Some? && BLOCK * ch.index + |ProgramPids(t.pat0.programs)| < WORD16 ==>
                  PatSays(ch.service, BLOCK * ch.index, t.pat0, t.newPat.value))
            && (t.newPmt.Some? ==>
                  && PmtSays(ch.service, t.pmt0, t.newPmt.value)
                  && t.pcrPid == t.pmt0.pcrPid
                  && IsPmtPid(t.learnt.programs, t.pmtPid)
                  && IsNitPid(t.learnt.programs, t.nitPid)
                  && (FirstUsable(t.pat0.programs) < |t.pat0.programs| ==> t.learnt == t.pat0))
  {
    ConnectionOpens(lib, ch, s, packets);
    BeforeFromLearnt(lib, ch, s, packets, |packets|);
    assert packets[..|packets|] == packets;
    var t := Connection(lib, ch, s, packets).stream;
    var table := FreshTable(ch.index);
    hide Connection, Opening, RewriteStreams, HandOut, PatSays, PmtSays;
    if t.newPat.Some? && BLOCK * ch.index + |ProgramPids(t.pat0.programs)| < WORD16 {
      NewPatIs(table, ch.service, t.pat0);
    }
    if t.newPmt.Some? {
      NewPmtIs(RewritePat(table, ch.service, t.pat0).0, ch.service, t.pmtPid, t.pmt0);
      LearntPids(t);
    }
  }

  lemma LearntPids(t: StreamState)
    requires FromLearnt(t) && t.pmtPid != 0 && t.newPat.Some?
    ensures IsPmtPid(t.learnt.programs, t.pmtPid) && IsNitPid(t.learnt.programs, t.nitPid)
    ensures FirstUsable(t.pat0.programs) < |t.pat0.programs| ==> t.learnt == t.pat0
  {
    hide LastNetwork, NitPid;
    PmtPidIs(t.learnt.programs, t.pmtPid);
    NitPidIs(t.learnt.programs, 0x10, t.nitPid);
    NoProgram();
    var n := FirstUsable(t.pat0.programs);
    if n < |t.pat0.programs| {
      PmtPidIs(t.pat0.programs, t.pat0.programs[n].pid);
    }
  }

  lemma NoProgram()
    ensures PmtPid([]) == 0
  {
  }

  // ---- How tables are collected

  /** A PAT packet is pushed to the table being collected, and to the one before it; a complete
      one before it is replaced once the next is complete.  An incomplete one leaves it alone. */
  lemma PatIsCollected(lib: Parser, ch: ChannelInfo, t: StreamState, p: Packet)
    requires p.pid == 0
    ensures var u := Step(lib, ch, t, p).stream;
            var pushed := lib.pushPat(t.pat, p);
            && u.pat == pushed
            && u.lastPat == (if !t.lastPat.ready then lib.pushPat(t.lastPat, p)
                             else if pushed.ready && lib.samePat(pushed, t.lastPat) then lib.pushPat(NO_PAT, p)
                             else t.lastPat)
            && u.pmt == t.pmt && u.lastPmt == t.lastPmt && u.eit == t.eit
  {
    hide RewritePat, NitPid, PmtPid;
  }

  /** Likewise a PMT packet. */
  lemma PmtIsCollected(lib: Parser, ch: ChannelInfo, t: StreamState, p: Packet)
    requires FromLearnt(t) && p.pid != 0 && IsPmtPid(t.learnt.programs, p.pid)
    ensures var u := Step(lib, ch, t, p).stream;
            var pushed := lib.pushPmt(t.pmt, p);
            && u.pmt == pushed
            && u.lastPmt == (if !t.lastPmt.ready then lib.pushPmt(t.lastPmt, p)
                             else if pushed.ready && lib.samePmt(pushed, t.lastPmt) then lib.pushPmt(NO_PMT, p)
                             else t.lastPmt)
            && u.pat == t.pat && u.lastPat == t.lastPat
  {
    PmtPidIs(t.learnt.programs, p.pid);
    hide IsPmtPid, RewritePmt, NitPid, PmtPid, FromLearnt, Killed, Renamed;
  }

  /** An EIT packet is pushed to the EIT being collected, if the channel passes EIT on; one of the
      channel's own service is forgotten once it has been offered. */
  lemma EitIsCollected(lib: Parser, ch: ChannelInfo, t: StreamState, p: Packet)
    requires FromLearnt(t) && p.pid == 0x12 && !IsPmtPid(t.learnt.programs, p.pid)
    ensures var u := Step(lib, ch, t, p).stream;
            var pushed := lib.pushEit(t.eit, p);
            && u.eit == (if ch.eitMode == 0 then t.eit
                         else if pushed.ready && pushed.service == ch.service then EitState(false, 0, 0) else pushed)
            && u.pat == t.pat && u.lastPat == t.lastPat && u.pmt == t.pmt && u.lastPmt == t.lastPmt
  {
    PmtPidIs(t.learnt.programs, p.pid);
    hide IsPmtPid, NitPid, PmtPid, FromLearnt;
  }

  // ---- When a connection ends

  /** A complete PAT or PMT differs from the last complete one. */
  predicate Changes(lib: Parser, t: StreamState, p: Packet) {
    || (p.pid == 0 && t.lastPat.ready && lib.pushPat(t.pat, p).ready && !lib.samePat(lib.pushPat(t.pat, p), t.lastPat))
    || (p.pid != 0 && IsPmtPid(t.learnt.programs, p.pid) && t.lastPmt.ready && lib.pushPmt(t.pmt, p).ready &&
        !lib.samePmt(lib.pushPmt(t.pmt, p), t.lastPmt))
  }

  lemma StepReconnects(lib: Parser, ch: ChannelInfo, t: StreamState, p: Packet)
    requires FromLearnt(t)
    ensures Step(lib, ch, t, p).reconnect <==> Changes(lib, t, p)
  {
    if p.pid != 0 {
      PmtPidIs(t.learnt.programs, p.pid);
    }
    hide IsPmtPid, Step, ProcessPat, ProcessPmt, ProcessEit, Forward, NitPid, PmtPid, Killed, Clocks, Table;
    StepIs(lib, ch, t, p);
    PatFacts(lib, ch, t, p);
    PmtFacts(lib, ch, t, p);
    var v := if p.pid == t.pmtPid then ProcessPmt(lib, ch, t, p).0 else t;
    EitFacts(lib, ch, v, p);
    ForwardFacts(v, p);
  }

  predicate ChangesAt(lib: Parser, ch: ChannelInfo, s: StreamState, packets: seq<Packet>, k: nat)
    requires k < |packets|
  {
    var before := Before(lib, ch, s, packets, k);
    !before.reconnect && Changes(lib, before.stream, packets[k])
  }

  lemma {:induction false} ReconnectsBefore(lib: Parser, ch: ChannelInfo, s: StreamState, packets: seq<Packet>, n: nat)
    requires n <= |packets|
    ensures Before(lib, ch, s, packets, n).reconnect <==> exists k :: 0 <= k < n && ChangesAt(lib, ch, s, packets, k)
  {
    hide Before, Step, Changes, FromLearnt;
    if n == 0 {
      NoneRead(lib, ch, s, packets);
    } else {
      ReconnectsBefore(lib, ch, s, packets, n - 1);
      OneMore(lib, ch, s, packets, n - 1);
      BeforeFromLearnt(lib, ch, s, packets, n - 1);
      var before := Before(lib, ch, s, packets, n - 1);
      StepReconnects(lib, ch, before.stream, packets[n - 1]);
      assert !before.reconnect && Changes(lib, before.stream, packets[n - 1]) <==>
             ChangesAt(lib, ch, s, packets, n - 1);
    }
  }

  /** A connection ends with a reconnect if and only if one of its packets completes a PAT or PMT
      that differs from the last complete one. */
  lemma ReconnectsExactly(lib: Parser, ch: ChannelInfo, s: StreamState, packets: seq<Packet>)
    ensures Connection(lib, ch, s, packets).reconnect <==>
            exists k :: 0 <= k < |packets| && ChangesAt(lib, ch, s, packets, k)
  {
    ReconnectsBefore(lib, ch, s, packets, |packets|);
    assert packets[..|packets|] == packets;
  }

  // ---- Tables offered

  /** The packet completes a PMT that is the first one or the same as before. */
  predicate CompletesPmt(lib: Parser, t: StreamState, p: Packet) {
    && p.pid != 0 && IsPmtPid(t.learnt.programs, p.pid) && lib.pushPmt(t.pmt, p).ready
    && (t.lastPmt.ready ==> lib.samePmt(lib.pushPmt(t.pmt, p), t.lastPmt))
  }

  /** The packet completes an EIT of the channel's own service, in a channel that passes EIT on. */
  predicate CompletesEit(lib: Parser, ch: ChannelInfo, t: StreamState, p: Packet) {
    && p.pid == 0x12 && (IsPmtPid(t.learnt.programs, p.pid) ==> !t.lastPmt.ready && !lib.pushPmt(t.pmt, p).ready)
    && ch.eitMode != 0 && lib.pushEit(t.eit, p).ready && lib.pushEit(t.eit, p).service == ch.service
  }

  /** The continuity counters of the offered packets of a kind. */
  function ContsOf(offers: seq<Offer>, pmt: bool): seq<nat> {
    if offers == [] then []
    else
      var o := offers[|offers| - 1];
      ContsOf(offers[..|offers| - 1], pmt) +
      if OfKind(o, pmt) then Counters(o.packets) else []
  }

  predicate OfKind(o: Offer, pmt: bool) {
    (pmt && o.kind.PmtTable?) || (!pmt && o.kind.EitTable?)
  }

  function Counters(ps: seq<Packet>): (r: seq<nat>)
    ensures |r| == |ps| && forall i :: 0 <= i < |r| ==> r[i] == ps[i].cont
  {
    seq(|ps|, i requires 0 <= i < |ps| => ps[i].cont)
  }

  /** The next counter of a kind. */
  function NextCont(t: StreamState, pmt: bool): nat {
    if pmt then t.pmtCont else t.eitCont
  }

  /** Counters from `first` on, modulo 16. */
  predicate RunsOn(conts: seq<nat>, first: nat) {
    forall i :: 0 <= i < |conts| ==> conts[i] == (first + i) % 16
  }

  predicate Offers(offers: seq<Offer>, kind: Kind) {
    exists i :: 0 <= i < |offers| && offers[i].kind == kind
  }

  /** Exactly when a PMT or an EIT is offered. */
  lemma StepTables(lib: Parser, ch: ChannelInfo, t: StreamState, p: Packet)
    requires FromLearnt(t)
    ensures var now := Step(lib, ch, t, p);
            && (Offers(now.offers, PmtTable) <==> CompletesPmt(lib, t, p))
            && (Offers(now.offers, EitTable) <==> CompletesEit(lib, ch, t, p))
  {
    if p.pid != 0 {
      PmtPidIs(t.learnt.programs, p.pid);
    }
    hide IsPmtPid, Step, ProcessPat, ProcessPmt, ProcessEit, Forward, NitPid, PmtPid, Killed, Clocks, SectionPackets;
    StepIs(lib, ch, t, p);
    PatFacts(lib, ch, t, p);
    PmtFacts(lib, ch, t, p);
    var v := if p.pid == t.pmtPid then ProcessPmt(lib, ch, t, p).0 else t;
    EitFacts(lib, ch, v, p);
    ForwardFacts(v, p);
    OffersFew(Step(lib, ch, t, p).offers);
    hide Offers;
  }

  lemma OffersFew(offers: seq<Offer>)
    ensures |offers| == 0 ==> forall kind :: !Offers(offers, kind)
    ensures |offers| == 1 ==> forall kind :: Offers(offers, kind) <==> offers[0].kind == kind
  {
  }

  /** The offers that packet `k` of a connection brings: a PMT or an EIT exactly when it completes
      one, and itself exactly when it passes. */
  lemma OffersOfPacket(lib: Parser, ch: ChannelInfo, s: StreamState, packets: seq<Packet>, k: nat)
    requires k < |packets| && !Before(lib, ch, s, packets, k).reconnect
    ensures var before, after := Before(lib, ch, s, packets, k), Before(lib, ch, s, packets, k + 1);
            && before.offers <= after.offers
            && var more := after.offers[|before.offers|..];
               && (Offers(more, PmtTable) <==> CompletesPmt(lib, before.stream, packets[k]))
               && (Offers(more, EitTable) <==> CompletesEit(lib, ch, before.stream, packets[k]))
               && Passed(more) == if PassesAt(lib, ch, s, packets, k) then [packets[k]] else []
  {
    hide Before, Step, FromLearnt, OpenAfter, CompletesPmt, CompletesEit, Offers, Passed, TablesAgree, Reaches;
    var before := Before(lib, ch, s, packets, k);
    OneMore(lib, ch, s, packets, k);
    BeforeFromLearnt(lib, ch, s, packets, k);
    BeforeAgrees(lib, ch, s, packets, k);
    PassedAre(lib, ch, s, packets, k + 1);
    StepTables(lib, ch, before.stream, packets[k]);
    StepForwards(lib, ch, before.stream, packets[k]);
    var now := Step(lib, ch, before.stream, packets[k]);
    assert (before.offers + now.offers)[|before.offers|..] == now.offers;
  }

  lemma StepCounters(lib: Parser, ch: ChannelInfo, t: StreamState, p: Packet, pmt: bool)
    requires FromLearnt(t)
    ensures var now := Step(lib, ch, t, p);
            var conts := ContsOf(now.offers, pmt);
            && RunsOn(conts, NextCont(t, pmt))
            && NextCont(now.stream, pmt) % 16 == (NextCont(t, pmt) + |conts|) % 16
  {
    hide Step, ProcessPat, ProcessPmt, ProcessEit, Forward, NitPid, PmtPid, Killed, Clocks, ContsOf;
    StepIs(lib, ch, t, p);
    PatFacts(lib, ch, t, p);
    PmtFacts(lib, ch, t, p);
    var v := if p.pid == t.pmtPid then ProcessPmt(lib, ch, t, p).0 else t;
    EitFacts(lib, ch, v, p);
    ForwardFacts(v, p);
    ContsFew(Step(lib, ch, t, p).offers, pmt);
  }

  lemma ContsFew(offers: seq<Offer>, pmt: bool)
    ensures |offers| == 0 ==> ContsOf(offers, pmt) == []
    ensures |offers| == 1 ==>
              ContsOf(offers, pmt) == if OfKind(offers[0], pmt) then Counters(offers[0].packets) else []
  {
    if |offers| == 1 {
      assert offers == [offers[0]];
      ContsOne(offers[0], pmt);
    }
  }

  lemma ContsOne(o: Offer, pmt: bool)
    ensures ContsOf([o], pmt) == if OfKind(o, pmt) then Counters(o.packets) else []
  {
    assert [o][..0] == [] && ContsOf([], pmt) == [];
  }

  lemma {:induction false} ContsConcat(a: seq<Offer>, b: seq<Offer>, pmt: bool)
    ensures ContsOf(a + b, pmt) == ContsOf(a, pmt) + ContsOf(b, pmt)
  {
    if b == [] {
      assert a + b == a;
    } else {
      var last := |b| - 1;
      ContsConcat(a, b[..last], pmt);
      assert (a + b)[..|a| + last] == a + b[..last];
      Associative(ContsOf(a, pmt), ContsOf(b[..last], pmt), ContsOf(b, pmt)[|ContsOf(b[..last], pmt)|..]);
    }
  }

  lemma RunsOnConcat(a: seq<nat>, b: seq<nat>, first: nat, next: nat)
    requires RunsOn(a, first) && RunsOn(b, next) && next % 16 == (first + |a|) % 16
    ensures RunsOn(a + b, first)
  {
    forall i | |a| <= i < |a + b| ensures (a + b)[i] == (first + i) % 16 {
      SameRest(next, first + |a|, i - |a|);
    }
  }

  lemma SameRest(a: nat, b: nat, n: nat)
    requires a % 16 == b % 16
    ensures (a + n) % 16 == (b + n) % 16
  {
  }

  lemma {:induction false} TablesRunOn(lib: Parser, ch: ChannelInfo, s: StreamState, packets: seq<Packet>, n: nat,
                                       pmt: bool)
    requires n <= |packets|
    ensures var before := Before(lib, ch, s, packets, n);
            var conts := ContsOf(before.offers, pmt);
            && RunsOn(conts, NextCont(s, pmt))
            && NextCont(before.stream, pmt) % 16 == (NextCont(s, pmt) + |conts|) % 16
  {
    hide Before, Step, FromLearnt, RunsOn;
    if n == 0 {
      NoneRead(lib, ch, s, packets);
      NoCounters(s, pmt);
    } else {
      TablesRunOn(lib, ch, s, packets, n - 1, pmt);
      OneMore(lib, ch, s, packets, n - 1);
      BeforeFromLearnt(lib, ch, s, packets, n - 1);
      var before := Before(lib, ch, s, packets, n - 1);
      if !before.reconnect {
        StepCounters(lib, ch, before.stream, packets[n - 1], pmt);
        var now := Step(lib, ch, before.stream, packets[n - 1]);
        var earlier, more := ContsOf(before.offers, pmt), ContsOf(now.offers, pmt);
        ContsConcat(before.offers, now.offers, pmt);
        RunsOnConcat(earlier, more, NextCont(s, pmt), NextCont(before.stream, pmt));
        SameRest(NextCont(before.stream, pmt), NextCont(s, pmt) + |earlier|, |more|);
      }
    }
  }

  lemma NoCounters(s: StreamState, pmt: bool)
    ensures RunsOn([], NextCont(s, pmt)) && ContsOf([], pmt) == []
    ensures forall ch: ChannelInfo :: NextCont(Reset(ch, s), pmt) == NextCont(s, pmt)
  {
  }

  /** The PMT's packets offered in a connection, and likewise the EIT's, carry consecutive
      counters, from those that the connections before have left. */
  lemma TableCountersRunOn(lib: Parser, ch: ChannelInfo, s: StreamState, packets: seq<Packet>, pmt: bool)
    ensures var c := Connection(lib, ch, s, packets);
            && RunsOn(ContsOf(c.offers, pmt), NextCont(s, pmt))
            && NextCont(c.stream, pmt) % 16 == (NextCont(s, pmt) + |ContsOf(c.offers, pmt)|) % 16
  {
    TablesRunOn(lib, ch, s, packets, |packets|, pmt);
    assert packets[..|packets|] == packets;
  }

  // ---- When tables are put to use

  /** The packet completes a PAT that is the first one or the same as before. */
  predicate CompletesPat(lib: Parser, t: StreamState, p: Packet) {
    && p.pid == 0 && lib.pushPat(t.pat, p).ready
    && (t.lastPat.ready ==> lib.samePat(lib.pushPat(t.pat, p), t.lastPat))
  }

  /** The PAT has a program that can be used. */
  predicate HasUsable(pat: Pat) {
    FirstUsable(pat.programs) < |pat.programs|
  }

  lemma HasUsableIs(pat: Pat)
    ensures HasUsable(pat) <==> PmtPid(pat.programs) != 0
  {
    var n := FirstUsable(pat.programs);
    if n < |pat.programs| {
      PmtPidIs(pat.programs, pat.programs[n].pid);
    } else if PmtPid(pat.programs) != 0 {
      PmtPidIs(pat.programs, PmtPid(pat.programs));
    }
  }

  lemma PatLearns(lib: Parser, ch: ChannelInfo, t: StreamState, p: Packet)
    requires FromLearnt(t) && p.pid == 0
    ensures var u := ProcessPat(lib, ch, t, p).stream;
            var pushed := lib.pushPat(t.pat, p).pat;
            && (u.newPat.Some? <==> t.newPat.Some? || CompletesPat(lib, t, p))
            && u.pat0 == (if t.newPat == None && CompletesPat(lib, t, p) then pushed else t.pat0)
            && u.learnt == (if CompletesPat(lib, t, p) && !HasUsable(t.learnt) then pushed else t.learnt)
            && u.newPmt == t.newPmt && u.pmt0 == t.pmt0
  {
    HasUsableIs(t.learnt);
    hide RewritePat, NitPid, PmtPid, HasUsable;
  }

  lemma PmtLearns(lib: Parser, ch: ChannelInfo, t: StreamState, p: Packet)
    ensures var (u, done) := ProcessPmt(lib, ch, t, p);
            var v := if done.Some? then done.value.stream else u;
            var pushed := lib.pushPmt(t.pmt, p);
            var completes := pushed.ready && (t.lastPmt.ready ==> lib.samePmt(pushed, t.lastPmt));
            && (v.newPmt.Some? <==> t.newPmt.Some? || completes)
            && v.pmt0 == if t.newPmt == None && completes then pushed.pmt else t.pmt0
  {
    hide RewritePmt;
  }

  lemma RestLearns(lib: Parser, ch: ChannelInfo, t: StreamState, p: Packet)
    ensures ProcessEit(lib, ch, t, p).stream.newPmt == t.newPmt && ProcessEit(lib, ch, t, p).stream.pmt0 == t.pmt0
    ensures Forward(t, p).stream.newPmt == t.newPmt && Forward(t, p).stream.pmt0 == t.pmt0
  {
    hide Renamed, Killed, Clocks;
  }

  /** The first complete PAT and the first complete PMT are rewritten as soon as they are complete,
      and the PIDs are learnt from the first complete PAT that has a program. */
  lemma StepLearns(lib: Parser, ch: ChannelInfo, t: StreamState, p: Packet)
    requires FromLearnt(t)
    ensures var u := Step(lib, ch, t, p).stream;
            && (u.newPat.Some? <==> t.newPat.Some? || CompletesPat(lib, t, p))
            && u.pat0 == (if t.newPat == None && CompletesPat(lib, t, p) then lib.pushPat(t.pat, p).pat else t.pat0)
            && u.learnt == (if CompletesPat(lib, t, p) && !HasUsable(t.learnt) then lib.pushPat(t.pat, p).pat
                            else t.learnt)
            && (u.newPmt.Some? <==> t.newPmt.Some? || CompletesPmt(lib, t, p))
            && u.pmt0 == if t.newPmt == None && CompletesPmt(lib, t, p) then lib.pushPmt(t.pmt, p).pmt else t.pmt0
  {
    if p.pid != 0 {
      PmtPidIs(t.learnt.programs, p.pid);
    }
    hide IsPmtPid, Step, ProcessPat, ProcessPmt, ProcessEit, Forward, NitPid, PmtPid, Killed, Clocks, Table, HasUsable;
    StepIs(lib, ch, t, p);
    if p.pid == 0 {
      PatLearns(lib, ch, t, p);
    } else {
      PmtFacts(lib, ch, t, p);
      PmtLearns(lib, ch, t, p);
      var v := if p.pid == t.pmtPid then ProcessPmt(lib, ch, t, p).0 else t;
      EitFacts(lib, ch, v, p);
      ForwardFacts(v, p);
      RestLearns(lib, ch, v, p);
    }
  }

  ghost predicate PatAt(lib: Parser, ch: ChannelInfo, s: StreamState, packets: seq<Packet>, k: nat)
    requires k < |packets|
  {
    var before := Before(lib, ch, s, packets, k);
    !before.reconnect && CompletesPat(lib, before.stream, packets[k])
  }

  ghost predicate PmtAt(lib: Parser, ch: ChannelInfo, s: StreamState, packets: seq<Packet>, k: nat)
    requires k < |packets|
  {
    var before := Before(lib, ch, s, packets, k);
    !before.reconnect && CompletesPmt(lib, before.stream, packets[k])
  }

  /** The PAT, and the PMT, that packet `k` completes. */
  function PatOf(lib: Parser, ch: ChannelInfo, s: StreamState, packets: seq<Packet>, k: nat): Pat
    requires k < |packets|
  {
    lib.pushPat(Before(lib, ch, s, packets, k).stream.pat, packets[k]).pat
  }

  function PmtOf(lib: Parser, ch: ChannelInfo, s: StreamState, packets: seq<Packet>, k: nat): Pmt
    requires k < |packets|
  {
    lib.pushPmt(Before(lib, ch, s, packets, k).stream.pmt, packets[k]).pmt
  }

  /** Packet `k` is the first to complete a PAT; a PMT; a PAT with a program. */
  ghost predicate FirstPatAt(lib: Parser, ch: ChannelInfo, s: StreamState, packets: seq<Packet>, k: nat)
    requires k < |packets|
  {
    PatAt(lib, ch, s, packets, k) && forall j :: 0 <= j < k ==> !PatAt(lib, ch, s, packets, j)
  }

  ghost predicate FirstPmtAt(lib: Parser, ch: ChannelInfo, s: StreamState, packets: seq<Packet>, k: nat)
    requires k < |packets|
  {
    PmtAt(lib, ch, s, packets, k) && forall j :: 0 <= j < k ==> !PmtAt(lib, ch, s, packets, j)
  }

  ghost predicate UsableAt(lib: Parser, ch: ChannelInfo, s: StreamState, packets: seq<Packet>, k: nat)
    requires k < |packets|
  {
    PatAt(lib, ch, s, packets, k) && HasUsable(PatOf(lib, ch, s, packets, k))
  }

  ghost predicate FirstUsableAt(lib: Parser, ch: ChannelInfo, s: StreamState, packets: seq<Packet>, k: nat)
    requires k < |packets|
  {
    UsableAt(lib, ch, s, packets, k) && forall j :: 0 <= j < k ==> !UsableAt(lib, ch, s, packets, j)
  }

  /** What the first `n` packets have brought: a rewritten PAT, PIDs, a rewritten PMT. */
  ghost predicate HasPat(lib: Parser, ch: ChannelInfo, s: StreamState, packets: seq<Packet>, n: nat)
    requires n <= |packets|
  {
    var t := Before(lib, ch, s, packets, n).stream;
    if t.newPat.Some?
    then exists k :: 0 <= k < n && FirstPatAt(lib, ch, s, packets, k) && t.pat0 == PatOf(lib, ch, s, packets, k)
    else forall k :: 0 <= k < n ==> !PatAt(lib, ch, s, packets, k)
  }

  ghost predicate HasPids(lib: Parser, ch: ChannelInfo, s: StreamState, packets: seq<Packet>, n: nat)
    requires n <= |packets|
  {
    var t := Before(lib, ch, s, packets, n).stream;
    if HasUsable(t.learnt)
    then exists k :: 0 <= k < n && FirstUsableAt(lib, ch, s, packets, k) && t.learnt == PatOf(lib, ch, s, packets, k)
    else forall k :: 0 <= k < n ==> !UsableAt(lib, ch, s, packets, k)
  }

  ghost predicate HasPmt(lib: Parser, ch: ChannelInfo, s: StreamState, packets: seq<Packet>, n: nat)
    requires n <= |packets|
  {
    var t := Before(lib, ch, s, packets, n).stream;
    if t.newPmt.Some?
    then exists k :: 0 <= k < n && FirstPmtAt(lib, ch, s, packets, k) && t.pmt0 == PmtOf(lib, ch, s, packets, k)
    else forall k :: 0 <= k < n ==> !PmtAt(lib, ch, s, packets, k)
  }

  /** Packet `n` in the terms of the predicates above. */
  lemma StepLearnsAt(lib: Parser, ch: ChannelInfo, s: StreamState, packets: seq<Packet>, n: nat)
    requires n < |packets|
    ensures var t, u := Before(lib, ch, s, packets, n).stream, Before(lib, ch, s, packets, n + 1).stream;
            var pat, pmt := PatAt(lib, ch, s, packets, n), PmtAt(lib, ch, s, packets, n);
            && (u.newPat.Some? <==> t.newPat.Some? || pat)
            && u.pat0 == (if t.newPat == None && pat then PatOf(lib, ch, s, packets, n) else t.pat0)
            && u.learnt == (if pat && !HasUsable(t.learnt) then PatOf(lib, ch, s, packets, n) else t.learnt)
            && (u.newPmt.Some? <==> t.newPmt.Some? || pmt)
            && u.pmt0 == if t.newPmt == None && pmt then PmtOf(lib, ch, s, packets, n) else t.pmt0
  {
    OneMore(lib, ch, s, packets, n);
    BeforeFromLearnt(lib, ch, s, packets, n);
    hide Before, Step, FromLearnt, CompletesPat, CompletesPmt, HasUsable;
    StepLearns(lib, ch, Before(lib, ch, s, packets, n).stream, packets[n]);
  }

  lemma HasPatStep(lib: Parser, ch: ChannelInfo, s: StreamState, packets: seq<Packet>, n: nat)
    requires n < |packets| && HasPat(lib, ch, s, packets, n)
    ensures HasPat(lib, ch, s, packets, n + 1)
  {
    hide Before, PatAt, PatOf, HasUsable;
    StepLearnsAt(lib, ch, s, packets, n);
  }

  lemma HasPidsStep(lib: Parser, ch: ChannelInfo, s: StreamState, packets: seq<Packet>, n: nat)
    requires n < |packets| && HasPids(lib, ch, s, packets, n)
    ensures HasPids(lib, ch, s, packets, n + 1)
  {
    hide Before, PatAt, PatOf, HasUsable;
    StepLearnsAt(lib, ch, s, packets, n);
  }

  lemma HasPmtStep(lib: Parser, ch: ChannelInfo, s: StreamState, packets: seq<Packet>, n: nat)
    requires n < |packets| && HasPmt(lib, ch, s, packets, n)
    ensures HasPmt(lib, ch, s, packets, n + 1)
  {
    hide Before, PmtAt, PmtOf, HasUsable;
    StepLearnsAt(lib, ch, s, packets, n);
  }

  /** Over every connection: the PAT that is rewritten is the first one that was complete, the PIDs
      are those of the first complete PAT with a program in it, and the PMT that is rewritten is
      the first one that was complete; without such a packet nothing is. */
  lemma {:induction false} LearntFrom(lib: Parser, ch: ChannelInfo, s: StreamState, packets: seq<Packet>, n: nat)
    requires n <= |packets|
    ensures HasPat(lib, ch, s, packets, n) && HasPids(lib, ch, s, packets, n) && HasPmt(lib, ch, s, packets, n)
  {
    hide HasPat, HasPids, HasPmt;
    if n == 0 {
      NothingLearnt(lib, ch, s, packets);
    } else {
      LearntFrom(lib, ch, s, packets, n - 1);
      HasPatStep(lib, ch, s, packets, n - 1);
      HasPidsStep(lib, ch, s, packets, n - 1);
      HasPmtStep(lib, ch, s, packets, n - 1);
    }
  }

  lemma NothingLearnt(lib: Parser, ch: ChannelInfo, s: StreamState, packets: seq<Packet>)
    ensures HasPat(lib, ch, s, packets, 0) && HasPids(lib, ch, s, packets, 0) && HasPmt(lib, ch, s, packets, 0)
  {
    assert packets[..0] == [];
  }

  /** A connection begins with nothing collected, learnt or seen, and depends on what went before
      only in the two continuity counters. */
  lemma {:induction false} ConnectionForgets(lib: Parser, ch: ChannelInfo, s: StreamState, t: StreamState,
                                             packets: seq<Packet>)
    requires s.pmtCont == t.pmtCont && s.eitCont == t.eitCont
    ensures Connection(lib, ch, s, packets) == Connection(lib, ch, t, packets)
    ensures var u := Connection(lib, ch, s, []).stream;
            && !u.pat.ready && !u.lastPat.ready && u.newPat == None && !u.pmt.ready && !u.lastPmt.ready
            && u.newPmt == None && !u.eit.ready && u.inputPcr == 0 && u.pmtPid == 0
  {
    hide Step, FreshTable;
    if packets != [] {
      ConnectionForgets(lib, ch, s, t, packets[..|packets| - 1]);
    }
  }
}
