/** The input thread's code for one connection, with its loops and fields, proved to do what
    `Admission` says. */
module Receiver {
  import opened Ts
  import opened PidRef
  import opened Rewrite
  import opened Admission
  import opened RewriteTheorems
  import opened AdmissionTheorems
  import opened Forwarding

  class InputStream {
    const lib: Parser
    const ch: ChannelInfo
    var pidref: PidTable
    var nitPid: nat
    var pmtPid: nat
    var pcrPid: nat
    var inputPcr: nat
    var pat: PatState
    var lastPat: PatState
    var newPat: Option<Pat>
    var pmt: PmtState
    var lastPmt: PmtState
    var newPmt: Option<Pmt>
    var pmtCont: nat
    var eit: EitState
    var eitCont: nat
    var inputReady: nat
    ghost var pat0: Pat
    ghost var learnt: Pat
    ghost var pmt0: Pmt

    ghost function Table(): Pids
      reads this, pidref, pidref.entries
    {
      Pids(pidref.entries[..], pidref.basePid)
    }

    ghost function View(): StreamState
      reads this, pidref, pidref.entries
    {
      StreamState(Table(), nitPid, pmtPid, pcrPid, inputPcr, pat, lastPat, newPat, pat0,
                  pmt, lastPmt, newPmt, pmt0, pmtCont, eit, eitCont, learnt)
    }

    constructor (lib: Parser, ch: ChannelInfo)
      ensures this.lib == lib && this.ch == ch && fresh(pidref) && fresh(pidref.entries)
      ensures pmtCont == 0 && eitCont == 0 && inputReady == 0
    {
      this.lib, this.ch := lib, ch;
      pidref := new PidTable(TABLE_SIZE, BLOCK * ch.index);
      nitPid, pmtPid, pcrPid, inputPcr, pmtCont, eitCont, inputReady := 0, 0, 0, 0, 0, 0, 0;
      pat, lastPat, newPat, pat0, learnt := NO_PAT, NO_PAT, None, Pat([]), Pat([]);
      pmt, lastPmt, newPmt, pmt0 := NO_PMT, NO_PMT, None, NO_PMT.pmt;
      eit := NO_EIT;
    }

    /** The parts of `input_stream_free` that drop the collected tables. */
    method FreePats()
      modifies this`pat, this`lastPat, this`newPat, this`pat0, this`learnt
      ensures View() == old(View()).(pat := NO_PAT, lastPat := NO_PAT, newPat := None, pat0 := Pat([]),
                                     learnt := Pat([]))
    {
      pat, lastPat, newPat, pat0, learnt := NO_PAT, NO_PAT, None, Pat([]), Pat([]);
    }

    method FreePmts()
      modifies this`pmt, this`lastPmt, this`newPmt, this`pmt0, this`eit
      ensures View() == old(View()).(pmt := NO_PMT, lastPmt := NO_PMT, newPmt := None, pmt0 := NO_PMT.pmt,
                                     eit := NO_EIT)
    {
      pmt, lastPmt, newPmt, pmt0 := NO_PMT, NO_PMT, None, NO_PMT.pmt;
      eit := NO_EIT;
    }

    /** `input_stream_reset` */
    method ResetStream()
      modifies this
      ensures View() == Reset(ch, old(View())) && fresh(pidref) && fresh(pidref.entries)
      ensures inputReady == old(inputReady)
    {
      hide FreshTable;
      FreePats();
      FreePmts();
      nitPid, pmtPid, pcrPid, inputPcr := 0, 0, 0, 0;
      pidref := NewTable();
    }

    method NewTable() returns (t: PidTable)
      ensures fresh(t) && fresh(t.entries)
      ensures Pids(t.entries[..], t.basePid) == FreshTable(ch.index)
    {
      t := new PidTable(TABLE_SIZE, BLOCK * ch.index);
      assert t.entries[..] == FreshTable(ch.index).entries;
    }

    /** The next PID is handed out to `org`. */
    method HandOutTo(org: nat) returns (pid: nat)
      modifies pidref, pidref.entries
      ensures pid == old(pidref.basePid)
      ensures Table() == HandOut(old(Table()), org)
    {
      pid := pidref.basePid;
      var _ := pidref.Add(org, pid);
      pidref.basePid := (pidref.basePid + 1) % WORD16;
    }

    /** `input_rewrite_pat` */
    method RewriteThePat()
      modifies this`newPat, this`pat0, pidref, pidref.entries
      ensures View() == old(View()).(table := RewritePat(old(Table()), ch.service, pat.pat).0,
                                     newPat := Some(RewritePat(old(Table()), ch.service, pat.pat).1), pat0 := pat.pat)
    {
      var programs := pat.pat.programs;
      var done: seq<Program> := [];
      ghost var before := Table();
      for i := 0 to |programs|
        invariant (Table(), done) == RewritePrograms(before, ch.service, programs[..i])
      {
        assert programs[..i + 1][..i] == programs[..i];
        if programs[i].number != 0 {
          var pid := HandOutTo(programs[i].pid);
          done := done + [Program(ch.service, pid)];
        } else {
          done := done + [programs[i]];
        }
      }
      assert programs[..|programs|] == programs;
      newPat := Some(Pat(done));
      pat0 := pat.pat;
    }

    /** `input_rewrite_pmt` */
    method RewriteThePmt()
      modifies this`newPmt, this`pmt0, this`pcrPid, pidref, pidref.entries
      ensures View() == old(View()).(table := RewritePmt(old(Table()), ch.service, pmtPid, pmt.pmt).0,
                                     newPmt := Some(RewritePmt(old(Table()), ch.service, pmtPid, pmt.pmt).1),
                                     pmt0 := pmt.pmt, pcrPid := pmt.pmt.pcrPid)
      ensures newPmt.Some? && PmtSays(ch.service, pmt.pmt, newPmt.value)
    {
      hide PmtSays, HandOut, Added;
      NewPmtIs(Table(), ch.service, pmtPid, pmt.pmt);
      var streams := pmt.pmt.streams;
      var newPid := pidref.GetNewPid(pmtPid);
      pcrPid := pmt.pmt.pcrPid;
      var newPcr := HandOutTo(pcrPid);
      var done: seq<Rewrite.Stream> := [];
      ghost var before := Table();
      for i := 0 to |streams|
        invariant pcrPid == pmt.pmt.pcrPid
        invariant (Table(), done) == RewriteStreams(before, pcrPid, newPcr, streams[..i])
      {
        assert streams[..i + 1][..i] == streams[..i];
        if streams[i].pid == pcrPid {
          done := done + [streams[i].(pid := newPcr)];
        } else {
          var pid := HandOutTo(streams[i].pid);
          done := done + [streams[i].(pid := pid)];
        }
      }
      assert streams[..|streams|] == streams;
      newPmt := Some(Pmt(newPid, ch.service, newPcr, done));
      pmt0 := pmt.pmt;
    }

    /** `input_process_pat`.  The loop stops at the first program with a PID, so it never counts
        more than one, and the test for a multi-program source that follows it never succeeds. */
    method LearnPids() returns (numPrograms: nat)
      requires pmtPid == 0
      modifies this`nitPid, this`pmtPid, this`learnt
      ensures nitPid == NitPid(pat.pat.programs, 0x10) && pmtPid == PmtPid(pat.pat.programs)
      ensures numPrograms == (if pmtPid != 0 then 1 else 0) <= 1
      ensures learnt == pat.pat
    {
      learnt := pat.pat;
      var programs := pat.pat.programs;
      numPrograms := 0;
      nitPid := 0x10;
      var i := 0;
      while i < |programs|
        invariant i <= |programs| && pmtPid == 0 && numPrograms == 0 && learnt == pat.pat
        invariant NitPid(programs, 0x10) == NitPid(programs[i..], nitPid)
        invariant PmtPid(programs) == PmtPid(programs[i..])
      {
        if programs[i].pid != 0 {
          if programs[i].number == 0 {
            nitPid := programs[i].pid;
          } else {
            pmtPid := programs[i].pid;
            numPrograms := numPrograms + 1;
            return;
          }
        }
        i := i + 1;
      }
    }

    /** The part of `process_pat` for a complete PAT. */
    method UseThePat()
      modifies this`nitPid, this`pmtPid, this`learnt, this`newPat, this`pat0, pidref, pidref.entries
      ensures View() == UsePat(ch, old(View()))
    {
      hide RewritePat, NitPid, PmtPid;
      if pmtPid == 0 {
        var _ := LearnPids();
      }
      if newPat == None {
        RewriteThePat();
      }
    }

    /** `process_pat` */
    method ProcessThePat(p: Packet) returns (reconnect: bool)
      modifies this`pat, this`lastPat, this`nitPid, this`pmtPid, this`learnt, this`newPat, this`pat0
      modifies pidref, pidref.entries
      ensures ProcessPat(lib, ch, old(View()), p) == Outcome(View(), [], reconnect)
    {
      hide UsePat;
      pat := lib.pushPat(pat, p);
      if lastPat.ready {
        if !pat.ready {
          return false;
        }
        if !lib.samePat(pat, lastPat) {
          return true;
        }
        lastPat := NO_PAT;
      }
      lastPat := lib.pushPat(lastPat, p);
      if pat.ready {
        UseThePat();
      }
      reconnect := false;
    }

    /** The part of `process_pmt` for a complete PMT. */
    method UseThePmt() returns (offers: seq<Offer>)
      modifies this`newPmt, this`pmt0, this`pcrPid, this`pmtCont, pidref, pidref.entries
      ensures UsePmt(lib, ch, old(View())) == Outcome(View(), offers, false)
      ensures !Forwards(offers)
    {
      hide RewritePmt;
      if newPmt == None {
        RewriteThePmt();
      }
      var n := lib.pmtPackets(newPmt.value);
      offers := [Offer(PmtTable, SectionPackets(ch, newPmt.value.pid, pmtCont, n))];
      pmtCont := (pmtCont + n) % 16;
    }

    /** `process_pmt`; `done` is false for a section that is not complete yet. */
    method ProcessThePmt(p: Packet) returns (done: bool, offers: seq<Offer>, reconnect: bool)
      modifies this`pmt, this`lastPmt, this`newPmt, this`pmt0, this`pcrPid, this`pmtCont, pidref, pidref.entries
      ensures ProcessPmt(lib, ch, old(View()), p) ==
              (ProcessPmt(lib, ch, old(View()), p).0, if done then Some(Outcome(View(), offers, reconnect)) else None)
      ensures !done ==> View() == ProcessPmt(lib, ch, old(View()), p).0
      ensures !Forwards(offers)
    {
      hide UsePmt;
      done, offers, reconnect := true, [], false;
      pmt := lib.pushPmt(pmt, p);
      if lastPmt.ready {
        if !pmt.ready {
          return;
        }
        if !lib.samePmt(pmt, lastPmt) {
          reconnect := true;
          return;
        }
        lastPmt := NO_PMT;
      }
      lastPmt := lib.pushPmt(lastPmt, p);
      done := pmt.ready;
      if done {
        offers := UseThePmt();
      }
    }

    /** `process_eit` */
    method ProcessTheEit(p: Packet) returns (offers: seq<Offer>)
      modifies this`eit, this`eitCont
      ensures ProcessEit(lib, ch, old(View()), p) == Outcome(View(), offers, false)
      ensures !Forwards(offers)
    {
      offers := [];
      if ch.eitMode != 0 {
        eit := lib.pushEit(eit, p);
        if eit.ready && eit.service == ch.service {
          offers := [Offer(EitTable, SectionPackets(ch, EIT_PID, eitCont, eit.packets))];
          eitCont := (eitCont + eit.packets) % 16;
          eit := NO_EIT;
        }
      }
    }

    /** The rest of the loop body: kill, watch the clock, forward. */
    method ForwardIt(p: Packet) returns (offers: seq<Offer>)
      modifies this`inputPcr, this`inputReady
      ensures Forward(old(View()), p) == Outcome(View(), offers, false)
      ensures var passes := p.pid != nitPid && p.pid != 0x10 && p.pid != 0x11 && p.pid != 0x12 && p.pid != 0x13 &&
                            p.pid != 0x14 && p.pid < 0x1fff;
              && inputPcr == (if passes && newPmt.Some? && p.pid == pcrPid && HasPcr(p) then p.pcr.value
                              else old(inputPcr))
              && (offers == [] <==> !passes || inputPcr == 0)
      ensures forall i :: 0 <= i < |offers| ==>
                && offers[i].kind == Forwarded(p)
                && |offers[i].packets| == 1 && IsRenamed(pidref.entries[..], p, offers[i].packets[0])
      ensures inputReady == if Forwards(offers) && old(inputReady) == 0 then 1 else old(inputReady)
    {
      offers := [];
      var pid := p.pid;
      if pid == EIT_PID || pid == nitPid || pid == 0x10 || pid == 0x11 || pid == 0x13 || pid == 0x14 || pid >= 0x1fff {
        return;
      }
      if newPmt.Some? && pid == pcrPid && HasPcr(p) {
        inputPcr := p.pcr.value;
      }
      if inputPcr != 0 {
        var q := pidref.ChangePacketPid(p);
        offers := [Offer(Forwarded(p), [q])];
        assert offers[0].kind.Forwarded?;
        if inputReady == 0 {
          inputReady := 1;
        }
      }
    }

    /** The body of the packet loop.  `inputReady` is set with the first packet forwarded. */
    method Receive(p: Packet) returns (offers: seq<Offer>, reconnect: bool)
      modifies this, pidref, pidref.entries
      ensures Step(lib, ch, old(View()), p) == Outcome(View(), offers, reconnect)
      ensures pidref == old(pidref)
      ensures inputReady == if Forwards(offers) && old(inputReady) == 0 then 1 else old(inputReady)
    {
      hide ProcessPat, ProcessPmt, ProcessEit, Forward;
      offers, reconnect := [], false;
      if p.pid == 0 {
        reconnect := ProcessThePat(p);
        return;
      }
      if p.pid == pmtPid {
        var done;
        done, offers, reconnect := ProcessThePmt(p);
        if done {
          return;
        }
      }
      if p.pid == EIT_PID {
        offers := ProcessTheEit(p);
      } else {
        offers := ForwardIt(p);
      }
      reconnect := false;
    }

    /** One connection: reset, then the packets as they are read, until a table changes.  What
        passes is exactly known, the first to pass is a clock after the rewritten PMT, and nothing
        offered is padding. */
    method Serve(packets: seq<Packet>) returns (offers: seq<Offer>, reconnect: bool)
      modifies this
      ensures Connection(lib, ch, old(View()), packets) == Outcome(View(), offers, reconnect)
      ensures Opening(ch, View(), offers)
      ensures Passed(offers) == PassedOf(lib, ch, old(View()), packets, |packets|)
      ensures reconnect <==> exists k :: 0 <= k < |packets| && ChangesAt(lib, ch, old(View()), packets, k)
      ensures 1 <= ch.index < 32 && SectionsFit(lib) ==> forall i :: 0 <= i < |offers| ==> Unpadded(offers[i])
      ensures inputReady == if Forwards(offers) && old(inputReady) == 0 then 1 else old(inputReady)
    {
      hide Connection, Step, Reset, Opening, Unpadded, SectionsFit, Forwards, Passed, PassedOf, ChangesAt;
      ghost var start := View();
      ResetStream();
      offers, reconnect := [], false;
      NothingRead(lib, ch, start);
      var i := 0;
      while i < |packets| && !reconnect
        invariant i <= |packets| && fresh(pidref) && fresh(pidref.entries)
        invariant Connection(lib, ch, start, packets[..i]) == Outcome(View(), offers, reconnect)
        invariant inputReady == if Forwards(offers) && old(inputReady) == 0 then 1 else old(inputReady)
      {
        ghost var before := offers;
        OneMoreRead(lib, ch, start, packets, i);
        var more;
        more, reconnect := Receive(packets[i]);
        offers := offers + more;
        ForwardsMore(before, more);
        i := i + 1;
      }
      Reconnected(lib, ch, start, packets, i);
      assert packets[..|packets|] == packets;
      ConnectionOpens(lib, ch, start, packets);
      ForwardsExactly(lib, ch, start, packets);
      ReconnectsExactly(lib, ch, start, packets);
      if 1 <= ch.index < 32 && SectionsFit(lib) {
        NothingPadded(lib, ch, start, packets);
      }
    }
  }

  lemma NothingRead(lib: Parser, ch: ChannelInfo, s: StreamState)
    ensures Connection(lib, ch, s, []) == Outcome(Reset(ch, s), [], false)
    ensures !Forwards([])
  {
  }

  lemma OneMoreRead(lib: Parser, ch: ChannelInfo, s: StreamState, packets: seq<Packet>, i: nat)
    requires i < |packets| && !Connection(lib, ch, s, packets[..i]).reconnect
    ensures var before := Connection(lib, ch, s, packets[..i]);
            var now := Step(lib, ch, before.stream, packets[i]);
            Connection(lib, ch, s, packets[..i + 1]) == now.(offers := before.offers + now.offers)
  {
    hide Step;
    assert packets[..i + 1][..i] == packets[..i];
  }

  /** A packet of the source is among the offers. */
  predicate Forwards(offers: seq<Offer>) {
    exists i :: 0 <= i < |offers| && offers[i].kind.Forwarded?
  }

  lemma ForwardsMore(a: seq<Offer>, b: seq<Offer>)
    ensures Forwards(a + b) <==> Forwards(a) || Forwards(b)
  {
    if Forwards(a) {
      var i :| 0 <= i < |a| && a[i].kind.Forwarded?;
      assert (a + b)[i].kind.Forwarded?;
    }
    if Forwards(b) {
      var i :| 0 <= i < |b| && b[i].kind.Forwarded?;
      assert (a + b)[|a| + i].kind.Forwarded?;
    }
  }

  /** Nothing is read after a reconnect. */
  lemma {:induction false} Reconnected(lib: Parser, ch: ChannelInfo, s: StreamState, packets: seq<Packet>, n: nat)
    requires n <= |packets|
    ensures Connection(lib, ch, s, packets[..n]).reconnect ==>
              Connection(lib, ch, s, packets) == Connection(lib, ch, s, packets[..n])
    decreases |packets|
  {
    if n < |packets| {
      var init := packets[..|packets| - 1];
      Reconnected(lib, ch, s, init, n);
      assert init[..n] == packets[..n];
    } else {
      assert packets[..n] == packets;
    }
  }
}
