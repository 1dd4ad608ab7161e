/** What enters an input's buffer, over every connection and whatever the section parser does. */
module AdmissionTheorems {
  import opened Ts
  import opened PidRef
  import opened Rewrite
  import opened RewriteTheorems
  import opened Admission

  // ---- Rewriting happens once

  /** The PID table and the rewritten tables hang together. */
  predicate TablesAgree(ch: ChannelInfo, s: StreamState) {
    var fresh0 := FreshTable(ch.index);
    && (s.pmtPid != 0 ==> s.newPat.Some?)
    && (s.newPmt.Some? ==> s.newPat.Some?)
    && (s.newPat == None ==> s.table == fresh0)
    && (s.newPat.Some? ==>
          && s.newPat.value == RewritePat(fresh0, ch.service, s.pat0).1
          && (PmtPid(s.pat0.programs) != 0 ==> s.pmtPid == PmtPid(s.pat0.programs))
          && (s.newPmt == None ==> s.table == RewritePat(fresh0, ch.service, s.pat0).0))
    && (s.newPmt.Some? ==>
          && s.table == Final(fresh0, ch.service, s.pat0, s.pmt0)
          && s.pcrPid == s.pmt0.pcrPid
          && s.pmtPid != 0
          && s.newPmt.value == RewritePmt(RewritePat(fresh0, ch.service, s.pat0).0, ch.service, s.pmtPid, s.pmt0).1)
  }

  /** What has been rewritten stays as it is, and so does the table. */
  predicate Settled(s: StreamState, t: StreamState) {
    && (s.newPat.Some? ==> t.newPat == s.newPat && t.pat0 == s.pat0)
    && (s.newPmt.Some? ==> t.newPmt == s.newPmt && t.pmt0 == s.pmt0 && t.table == s.table && t.pcrPid == s.pcrPid)
  }

  lemma PatAgrees(lib: Parser, ch: ChannelInfo, s: StreamState, p: Packet)
    requires TablesAgree(ch, s)
    ensures var t := ProcessPat(lib, ch, s, p).stream; TablesAgree(ch, t) && Settled(s, t)
  {
    hide RewritePat, RewritePmt, FreshTable, PmtPid, NitPid;
  }

  lemma PmtAgrees(lib: Parser, ch: ChannelInfo, s: StreamState, p: Packet)
    requires TablesAgree(ch, s) && s.pmtPid != 0
    ensures var (t, done) := ProcessPmt(lib, ch, s, p);
            if done.Some? then TablesAgree(ch, done.value.stream) && Settled(s, done.value.stream)
            else TablesAgree(ch, t) && Settled(s, t)
  {
    hide RewritePat, RewriteStreams, HandOut, Lookup, FreshTable, PmtPid;
  }

  /** The fields that `TablesAgree` and `Settled` speak of are the same. */
  predicate SameTables(s: StreamState, t: StreamState) {
    && t.table == s.table && t.pmtPid == s.pmtPid && t.pcrPid == s.pcrPid
    && t.newPat == s.newPat && t.pat0 == s.pat0 && t.newPmt == s.newPmt && t.pmt0 == s.pmt0
  }

  lemma OthersAgree(lib: Parser, ch: ChannelInfo, s: StreamState, p: Packet)
    ensures SameTables(s, Forward(s, p).stream) && SameTables(s, ProcessEit(lib, ch, s, p).stream)
  {
    hide Killed;
  }

  lemma SameAgrees(ch: ChannelInfo, r: StreamState, s: StreamState, t: StreamState)
    requires TablesAgree(ch, s) && SameTables(s, t)
    ensures TablesAgree(ch, t) && Settled(s, t)
    ensures Settled(r, s) ==> Settled(r, t)
  {
    hide Final, RewritePmt, RewritePat, FreshTable, PmtPid;
  }

  lemma StepAgrees(lib: Parser, ch: ChannelInfo, s: StreamState, p: Packet)
    requires TablesAgree(ch, s)
    ensures var t := Step(lib, ch, s, p).stream; TablesAgree(ch, t) && Settled(s, t)
  {
    hide ProcessPat, ProcessPmt, ProcessEit, Forward, TablesAgree, Settled;
    if p.pid == 0 {
      PatAgrees(lib, ch, s, p);
    } else {
      var u := s;
      if p.pid == s.pmtPid {
        PmtAgrees(lib, ch, s, p);
        u := ProcessPmt(lib, ch, s, p).0;
      }
      if p.pid != s.pmtPid || ProcessPmt(lib, ch, s, p).1 == None {
        var t := Step(lib, ch, s, p).stream;
        OthersAgree(lib, ch, u, p);
        SameAgrees(ch, s, u, t);
      }
    }
  }

  // ---- The first packet through

  /** Offers before `i` forward nothing. */
  predicate Silent(offers: seq<Offer>, n: nat) {
    n <= |offers| && forall i :: 0 <= i < n ==> !offers[i].kind.Forwarded?
  }

  /** The first packet forwarded bears a clock on the PMT's PCR PID, and the rewritten PMT was
      offered before it. */
  predicate OpensWithClock(s: StreamState, offers: seq<Offer>) {
    forall i :: 0 <= i < |offers| && offers[i].kind.Forwarded? && Silent(offers, i) ==>
      var p := offers[i].kind.source;
      && s.newPmt.Some? && p.pid == s.pmt0.pcrPid && HasPcr(p) && p.pcr.value != 0
      && |offers[i].packets| == 1 && IsRenamed(s.table.entries, p, offers[i].packets[0])
      && exists j :: 0 <= j < i && offers[j].kind.PmtTable?
  }

  predicate HasPmt(offers: seq<Offer>) {
    exists j :: 0 <= j < |offers| && offers[j].kind.PmtTable?
  }

  predicate Opening(ch: ChannelInfo, s: StreamState, offers: seq<Offer>) {
    && TablesAgree(ch, s)
    && OpensWithClock(s, offers)
    && (s.inputPcr != 0 ==> !Silent(offers, |offers|))
    && (s.newPmt.Some? ==> HasPmt(offers))
    && (!Silent(offers, |offers|) ==> s.newPmt.Some?)
  }

  /** What one packet can do to the offers. */
  predicate OneOffer(s: StreamState, now: Outcome, p: Packet) {
    var t, o := now.stream, now.offers;
    && |o| <= 1
    && (o == [] ==> (s.newPmt == None ==> t.newPmt == None) && (s.inputPcr == 0 ==> t.inputPcr == 0))
    && (|o| == 1 && !o[0].kind.Forwarded? ==> t.inputPcr == s.inputPcr)
    && (|o| == 1 && o[0].kind.PmtTable? ==> t.newPmt.Some?)
    && (|o| == 1 && !o[0].kind.PmtTable? ==> t.newPmt == s.newPmt)
    && (|o| == 1 && o[0].kind.Forwarded? ==>
          && o[0].kind.source == p && o[0].packets == [Renamed(t.table.entries, p)]
          && t.inputPcr != 0
          && (s.inputPcr == 0 ==> s.newPmt.Some? && p.pid == t.pcrPid && HasPcr(p) && p.pcr.value != 0))
  }

  lemma StepOffers(lib: Parser, ch: ChannelInfo, s: StreamState, p: Packet)
    ensures OneOffer(s, Step(lib, ch, s, p), p)
  {
    hide RewritePat, RewritePmt, PmtPid, NitPid, Killed, Lookup;
  }

  lemma OpeningStep(ch: ChannelInfo, s: StreamState, offers: seq<Offer>, now: Outcome, p: Packet)
    requires Opening(ch, s, offers) && OneOffer(s, now, p)
    requires TablesAgree(ch, now.stream) && Settled(s, now.stream)
    ensures Opening(ch, now.stream, offers + now.offers)
  {
    hide Final, RewritePmt, RewritePat, FreshTable, PmtPid, Renamed, IsRenamed;
    RenamedIs(now.stream.table.entries, p);
    var t, more := now.stream, offers + now.offers;
    if now.offers == [] {
      assert more == offers;
    } else {
      assert forall i :: 0 <= i < |offers| ==> more[i] == offers[i];
      assert more[|offers|] == now.offers[0];
      if HasPmt(offers) {
        var j :| 0 <= j < |offers| && offers[j].kind.PmtTable?;
        assert more[j].kind.PmtTable?;
      }
      assert Silent(offers, |offers|) <==> Silent(more, |offers|);
      forall i | 0 <= i < |more| && more[i].kind.Forwarded? && Silent(more, i)
        ensures var q := more[i].kind.source;
                && t.newPmt.Some? && q.pid == t.pmt0.pcrPid && HasPcr(q) && q.pcr.value != 0
                && |more[i].packets| == 1 && IsRenamed(t.table.entries, q, more[i].packets[0])
                && exists j :: 0 <= j < i && more[j].kind.PmtTable?
      {
        if i < |offers| {
          assert Silent(offers, i);
        }
      }
    }
  }

  /** Admission, over every connection: the first packet forwarded bears a clock on the PMT's
      PCR PID, after the rewritten PMT has been offered; and the PID table is what rewriting
      the PAT and the PMT once each makes of a fresh one. */
  lemma {:induction false} ConnectionOpens(lib: Parser, ch: ChannelInfo, s: StreamState, packets: seq<Packet>)
    ensures var c := Connection(lib, ch, s, packets);
            TablesAgree(ch, c.stream) && Opening(ch, c.stream, c.offers)
  {
    if packets != [] {
      var init, p := packets[..|packets| - 1], packets[|packets| - 1];
      ConnectionOpens(lib, ch, s, init);
      var before := Connection(lib, ch, s, init);
      if !before.reconnect {
        StepAgrees(lib, ch, before.stream, p);
        StepOffers(lib, ch, before.stream, p);
        OpeningStep(ch, before.stream, before.offers, Step(lib, ch, before.stream, p), p);
      }
      hide Step, TablesAgree, Opening;
    }
  }

  /** In one connection the PAT and the PMT are rewritten at most once each: what the first
      `n` packets have settled stays. */
  lemma {:induction false} RewrittenOnce(lib: Parser, ch: ChannelInfo, s: StreamState, packets: seq<Packet>, n: nat)
    requires n <= |packets|
    ensures Settled(Connection(lib, ch, s, packets[..n]).stream, Connection(lib, ch, s, packets).stream)
    decreases |packets|
  {
    if n == |packets| {
      assert packets[..n] == packets;
    } else {
      var init, p := packets[..|packets| - 1], packets[|packets| - 1];
      RewrittenOnce(lib, ch, s, init, n);
      assert init[..n] == packets[..n];
      ConnectionOpens(lib, ch, s, init);
      StepAgrees(lib, ch, Connection(lib, ch, s, init).stream, p);
      hide Step, TablesAgree, Opening;
    }
  }

  // ---- No padding

  predicate Unpadded(o: Offer) {
    forall i :: 0 <= i < |o.packets| ==> o.packets[i].pid < NULL_PID
  }

  /** The PIDs handed out end below the PID of null packets. */
  predicate Small(ch: ChannelInfo, s: StreamState) {
    BLOCK * ch.index + |HandedOut(s.pat0, s.pmt0)| <= NULL_PID
  }

  lemma LookupIsSmall(ch: ChannelInfo, orgs: seq<nat>, x: nat)
    requires ch.index > 0 && BLOCK * ch.index + |orgs| <= NULL_PID
    ensures Lookup(HandOutAll(FreshTable(ch.index), orgs).entries, x) < NULL_PID
  {
    var t := FreshTable(ch.index);
    assert Fresh(t, TABLE_SIZE);
    LookupInjective(t, orgs, TABLE_SIZE, x, x);
  }

  /** The PIDs that the packet loop puts on what it offers. */
  predicate OfferPids(now: Outcome, p: Packet) {
    forall i, j :: 0 <= i < |now.offers| && 0 <= j < |now.offers[i].packets| ==>
      var o, q := now.offers[i], now.offers[i].packets[j];
      match o.kind
      case PmtTable => now.stream.newPmt.Some? && q.pid == now.stream.newPmt.value.pid % (NULL_PID + 1)
      case EitTable => q.pid == EIT_PID
      case Forwarded(_) => p.pid < NULL_PID && q == Renamed(now.stream.table.entries, p)
  }

  lemma StepPids(lib: Parser, ch: ChannelInfo, s: StreamState, p: Packet)
    ensures OfferPids(Step(lib, ch, s, p), p)
  {
    hide RewritePat, RewritePmt, PmtPid, NitPid, Lookup;
  }

  lemma TablePidsSmall(ch: ChannelInfo, t: StreamState, x: nat)
    requires ch.index > 0 && TablesAgree(ch, t) && t.newPmt.Some? && Small(ch, t)
    ensures t.newPmt.value.pid < NULL_PID && Lookup(t.table.entries, x) < NULL_PID
  {
    FinalIs(FreshTable(ch.index), ch.service, t.pat0, t.pmt0);
    LookupIsSmall(ch, HandedOut(t.pat0, t.pmt0), x);
    LookupIsSmall(ch, ProgramPids(t.pat0.programs), t.pmtPid);
    hide Lookup, FreshTable, HandOutAll, RewritePat;
  }

  lemma StepUnpadded(lib: Parser, ch: ChannelInfo, s: StreamState, p: Packet)
    requires ch.index > 0
    requires var t := Step(lib, ch, s, p).stream;
             TablesAgree(ch, t) && (t.inputPcr != 0 ==> t.newPmt.Some?) && (t.newPmt.Some? ==> Small(ch, t))
    ensures forall i :: 0 <= i < |Step(lib, ch, s, p).offers| ==> Unpadded(Step(lib, ch, s, p).offers[i])
  {
    var now := Step(lib, ch, s, p);
    StepPids(lib, ch, s, p);
    StepOffers(lib, ch, s, p);
    hide Step, TablesAgree, Small;
    if now.stream.newPmt.Some? {
      TablePidsSmall(ch, now.stream, p.pid);
    }
    hide Lookup;
  }

  /** No padding is offered as long as the PIDs handed out end below that of null packets. */
  lemma {:induction false} SmallIsUnpadded(lib: Parser, ch: ChannelInfo, s: StreamState, packets: seq<Packet>)
    requires ch.index > 0
    requires var t := Connection(lib, ch, s, packets).stream; t.newPmt.Some? ==> Small(ch, t)
    ensures var offers := Connection(lib, ch, s, packets).offers;
            forall i :: 0 <= i < |offers| ==> Unpadded(offers[i])
  {
    if packets != [] {
      var n := |packets| - 1;
      var init, p := packets[..n], packets[n];
      var before := Connection(lib, ch, s, init);
      RewrittenOnce(lib, ch, s, packets, n);
      ConnectionOpens(lib, ch, s, init);
      ConnectionOpens(lib, ch, s, packets);
      SmallIsUnpadded(lib, ch, s, init);
      if !before.reconnect {
        StepUnpadded(lib, ch, before.stream, p);
      }
      hide Step, TablesAgree;
    }
  }

  // ---- Sections have 1024 bytes at most

  /** A PAT section has 12 bytes besides its programs of 4 bytes each, and a PMT section 16
      besides its streams of at least 5 (sections 2.4.4.3 and 2.4.4.8 of ISO/IEC 13818-1). */
  const MAX_PROGRAMS: nat := 253
  const MAX_STREAMS: nat := 201

  /** The section functions yield tables that fit their sections. */
  ghost predicate SectionsFit(lib: Parser) {
    && (forall s: PatState, p: Packet :: |lib.pushPat(s, p).pat.programs| <= MAX_PROGRAMS)
    && (forall s: PmtState, p: Packet :: |lib.pushPmt(s, p).pmt.streams| <= MAX_STREAMS)
  }

  predicate Limited(s: StreamState) {
    |s.pat0.programs| <= MAX_PROGRAMS && |s.pmt0.streams| <= MAX_STREAMS
  }

  lemma StepLimited(lib: Parser, ch: ChannelInfo, s: StreamState, p: Packet)
    requires SectionsFit(lib) && Limited(s)
    ensures Limited(Step(lib, ch, s, p).stream)
  {
    hide RewritePat, RewritePmt, PmtPid, NitPid, Killed, Lookup, Renamed;
  }

  lemma {:induction false} ConnectionLimited(lib: Parser, ch: ChannelInfo, s: StreamState, packets: seq<Packet>)
    requires SectionsFit(lib)
    ensures Limited(Connection(lib, ch, s, packets).stream)
  {
    if packets != [] {
      var last := |packets| - 1;
      ConnectionLimited(lib, ch, s, packets[..last]);
      var before := Connection(lib, ch, s, packets[..last]);
      if !before.reconnect {
        StepLimited(lib, ch, before.stream, packets[last]);
      }
      hide Step, SectionsFit, Limited;
    }
  }

  lemma {:induction false} ProgramPidsAtMost(ps: seq<Program>)
    ensures |ProgramPids(ps)| <= |ps|
  {
    if ps != [] {
      ProgramPidsAtMost(ps[..|ps| - 1]);
    }
  }

  lemma {:induction false} StreamPidsAtMost(pcr: nat, ss: seq<Stream>)
    ensures |StreamPids(pcr, ss)| <= |ss|
  {
    if ss != [] {
      StreamPidsAtMost(pcr, ss[..|ss| - 1]);
    }
  }

  /** Channels 1 to 31 never hand out the PID of null packets. */
  lemma ConnectionIsSmall(lib: Parser, ch: ChannelInfo, s: StreamState, packets: seq<Packet>)
    requires ch.index < 32 && SectionsFit(lib)
    ensures Small(ch, Connection(lib, ch, s, packets).stream)
  {
    hide Connection;
    var t := Connection(lib, ch, s, packets).stream;
    ConnectionLimited(lib, ch, s, packets);
    ProgramPidsAtMost(t.pat0.programs);
    StreamPidsAtMost(t.pmt0.pcrPid, t.pmt0.streams);
  }

  /** No padding gets into the buffer of any channel from 1 to 31. */
  lemma NothingPadded(lib: Parser, ch: ChannelInfo, s: StreamState, packets: seq<Packet>)
    requires 1 <= ch.index < 32 && SectionsFit(lib)
    ensures var offers := Connection(lib, ch, s, packets).offers;
            forall i :: 0 <= i < |offers| ==> Unpadded(offers[i])
  {
    hide Connection, SectionsFit, Small;
    ConnectionIsSmall(lib, ch, s, packets);
    SmallIsUnpadded(lib, ch, s, packets);
  }

  // ---- What every offer is

  /** An offer carries the tables and the renaming that the connection ends with. */
  predicate OfferIs(s: StreamState, o: Offer) {
    match o.kind
    case PmtTable =>
      && s.newPmt.Some?
      && forall j :: 0 <= j < |o.packets| ==> o.packets[j].pid == s.newPmt.value.pid % (NULL_PID + 1)
    case EitTable => forall j :: 0 <= j < |o.packets| ==> o.packets[j].pid == EIT_PID
    case Forwarded(p) =>
      && s.newPmt.Some? && p.pid < NULL_PID
      && |o.packets| == 1 && IsRenamed(s.table.entries, p, o.packets[0])
  }

  lemma OfferStays(s: StreamState, t: StreamState, o: Offer)
    requires OfferIs(s, o) && Settled(s, t)
    ensures OfferIs(t, o)
  {
    hide IsRenamed;
  }

  lemma StepOfferIs(lib: Parser, ch: ChannelInfo, s: StreamState, p: Packet)
    requires var t := Step(lib, ch, s, p).stream; t.inputPcr != 0 ==> t.newPmt.Some?
    ensures var now := Step(lib, ch, s, p); forall i :: 0 <= i < |now.offers| ==> OfferIs(now.stream, now.offers[i])
  {
    hide Step, Renamed, IsRenamed;
    var now := Step(lib, ch, s, p);
    RenamedIs(now.stream.table.entries, p);
    StepPids(lib, ch, s, p);
    StepOffers(lib, ch, s, p);
    if now.offers != [] {
      var o := now.offers[0];
      assert o.kind.Forwarded? ==> o.packets[0] == Renamed(now.stream.table.entries, p);
    }
  }

  /** Whatever a connection offers, from its first packet on, is in terms of the PID table and
      the PMT it ends with. */
  lemma {:induction false} ConnectionOffers(lib: Parser, ch: ChannelInfo, s: StreamState, packets: seq<Packet>)
    ensures var c := Connection(lib, ch, s, packets);
            forall i :: 0 <= i < |c.offers| ==> OfferIs(c.stream, c.offers[i])
  {
    if packets != [] {
      var last := |packets| - 1;
      var init, p := packets[..last], packets[last];
      var before := Connection(lib, ch, s, init);
      ConnectionOffers(lib, ch, s, init);
      if !before.reconnect {
        ConnectionOpens(lib, ch, s, init);
        ConnectionOpens(lib, ch, s, packets);
        var now := Step(lib, ch, before.stream, p);
        assert Connection(lib, ch, s, packets) == now.(offers := before.offers + now.offers);
        StepAgrees(lib, ch, before.stream, p);
        StepOfferIs(lib, ch, before.stream, p);
        hide Step, TablesAgree, OfferIs, Settled, Connection;
        forall i | 0 <= i < |before.offers| ensures OfferIs(now.stream, before.offers[i]) {
          OfferStays(before.stream, now.stream, before.offers[i]);
        }
      }
    }
  }
}
