/** From the sources to the buffers, PID by PID: what the connections of an input put into its
    buffer. */
module Feeds {
  import opened Ts
  import opened PidRef
  import opened Rewrite
  import opened RewriteTheorems
  import opened Admission
  import opened AdmissionTheorems
  import opened Forwarding
  import opened Delivery

  // ---- From the sources to the buffers

  /** One connection of an input, and which of its offers the input's buffer took. */
  datatype Feed = Feed(lib: Parser, ch: ChannelInfo, before: StreamState, packets: seq<Packet>, kept: seq<bool>)

  function Served(f: Feed): Outcome {
    Connection(f.lib, f.ch, f.before, f.packets)
  }

  lemma ServedOffer(f: Feed, i: nat)
    requires i < |Served(f).offers|
    ensures OfferIs(Served(f).stream, Served(f).offers[i])
  {
    hide OfferIs;
    ConnectionOffer(f.lib, f.ch, f.before, f.packets, i);
  }

  lemma ConnectionOffer(lib: Parser, ch: ChannelInfo, s: StreamState, packets: seq<Packet>, i: nat)
    requires i < |Connection(lib, ch, s, packets).offers|
    ensures OfferIs(Connection(lib, ch, s, packets).stream, Connection(lib, ch, s, packets).offers[i])
  {
    hide OfferIs;
    ConnectionOffers(lib, ch, s, packets);
  }

  lemma ServedOffers(f: Feed)
    ensures forall i :: 0 <= i < |Served(f).offers| ==> OfferIs(Served(f).stream, Served(f).offers[i])
  {
    hide Served, OfferIs;
    forall i | 0 <= i < |Served(f).offers| ensures OfferIs(Served(f).stream, Served(f).offers[i]) {
      ServedOffer(f, i);
    }
  }

  /** The packets of the offers that were kept. */
  function Kept(offers: seq<Offer>, kept: seq<bool>): seq<Packet>
    requires |kept| == |offers|
  {
    if offers == [] then []
    else
      var last := |offers| - 1;
      Kept(offers[..last], kept[..last]) + if kept[last] then offers[last].packets else []
  }

  /** The packets read from the source whose renamed form was kept. */
  function Sources(offers: seq<Offer>, kept: seq<bool>): seq<Packet>
    requires |kept| == |offers|
  {
    if offers == [] then []
    else
      var last := |offers| - 1;
      Sources(offers[..last], kept[..last]) + SourceOf(offers[last], kept[last])
  }

  function SourceOf(o: Offer, kept: bool): seq<Packet> {
    if kept && o.kind.Forwarded? then [o.kind.source] else []
  }

  /** A channel from 1 to 31 that hands out no more PIDs than its block has. */
  ghost predicate GoodFeed(f: Feed) {
    && |f.kept| == |Served(f).offers|
    && 1 <= f.ch.index < 32
    && |HandedOut(Served(f).stream.pat0, Served(f).stream.pmt0)| <= BLOCK
  }

  /** The offers made before packet `k`. */
  function OffersBefore(f: Feed, k: nat): seq<Offer>
    requires k <= |f.packets|
  {
    Before(f.lib, f.ch, f.before, f.packets, k).offers
  }

  /** Packet `k` passes, and the offer made of it is kept. */
  ghost predicate KeptAt(f: Feed, k: nat)
    requires k < |f.packets|
  {
    var i := |OffersBefore(f, k)|;
    PassesAt(f.lib, f.ch, f.before, f.packets, k) && i < |f.kept| && f.kept[i]
  }

  /** Of the first `n` packets read, those that pass and are kept, in order. */
  ghost function Read(f: Feed, n: nat): seq<Packet>
    requires n <= |f.packets|
  {
    if n == 0 then [] else Read(f, n - 1) + if KeptAt(f, n - 1) then [f.packets[n - 1]] else []
  }

  /** The packets read from the source that pass and are kept. */
  ghost function ReadAll(f: Feed): seq<Packet> {
    Read(f, |f.packets|)
  }

  lemma SourcesAppend(offers: seq<Offer>, kept: seq<bool>, o: Offer, k: bool)
    requires |kept| == |offers|
    ensures Sources(offers + [o], kept + [k]) == Sources(offers, kept) + SourceOf(o, k)
  {
    hide SourceOf;
    assert (offers + [o])[..|offers|] == offers && (kept + [k])[..|kept|] == kept;
  }

  /** Offers come one at a time, and those of passing packets forward them. */
  lemma OffersGrow(f: Feed, k: nat)
    requires k < |f.packets|
    ensures var offers, more := OffersBefore(f, k), OffersBefore(f, k + 1);
            && |offers| <= |more| <= |offers| + 1 && offers <= more
            && if PassesAt(f.lib, f.ch, f.before, f.packets, k)
               then |more| == |offers| + 1 && more[|offers|].kind == Forwarded(f.packets[k])
               else |more| > |offers| ==> !more[|offers|].kind.Forwarded?
  {
    var lib, ch, s, packets := f.lib, f.ch, f.before, f.packets;
    OneMore(lib, ch, s, packets, k);
    PassedAre(lib, ch, s, packets, k);
    PassedAre(lib, ch, s, packets, k + 1);
    var before := Before(lib, ch, s, packets, k);
    hide Before, Step, PassesAt, OpenAfter;
    if !before.reconnect {
      var now := Step(lib, ch, before.stream, packets[k]);
      StepOffers(lib, ch, before.stream, packets[k]);
      PassedConcat(before.offers, now.offers);
      PassedFew(now.offers);
    } else {
      NotPassed(f, k);
    }
  }

  lemma NotPassed(f: Feed, k: nat)
    requires k < |f.packets| && Before(f.lib, f.ch, f.before, f.packets, k).reconnect
    ensures !PassesAt(f.lib, f.ch, f.before, f.packets, k)
  {
  }

  lemma {:induction false} OffersPrefix(f: Feed, k: nat, n: nat)
    requires k <= n <= |f.packets|
    ensures OffersBefore(f, k) <= OffersBefore(f, n)
  {
    hide OffersBefore, PassesAt;
    if k < n {
      OffersPrefix(f, k, n - 1);
      OffersGrow(f, n - 1);
    }
  }

  /** One more offer, kept or not. */
  lemma SourcesGrow(offers: seq<Offer>, o: Offer, kept: seq<bool>)
    requires |offers| < |kept|
    ensures Sources(offers + [o], kept[..|offers| + 1]) ==
            Sources(offers, kept[..|offers|]) + SourceOf(o, kept[|offers|])
  {
    hide Sources, SourceOf;
    SourcesAppend(offers, kept[..|offers|], o, kept[|offers|]);
    assert kept[..|offers| + 1] == kept[..|offers|] + [kept[|offers|]];
  }

  lemma PassedSource(f: Feed, n: nat)
    requires n < |f.packets| && |OffersBefore(f, n + 1)| <= |f.kept|
    ensures var offers, more := OffersBefore(f, n), OffersBefore(f, n + 1);
            && |offers| <= |more| <= |f.kept|
            && Sources(more, f.kept[..|more|]) == Sources(offers, f.kept[..|offers|]) +
               if KeptAt(f, n) then [f.packets[n]] else []
  {
    hide OffersBefore, PassesAt, Sources;
    OffersGrow(f, n);
    var offers, more := OffersBefore(f, n), OffersBefore(f, n + 1);
    if |more| > |offers| {
      assert more == offers + [more[|offers|]];
      SourcesGrow(offers, more[|offers|], f.kept);
    } else {
      assert more == offers;
      assert Sources(offers, f.kept[..|offers|]) + [] == Sources(offers, f.kept[..|offers|]);
    }
  }

  /** What was kept of the packets forwarded, in terms of the packets read. */
  lemma {:induction false} SourcesAreRead(f: Feed, n: nat)
    requires n <= |f.packets| && |f.kept| == |OffersBefore(f, |f.packets|)|
    ensures var offers := OffersBefore(f, n);
            |offers| <= |f.kept| && Sources(offers, f.kept[..|offers|]) == Read(f, n)
  {
    hide OffersBefore, KeptAt, Sources;
    OffersPrefix(f, n, |f.packets|);
    if n == 0 {
      NoOffers(f);
    } else {
      SourcesAreRead(f, n - 1);
      PassedSource(f, n - 1);
    }
  }

  lemma NoOffers(f: Feed)
    ensures OffersBefore(f, 0) == [] && Sources([], []) == []
  {
    NoneRead(f.lib, f.ch, f.before, f.packets);
  }

  lemma AllRead(f: Feed)
    requires |f.kept| == |Served(f).offers|
    ensures Sources(Served(f).offers, f.kept) == ReadAll(f)
  {
    assert f.packets[..|f.packets|] == f.packets && f.kept[..|f.kept|] == f.kept;
    SourcesAreRead(f, |f.packets|);
  }

  /** No packet of the source that the table does not know comes with the PID `y`. */
  ghost predicate Undisturbed(f: Feed, y: nat)
    requires |f.kept| == |Served(f).offers|
  {
    NoIntruders(Served(f).stream.table.entries, ReadAll(f), y)
  }

  predicate InBlock(index: nat, pid: nat) {
    BLOCK * index <= pid < BLOCK * (index + 1)
  }

  lemma FreshIs(index: nat)
    requires index > 0
    ensures Fresh(FreshTable(index), TABLE_SIZE) && FreshTable(index).base == BLOCK * index
  {
  }

  lemma LookupInBlock(index: nat, orgs: seq<nat>, x: nat)
    requires 1 <= index < 32 && |orgs| <= BLOCK
    ensures var y := Lookup(HandOutAll(FreshTable(index), orgs).entries, x); y == 0 || InBlock(index, y)
  {
    assert Fresh(FreshTable(index), TABLE_SIZE);
    if x != 0 {
      LookupIs(FreshTable(index), orgs, TABLE_SIZE, x);
    }
  }

  /** The PIDs that a connection's table and PMT give are its channel's own. */
  lemma FeedPids(f: Feed, x: nat)
    requires GoodFeed(f) && Served(f).stream.newPmt.Some?
    ensures var t := Served(f).stream; var y := Lookup(t.table.entries, x);
            && (y == 0 || InBlock(f.ch.index, y))
            && (t.newPmt.value.pid == 0 || InBlock(f.ch.index, t.newPmt.value.pid))
            && t.table == HandOutAll(FreshTable(f.ch.index), HandedOut(t.pat0, t.pmt0))
  {
    ConnectionOpens(f.lib, f.ch, f.before, f.packets);
    var t := Served(f).stream;
    hide Connection, Opening, Lookup, FreshTable, HandOutAll, RewriteStreams;
    FinalIs(FreshTable(f.ch.index), f.ch.service, t.pat0, t.pmt0);
    LookupInBlock(f.ch.index, HandedOut(t.pat0, t.pmt0), x);
    LookupInBlock(f.ch.index, ProgramPids(t.pat0.programs), t.pmtPid);
    hide RewritePat;
  }

  lemma {:induction false} KeptIs(offers: seq<Offer>, kept: seq<bool>, m: nat) returns (a: nat, b: nat)
    requires |kept| == |offers| && m < |Kept(offers, kept)|
    ensures a < |offers| && kept[a] && b < |offers[a].packets| && Kept(offers, kept)[m] == offers[a].packets[b]
    decreases |offers|
  {
    var last := |offers| - 1;
    var init := Kept(offers[..last], kept[..last]);
    if m < |init| {
      a, b := KeptIs(offers[..last], kept[..last], m);
    } else {
      a, b := last, m - |init|;
    }
  }

  lemma {:induction false} SourceIs(offers: seq<Offer>, kept: seq<bool>, a: nat) returns (k: nat)
    requires |kept| == |offers| && a < |offers| && kept[a] && offers[a].kind.Forwarded?
    ensures k < |Sources(offers, kept)| && Sources(offers, kept)[k] == offers[a].kind.source
    decreases |offers|
  {
    var last := |offers| - 1;
    if a < last {
      k := SourceIs(offers[..last], kept[..last], a);
    } else {
      k := |Sources(offers[..last], kept[..last])|;
    }
  }

  /** What a feed puts into the buffer has PIDs of its own block, PIDs of tables below all
      blocks, or the PID of a packet that the table does not know. */
  lemma FeedKeepsToItself(f: Feed, y: nat, m: nat)
    requires GoodFeed(f) && BLOCK <= y < NULL_PID && !InBlock(f.ch.index, y) && Undisturbed(f, y)
    requires m < |Kept(Served(f).offers, f.kept)|
    ensures Kept(Served(f).offers, f.kept)[m].pid != y
  {
    hide Served, Kept, Sources, Lookup;
    var c := Served(f);
    ServedOffers(f);
    var a, b := KeptIs(c.offers, f.kept, m);
    var o := c.offers[a];
    assert OfferIs(c.stream, o);
    match o.kind
    case PmtTable => FeedPids(f, 0);
    case EitTable =>
    case Forwarded(p) =>
      FeedPids(f, p.pid);
      var k := SourceIs(c.offers, f.kept, a);
      AllRead(f);
      assert !Intruder(c.stream.table.entries, Sources(c.offers, f.kept)[k], y);
  }

  /** The packets that the table gives the PID `y`. */
  function Originals(entries: seq<PidRef.Entry>, s: seq<Packet>, y: nat): seq<Packet> {
    if s == [] then []
    else
      var p := s[|s| - 1];
      Originals(entries, s[..|s| - 1], y) + if Lookup(entries, p.pid) == y then [p] else []
  }

  /** Wherever `y` is the new PID of `x`, those are the packets of PID `x`. */
  lemma {:induction false} OriginalsAre(t: Pids, orgs: seq<nat>, room: nat, s: seq<Packet>, x: nat)
    requires Fresh(t, room) && t.base + |orgs| < WORD16
    requires Lookup(HandOutAll(t, orgs).entries, x) != 0
    ensures var entries := HandOutAll(t, orgs).entries; Originals(entries, s, Lookup(entries, x)) == Demux(s, x)
  {
    hide Lookup, HandOutAll;
    if s != [] {
      OriginalsAre(t, orgs, room, s[..|s| - 1], x);
      LookupInjective(t, orgs, room, s[|s| - 1].pid, x);
    }
  }

  /** All PIDs that the table gives to packets of `s` have 13 bits. */
  predicate ShortPids(entries: seq<PidRef.Entry>, s: seq<Packet>) {
    forall i :: 0 <= i < |s| ==> Lookup(entries, s[i].pid) <= NULL_PID
  }

  lemma SourcesIn(offers: seq<Offer>, kept: seq<bool>)
    requires |kept| == |offers| && offers != []
    ensures var last := |offers| - 1;
            Sources(offers[..last], kept[..last]) <= Sources(offers, kept)
  {
  }

  /** The table packets of a feed do not carry the PID `y`; the others are the sources that the
      table gives that PID, and but for the PID as they were. */
  lemma {:induction false} KeptDemux(t: StreamState, offers: seq<Offer>, kept: seq<bool>, y: nat)
    requires |kept| == |offers| && y != EIT_PID && 0 < y <= NULL_PID
    requires t.newPmt.Some? ==> y != t.newPmt.value.pid % (NULL_PID + 1)
    requires forall i :: 0 <= i < |offers| ==> OfferIs(t, offers[i])
    requires NoIntruders(t.table.entries, Sources(offers, kept), y)
    requires ShortPids(t.table.entries, Sources(offers, kept))
    ensures Demux(Kept(offers, kept), y) == WithPid(Originals(t.table.entries, Sources(offers, kept), y), y)
  {
    hide Demux, Lookup;
    var entries := t.table.entries;
    if offers == [] {
      DemuxNone([], y);
    } else {
      var last := |offers| - 1;
      var init, o := offers[..last], offers[last];
      var before, sources := Kept(init, kept[..last]), Sources(init, kept[..last]);
      SourcesIn(offers, kept);
      KeptDemux(t, init, kept[..last], y);
      assert OfferIs(t, o);
      if kept[last] {
        DemuxConcat(before, o.packets, y);
        if o.kind.Forwarded? {
          assert Sources(offers, kept) == sources + [o.kind.source];
          assert Sources(offers, kept)[|sources|] == o.kind.source;
          OneForwarded(entries, sources, o, y);
        } else {
          DemuxNone(o.packets, y);
          assert sources + [] == sources && Demux(before, y) + [] == Demux(before, y);
        }
      } else {
        assert before + [] == before && sources + [] == sources;
      }
    }
  }

  lemma OneForwarded(entries: seq<PidRef.Entry>, sources: seq<Packet>, o: Offer, y: nat)
    requires o.kind.Forwarded? && |o.packets| == 1 && IsRenamed(entries, o.kind.source, o.packets[0])
    requires 0 < y <= NULL_PID && !Intruder(entries, o.kind.source, y) && Lookup(entries, o.kind.source.pid) <= NULL_PID
    ensures WithPid(Originals(entries, sources + [o.kind.source], y), y) ==
            WithPid(Originals(entries, sources, y), y) + Demux(o.packets, y)
  {
    hide Lookup, Originals, WithPid, Demux;
    var p, q := o.kind.source, o.packets[0];
    var earlier := Originals(entries, sources, y);
    OriginalsAppend(entries, sources, p, y);
    assert o.packets == [q];
    DemuxOnly(q, y);
    WithPidAppend(earlier, p, y);
    assert WithPid(earlier, y) + [] == WithPid(earlier, y);
  }

  lemma OriginalsAppend(entries: seq<PidRef.Entry>, s: seq<Packet>, p: Packet, y: nat)
    ensures Originals(entries, s + [p], y) ==
            if Lookup(entries, p.pid) == y then Originals(entries, s, y) + [p] else Originals(entries, s, y)
  {
    hide Lookup;
    assert (s + [p])[..|s|] == s;
  }

  lemma DemuxOnly(q: Packet, y: nat)
    ensures Demux([q], y) == if q.pid == y then [q] else []
  {
    assert [q][..0] == [] && Demux([], y) == [];
  }

  lemma WithPidAppend(s: seq<Packet>, p: Packet, y: nat)
    requires y <= NULL_PID
    ensures WithPid(s + [p], y) == WithPid(s, y) + [p.(pid := y)]
  {
  }

  /** A source packet was kept from an offer that forwarded it. */
  lemma {:induction false} SourceFrom(offers: seq<Offer>, kept: seq<bool>, k: nat) returns (a: nat)
    requires |kept| == |offers| && k < |Sources(offers, kept)|
    ensures a < |offers| && offers[a].kind.Forwarded? && offers[a].kind.source == Sources(offers, kept)[k]
    decreases |offers|
  {
    var last := |offers| - 1;
    if k < |Sources(offers[..last], kept[..last])| {
      a := SourceFrom(offers[..last], kept[..last], k);
    } else {
      a := last;
    }
  }

  /** What a feed brings of the PID `y`: the packets read that pass, are kept, and are given that
      PID by the table; on that PID, and otherwise as they were. */
  ghost function Wanted(f: Feed, y: nat): seq<Packet>
    requires |f.kept| == |Served(f).offers| && y <= NULL_PID
  {
    WithPid(Originals(Served(f).stream.table.entries, ReadAll(f), y), y)
  }

  lemma FeedShortPids(f: Feed)
    requires GoodFeed(f)
    ensures ShortPids(Served(f).stream.table.entries, Sources(Served(f).offers, f.kept))
  {
    hide Served, Sources, Lookup;
    var c := Served(f);
    var sources := Sources(c.offers, f.kept);
    ServedOffers(f);
    forall k | 0 <= k < |sources| ensures Lookup(c.stream.table.entries, sources[k].pid) <= NULL_PID {
      var a := SourceFrom(c.offers, f.kept, k);
      assert OfferIs(c.stream, c.offers[a]);
      FeedPids(f, sources[k].pid);
    }
  }

  /** The PID `y` is not the one that the PMT of the feed leaves on. */
  predicate NoPmtOn(f: Feed, y: nat) {
    Served(f).stream.newPmt.Some? ==> y != Served(f).stream.newPmt.value.pid
  }

  /** What a feed puts into the buffer under a PID of the channels' blocks is what it should. */
  lemma FeedDemux(f: Feed, y: nat)
    requires GoodFeed(f) && BLOCK <= y < NULL_PID && Undisturbed(f, y) && NoPmtOn(f, y)
    ensures Demux(Kept(Served(f).offers, f.kept), y) == Wanted(f, y)
  {
    hide Served, Kept, Sources, Lookup, Demux, Originals, HandedOut, FreshTable, HandOutAll, ReadAll, WithPid;
    var c := Served(f);
    ServedOffers(f);
    if c.stream.newPmt.Some? {
      FeedPids(f, 0);
    }
    FeedShortPids(f);
    AllRead(f);
    KeptDemux(c.stream, c.offers, f.kept, y);
  }

  /** In a feed that renames `x` to `y`, that is packet by packet what was read on PID `x`, passed
      and was kept. */
  lemma WantedIs(f: Feed, x: nat)
    requires GoodFeed(f) && Served(f).stream.newPmt.Some? && Lookup(Served(f).stream.table.entries, x) != 0
    ensures var y := Lookup(Served(f).stream.table.entries, x);
            y <= NULL_PID && OnPid(Demux(ReadAll(f), x), Wanted(f, y), y)
  {
    hide Served, Lookup, FreshTable, HandOutAll, Demux, HandedOut, Originals, ReadAll;
    var c := Served(f);
    FeedPids(f, x);
    FreshIs(f.ch.index);
    var orgs := HandedOut(c.stream.pat0, c.stream.pmt0);
    OriginalsAre(FreshTable(f.ch.index), orgs, TABLE_SIZE, ReadAll(f), x);
  }

  // ---- One connection after another

  function PacketsOf(offers: seq<Offer>): (r: seq<seq<Packet>>)
    ensures |r| == |offers| && forall i :: 0 <= i < |r| ==> r[i] == offers[i].packets
  {
    seq(|offers|, i requires 0 <= i < |offers| => offers[i].packets)
  }

  /** Everything that the connections of an input have offered, and which of it was kept. */
  function AllOffers(line: seq<Feed>): seq<seq<Packet>> {
    if line == [] then [] else AllOffers(line[..|line| - 1]) + PacketsOf(Served(line[|line| - 1]).offers)
  }

  function AllFlags(line: seq<Feed>): seq<bool> {
    if line == [] then [] else AllFlags(line[..|line| - 1]) + line[|line| - 1].kept
  }

  /** The packets of the bursts that were kept. */
  function KeptOf(bursts: seq<seq<Packet>>, kept: seq<bool>): seq<Packet>
    requires |kept| == |bursts|
  {
    if bursts == [] then []
    else
      var last := |bursts| - 1;
      KeptOf(bursts[..last], kept[..last]) + if kept[last] then bursts[last] else []
  }

  ghost predicate GoodLine(line: seq<Feed>, index: nat) {
    forall n :: 0 <= n < |line| ==> GoodFeed(line[n]) && line[n].ch.index == index
  }

  predicate Sized(line: seq<Feed>) {
    forall n :: 0 <= n < |line| ==> |line[n].kept| == |Served(line[n]).offers|
  }

  function LineKept(line: seq<Feed>): seq<Packet>
    requires Sized(line)
  {
    if line == [] then []
    else
      var last := |line| - 1;
      LineKept(line[..last]) + Kept(Served(line[last]).offers, line[last].kept)
  }

  ghost function LineWanted(line: seq<Feed>, y: nat): seq<Packet>
    requires Sized(line) && y <= NULL_PID
  {
    if line == [] then [] else LineWanted(line[..|line| - 1], y) + Wanted(line[|line| - 1], y)
  }

  lemma {:induction false} KeptOfConcat(a: seq<seq<Packet>>, x: seq<bool>, b: seq<seq<Packet>>, y: seq<bool>)
    requires |a| == |x| && |b| == |y|
    ensures KeptOf(a + b, x + y) == KeptOf(a, x) + KeptOf(b, y)
  {
    if b == [] {
      assert a + b == a && x + y == x;
    } else {
      var last := |b| - 1;
      KeptOfConcat(a, x, b[..last], y[..last]);
      assert (a + b)[..|a| + last] == a + b[..last] && (x + y)[..|a| + last] == x + y[..last];
      Associative(KeptOf(a, x), KeptOf(b[..last], y[..last]), if y[last] then b[last] else []);
    }
  }

  lemma {:induction false} KeptIsKeptOf(offers: seq<Offer>, kept: seq<bool>)
    requires |kept| == |offers|
    ensures KeptOf(PacketsOf(offers), kept) == Kept(offers, kept)
  {
    if offers != [] {
      var last := |offers| - 1;
      KeptIsKeptOf(offers[..last], kept[..last]);
      assert PacketsOf(offers)[..last] == PacketsOf(offers[..last]);
    }
  }

  lemma {:induction false} LineIs(line: seq<Feed>)
    requires Sized(line)
    ensures |AllOffers(line)| == |AllFlags(line)|
    ensures KeptOf(AllOffers(line), AllFlags(line)) == LineKept(line)
  {
    hide Served, Kept;
    if line != [] {
      var init, f := line[..|line| - 1], line[|line| - 1];
      LineIs(init);
      KeptIsKeptOf(Served(f).offers, f.kept);
      KeptOfConcat(AllOffers(init), AllFlags(init), PacketsOf(Served(f).offers), f.kept);
    }
  }

  /** The table does not know, or gives away, no packet of PID `y`, in any connection. */
  ghost predicate LineUndisturbed(line: seq<Feed>, y: nat) {
    forall n :: 0 <= n < |line| ==> |line[n].kept| == |Served(line[n]).offers| && Undisturbed(line[n], y)
  }

  lemma {:induction false} LineKeepsToItself(line: seq<Feed>, index: nat, y: nat, m: nat)
    requires Sized(line) && GoodLine(line, index) && LineUndisturbed(line, y)
    requires BLOCK <= y < NULL_PID && !InBlock(index, y) && m < |LineKept(line)|
    ensures LineKept(line)[m].pid != y
    decreases |line|
  {
    hide GoodFeed, Served, Undisturbed;
    var init, f := line[..|line| - 1], line[|line| - 1];
    var before := LineKept(init);
    if m < |before| {
      LineKeepsToItself(init, index, y, m);
    } else {
      assert GoodFeed(f) && Undisturbed(f, y);
      FeedKeepsToItself(f, y, m - |before|);
    }
  }

  lemma {:induction false} LineDemux(line: seq<Feed>, index: nat, y: nat)
    requires Sized(line) && GoodLine(line, index) && LineUndisturbed(line, y) && BLOCK <= y < NULL_PID
    requires forall n :: 0 <= n < |line| ==> NoPmtOn(line[n], y)
    ensures Demux(LineKept(line), y) == LineWanted(line, y)
  {
    hide GoodFeed, Served, Undisturbed, Wanted, Kept, Demux, NoPmtOn;
    if line == [] {
      DemuxNone([], y);
    } else {
      var init, f := line[..|line| - 1], line[|line| - 1];
      LineDemux(init, index, y);
      DemuxConcat(LineKept(init), Kept(Served(f).offers, f.kept), y);
      assert GoodFeed(f) && Undisturbed(f, y);
      FeedDemux(f, y);
    }
  }

  // ---- No padding

  lemma ServedUnpadded(f: Feed, i: nat)
    requires 1 <= f.ch.index < 32 && SectionsFit(f.lib) && i < |Served(f).offers|
    ensures Unpadded(Served(f).offers[i])
  {
    hide Unpadded, SectionsFit;
    ConnectionUnpadded(f.lib, f.ch, f.before, f.packets, i);
  }

  lemma ConnectionUnpadded(lib: Parser, ch: ChannelInfo, s: StreamState, packets: seq<Packet>, i: nat)
    requires 1 <= ch.index < 32 && SectionsFit(lib) && i < |Connection(lib, ch, s, packets).offers|
    ensures Unpadded(Connection(lib, ch, s, packets).offers[i])
  {
    hide Unpadded, SectionsFit;
    NothingPadded(lib, ch, s, packets);
  }
}
