/** What renaming preserves: the rewritten PMT leads a demultiplexer to the packets that the
    original PMT did, under PIDs no other channel uses. */
module RewriteTheorems {
  import opened Ts
  import opened PidRef
  import opened Rewrite

  // ---- The rewritten PMT and the table agree

  /** The table after a PAT and a PMT have been rewritten, starting from a fresh one. */
  function Final(t: Pids, service: nat, pat: Pat, pmt: Pmt): Pids {
    RewritePmt(RewritePat(t, service, pat).0, service, PmtPid(pat.programs), pmt).0
  }

  function NewPmt(t: Pids, service: nat, pat: Pat, pmt: Pmt): Pmt {
    RewritePmt(RewritePat(t, service, pat).0, service, PmtPid(pat.programs), pmt).1
  }

  lemma FinalIs(t: Pids, service: nat, pat: Pat, pmt: Pmt)
    ensures Final(t, service, pat, pmt) == HandOutAll(t, HandedOut(pat, pmt))
    ensures RewritePat(t, service, pat).0 == HandOutAll(t, ProgramPids(pat.programs))
  {
    var first, pcr := ProgramPids(pat.programs), pmt.pcrPid;
    ProgramsHandOut(t, service, pat.programs);
    var u := HandOutAll(t, first);
    HandOutOne(u, pcr);
    HandOutConcat(t, first, [pcr]);
    StreamsHandOut(HandOut(u, pcr), pcr, u.base, pmt.streams);
    HandOutConcat(t, first + [pcr], StreamPids(pcr, pmt.streams));
  }

  lemma LastStream(t: Pids, pcr: nat, newPcr: nat, ss: seq<Stream>)
    requires ss != []
    ensures var last := |ss| - 1;
            var (u, done) := RewriteStreams(t, pcr, newPcr, ss[..last]);
            RewriteStreams(t, pcr, newPcr, ss).1 ==
            done + [ss[last].(pid := if ss[last].pid == pcr then newPcr else u.base)]
  {
    hide HandOut;
  }

  lemma StreamPidsGrow(pcr: nat, ss: seq<Stream>)
    requires ss != []
    ensures |StreamPids(pcr, ss[..|ss| - 1])| <= |StreamPids(pcr, ss)|
  {
  }

  /** The PID that a stream is given. */
  lemma {:induction false} StreamPidIs(t: Pids, pcr: nat, newPcr: nat, ss: seq<Stream>, j: nat)
    requires j < |ss| && t.base + |StreamPids(pcr, ss)| < WORD16
    ensures RewriteStreams(t, pcr, newPcr, ss).1[j] ==
            ss[j].(pid := if ss[j].pid == pcr then newPcr else t.base + |StreamPids(pcr, ss[..j])|)
    decreases |ss|
  {
    hide RewriteStreams, StreamPids, HandOutAll;
    var last := |ss| - 1;
    LastStream(t, pcr, newPcr, ss);
    StreamPidsGrow(pcr, ss);
    if j < last {
      StreamPidIs(t, pcr, newPcr, ss[..last], j);
      assert ss[..last][..j] == ss[..j];
    } else {
      StreamsHandOut(t, pcr, newPcr, ss[..last]);
      BaseAfter(t, StreamPids(pcr, ss[..last]));
    }
  }

  /** Stream `j` is handed its own PID at the place that counts the streams before it. */
  lemma {:induction false} StreamPlace(pcr: nat, ss: seq<Stream>, j: nat)
    requires j < |ss| && ss[j].pid != pcr
    ensures var i := |StreamPids(pcr, ss[..j])|;
            i < |StreamPids(pcr, ss)| && StreamPids(pcr, ss)[i] == ss[j].pid
    decreases |ss|
  {
    var last := |ss| - 1;
    if j < last {
      StreamPlace(pcr, ss[..last], j);
      assert ss[..last][..j] == ss[..j];
    }
  }

  lemma {:induction false} PlaceStream(pcr: nat, ss: seq<Stream>, i: nat) returns (j: nat)
    requires i < |StreamPids(pcr, ss)|
    ensures j < |ss| && ss[j].pid != pcr && |StreamPids(pcr, ss[..j])| == i
    ensures StreamPids(pcr, ss)[i] == ss[j].pid
    decreases |ss|
  {
    var last := |ss| - 1;
    if i < |StreamPids(pcr, ss[..last])| {
      j := PlaceStream(pcr, ss[..last], i);
      assert ss[..last][..j] == ss[..j];
    } else {
      j := last;
    }
  }

  /** The table's answer is the PID handed out at place `a` exactly when that place is good. */
  lemma NamedAt(t: Pids, orgs: seq<nat>, room: nat, a: nat)
    requires Fresh(t, room) && a < |orgs| && t.base + |orgs| < WORD16
    ensures Lookup(HandOutAll(t, orgs).entries, orgs[a]) == t.base + a <==> Good(orgs, room, a)
  {
    if orgs[a] != 0 {
      LookupIs(t, orgs, room, orgs[a]);
      AnswerIsGood(orgs, room, a);
    }
  }

  /** Every PID in the rewritten PMT is the one that packets of the original PID get. */
  predicate NamesTheTable(entries: seq<Entry>, pmt: Pmt, newPmt: Pmt) {
    && |newPmt.streams| == |pmt.streams|
    && newPmt.pcrPid == Lookup(entries, pmt.pcrPid)
    && forall j :: 0 <= j < |pmt.streams| ==> newPmt.streams[j].pid == Lookup(entries, pmt.streams[j].pid)
  }

  /** The PCR PID and the stream PIDs are not 0, differ from each other and from the PAT's
      PIDs, and fit the table. */
  predicate PmtIsGood(pat: Pat, pmt: Pmt, room: nat) {
    forall a :: |ProgramPids(pat.programs)| <= a < |HandedOut(pat, pmt)| ==> Good(HandedOut(pat, pmt), room, a)
  }

  lemma NewPmtPids(t: Pids, service: nat, pat: Pat, pmt: Pmt, j: nat)
    requires t.base + |HandedOut(pat, pmt)| < WORD16
    ensures var first := |ProgramPids(pat.programs)|;
            && NewPmt(t, service, pat, pmt).pcrPid == t.base + first
            && |NewPmt(t, service, pat, pmt).streams| == |pmt.streams|
            && (j < |pmt.streams| ==>
                  NewPmt(t, service, pat, pmt).streams[j].pid ==
                  if pmt.streams[j].pid == pmt.pcrPid then t.base + first
                  else t.base + first + 1 + |StreamPids(pmt.pcrPid, pmt.streams[..j])|)
  {
    hide Lookup, Added, StreamPids, ProgramPids;
    FinalIs(t, service, pat, pmt);
    BaseAfter(t, ProgramPids(pat.programs));
    var u := HandOutAll(t, ProgramPids(pat.programs));
    if j < |pmt.streams| {
      StreamPidIs(HandOut(u, pmt.pcrPid), pmt.pcrPid, u.base, pmt.streams, j);
    }
  }

  /** The rewritten PMT names the table's PIDs if and only if the original is good. */
  lemma PmtNamesTheTable(t: Pids, room: nat, service: nat, pat: Pat, pmt: Pmt)
    requires Fresh(t, room) && t.base + |HandedOut(pat, pmt)| < WORD16
    ensures NamesTheTable(Final(t, service, pat, pmt).entries, pmt, NewPmt(t, service, pat, pmt)) <==>
            PmtIsGood(pat, pmt, room)
  {
    var orgs, entries := HandedOut(pat, pmt), Final(t, service, pat, pmt).entries;
    var first, pcr := |ProgramPids(pat.programs)|, pmt.pcrPid;
    FinalIs(t, service, pat, pmt);
    NewPmtPids(t, service, pat, pmt, |pmt.streams|);
    NamedAt(t, orgs, room, first);
    assert orgs[first] == pcr;
    if PmtIsGood(pat, pmt, room) {
      forall j | 0 <= j < |pmt.streams|
        ensures NewPmt(t, service, pat, pmt).streams[j].pid == Lookup(entries, pmt.streams[j].pid)
      {
        NewPmtPids(t, service, pat, pmt, j);
        if pmt.streams[j].pid != pcr {
          StreamPlace(pcr, pmt.streams, j);
          NamedAt(t, orgs, room, first + 1 + |StreamPids(pcr, pmt.streams[..j])|);
        }
      }
    }
    if NamesTheTable(entries, pmt, NewPmt(t, service, pat, pmt)) {
      forall a | first <= a < |orgs| ensures Good(orgs, room, a) {
        if a > first {
          var j := PlaceStream(pcr, pmt.streams, a - first - 1);
          NewPmtPids(t, service, pat, pmt, j);
          NamedAt(t, orgs, room, a);
        }
      }
    }
  }

  // ---- Demultiplexing

  /** The table never gives two PIDs the same new PID. */
  lemma LookupInjective(t: Pids, orgs: seq<nat>, room: nat, x: nat, y: nat)
    requires Fresh(t, room) && t.base + |orgs| < WORD16
    ensures var entries := HandOutAll(t, orgs).entries;
            Lookup(entries, x) == Lookup(entries, y) != 0 ==> x == y
    ensures Lookup(HandOutAll(t, orgs).entries, x) < t.base + |orgs|
  {
    if x != 0 {
      LookupIs(t, orgs, room, x);
      AnswerOf(orgs, room, x);
    }
    if y != 0 {
      LookupIs(t, orgs, room, y);
      AnswerOf(orgs, room, y);
    }
  }

  function RenameAll(entries: seq<Entry>, s: seq<Packet>): seq<Packet> {
    if s == [] then [] else RenameAll(entries, s[..|s| - 1]) + [Renamed(entries, s[|s| - 1])]
  }

  /** The packets of one PID. */
  function Demux(s: seq<Packet>, pid: nat): seq<Packet> {
    if s == [] then []
    else Demux(s[..|s| - 1], pid) + if s[|s| - 1].pid == pid then [s[|s| - 1]] else []
  }

  /** A packet that the table does not know comes with the new PID already on it. */
  predicate Intruder(entries: seq<Entry>, p: Packet, pid: nat) {
    Lookup(entries, p.pid) == 0 && p.pid == pid
  }

  predicate NoIntruders(entries: seq<Entry>, s: seq<Packet>, pid: nat) {
    forall i :: 0 <= i < |s| ==> !Intruder(entries, s[i], pid)
  }

  /** The table gives the packet a PID of 13 bits, and that of `x` to `x` only. */
  predicate Apart(entries: seq<Entry>, pid: nat, x: nat) {
    Lookup(entries, pid) <= NULL_PID && (Lookup(entries, pid) == Lookup(entries, x) ==> pid == x)
  }

  lemma {:induction false} DemuxStep(entries: seq<Entry>, s: seq<Packet>, x: nat)
    requires Lookup(entries, x) != 0
    requires forall i :: 0 <= i < |s| ==> Apart(entries, s[i].pid, x)
    ensures var y := Lookup(entries, x);
            var renamed, wanted := Demux(RenameAll(entries, s), y), RenameAll(entries, Demux(s, x));
            |wanted| <= |renamed| && if NoIntruders(entries, s, y) then renamed == wanted else |renamed| > |wanted|
  {
    if s != [] {
      var init, p, y := s[..|s| - 1], s[|s| - 1], Lookup(entries, x);
      DemuxStep(entries, init, x);
      RenamedPid(entries, p, x);
      hide Renamed, Lookup;
      assert NoIntruders(entries, s, y) <==> NoIntruders(entries, init, y) && !Intruder(entries, p, y);
      RenameAppend(entries, Demux(init, x), p);
      RenameAppend(entries, init, p);
      assert s == init + [p] && Demux(init, x) + [] == Demux(init, x);
      DemuxAppend(init, p, x);
      DemuxAppend(RenameAll(entries, init), Renamed(entries, p), y);
      hide Demux, RenameAll, NoIntruders;
    }
  }

  lemma RenamedPid(entries: seq<Entry>, p: Packet, x: nat)
    requires Lookup(entries, x) != 0 && Apart(entries, p.pid, x)
    ensures var y := Lookup(entries, x);
            Renamed(entries, p).pid == y <==> p.pid == x || Intruder(entries, p, y)
    ensures p.pid == x ==> !Intruder(entries, p, Lookup(entries, x))
  {
  }

  lemma RenameAppend(entries: seq<Entry>, s: seq<Packet>, p: Packet)
    ensures RenameAll(entries, s + [p]) == RenameAll(entries, s) + [Renamed(entries, p)]
  {
    assert (s + [p])[..|s|] == s;
  }

  lemma DemuxAppend(s: seq<Packet>, p: Packet, pid: nat)
    ensures Demux(s + [p], pid) == Demux(s, pid) + if p.pid == pid then [p] else []
  {
    assert (s + [p])[..|s|] == s;
  }

  /** Packet by packet, `t` is `s` with the PID `y`, and everything else as it was. */
  predicate OnPid(s: seq<Packet>, t: seq<Packet>, y: nat) {
    |t| == |s| && forall i :: 0 <= i < |t| ==> t[i] == s[i].(pid := t[i].pid) && t[i].pid == y
  }

  /** The packets of `s`, all on PID `y` and otherwise as they are. */
  function WithPid(s: seq<Packet>, y: nat): (r: seq<Packet>)
    requires y <= NULL_PID
    ensures OnPid(s, r, y)
  {
    seq(|s|, i requires 0 <= i < |s| => s[i].(pid := y))
  }

  lemma {:induction false} RenamedAreOnPid(entries: seq<Entry>, s: seq<Packet>, x: nat)
    requires 0 < Lookup(entries, x) <= NULL_PID && forall i :: 0 <= i < |s| ==> s[i].pid == x
    ensures OnPid(s, RenameAll(entries, s), Lookup(entries, x))
  {
    hide Lookup, Renamed;
    if s != [] {
      RenamedAreOnPid(entries, s[..|s| - 1], x);
      RenamedIs(entries, s[|s| - 1]);
    }
  }

  lemma {:induction false} DemuxPids(s: seq<Packet>, pid: nat)
    ensures |Demux(s, pid)| <= |s| && forall i :: 0 <= i < |Demux(s, pid)| ==> Demux(s, pid)[i].pid == pid
  {
    if s != [] {
      DemuxPids(s[..|s| - 1], pid);
    }
  }

  /** What the table does to a stream, packet by packet. */
  lemma {:induction false} RenameAllIs(entries: seq<Entry>, s: seq<Packet>)
    ensures |RenameAll(entries, s)| == |s|
    ensures forall i :: 0 <= i < |s| ==> IsRenamed(entries, s[i], RenameAll(entries, s)[i])
  {
    hide Renamed, IsRenamed;
    if s != [] {
      RenameAllIs(entries, s[..|s| - 1]);
      RenamedIs(entries, s[|s| - 1]);
    }
  }

  /** Renaming preserves meaning: the packets with the new PID of `x` are those of `x`, in order
      and but for the PID as they were, if and only if no packet outside the table comes with
      that PID. */
  lemma DemuxPreserved(t: Pids, orgs: seq<nat>, room: nat, s: seq<Packet>, x: nat)
    requires Fresh(t, room) && t.base + |orgs| <= NULL_PID
    requires Lookup(HandOutAll(t, orgs).entries, x) != 0
    ensures var entries := HandOutAll(t, orgs).entries;
            var y := Lookup(entries, x);
            OnPid(Demux(s, x), Demux(RenameAll(entries, s), y), y) <==> NoIntruders(entries, s, y)
  {
    hide Lookup, HandOutAll, RenameAll, Demux;
    var entries := HandOutAll(t, orgs).entries;
    LookupInjective(t, orgs, room, x, x);
    forall i | 0 <= i < |s| ensures Apart(entries, s[i].pid, x) {
      LookupInjective(t, orgs, room, s[i].pid, x);
    }
    DemuxStep(entries, s, x);
    DemuxPids(s, x);
    RenamedAreOnPid(entries, Demux(s, x), x);
  }

  // ---- What the rewritten tables say

  /** Every program with a number gets the channel's service and its own PID; the entry of the
      NIT stays. */
  predicate PatSays(service: nat, base: nat, pat: Pat, newPat: Pat) {
    && |newPat.programs| == |pat.programs|
    && forall j :: 0 <= j < |pat.programs| ==>
         if pat.programs[j].number == 0 then newPat.programs[j] == pat.programs[j]
         else newPat.programs[j].number == service &&
              newPat.programs[j].pid == base + |ProgramPids(pat.programs[..j])|
  }

  /** The PMT gets the channel's service; every stream keeps its place and kind. */
  predicate PmtSays(service: nat, pmt: Pmt, newPmt: Pmt) {
    && newPmt.programNumber == service
    && |newPmt.streams| == |pmt.streams|
    && forall j :: 0 <= j < |pmt.streams| ==> newPmt.streams[j].kind == pmt.streams[j].kind
  }

  lemma NewPatIs(t: Pids, service: nat, pat: Pat)
    requires t.base + |ProgramPids(pat.programs)| < WORD16
    ensures PatSays(service, t.base, pat, RewritePat(t, service, pat).1)
  {
    forall j: nat | j < |pat.programs|
      ensures RewritePrograms(t, service, pat.programs).1[j] ==
              if pat.programs[j].number == 0 then pat.programs[j]
              else Program(service, t.base + |ProgramPids(pat.programs[..j])|)
    {
      ProgramPidIs(t, service, pat.programs, j);
    }
    hide RewritePrograms, ProgramPids;
  }

  lemma {:induction false} StreamKinds(t: Pids, pcr: nat, newPcr: nat, ss: seq<Stream>)
    ensures forall j :: 0 <= j < |ss| ==> RewriteStreams(t, pcr, newPcr, ss).1[j].kind == ss[j].kind
  {
    if ss != [] {
      StreamKinds(t, pcr, newPcr, ss[..|ss| - 1]);
      LastStream(t, pcr, newPcr, ss);
      hide RewriteStreams;
    }
  }

  lemma NewPmtIs(t: Pids, service: nat, pmtPid: nat, pmt: Pmt)
    ensures PmtSays(service, pmt, RewritePmt(t, service, pmtPid, pmt).1)
  {
    StreamKinds(HandOut(t, pmt.pcrPid), pmt.pcrPid, t.base, pmt.streams);
    hide RewriteStreams, HandOut;
  }

  // ---- The PMT leaves on the PID that the output PAT announces

  /** The first program with a number, if there is one. */
  function FirstNumbered(ps: seq<Program>): (i: nat)
    ensures i <= |ps| && (i < |ps| ==> ps[i].number != 0)
    ensures PmtPid(ps) != 0 ==> i < |ps|
  {
    if ps == [] || ps[0].number != 0 then 0 else 1 + FirstNumbered(ps[1..])
  }

  lemma {:induction false} ProgramPidsHead(ps: seq<Program>)
    requires ps != []
    ensures ProgramPids(ps) == (if ps[0].number == 0 then [] else [ps[0].pid]) + ProgramPids(ps[1..])
  {
    var last := |ps| - 1;
    if last > 0 {
      ProgramPidsHead(ps[..last]);
      assert ps[..last][1..] == ps[1..][..last - 1];
    }
  }

  /** The PMT's PID is the first PID handed out that is not 0. */
  lemma {:induction false} PmtPidIsFirst(ps: seq<Program>) returns (a: nat)
    requires PmtPid(ps) != 0
    ensures a < |ProgramPids(ps)| && ProgramPids(ps)[a] == PmtPid(ps)
    ensures forall b :: 0 <= b < a ==> ProgramPids(ps)[b] == 0
    ensures a == 0 <==> ps[FirstNumbered(ps)].pid != 0
  {
    ProgramPidsHead(ps);
    if ps[0].pid != 0 && ps[0].number != 0 {
      a := 0;
    } else {
      a := PmtPidIsFirst(ps[1..]);
      if ps[0].number != 0 {
        a := a + 1;
      }
    }
  }

  lemma {:induction false} NoTakers(orgs: seq<nat>)
    requires forall b :: 0 <= b < |orgs| ==> orgs[b] == 0
    ensures Takers(orgs) == 0
  {
    if orgs != [] {
      NoTakers(orgs[..|orgs| - 1]);
    }
  }

  /** The rewritten PMT leaves on the channel's first PID, which is the one that the output
      PAT announces, if and only if the first numbered program of the source's PAT has a PID. */
  lemma PmtLeavesAsAnnounced(t: Pids, room: nat, service: nat, pat: Pat, pmt: Pmt)
    requires Fresh(t, room) && room > 0 && t.base + |ProgramPids(pat.programs)| < WORD16
    requires PmtPid(pat.programs) != 0
    ensures NewPmt(t, service, pat, pmt).pid == t.base <==>
            pat.programs[FirstNumbered(pat.programs)].pid != 0
  {
    var orgs := ProgramPids(pat.programs);
    FinalIs(t, service, pat, pmt);
    var a := PmtPidIsFirst(pat.programs);
    NoTakers(orgs[..a]);
    NamedAt(t, orgs, room, a);
  }

  // ---- Channels do not share PIDs

  /** The `n` PIDs handed out by channel `index`. */
  predicate Owns(index: nat, n: nat, pid: nat) {
    BLOCK * index <= pid < BLOCK * index + n
  }

  /** The PID that a program is given. */
  lemma {:induction false} ProgramPidIs(t: Pids, service: nat, ps: seq<Program>, j: nat)
    requires j < |ps| && t.base + |ProgramPids(ps)| < WORD16
    ensures RewritePrograms(t, service, ps).1[j] ==
            if ps[j].number == 0 then ps[j] else Program(service, t.base + |ProgramPids(ps[..j])|)
    ensures ps[j].number != 0 ==> |ProgramPids(ps[..j])| < |ProgramPids(ps)|
    decreases |ps|
  {
    hide RewritePrograms, HandOutAll;
    var last := |ps| - 1;
    LastProgram(t, service, ps);
    if j < last {
      ProgramPidIs(t, service, ps[..last], j);
      assert ps[..last][..j] == ps[..j];
    } else {
      ProgramsHandOut(t, service, ps[..last]);
      BaseAfter(t, ProgramPids(ps[..last]));
    }
  }

  lemma LastProgram(t: Pids, service: nat, ps: seq<Program>)
    requires ps != []
    ensures var last := |ps| - 1;
            var (u, done) := RewritePrograms(t, service, ps[..last]);
            RewritePrograms(t, service, ps).1 ==
            done + [if ps[last].number == 0 then ps[last] else Program(service, u.base)]
  {
    hide HandOut;
  }

  /** Every PID in a channel's rewritten tables is one that it owns: those of the PAT's numbered
      programs, the one the PMT leaves on, the PCR PID and those of the streams. */
  lemma TablesUseOwnPids(t: Pids, index: nat, room: nat, service: nat, pat: Pat, pmt: Pmt, x: nat, j: nat, k: nat)
    requires Fresh(t, room) && t.base == BLOCK * index && t.base + |HandedOut(pat, pmt)| < WORD16
    ensures var n, orgs := |HandedOut(pat, pmt)|, HandedOut(pat, pmt);
            && (k < |pat.programs| && pat.programs[k].number != 0 ==>
                  Owns(index, n, RewritePat(t, service, pat).1.programs[k].pid))
            && (room > 0 && PmtPid(pat.programs) != 0 ==> Owns(index, n, NewPmt(t, service, pat, pmt).pid))
            && Owns(index, n, NewPmt(t, service, pat, pmt).pcrPid)
            && (j < |pmt.streams| ==> Owns(index, n, NewPmt(t, service, pat, pmt).streams[j].pid))
            && (Lookup(HandOutAll(t, orgs).entries, x) != 0 ==> Owns(index, n, Lookup(HandOutAll(t, orgs).entries, x)))
  {
    var orgs := HandedOut(pat, pmt);
    NewPmtPids(t, service, pat, pmt, j);
    if j < |pmt.streams| && pmt.streams[j].pid != pmt.pcrPid {
      StreamPlace(pmt.pcrPid, pmt.streams, j);
    }
    hide NewPmt, RewriteStreams;
    if x != 0 {
      LookupIs(t, orgs, room, x);
    }
    if k < |pat.programs| {
      ProgramPidIs(t, service, pat.programs, k);
    }
    if room > 0 && PmtPid(pat.programs) != 0 {
      PmtPidIsOwn(t, room, service, pat, pmt);
    }
  }

  lemma PmtPidIsOwn(t: Pids, room: nat, service: nat, pat: Pat, pmt: Pmt)
    requires Fresh(t, room) && room > 0 && t.base + |ProgramPids(pat.programs)| < WORD16
    requires PmtPid(pat.programs) != 0
    ensures t.base <= NewPmt(t, service, pat, pmt).pid < t.base + |ProgramPids(pat.programs)|
  {
    var orgs := ProgramPids(pat.programs);
    FinalIs(t, service, pat, pmt);
    var a := PmtPidIsFirst(pat.programs);
    NoTakers(orgs[..a]);
    NamedAt(t, orgs, room, a);
  }

  /** Two channels can use the same PID if and only if the lower one has handed out more than
      the blocks up to the higher one. */
  lemma ChannelsCollide(low: nat, high: nat, nLow: nat, nHigh: nat)
    requires low < high && nHigh > 0
    ensures (exists pid :: Owns(low, nLow, pid) && Owns(high, nHigh, pid)) <==> nLow > BLOCK * (high - low)
  {
    if nLow > BLOCK * (high - low) {
      assert Owns(low, nLow, BLOCK * high) && Owns(high, nHigh, BLOCK * high);
    }
  }

  /** With at most 32 PIDs each, the channels 1 to 31 use different PIDs, all of them above the
      reserved range and below the PID of null packets. */
  lemma ChannelsAreDisjoint(i: nat, j: nat, nI: nat, nJ: nat, pid: nat)
    requires 1 <= i < 32 && 1 <= j < 32 && nI <= BLOCK && nJ <= BLOCK
    requires Owns(i, nI, pid)
    ensures BLOCK <= pid < NULL_PID
    ensures i != j ==> !Owns(j, nJ, pid)
  {
  }
}
