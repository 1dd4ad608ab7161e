/** What an input lets into its buffer: the packet loop of one connection to a source. */
module Admission {
  import opened Ts
  import opened PidRef
  import opened Rewrite

  // ---- Tables under collection

  /** A table being collected packet by packet; `ready` once a whole section is in. */
  datatype PatState = PatState(ready: bool, pat: Pat)

  datatype PmtState = PmtState(ready: bool, pmt: Pmt)

  datatype EitState = EitState(ready: bool, service: nat, packets: nat)

  const NO_PAT := PatState(false, Pat([]))
  const NO_PMT := PmtState(false, Pmt(0, 0, 0, []))
  const NO_EIT := EitState(false, 0, 0)

  /** The section functions of libtsfuncs, of which nothing is assumed. `pmtPackets` is the
      number of packets that a section is cut into. */
  datatype Parser = Parser(
    pushPat: (PatState, Packet) -> PatState, samePat: (PatState, PatState) -> bool,
    pushPmt: (PmtState, Packet) -> PmtState, samePmt: (PmtState, PmtState) -> bool,
    pmtPackets: Pmt -> nat,
    pushEit: (EitState, Packet) -> EitState)

  /** The channel an input belongs to, and the input's place among all inputs. */
  datatype ChannelInfo = ChannelInfo(index: nat, service: nat, eitMode: nat, input: nat)

  const TABLE_SIZE: nat := 64

  /** `INPUT_STREAM`, and three fields for the record: the PAT and PMT as they were when they
      were rewritten, and the PAT that the NIT and PMT PIDs were learnt from. */
  datatype StreamState = StreamState(
    table: Pids, nitPid: nat, pmtPid: nat, pcrPid: nat, inputPcr: nat,
    pat: PatState, lastPat: PatState, newPat: Option<Pat>, pat0: Pat,
    pmt: PmtState, lastPmt: PmtState, newPmt: Option<Pmt>, pmt0: Pmt, pmtCont: nat,
    eit: EitState, eitCont: nat, learnt: Pat)

  function FreshTable(index: nat): Pids {
    Pids(seq(TABLE_SIZE, i => FREE_ENTRY), BLOCK * index)
  }

  /** `input_stream_reset`; the continuity counters survive it. */
  function Reset(ch: ChannelInfo, s: StreamState): StreamState {
    s.(table := FreshTable(ch.index), nitPid := 0, pmtPid := 0, pcrPid := 0, inputPcr := 0,
       pat := NO_PAT, lastPat := NO_PAT, newPat := None, pat0 := Pat([]),
       pmt := NO_PMT, lastPmt := NO_PMT, newPmt := None, pmt0 := NO_PMT.pmt,
       eit := NO_EIT, learnt := Pat([]))
  }

  // ---- What is offered to the input buffer

  datatype Kind = PmtTable | EitTable | Forwarded(source: Packet)

  datatype Offer = Offer(kind: Kind, packets: seq<Packet>)

  /** A section's packets, with their continuity counters set. */
  function SectionPackets(ch: ChannelInfo, pid: nat, cont: nat, n: nat): (r: seq<Packet>)
    ensures |r| == n
    ensures forall j :: 0 <= j < n ==> r[j].pid == pid % (NULL_PID + 1) && r[j].cont == (cont + j) % 16
  {
    seq(n, j requires 0 <= j < n =>
      Packet(Channel(ch.input), pid % (NULL_PID + 1), 1, (cont + j) % 16, None, j))
  }

  /** The result of one packet: the state, what is offered, and whether to reconnect. */
  datatype Outcome = Outcome(stream: StreamState, offers: seq<Offer>, reconnect: bool)

  // ---- process_pat, process_pmt, process_eit

  function NitPid(ps: seq<Program>, nit: nat): nat {
    if ps == [] then nit
    else if ps[0].pid != 0 && ps[0].number == 0 then NitPid(ps[1..], ps[0].pid)
    else if ps[0].pid != 0 then nit
    else NitPid(ps[1..], nit)
  }

  /** A complete PAT: learn the PMT PID, and rewrite the PAT if that has not been done. */
  function UsePat(ch: ChannelInfo, s: StreamState): StreamState {
    var t := if s.pmtPid == 0
             then s.(nitPid := NitPid(s.pat.pat.programs, 0x10), pmtPid := PmtPid(s.pat.pat.programs),
                     learnt := s.pat.pat)
             else s;
    if t.newPat.Some? then t
    else
      var (table, pat) := RewritePat(t.table, ch.service, t.pat.pat);
      t.(table := table, newPat := Some(pat), pat0 := t.pat.pat)
  }

  function ProcessPat(lib: Parser, ch: ChannelInfo, s: StreamState, p: Packet): Outcome {
    var t := s.(pat := lib.pushPat(s.pat, p));
    if s.lastPat.ready && !t.pat.ready then Outcome(t, [], false)
    else if s.lastPat.ready && !lib.samePat(t.pat, s.lastPat) then Outcome(t, [], true)
    else
      var u := t.(lastPat := lib.pushPat(if s.lastPat.ready then NO_PAT else s.lastPat, p));
      Outcome(if u.pat.ready then UsePat(ch, u) else u, [], false)
  }

  /** A complete PMT: rewrite it if that has not been done, and offer the rewritten one. */
  function UsePmt(lib: Parser, ch: ChannelInfo, s: StreamState): Outcome {
    var t := if s.newPmt.Some? then s
             else
               var (table, pmt) := RewritePmt(s.table, ch.service, s.pmtPid, s.pmt.pmt);
               s.(table := table, newPmt := Some(pmt), pmt0 := s.pmt.pmt, pcrPid := s.pmt.pmt.pcrPid);
    var n := lib.pmtPackets(t.newPmt.value);
    Outcome(t.(pmtCont := (t.pmtCont + n) % 16),
            [Offer(PmtTable, SectionPackets(ch, t.newPmt.value.pid, t.pmtCont, n))], false)
  }

  /** A packet on the PMT's PID. `None` stands for a PMT that is not complete yet: its packet
      goes on to be treated like any other. */
  function ProcessPmt(lib: Parser, ch: ChannelInfo, s: StreamState, p: Packet): (StreamState, Option<Outcome>) {
    var t := s.(pmt := lib.pushPmt(s.pmt, p));
    if s.lastPmt.ready && !t.pmt.ready then (t, Some(Outcome(t, [], false)))
    else if s.lastPmt.ready && !lib.samePmt(t.pmt, s.lastPmt) then (t, Some(Outcome(t, [], true)))
    else
      var u := t.(lastPmt := lib.pushPmt(if s.lastPmt.ready then NO_PMT else s.lastPmt, p));
      if u.pmt.ready then (u, Some(UsePmt(lib, ch, u))) else (u, None)
  }

  const EIT_PID: nat := 0x12

  function ProcessEit(lib: Parser, ch: ChannelInfo, s: StreamState, p: Packet): Outcome {
    if ch.eitMode == 0 then Outcome(s, [], false)
    else
      var t := s.(eit := lib.pushEit(s.eit, p));
      if !t.eit.ready || t.eit.service != ch.service then Outcome(t, [], false)
      else
        Outcome(t.(eit := NO_EIT, eitCont := (t.eitCont + t.eit.packets) % 16),
                [Offer(EitTable, SectionPackets(ch, EIT_PID, t.eitCont, t.eit.packets))], false)
  }

  // ---- The packet loop

  /** PIDs that never pass: the source's NIT, SDT, RST, TDT and padding. */
  predicate Killed(s: StreamState, pid: nat) {
    pid == s.nitPid || pid == 0x10 || pid == 0x11 || pid == 0x13 || pid == 0x14 || pid >= NULL_PID
  }

  predicate Clocks(s: StreamState, p: Packet) {
    s.newPmt.Some? && p.pid == s.pcrPid && HasPcr(p)
  }

  /** A packet that belongs to no table of ours passes once a clock has been seen. */
  function Forward(s: StreamState, p: Packet): Outcome {
    if p.pid == EIT_PID || Killed(s, p.pid) then Outcome(s, [], false)
    else
      var t := if Clocks(s, p) then s.(inputPcr := p.pcr.value) else s;
      if t.inputPcr == 0 then Outcome(t, [], false)
      else Outcome(t, [Offer(Forwarded(p), [Renamed(t.table.entries, p)])], false)
  }

  function Step(lib: Parser, ch: ChannelInfo, s: StreamState, p: Packet): Outcome {
    if p.pid == 0 then ProcessPat(lib, ch, s, p)
    else if p.pid == s.pmtPid then
      var (t, done) := ProcessPmt(lib, ch, s, p);
      if done.Some? then done.value
      else if p.pid == EIT_PID then ProcessEit(lib, ch, t, p)
      else Forward(t, p)
    else if p.pid == EIT_PID then ProcessEit(lib, ch, s, p)
    else Forward(s, p)
  }

  /** One connection: the packets read after a reset, up to a reconnect. */
  function Connection(lib: Parser, ch: ChannelInfo, s: StreamState, packets: seq<Packet>): Outcome {
    if packets == [] then Outcome(Reset(ch, s), [], false)
    else
      var before := Connection(lib, ch, s, packets[..|packets| - 1]);
      if before.reconnect then before
      else
        var now := Step(lib, ch, before.stream, packets[|packets| - 1]);
        now.(offers := before.offers + now.offers)
  }
}
