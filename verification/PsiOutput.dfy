/** The continuity counters of the tables that the multiplexer itself puts out. */
module PsiOutput {
  import opened Ts

  /** The producers.  TDT and TOT share a PID and a counter, and so do all EIT tables. */
  datatype Table = PatTable | NitTable | SdtTable | TdtTable | TotTable | EitTable

  datatype Counter = PatCont | NitCont | SdtCont | TdtCont | EitCont

  function CounterOf(t: Table): Counter {
    match t
    case PatTable => PatCont
    case NitTable => NitCont
    case SdtTable => SdtCont
    case TdtTable => TdtCont
    case TotTable => TdtCont
    case EitTable => EitCont
  }

  /** Counters are 4 bits wide; the one of TDT and TOT starts at 15. */
  function InitialCont(c: Counter): nat {
    if c == TdtCont then 15 else 0
  }

  /** A section's packets with counters from `cont` on. */
  function Numbered(section: seq<Packet>, cont: nat): (r: seq<Packet>)
    ensures |r| == |section|
    ensures forall i :: 0 <= i < |r| ==> r[i] == section[i].(cont := (i + cont) % 16)
  {
    seq(|section|, i requires 0 <= i < |section| => section[i].(cont := (i + cont) % 16))
  }

  /** The five counters of `OUTPUT`. */
  datatype Conts = Conts(pat: nat, nit: nat, sdt: nat, tdt: nat, eit: nat) {
    function Get(c: Counter): nat {
      match c
      case PatCont => pat
      case NitCont => nit
      case SdtCont => sdt
      case TdtCont => tdt
      case EitCont => eit
    }

    function Advance(c: Counter, n: nat): (r: Conts)
      ensures forall d :: r.Get(d) == if d == c then (Get(c) + n) % 16 else Get(d)
    {
      match c
      case PatCont => this.(pat := (pat + n) % 16)
      case NitCont => this.(nit := (nit + n) % 16)
      case SdtCont => this.(sdt := (sdt + n) % 16)
      case TdtCont => this.(tdt := (tdt + n) % 16)
      case EitCont => this.(eit := (eit + n) % 16)
    }
  }

  /** The PSI buffer and the counters. */
  datatype PsiState = PsiState(buf: seq<Packet>, conts: Conts)

  const START_PSI := PsiState([], Conts(0, 0, 0, 15, 0))

  /** `cbuf_fill` takes the whole section or nothing; the counter advances either way. */
  function Put(room: nat, p: PsiState, t: Table, section: seq<Packet>): (PsiState, bool) {
    var c := CounterOf(t);
    var kept := |p.buf| + |section| <= room;
    (PsiState(if kept then p.buf + Numbered(section, p.conts.Get(c)) else p.buf, p.conts.Advance(c, |section|)), kept)
  }

  /** The producers' side of `OUTPUT`. */
  class Producer {
    const room: nat
    var psibuf: seq<Packet>
    var conts: Conts

    ghost function View(): PsiState
      reads this
    {
      PsiState(psibuf, conts)
    }

    constructor (room: nat)
      ensures this.room == room && View() == START_PSI
    {
      this.room := room;
      psibuf, conts := [], Conts(0, 0, 0, 15, 0);
    }

    /** The common body of `output_add_pat` and its siblings: the section's packets are numbered
        in place, then offered to the PSI buffer. */
    method Output(t: Table, section: array<Packet>) returns (kept: bool)
      modifies this, section
      ensures (View(), kept) == Put(room, old(View()), t, old(section[..]))
      ensures section[..] == Numbered(old(section[..]), old(conts).Get(CounterOf(t)))
    {
      var c := CounterOf(t);
      var cont := conts.Get(c);
      for i := 0 to section.Length
        invariant View() == old(View())
        invariant forall j :: 0 <= j < i ==> section[j] == old(section[j]).(cont := (j + cont) % 16)
        invariant forall j :: i <= j < section.Length ==> section[j] == old(section[j])
      {
        section[i] := section[i].(cont := (i + cont) % 16);
      }
      ghost var numbered := Numbered(old(section[..]), cont);
      assert section[..] == numbered;
      conts := conts.Advance(c, section.Length);
      kept := |psibuf| + section.Length <= room;
      if kept {
        psibuf := psibuf + section[..];
      }
    }
  }

  // ---- A run of producers and mixer

  datatype Op = Emit(table: Table, section: seq<Packet>) | Drain(count: nat)

  function Apply(room: nat, p: PsiState, op: Op): PsiState {
    match op
    case Emit(t, section) => Put(room, p, t, section).0
    case Drain(count) => p.(buf := p.buf[if count < |p.buf| then count else |p.buf|..])
  }

  function After(room: nat, ops: seq<Op>): PsiState {
    if ops == [] then START_PSI else Apply(room, After(room, ops[..|ops| - 1]), ops[|ops| - 1])
  }

  predicate Kept(room: nat, ops: seq<Op>, i: nat)
    requires i < |ops| && ops[i].Emit?
  {
    |After(room, ops[..i]).buf| + |ops[i].section| <= room
  }

  /** The counters of the packets that entered the buffer under counter `c`, and for each of
      them how many packets under `c` had been lost before it. */
  datatype Seen = Seen(cont: nat, lost: nat)

  /** The packets under `c` lost to failed fills so far. */
  function Lost(room: nat, ops: seq<Op>, c: Counter): nat {
    if ops == [] then 0
    else
      var last := |ops| - 1;
      Lost(room, ops[..last], c) +
      if ops[last].Emit? && CounterOf(ops[last].table) == c && !Kept(room, ops, last) then |ops[last].section| else 0
  }

  /** What a section adds to the record when it is kept. */
  function SeenIn(section: seq<Packet>, cont: nat, lost: nat): (r: seq<Seen>)
    ensures |r| == |section|
    ensures forall i :: 0 <= i < |r| ==> r[i] == Seen((i + cont) % 16, lost)
  {
    var numbered := Numbered(section, cont);
    seq(|section|, i requires 0 <= i < |section| => Seen(numbered[i].cont, lost))
  }

  /** The packets under `c` accepted so far. */
  function Accepted(room: nat, ops: seq<Op>, c: Counter): seq<Seen> {
    if ops == [] then []
    else
      var last := |ops| - 1;
      var seen := Accepted(room, ops[..last], c);
      if ops[last].Emit? && CounterOf(ops[last].table) == c && Kept(room, ops, last)
      then seen + SeenIn(ops[last].section, After(room, ops[..last]).conts.Get(c), Lost(room, ops[..last], c))
      else seen
  }

  // ---- The record is that of the packets in the buffer

  /** Every packet that entered the buffer, with its producer's counter. */
  function Entered(room: nat, ops: seq<Op>): seq<(Counter, Packet)> {
    if ops == [] then []
    else
      var last := |ops| - 1;
      var before := Entered(room, ops[..last]);
      if ops[last].Emit? && Kept(room, ops, last)
      then before + Labelled(CounterOf(ops[last].table), Numbered(ops[last].section,
                               After(room, ops[..last]).conts.Get(CounterOf(ops[last].table))))
      else before
  }

  function Labelled(c: Counter, ps: seq<Packet>): (r: seq<(Counter, Packet)>)
    ensures |r| == |ps| && forall i :: 0 <= i < |r| ==> r[i] == (c, ps[i])
  {
    seq(|ps|, i requires 0 <= i < |ps| => (c, ps[i]))
  }

  /** The packets of one producer, and their counters. */
  function PacketsUnder(entered: seq<(Counter, Packet)>, c: Counter): seq<Packet> {
    if entered == [] then []
    else
      var last := entered[|entered| - 1];
      PacketsUnder(entered[..|entered| - 1], c) + if last.0 == c then [last.1] else []
  }

  function ContsUnder(entered: seq<(Counter, Packet)>, c: Counter): seq<nat> {
    ContsIn(PacketsUnder(entered, c))
  }

  function ContsOf(seen: seq<Seen>): seq<nat> {
    seq(|seen|, i requires 0 <= i < |seen| => seen[i].cont)
  }

  function ContsIn(ps: seq<Packet>): (r: seq<nat>)
    ensures |r| == |ps| && forall i :: 0 <= i < |r| ==> r[i] == ps[i].cont
  {
    seq(|ps|, i requires 0 <= i < |ps| => ps[i].cont)
  }

  lemma {:induction false} UnderLabelled(before: seq<(Counter, Packet)>, d: Counter, ps: seq<Packet>, c: Counter)
    ensures PacketsUnder(before + Labelled(d, ps), c) == PacketsUnder(before, c) + if d == c then ps else []
  {
    hide PacketsUnder;
    if ps == [] {
      assert before + Labelled(d, ps) == before;
    } else {
      var init, last := ps[..|ps| - 1], ps[|ps| - 1];
      UnderLabelled(before, d, init, c);
      assert before + Labelled(d, ps) == before + Labelled(d, init) + [(d, last)];
      UnderOne(before + Labelled(d, init), (d, last), c);
    }
  }

  lemma UnderOne(before: seq<(Counter, Packet)>, e: (Counter, Packet), c: Counter)
    ensures PacketsUnder(before + [e], c) == PacketsUnder(before, c) + if e.0 == c then [e.1] else []
  {
    assert (before + [e])[..|before|] == before;
  }

  /** The packets of the sections kept under `c`, as the tables were built. */
  function Sections(room: nat, ops: seq<Op>, c: Counter): seq<Packet> {
    if ops == [] then []
    else
      var last := |ops| - 1;
      Sections(room, ops[..last], c) +
      if ops[last].Emit? && CounterOf(ops[last].table) == c && Kept(room, ops, last) then ops[last].section else []
  }

  /** The packets with their counters set to 0. */
  function Uncounted(ps: seq<Packet>): (r: seq<Packet>)
    ensures |r| == |ps| && forall i :: 0 <= i < |r| ==> r[i] == ps[i].(cont := 0)
  {
    seq(|ps|, i requires 0 <= i < |ps| => ps[i].(cont := 0))
  }

  /** What entered are the packets of the sections, and nothing but their counters was changed. */
  lemma {:induction false} SectionsEntered(room: nat, ops: seq<Op>, c: Counter)
    ensures Uncounted(PacketsUnder(Entered(room, ops), c)) == Uncounted(Sections(room, ops, c))
  {
    hide After, Kept, CounterOf, PacketsUnder, Conts.Get;
    if ops == [] {
      NoneEntered(c);
    } else {
      var last := |ops| - 1;
      SectionsEntered(room, ops[..last], c);
      if ops[last].Emit? && Kept(room, ops, last) {
        var d := CounterOf(ops[last].table);
        UnderLabelled(Entered(room, ops[..last]), d,
                      Numbered(ops[last].section, After(room, ops[..last]).conts.Get(d)), c);
      }
    }
  }

  /** `buf` is the end of what entered. */
  predicate EndOf(buf: seq<Packet>, entered: seq<(Counter, Packet)>) {
    |buf| <= |entered| && forall i :: 0 <= i < |buf| ==> buf[i] == entered[|entered| - |buf| + i].1
  }

  lemma EndGrows(buf: seq<Packet>, entered: seq<(Counter, Packet)>, c: Counter, ps: seq<Packet>)
    requires EndOf(buf, entered)
    ensures EndOf(buf + ps, entered + Labelled(c, ps))
  {
  }

  /** The buffer holds the newest packets that entered it, in order. */
  lemma {:induction false} BufferHolds(room: nat, ops: seq<Op>)
    ensures EndOf(After(room, ops).buf, Entered(room, ops))
  {
    hide CounterOf, Conts.Get, Conts.Advance, Numbered, EndOf;
    if ops == [] {
      NothingYet();
    } else {
      var last := |ops| - 1;
      var p, entered := After(room, ops[..last]), Entered(room, ops[..last]);
      BufferHolds(room, ops[..last]);
      match ops[last]
      case Emit(t, section) =>
        EndGrows(p.buf, entered, CounterOf(t), Numbered(section, p.conts.Get(CounterOf(t))));
      case Drain(count) =>
        EndShrinks(p.buf, entered, count);
    }
  }

  lemma NothingYet()
    ensures EndOf([], [])
  {
  }

  lemma EndShrinks(buf: seq<Packet>, entered: seq<(Counter, Packet)>, count: nat)
    requires EndOf(buf, entered)
    ensures EndOf(buf[if count < |buf| then count else |buf|..], entered)
  {
  }

  /** The record kept under a counter is that of the packets that entered. */
  lemma {:induction false} AcceptedAre(room: nat, ops: seq<Op>, c: Counter)
    ensures ContsOf(Accepted(room, ops, c)) == ContsUnder(Entered(room, ops), c)
  {
    hide After, Kept, CounterOf, PacketsUnder, Lost, Conts.Get;
    if ops == [] {
      NoneEntered(c);
    } else {
      var last := |ops| - 1;
      AcceptedAre(room, ops[..last], c);
      if ops[last].Emit? && Kept(room, ops, last) {
        var d := CounterOf(ops[last].table);
        UnderLabelled(Entered(room, ops[..last]), d,
                      Numbered(ops[last].section, After(room, ops[..last]).conts.Get(d)), c);
      }
    }
  }

  lemma NoneEntered(c: Counter)
    ensures PacketsUnder([], c) == [] && ContsUnder([], c) == []
  {
  }

  // ---- Continuity

  lemma ModSum(a: nat, n: nat)
    ensures (a % 16 + n) % 16 == (a + n) % 16
  {
  }

  lemma AdvanceGet(conts: Conts, d: Counter, n: nat, c: Counter)
    ensures conts.Advance(d, n).Get(c) == if d == c then (conts.Get(c) + n) % 16 else conts.Get(c)
  {
  }

  lemma ContsAdvance(room: nat, ops: seq<Op>, c: Counter)
    requires ops != []
    ensures var last := |ops| - 1;
            After(room, ops).conts.Get(c) ==
            if ops[last].Emit? && CounterOf(ops[last].table) == c
            then (After(room, ops[..last]).conts.Get(c) + |ops[last].section|) % 16
            else After(room, ops[..last]).conts.Get(c)
  {
    hide Numbered, Conts.Advance, Conts.Get, CounterOf;
    var last := |ops| - 1;
    if ops[last].Emit? {
      AdvanceGet(After(room, ops[..last]).conts, CounterOf(ops[last].table), |ops[last].section|, c);
    }
  }

  lemma {:induction false} ContsCount(room: nat, ops: seq<Op>, c: Counter)
    ensures After(room, ops).conts.Get(c) == (InitialCont(c) + |Accepted(room, ops, c)| + Lost(room, ops, c)) % 16
  {
    if ops != [] {
      var last := |ops| - 1;
      ContsCount(room, ops[..last], c);
      ContsAdvance(room, ops, c);
      hide After, Kept;
      if ops[last].Emit? && CounterOf(ops[last].table) == c {
        ModSum(InitialCont(c) + |Accepted(room, ops[..last], c)| + Lost(room, ops[..last], c), |ops[last].section|);
      }
    }
  }

  /** Every accepted packet carries the count of all packets before it, lost ones included. */
  lemma {:induction false} SeenCounts(room: nat, ops: seq<Op>, c: Counter, m: nat)
    requires m < |Accepted(room, ops, c)|
    ensures var seen := Accepted(room, ops, c)[m];
            seen.lost <= Lost(room, ops, c) && seen.cont == (InitialCont(c) + m + seen.lost) % 16
    decreases |ops|
  {
    hide After, Kept, Conts.Get, CounterOf, InitialCont;
    var last := |ops| - 1;
    var before := Accepted(room, ops[..last], c);
    if m < |before| {
      SeenCounts(room, ops[..last], c, m);
    } else {
      ContsCount(room, ops[..last], c);
      ModSum(InitialCont(c) + |before| + Lost(room, ops[..last], c), m - |before|);
    }
  }

  /** Continuity over every run: under each counter, a packet in the PSI buffer continues the
      count of the one before it if and only if the packets lost between them are a multiple
      of 16; in particular when no fill failed in between. */
  lemma ContinuityIs(room: nat, ops: seq<Op>, c: Counter, m: nat)
    requires m + 1 < |Accepted(room, ops, c)|
    ensures var seen := Accepted(room, ops, c);
            seen[m + 1].cont == (seen[m].cont + 1) % 16 <==> (seen[m + 1].lost - seen[m].lost) % 16 == 0
  {
    hide Accepted, Lost, InitialCont;
    SeenCounts(room, ops, c, m);
    SeenCounts(room, ops, c, m + 1);
    var seen := Accepted(room, ops, c);
    ModStep(InitialCont(c) + m, seen[m].lost, seen[m + 1].lost);
  }

  lemma ModStep(a: nat, x: nat, y: nat)
    ensures (a + 1 + y) % 16 == ((a + x) % 16 + 1) % 16 <==> (y - x) % 16 == 0
  {
  }

  predicate NothingLost(room: nat, ops: seq<Op>, c: Counter) {
    forall i :: 0 <= i < |ops| && ops[i].Emit? && CounterOf(ops[i].table) == c ==> Kept(room, ops, i)
  }

  lemma {:induction false} NoLoss(room: nat, ops: seq<Op>, c: Counter)
    requires NothingLost(room, ops, c)
    ensures Lost(room, ops, c) == 0
  {
    if ops != [] {
      var init := ops[..|ops| - 1];
      forall i | 0 <= i < |init| && init[i].Emit? && CounterOf(init[i].table) == c ensures Kept(room, init, i) {
        assert Kept(room, ops, i) && init[..i] == ops[..i];
      }
      NoLoss(room, init, c);
    }
  }

  /** Without a failed fill, the packets that a counter's producers appended carry consecutive
      numbers from the initial one on. */
  lemma ConsecutiveWithoutLoss(room: nat, ops: seq<Op>, c: Counter, m: nat)
    requires NothingLost(room, ops, c) && m < |ContsUnder(Entered(room, ops), c)|
    ensures ContsUnder(Entered(room, ops), c)[m] == (InitialCont(c) + m) % 16
  {
    hide Accepted, Lost, ContsUnder, Entered;
    NoLoss(room, ops, c);
    AcceptedAre(room, ops, c);
    assert |ContsOf(Accepted(room, ops, c))| == |Accepted(room, ops, c)|;
    SeenCounts(room, ops, c, m);
  }
}
