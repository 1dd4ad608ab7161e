/** Transport stream packets, reduced to the fields the multiplexer looks at. */
module Ts {
  const NULL_PID: nat := 0x1fff

  type Pid = p: nat | p <= NULL_PID

  datatype Option<+T> = None | Some(value: T)

  /** Who put a packet into the multiplexer.  The program never reads this label: it is
      how the theorems tell the packets of two sources apart. */
  datatype Origin = Stuffing | Psi | Channel(index: nat)

  /** `afc` and `cont` are the two halves of header byte 3: adaptation field control
      and continuity counter.  `pcr` is the clock in the adaptation field, if any. */
  datatype Packet = Packet(origin: Origin, pid: Pid, afc: nat, cont: nat, pcr: Option<nat>, body: int)

  /** A PCR can only be read when the header announces an adaptation field. */
  predicate HasPcr(p: Packet) {
    p.afc >= 2 && p.pcr.Some?
  }

  /** What `obuf_reset` leaves in every slot. */
  const NULL_PACKET := Packet(Stuffing, NULL_PID, 0, 0, None, 0)

  function Nulls(n: nat): (s: seq<Packet>)
    ensures |s| == n && forall i :: 0 <= i < n ==> s[i] == NULL_PACKET
  {
    seq(n, i => NULL_PACKET)
  }

  /** The packets of one source in a stream, with null packets deleted. */
  function Deliver(s: seq<Packet>, o: Origin): seq<Packet> {
    if s == [] then []
    else Deliver(s[..|s| - 1], o) + Payload(s[|s| - 1], o)
  }

  function Payload(p: Packet, o: Origin): seq<Packet> {
    if p.origin == o && p.pid != NULL_PID then [p] else []
  }

  lemma {:induction false} DeliverConcat(a: seq<Packet>, b: seq<Packet>, o: Origin)
    ensures Deliver(a + b, o) == Deliver(a, o) + Deliver(b, o)
  {
    if b == [] {
      assert a + b == a;
    } else {
      var init, last := b[..|b| - 1], b[|b| - 1];
      DeliverConcat(a, init, o);
      assert (a + b)[..|a + b| - 1] == a + init && (a + b)[|a + b| - 1] == last;
      hide Payload;
      Associative(Deliver(a, o), Deliver(init, o), Payload(last, o));
    }
  }

  lemma Associative<T>(a: seq<T>, b: seq<T>, c: seq<T>)
    ensures (a + b) + c == a + (b + c)
  {
  }

  lemma {:induction false} DeliverHead(s: seq<Packet>, o: Origin)
    requires s != []
    ensures Deliver(s, o) == Payload(s[0], o) + Deliver(s[1..], o)
  {
    DeliverConcat(s[..1], s[1..], o);
    assert s == s[..1] + s[1..];
    assert s[..1][..0] == [];
  }

  lemma {:induction false} DeliverStuffing(s: seq<Packet>, o: Origin)
    requires forall i :: 0 <= i < |s| ==> s[i].pid == NULL_PID
    ensures Deliver(s, o) == []
  {
    if s != [] {
      DeliverStuffing(s[..|s| - 1], o);
    }
  }

  /** Writing a packet over the first of a tail of null packets appends it to what is
      delivered. */
  lemma DeliverPlace(s: seq<Packet>, pos: nat, p: Packet, o: Origin)
    requires pos < |s|
    requires forall i :: pos <= i < |s| ==> s[i] == NULL_PACKET
    ensures Deliver(s[pos := p], o) == Deliver(s, o) + Payload(p, o)
  {
    DeliverSplit(s, s[..pos], NULL_PACKET, s[pos + 1..], o);
    DeliverSplit(s[pos := p], s[..pos], p, s[pos + 1..], o);
  }

  lemma DeliverSplit(s: seq<Packet>, before: seq<Packet>, p: Packet, after: seq<Packet>, o: Origin)
    requires s == before + ([p] + after)
    requires forall i :: 0 <= i < |after| ==> after[i] == NULL_PACKET
    ensures Deliver(s, o) == Deliver(before, o) + Payload(p, o)
  {
    DeliverConcat(before, [p] + after, o);
    DeliverHead([p] + after, o);
    assert ([p] + after)[1..] == after;
    DeliverStuffing(after, o);
  }

  /** Two streams that agree slot by slot on what `Deliver` looks at, up to the clock,
      deliver the same packets up to the clock. */
  function Unclocked(p: Packet): Packet {
    p.(pcr := None)
  }

  function AllUnclocked(s: seq<Packet>): (r: seq<Packet>)
    ensures |r| == |s| && forall i :: 0 <= i < |s| ==> r[i] == Unclocked(s[i])
  {
    seq(|s|, i requires 0 <= i < |s| => Unclocked(s[i]))
  }
}
