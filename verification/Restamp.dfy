/** The writing thread's PCR restamping: clocks are extrapolated from the bytes sent. */
module Restamp {
  import opened Ts

  const PIDS: nat := 8193
  const FRAME: nat := 7
  const PACKET_SIZE: nat := 188

  /** Ticks of the 27 MHz clock per byte, times the bitrate in bits per second. */
  const TICKS: nat := 8 * 27000000

  const WORD: nat := 0x1_0000_0000_0000_0000

  /** The writer's memory of the latest PCR on each PID: the value sent, the value that came
      in, and the bytes sent before it. */
  datatype Clocks = Clocks(lastPcr: seq<nat>, lastOrg: seq<nat>, lastTraffic: seq<nat>)

  predicate GoodClocks(c: Clocks) {
    |c.lastPcr| == |c.lastOrg| == |c.lastTraffic| == PIDS
  }

  function Zeros(n: nat): (s: seq<nat>)
    ensures |s| == n && forall i :: 0 <= i < n ==> s[i] == 0
  {
    seq(n, i => 0)
  }

  /** Nothing sent yet. */
  function FreshClocks(): (c: Clocks)
    ensures GoodClocks(c) && forall i :: 0 <= i < PIDS ==> c.lastPcr[i] == 0
  {
    Clocks(Zeros(PIDS), Zeros(PIDS), Zeros(PIDS))
  }

  predicate RewritesPcr(mode: nat) {
    mode == 2 || mode == 3
  }

  /** A null packet gets a valid header: no adaptation field, payload only. */
  function FixNull(p: Packet): Packet {
    if p.pid == NULL_PID then p.(afc := 1, cont := 0) else p
  }

  /** The clock ticks in which `bytes` leave at the output bitrate; the numerator is computed
      in 64-bit unsigned arithmetic and the quotient truncated. */
  function Elapsed(bitrate: real, bytes: int): (ticks: nat)
    requires bitrate > 0.0
  {
    ((bytes * TICKS % WORD) as real / bitrate).Floor
  }

  function NewPcr(bitrate: real, c: Clocks, p: Packet, bytes: nat): (v: nat)
    requires bitrate > 0.0 && GoodClocks(c) && HasPcr(p)
  {
    var prev := c.lastPcr[p.pid];
    if prev != 0 && c.lastOrg[p.pid] < p.pcr.value
    then prev + Elapsed(bitrate, bytes - c.lastTraffic[p.pid])
    else p.pcr.value
  }

  /** One packet of a frame, with `bytes` sent before it. */
  function Stamp(mode: nat, bitrate: real, c: Clocks, raw: Packet, bytes: nat): (r: (Clocks, Packet))
    requires bitrate > 0.0 && GoodClocks(c)
    ensures GoodClocks(r.0)
  {
    var p := FixNull(raw);
    if !HasPcr(p) then (c, p)
    else
      var v := NewPcr(bitrate, c, p, bytes);
      (Clocks(c.lastPcr[p.pid := v], c.lastOrg[p.pid := p.pcr.value], c.lastTraffic[p.pid := bytes]),
       if RewritesPcr(mode) then p.(pcr := Some(v)) else p)
  }

  /** Consecutive packets, the first with `bytes` sent before it. */
  function StampAll(mode: nat, bitrate: real, c: Clocks, s: seq<Packet>, bytes: nat): (r: (Clocks, seq<Packet>))
    requires bitrate > 0.0 && GoodClocks(c)
    ensures GoodClocks(r.0) && |r.1| == |s|
  {
    if s == [] then (c, [])
    else
      var last := |s| - 1;
      var before := StampAll(mode, bitrate, c, s[..last], bytes);
      var stamped := Stamp(mode, bitrate, before.0, s[last], bytes + PACKET_SIZE * last);
      (stamped.0, before.1 + [stamped.1])
  }

  lemma {:induction false} StampConcat(mode: nat, bitrate: real, c: Clocks, s: seq<Packet>, t: seq<Packet>, bytes: nat)
    requires bitrate > 0.0 && GoodClocks(c)
    ensures var a := StampAll(mode, bitrate, c, s, bytes);
            var b := StampAll(mode, bitrate, a.0, t, bytes + PACKET_SIZE * |s|);
            StampAll(mode, bitrate, c, s + t, bytes) == (b.0, a.1 + b.1)
  {
    if t == [] {
      assert s + t == s;
      var out := StampAll(mode, bitrate, c, s, bytes).1;
      assert out + [] == out;
    } else {
      var last := |t| - 1;
      StampConcat(mode, bitrate, c, s, t[..last], bytes);
      assert (s + t)[..|s + t| - 1] == s + t[..last];
      assert PACKET_SIZE * (|s| + last) == PACKET_SIZE * |s| + PACKET_SIZE * last;
      var a := StampAll(mode, bitrate, c, s, bytes);
      var b := StampAll(mode, bitrate, a.0, t[..last], bytes + PACKET_SIZE * |s|);
      var p := Stamp(mode, bitrate, b.0, t[last], bytes + PACKET_SIZE * (|s| + last)).1;
      assert a.1 + (b.1 + [p]) == a.1 + b.1 + [p];
    }
  }

  /** What may become of packet `p`: a null packet gets header byte 3 set to 0x10; in modes 2 and
      3 a packet with a clock may get another one; nothing else changes. */
  predicate SameButClock(mode: nat, p: Packet, q: Packet) {
    if p.pid == 0x1fff then q == p.(afc := 1, cont := 0)
    else if (mode == 2 || mode == 3) && HasPcr(p) then q.pcr.Some? && q == p.(pcr := q.pcr)
    else q == p
  }

  lemma {:induction false} StampKeeps(mode: nat, bitrate: real, c: Clocks, s: seq<Packet>, bytes: nat, i: nat)
    requires bitrate > 0.0 && GoodClocks(c) && i < |s|
    ensures SameButClock(mode, s[i], StampAll(mode, bitrate, c, s, bytes).1[i])
    decreases |s|
  {
    if i < |s| - 1 {
      StampKeeps(mode, bitrate, c, s[..|s| - 1], bytes, i);
    }
  }

  // ---- Drift

  /** Packet `j` carries a clock on PID `pid` that the writer will look at. */
  predicate Timed(p: Packet, pid: Pid) {
    p.pid == pid && pid != NULL_PID && HasPcr(p)
  }

  function LastTimed(s: seq<Packet>, pid: Pid): (r: Option<nat>)
    ensures r.Some? ==> r.value < |s| && Timed(s[r.value], pid)
  {
    if s == [] then None
    else if Timed(s[|s| - 1], pid) then Some(|s| - 1)
    else LastTimed(s[..|s| - 1], pid)
  }

  /** The clock before clock `j` on the same PID that it is extrapolated from: there is one,
      it was not 0, and the source clock has gone forward. */
  function Anchor(s: seq<Packet>, pid: Pid, j: nat): (r: Option<nat>)
    requires j < |s| && Timed(s[j], pid)
    ensures r.Some? ==> r.value < j && Timed(s[r.value], pid)
  {
    match LastTimed(s[..j], pid)
    case None => None
    case Some(a) => if s[a].pcr.value != 0 && s[a].pcr.value < s[j].pcr.value then Some(a) else None
  }

  /** The first clock of the run of extrapolated clocks that `j` belongs to. */
  function RunStart(s: seq<Packet>, pid: Pid, j: nat): (r: nat)
    requires j < |s| && Timed(s[j], pid)
    ensures r <= j && Timed(s[r], pid)
  {
    match Anchor(s, pid, j)
    case None => j
    case Some(a) => RunStart(s, pid, a)
  }

  /** How many clocks of the run up to `j` were extrapolated. */
  function Restamps(s: seq<Packet>, pid: Pid, j: nat): nat
    requires j < |s| && Timed(s[j], pid)
  {
    match Anchor(s, pid, j)
    case None => 0
    case Some(a) => Restamps(s, pid, a) + 1
  }

  /** The numerator of the clock ticks that `slots` packets take at the output bitrate. */
  function Span(slots: nat): nat {
    188 * 8 * 27000000 * slots
  }

  /** How often the 64-bit numerators of the run up to `j` have wrapped around. */
  function Wraps(s: seq<Packet>, pid: Pid, j: nat): nat
    requires j < |s| && Timed(s[j], pid)
  {
    match Anchor(s, pid, j)
    case None => 0
    case Some(a) => Wraps(s, pid, a) + Span(j - a) / WORD
  }

  /** The exact clock of a packet sent `slots` packets after a clock `first`, when `wraps` times
      2^64 have got lost from the numerator. */
  function Ideal(bitrate: real, first: nat, slots: nat, wraps: nat): real
    requires bitrate > 0.0
  {
    first as real + (Span(slots) - 0x1_0000_0000_0000_0000 * wraps) as real / bitrate
  }

  /** The clock the writer keeps for PID `pid` after sending `s` from the start, every write
      complete. */
  function Sent(mode: nat, bitrate: real, s: seq<Packet>, pid: Pid): nat
    requires bitrate > 0.0
  {
    StampAll(mode, bitrate, FreshClocks(), s, 0).0.lastPcr[pid]
  }

  /** `v`, the clock sent for clock `j`, is the clock of its run that is ideal but for `wraps`
      wraparounds, less at most one tick for each restamp. */
  predicate Near(bitrate: real, s: seq<Packet>, pid: Pid, j: nat, v: nat, wraps: nat)
    requires bitrate > 0.0 && j < |s| && Timed(s[j], pid)
  {
    var b, n := RunStart(s, pid, j), Restamps(s, pid, j);
    var ideal := Ideal(bitrate, s[b].pcr.value, j - b, wraps);
    if n == 0 then v == s[j].pcr.value else ideal - n as real < v as real <= ideal
  }

  /** The ideal clock less at most one tick for each restamp. */
  predicate Accurate(bitrate: real, s: seq<Packet>, pid: Pid, j: nat, v: nat)
    requires bitrate > 0.0 && j < |s| && Timed(s[j], pid)
  {
    Near(bitrate, s, pid, j, v, 0)
  }

  /** What the writer remembers for `pid` after the first `n` packets of `s`. */
  predicate Remembers(bitrate: real, c: Clocks, s: seq<Packet>, pid: Pid, n: nat)
    requires bitrate > 0.0 && GoodClocks(c) && n <= |s|
  {
    match LastTimed(s[..n], pid)
    case None => c.lastPcr[pid] == 0
    case Some(a) =>
      && Timed(s[a], pid)
      && c.lastOrg[pid] == s[a].pcr.value
      && c.lastTraffic[pid] == PACKET_SIZE * a
      && Near(bitrate, s, pid, a, c.lastPcr[pid], Wraps(s, pid, a))
      && (c.lastPcr[pid] == 0 <==> s[a].pcr.value == 0)
  }

  lemma SumOfQuotients(x: real, y: real, bitrate: real)
    requires bitrate > 0.0
    ensures (x + y) / bitrate == x / bitrate + y / bitrate
  {
  }

  lemma IdealAdds(bitrate: real, first: nat, m: nat, n: nat, v: nat, w: nat)
    requires bitrate > 0.0
    ensures Ideal(bitrate, first, m + n, v + w) ==
            Ideal(bitrate, first, m, v) + (Span(n) - WORD * w) as real / bitrate
  {
    SumOfQuotients((Span(m) - WORD * v) as real, (Span(n) - WORD * w) as real, bitrate);
  }

  lemma ElapsedExactly(bitrate: real, slots: nat)
    requires bitrate > 0.0
    ensures var left := Span(slots) - WORD * (Span(slots) / WORD);
            && left == Span(slots) % WORD
            && Elapsed(bitrate, PACKET_SIZE * slots) == (left as real / bitrate).Floor
            && left as real / bitrate >= 0.0
  {
    assert PACKET_SIZE * slots * TICKS == Span(slots);
  }

  lemma TruncationLoses(ideal: real, x: real, prev: nat, n: nat)
    requires x >= 0.0
    requires if n == 0 then prev as real == ideal else ideal - n as real < prev as real <= ideal
    ensures ideal + x - (n + 1) as real < (prev + x.Floor) as real <= ideal + x
  {
  }

  /** One extrapolation loses less than a tick, wraparound apart. */
  lemma ExtrapolationIsNear(bitrate: real, s: seq<Packet>, pid: Pid, j: nat, prev: nat)
    requires bitrate > 0.0 && j < |s| && Timed(s[j], pid)
    requires Anchor(s, pid, j).Some?
    requires var a := Anchor(s, pid, j).value; Near(bitrate, s, pid, a, prev, Wraps(s, pid, a))
    ensures var v := prev + Elapsed(bitrate, PACKET_SIZE * (j - Anchor(s, pid, j).value));
            v >= prev && Near(bitrate, s, pid, j, v, Wraps(s, pid, j))
  {
    hide Elapsed, Ideal, Anchor, Span;
    var a := Anchor(s, pid, j).value;
    var b, n, w := RunStart(s, pid, a), Restamps(s, pid, a), Wraps(s, pid, a);
    var first, more := s[b].pcr.value, Span(j - a) / WORD;
    var x := (Span(j - a) - WORD * more) as real / bitrate;
    assert RunStart(s, pid, j) == b && Restamps(s, pid, j) == n + 1 && Wraps(s, pid, j) == w + more;
    hide RunStart, Restamps;
    IdealAdds(bitrate, first, a - b, j - a, w, more);
    assert a - b + (j - a) == j - b;
    ElapsedExactly(bitrate, j - a);
    StartHasNone(s, pid, a);
    IdealStarts(bitrate, first);
    hide Wraps;
    TruncationLoses(Ideal(bitrate, first, a - b, w), x, prev, n);
  }

  lemma StartHasNone(s: seq<Packet>, pid: Pid, j: nat)
    requires j < |s| && Timed(s[j], pid)
    ensures Restamps(s, pid, j) == 0 <==> RunStart(s, pid, j) == j
    ensures Restamps(s, pid, j) == 0 ==> Wraps(s, pid, j) == 0
  {
  }

  lemma IdealStarts(bitrate: real, first: nat)
    requires bitrate > 0.0
    ensures Ideal(bitrate, first, 0, 0) == first as real
  {
  }

  /** What a packet does to the memory of one PID. */
  lemma StampMemory(mode: nat, bitrate: real, c: Clocks, p: Packet, bytes: nat, pid: Pid)
    requires bitrate > 0.0 && GoodClocks(c) && pid != NULL_PID
    ensures var d := Stamp(mode, bitrate, c, p, bytes).0;
            if Timed(p, pid)
            then && d.lastPcr[pid] == NewPcr(bitrate, c, p, bytes)
                 && d.lastOrg[pid] == p.pcr.value
                 && d.lastTraffic[pid] == bytes
            else && d.lastPcr[pid] == c.lastPcr[pid]
                 && d.lastOrg[pid] == c.lastOrg[pid]
                 && d.lastTraffic[pid] == c.lastTraffic[pid]
  {
    hide Elapsed;
  }

  /** The writer extrapolates exactly the clocks that have an anchor, and from it. */
  lemma NewPcrIs(bitrate: real, c: Clocks, s: seq<Packet>, pid: Pid, n: nat)
    requires bitrate > 0.0 && GoodClocks(c) && n < |s| && Timed(s[n], pid)
    requires Remembers(bitrate, c, s, pid, n)
    ensures NewPcr(bitrate, c, s[n], PACKET_SIZE * n) ==
            match Anchor(s, pid, n)
            case None => s[n].pcr.value
            case Some(a) => c.lastPcr[pid] + Elapsed(bitrate, PACKET_SIZE * (n - a))
    ensures NewPcr(bitrate, c, s[n], PACKET_SIZE * n) == 0 <==> s[n].pcr.value == 0
  {
    hide Elapsed, Near, Wraps;
    if Anchor(s, pid, n).Some? {
      assert PACKET_SIZE * n - c.lastTraffic[pid] == PACKET_SIZE * (n - Anchor(s, pid, n).value);
    }
  }

  lemma NewPcrIsNear(bitrate: real, c: Clocks, s: seq<Packet>, pid: Pid, n: nat)
    requires bitrate > 0.0 && GoodClocks(c) && n < |s| && Timed(s[n], pid)
    requires Remembers(bitrate, c, s, pid, n)
    ensures Near(bitrate, s, pid, n, NewPcr(bitrate, c, s[n], PACKET_SIZE * n), Wraps(s, pid, n))
  {
    hide Elapsed, Near, NewPcr, Wraps;
    NewPcrIs(bitrate, c, s, pid, n);
    if Anchor(s, pid, n).Some? {
      AnchorIsLast(s, pid, n);
      ExtrapolationIsNear(bitrate, s, pid, n, c.lastPcr[pid]);
    } else {
      NearAtStart(bitrate, s, pid, n);
    }
  }

  lemma AnchorIsLast(s: seq<Packet>, pid: Pid, n: nat)
    requires n < |s| && Timed(s[n], pid) && Anchor(s, pid, n).Some?
    ensures LastTimed(s[..n], pid) == Anchor(s, pid, n)
  {
  }

  lemma NearAtStart(bitrate: real, s: seq<Packet>, pid: Pid, n: nat)
    requires bitrate > 0.0 && n < |s| && Timed(s[n], pid) && Anchor(s, pid, n) == None
    ensures Near(bitrate, s, pid, n, s[n].pcr.value, Wraps(s, pid, n))
  {
    hide Ideal;
  }

  lemma StampRemembers(mode: nat, bitrate: real, c: Clocks, s: seq<Packet>, pid: Pid, n: nat)
    requires bitrate > 0.0 && GoodClocks(c) && n < |s| && pid != NULL_PID
    requires Remembers(bitrate, c, s, pid, n)
    ensures Remembers(bitrate, Stamp(mode, bitrate, c, s[n], PACKET_SIZE * n).0, s, pid, n + 1)
  {
    hide Stamp, NewPcr, Near, Wraps;
    assert s[..n + 1][..n] == s[..n];
    StampMemory(mode, bitrate, c, s[n], PACKET_SIZE * n, pid);
    if Timed(s[n], pid) {
      NewPcrIs(bitrate, c, s, pid, n);
      NewPcrIsNear(bitrate, c, s, pid, n);
    }
  }

  lemma {:induction false} StampAllRemembers(mode: nat, bitrate: real, s: seq<Packet>, pid: Pid, n: nat)
    requires bitrate > 0.0 && n <= |s| && pid != NULL_PID
    ensures Remembers(bitrate, StampAll(mode, bitrate, FreshClocks(), s[..n], 0).0, s, pid, n)
  {
    hide Remembers, Stamp;
    if n == 0 {
      StartRemembers(bitrate, s, pid);
    } else {
      StampAllRemembers(mode, bitrate, s, pid, n - 1);
      assert s[..n][..n - 1] == s[..n - 1];
      var c := StampAll(mode, bitrate, FreshClocks(), s[..n - 1], 0).0;
      StampRemembers(mode, bitrate, c, s, pid, n - 1);
    }
  }

  lemma StartRemembers(bitrate: real, s: seq<Packet>, pid: Pid)
    requires bitrate > 0.0
    ensures Remembers(bitrate, FreshClocks(), s, pid, 0)
  {
    assert s[..0] == [];
  }

  lemma LastTimedIs(s: seq<Packet>, pid: Pid, j: nat)
    requires j < |s| && Timed(s[j], pid)
    ensures LastTimed(s[..j + 1], pid) == Some(j)
  {
  }

  /** Restamping drift, for the whole output and every PID: the clock sent is the source clock
      at the start of a run, and after `n` restamps it is within `n` ticks below the ideal
      clock of the output bitrate and never above it, less what wraparounds took. */
  lemma DriftBounded(mode: nat, bitrate: real, s: seq<Packet>, pid: Pid, j: nat)
    requires bitrate > 0.0 && j < |s| && Timed(s[j], pid)
    ensures Near(bitrate, s, pid, j, Sent(mode, bitrate, s[..j + 1], pid), Wraps(s, pid, j))
    ensures StampAll(mode, bitrate, FreshClocks(), s, 0).1[j].pcr ==
            if mode == 2 || mode == 3 then Some(Sent(mode, bitrate, s[..j + 1], pid)) else s[j].pcr
  {
    StampAllRemembers(mode, bitrate, s, pid, j + 1);
    LastTimedIs(s, pid, j);
    hide Near, Wraps;
    StampPrefix(mode, bitrate, s, j + 1);
    assert s[..j + 1][..j] == s[..j];
  }

  /** A wraparound takes more than `n` restamps may lose. */
  lemma NearAndAccurate(bitrate: real, s: seq<Packet>, pid: Pid, j: nat, v: nat)
    requires bitrate > 0.0 && j < |s| && Timed(s[j], pid)
    requires Near(bitrate, s, pid, j, v, Wraps(s, pid, j))
    requires Restamps(s, pid, j) as real * bitrate <= WORD as real
    ensures Accurate(bitrate, s, pid, j, v) <==> Wraps(s, pid, j) == 0
  {
    hide RunStart, Restamps, Wraps, Ideal;
    var b, n, w := RunStart(s, pid, j), Restamps(s, pid, j), Wraps(s, pid, j);
    StartHasNone(s, pid, j);
    if w > 0 && n > 0 {
      WrapTakes(bitrate, s[b].pcr.value, j - b, w, n);
    }
  }

  lemma WrapTakes(bitrate: real, first: nat, slots: nat, wraps: nat, n: nat)
    requires bitrate > 0.0 && wraps > 0 && n as real * bitrate <= WORD as real
    ensures Ideal(bitrate, first, slots, wraps) <= Ideal(bitrate, first, slots, 0) - n as real
  {
    var x, y := Span(slots) as real, (WORD * wraps) as real;
    SumOfQuotients(x, -y, bitrate);
    assert x + -y == (Span(slots) - WORD * wraps) as real;
    QuotientAtLeast(y, n as real, bitrate);
    SumOfQuotients(y, -y, bitrate);
  }

  lemma QuotientAtLeast(y: real, n: real, bitrate: real)
    requires bitrate > 0.0 && n * bitrate <= y
    ensures y / bitrate >= n
  {
    var q := y / bitrate;
    assert q * bitrate == y;
    if q < n {
      assert (n - q) * bitrate > 0.0;
    }
  }

  /** As long as `n` restamps at the output bitrate stay within 2^64, the clock sent is accurate
      if and only if no numerator of its run has wrapped around. */
  lemma DriftIsAccurate(mode: nat, bitrate: real, s: seq<Packet>, pid: Pid, j: nat)
    requires bitrate > 0.0 && j < |s| && Timed(s[j], pid)
    requires Restamps(s, pid, j) as real * bitrate <= WORD as real
    ensures Accurate(bitrate, s, pid, j, Sent(mode, bitrate, s[..j + 1], pid)) <==> Wraps(s, pid, j) == 0
  {
    hide Accurate, Near, Sent, Wraps, Restamps;
    DriftBounded(mode, bitrate, s, pid, j);
    NearAndAccurate(bitrate, s, pid, j, Sent(mode, bitrate, s[..j + 1], pid));
  }

  lemma StampPrefix(mode: nat, bitrate: real, s: seq<Packet>, n: nat)
    requires bitrate > 0.0 && n <= |s|
    ensures StampAll(mode, bitrate, FreshClocks(), s, 0).1[..n] ==
            StampAll(mode, bitrate, FreshClocks(), s[..n], 0).1
  {
    StampConcat(mode, bitrate, FreshClocks(), s[..n], s[n..], 0);
    assert s == s[..n] + s[n..];
  }

  lemma {:induction false} MemoryStays(mode: nat, bitrate: real, s: seq<Packet>, pid: Pid, a: nat, n: nat)
    requires bitrate > 0.0 && n <= |s| && pid != NULL_PID && LastTimed(s[..n], pid) == Some(a)
    ensures Sent(mode, bitrate, s[..n], pid) == Sent(mode, bitrate, s[..a + 1], pid)
  {
    hide Stamp;
    if a + 1 < n {
      assert s[..n][..n - 1] == s[..n - 1];
      MemoryStays(mode, bitrate, s, pid, a, n - 1);
      var c := StampAll(mode, bitrate, FreshClocks(), s[..n - 1], 0).0;
      StampMemory(mode, bitrate, c, s[n - 1], PACKET_SIZE * (n - 1), pid);
    }
  }

  /** How each clock follows from the one before it on its PID.  A clock with no anchor starts
      a run at the source clock; in particular the clock after one that was 0 does, even if
      the source clock went forward.  Otherwise the clock sent never goes back, and goes
      forward exactly when the packets in between take a tick or more, wraparound apart. */
  lemma ClocksAdvance(mode: nat, bitrate: real, s: seq<Packet>, pid: Pid, j: nat)
    requires bitrate > 0.0 && j < |s| && Timed(s[j], pid)
    ensures match Anchor(s, pid, j)
            case None => Sent(mode, bitrate, s[..j + 1], pid) == s[j].pcr.value
            case Some(a) =>
              var before, now := Sent(mode, bitrate, s[..a + 1], pid), Sent(mode, bitrate, s[..j + 1], pid);
              && before <= now
              && (before < now <==> (Span(j - a) % WORD) as real >= bitrate)
  {
    StampAllRemembers(mode, bitrate, s, pid, j);
    var c := StampAll(mode, bitrate, FreshClocks(), s[..j], 0).0;
    assert s[..j + 1][..j] == s[..j];
    StampMemory(mode, bitrate, c, s[j], PACKET_SIZE * j, pid);
    NewPcrIs(bitrate, c, s, pid, j);
    hide Stamp, NewPcr, Remembers, Elapsed;
    if Anchor(s, pid, j).Some? {
      var a := Anchor(s, pid, j).value;
      MemoryStays(mode, bitrate, s, pid, a, j);
      hide Span;
      ElapsedExactly(bitrate, j - a);
      QuotientReachesOne((Span(j - a) % WORD) as real, bitrate);
    }
  }

  lemma QuotientReachesOne(x: real, y: real)
    requires x >= 0.0 && y > 0.0
    ensures (x / y).Floor >= 1 <==> x >= y
  {
    var q := x / y;
    assert q * y == x;
    ReachesOne(q, y, x);
  }

  lemma ReachesOne(q: real, y: real, qTimesY: real)
    requires y > 0.0 && qTimesY == q * y
    ensures q.Floor >= 1 <==> qTimesY >= y
  {
    assert qTimesY - y == (q - 1.0) * y;
    if q >= 1.0 {
      assert (q - 1.0) * y >= 0.0;
    } else {
      assert (q - 1.0) * y < 0.0;
    }
  }

  /** Up to 40.6 Gbps the clocks of a run are strictly increasing. */
  lemma ClocksStrictlyIncrease(mode: nat, bitrate: real, s: seq<Packet>, pid: Pid, j: nat)
    requires 0.0 < bitrate <= (PACKET_SIZE * TICKS) as real && j < |s| && Timed(s[j], pid)
    requires Anchor(s, pid, j).Some? && Span(j - Anchor(s, pid, j).value) < WORD
    ensures Sent(mode, bitrate, s[..Anchor(s, pid, j).value + 1], pid) < Sent(mode, bitrate, s[..j + 1], pid)
  {
    ClocksAdvance(mode, bitrate, s, pid, j);
    hide Sent, Anchor;
    AtLeastOnce(PACKET_SIZE * TICKS, j - Anchor(s, pid, j).value);
  }

  lemma AtLeastOnce(x: nat, n: nat)
    requires n >= 1
    ensures x * n >= x
  {
  }

  // ---- A clock that wraps around

  /** Two clocks on one PID with `n` null packets between them. */
  function FarClocks(pid: Pid, first: nat, n: nat, second: nat): (s: seq<Packet>)
    ensures |s| == n + 2
  {
    [Packet(Psi, pid, 2, 0, Some(first), 0)] + Nulls(n) + [Packet(Psi, pid, 2, 0, Some(second), 0)]
  }

  lemma {:induction false} NoClockSince(s: seq<Packet>, pid: Pid, t: seq<Packet>)
    requires forall i :: 0 <= i < |t| ==> !Timed(t[i], pid)
    ensures LastTimed(s + t, pid) == LastTimed(s, pid)
  {
    if t == [] {
      assert s + t == s;
    } else {
      NoClockSince(s, pid, t[..|t| - 1]);
      assert (s + t)[..|s + t| - 1] == s + t[..|t| - 1];
    }
  }

  lemma FarAnchor(pid: Pid, first: nat, n: nat, second: nat)
    requires pid != NULL_PID && 0 < first < second
    ensures var s := FarClocks(pid, first, n, second);
            && Timed(s[n + 1], pid) && Timed(s[0], pid)
            && Anchor(s, pid, n + 1) == Some(0) && Anchor(s, pid, 0) == None
  {
    var s := FarClocks(pid, first, n, second);
    var clock := s[..1];
    assert s[..n + 1] == clock + Nulls(n);
    NoClockSince(clock, pid, Nulls(n));
    assert clock[..0] == [] && s[..0] == [] && clock[0] == s[0];
  }

  /** With so many packets in between that their clock ticks do not fit, the second clock sent
      is not accurate. */
  lemma WrappedClock(mode: nat, bitrate: real, pid: Pid, first: nat, n: nat, second: nat)
    requires 0.0 < bitrate <= WORD as real && pid != NULL_PID && 0 < first < second
    requires Span(n + 1) >= WORD
    ensures var s := FarClocks(pid, first, n, second);
            && Timed(s[n + 1], pid)
            && Wraps(s, pid, n + 1) > 0
            && !Accurate(bitrate, s, pid, n + 1, Sent(mode, bitrate, s[..n + 2], pid))
  {
    var s := FarClocks(pid, first, n, second);
    FarAnchor(pid, first, n, second);
    assert Restamps(s, pid, 0) == 0 && Wraps(s, pid, 0) == 0;
    assert Restamps(s, pid, n + 1) == 1 && Wraps(s, pid, n + 1) == Span(n + 1) / WORD;
    hide Span, FarClocks, Anchor, Accurate, Sent, Restamps, Wraps;
    DriftIsAccurate(mode, bitrate, s, pid, n + 1);
  }
}
