/** Renaming the PIDs of one program: the PAT and PMT are rewritten once, PID by PID, and the
    table then renames every packet. */
module Rewrite {
  import opened Ts
  import opened PidRef

  datatype Program = Program(number: nat, pid: nat)

  datatype Stream = Stream(kind: nat, pid: nat)

  /** A PAT or PMT section, once complete. */
  datatype Pat = Pat(programs: seq<Program>)

  datatype Pmt = Pmt(pid: nat, programNumber: nat, pcrPid: nat, streams: seq<Stream>)

  /** The table and the next PID to hand out. */
  datatype Pids = Pids(entries: seq<Entry>, base: nat)

  /** Channel `index` hands out PIDs from `32 * index` on. */
  const BLOCK: nat := 32

  /** The next PID is handed out to `org`, whether or not the table takes it. */
  function HandOut(t: Pids, org: nat): Pids {
    Pids(Added(t.entries, org, t.base), (t.base + 1) % WORD16)
  }

  // ---- input_rewrite_pat and input_rewrite_pmt

  function RewritePrograms(t: Pids, service: nat, ps: seq<Program>): (r: (Pids, seq<Program>))
    ensures |r.1| == |ps|
  {
    if ps == [] then (t, [])
    else
      var last := |ps| - 1;
      var (u, done) := RewritePrograms(t, service, ps[..last]);
      if ps[last].number == 0 then (u, done + [ps[last]])
      else (HandOut(u, ps[last].pid), done + [Program(service, u.base)])
  }

  function RewritePat(t: Pids, service: nat, pat: Pat): (Pids, Pat) {
    var (u, ps) := RewritePrograms(t, service, pat.programs);
    (u, Pat(ps))
  }

  function RewriteStreams(t: Pids, pcr: nat, newPcr: nat, ss: seq<Stream>): (r: (Pids, seq<Stream>))
    ensures |r.1| == |ss|
  {
    if ss == [] then (t, [])
    else
      var last := |ss| - 1;
      var (u, done) := RewriteStreams(t, pcr, newPcr, ss[..last]);
      if ss[last].pid == pcr then (u, done + [ss[last].(pid := newPcr)])
      else (HandOut(u, ss[last].pid), done + [ss[last].(pid := u.base)])
  }

  function RewritePmt(t: Pids, service: nat, pmtPid: nat, pmt: Pmt): (Pids, Pmt) {
    var (u, ss) := RewriteStreams(HandOut(t, pmt.pcrPid), pmt.pcrPid, t.base, pmt.streams);
    (u, Pmt(Lookup(t.entries, pmtPid), service, t.base, ss))
  }

  /** `input_process_pat`: the PMT PID of the first program that has one. */
  function PmtPid(ps: seq<Program>): nat {
    if ps == [] then 0
    else if ps[0].pid != 0 && ps[0].number != 0 then ps[0].pid
    else PmtPid(ps[1..])
  }

  // ---- The PIDs handed out, in order

  function ProgramPids(ps: seq<Program>): seq<nat> {
    if ps == [] then []
    else
      var last := |ps| - 1;
      ProgramPids(ps[..last]) + if ps[last].number == 0 then [] else [ps[last].pid]
  }

  function StreamPids(pcr: nat, ss: seq<Stream>): seq<nat> {
    if ss == [] then []
    else
      var last := |ss| - 1;
      StreamPids(pcr, ss[..last]) + if ss[last].pid == pcr then [] else [ss[last].pid]
  }

  function HandOutAll(t: Pids, orgs: seq<nat>): Pids {
    if orgs == [] then t else HandOut(HandOutAll(t, orgs[..|orgs| - 1]), orgs[|orgs| - 1])
  }

  lemma {:induction false} HandOutConcat(t: Pids, a: seq<nat>, b: seq<nat>)
    ensures HandOutAll(t, a + b) == HandOutAll(HandOutAll(t, a), b)
  {
    if b == [] {
      assert a + b == a;
    } else {
      HandOutConcat(t, a, b[..|b| - 1]);
      assert (a + b)[..|a + b| - 1] == a + b[..|b| - 1];
    }
  }

  lemma {:induction false} BaseAfter(t: Pids, orgs: seq<nat>)
    requires t.base + |orgs| < WORD16
    ensures HandOutAll(t, orgs).base == t.base + |orgs|
    ensures |HandOutAll(t, orgs).entries| == |t.entries|
  {
    if orgs != [] {
      BaseAfter(t, orgs[..|orgs| - 1]);
    }
  }

  /** Rewriting the programs hands out PIDs to the numbered ones, in order. */
  lemma {:induction false} ProgramsHandOut(t: Pids, service: nat, ps: seq<Program>)
    ensures RewritePrograms(t, service, ps).0 == HandOutAll(t, ProgramPids(ps))
  {
    if ps != [] {
      var last := |ps| - 1;
      ProgramsHandOut(t, service, ps[..last]);
      if ps[last].number != 0 {
        HandOutConcat(t, ProgramPids(ps[..last]), [ps[last].pid]);
        HandOutOne(HandOutAll(t, ProgramPids(ps[..last])), ps[last].pid);
      } else {
        assert ProgramPids(ps[..last]) + [] == ProgramPids(ps[..last]);
      }
    }
  }

  lemma HandOutOne(t: Pids, org: nat)
    ensures HandOutAll(t, [org]) == HandOut(t, org)
  {
    assert [org][..0] == [];
    assert HandOutAll(t, [org]) == HandOut(HandOutAll(t, []), org);
  }

  lemma {:induction false} StreamsHandOut(t: Pids, pcr: nat, newPcr: nat, ss: seq<Stream>)
    ensures RewriteStreams(t, pcr, newPcr, ss).0 == HandOutAll(t, StreamPids(pcr, ss))
  {
    if ss != [] {
      var last := |ss| - 1;
      StreamsHandOut(t, pcr, newPcr, ss[..last]);
      if ss[last].pid != pcr {
        HandOutConcat(t, StreamPids(pcr, ss[..last]), [ss[last].pid]);
        HandOutOne(HandOutAll(t, StreamPids(pcr, ss[..last])), ss[last].pid);
      } else {
        assert StreamPids(pcr, ss[..last]) + [] == StreamPids(pcr, ss[..last]);
      }
    }
  }

  /** All the PIDs handed out for one program, the PAT's first. */
  function HandedOut(pat: Pat, pmt: Pmt): seq<nat> {
    ProgramPids(pat.programs) + [pmt.pcrPid] + StreamPids(pmt.pcrPid, pmt.streams)
  }

  // ---- What the table answers after handing out

  /** The number of entries that handing out to `orgs` takes. */
  function Takers(orgs: seq<nat>): nat {
    if orgs == [] then 0 else Takers(orgs[..|orgs| - 1]) + if orgs[|orgs| - 1] == 0 then 0 else 1
  }

  /** The `a`-th PID handed out goes to a PID that is not 0, is new, and still fits the table. */
  predicate Good(orgs: seq<nat>, room: nat, a: nat)
    requires a < |orgs|
  {
    orgs[a] != 0 && orgs[a] !in orgs[..a] && Takers(orgs[..a]) < room
  }

  /** The place in `orgs` whose PID the table gives for `x`, if any. */
  function Answer(orgs: seq<nat>, room: nat, x: nat): (r: Option<nat>)
    ensures r.Some? ==> r.value < |orgs|
  {
    if orgs == [] then None
    else
      var last := |orgs| - 1;
      var before := Answer(orgs[..last], room, x);
      if before.Some? then before
      else if orgs[last] == x && Takers(orgs[..last]) < room then Some(last)
      else None
  }

  /** `t` entries are taken, and the free ones come after them. */
  predicate Compact(entries: seq<Entry>, t: nat) {
    && t <= |entries|
    && (forall i :: 0 <= i < t ==> entries[i].org != 0)
    && (forall i :: t <= i < |entries| ==> entries[i] == FREE_ENTRY)
  }

  lemma AddedCompact(entries: seq<Entry>, t: nat, org: nat, renamed: nat, x: nat)
    requires Compact(entries, t) && x != 0
    ensures var added := Added(entries, org, renamed);
            if org == 0 || t == |entries| then added == entries
            else
              && Compact(added, t + 1)
              && IndexOf(added, x) == (if IndexOf(entries, x) == |entries| && org == x then t else IndexOf(entries, x))
              && added == entries[t := Entry(org, renamed)]
  {
    IndexOfIs(entries, 0, t);
    if org != 0 && t < |entries| {
      var added := Added(entries, org, renamed);
      var i := if IndexOf(entries, x) == |entries| && org == x then t else IndexOf(entries, x);
      IndexOfIs(added, x, i);
    }
  }

  predicate Fresh(t: Pids, room: nat) {
    |t.entries| == room && Compact(t.entries, 0) && t.base > 0
  }

  /** The table's answer after handing out: the PID of the place that `Answer` names. */
  lemma {:induction false} LookupIs(t: Pids, orgs: seq<nat>, room: nat, x: nat)
    requires Fresh(t, room) && t.base + |orgs| < WORD16 && x != 0
    ensures var entries, a := HandOutAll(t, orgs).entries, Answer(orgs, room, x);
            && |entries| == room
            && Compact(entries, if Takers(orgs) < room then Takers(orgs) else room)
            && (if a.Some? then IndexOf(entries, x) < room && Lookup(entries, x) == t.base + a.value
                else IndexOf(entries, x) == room && Lookup(entries, x) == 0)
  {
    if orgs == [] {
      IndexOfIs(t.entries, x, room);
    } else {
      var last := |orgs| - 1;
      LookupIs(t, orgs[..last], room, x);
      BaseAfter(t, orgs[..last]);
      var u, n := HandOutAll(t, orgs[..last]), Takers(orgs[..last]);
      AddedCompact(u.entries, if n < room then n else room, orgs[last], u.base, x);
    }
  }

  lemma {:induction false} TakersGrow(orgs: seq<nat>, a: nat)
    requires a <= |orgs|
    ensures Takers(orgs[..a]) <= Takers(orgs)
    decreases |orgs|
  {
    if a < |orgs| {
      TakersGrow(orgs[..|orgs| - 1], a);
      assert orgs[..|orgs| - 1][..a] == orgs[..a];
    } else {
      assert orgs[..a] == orgs;
    }
  }

  lemma GoodPrefix(orgs: seq<nat>, room: nat, a: nat, n: nat)
    requires a < n <= |orgs|
    ensures Good(orgs[..n], room, a) == Good(orgs, room, a)
  {
    assert orgs[..n][..a] == orgs[..a];
  }

  /** The table gives the PID handed out at place `a` exactly when that place is good. */
  lemma {:induction false} AnswerIsGood(orgs: seq<nat>, room: nat, a: nat)
    requires a < |orgs| && orgs[a] != 0
    ensures Answer(orgs, room, orgs[a]) == Some(a) <==> Good(orgs, room, a)
    ensures Answer(orgs, room, orgs[a]).Some? ==> orgs[Answer(orgs, room, orgs[a]).value] == orgs[a]
    decreases |orgs|
  {
    var last := |orgs| - 1;
    var init := orgs[..last];
    if a < last {
      AnswerIsGood(init, room, a);
      GoodPrefix(orgs, room, a, last);
      if Answer(init, room, orgs[a]) == None {
        AnswerNone(init, room, orgs[a], a);
        TakersGrow(init, a);
      }
    } else {
      AnswerOf(init, room, orgs[a]);
      if Answer(init, room, orgs[a]) == None && orgs[a] in init {
        var b :| 0 <= b < last && init[b] == orgs[a];
        AnswerNone(init, room, orgs[a], b);
        TakersGrow(init, b);
      }
    }
  }

  lemma {:induction false} AnswerOf(orgs: seq<nat>, room: nat, x: nat)
    ensures Answer(orgs, room, x).Some? ==> orgs[Answer(orgs, room, x).value] == x
  {
    if orgs != [] {
      AnswerOf(orgs[..|orgs| - 1], room, x);
    }
  }

  /** A PID that was handed out to and is not in the table found it full. */
  lemma {:induction false} AnswerNone(orgs: seq<nat>, room: nat, x: nat, a: nat)
    requires a < |orgs| && orgs[a] == x && Answer(orgs, room, x) == None
    ensures Takers(orgs[..a]) >= room
    decreases |orgs|
  {
    var last := |orgs| - 1;
    if a < last {
      AnswerNone(orgs[..last], room, x, a);
      assert orgs[..last][..a] == orgs[..a];
    }
  }
}
