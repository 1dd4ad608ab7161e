/** Finding packet boundaries in a byte stream, before an input is read packet by packet. */
module MpegSync {
  const SYNC: nat := 0x47
  const PACKET: nat := 188
  const FRAME: nat := 1316

  /** What the loop sees besides the bytes: after `n` bytes, is the thread dying, and are the
      two seconds over?  The bytes stop where a read times out. */
  datatype Source = Source(bytes: seq<nat>, dying: nat -> bool, late: nat -> bool)

  /** `pos` bytes have been consumed. */
  datatype Result = Result(synced: bool, pos: nat)

  /** The loop, about to read a byte at `pos` after `run` whole packets in a row. */
  function SyncFrom(s: Source, pos: nat, run: nat): (r: Result)
    requires pos <= |s.bytes|
    ensures r.pos <= |s.bytes|
    decreases |s.bytes| - pos
  {
    if pos == |s.bytes| then Result(false, pos)
    else if s.bytes[pos] == SYNC then
      if pos + PACKET > |s.bytes| then Result(false, |s.bytes|)
      else if run + 1 == 7 then Result(true, pos + PACKET)
      else SyncFrom(s, pos + PACKET, run + 1)
    else if pos + 1 > FRAME || s.late(pos + 1) || s.dying(pos + 1) then Result(false, pos + 1)
    else SyncFrom(s, pos + 1, 0)
  }

  function Sync(s: Source): Result {
    if s.dying(0) then Result(false, 0) else SyncFrom(s, 0, 0)
  }

  /** `mpeg_sync` */
  method MpegSync(s: Source) returns (r: Result)
    ensures r == Sync(s)
    ensures r.synced <==> FoundFrom(s, 0)
    ensures r.synced ==> First(s, r.pos)
  {
    SyncIs(s);
    var pos, run := 0, 0;
    var resync := false;
    while true
      invariant pos <= |s.bytes| && run < 7
      invariant Sync(s) == if !resync && s.dying(pos) then Result(false, pos) else SyncFrom(s, pos, run)
      decreases |s.bytes| - pos
    {
      if !resync && s.dying(pos) {
        return Result(false, pos);
      }
      resync := false;
      if pos == |s.bytes| {
        return Result(false, pos);
      }
      var byte := s.bytes[pos];
      pos := pos + 1;
      if byte == SYNC {
        if |s.bytes| - pos < PACKET - 1 {
          return Result(false, |s.bytes|);
        }
        pos := pos + (PACKET - 1);
        run := run + 1;
        if run == 7 {
          return Result(true, pos);
        }
        resync := true;
      } else {
        run := 0;
        if pos > FRAME {
          return Result(false, pos);
        }
        if s.late(pos) {
          return Result(false, pos);
        }
      }
    }
  }

  /** `n` packets in a row begin at `start`. */
  predicate InStep(bytes: seq<nat>, start: nat, n: nat) {
    start + PACKET * n <= |bytes| && forall k :: 0 <= k < n ==> bytes[start + PACKET * k] == SYNC
  }

  lemma {:induction false} SyncFromIsSound(s: Source, start: nat, run: nat)
    requires start <= FRAME && run < 7 && InStep(s.bytes, start, run)
    ensures var r := SyncFrom(s, start + PACKET * run, run);
            && r.pos <= FRAME + FRAME
            && (r.synced ==> r.pos >= FRAME && InStep(s.bytes, r.pos - FRAME, 7))
    decreases |s.bytes| - start - PACKET * run
  {
    var pos := start + PACKET * run;
    if pos < |s.bytes| {
      if s.bytes[pos] == SYNC {
        if pos + PACKET <= |s.bytes| {
          assert InStep(s.bytes, start, run + 1);
          if run + 1 < 7 {
            SyncFromIsSound(s, start, run + 1);
          }
        }
      } else if !(pos + 1 > FRAME || s.late(pos + 1) || s.dying(pos + 1)) {
        SyncFromIsSound(s, pos + 1, 0);
      }
    }
  }

  /** Whatever the bytes, at most 2632 of them are consumed, and success means that the last
      1316 are seven packets in a row: reading goes on at a packet boundary. */
  lemma SyncIsSound(s: Source)
    ensures Sync(s).pos <= 2632
    ensures Sync(s).synced ==> Sync(s).pos >= FRAME && InStep(s.bytes, Sync(s).pos - FRAME, 7)
  {
    SyncFromIsSound(s, 0, 0);
  }

  lemma {:induction false} InStepIsFound(s: Source, start: nat, run: nat)
    requires run < 7 && InStep(s.bytes, start, 7)
    ensures SyncFrom(s, start + PACKET * run, run) == Result(true, start + FRAME)
    decreases 7 - run
  {
    assert s.bytes[start + PACKET * run] == SYNC;
    if run < 6 {
      InStepIsFound(s, start, run + 1);
    }
  }

  /** Bytes before the first sync byte are skipped: seven packets in a row that begin with the
      first sync byte, within 1316 bytes and in time, are found. */
  lemma {:induction false} CleanStartIsFound(s: Source, start: nat, pos: nat)
    requires pos <= start <= FRAME && InStep(s.bytes, start, 7)
    requires forall i :: pos <= i < start ==> s.bytes[i] != SYNC
    requires forall i :: pos < i <= start ==> !s.late(i) && !s.dying(i)
    ensures SyncFrom(s, pos, 0) == Result(true, start + FRAME)
    decreases start - pos
  {
    if pos == start {
      InStepIsFound(s, start, 0);
    } else {
      CleanStartIsFound(s, start, pos + 1);
    }
  }

  lemma SyncFinds(s: Source, start: nat)
    requires start <= FRAME && InStep(s.bytes, start, 7)
    requires forall i :: 0 <= i < start ==> s.bytes[i] != SYNC
    requires forall i :: 0 <= i <= start ==> !s.late(i) && !s.dying(i)
    ensures Sync(s) == Result(true, start + FRAME)
  {
    CleanStartIsFound(s, start, 0);
  }

  // ---- Exactly when the search succeeds

  /** Where the `n`-th reading begins: 188 bytes after a sync byte, one after any other. */
  function Reading(bytes: seq<nat>, n: nat): nat {
    if n == 0 then 0
    else
      var before := Reading(bytes, n - 1);
      if before < |bytes| && bytes[before] == 0x47 then before + 188 else before + 1
  }

  predicate InSync(bytes: seq<nat>, n: nat) {
    Reading(bytes, n) < |bytes| && bytes[Reading(bytes, n)] == 0x47
  }

  /** Seven readings in a row find a sync byte, and the last packet is read to its end. */
  predicate Seven(bytes: seq<nat>, n: nat) {
    Reading(bytes, n + 7) <= |bytes| && forall k :: n <= k < n + 7 ==> InSync(bytes, k)
  }

  /** Reading `n` finds another byte, no more than 1316 have been read with it, and there is time. */
  predicate GoesOn(s: Source, n: nat) {
    var read := Reading(s.bytes, n) + 1;
    !InSync(s.bytes, n) ==> read <= 1316 && !s.late(read) && !s.dying(read)
  }

  predicate Reached(s: Source, n: nat) {
    !s.dying(0) && forall k :: 0 <= k < n ==> GoesOn(s, k)
  }

  ghost predicate FoundFrom(s: Source, first: nat) {
    exists n :: n >= first && Seven(s.bytes, n) && Reached(s, n)
  }

  lemma {:induction false} ReadingGrows(bytes: seq<nat>, m: nat, n: nat)
    requires m <= n
    ensures Reading(bytes, m) + (n - m) <= Reading(bytes, n)
  {
    if m < n {
      ReadingGrows(bytes, m, n - 1);
    }
  }

  /** The search at reading `m`, after `run` sync bytes in a row, with no seven in a row before. */
  predicate At(s: Source, m: nat, run: nat) {
    && run < 7 && run <= m && Reading(s.bytes, m) <= |s.bytes| && Reached(s, m)
    && (forall k :: m - run <= k < m ==> InSync(s.bytes, k))
    && (forall n :: 0 <= n < m - run ==> !Seven(s.bytes, n))
  }

  /** No seven in a row begin at one of the last `run` readings when reading `m` breaks the row or
      the bytes end there. */
  lemma BrokenRow(s: Source, m: nat, run: nat)
    requires At(s, m, run)
    requires !InSync(s.bytes, m) || Reading(s.bytes, m + 1) > |s.bytes|
    ensures forall n :: m - run <= n <= m ==> !Seven(s.bytes, n)
  {
    forall n | m - run <= n <= m ensures !Seven(s.bytes, n) {
      if Seven(s.bytes, n) {
        assert InSync(s.bytes, m);
        ReadingGrows(s.bytes, m + 1, n + 7);
      }
    }
  }

  /** Nothing is found when the bytes end at reading `m`. */
  lemma BytesEnd(s: Source, m: nat, run: nat)
    requires At(s, m, run) && Reading(s.bytes, m + 1) > |s.bytes|
    ensures !FoundFrom(s, m - run)
  {
    BrokenRow(s, m, run);
    forall n | n > m ensures !Seven(s.bytes, n) {
      ReadingGrows(s.bytes, m + 1, n + 7);
    }
  }

  lemma {:induction false} SyncFromIs(s: Source, m: nat, run: nat)
    requires At(s, m, run)
    ensures var r := SyncFrom(s, Reading(s.bytes, m), run);
            && (r.synced <==> FoundFrom(s, m - run))
            && (r.synced ==> First(s, r.pos))
    decreases |s.bytes| - Reading(s.bytes, m)
  {
    var pos := Reading(s.bytes, m);
    if pos == |s.bytes| {
      BytesEnd(s, m, run);
    } else if s.bytes[pos] == SYNC {
      if pos + PACKET > |s.bytes| {
        BytesEnd(s, m, run);
      } else if run + 1 == 7 {
        assert Seven(s.bytes, m - 6);
        assert Begins(s, m - 6, pos + PACKET);
      } else {
        assert InSync(s.bytes, m) && GoesOn(s, m);
        SyncFromIs(s, m + 1, run + 1);
      }
    } else {
      assert !InSync(s.bytes, m);
      BrokenRow(s, m, run);
      if pos + 1 > FRAME || s.late(pos + 1) || s.dying(pos + 1) {
        assert !GoesOn(s, m);
      } else {
        assert GoesOn(s, m);
        SyncFromIs(s, m + 1, 0);
        assert FoundFrom(s, m - run) ==> FoundFrom(s, m + 1);
      }
    }
  }

  /** Seven in a row are first found at reading `n`, and end before byte `pos`. */
  predicate Begins(s: Source, n: nat, pos: nat) {
    && Seven(s.bytes, n) && Reached(s, n) && pos == Reading(s.bytes, n + 7)
    && forall k :: 0 <= k < n ==> !Seven(s.bytes, k)
  }

  ghost predicate First(s: Source, pos: nat) {
    exists n :: Begins(s, n, pos)
  }

  /** The search succeeds if and only if seven readings in a row find a sync byte, and every
      reading before them that finds another byte leaves it within 1316 bytes and in time.  It
      then stops after the first such seven. */
  lemma SyncIs(s: Source)
    ensures Sync(s).synced <==> FoundFrom(s, 0)
    ensures Sync(s).synced ==> First(s, Sync(s).pos)
  {
    if !s.dying(0) {
      SyncFromIs(s, 0, 0);
    }
  }
}
