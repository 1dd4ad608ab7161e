/** The gate in front of an input's buffer: when a fill does not fit, the input is shut until
    the buffer is at most half full. */
module InputBuffer {
  import opened Ts

  /** What happens to the buffer: a burst is added, or the mixer takes packets. */
  datatype Op = Add(burst: seq<Packet>) | Drain(count: nat)

  datatype Gate = Gate(buf: seq<Packet>, disabled: bool)

  /** The comparison of the fill level with 50%, in exact arithmetic. */
  predicate HalfEmpty(size: nat, level: nat)
    requires size > 0
  {
    level as real / size as real * 100.0 <= 50.0
  }

  /** `input_buffer_add`: the gate after it, and whether the burst was kept. */
  function AddTo(size: nat, g: Gate, burst: seq<Packet>): (Gate, bool)
    requires size > 0
  {
    if g.disabled && !HalfEmpty(size, |g.buf|) then (g, false)
    else if |g.buf| + |burst| <= size then (Gate(g.buf + burst, false), true)
    else (Gate(g.buf, true), false)
  }

  function Apply(size: nat, g: Gate, op: Op): Gate
    requires size > 0
  {
    match op
    case Add(burst) => AddTo(size, g, burst).0
    case Drain(count) => g.(buf := g.buf[if count < |g.buf| then count else |g.buf|..])
  }

  /** The gate after some operations, starting open and empty. */
  function After(size: nat, ops: seq<Op>): Gate
    requires size > 0
  {
    if ops == [] then Gate([], false) else Apply(size, After(size, ops[..|ops| - 1]), ops[|ops| - 1])
  }

  /** `INPUT`, as far as its buffer goes. */
  class Buffer {
    const size: nat
    var buf: seq<Packet>
    var disabled: bool
    var dienow: bool

    ghost function View(): Gate
      reads this
    {
      Gate(buf, disabled)
    }

    constructor (size: nat)
      ensures this.size == size && View() == Gate([], false) && !dienow
    {
      this.size := size;
      buf, disabled, dienow := [], false, false;
    }

    /** `input_buffer_add`; an input that is told to die takes nothing any more. */
    method Add(burst: seq<Packet>) returns (kept: bool)
      requires size > 0
      modifies this`buf, this`disabled
      ensures (View(), kept) == if dienow then (old(View()), false) else AddTo(size, old(View()), burst)
    {
      if dienow {
        return false;
      }
      if disabled {
        var full := |buf| as real / size as real * 100.0;
        if full <= 50.0 {
          disabled := false;
        } else {
          return false;
        }
      }
      kept := |buf| + |burst| <= size;
      if kept {
        buf := buf + burst;
      } else {
        disabled := true;
      }
    }
  }

  // ---- When a burst is dropped

  lemma HalfEmptyIs(size: nat, level: nat)
    requires size > 0
    ensures HalfEmpty(size, level) <==> 2 * level <= size
  {
    var q := level as real / size as real;
    assert q * size as real == level as real;
    if q <= 0.5 {
      assert (0.5 - q) * size as real >= 0.0;
    } else {
      assert (q - 0.5) * size as real > 0.0;
    }
  }

  /** Operation `j` is an add that does not fit, and every later add before operation `n` found
      the buffer more than half full. */
  predicate Shuts(size: nat, ops: seq<Op>, j: nat, n: nat)
    requires size > 0 && n <= |ops|
  {
    && j < n && ops[j].Add? && |After(size, ops[..j]).buf| + |ops[j].burst| > size
    && forall k :: j < k < n && ops[k].Add? ==> 2 * |After(size, ops[..k]).buf| > size
  }

  /** The gate is shut before operation `n`. */
  ghost predicate Shut(size: nat, ops: seq<Op>, n: nat)
    requires size > 0 && n <= |ops|
  {
    exists j: nat :: Shuts(size, ops, j, n)
  }

  /** How the gate comes to be shut after operation `n`. */
  lemma ShutNext(size: nat, ops: seq<Op>, n: nat)
    requires size > 0 && n < |ops|
    ensures var level := |After(size, ops[..n]).buf|;
            Shut(size, ops, n + 1) <==>
            || (Shut(size, ops, n) && (ops[n].Add? ==> 2 * level > size))
            || (ops[n].Add? && level + |ops[n].burst| > size)
  {
    hide After;
    var level := |After(size, ops[..n]).buf|;
    if Shut(size, ops, n + 1) {
      var j: nat :| Shuts(size, ops, j, n + 1);
      if j < n {
        assert Shuts(size, ops, j, n);
      }
    }
    if Shut(size, ops, n) && (ops[n].Add? ==> 2 * level > size) {
      var j: nat :| Shuts(size, ops, j, n);
      assert Shuts(size, ops, j, n + 1);
    }
    if ops[n].Add? && level + |ops[n].burst| > size {
      assert Shuts(size, ops, n, n + 1);
    }
  }

  lemma {:induction false} DisabledIs(size: nat, ops: seq<Op>, n: nat)
    requires size > 0 && n <= |ops|
    ensures After(size, ops[..n]).disabled <==> Shut(size, ops, n)
  {
    if n > 0 {
      DisabledIs(size, ops, n - 1);
      ShutNext(size, ops, n - 1);
      assert ops[..n][..n - 1] == ops[..n - 1];
      HalfEmptyIs(size, |After(size, ops[..n - 1]).buf|);
      hide Shut, HalfEmpty;
    }
  }

  /** Hysteresis over every run of adds and drains: a burst is dropped if and only if some burst
      did not fit, this one or an earlier one, and no add since then found the buffer at most
      half full.  A burst is kept or dropped as a whole. */
  lemma DroppedIs(size: nat, ops: seq<Op>, i: nat)
    requires size > 0 && i < |ops| && ops[i].Add?
    ensures var g := After(size, ops[..i]);
            var (h, kept) := AddTo(size, g, ops[i].burst);
            && (!kept <==> Shut(size, ops, i + 1))
            && h == After(size, ops[..i + 1])
            && h.buf == if kept then g.buf + ops[i].burst else g.buf
  {
    DisabledIs(size, ops, i + 1);
    assert ops[..i + 1][..i] == ops[..i];
  }
}
