/** How the mixer spreads the data packets of one output buffer among its null packets.

    A buffer has `p + z` slots: `p` are budgeted for data and `z` stay null.  The
    loop counter `k` counts iterations, with or without data; `nulls` counts the null slots
    skipped so far.  Data packet `k` goes to slot `k + nulls`. */
module Spread {
  import opened Rounding

  datatype Ratios = Ratios(nullPerData: real, dataPerNull: real)

  /** The two-regime ratios: sparse when there are more null slots than data, else dense. */
  function RatiosFor(p: nat, z: nat): Ratios
    requires 1 <= p
  {
    if z == 0 then Ratios(1.0, 0.0)
    else
      var dataPerNull := p as real / z as real;
      if dataPerNull < 1.0 then Ratios(z as real / p as real, 1.0) else Ratios(1.0, dataPerNull)
  }

  /** The data packets that `nulls` skipped slots make up for, and the ones now due. */
  function Behind(r: Ratios, nulls: nat): int {
    Round(nulls as real * r.dataPerNull)
  }

  function Due(r: Ratios, k: nat): int {
    Round(k as real * r.nullPerData)
  }

  /** The new value of `nulls` before it is clamped to the number of null slots. */
  function Wanted(p: nat, z: nat, k: nat, nulls: nat): nat
    requires 1 <= p
  {
    var r := RatiosFor(p, z);
    var behind, due := Behind(r, nulls), Due(r, k);
    if behind < due then nulls + (due - behind) else nulls
  }

  function SpreadNulls(p: nat, z: nat, k: nat, nulls: nat): nat
    requires 1 <= p
  {
    if nulls < z then
      var wanted := Wanted(p, z, k, nulls);
      if wanted > z then z else wanted
    else nulls
  }

  /** `nulls` after the iterations `ks` (those that carried data) of one buffer. */
  function NullsAfter(p: nat, z: nat, ks: seq<nat>): nat
    requires 1 <= p
  {
    if ks == [] then 0
    else SpreadNulls(p, z, ks[|ks| - 1], NullsAfter(p, z, ks[..|ks| - 1]))
  }

  /** The slot written by the last of the iterations `ks`. */
  function SlotOf(p: nat, z: nat, ks: seq<nat>): nat
    requires 1 <= p && ks != []
  {
    ks[|ks| - 1] + NullsAfter(p, z, ks)
  }

  /** Some iterations of a buffer with budget `p`, in the order the loop makes them. */
  predicate Pattern(ks: seq<nat>, p: nat) {
    && (forall i :: 0 <= i < |ks| ==> ks[i] < p)
    && (forall i, j :: 0 <= i < j < |ks| ==> ks[i] < ks[j])
  }

  /** Every iteration below `n`. */
  function Upto(n: nat): (ks: seq<nat>)
    ensures |ks| == n && forall i :: 0 <= i < n ==> ks[i] == i
  {
    seq(n, i => i)
  }

  // ---- Safety: no packet is written over another or past the end

  lemma {:induction false} NullsGrow(p: nat, z: nat, ks: seq<nat>, i: nat)
    requires 1 <= p && i <= |ks|
    ensures NullsAfter(p, z, ks[..i]) <= NullsAfter(p, z, ks) <= z
    decreases |ks|
  {
    if i < |ks| {
      NullsGrow(p, z, ks[..|ks| - 1], i);
      assert ks[..|ks| - 1][..i] == ks[..i];
    } else {
      assert ks[..i] == ks;
      if i > 0 {
        NullsGrow(p, z, ks[..i - 1], 0);
      }
    }
  }

  /** Whatever iterations come up empty, slots are written left to right, each once, all
      inside the buffer; the "can't happen" branch can't. */
  lemma SlotsAreSafe(p: nat, z: nat, ks: seq<nat>, i: nat, j: nat)
    requires 1 <= p && Pattern(ks, p)
    requires i < j < |ks|
    ensures SlotOf(p, z, ks[..i + 1]) < SlotOf(p, z, ks[..j + 1]) < p + z
  {
    NullsGrow(p, z, ks[..j + 1], i + 1);
    assert ks[..j + 1][..i + 1] == ks[..i + 1];
  }

  // ---- Evenness

  /** `Round(x)` in integers, when `x` is the fraction `a / p`. */
  lemma RoundFraction(x: real, a: nat, p: nat)
    requires p > 0 && x >= 0.0 && x * p as real == a as real
    ensures var q := Round(x);
            q >= 0 && 2 * (q * p) <= 2 * a + p < 2 * (q * p) + 2 * p
  {
    var q, s := Round(x), p as real;
    assert (x + 0.5) * s == a as real + 0.5 * s;
    assert q as real * s == (q * p) as real;
    assert (q + 1) as real * s == (q * p + p) as real;
    Scale(q as real, x + 0.5, (q + 1) as real, s, (q * p) as real, a as real + 0.5 * s, (q * p + p) as real);
    Halves(q * p, a, p);
  }

  lemma Halves(qp: int, a: nat, p: nat)
    requires qp as real <= a as real + 0.5 * p as real < (qp + p) as real
    ensures 2 * qp <= 2 * a + p < 2 * qp + 2 * p
  {
  }

  lemma Scale(a: real, b: real, c: real, s: real, aTimes: real, bTimes: real, cTimes: real)
    requires a <= b < c && s > 0.0
    requires aTimes == a * s && bTimes == b * s && cTimes == c * s
    ensures aTimes <= bTimes < cTimes
  {
    assert (c - b) * s > 0.0;
    assert (b - a) * s >= 0.0;
  }

  lemma FractionProduct(k: nat, n: nat, p: nat)
    requires p > 0
    ensures var x := k as real * (n as real / p as real); x >= 0.0 && x * p as real == (k * n) as real
  {
    var ratio := n as real / p as real;
    assert ratio >= 0.0 && ratio * p as real == n as real;
    RegroupProduct(k as real, ratio, p as real);
  }

  lemma RegroupProduct(a: real, b: real, c: real)
    requires a >= 0.0 && b >= 0.0
    ensures (a * b) * c == a * (b * c) && a * b >= 0.0
  {
  }

  lemma RoundQuotient(k: nat, n: nat, p: nat)
    requires p > 0
    ensures var q := Round(k as real * (n as real / p as real));
            q >= 0 && 2 * (q * p) <= 2 * (k * n) + p < 2 * (q * p) + 2 * p
  {
    FractionProduct(k, n, p);
    RoundFraction(k as real * (n as real / p as real), k * n, p);
  }

  /** The nulls due before packet `k` when nulls outnumber data. */
  function SparseDue(p: nat, z: nat, k: nat): int
    requires 1 <= p
  {
    Round(k as real * (z as real / p as real))
  }

  /** The data packets due before null `n` when data is at least as common as nulls. */
  function DenseDue(p: nat, z: nat, n: nat): int
    requires 1 <= p && 1 <= z
  {
    Round(n as real * (p as real / z as real))
  }

  lemma NonNegativeProduct(a: real, b: real)
    requires a >= 0.0 && b > 0.0
    ensures a * b >= 0.0
  {
  }

  lemma PositiveProduct(a: real, b: real)
    requires a > 0.0 && b > 0.0
    ensures a * b > 0.0
  {
  }

  lemma QuotientBelowOne(q: real, a: real, b: real)
    requires b > 0.0 && q * b == a
    ensures q < 1.0 <==> a < b
  {
    if q < 1.0 {
      PositiveProduct(1.0 - q, b);
      assert (1.0 - q) * b == b - a;
    } else {
      NonNegativeProduct(q - 1.0, b);
      assert (q - 1.0) * b == a - b;
    }
  }

  lemma QuotientTimes(a: real, b: real)
    requires b > 0.0
    ensures (a / b) * b == a
  {
  }

  lemma RatioBelowOne(a: nat, b: nat)
    requires b > 0
    ensures a as real / b as real < 1.0 <==> a < b
  {
    QuotientTimes(a as real, b as real);
    QuotientBelowOne(a as real / b as real, a as real, b as real);
  }

  lemma SparseDueIs(p: nat, z: nat, k: nat)
    requires 1 <= p
    ensures var q := SparseDue(p, z, k);
            q >= 0 && 2 * (q * p) <= 2 * (k * z) + p < 2 * (q * p) + 2 * p
  {
    RoundQuotient(k, z, p);
  }

  lemma DenseDueIs(p: nat, z: nat, n: nat)
    requires 1 <= p && 1 <= z
    ensures var q := DenseDue(p, z, n);
            q >= 0 && 2 * (q * z) <= 2 * (n * p) + z < 2 * (q * z) + 2 * z
  {
    RoundQuotient(n, p, z);
  }

  lemma SparseDueBounds(p: nat, z: nat, j: nat, k: nat)
    requires 1 <= p < z && j <= k < p
    ensures 0 <= SparseDue(p, z, j) <= SparseDue(p, z, k) <= z
  {
    hide SparseDue;
    SparseDueIs(p, z, j);
    SparseDueIs(p, z, k);
    QuotientMonotone(SparseDue(p, z, j), SparseDue(p, z, k), j * z, k * z, p);
    QuotientBelow(SparseDue(p, z, k), k, z, p);
  }

  lemma TimesMonotone(a: int, b: int, c: nat)
    requires a <= b
    ensures a * c <= b * c
  {
  }

  lemma Distribute(a: int, b: int, c: int)
    ensures (a + b) * c == a * c + b * c
    ensures c * (a + b) == c * a + c * b
  {
  }

  lemma QuotientMonotone(q: int, r: int, a: int, b: int, p: nat)
    requires a <= b && p > 0
    requires 2 * (q * p) <= 2 * a + p && 2 * b + p < 2 * (r * p) + 2 * p
    ensures q <= r
  {
    if r + 1 <= q {
      TimesMonotone(r + 1, q, p);
    }
  }

  lemma QuotientBelow(q: int, k: nat, n: nat, p: nat)
    requires k < p < n && 2 * (q * p) <= 2 * (k * n) + p
    ensures q <= n
  {
    if n + 1 <= q {
      TimesMonotone(n + 1, q, p);
      TimesMonotone(k, p - 1, n);
    }
  }

  lemma SparseStep(p: nat, z: nat, k: nat, nulls: nat)
    requires 1 <= p < z && k < p
    requires nulls <= SparseDue(p, z, k)
    ensures Wanted(p, z, k, nulls) == SparseDue(p, z, k)
    ensures SpreadNulls(p, z, k, nulls) == SparseDue(p, z, k) <= z
  {
    RatioBelowOne(p, z);
    SparseDueBounds(p, z, k, k);
    RoundIs(nulls as real * 1.0, nulls);
  }

  /** Sparse regime, closed form: whatever iterations came up empty, exactly
      `round(k * z / p)` nulls precede packet `k`. */
  lemma {:induction false} SparseClosedForm(p: nat, z: nat, ks: seq<nat>)
    requires 1 <= p < z && Pattern(ks, p) && ks != []
    ensures NullsAfter(p, z, ks) == SparseDue(p, z, ks[|ks| - 1])
  {
    var last := |ks| - 1;
    SparseDueBounds(p, z, ks[last], ks[last]);
    if last > 0 {
      SparseClosedForm(p, z, ks[..last]);
      SparseDueBounds(p, z, ks[last - 1], ks[last]);
    }
    SparseStep(p, z, ks[last], NullsAfter(p, z, ks[..last]));
  }

  /** The least number of nulls before which at least `k` data packets are due. */
  predicate LeastDue(p: nat, z: nat, k: nat, n: nat)
    requires 1 <= p && 1 <= z
  {
    DenseDue(p, z, n) >= k && forall i :: 0 <= i < n ==> DenseDue(p, z, i) < k
  }

  lemma DenseDueGrows(p: nat, z: nat, i: nat, n: nat)
    requires 1 <= z <= p && i < n
    ensures DenseDue(p, z, i) < DenseDue(p, z, n)
  {
    var ratio := p as real / z as real;
    RatioBelowOne(p, z);
    assert ratio >= 1.0;
    assert (n - i - 1) as real * ratio >= 0.0;
    assert i as real * ratio >= 0.0;
    assert n as real * ratio == i as real * ratio + ratio + (n - i - 1) as real * ratio;
    RoundShift(i as real * ratio, 1);
    RoundMonotone(i as real * ratio + 1.0, n as real * ratio);
  }

  /** All the nulls make every data packet of the buffer due, so the least never passes them. */
  lemma DenseDueAll(p: nat, z: nat)
    requires 1 <= z <= p
    ensures DenseDue(p, z, z) == p
  {
    FractionProduct(z, p, z);
    var n, x := z as real, z as real * (p as real / z as real);
    assert (x - p as real) * n == 0.0;
    RoundIs(x, p);
  }

  lemma {:induction false} DenseLeast(p: nat, z: nat, k: nat)
    requires 1 <= z <= p && k < p
    ensures LeastDue(p, z, k, NullsAfter(p, z, Upto(k + 1)))
    ensures Wanted(p, z, k, NullsAfter(p, z, Upto(k))) <= z
  {
    var before := NullsAfter(p, z, Upto(k));
    assert Upto(k + 1)[..k] == Upto(k);
    NullsGrow(p, z, Upto(k), 0);
    if k == 0 {
      DenseDueZero(p, z);
    } else {
      DenseLeast(p, z, k - 1);
    }
    DenseStep(p, z, k, before);
  }

  lemma DenseDueZero(p: nat, z: nat)
    requires 1 <= z <= p
    ensures DenseDue(p, z, 0) == 0
  {
  }

  lemma DenseStep(p: nat, z: nat, k: nat, before: nat)
    requires 1 <= z <= p && k < p && before <= z
    requires if k == 0 then before == 0 else LeastDue(p, z, k - 1, before)
    ensures Wanted(p, z, k, before) <= z
    ensures LeastDue(p, z, k, SpreadNulls(p, z, k, before))
  {
    DenseWanted(p, z, k, before);
    DenseDueAll(p, z);
    var due := DenseDue(p, z, before);
    if k == 0 {
      DenseDueZero(p, z);
    } else if due < k {
      DenseDueGrows(p, z, before, before + 1);
      if before >= z {
        assert false;
      }
    }
  }

  lemma DenseWanted(p: nat, z: nat, k: nat, nulls: nat)
    requires 1 <= z <= p
    ensures var due := DenseDue(p, z, nulls);
            Wanted(p, z, k, nulls) == if due < k then nulls + (k - due) else nulls
  {
    RatioBelowOne(p, z);
    RoundIs(k as real * 1.0, k);
  }

  /** The nulls inserted before packet `k` when every iteration so far carried data. */
  function NullsBefore(p: nat, z: nat, k: nat): nat
    requires 1 <= p
  {
    NullsAfter(p, z, Upto(k + 1))
  }

  function Distance(a: int, b: int): nat {
    if a < b then b - a else a - b
  }

  /** Spreading is even: when every iteration carried data, the nulls before packet `k` are
      less than one away from the exact share `k * z / p`, in both regimes. */
  lemma SpreadIsEven(p: nat, z: nat, k: nat)
    requires k < p
    ensures Distance(NullsBefore(p, z, k) * p, k * z) < p
  {
    var nulls := NullsBefore(p, z, k);
    hide NullsAfter, DenseDue, SparseDue, Pattern;
    if z == 0 {
      NullsGrow(p, z, Upto(k + 1), 0);
    } else if p < z {
      SparseClosedForm(p, z, Upto(k + 1));
      SparseNear(p, z, k);
    } else {
      DenseLeast(p, z, k);
      DenseNotBehind(p, z, k, nulls);
      DenseNotAhead(p, z, k, nulls);
    }
  }

  lemma SparseNear(p: nat, z: nat, k: nat)
    requires 1 <= p
    ensures Distance(SparseDue(p, z, k) * p, k * z) < p
  {
    hide SparseDue;
    SparseDueIs(p, z, k);
  }

  lemma DenseNotBehind(p: nat, z: nat, k: nat, n: nat)
    requires 1 <= z <= p && DenseDue(p, z, n) >= k
    ensures k * z < n * p + p
  {
    hide DenseDue;
    DenseDueIs(p, z, n);
    TimesMonotone(k, DenseDue(p, z, n), z);
  }

  lemma DenseNotAhead(p: nat, z: nat, k: nat, n: nat)
    requires 1 <= z <= p && LeastDue(p, z, k, n)
    ensures n * p < k * z + p
  {
    hide DenseDue;
    if n == 0 {
      TimesMonotone(0, k, z);
    } else {
      var i, due := n - 1, DenseDue(p, z, n - 1);
      assert due < k;
      hide LeastDue;
      DenseDueIs(p, z, i);
      TimesMonotone(due + 1, k, z);
      Distribute(due, 1, z);
      Distribute(i, 1, p);
    }
  }

  /** Neither regime ever needs the clamp when every iteration carried data. */
  lemma ClampIsIdle(p: nat, z: nat, k: nat)
    requires k < p && 1 <= z
    ensures Wanted(p, z, k, NullsAfter(p, z, Upto(k))) <= z
  {
    if p < z {
      NullsGrow(p, z, Upto(k), 0);
      if k > 0 {
        SparseClosedForm(p, z, Upto(k));
        SparseDueBounds(p, z, k - 1, k);
      } else {
        SparseDueBounds(p, z, 0, 0);
      }
      SparseStep(p, z, k, NullsAfter(p, z, Upto(k)));
    } else {
      DenseLeast(p, z, k);
    }
  }

  // ---- Evenness when iterations come up empty

  /** `n` nulls before packet `k` are less than one away from its exact share. */
  predicate EvenAt(p: nat, z: nat, k: nat, n: nat) {
    Distance(n * p, k * z) < p
  }

  /** Every data packet of the pattern has its share of nulls before it. */
  predicate EachEven(p: nat, z: nat, ks: seq<nat>)
    requires 1 <= p
  {
    forall i :: 0 <= i < |ks| ==> EvenAtPlace(p, z, ks, i)
  }

  predicate EvenAtPlace(p: nat, z: nat, ks: seq<nat>, i: nat)
    requires 1 <= p && i < |ks|
  {
    EvenAt(p, z, ks[i], NullsAfter(p, z, ks[..i + 1]))
  }

  /** In the dense regime, the jump made at iteration `k` with `n` nulls behind is small enough:
      each null jumped over stands for `p - z` data packets too few. */
  predicate JumpFits(p: nat, z: nat, k: nat, n: nat)
    requires 1 <= z <= p
  {
    var due := DenseDue(p, z, n);
    due >= k ||
    if n + (k - due) <= z then (k - due) * (p - z) < p + (due * z - n * p) else z * (p - k) < p
  }

  predicate EachFits(p: nat, z: nat, ks: seq<nat>)
    requires 1 <= z <= p
  {
    forall i :: 0 <= i < |ks| ==> FitsAtPlace(p, z, ks, i)
  }

  predicate FitsAtPlace(p: nat, z: nat, ks: seq<nat>, i: nat)
    requires 1 <= z <= p && i < |ks|
  {
    JumpFits(p, z, ks[i], NullsAfter(p, z, ks[..i]))
  }

  lemma {:induction false} DenseDueJumps(p: nat, z: nat, n: nat, d: nat)
    requires 1 <= z <= p
    ensures DenseDue(p, z, n + d) >= DenseDue(p, z, n) + d
  {
    hide DenseDue;
    if d > 0 {
      DenseDueJumps(p, z, n, d - 1);
      DenseDueGrows(p, z, n + d - 1, n + d);
    }
  }

  /** In the dense regime the nulls are less than one short of a packet's share, whatever
      iterations came up empty. */
  lemma DenseNeverBehind(p: nat, z: nat, k: nat, n: nat)
    requires 1 <= z <= p && k < p && n <= z
    ensures k * z < SpreadNulls(p, z, k, n) * p + p
  {
    hide DenseDue;
    DenseDueAll(p, z);
    DenseWanted(p, z, k, n);
    hide Wanted;
    var due := DenseDue(p, z, n);
    if due < k {
      DenseDueJumps(p, z, n, k - due);
    }
    DenseNotBehind(p, z, k, SpreadNulls(p, z, k, n));
  }

  /** How far ahead a jump of `d` nulls from `n` gets. */
  lemma JumpAhead(p: int, z: int, n: int, due: int, d: int)
    ensures (n + d) * p - (due + d) * z == d * (p - z) - (due * z - n * p)
  {
    Distribute(n, d, p);
    Distribute(due, d, z);
    Distribute(p, -z, d);
  }

  lemma EvenIsNotAhead(p: nat, z: nat, k: nat, n: nat)
    requires k * z < n * p + p
    ensures EvenAt(p, z, k, n) <==> n * p - k * z < p
  {
  }

  /** A packet that needs no jump is at least as far behind as the one before it. */
  lemma NoJumpEven(p: nat, z: nat, k: nat, n: nat, a: nat)
    requires n == 0 || (a <= k && EvenAt(p, z, a, n))
    requires k * z < n * p + p
    ensures EvenAt(p, z, k, n)
  {
    TimesMonotone(0, k, z);
    if n > 0 {
      TimesMonotone(a, k, z);
    }
  }

  /** One packet, after a packet `a` that had its share or as the first one. */
  lemma DenseStepEven(p: nat, z: nat, k: nat, n: nat, a: nat)
    requires 1 <= z <= p && k < p && n <= z
    requires n == 0 || (a < k && EvenAt(p, z, a, n))
    ensures EvenAt(p, z, k, SpreadNulls(p, z, k, n)) <==> JumpFits(p, z, k, n)
  {
    hide DenseDue, EvenAt;
    var after := SpreadNulls(p, z, k, n);
    DenseNeverBehind(p, z, k, n);
    DenseWanted(p, z, k, n);
    DenseDueAll(p, z);
    hide Wanted;
    EvenIsNotAhead(p, z, k, after);
    var due := DenseDue(p, z, n);
    if due >= k {
      NoJumpEven(p, z, k, n, a);
    } else if n + (k - due) <= z {
      JumpAhead(p, z, n, due, k - due);
    } else {
      ClampedAhead(p, z, k);
    }
  }

  lemma ClampedAhead(p: int, z: int, k: int)
    ensures z * p - k * z == z * (p - k)
  {
    Distribute(p, -k, z);
  }

  lemma PlaceOfInit(p: nat, z: nat, ks: seq<nat>, i: nat)
    requires 1 <= p && i + 1 < |ks|
    ensures EvenAtPlace(p, z, ks[..|ks| - 1], i) == EvenAtPlace(p, z, ks, i)
    ensures 1 <= z <= p ==> FitsAtPlace(p, z, ks[..|ks| - 1], i) == FitsAtPlace(p, z, ks, i)
  {
    hide EvenAt, JumpFits, NullsAfter;
    var init := ks[..|ks| - 1];
    assert init[..i + 1] == ks[..i + 1] && init[..i] == ks[..i];
  }

  lemma EachStep(p: nat, z: nat, ks: seq<nat>)
    requires 1 <= p && ks != []
    ensures var last := |ks| - 1;
            && (EachEven(p, z, ks) <==> EachEven(p, z, ks[..last]) && EvenAtPlace(p, z, ks, last))
            && (1 <= z <= p ==> (EachFits(p, z, ks) <==> EachFits(p, z, ks[..last]) && FitsAtPlace(p, z, ks, last)))
  {
    hide EvenAtPlace, FitsAtPlace;
    var last := |ks| - 1;
    forall i: nat | i < last
      ensures EvenAtPlace(p, z, ks[..last], i) == EvenAtPlace(p, z, ks, i)
      ensures 1 <= z <= p ==> FitsAtPlace(p, z, ks[..last], i) == FitsAtPlace(p, z, ks, i)
    {
      PlaceOfInit(p, z, ks, i);
    }
  }

  /** The last packet, when all before it had their share. */
  lemma LastStepEven(p: nat, z: nat, ks: seq<nat>)
    requires 1 <= z <= p && Pattern(ks, p) && ks != [] && EachEven(p, z, ks[..|ks| - 1])
    ensures EvenAtPlace(p, z, ks, |ks| - 1) <==> FitsAtPlace(p, z, ks, |ks| - 1)
  {
    hide EvenAt, JumpFits, SpreadNulls, EachEven;
    var last := |ks| - 1;
    var init := ks[..last];
    assert ks[..last + 1] == ks;
    NullsGrow(p, z, init, 0);
    if last > 0 {
      LastIsEven(p, z, init);
      DenseStepEven(p, z, ks[last], NullsAfter(p, z, init), ks[last - 1]);
    } else {
      DenseStepEven(p, z, ks[last], NullsAfter(p, z, init), 0);
    }
  }

  lemma LastIsEven(p: nat, z: nat, ks: seq<nat>)
    requires 1 <= p && ks != [] && EachEven(p, z, ks)
    ensures EvenAt(p, z, ks[|ks| - 1], NullsAfter(p, z, ks))
  {
    hide EvenAt, NullsAfter;
    assert EvenAtPlace(p, z, ks, |ks| - 1);
    assert ks[..|ks|] == ks;
  }

  /** Dense regime, any pattern: every packet has its share of nulls if and only if every jump
      fits.  A jump is looked at before it is made. */
  lemma {:induction false} GapsFit(p: nat, z: nat, ks: seq<nat>)
    requires 1 <= z <= p && Pattern(ks, p)
    ensures EachEven(p, z, ks) <==> EachFits(p, z, ks)
  {
    if ks != [] {
      var init := ks[..|ks| - 1];
      GapsFit(p, z, init);
      EachStep(p, z, ks);
      hide EvenAtPlace, FitsAtPlace, EachEven, EachFits;
      if EachEven(p, z, init) {
        LastStepEven(p, z, ks);
      }
    }
  }

  /** The first data packet of a dense buffer, at iteration `k`. */
  lemma FirstPacketEven(p: nat, z: nat, k: nat)
    requires 1 <= z <= p && k < p
    ensures NullsAfter(p, z, [k]) == if k <= z then k else z
    ensures EvenAt(p, z, k, NullsAfter(p, z, [k])) <==> if k <= z then k * (p - z) < p else z * (p - k) < p
  {
    DenseDueZero(p, z);
    DenseWanted(p, z, k, 0);
    hide Wanted, DenseDue;
    assert [k][..0] == [] && NullsAfter(p, z, []) == 0;
    DenseStepEven(p, z, k, 0, 0);
  }

  /** Every packet of every pattern has its share of nulls. */
  ghost predicate AlwaysEven(p: nat, z: nat)
    requires 1 <= p
  {
    forall ks: seq<nat> :: Pattern(ks, p) ==> EachEven(p, z, ks)
  }

  /** Otherwise one packet at iteration `z` alone takes all the nulls. */
  lemma GapsBreakEvenness(p: nat, z: nat)
    requires 2 <= z && z + 2 <= p
    ensures Pattern([z], p) && NullsAfter(p, z, [z]) == z && !EvenAt(p, z, z, z)
  {
    hide EvenAt;
    FirstPacketEven(p, z, z);
    var w := p - z;
    TimesMonotone(1, z - 1, w - 1);
    Distribute(z, -1, w - 1);
    Distribute(w, -1, z);
  }

  lemma JumpsAlwaysFit(p: nat, z: nat, k: nat, n: nat)
    requires 1 <= z <= p && (z == 1 || p <= z + 1)
    requires k < p && n <= z
    ensures JumpFits(p, z, k, n)
  {
    var due := DenseDue(p, z, n);
    DenseDueIs(p, z, n);
    DenseDueAll(p, z);
    DenseDueZero(p, z);
    hide DenseDue;
    if due < k {
      if z == 1 {
        assert n == 0;
      } else {
        NearlyEqual(p, z, n, due);
        if p == z {
          Distribute(k - due, 0, 0);
        }
      }
    }
  }

  /** With at most one more data packet than nulls, the packets due are the nulls or one more. */
  lemma NearlyEqual(p: int, z: int, n: int, due: int)
    requires 1 <= z <= p <= z + 1 && 0 <= n <= z
    requires 2 * (due * z) <= 2 * (n * p) + z < 2 * (due * z) + 2 * z
    ensures due == n || (p == z + 1 && due == n + 1)
    ensures due * z - n * p == if p == z then 0 else if due == n then -n else z - n
  {
    Distribute(z, 1, n);
    if due < n {
      TimesMonotone(due + 1, n, z);
      Distribute(due, 1, z);
    }
    Distribute(n, 1, z);
    Distribute(n, 2, z);
    if due > n + 1 {
      TimesMonotone(n + 2, due, z);
    }
    if due == n + 1 && p == z {
      assert false;
    }
  }

  lemma AnyPatternEven(p: nat, z: nat, ks: seq<nat>)
    requires 1 <= p && (p < z || z <= 1 || p <= z + 1) && Pattern(ks, p)
    ensures EachEven(p, z, ks)
  {
    hide EvenAt, NullsAfter, JumpFits;
    if z == 0 || p < z {
      forall i: nat | i < |ks| ensures EvenAtPlace(p, z, ks, i) {
        assert ks[..i + 1][i] == ks[i];
        if z == 0 {
          NullsGrow(p, z, ks[..i + 1], 0);
          NoNulls(p, ks[i]);
        } else {
          SparseClosedForm(p, z, ks[..i + 1]);
          SparseNear(p, z, ks[i]);
          ShareNear(p, z, ks[i]);
        }
      }
    } else {
      forall i: nat | i < |ks| ensures FitsAtPlace(p, z, ks, i) {
        NullsGrow(p, z, ks[..i], 0);
        JumpsAlwaysFit(p, z, ks[i], NullsAfter(p, z, ks[..i]));
      }
      GapsFit(p, z, ks);
    }
  }

  lemma NoNulls(p: nat, k: nat)
    requires 1 <= p
    ensures EvenAt(p, 0, k, 0)
  {
  }

  lemma ShareNear(p: nat, z: nat, k: nat)
    requires 1 <= p
    ensures SparseDue(p, z, k) >= 0 && EvenAt(p, z, k, SparseDue(p, z, k))
  {
    SparseDueIs(p, z, k);
    SparseNear(p, z, k);
  }

  /** Empty iterations can do no harm to evenness if and only if there are more nulls than data,
      or at most one null, or at most one more data packet than nulls. */
  lemma GapsHarmless(p: nat, z: nat)
    requires 1 <= p
    ensures AlwaysEven(p, z) <==> p < z || z <= 1 || p <= z + 1
  {
    hide EvenAt, NullsAfter;
    if p < z || z <= 1 || p <= z + 1 {
      forall ks: seq<nat> | Pattern(ks, p) ensures EachEven(p, z, ks) {
        AnyPatternEven(p, z, ks);
      }
    } else {
      GapsBreakEvenness(p, z);
      assert [z][..1] == [z];
      assert !EvenAtPlace(p, z, [z], 0);
    }
  }
}
