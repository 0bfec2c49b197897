/**
 * The per-ray core of `median_filter_censor` and `median_filter`
 * (util/filter.py): a ray is cut after its last valid gate, padded with
 * NaN on both sides, its maximal runs of finite gates are located by
 * pairing run starts (`nan_left`) with run ends (`nan_right`), short runs
 * are masked, and the median kernel is applied to the padded ray.
 */
module FilterRuns {
  import opened Gates
  import opened PyBase

  // ---------------------------------------------------------------
  // Declarative description of runs
  // ---------------------------------------------------------------

  function Valids(row: seq<Gate>): (v: seq<bool>)
    ensures |v| == |row| && forall g :: 0 <= g < |row| ==> v[g] == row[g].valid
  {
    seq(|row|, g requires 0 <= g < |row| => row[g].valid)
  }

  /** First position of the run of true values that contains position `p` (or `p` itself). */
  function RunStart(v: seq<bool>, p: nat): (a: nat)
    requires p < |v|
    ensures a <= p
    ensures a == 0 || !v[a - 1] || !v[p]
    ensures v[p] ==> forall x :: a <= x <= p ==> v[x]
  {
    if p > 0 && v[p - 1] then RunStart(v, p - 1) else p
  }

  /** Last position of the run of true values that contains position `p` (or `p` itself). */
  function RunEnd(v: seq<bool>, p: nat): (b: nat)
    requires p < |v|
    ensures p <= b < |v|
    decreases |v| - p
  {
    if p + 1 < |v| && v[p + 1] then RunEnd(v, p + 1) else p
  }

  /**
   * Gate `g` is valid and belongs to a maximal run of valid gates whose
   * length minus one is below `minsize` (the source compares
   * `nan_right - nan_left`, which is the run length minus one).
   */
  predicate InShortRun(v: seq<bool>, g: nat, minsize: real)
    requires g < |v|
  {
    v[g] && ((RunEnd(v, g) - RunStart(v, g)) as real) < minsize
  }

  /** [a, b] is a maximal run of true values of `v` (ends of `v` count as false neighbours). */
  predicate IsMaximalRun(v: seq<bool>, a: int, b: int)
  {
    0 <= a <= b < |v| &&
    (a == 0 || !v[a - 1]) && (b == |v| - 1 || !v[b + 1]) &&
    forall q :: a <= q <= b ==> v[q]
  }

  lemma {:induction false} RunStartInside(v: seq<bool>, a: int, b: int, p: nat)
    requires IsMaximalRun(v, a, b) && a <= p <= b
    ensures RunStart(v, p) == a
    decreases p
  {
    if p > a {
      RunStartInside(v, a, b, p - 1);
    }
  }

  lemma {:induction false} RunEndInside(v: seq<bool>, a: int, b: int, p: nat)
    requires IsMaximalRun(v, a, b) && a <= p <= b
    ensures RunEnd(v, p) == b
    decreases b - p
  {
    if p < b {
      RunEndInside(v, a, b, p + 1);
    }
  }

  /**
   * A valid gate inside a maximal run [a, b] is in a short run exactly
   * when b - a < minsize, i.e. when the run has at most `minsize` gates
   * for an integral `minsize`.
   */
  lemma ShortRunIffRunLength(v: seq<bool>, a: int, b: int, g: nat, minsize: real)
    requires IsMaximalRun(v, a, b) && a <= g <= b
    ensures InShortRun(v, g, minsize) <==> ((b - a) as real) < minsize
  {
    RunStartInside(v, a, b, g);
    RunEndInside(v, a, b, g);
  }

  /** With the default `minsize_seq` of 3, runs of one to three gates are suppressed and longer ones are not. */
  lemma DefaultMinsizeSuppressesUpToThree(v: seq<bool>, a: int, b: int, g: nat)
    requires IsMaximalRun(v, a, b) && a <= g <= b
    ensures InShortRun(v, g, 3.0) <==> b - a + 1 <= 3
  {
    ShortRunIffRunLength(v, a, b, g, 3.0);
  }

  // ---------------------------------------------------------------
  // Truncation and padding
  // ---------------------------------------------------------------

  /** Index of the last valid gate, -1 when there is none. */
  function LastValid(row: seq<Gate>): (r: int)
    ensures -1 <= r < |row|
    ensures r >= 0 ==> row[r].valid
    ensures forall q :: r < q < |row| ==> !row[q].valid
  {
    if |row| == 0 then -1
    else if row[|row| - 1].valid then |row| - 1
    else LastValid(row[..|row| - 1])
  }

  /** NaN, as `np.ma.filled(row, np.nan)` and `np.pad` write it. */
  const NanGate: Gate := Gate(0.0, false)

  function Filled(g: Gate): Gate
  {
    if g.valid then g else NanGate
  }

  /** `np.pad(np.ma.filled(row[0:last + 1], nan), (1, 1), constant nan)`. */
  function Padded(row: seq<Gate>): (p: seq<Gate>)
    requires LastValid(row) >= 0
    ensures |p| == LastValid(row) + 3
    ensures !p[0].valid && !p[|p| - 1].valid
    ensures forall g :: 0 <= g <= LastValid(row) ==> p[g + 1] == Filled(row[g])
  {
    [NanGate] + seq(LastValid(row) + 1, q requires 0 <= q <= LastValid(row) => Filled(row[q])) + [NanGate]
  }

  function Finite(p: seq<Gate>): (f: seq<bool>)
    ensures |f| == |p| && forall q :: 0 <= q < |p| ==> f[q] == p[q].valid
  {
    seq(|p|, q requires 0 <= q < |p| => p[q].valid)
  }

  /** `f` is `v` cut after position `last`, padded with one false value on each side. */
  predicate PaddedOf(f: seq<bool>, v: seq<bool>, last: int)
  {
    0 <= last < |v| && |f| == last + 3 && !f[0] && !f[last + 2] &&
    (forall q :: 0 <= q <= last ==> f[q + 1] == v[q]) &&
    (forall q :: last < q < |v| ==> !v[q])
  }

  /** Runs of the padded ray are the runs of the ray, shifted by one. */
  lemma {:induction false} PaddedRunStart(f: seq<bool>, v: seq<bool>, last: int, g: nat)
    requires PaddedOf(f, v, last) && g <= last
    ensures RunStart(f, g + 1) == RunStart(v, g) + 1
    decreases g
  {
    if g > 0 {
      PaddedRunStart(f, v, last, g - 1);
    }
  }

  lemma {:induction false} PaddedRunEnd(f: seq<bool>, v: seq<bool>, last: int, g: nat)
    requires PaddedOf(f, v, last) && g <= last
    ensures RunEnd(f, g + 1) == RunEnd(v, g) + 1
    decreases last - g
  {
    if g < last {
      PaddedRunEnd(f, v, last, g + 1);
    }
  }

  lemma PaddedIsPadding(row: seq<Gate>)
    requires LastValid(row) >= 0
    ensures PaddedOf(Finite(Padded(row)), Valids(row), LastValid(row))
  {
  }

  // ---------------------------------------------------------------
  // Pairing run starts and run ends
  // ---------------------------------------------------------------

  /** [a, b] is a run of finite gates of the padded ray `fin`, bounded by NaN on both sides. */
  predicate IsRun(fin: seq<bool>, a: int, b: int)
  {
    1 <= a <= b < |fin| - 1 && !fin[a - 1] && !fin[b + 1] &&
    forall q :: a <= q <= b ==> fin[q]
  }

  /** A finite position whose left neighbour is NaN. */
  predicate StartAt(fin: seq<bool>, q: int)
    requires 1 <= q < |fin|
  {
    fin[q] && !fin[q - 1]
  }

  /** A finite position whose right neighbour is NaN. */
  predicate EndAt(fin: seq<bool>, q: int)
    requires 0 <= q < |fin| - 1
  {
    fin[q] && !fin[q + 1]
  }

  /** The run starts among positions [1, p), in increasing order. */
  function Starts(fin: seq<bool>, p: nat): (s: seq<int>)
    requires 1 <= p <= |fin|
    ensures forall k :: 0 <= k < |s| ==> 1 <= s[k] < p && StartAt(fin, s[k])
    ensures forall q :: 1 <= q < p && StartAt(fin, q) ==> q in s
    decreases p
  {
    if p == 1 then [] else Starts(fin, p - 1) + (if StartAt(fin, p - 1) then [p - 1] else [])
  }

  /** The run ends among positions [1, p), in increasing order. */
  function Ends(fin: seq<bool>, p: nat): (e: seq<int>)
    requires 1 <= p <= |fin| - 1
    ensures forall k :: 0 <= k < |e| ==> 1 <= e[k] < p && EndAt(fin, e[k])
    decreases p
  {
    if p == 1 then [] else Ends(fin, p - 1) + (if EndAt(fin, p - 1) then [p - 1] else [])
  }

  /** `nan_left`: the finite positions of the padded ray whose left neighbour is NaN. */
  function NanLeft(fin: seq<bool>): seq<int>
    requires |fin| >= 2
  {
    Starts(fin, |fin| - 1)
  }

  /** `nan_right`: the finite positions of the padded ray whose right neighbour is NaN. */
  function NanRight(fin: seq<bool>): seq<int>
    requires |fin| >= 2
  {
    Ends(fin, |fin| - 1)
  }

  /** Scanning up to `p`, a run has started at or before p - 1 and goes on at p. */
  predicate OpenAt(fin: seq<bool>, p: int)
    requires 1 <= p < |fin|
  {
    p >= 2 && fin[p - 1] && fin[p]
  }

  /** The starts outnumber the ends by one exactly while a run is open. */
  lemma {:induction false} StartsEndsCount(fin: seq<bool>, p: nat)
    requires |fin| >= 2 && !fin[0] && !fin[|fin| - 1]
    requires 1 <= p <= |fin| - 1
    ensures |Starts(fin, p)| == |Ends(fin, p)| + (if OpenAt(fin, p) then 1 else 0)
    ensures OpenAt(fin, p) ==> forall q :: Starts(fin, p)[|Starts(fin, p)| - 1] <= q <= p ==> fin[q]
    decreases p
  {
    if p > 1 {
      StartsEndsCount(fin, p - 1);
      var q := p - 1;
      var s, e := Starts(fin, q), Ends(fin, q);
      if !fin[q] {
        assert Starts(fin, p) == s;
        assert Ends(fin, p) == e;
      } else if !fin[q - 1] {
        assert Starts(fin, p) == s + [q];
        assert Ends(fin, p) == e + (if fin[p] then [] else [q]);
      } else {
        assert Starts(fin, p) == s;
        assert Ends(fin, p) == e + (if fin[p] then [] else [q]);
      }
    }
  }

  /** The k-th start and the k-th end found so far bound a maximal run. */
  lemma {:induction false} StartsEndsRuns(fin: seq<bool>, p: nat)
    requires |fin| >= 2 && !fin[0] && !fin[|fin| - 1]
    requires 1 <= p <= |fin| - 1
    ensures |Ends(fin, p)| <= |Starts(fin, p)|
    ensures forall k :: 0 <= k < |Ends(fin, p)| ==> IsRun(fin, Starts(fin, p)[k], Ends(fin, p)[k])
    decreases p
  {
    StartsEndsCount(fin, p);
    if p > 1 {
      StartsEndsRuns(fin, p - 1);
      StartsEndsCount(fin, p - 1);
      var q := p - 1;
      var s, e := Starts(fin, q), Ends(fin, q);
      if !fin[q] {
        assert Starts(fin, p) == s;
        assert Ends(fin, p) == e;
      } else if fin[p] {
        assert Starts(fin, p) == s + (if fin[q - 1] then [] else [q]);
        assert Ends(fin, p) == e;
      } else if !fin[q - 1] {
        assert Starts(fin, p) == s + [q];
        assert Ends(fin, p) == e + [q];
      } else {
        assert Starts(fin, p) == s;
        assert Ends(fin, p) == e + [q];
        assert OpenAt(fin, q);
        assert IsRun(fin, s[|s| - 1], q);
      }
    }
  }

  /**
   * On a ray padded with NaN at both ends, `nan_left` and `nan_right` have
   * the same length and pair up, index by index, into the maximal runs of
   * finite gates; every run start is in `nan_left`.
   */
  lemma NanLeftRightPair(fin: seq<bool>)
    requires |fin| >= 2 && !fin[0] && !fin[|fin| - 1]
    ensures |NanLeft(fin)| == |NanRight(fin)|
    ensures forall k :: 0 <= k < |NanLeft(fin)| ==> IsRun(fin, NanLeft(fin)[k], NanRight(fin)[k])
    ensures forall q :: 1 <= q < |fin| && StartAt(fin, q) ==> q in NanLeft(fin)
  {
    StartsEndsCount(fin, |fin| - 1);
    StartsEndsRuns(fin, |fin| - 1);
  }

  // ---------------------------------------------------------------
  // The ray filter
  // ---------------------------------------------------------------

  /**
   * The output mask of one ray: input-masked, censored, or in a short run.
   * `censored[g]` is the censor comparison (always false for
   * `median_filter`).
   */
  function FilterMask(row: seq<Gate>, censored: seq<bool>, minsize: real): (m: seq<bool>)
    requires |censored| == |row|
    ensures |m| == |row|
  {
    seq(|row|, g requires 0 <= g < |row| =>
      !row[g].valid || censored[g] || InShortRun(Valids(row), g, minsize))
  }

  /** The filtered value before masking: the kernel's output up to the last valid gate, 0 after it. */
  function MedianAt(row: seq<Gate>, median: (seq<Gate>, nat) -> Gate, g: nat): Gate
  {
    if g as int <= LastValid(row) then median(Padded(row), g + 1) else Gate(0.0, true)
  }

  /** The kernel outputs of one ray, before masking. */
  function MedianRay(row: seq<Gate>, median: (seq<Gate>, nat) -> Gate): (r: seq<Gate>)
    ensures |r| == |row|
  {
    seq(|row|, g requires 0 <= g < |row| => MedianAt(row, median, g))
  }

  /** `np.ma.masked_array(values, mask = mask)`: a gate stays valid only where the mask is off. */
  function ApplyMask(values: seq<Gate>, mask: seq<bool>): (r: seq<Gate>)
    requires |values| == |mask|
    ensures |r| == |values|
    ensures forall g :: 0 <= g < |r| ==> r[g].value == values[g].value
    ensures forall g :: 0 <= g < |r| ==> (r[g].valid <==> values[g].valid && !mask[g])
  {
    seq(|values|, g requires 0 <= g < |values| => Gate(values[g].value, values[g].valid && !mask[g]))
  }

  /** One output ray: the median value, masked by the filter mask. */
  function FilteredRay(row: seq<Gate>, censored: seq<bool>, minsize: real,
                       median: (seq<Gate>, nat) -> Gate): (r: seq<Gate>)
    requires |censored| == |row|
    ensures |r| == |row|
  {
    ApplyMask(MedianRay(row, median), FilterMask(row, censored, minsize))
  }

  /**
   * One ray as the loop handles it when the field's mask is numpy's
   * `nomask` (a field without any masked gate, such as a `masked_values`
   * result with no hit): `row.mask` is then the 0-d `False`, so
   * `np.where(~row.mask)[0]` is `[0]` and the ray is cut after gate 0.
   * Gate 0 is filtered on its own; its run (`len_sub` 0) marks gates 0
   * and 1 when `0 < minsize_seq`; every later gate keeps the 0 of
   * `np.zeros`, masked only by the censor.
   */
  function FilteredRayNoMask(row: seq<Gate>, censored: seq<bool>, minsize: real,
                             median: (seq<Gate>, nat) -> Gate): (r: seq<Gate>)
    requires |censored| == |row|
    ensures |r| == |row|
    ensures forall g :: 2 <= g < |row| ==> r[g].value == 0.0 && (r[g].valid <==> !censored[g])
  {
    seq(|row|, g requires 0 <= g < |row| =>
      if g == 0 then FilteredRay(row[..1], censored[..1], minsize, median)[0]
      else Gate(0.0, !censored[g] && !(g == 1 && row[0].valid && 0.0 < minsize)))
  }

  /**
   * A ray of four valid gates, uncensored, with the default
   * `minsize_seq` of 3: filtered in full, gate 0 is the kernel output and
   * gate 3 too; cut after gate 0 as the `nomask` case does, gate 0 is
   * masked (a run of one gate is short) and gate 3 is an unmasked 0.
   */
  lemma NoMaskCutsRay(median: (seq<Gate>, nat) -> Gate)
    ensures var row := [Gate(1.0, true), Gate(1.0, true), Gate(1.0, true), Gate(1.0, true)];
            var none := [false, false, false, false];
            FilteredRay(row, none, 3.0, median)[0].valid == median(Padded(row), 1).valid &&
            FilteredRay(row, none, 3.0, median)[3] == median(Padded(row), 4) &&
            !FilteredRayNoMask(row, none, 3.0, median)[0].valid &&
            FilteredRayNoMask(row, none, 3.0, median)[3] == Gate(0.0, true)
  {
    var row := [Gate(1.0, true), Gate(1.0, true), Gate(1.0, true), Gate(1.0, true)];
    var none := [false, false, false, false];
    var v := Valids(row);
    assert IsMaximalRun(v, 0, 3);
    ShortRunIffRunLength(v, 0, 3, 0, 3.0);
    ShortRunIffRunLength(v, 0, 3, 3, 3.0);
    assert LastValid(row) == 3;
    var one := row[..1];
    assert IsMaximalRun(Valids(one), 0, 0);
    ShortRunIffRunLength(Valids(one), 0, 0, 0, 3.0);
  }

  /** A ray of a single gate is the same whether the field's mask is `nomask` or an array. */
  lemma NoMaskAgreesOnOneGate(row: seq<Gate>, censored: seq<bool>, minsize: real,
                              median: (seq<Gate>, nat) -> Gate)
    requires |censored| == |row| == 1
    ensures FilteredRayNoMask(row, censored, minsize, median) == FilteredRay(row, censored, minsize, median)
  {
    assert row[..1] == row && censored[..1] == censored;
  }

  /** The mask built by the marking loop: base mask or the span [left - 1, right] of a short run. */
  predicate MarkedBy(lefts: seq<int>, rights: seq<int>, minsize: real, j: int, g: int)
    requires 0 <= j <= |lefts| == |rights|
  {
    exists t :: 0 <= t < j && ((rights[t] - lefts[t]) as real) < minsize &&
      lefts[t] - 1 <= g <= rights[t]
  }

  /** The run of `nan_left`/`nan_right` that holds a finite position. */
  lemma RunHolding(fin: seq<bool>, x: int) returns (k: nat)
    requires |fin| >= 2 && !fin[0] && !fin[|fin| - 1]
    requires 0 <= x < |fin| && fin[x]
    ensures k < |NanLeft(fin)| == |NanRight(fin)|
    ensures NanLeft(fin)[k] == RunStart(fin, x) && NanRight(fin)[k] == RunEnd(fin, x)
  {
    NanLeftRightPair(fin);
    var s := RunStart(fin, x);
    assert s in NanLeft(fin);
    k :| 0 <= k < |NanLeft(fin)| && NanLeft(fin)[k] == s;
    var e := NanRight(fin)[k];
    assert !fin[e + 1];
    assert x <= e;
    assert IsMaximalRun(fin, s, e);
    RunEndInside(fin, s, e, x);
  }

  /** A marked span [left - 1, right] meets a finite position only inside its own run. */
  lemma MarkedRunHolds(fin: seq<bool>, t: nat, x: int)
    requires |fin| >= 2 && !fin[0] && !fin[|fin| - 1]
    requires t < |NanLeft(fin)| && t < |NanRight(fin)| && 0 <= x < |fin| && fin[x]
    requires NanLeft(fin)[t] <= x <= NanRight(fin)[t] + 1
    ensures NanLeft(fin)[t] == RunStart(fin, x) && NanRight(fin)[t] == RunEnd(fin, x)
  {
    NanLeftRightPair(fin);
    var a, b := NanLeft(fin)[t], NanRight(fin)[t];
    assert x != b + 1 by { assert !fin[b + 1]; }
    assert IsMaximalRun(fin, a, b);
    RunStartInside(fin, a, b, x);
    RunEndInside(fin, a, b, x);
  }

  /**
   * On the padded ray, a finite position is marked by some short run
   * exactly when the run holding it is short.
   */
  lemma MarkedIffShortRun(fin: seq<bool>, minsize: real, x: int)
    requires |fin| >= 2 && !fin[0] && !fin[|fin| - 1]
    requires 0 <= x < |fin| && fin[x]
    requires |NanLeft(fin)| == |NanRight(fin)|
    ensures MarkedBy(NanLeft(fin), NanRight(fin), minsize, |NanLeft(fin)|, x - 1) <==>
            ((RunEnd(fin, x) - RunStart(fin, x)) as real) < minsize
  {
    var lefts, rights := NanLeft(fin), NanRight(fin);
    if MarkedBy(lefts, rights, minsize, |lefts|, x - 1) {
      var t :| 0 <= t < |lefts| && ((rights[t] - lefts[t]) as real) < minsize &&
        lefts[t] - 1 <= x - 1 <= rights[t];
      MarkedRunHolds(fin, t, x);
    }
    if ((RunEnd(fin, x) - RunStart(fin, x)) as real) < minsize {
      var k := RunHolding(fin, x);
      assert lefts[k] - 1 <= x - 1 <= rights[k];
    }
  }

  /** The marking loop over all runs yields exactly the declarative filter mask. */
  lemma MarkedMatchesMask(row: seq<Gate>, censored: seq<bool>, minsize: real, g: nat)
    requires |censored| == |row| && LastValid(row) >= 0 && g < |row|
    requires |NanLeft(Finite(Padded(row)))| == |NanRight(Finite(Padded(row)))|
    ensures (!row[g].valid || censored[g] ||
             MarkedBy(NanLeft(Finite(Padded(row))), NanRight(Finite(Padded(row))), minsize,
                      |NanLeft(Finite(Padded(row)))|, g))
            == FilterMask(row, censored, minsize)[g]
  {
    if row[g].valid && !censored[g] {
      var fin := Finite(Padded(row));
      var v := Valids(row);
      var last := LastValid(row);
      assert FilterMask(row, censored, minsize)[g] == InShortRun(v, g, minsize);
      PaddedIsPadding(row);
      assert g <= last && fin[g + 1];
      PaddedRunStart(fin, v, last, g);
      PaddedRunEnd(fin, v, last, g);
      assert RunEnd(fin, g + 1) - RunStart(fin, g + 1) == RunEnd(v, g) - RunStart(v, g);
      MarkedIffShortRun(fin, minsize, g + 1);
    } else {
      assert FilterMask(row, censored, minsize)[g];
    }
  }

  /** `mask[lo:hi] = True`, the slice clipped to the array as numpy clips it. */
  method MarkSpan(mask: array<bool>, lo: nat, hi: int)
    modifies mask
    ensures forall g :: 0 <= g < mask.Length ==> mask[g] == (old(mask[g]) || lo <= g < hi)
  {
    var h := lo;
    var stop := if hi < mask.Length then hi else mask.Length;
    while h < stop
      invariant lo <= h && (h <= stop || h == lo)
      invariant forall g :: 0 <= g < mask.Length ==> mask[g] == (old(mask[g]) || lo <= g < h)
    {
      mask[h] := true;
      h := h + 1;
    }
  }

  /**
   * The loop over `len_sub = nan_right - nan_left`: every run whose
   * length minus one is below `minsize` is marked from the gate before
   * it through the gate after it (in ray coordinates).
   */
  method MarkShortRuns(mask: array<bool>, lefts: seq<int>, rights: seq<int>, minsize: real)
    requires |lefts| == |rights| && forall k :: 0 <= k < |lefts| ==> lefts[k] >= 1
    modifies mask
    ensures forall g :: 0 <= g < mask.Length ==>
      mask[g] == (old(mask[g]) || MarkedBy(lefts, rights, minsize, |lefts|, g))
  {
    var j := 0;
    while j < |lefts|
      invariant 0 <= j <= |lefts|
      invariant forall g :: 0 <= g < mask.Length ==>
        mask[g] == (old(mask[g]) || MarkedBy(lefts, rights, minsize, j, g))
    {
      if ((rights[j] - lefts[j]) as real) < minsize {
        MarkSpan(mask, lefts[j] - 1, rights[j] + 1);
        forall g | 0 <= g < mask.Length
          ensures MarkedBy(lefts, rights, minsize, j + 1, g) ==
                  (MarkedBy(lefts, rights, minsize, j, g) || lefts[j] - 1 <= g <= rights[j])
        {
          if lefts[j] - 1 <= g <= rights[j] {
            assert MarkedBy(lefts, rights, minsize, j + 1, g);
          }
          if MarkedBy(lefts, rights, minsize, j + 1, g) && !MarkedBy(lefts, rights, minsize, j, g) {
            var t :| 0 <= t < j + 1 && ((rights[t] - lefts[t]) as real) < minsize &&
              lefts[t] - 1 <= g <= rights[t];
            assert t == j;
          }
        }
      } else {
        forall g | 0 <= g < mask.Length
          ensures MarkedBy(lefts, rights, minsize, j + 1, g) == MarkedBy(lefts, rights, minsize, j, g)
        {
          if MarkedBy(lefts, rights, minsize, j + 1, g) {
            var t :| 0 <= t < j + 1 && ((rights[t] - lefts[t]) as real) < minsize &&
              lefts[t] - 1 <= g <= rights[t];
            assert t != j;
          }
        }
      }
      j := j + 1;
    }
  }

  /** `medfilt` on the padded ray, written into `field_filter[i, 0:last + 1]`; zeros after it. */
  method KernelValues(row: seq<Gate>, median: (seq<Gate>, nat) -> Gate) returns (values: array<Gate>)
    ensures fresh(values) && values[..] == MedianRay(row, median)
  {
    var n := |row|;
    values := new Gate[n](g => Gate(0.0, true));
    var last := LastValid(row);
    if last >= 0 {
      var padded := Padded(row);
      var g := 0;
      while g <= last
        invariant 0 <= g <= last + 1
        invariant forall q :: 0 <= q < g ==> values[q] == median(padded, q + 1)
        invariant forall q :: g <= q < n ==> values[q] == Gate(0.0, true)
      {
        values[g] := median(padded, g + 1);
        g := g + 1;
      }
    }
    assert forall q :: 0 <= q < n ==> values[q] == MedianAt(row, median, q);
  }

  /**
   * The body of the ray loop of `median_filter_censor` / `median_filter`
   * for one ray: `mask` starts as the input mask united with the censor
   * comparison, short runs are marked over `[nan_left - 1, nan_right]`,
   * and the kernel output fills `field_filter` up to the last valid gate.
   */
  method FilterRay(row: seq<Gate>, censored: seq<bool>, minsize: real,
                   median: (seq<Gate>, nat) -> Gate) returns (out: seq<Gate>)
    requires |censored| == |row|
    ensures out == FilteredRay(row, censored, minsize, median)
  {
    var n := |row|;
    var mask := new bool[n](g requires 0 <= g < n => !row[g].valid || censored[g]);
    if LastValid(row) >= 0 {
      var fin := Finite(Padded(row));
      NanLeftRightPair(fin);
      MarkShortRuns(mask, NanLeft(fin), NanRight(fin), minsize);
      forall q | 0 <= q < n ensures mask[q] == FilterMask(row, censored, minsize)[q] {
        MarkedMatchesMask(row, censored, minsize, q);
      }
    } else {
      forall q | 0 <= q < n ensures mask[q] == FilterMask(row, censored, minsize)[q] {
        assert !row[q].valid;
      }
    }
    assert mask[..] == FilterMask(row, censored, minsize);
    var values := KernelValues(row, median);
    out := ApplyMask(values[..], mask[..]);
  }
}
