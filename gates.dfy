/**
 * Radar gates and masked fields.
 *
 * A gate is a (value, valid) pair: `valid` is false where numpy would
 * hold a masked entry or a NaN/Inf.  A field (a numpy masked array of
 * rays x gates) is a sequence of rows plus the array's fill value.
 *
 * Comparisons that the source performs on a masked array look at the raw
 * data, so the gate operations below compare `value` even on invalid
 * gates; where the comparison result feeds `np.ma.masked_where`, a masked
 * comparison entry counts as true (numpy fills a masked condition with
 * True), which is why `MaskWhereBelow` can never unmask a gate.
 */
module Gates {
  import opened Wrappers

  datatype Gate = Gate(value: real, valid: bool)

  datatype MArray = MArray(rows: seq<seq<Gate>>, fill: real)

  /** numpy's default fill value for float arrays. */
  const DefaultFill: real := 100000000000000000000.0

  predicate SameShape(a: MArray, b: MArray)
  {
    |a.rows| == |b.rows| &&
    forall i :: 0 <= i < |a.rows| ==> |a.rows[i]| == |b.rows[i]|
  }

  predicate SameShapeRows(a: seq<seq<Gate>>, b: seq<seq<Gate>>)
  {
    |a| == |b| && forall i :: 0 <= i < |a| ==> |a[i]| == |b[i]|
  }

  /** Apply a gate-wise operation to every gate; the fill value is kept. */
  function MapGates(a: MArray, f: Gate -> Gate): (r: MArray)
    ensures SameShape(r, a) && r.fill == a.fill
    ensures forall i, j :: 0 <= i < |a.rows| && 0 <= j < |a.rows[i]| ==>
      r.rows[i][j] == f(a.rows[i][j])
  {
    MArray(seq(|a.rows|, i requires 0 <= i < |a.rows| =>
             seq(|a.rows[i]|, j requires 0 <= j < |a.rows[i]| => f(a.rows[i][j]))),
           a.fill)
  }

  /** Combine two equally shaped arrays gate by gate; the first one's fill value is kept. */
  function ZipGates(a: MArray, b: MArray, f: (Gate, Gate) -> Gate): (r: MArray)
    requires SameShape(a, b)
    ensures SameShape(r, a) && r.fill == a.fill
    ensures forall i, j :: 0 <= i < |a.rows| && 0 <= j < |a.rows[i]| ==>
      r.rows[i][j] == f(a.rows[i][j], b.rows[i][j])
  {
    MArray(seq(|a.rows|, i requires 0 <= i < |a.rows| =>
             seq(|a.rows[i]|, j requires 0 <= j < |a.rows[i]| => f(a.rows[i][j], b.rows[i][j]))),
           a.fill)
  }

  // ---------------------------------------------------------------
  // Gate-wise operations
  // ---------------------------------------------------------------

  /**
   * `a[a > hi] = hi` on a masked array: the index is the raw comparison
   * and a scalar assignment through a masked index writes the data only,
   * so the mask is unchanged.
   */
  function ClipAbove(g: Gate, hi: real): (r: Gate)
    ensures r.valid == g.valid
    ensures r.value <= hi
    ensures g.value <= hi ==> r == g
  {
    if g.value > hi then Gate(hi, g.valid) else g
  }

  /** `a[a < 0] = 0` (the KDP clamp): data only, mask unchanged. */
  function ClampNegative(g: Gate): (r: Gate)
    ensures r.valid == g.valid && r.value >= 0.0
    ensures g.value >= 0.0 ==> r == g
  {
    if g.value < 0.0 then Gate(0.0, g.valid) else g
  }

  /** `np.ma.masked_where(a < lo, a)`. */
  function MaskWhereBelow(g: Gate, lo: real): (r: Gate)
    ensures r.value == g.value
    ensures r.valid <==> g.valid && g.value >= lo
  {
    Gate(g.value, g.valid && !(g.value < lo))
  }

  /**
   * Masked-array sum `a + b`: valid where both are; a masked result keeps
   * the first operand's data.
   */
  function AddGate(a: Gate, b: Gate): (r: Gate)
    ensures r.valid <==> a.valid && b.valid
    ensures r.valid ==> r.value == a.value + b.value
  {
    if a.valid && b.valid then Gate(a.value + b.value, true) else Gate(a.value, false)
  }

  /** `a * c` for a scalar `c`. */
  function ScaleGate(g: Gate, c: real): (r: Gate)
    ensures r.valid == g.valid
    ensures r.valid ==> r.value == g.value * c
  {
    if g.valid then Gate(g.value * c, true) else g
  }

  /** Integer test on a real exponent. */
  predicate IsIntegral(e: real)
  {
    e == e.Floor as real
  }

  /**
   * numpy's real power `b ** e` with its domain: a NaN or Inf outcome is
   * an invalid gate (np.ma.power masks it).  `pw` is the power of a
   * positive base, left uninterpreted.
   */
  function RealPow(pw: (real, real) -> real, b: real, e: real): (r: Gate)
    ensures b > 0.0 ==> r == Gate(pw(b, e), true)
    ensures b == 0.0 ==> (r.valid <==> e >= 0.0)
    ensures b < 0.0 ==> (r.valid <==> IsIntegral(e))
  {
    if b > 0.0 then Gate(pw(b, e), true)
    else if b == 0.0 then
      (if e > 0.0 then Gate(0.0, true)
       else if e == 0.0 then Gate(1.0, true)
       else Gate(DefaultFill, false))
    else if IsIntegral(e) then
      (if e.Floor % 2 == 0 then Gate(pw(-b, e), true) else Gate(-pw(-b, e), true))
    else Gate(DefaultFill, false)
  }

  /**
   * `np.ma.power(base, expo)`: masked where either operand is masked
   * (keeping the base's data there) or where the power is undefined.
   */
  function PowGate(pw: (real, real) -> real, base: Gate, expo: Gate): (r: Gate)
    ensures r.valid ==> base.valid && expo.valid
    ensures base.valid && expo.valid ==> r == RealPow(pw, base.value, expo.value)
  {
    if base.valid && expo.valid then RealPow(pw, base.value, expo.value)
    else Gate(base.value, false)
  }

  /** Constant gate for a Python scalar operand. */
  function Scalar(c: real): Gate { Gate(c, true) }

  /**
   * The clutter condition `CMD_FLAG == 1` as `np.ma.masked_where` sees
   * it: a masked flag counts as true.
   */
  predicate CmdCondition(flag: Gate)
  {
    !flag.valid || flag.value == 1.0
  }

  /** `np.ma.masked_where(CMD_FLAG == 1, g)`. */
  function MaskByFlag(g: Gate, flag: Gate): (r: Gate)
    ensures r.value == g.value
    ensures r.valid <==> g.valid && flag.valid && flag.value != 1.0
  {
    Gate(g.value, g.valid && !CmdCondition(flag))
  }

  /**
   * `np.ma.masked_where((CMD_FLAG == 1.).data, g)`: the raw comparison
   * data is false on a masked flag, so only a valid flag of 1 masks.
   */
  function MaskByFlagData(g: Gate, flag: Gate): (r: Gate)
    ensures r.value == g.value
    ensures r.valid <==> g.valid && !(flag.valid && flag.value == 1.0)
  {
    Gate(g.value, g.valid && !(flag.valid && flag.value == 1.0))
  }

  // ---------------------------------------------------------------
  // Array-level operations
  // ---------------------------------------------------------------

  /** Masked-array sum of two fields; numpy raises on a shape clash. */
  function AddArrays(a: MArray, b: MArray): (r: Result<MArray>)
    ensures r.Ok? <==> SameShape(a, b)
    ensures r.Ok? ==> SameShape(r.value, a) && r.value.fill == a.fill
    ensures r.Ok? ==> forall i, j :: 0 <= i < |a.rows| && 0 <= j < |a.rows[i]| ==>
      r.value.rows[i][j] == AddGate(a.rows[i][j], b.rows[i][j])
  {
    if SameShape(a, b) then Ok(ZipGates(a, b, AddGate)) else Fail(ValueError)
  }

  /**
   * `np.ma.masked_where(CMD_FLAG == 1, a)`; numpy raises IndexError on a
   * shape clash.  `useData` selects the `.data` form of the condition.
   */
  function MaskWhereFlag(a: MArray, flag: MArray, useData: bool): (r: Result<MArray>)
    ensures r.Ok? <==> SameShape(a, flag)
    ensures r.Ok? ==> SameShape(r.value, a) && r.value.fill == a.fill
    ensures r.Ok? ==> forall i, j :: 0 <= i < |a.rows| && 0 <= j < |a.rows[i]| ==>
      r.value.rows[i][j] ==
        if useData then MaskByFlagData(a.rows[i][j], flag.rows[i][j])
        else MaskByFlag(a.rows[i][j], flag.rows[i][j])
  {
    if !SameShape(a, flag) then Fail(IndexError)
    else if useData then Ok(ZipGates(a, flag, MaskByFlagData))
    else Ok(ZipGates(a, flag, MaskByFlag))
  }

  /** True when every gate valid in `b` is valid in `a`: masks only grow from `a` to `b`. */
  predicate MaskGrows(a: MArray, b: MArray)
  {
    SameShape(a, b) &&
    forall i, j :: 0 <= i < |a.rows| && 0 <= j < |a.rows[i]| ==>
      (b.rows[i][j].valid ==> a.rows[i][j].valid)
  }

  /**
   * `np.ma.masked_invalid(a)`: in this model NaN and Inf are already
   * invalid gates, so masking them changes nothing.
   */
  function MaskedInvalid(a: MArray): (r: MArray)
    ensures MaskGrows(a, r) && r.fill == a.fill
  {
    a
  }
}
