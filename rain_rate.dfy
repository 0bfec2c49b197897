/**
 * The rain-rate relations of qpe/rain_rate.py, gate by gate on masked
 * fields.  Powers go through numpy's masked `power`; the real power of a
 * positive base is the uninterpreted `pw`.
 */
module RainRate {
  import opened Wrappers
  import opened Gates

  /** `pw` stands for a power function: a positive base gives a positive power. */
  ghost predicate PowPositive(pw: (real, real) -> real)
  {
    forall b: real, e: real {:trigger pw(b, e)} :: b > 0.0 ==> pw(b, e) > 0.0
  }

  /** `x / c` for a scalar `c`: numpy masks a division by zero. */
  function DivGate(g: Gate, c: real): (r: Gate)
    ensures r.valid <==> g.valid && c != 0.0
    ensures r.valid ==> r.value == g.value / c
  {
    if g.valid && c != 0.0 then Gate(g.value / c, true) else Gate(g.value, false)
  }

  /** Masked product of two gates. */
  function MulGate(a: Gate, b: Gate): (r: Gate)
    ensures r.valid <==> a.valid && b.valid
    ensures r.valid ==> r.value == a.value * b.value
  {
    if a.valid && b.valid then Gate(a.value * b.value, true) else Gate(a.value, false)
  }

  /** `Z = np.ma.power(10., 0.1 * dbz)`. */
  function ReflectivityZ(pw: (real, real) -> real, dbz: Gate): (r: Gate)
    ensures r.valid <==> dbz.valid
    ensures r.valid ==> r.value == pw(10.0, 0.1 * dbz.value)
  {
    PowGate(pw, Scalar(10.0), ScaleGate(dbz, 0.1))
  }

  // ---------------------------------------------------------------
  // rr_zh
  // ---------------------------------------------------------------

  /** One gate of `rr_zh`; `1.0 / beta` is taken by the caller. */
  function RrZhGate(pw: (real, real) -> real, dbz: Gate, alpha: real, beta: real, invCoef: bool): Gate
    requires invCoef || beta != 0.0
  {
    var z := ReflectivityZ(pw, dbz);
    if invCoef then ScaleGate(PowGate(pw, z, Scalar(beta)), alpha)
    else PowGate(pw, DivGate(z, alpha), Scalar(1.0 / beta))
  }

  /**
   * `rr_zh(dbz, alpha, beta, invCoef)`: Z = 10^(0.1 dBZ), then alpha Z^beta
   * when `invCoef` is true, else (Z / alpha)^(1 / beta); Python raises
   * ZeroDivisionError on `1.0 / beta` for beta 0.  The result carries the
   * fill value of `dbz`.
   */
  function RrZh(pw: (real, real) -> real, dbz: MArray, alpha: real, beta: real, invCoef: bool): (r: Result<MArray>)
    ensures r.Fail? <==> !invCoef && beta == 0.0
    ensures r.Ok? ==> SameShape(r.value, dbz) && r.value.fill == dbz.fill
  {
    if !invCoef && beta == 0.0 then Fail(ZeroDivisionError)
    else Ok(MapGates(dbz, g => RrZhGate(pw, g, alpha, beta, invCoef)))
  }

  /**
   * With a power function that keeps positive bases positive, a valid
   * dBZ gives a valid rate of alpha Z^beta (`invCoef`) or, for a positive
   * alpha, (Z / alpha)^(1 / beta); a masked dBZ gives a masked rate.
   */
  lemma RrZhGateValues(pw: (real, real) -> real, dbz: Gate, alpha: real, beta: real, invCoef: bool)
    requires PowPositive(pw) && (invCoef || beta != 0.0)
    ensures !dbz.valid ==> !RrZhGate(pw, dbz, alpha, beta, invCoef).valid
    ensures dbz.valid && invCoef ==>
      RrZhGate(pw, dbz, alpha, beta, invCoef) == Gate(alpha * pw(pw(10.0, 0.1 * dbz.value), beta), true) ||
      RrZhGate(pw, dbz, alpha, beta, invCoef) == Gate(pw(pw(10.0, 0.1 * dbz.value), beta) * alpha, true)
    ensures dbz.valid && !invCoef && alpha > 0.0 ==>
      RrZhGate(pw, dbz, alpha, beta, invCoef) == Gate(pw(pw(10.0, 0.1 * dbz.value) / alpha, 1.0 / beta), true)
    ensures dbz.valid && !invCoef && alpha == 0.0 ==> !RrZhGate(pw, dbz, alpha, beta, invCoef).valid
  {
    if dbz.valid {
      var zv := pw(10.0, 0.1 * dbz.value);
      assert zv > 0.0;
      if !invCoef && alpha > 0.0 {
        assert zv / alpha > 0.0;
      }
    }
  }

  // ---------------------------------------------------------------
  // rr_zpoly
  // ---------------------------------------------------------------

  /** The fixed quartic of `rr_zpoly` in dBZ. */
  function ZPoly(x: real): real
  {
    -2.3 + 0.17 * x - 0.0051 * (x * x) + 0.000098 * (x * x * x) - 0.0000006 * (x * x * x * x)
  }

  /** `rr_zpoly(dbz)`: 10 raised to the quartic, gate by gate, with the fill value of `dbz`. */
  function RrZpoly(pw: (real, real) -> real, dbz: MArray): (r: MArray)
    ensures SameShape(r, dbz) && r.fill == dbz.fill
    ensures forall i, j :: 0 <= i < |dbz.rows| && 0 <= j < |dbz.rows[i]| ==>
      (r.rows[i][j].valid <==> dbz.rows[i][j].valid) &&
      (dbz.rows[i][j].valid ==> r.rows[i][j].value == pw(10.0, ZPoly(dbz.rows[i][j].value)))
  {
    MapGates(dbz, (g: Gate) => PowGate(pw, Scalar(10.0), if g.valid then Gate(ZPoly(g.value), true) else g))
  }

  // ---------------------------------------------------------------
  // rr_z_zdr
  // ---------------------------------------------------------------

  /** One gate of `rr_z_zdr`: alpha Z^beta_zh ZDR^beta_zdr. */
  function RrZZdrGate(pw: (real, real) -> real, dbz: Gate, zdr: Gate, alpha: real, betaZh: real, betaZdr: real): Gate
  {
    MulGate(ScaleGate(PowGate(pw, ReflectivityZ(pw, dbz), Scalar(betaZh)), alpha),
            PowGate(pw, zdr, Scalar(betaZdr)))
  }

  /** `rr_z_zdr(dbz, zdr, alpha, beta_zh, beta_zdr)`; the fields must have one shape. */
  function RrZZdr(pw: (real, real) -> real, dbz: MArray, zdr: MArray, alpha: real, betaZh: real,
                  betaZdr: real): (r: Result<MArray>)
    ensures r.Ok? <==> SameShape(dbz, zdr)
    ensures r.Ok? ==> SameShape(r.value, dbz) && r.value.fill == dbz.fill
  {
    if !SameShape(dbz, zdr) then Fail(ValueError)
    else Ok(ZipGates(dbz, zdr, (a, b) => RrZZdrGate(pw, a, b, alpha, betaZh, betaZdr)))
  }

  /**
   * A Z-ZDR rate is valid exactly where dBZ is valid and ZDR is valid
   * with a defined power: positive, zero with a non-negative exponent,
   * or negative with an integral exponent.
   */
  lemma RrZZdrGateValid(pw: (real, real) -> real, dbz: Gate, zdr: Gate, alpha: real, betaZh: real, betaZdr: real)
    requires PowPositive(pw)
    ensures RrZZdrGate(pw, dbz, zdr, alpha, betaZh, betaZdr).valid <==>
      dbz.valid && zdr.valid &&
      (zdr.value > 0.0 || (zdr.value == 0.0 && betaZdr >= 0.0) || (zdr.value < 0.0 && IsIntegral(betaZdr)))
  {
    if dbz.valid {
      assert pw(10.0, 0.1 * dbz.value) > 0.0;
    }
  }

  // ---------------------------------------------------------------
  // rr_kdp and rr_kdp_zdr: they clamp the caller's KDP array in place
  // ---------------------------------------------------------------

  /** A masked array that a callee may update in place. */
  class FieldRef {
    var arr: MArray

    constructor (a: MArray)
      ensures arr == a
    {
      arr := a;
    }
  }

  /** `alpha * kdp^beta` on a KDP array already clamped at zero. */
  function KdpRate(pw: (real, real) -> real, kdp: MArray, alpha: real, beta: real): (r: MArray)
    ensures SameShape(r, kdp) && r.fill == kdp.fill
  {
    MapGates(kdp, g => ScaleGate(PowGate(pw, g, Scalar(beta)), alpha))
  }

  /**
   * `rr_kdp(kdp, alpha, beta)`: every negative KDP value of the caller's
   * array is set to 0 (data only, the mask stays), then alpha KDP^beta.
   */
  method RrKdp(pw: (real, real) -> real, kdp: FieldRef, alpha: real, beta: real) returns (rt: MArray)
    modifies kdp
    ensures kdp.arr == MapGates(old(kdp.arr), ClampNegative)
    ensures rt == KdpRate(pw, kdp.arr, alpha, beta)
  {
    kdp.arr := MapGates(kdp.arr, ClampNegative);
    rt := KdpRate(pw, kdp.arr, alpha, beta);
  }

  /**
   * After the clamp no KDP value is negative, so the power is defined
   * wherever the input is valid, except at 0 with a negative exponent.
   */
  lemma KdpRateValid(pw: (real, real) -> real, kdp: MArray, alpha: real, beta: real, i: nat, j: nat)
    requires i < |kdp.rows| && j < |kdp.rows[i]|
    ensures MapGates(kdp, ClampNegative).rows[i][j].value >= 0.0
    ensures KdpRate(pw, MapGates(kdp, ClampNegative), alpha, beta).rows[i][j].valid <==>
      kdp.rows[i][j].valid && (kdp.rows[i][j].value > 0.0 || beta >= 0.0)
  {
  }

  /** `alpha * kdp^beta_kdp * zdr^beta_zdr` on a clamped KDP array. */
  function KdpZdrRate(pw: (real, real) -> real, kdp: MArray, zdr: MArray, alpha: real, betaKdp: real,
                      betaZdr: real): (r: MArray)
    requires SameShape(kdp, zdr)
    ensures SameShape(r, kdp) && r.fill == kdp.fill
  {
    ZipGates(kdp, zdr, (a, b) => MulGate(ScaleGate(PowGate(pw, a, Scalar(betaKdp)), alpha),
                                         PowGate(pw, b, Scalar(betaZdr))))
  }

  /** `rr_kdp_zdr(kdp, zdr, alpha, beta_kdp, beta_zdr)`, clamping the caller's KDP first. */
  method RrKdpZdr(pw: (real, real) -> real, kdp: FieldRef, zdr: MArray, alpha: real, betaKdp: real,
                  betaZdr: real) returns (rt: Result<MArray>)
    modifies kdp
    ensures kdp.arr == MapGates(old(kdp.arr), ClampNegative)
    ensures rt.Ok? <==> SameShape(kdp.arr, zdr)
    ensures rt.Fail? ==> rt == Fail(ValueError)
    ensures rt.Ok? ==> rt.value == KdpZdrRate(pw, kdp.arr, zdr, alpha, betaKdp, betaZdr)
  {
    kdp.arr := MapGates(kdp.arr, ClampNegative);
    if !SameShape(kdp.arr, zdr) {
      return Fail(ValueError);
    }
    rt := Ok(KdpZdrRate(pw, kdp.arr, zdr, alpha, betaKdp, betaZdr));
  }

  // ---------------------------------------------------------------
  // rr_hybrid
  // ---------------------------------------------------------------

  predicate SameShape4(a: MArray, b: MArray, c: MArray, d: MArray)
  {
    SameShape(a, b) && SameShape(a, c) && SameShape(a, d)
  }

  /** `hybrid[m] = src[m]`: where `m` holds, the gate (data and mask) is copied from `src`. */
  function Assign(h: MArray, m: seq<seq<bool>>, src: MArray): (r: MArray)
    requires SameShape(h, src) && |m| == |h.rows| && forall i :: 0 <= i < |m| ==> |m[i]| == |h.rows[i]|
    ensures SameShape(r, h) && r.fill == h.fill
    ensures forall i, j :: 0 <= i < |h.rows| && 0 <= j < |h.rows[i]| ==>
      r.rows[i][j] == if m[i][j] then src.rows[i][j] else h.rows[i][j]
  {
    MArray(seq(|h.rows|, i requires 0 <= i < |h.rows| =>
             seq(|h.rows[i]|, j requires 0 <= j < |h.rows[i]| =>
               if m[i][j] then src.rows[i][j] else h.rows[i][j])),
           h.fill)
  }

  /** A raw comparison of every gate against a threshold: `a <= t` or, with `above`, `a > t`. */
  function Compare(a: MArray, t: real, above: bool): (m: seq<seq<bool>>)
    ensures |m| == |a.rows| && forall i :: 0 <= i < |m| ==> |m[i]| == |a.rows[i]|
    ensures forall i, j :: 0 <= i < |a.rows| && 0 <= j < |a.rows[i]| ==>
      m[i][j] == if above then a.rows[i][j].value > t else a.rows[i][j].value <= t
  {
    seq(|a.rows|, i requires 0 <= i < |a.rows| =>
      seq(|a.rows[i]|, j requires 0 <= j < |a.rows[i]| =>
        if above then a.rows[i][j].value > t else a.rows[i][j].value <= t))
  }

  /** Gate-wise `np.logical_and(x, np.logical_not(y))`. */
  function AndNot(x: seq<seq<bool>>, y: seq<seq<bool>>): (m: seq<seq<bool>>)
    requires |x| == |y| && forall i :: 0 <= i < |x| ==> |x[i]| == |y[i]|
    ensures |m| == |x| && forall i :: 0 <= i < |m| ==> |m[i]| == |x[i]|
    ensures forall i, j :: 0 <= i < |x| && 0 <= j < |x[i]| ==> m[i][j] == (x[i][j] && !y[i][j])
  {
    seq(|x|, i requires 0 <= i < |x| => seq(|x[i]|, j requires 0 <= j < |x[i]| => x[i][j] && !y[i][j]))
  }

  /** Gate-wise `np.logical_or(np.logical_not(x), np.logical_not(y))`. */
  function NandMask(x: seq<seq<bool>>, y: seq<seq<bool>>): (m: seq<seq<bool>>)
    requires |x| == |y| && forall i :: 0 <= i < |x| ==> |x[i]| == |y[i]|
    ensures |m| == |x| && forall i :: 0 <= i < |m| ==> |m[i]| == |x[i]|
    ensures forall i, j :: 0 <= i < |x| && 0 <= j < |x[i]| ==> m[i][j] == (!x[i][j] || !y[i][j])
  {
    seq(|x|, i requires 0 <= i < |x| => seq(|x[i]|, j requires 0 <= j < |x[i]| => !x[i][j] || !y[i][j]))
  }

  /** `hybrid[np.logical_not(hybrid.mask)] = 0`. */
  function ZeroValid(g: Gate): (r: Gate)
    ensures r.valid == g.valid && (g.valid ==> r.value == 0.0)
  {
    if g.valid then Gate(0.0, true) else g
  }

  /** The selection `rr_hybrid` actually performs, gate by gate. */
  function HybridChoice(zh: Gate, zzdr: Gate, kdp: Gate, aa: real, bb: real): Gate
  {
    if zzdr.value > bb then kdp else if zh.value <= aa then zh else zzdr
  }

  /**
   * `rr_hybrid(rt_zh, rt_z_zdr, rt_kdp, rt_kdp_zdr, hybrid_aa,
   * hybrid_bb, hybrid_cc)` step by step: a copy of `rt_zh` with its valid
   * gates zeroed, then overwritten where `mask_aa`, `mask_bb`, `mask_cc`
   * and `mask_ee` hold.  Where Z-ZDR is above `hybrid_bb` the KDP rate
   * wins; elsewhere the Z rate when it is at most `hybrid_aa`, else the
   * Z-ZDR rate.  The KDP-ZDR rate is never taken.
   */
  method RrHybrid(zh: MArray, zzdr: MArray, kdp: MArray, kzdr: MArray, aa: real, bb: real, cc: real)
    returns (r: Result<MArray>)
    ensures r.Ok? <==> SameShape4(zh, zzdr, kdp, kzdr)
    ensures r.Ok? ==> SameShape(r.value, zh) && r.value.fill == zh.fill
    ensures r.Ok? ==> forall i, j :: 0 <= i < |zh.rows| && 0 <= j < |zh.rows[i]| ==>
      r.value.rows[i][j] == HybridChoice(zh.rows[i][j], zzdr.rows[i][j], kdp.rows[i][j], aa, bb)
  {
    if !SameShape4(zh, zzdr, kdp, kzdr) {
      return Fail(IndexError);
    }
    var hybrid := MapGates(zh, ZeroValid);
    var maskAA := Compare(zh, aa, false);
    hybrid := Assign(hybrid, maskAA, zh);
    var maskBB := AndNot(Compare(zzdr, bb, false), maskAA);
    hybrid := Assign(hybrid, maskBB, zzdr);
    var maskCC := NandMask(maskAA, maskBB);
    maskCC := AndNot(Compare(zzdr, cc, false), maskCC);
    hybrid := Assign(hybrid, maskCC, kzdr);
    var maskEE := AndNot(Compare(zzdr, bb, true), maskCC);
    hybrid := Assign(hybrid, maskEE, kdp);
    r := Ok(hybrid);
  }

  /**
   * `mask_cc` is empty: it requires both `mask_aa` and `mask_bb`, and
   * `mask_bb` excludes `mask_aa`.
   */
  lemma HybridMaskCCEmpty(zh: MArray, zzdr: MArray, aa: real, bb: real, cc: real)
    requires SameShape(zh, zzdr)
    ensures forall i, j :: 0 <= i < |zh.rows| && 0 <= j < |zh.rows[i]| ==>
      !AndNot(Compare(zzdr, cc, false),
              NandMask(Compare(zh, aa, false),
                       AndNot(Compare(zzdr, bb, false), Compare(zh, aa, false))))[i][j]
  {
  }

  /**
   * The rule in the docstring of `rr_hybrid`: the Z rate up to
   * `hybrid_aa`, else the Z-ZDR rate up to `hybrid_bb`, else the KDP-ZDR
   * rate up to `hybrid_cc`, else the KDP rate.
   */
  function HybridIntendedChoice(zh: Gate, zzdr: Gate, kdp: Gate, kzdr: Gate, aa: real, bb: real, cc: real): (r: Gate)
    ensures zh.value <= aa ==> r == zh
    ensures zh.value > aa && zzdr.value <= bb ==> r == zzdr
    ensures zh.value > aa && bb < zzdr.value <= cc ==> r == kzdr
    ensures zh.value > aa && zzdr.value > bb && zzdr.value > cc ==> r == kdp
  {
    if zh.value <= aa then zh
    else if zzdr.value <= bb then zzdr
    else if zzdr.value <= cc then kzdr
    else kdp
  }

  /** The docstring's hybrid rate on whole fields. */
  function RrHybridIntended(zh: MArray, zzdr: MArray, kdp: MArray, kzdr: MArray, aa: real, bb: real, cc: real)
    : (r: Result<MArray>)
    ensures r.Ok? <==> SameShape4(zh, zzdr, kdp, kzdr)
    ensures r.Ok? ==> SameShape(r.value, zh) && r.value.fill == zh.fill
  {
    if !SameShape4(zh, zzdr, kdp, kzdr) then Fail(IndexError)
    else Ok(MArray(seq(|zh.rows|, i requires 0 <= i < |zh.rows| =>
                     seq(|zh.rows[i]|, j requires 0 <= j < |zh.rows[i]| =>
                       HybridIntendedChoice(zh.rows[i][j], zzdr.rows[i][j], kdp.rows[i][j], kzdr.rows[i][j],
                                            aa, bb, cc))),
                   zh.fill))
  }

  /**
   * Where the two rules meet: with the default thresholds, a Z rate of 5
   * and a Z-ZDR rate of 60 give the KDP rate as written but the Z rate
   * by the docstring; a Z rate of 20 with a Z-ZDR rate of 60 gives the
   * KDP rate as written and the KDP-ZDR rate by the docstring.
   */
  lemma HybridDiffersFromDocstring(kdp: Gate, kzdr: Gate)
    requires kdp != Gate(5.0, true) && kdp != kzdr
    ensures HybridChoice(Gate(5.0, true), Gate(60.0, true), kdp, 10.0, 50.0) == kdp
    ensures HybridIntendedChoice(Gate(5.0, true), Gate(60.0, true), kdp, kzdr, 10.0, 50.0, 100.0) == Gate(5.0, true)
    ensures HybridChoice(Gate(20.0, true), Gate(60.0, true), kdp, 10.0, 50.0) == kdp
    ensures HybridIntendedChoice(Gate(20.0, true), Gate(60.0, true), kdp, kzdr, 10.0, 50.0, 100.0) == kzdr
  {
  }

  /** Both rules agree wherever the Z-ZDR rate is at most `hybrid_bb`. */
  lemma HybridAgreesBelowBB(zh: Gate, zzdr: Gate, kdp: Gate, kzdr: Gate, aa: real, bb: real, cc: real)
    requires zzdr.value <= bb
    ensures HybridChoice(zh, zzdr, kdp, aa, bb) == HybridIntendedChoice(zh, zzdr, kdp, kzdr, aa, bb, cc)
  {
  }
}
