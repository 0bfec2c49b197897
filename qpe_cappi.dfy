/**
 * api/qpe_cappi.py: the dBZ thresholding of a CAPPI (`maskDBZthres`),
 * the rain rate and 5-minute accumulation computed on it (`computeQPE`),
 * the CAPPI of the QPE fields (`createCAPPIQPE`), and the whole step for
 * one time (`compute_cappi_qpe`): read, filter, attenuation correction,
 * clutter mask, CAPPI, threshold, rate.
 */
module QpeCappi {
  import opened Wrappers
  import opened PyBase
  import opened Gates
  import opened Radars
  import opened Utilities
  import opened RainRate
  import opened PrecipPolar
  import opened ApiConfig
  import opened CreateCappi
  import opened Filter
  import opened Pia
  import opened FieldPlan
  import opened Conditioning
  import opened ReadMdv
  import opened PolarReaders

  /** The 2-D arrays a CAPPI field holds: its levels, or its one plane. */
  function Arrays(c: CappiField): seq<MArray>
  {
    if c.Levels? then c.levels else [c.plane]
  }

  /**
   * A gate-wise operation on every array of a CAPPI field; the arrays get
   * the fill value `fill`, or keep theirs when it is None.
   */
  function MapCappi(c: CappiField, f: Gate -> Gate, fill: Option<real>): (r: CappiField)
    ensures r.Levels? == c.Levels? && |Arrays(r)| == |Arrays(c)|
    ensures forall k :: 0 <= k < |Arrays(c)| ==>
      SameShape(Arrays(r)[k], Arrays(c)[k]) &&
      Arrays(r)[k].fill == (if fill.Some? then fill.value else Arrays(c)[k].fill) &&
      forall i, j :: 0 <= i < |Arrays(c)[k].rows| && 0 <= j < |Arrays(c)[k].rows[i]| ==>
        Arrays(r)[k].rows[i][j] == f(Arrays(c)[k].rows[i][j])
  {
    match c
    case Plane(a) => Plane(MArray(MapGates(a, f).rows, if fill.Some? then fill.value else a.fill))
    case Levels(ls) =>
      Levels(seq(|ls|, k requires 0 <= k < |ls| => MArray(MapGates(ls[k], f).rows, if fill.Some? then fill.value else ls[k].fill)))
  }

  // ---------------------------------------------------------------
  // maskDBZthres
  // ---------------------------------------------------------------

  /** The placeholder `maskDBZthres` fills masked gates with. */
  const Missing: real := -999.0

  /**
   * One gate of `maskDBZthres`: masked gates and gates below `lo` become
   * -999, values above `hi` become `hi`, and the gates then at -999 are
   * masked.
   */
  function MaskDbzThresGate(g: Gate, lo: real, hi: real): (r: Gate)
    ensures r.value <= hi
    ensures g.valid && g.value >= lo ==> r.value == (if g.value > hi then hi else g.value)
    ensures hi > Missing ==> (r.valid <==> g.valid && g.value >= lo && g.value != Missing)
  {
    var v0 := if !g.valid || g.value < lo then Missing else g.value;
    var v1 := if v0 > hi then hi else v0;
    Gate(v1, v1 != Missing)
  }

  /**
   * `maskDBZthres(data, dbz_thres)`: only `data["DBZ_F"]` is replaced,
   * by a new masked array with numpy's default fill value.
   */
  function MaskDbzThres(data: map<string, CappiField>, thres: map<string, Value>): (r: Result<map<string, CappiField>>)
    ensures "DBZ_F" !in data ==> r == Fail(KeyError("DBZ_F"))
    ensures r.Ok? <==> "DBZ_F" in data && Threshold(thres, "min").Ok? && Threshold(thres, "max").Ok?
    ensures r.Ok? ==> r.value.Keys == data.Keys && forall f :: f in data && f != "DBZ_F" ==> r.value[f] == data[f]
    ensures r.Ok? ==>
      r.value["DBZ_F"] ==
        MapCappi(data["DBZ_F"], g => MaskDbzThresGate(g, Threshold(thres, "min").value, Threshold(thres, "max").value),
                 Some(DefaultFill))
  {
    if "DBZ_F" !in data then Fail(KeyError("DBZ_F"))
    else
      match Threshold(thres, "min")
      case Fail(e) => Fail(e)
      case Ok(lo) =>
        match Threshold(thres, "max")
        case Fail(e) => Fail(e)
        case Ok(hi) => Ok(data["DBZ_F" := MapCappi(data["DBZ_F"], g => MaskDbzThresGate(g, lo, hi), Some(DefaultFill))])
  }

  /**
   * With a maximum above -999, a thresholded dBZ gate is valid exactly
   * when the input gate was valid, at least the minimum and not -999, and
   * then it holds the input clipped at the maximum.
   */
  lemma MaskDbzThresBounds(data: map<string, CappiField>, thres: map<string, Value>, k: nat, i: nat, j: nat)
    requires MaskDbzThres(data, thres).Ok?
    requires Threshold(thres, "max").value > Missing
    requires k < |Arrays(data["DBZ_F"])| && i < |Arrays(data["DBZ_F"])[k].rows| && j < |Arrays(data["DBZ_F"])[k].rows[i]|
    ensures var lo := Threshold(thres, "min").value;
      var hi := Threshold(thres, "max").value;
      var g := Arrays(data["DBZ_F"])[k].rows[i][j];
      var r := Arrays(MaskDbzThres(data, thres).value["DBZ_F"])[k].rows[i][j];
      (r.valid <==> g.valid && g.value >= lo && g.value != Missing) &&
      (r.valid ==> lo <= g.value && r.value <= hi && r.value == (if g.value > hi then hi else g.value))
  {
  }

  // ---------------------------------------------------------------
  // computeQPE
  // ---------------------------------------------------------------

  /** The rate methods `computeQPE` knows. */
  predicate IsQpeMethod(m: string)
  {
    m in {"RATE_Z", "RATE_ZPOLY", "RATE_Z_ZDR", "RATE_KDP", "RATE_KDP_ZDR"}
  }

  /** The methods on reflectivity, for which the attenuation correction and the dBZ threshold run. */
  predicate IsZMethod(m: string)
  {
    m in {"RATE_Z", "RATE_ZPOLY", "RATE_Z_ZDR"}
  }

  /** The `data` entries a method passes positionally, in order. */
  function InputNames(m: string): seq<string>
  {
    if m in {"RATE_Z", "RATE_ZPOLY"} then ["DBZ_F"]
    else if m == "RATE_Z_ZDR" then ["DBZ_F", "ZDR_F"]
    else if m == "RATE_KDP" then ["KDP_F"]
    else if m == "RATE_KDP_ZDR" then ["KDP_F", "ZDR_F"]
    else []
  }

  /** `[data[n] for n in names]`: KeyError on the first name `data` lacks. */
  function Inputs(data: map<string, CappiField>, names: seq<string>): (r: Result<seq<CappiField>>)
    ensures r.Ok? <==> forall n :: n in names ==> n in data
    ensures r.Ok? ==> |r.value| == |names| && forall i :: 0 <= i < |names| ==> r.value[i] == data[names[i]]
    ensures r.Fail? ==> exists i :: 0 <= i < |names| && names[i] !in data && r.err == KeyError(names[i]) &&
                                  (forall j :: 0 <= j < i ==> names[j] in data)
  {
    if names == [] then Ok([])
    else if names[0] !in data then Fail(KeyError(names[0]))
    else
      match Inputs(data, names[1..])
      case Fail(e) =>
        var i :| 0 <= i < |names[1..]| && names[1..][i] !in data && e == KeyError(names[1..][i]) &&
                 (forall j :: 0 <= j < i ==> names[1..][j] in data);
        assert forall j :: 0 <= j < i + 1 ==> names[j] in data by {
          forall j | 0 <= j < i + 1 ensures names[j] in data {
            if j > 0 { assert names[j] == names[1..][j - 1]; }
          }
        }
        Fail(e)
      case Ok(rest) => Ok([data[names[0]]] + rest)
  }

  /** A rate relation with its coefficients bound. */
  datatype Relation =
    | Zh(alpha: real, beta: real, inv: bool)
    | Zpoly
    | ZZdr(alpha: real, betaZh: real, betaZdr: real)
    | Kdp(alpha: real, beta: real)
    | KdpZdr(alpha: real, betaKdp: real, betaZdr: real)

  /** The parameter list of the `rain_rate` function a method calls, and how many are positional. */
  function Params(m: string): (p: (seq<string>, nat))
    ensures p.1 <= |p.0|
  {
    if m == "RATE_Z" then (["dbz", "alpha", "beta", "invCoef"], 1)
    else if m == "RATE_ZPOLY" then (["dbz"], 1)
    else if m == "RATE_Z_ZDR" then (["dbz", "zdr", "alpha", "beta_zh", "beta_zdr"], 2)
    else if m == "RATE_KDP" then (["kdp", "alpha", "beta"], 1)
    else (["kdp", "zdr", "alpha", "beta_kdp", "beta_zdr"], 2)
  }

  /** The defaults in the signature of the `rain_rate` function a method calls. */
  function Defaults(m: string): map<string, Value>
  {
    if m == "RATE_Z" then ZhDefaults
    else if m == "RATE_ZPOLY" then map[]
    else if m == "RATE_Z_ZDR" then ZZdrDefaults
    else if m == "RATE_KDP" then KdpDefaults
    else KdpZdrDefaults
  }

  /** `rr_zh` raises ZeroDivisionError on `1.0 / beta` unless `invCoef` is set. */
  predicate WellFormed(rel: Relation)
  {
    rel.Zh? ==> rel.inv || rel.beta != 0.0
  }

  /** The coefficients `alpha` and `second` of a bound call, in that order. */
  function TwoCoefs(b: map<string, Value>, second: string): Result<(real, real)>
  {
    match Coef(b, "alpha")
    case Fail(e) => Fail(e)
    case Ok(alpha) =>
      match Coef(b, second)
      case Fail(e) => Fail(e)
      case Ok(c) => Ok((alpha, c))
  }

  /**
   * The relation of a method from its bound arguments: a coefficient that
   * is not a number raises TypeError, and `rr_zh` with a zero `beta` and
   * `invCoef` false raises ZeroDivisionError.
   */
  function BoundRelation(m: string, b: map<string, Value>): (r: Result<Relation>)
    requires IsQpeMethod(m)
    ensures r.Ok? ==> WellFormed(r.value)
    ensures r.Ok? ==>
      (m == "RATE_Z" <==> r.value.Zh?) && (m == "RATE_ZPOLY" <==> r.value.Zpoly?) &&
      (m == "RATE_Z_ZDR" <==> r.value.ZZdr?) && (m == "RATE_KDP" <==> r.value.Kdp?) &&
      (m == "RATE_KDP_ZDR" <==> r.value.KdpZdr?)
    ensures m == "RATE_ZPOLY" ==> r == Ok(Zpoly)
  {
    if m == "RATE_ZPOLY" then Ok(Zpoly)
    else if m == "RATE_Z" then
      match TwoCoefs(b, "beta")
      case Fail(e) => Fail(e)
      case Ok(c) =>
        var inv := "invCoef" in b && Truthy(b["invCoef"]);
        if !inv && c.1 == 0.0 then Fail(ZeroDivisionError) else Ok(Zh(c.0, c.1, inv))
    else if m == "RATE_KDP" then
      match TwoCoefs(b, "beta")
      case Fail(e) => Fail(e)
      case Ok(c) => Ok(Kdp(c.0, c.1))
    else
      match TwoCoefs(b, if m == "RATE_Z_ZDR" then "beta_zh" else "beta_kdp")
      case Fail(e) => Fail(e)
      case Ok(c) =>
        match Coef(b, "beta_zdr")
        case Fail(e) => Fail(e)
        case Ok(bz) => if m == "RATE_Z_ZDR" then Ok(ZZdr(c.0, c.1, bz)) else Ok(KdpZdr(c.0, c.1, bz))
  }

  /**
   * Binding `**kwargs` to the method's `rain_rate` function: an unknown
   * keyword raises TypeError, a missing one takes the signature's default.
   */
  function RelationOf(m: string, kw: map<string, Value>): (r: Result<Relation>)
    requires IsQpeMethod(m)
    ensures r.Ok? ==> WellFormed(r.value) && BindKeywords(Params(m).0, Params(m).1, Defaults(m), kw).Ok?
    ensures r.Ok? ==> forall k :: k in kw ==> k in Params(m).0[Params(m).1..]
    ensures r.Ok? ==>
      (m == "RATE_Z" <==> r.value.Zh?) && (m == "RATE_ZPOLY" <==> r.value.Zpoly?) &&
      (m == "RATE_Z_ZDR" <==> r.value.ZZdr?) && (m == "RATE_KDP" <==> r.value.Kdp?) &&
      (m == "RATE_KDP_ZDR" <==> r.value.KdpZdr?)
    ensures m == "RATE_ZPOLY" ==> (r.Ok? <==> kw == map[])
  {
    match BindKeywords(Params(m).0, Params(m).1, Defaults(m), kw)
    case Fail(e) => Fail(e)
    case Ok(b) =>
      assert m == "RATE_ZPOLY" ==> Params(m).0[Params(m).1..] == [];
      BoundRelation(m, b)
  }

  /** The relations on two fields need them to have one shape. */
  predicate Compatible(rel: Relation, a: MArray, b: MArray)
  {
    (rel.ZZdr? || rel.KdpZdr?) ==> SameShape(a, b)
  }

  /**
   * The relation on one array (and the second one for the two-field
   * relations): `rr_kdp` and `rr_kdp_zdr` first set negative KDP values
   * to 0.
   */
  function RateArray(pw: (real, real) -> real, rel: Relation, a: MArray, b: MArray): (r: MArray)
    requires WellFormed(rel) && Compatible(rel, a, b)
    ensures SameShape(r, a) && r.fill == a.fill
  {
    match rel
    case Zh(alpha, beta, inv) => RrZh(pw, a, alpha, beta, inv).value
    case Zpoly => RrZpoly(pw, a)
    case ZZdr(alpha, bzh, bzdr) => RrZZdr(pw, a, b, alpha, bzh, bzdr).value
    case Kdp(alpha, beta) => KdpRate(pw, MapGates(a, ClampNegative), alpha, beta)
    case KdpZdr(alpha, bk, bz) =>
      var c := MapGates(a, ClampNegative);
      assert SameShape(c, b);
      KdpZdrRate(pw, c, b, alpha, bk, bz)
  }

  /**
   * The relation on CAPPI fields, level by level; arrays numpy cannot
   * broadcast together raise ValueError.
   */
  function RateField(pw: (real, real) -> real, rel: Relation, a: CappiField, b: CappiField): (r: Result<CappiField>)
    requires WellFormed(rel)
    ensures r.Ok? ==> r.value.Levels? == a.Levels? && |Arrays(r.value)| == |Arrays(a)|
    ensures r.Ok? ==> forall k :: 0 <= k < |Arrays(a)| ==>
      k < |Arrays(b)| && Compatible(rel, Arrays(a)[k], Arrays(b)[k]) &&
      Arrays(r.value)[k] == RateArray(pw, rel, Arrays(a)[k], Arrays(b)[k])
    ensures !(rel.ZZdr? || rel.KdpZdr?) && a == b ==> r.Ok?
  {
    if a.Plane? && b.Plane? && Compatible(rel, a.plane, b.plane) then
      assert Arrays(a) == [a.plane] && Arrays(b) == [b.plane];
      Ok(Plane(RateArray(pw, rel, a.plane, b.plane)))
    else if a.Levels? && b.Levels? && |a.levels| == |b.levels| &&
            forall k :: 0 <= k < |a.levels| ==> Compatible(rel, a.levels[k], b.levels[k]) then
      var out := seq(|a.levels|, k requires 0 <= k < |a.levels| => RateArray(pw, rel, a.levels[k], b.levels[k]));
      assert Arrays(a) == a.levels && Arrays(b) == b.levels && Arrays(Levels(out)) == out;
      Ok(Levels(out))
    else Fail(ValueError)
  }

  /** The relations on reflectivity mask the rate wherever the dBZ gate is masked. */
  lemma RateArrayMaskedWithDbz(pw: (real, real) -> real, rel: Relation, a: MArray, b: MArray, i: nat, j: nat)
    requires WellFormed(rel) && Compatible(rel, a, b) && (rel.Zh? || rel.Zpoly? || rel.ZZdr?)
    requires i < |a.rows| && j < |a.rows[i]| && !a.rows[i][j].valid
    ensures !RateArray(pw, rel, a, b).rows[i][j].valid
  {
    match rel
    case Zh(alpha, beta, inv) =>
      assert RateArray(pw, rel, a, b).rows[i][j] == RrZhGate(pw, a.rows[i][j], alpha, beta, inv);
    case Zpoly =>
    case ZZdr(alpha, bzh, bzdr) =>
      assert RateArray(pw, rel, a, b).rows[i][j] == RrZZdrGate(pw, a.rows[i][j], b.rows[i][j], alpha, bzh, bzdr);
  }

  /** `precip_rate * 300.0 / 3600.0`: the accumulation over 5 minutes of a rate in mm/hr. */
  function AccumGate(g: Gate): (r: Gate)
    ensures r.valid == g.valid
    ensures r.valid ==> r.value == g.value * 300.0 / 3600.0 && r.value == g.value / 12.0
  {
    DivGate(ScaleGate(g, 300.0), 3600.0)
  }

  /** One output variable of `computeQPE`. */
  datatype QpeVar = QpeVar(name: string, longName: string, unit: string, data: CappiField)

  /** The `qpe` dictionary: the rate and the accumulation. */
  datatype Qpe = Qpe(rate: QpeVar, precip: QpeVar)

  /**
   * The `qpe` dictionary of a rate field: the accumulation is the rate
   * times 300/3600 at every gate, masked where the rate is.
   */
  function QpeOf(rate: CappiField): (q: Qpe)
    ensures q.rate == QpeVar("rate", "Precipitation rate", "mm/hr", rate)
    ensures q.precip.name == "precip" && q.precip.longName == "Precipitation accumulation" && q.precip.unit == "mm"
    ensures |Arrays(q.precip.data)| == |Arrays(rate)|
    ensures forall k :: 0 <= k < |Arrays(rate)| ==>
      SameShape(Arrays(q.precip.data)[k], Arrays(rate)[k]) &&
      forall i, j :: 0 <= i < |Arrays(rate)[k].rows| && 0 <= j < |Arrays(rate)[k].rows[i]| ==>
        var g := Arrays(rate)[k].rows[i][j];
        var p := Arrays(q.precip.data)[k].rows[i][j];
        p.valid == g.valid && (p.valid ==> p.value == g.value * 300.0 / 3600.0)
  {
    Qpe(QpeVar("rate", "Precipitation rate", "mm/hr", rate),
        QpeVar("precip", "Precipitation accumulation", "mm", MapCappi(rate, AccumGate, None)))
  }

  /** The `kwargs` `computeQPE` passes: `{}` for `RATE_ZPOLY` (set into the settings), else `pars_qpe["pars"]`. */
  function QpeKwargs(v: MethodView): Option<map<string, Value>>
  {
    if v.methodName == "RATE_ZPOLY" then Some(map[]) else v.pars
  }

  /**
   * `computeQPE(data, pars_qpe)` on a snapshot of the settings: an
   * unknown method leaves `fun` unbound; otherwise the method's fields are
   * looked up, the relation is called through `do_call` with `pars` as
   * keywords, and the accumulation is derived from the rate.  No 0.1
   * mm/hr cut and no 600 mm/hr cap is applied.
   */
  function ComputeQpeSpec(pw: (real, real) -> real, data: map<string, CappiField>, v: MethodView): (r: Result<Qpe>)
    ensures !IsQpeMethod(v.methodName) ==> r == Fail(UnboundLocalError("fun"))
    ensures IsQpeMethod(v.methodName) && Inputs(data, InputNames(v.methodName)).Fail? ==>
      r == Fail(Inputs(data, InputNames(v.methodName)).err)
    ensures r.Ok? ==> r.value == QpeOf(r.value.rate.data)
    ensures r.Ok? ==> r.value.rate.data.Levels? == data[InputNames(v.methodName)[0]].Levels?
  {
    if !IsQpeMethod(v.methodName) then Fail(UnboundLocalError("fun"))
    else
      match Inputs(data, InputNames(v.methodName))
      case Fail(e) => Fail(e)
      case Ok(ins) =>
        var call := DoCall(Some(ins), QpeKwargs(v)).value;
        match RelationOf(v.methodName, call.kwargs)
        case Fail(e) => Fail(e)
        case Ok(rel) =>
          match RateField(pw, rel, call.args[0], call.args[|call.args| - 1])
          case Fail(e) => Fail(e)
          case Ok(rate) => Ok(QpeOf(rate))
  }

  /** The first input of a method on reflectivity is DBZ_F. */
  lemma ZMethodRateFromDbz(pw: (real, real) -> real, data: map<string, CappiField>, v: MethodView)
    requires IsZMethod(v.methodName) && ComputeQpeSpec(pw, data, v).Ok?
    ensures "DBZ_F" in data
    ensures var rate := ComputeQpeSpec(pw, data, v).value.rate.data;
      |Arrays(rate)| == |Arrays(data["DBZ_F"])| &&
      (forall k :: 0 <= k < |Arrays(rate)| ==> SameShape(Arrays(rate)[k], Arrays(data["DBZ_F"])[k])) &&
      forall k, i, j :: 0 <= k < |Arrays(rate)| && 0 <= i < |Arrays(data["DBZ_F"])[k].rows| &&
                        0 <= j < |Arrays(data["DBZ_F"])[k].rows[i]| && !Arrays(data["DBZ_F"])[k].rows[i][j].valid ==>
        !Arrays(rate)[k].rows[i][j].valid
  {
    var ins := Inputs(data, InputNames(v.methodName)).value;
    var call := DoCall(Some(ins), QpeKwargs(v)).value;
    var rel := RelationOf(v.methodName, call.kwargs).value;
    var a := call.args[0];
    var b := call.args[|call.args| - 1];
    var rate := RateField(pw, rel, a, b).value;
    assert a == data["DBZ_F"];
    assert ComputeQpeSpec(pw, data, v).value.rate.data == rate;
    forall k | 0 <= k < |Arrays(rate)| ensures SameShape(Arrays(rate)[k], Arrays(a)[k]) {
      assert Arrays(rate)[k] == RateArray(pw, rel, Arrays(a)[k], Arrays(b)[k]);
    }
    forall k, i, j | 0 <= k < |Arrays(rate)| && 0 <= i < |Arrays(a)[k].rows| && 0 <= j < |Arrays(a)[k].rows[i]| &&
                     !Arrays(a)[k].rows[i][j].valid
      ensures !Arrays(rate)[k].rows[i][j].valid
    {
      RateArrayMaskedWithDbz(pw, rel, Arrays(a)[k], Arrays(b)[k], i, j);
    }
  }

  /**
   * For the methods on reflectivity, a rate gate is valid only where the
   * CAPPI dBZ gate was valid, at least the `dbz_thres` minimum and not
   * the -999 placeholder.
   */
  lemma ZRateOnlyAboveThreshold(fields: map<string, Field>, st: QpeSettings, g: Gridder, pw: (real, real) -> real,
                                k: nat, i: nat, j: nat)
    requires IsZMethod(st.qpe.methodName) && ProductStage(fields, st, g, pw).Ok?
    requires Threshold(st.dbzThres, "max").Ok? && Threshold(st.dbzThres, "max").value > Missing
    ensures CappiStage(g, fields, st.cappi).Ok? && "DBZ_F" in CappiStage(g, fields, st.cappi).value.data
    ensures var dbz := Arrays(CappiStage(g, fields, st.cappi).value.data["DBZ_F"]);
      var rate := Arrays(ProductStage(fields, st, g, pw).value.qpe.rate.data);
      |rate| == |dbz| && (k < |rate| ==> SameShape(rate[k], dbz[k])) &&
      (k < |rate| && i < |rate[k].rows| && j < |rate[k].rows[i]| && rate[k].rows[i][j].valid ==>
        dbz[k].rows[i][j].valid && dbz[k].rows[i][j].value >= Threshold(st.dbzThres, "min").value &&
        dbz[k].rows[i][j].value != Missing)
  {
    var cappi := CappiStage(g, fields, st.cappi).value;
    var data := MaskDbzThres(cappi.data, st.dbzThres).value;
    assert ThresholdStage(cappi.data, st) == Ok(data);
    var q := ComputeQpeSpec(pw, data, st.qpe).value;
    assert ProductStage(fields, st, g, pw).value.qpe == q;
    ZMethodRateFromDbz(pw, data, st.qpe);
    var dbz := Arrays(cappi.data["DBZ_F"]);
    if k < |dbz| {
      assert SameShape(Arrays(data["DBZ_F"])[k], dbz[k]);
      if i < |dbz[k].rows| && j < |dbz[k].rows[i]| {
        assert Arrays(data["DBZ_F"])[k].rows[i][j] ==
          MaskDbzThresGate(dbz[k].rows[i][j], Threshold(st.dbzThres, "min").value, Threshold(st.dbzThres, "max").value);
      }
    }
  }

  /** `RATE_ZPOLY` ignores whatever `pars` the settings hold. */
  lemma ZpolyIgnoresPars(pw: (real, real) -> real, data: map<string, CappiField>, p1: Option<map<string, Value>>,
                         p2: Option<map<string, Value>>)
    ensures ComputeQpeSpec(pw, data, MethodView("RATE_ZPOLY", p1)) == ComputeQpeSpec(pw, data, MethodView("RATE_ZPOLY", p2))
  {
  }

  /** `ComputeQpeSpec` once the lookups, the binding and the relation have succeeded. */
  lemma ComputeQpeSpecOk(pw: (real, real) -> real, data: map<string, CappiField>, v: MethodView,
                         ins: seq<CappiField>, kw: map<string, Value>, rel: Relation, rate: CappiField)
    requires IsQpeMethod(v.methodName)
    requires Inputs(data, InputNames(v.methodName)) == Ok(ins)
    requires DoCall(Some(ins), QpeKwargs(v)) == Ok(Call(ins, kw))
    requires RelationOf(v.methodName, kw) == Ok(rel)
    requires |ins| > 0 && RateField(pw, rel, ins[0], ins[|ins| - 1]) == Ok(rate)
    ensures ComputeQpeSpec(pw, data, v) == Ok(QpeOf(rate))
  {
  }

  lemma ZhDefaultsBound()
    ensures var b := BindKeywords(["dbz", "alpha", "beta", "invCoef"], 1, ZhDefaults, map[]);
      b.Ok? && TwoCoefs(b.value, "beta") == Ok((0.017, 0.714)) && "invCoef" in b.value && Truthy(b.value["invCoef"])
  {
    var b := BindKeywords(["dbz", "alpha", "beta", "invCoef"], 1, ZhDefaults, map[]);
    assert ["dbz", "alpha", "beta", "invCoef"][1..] == ["alpha", "beta", "invCoef"];
    assert b.Ok? && b.value["alpha"] == VReal(0.017) && b.value["beta"] == VReal(0.714) && b.value["invCoef"] == VBool(true);
  }

  lemma ZhDefaultRelation()
    ensures RelationOf("RATE_Z", map[]) == Ok(Zh(0.017, 0.714, true))
  {
    ZhDefaultsBound();
  }

  lemma ZZdrBound(alpha: real, bzh: real, bzdr: real)
    ensures var b := BindKeywords(["dbz", "zdr", "alpha", "beta_zh", "beta_zdr"], 2, ZZdrDefaults,
                                  map["alpha" := VReal(alpha), "beta_zh" := VReal(bzh), "beta_zdr" := VReal(bzdr)]);
      b.Ok? && "alpha" in b.value && "beta_zh" in b.value && "beta_zdr" in b.value &&
      b.value["alpha"] == VReal(alpha) && b.value["beta_zh"] == VReal(bzh) && b.value["beta_zdr"] == VReal(bzdr)
  {
    assert ["dbz", "zdr", "alpha", "beta_zh", "beta_zdr"][2..] == ["alpha", "beta_zh", "beta_zdr"];
  }

  lemma ZZdrRelation(alpha: real, bzh: real, bzdr: real)
    ensures RelationOf("RATE_Z_ZDR", map["alpha" := VReal(alpha), "beta_zh" := VReal(bzh), "beta_zdr" := VReal(bzdr)]) ==
      Ok(ZZdr(alpha, bzh, bzdr))
  {
    var kw := map["alpha" := VReal(alpha), "beta_zh" := VReal(bzh), "beta_zdr" := VReal(bzdr)];
    var b := BindKeywords(["dbz", "zdr", "alpha", "beta_zh", "beta_zdr"], 2, ZZdrDefaults, kw);
    ZZdrBound(alpha, bzh, bzdr);
    assert TwoCoefs(b.value, "beta_zh") == Ok((alpha, bzh)) && Coef(b.value, "beta_zdr") == Ok(bzdr);
    assert BoundRelation("RATE_Z_ZDR", b.value) == Ok(ZZdr(alpha, bzh, bzdr));
  }

  /**
   * With `pars` None, `do_call` passes no keywords and `rr_zh` uses its
   * own defaults 0.017, 0.714 and `invCoef` true, not the front end's
   * 300 and 1.4.
   */
  lemma ZhWithoutParsUsesSignatureDefaults(pw: (real, real) -> real, dbz: MArray)
    ensures ComputeQpeSpec(pw, map["DBZ_F" := Plane(dbz)], MethodView("RATE_Z", None)) ==
      Ok(QpeOf(Plane(RrZh(pw, dbz, 0.017, 0.714, true).value)))
  {
    var data := map["DBZ_F" := Plane(dbz)];
    var ins := Inputs(data, ["DBZ_F"]);
    assert ins.Ok? && ins.value == [Plane(dbz)];
    ZhDefaultRelation();
    var rel := Zh(0.017, 0.714, true);
    assert RateField(pw, rel, Plane(dbz), Plane(dbz)) == Ok(Plane(RrZh(pw, dbz, 0.017, 0.714, true).value)) by {
      assert Arrays(Plane(dbz)) == [dbz];
    }
    ComputeQpeSpecOk(pw, data, MethodView("RATE_Z", None), [Plane(dbz)], map[], rel,
                     Plane(RrZh(pw, dbz, 0.017, 0.714, true).value));
  }

  /**
   * The Z-ZDR rate of `computeQPE` is the bare relation: unlike
   * `rate_z_zdr` of qpe/precip_polar.py, nothing caps it at 600 mm/hr.
   */
  lemma ZZdrRateNotCapped(pw: (real, real) -> real, dbz: MArray, zdr: MArray, alpha: real, bzh: real, bzdr: real)
    requires SameShape(dbz, zdr)
    ensures var v := MethodView("RATE_Z_ZDR", Some(map["alpha" := VReal(alpha), "beta_zh" := VReal(bzh), "beta_zdr" := VReal(bzdr)]));
      ComputeQpeSpec(pw, map["DBZ_F" := Plane(dbz), "ZDR_F" := Plane(zdr)], v) ==
        Ok(QpeOf(Plane(RrZZdr(pw, dbz, zdr, alpha, bzh, bzdr).value)))
  {
    var kw := map["alpha" := VReal(alpha), "beta_zh" := VReal(bzh), "beta_zdr" := VReal(bzdr)];
    var data := map["DBZ_F" := Plane(dbz), "ZDR_F" := Plane(zdr)];
    var ins := Inputs(data, ["DBZ_F", "ZDR_F"]);
    assert ins.Ok? && ins.value == [Plane(dbz), Plane(zdr)];
    var rel := ZZdr(alpha, bzh, bzdr);
    ZZdrRelation(alpha, bzh, bzdr);
    assert RateField(pw, rel, Plane(dbz), Plane(zdr)) == Ok(Plane(RrZZdr(pw, dbz, zdr, alpha, bzh, bzdr).value)) by {
      assert Arrays(Plane(dbz)) == [dbz];
    }
    ComputeQpeSpecOk(pw, data, MethodView("RATE_Z_ZDR", Some(kw)), [Plane(dbz), Plane(zdr)], kw, rel,
                     Plane(RrZZdr(pw, dbz, zdr, alpha, bzh, bzdr).value));
  }

  /**
   * `computeQPE(data, pars_qpe)`: for `RATE_ZPOLY` the settings' `pars`
   * is replaced by a new empty dictionary once the dBZ lookup succeeded;
   * no other setting changes.
   */
  method ComputeQPE(pw: (real, real) -> real, data: map<string, CappiField>, p: MethodPars) returns (r: Result<Qpe>)
    modifies p
    ensures r == ComputeQpeSpec(pw, data, old(ViewOf(p)).value)
    ensures p.methodName == old(p.methodName)
    ensures old(p.methodName) == "RATE_ZPOLY" && "DBZ_F" in data ==> p.pars != null && fresh(p.pars) && p.pars.entries == map[]
    ensures !(old(p.methodName) == "RATE_ZPOLY" && "DBZ_F" in data) ==> p.pars == old(p.pars)
  {
    ghost var v := ViewOf(p).value;
    ghost var spec := ComputeQpeSpec(pw, data, v);
    assert v.methodName == p.methodName;
    if !IsQpeMethod(p.methodName) {
      return Fail(UnboundLocalError("fun"));
    }
    var ins := Inputs(data, InputNames(p.methodName));
    if ins.Fail? {
      return Fail(ins.err);
    }
    if p.methodName == "RATE_ZPOLY" {
      p.pars := new ArgDict(map[]);
    }
    var kwargs: Option<map<string, Value>> := if p.pars == null then None else Some(p.pars.entries);
    assert kwargs == QpeKwargs(v);
    var call := DoCall(Some(ins.value), kwargs).value;
    assert Inputs(data, InputNames(v.methodName)) == ins && call == DoCall(Some(ins.value), QpeKwargs(v)).value;
    var rel := RelationOf(p.methodName, call.kwargs);
    if rel.Fail? {
      assert spec == Fail(rel.err);
      return Fail(rel.err);
    }
    var rate := RateField(pw, rel.value, call.args[0], call.args[|call.args| - 1]);
    assert spec == if rate.Fail? then Fail(rate.err) else Ok(QpeOf(rate.value));
    if rate.Fail? {
      return Fail(rate.err);
    }
    r := Ok(QpeOf(rate.value));
  }

  // ---------------------------------------------------------------
  // createCAPPIQPE
  // ---------------------------------------------------------------

  /**
   * The QPE fields a radar has, in the order DBZ_F, ZDR_F, KDP_F; the
   * source takes them from a set, whose order is not specified.
   */
  function PresentQpeFields(keys: set<string>): (r: seq<string>)
    ensures Enumerates(r, QpeTargets(keys))
  {
    (if "DBZ_F" in keys then ["DBZ_F"] else []) + (if "ZDR_F" in keys then ["ZDR_F"] else []) +
    (if "KDP_F" in keys then ["KDP_F"] else [])
  }

  /**
   * The CAPPI parameter `createCAPPIQPE` passes: the whole `pars` for
   * `composite_altitude`, otherwise `pars["alt"]` (TypeError when `pars`
   * is None, KeyError when it has no `alt`).
   */
  function CappiParamOf(v: MethodView): (r: Result<CappiParam>)
    ensures v.methodName == "composite_altitude" ==> r.Ok?
    ensures v.methodName != "composite_altitude" ==>
      (r.Ok? <==> v.pars.Some? && "alt" in v.pars.value) && (r.Ok? ==> r.value == Alt(v.pars.value["alt"]))
  {
    if v.methodName == "composite_altitude" then Ok(if v.pars.Some? then Pars(v.pars.value) else Alt(VNone))
    else if v.pars.None? then Fail(TypeError)
    else if "alt" !in v.pars.value then Fail(KeyError("alt"))
    else Ok(Alt(v.pars.value["alt"]))
  }

  /**
   * `createCAPPIQPE(radar, pars_cappi)`: the CAPPI holds exactly the QPE
   * fields the radar has.
   */
  function CappiStage(g: Gridder, fields: map<string, Field>, v: MethodView): (r: Result<Cappi>)
    ensures r.Ok? ==> r.value.data.Keys == QpeTargets(fields.Keys)
    ensures CappiParamOf(v).Fail? ==> r == Fail(CappiParamOf(v).err)
  {
    match CappiParamOf(v)
    case Fail(e) => Fail(e)
    case Ok(param) => CreateCappiGrid(g, fields, PresentQpeFields(fields.Keys), v.methodName, param)
  }

  // ---------------------------------------------------------------
  // compute_cappi_qpe
  // ---------------------------------------------------------------

  /** The settings `compute_cappi_qpe` reads from `pars`, at one moment. */
  datatype QpeSettings = QpeSettings(qpe: MethodView, cappi: MethodView, pia: Option<MethodView>,
                                     filter: Option<MethodView>, applyCmd: bool, dbzThres: map<string, Value>)

  /** The result of `compute_cappi_qpe` for a time with data: the grid and the `qpe` dictionary. */
  datatype QpeOut = QpeOut(grid: GridSpec, qpe: Qpe)

  /** One call: the result (None for `{}`) and the settings it leaves behind. */
  datatype QpeStep = QpeStep(out: Option<QpeOut>, after: QpeSettings)

  /** The fields a step produced and the settings it left. */
  datatype Staged = Staged(fields: map<string, Field>, settings: QpeSettings)

  /**
   * `applyFilterQPE` when `pars["filter"]` is set: the QPE fields are
   * filtered and the censoring filter's `censor_field` gets its suffix.
   */
  function FilterStage(x: Staged, k: Kernels): (r: Result<Staged>)
    ensures x.settings.filter.None? ==> r == Ok(x)
    ensures r.Ok? ==> r.value.fields.Keys == x.fields.Keys
    ensures r.Ok? ==> forall f :: f in x.fields && f !in QpeFields ==> r.value.fields[f] == x.fields[f]
    ensures r.Ok? ==> r.value.settings == x.settings.(filter := r.value.settings.filter)
  {
    match x.settings.filter
    case None => Ok(x)
    case Some(v) =>
      var o := FilterToSpec(x.fields, v, PresentQpeFields(x.fields.Keys), k);
      if o.err.Some? then Fail(o.err.value)
      else
        match SuffixedPars(v)
        case Fail(e) => Fail(e)
        case Ok(pars) => Ok(Staged(o.fields, x.settings.(filter := Some(MethodView(v.methodName, pars)))))
  }

  /**
   * `correctAttenuationQPE` when `pars["pia"]` is set and the method is
   * one on reflectivity: only DBZ_F changes.
   */
  function PiaStage(x: Staged, gateSpacing: real, s: Solvers): (r: Result<Staged>)
    ensures x.settings.pia.None? || !IsZMethod(x.settings.qpe.methodName) ==> r == Ok(x)
    ensures r.Ok? ==> r.value.fields.Keys == x.fields.Keys
    ensures r.Ok? ==> forall f :: f in x.fields && f != "DBZ_F" ==> r.value.fields[f] == x.fields[f]
    ensures r.Ok? ==> r.value.settings == x.settings.(pia := r.value.settings.pia)
  {
    match x.settings.pia
    case None => Ok(x)
    case Some(v) =>
      if !IsZMethod(x.settings.qpe.methodName) then Ok(x)
      else if v.pars.None? then Fail(TypeError)
      else
        var run := CorrectEach(x.fields, gateSpacing, v.methodName, v.pars.value, ["DBZ_F"], s);
        if run.err.Some? then Fail(run.err.value)
        else Ok(Staged(run.fields, x.settings.(pia := Some(MethodView(v.methodName, Some(run.pars))))))
  }

  /** `applyCMDQPE` when `pars["apply_cmd"]` is set: the present QPE fields are masked where CMD_FLAG is 1. */
  function CmdStage(x: Staged): (r: Result<Staged>)
    ensures !x.settings.applyCmd ==> r == Ok(x)
    ensures x.settings.applyCmd && "CMD_FLAG" !in x.fields ==> r == Fail(KeyError("CMD_FLAG"))
    ensures r.Ok? ==> r.value.fields.Keys == x.fields.Keys && r.value.settings == x.settings
    ensures r.Ok? ==> forall f :: f in x.fields && f !in QpeFields ==> r.value.fields[f] == x.fields[f]
  {
    if !x.settings.applyCmd then Ok(x)
    else
      var o := CmdToSpec(x.fields, PresentQpeFields(x.fields.Keys));
      if o.err.Some? then Fail(o.err.value)
      else
        assert forall f :: f in x.fields && f !in QpeFields ==> f !in PresentQpeFields(x.fields.Keys);
        Ok(Staged(o.fields, x.settings))
  }

  /** The three conditioning steps, in the order filter, PIA, clutter mask. */
  function Condition(x: Staged, gateSpacing: real, e: Engines): (r: Result<Staged>)
    ensures r.Ok? ==> r.value.fields.Keys == x.fields.Keys
    ensures r.Ok? ==> forall f :: f in x.fields && f !in QpeFields ==> r.value.fields[f] == x.fields[f]
    ensures r.Ok? ==> r.value.settings.qpe == x.settings.qpe && r.value.settings.cappi == x.settings.cappi
  {
    match FilterPiaStage(x, gateSpacing, e)
    case Fail(err) => Fail(err)
    case Ok(x2) => CmdStage(x2)
  }

  /** The filter, then the attenuation correction: the first two conditioning steps. */
  function FilterPiaStage(x: Staged, gateSpacing: real, e: Engines): Result<Staged>
  {
    match FilterStage(x, e.k)
    case Fail(err) => Fail(err)
    case Ok(x1) => PiaStage(x1, gateSpacing, e.s)
  }

  /** `maskDBZthres` for the methods on reflectivity; the others use the CAPPI as it is. */
  function ThresholdStage(data: map<string, CappiField>, st: QpeSettings): (r: Result<map<string, CappiField>>)
    ensures !IsZMethod(st.qpe.methodName) ==> r == Ok(data)
    ensures IsZMethod(st.qpe.methodName) ==> r == MaskDbzThres(data, st.dbzThres)
  {
    if IsZMethod(st.qpe.methodName) then MaskDbzThres(data, st.dbzThres) else Ok(data)
  }

  /** The QPE settings `computeQPE` leaves: `RATE_ZPOLY` ends with an empty `pars`. */
  function QpeAfter(v: MethodView): MethodView
  {
    if v.methodName == "RATE_ZPOLY" then MethodView(v.methodName, Some(map[])) else v
  }

  /** CAPPI, threshold and rate on the conditioned fields. */
  function ProductStage(fields: map<string, Field>, st: QpeSettings, g: Gridder, pw: (real, real) -> real)
    : (r: Result<QpeOut>)
    ensures r.Ok? ==> r.value.qpe == QpeOf(r.value.qpe.rate.data)
  {
    match ThresholdedCappi(fields, st, g)
    case Fail(e) => Fail(e)
    case Ok((spec, data)) =>
      match ComputeQpeSpec(pw, data, st.qpe)
      case Fail(e) => Fail(e)
      case Ok(q) => Ok(QpeOut(spec, q))
  }

  /** The CAPPI of the conditioned fields, thresholded for the methods on reflectivity. */
  function ThresholdedCappi(fields: map<string, Field>, st: QpeSettings, g: Gridder)
    : Result<(GridSpec, map<string, CappiField>)>
  {
    match CappiStage(g, fields, st.cappi)
    case Fail(e) => Fail(e)
    case Ok(cappi) =>
      match ThresholdStage(cappi.data, st)
      case Fail(e) => Fail(e)
      case Ok(data) => Ok((cappi.spec, data))
  }

  /**
   * `compute_cappi_qpe(dirDate, time, pars)` with the file found for the
   * time (None when there is none) as a parameter: the read fields are
   * planned first, a time without a file gives `{}` and leaves the
   * settings as they were, and otherwise the steps run in the order
   * filter, PIA, clutter mask, CAPPI, threshold, rate.
   */
  function CappiQpeSpec(e: Engines, g: Gridder, found: Option<MdvFile>, st: QpeSettings): (r: Result<QpeStep>)
    ensures FieldsToUseQPE(st.qpe.methodName, st.pia, st.filter, st.applyCmd).Fail? ==> r.Fail?
    ensures FieldsToUseQPE(st.qpe.methodName, st.pia, st.filter, st.applyCmd).Ok? && found.None? ==>
      r == Ok(QpeStep(None, st))
    ensures r.Ok? && r.value.out.Some? ==> r.value.out.value.qpe == QpeOf(r.value.out.value.qpe.rate.data)
    ensures r.Ok? ==>
      r.value.after.cappi == st.cappi && r.value.after.applyCmd == st.applyCmd && r.value.after.dbzThres == st.dbzThres
  {
    match FieldsToUseQPE(st.qpe.methodName, st.pia, st.filter, st.applyCmd)
    case Fail(err) => Fail(err)
    case Ok(names) =>
      if found.None? then Ok(QpeStep(None, st))
      else
        ConditionedProduct(PolarRead(found.value, FieldsList(names)), found.value.gateSpacing, st, e, g)
  }

  /** The steps of `compute_cappi_qpe` once the radar is read: conditioning, then the product. */
  function ConditionedProduct(read: map<string, Field>, gateSpacing: real, st: QpeSettings, e: Engines, g: Gridder)
    : Result<QpeStep>
  {
    match Condition(Staged(read, st), gateSpacing, e)
    case Fail(err) => Fail(err)
    case Ok(x) =>
      match ProductStage(x.fields, x.settings, g, e.pw)
      case Fail(err) => Fail(err)
      case Ok(out) => Ok(QpeStep(Some(out), x.settings.(qpe := QpeAfter(st.qpe))))
  }

  /**
   * A successful call gives a product exactly when a file was found, and
   * keeps the QPE method.
   */
  lemma CappiQpeProductIffFile(e: Engines, g: Gridder, found: Option<MdvFile>, st: QpeSettings)
    requires CappiQpeSpec(e, g, found, st).Ok?
    ensures CappiQpeSpec(e, g, found, st).value.out.Some? <==> found.Some?
    ensures CappiQpeSpec(e, g, found, st).value.after.qpe.methodName == st.qpe.methodName
  {
    if found.Some? {
      var names := FieldsToUseQPE(st.qpe.methodName, st.pia, st.filter, st.applyCmd).value;
      var x := Condition(Staged(PolarRead(found.value, FieldsList(names)), st), found.value.gateSpacing, e).value;
      assert ProductStage(x.fields, x.settings, g, e.pw).Ok?;
    }
  }

  // ---------------------------------------------------------------
  // The same steps on the mutable settings and radar
  // ---------------------------------------------------------------

  /** The `pars` dictionary of `compute_cappi_qpe`: four settings objects (None for no PIA or no filter) and plain entries. */
  datatype QpeRequest = QpeRequest(qpe: MethodPars, cappi: MethodPars, pia: MethodPars?, filter: MethodPars?,
                                   applyCmd: bool, dbzThres: map<string, Value>)

  /**
   * The settings objects are distinct and share no `pars` dictionary, as
   * when the front end builds them; updating one then leaves the others.
   */
  predicate Separate(req: QpeRequest)
    reads req.qpe, req.cappi, req.pia, req.filter
  {
    req.qpe != req.cappi && req.qpe != req.pia && req.qpe != req.filter && req.cappi != req.pia &&
    req.cappi != req.filter && (req.pia != null ==> req.pia != req.filter) &&
    ParsRef(req.qpe) !! ParsRef(req.cappi) && ParsRef(req.qpe) !! ParsRef(req.pia) &&
    ParsRef(req.qpe) !! ParsRef(req.filter) && ParsRef(req.cappi) !! ParsRef(req.pia) &&
    ParsRef(req.cappi) !! ParsRef(req.filter) && ParsRef(req.pia) !! ParsRef(req.filter)
  }

  /**
   * A call that leaves the CAPPI, PIA and filter objects as they were and
   * gives the QPE settings at most a new dictionary keeps them separate.
   */
  twostate lemma SeparateKept(req: QpeRequest)
    requires old(Separate(req))
    requires unchanged(req.cappi) && (req.pia != null ==> unchanged(req.pia)) &&
             (req.filter != null ==> unchanged(req.filter))
    requires req.qpe.pars == old(req.qpe.pars) || fresh(req.qpe.pars)
    ensures Separate(req)
  {
  }

  /** What the request holds at one moment. */
  function SettingsOf(req: QpeRequest): QpeSettings
    reads req.qpe, req.cappi, req.pia, req.filter
    reads ParsRef(req.qpe), ParsRef(req.cappi), ParsRef(req.pia), ParsRef(req.filter)
  {
    QpeSettings(ViewOf(req.qpe).value, ViewOf(req.cappi).value, ViewOf(req.pia), ViewOf(req.filter),
                req.applyCmd, req.dbzThres)
  }

  /** `applyFilterQPE(radar, pars["filter"])` when the filter is set. */
  method FilterStep(radar: Radar, req: QpeRequest, k: Kernels) returns (err: Option<Error>)
    requires Separate(req)
    modifies radar, ParsRef(req.filter)
    ensures var r := FilterStage(Staged(old(radar.fields), old(SettingsOf(req))), k);
      (r.Fail? ==> err == Some(r.err)) && (r.Ok? ==> err.None? && radar.fields == r.value.fields && SettingsOf(req) == r.value.settings)
    ensures Separate(req)
    ensures radar.gateSpacing == old(radar.gateSpacing)
  {
    if req.filter == null {
      return None;
    }
    ghost var st := SettingsOf(req);
    err := ApplyFilterQPE(radar, req.filter, PresentQpeFields(radar.fields.Keys), k);
    assert ViewOf(req.qpe) == Some(st.qpe) && ViewOf(req.cappi) == Some(st.cappi) && ViewOf(req.pia) == st.pia;
  }

  /** `correctAttenuationQPE(radar, pars["pia"])` when the PIA is set and the method is one on reflectivity. */
  method PiaStep(radar: Radar, req: QpeRequest, s: Solvers) returns (err: Option<Error>)
    requires Separate(req)
    modifies radar, ParsRef(req.pia)
    ensures var r := PiaStage(Staged(old(radar.fields), old(SettingsOf(req))), old(radar.gateSpacing), s);
      (r.Fail? ==> err == Some(r.err)) && (r.Ok? ==> err.None? && radar.fields == r.value.fields && SettingsOf(req) == r.value.settings)
    ensures radar.gateSpacing == old(radar.gateSpacing)
  {
    if req.pia == null || !IsZMethod(req.qpe.methodName) {
      return None;
    }
    ghost var st := SettingsOf(req);
    err := CorrectAttenuationQPE(radar, req.pia, s);
    assert ViewOf(req.qpe) == Some(st.qpe) && ViewOf(req.cappi) == Some(st.cappi) && ViewOf(req.filter) == st.filter;
  }

  /** `applyCMDQPE(radar)` when `apply_cmd` is set. */
  method CmdStep(radar: Radar, req: QpeRequest) returns (err: Option<Error>)
    modifies radar
    ensures var r := CmdStage(Staged(old(radar.fields), SettingsOf(req)));
      (r.Fail? ==> err == Some(r.err)) && (r.Ok? ==> err.None? && radar.fields == r.value.fields)
    ensures radar.gateSpacing == old(radar.gateSpacing) && SettingsOf(req) == old(SettingsOf(req))
  {
    if !req.applyCmd {
      return None;
    }
    err := ApplyCmdQPE(radar, PresentQpeFields(radar.fields.Keys));
  }

  /** The filter and the attenuation correction on the radar just read. */
  method FilterPiaStep(radar: Radar, req: QpeRequest, e: Engines) returns (err: Option<Error>)
    requires Separate(req)
    modifies radar, ParsRef(req.pia), ParsRef(req.filter)
    ensures var r := FilterPiaStage(Staged(old(radar.fields), old(SettingsOf(req))), old(radar.gateSpacing), e);
      (r.Fail? ==> err == Some(r.err)) && (r.Ok? ==> err.None? && radar.fields == r.value.fields && SettingsOf(req) == r.value.settings)
    ensures Separate(req)
    ensures radar.gateSpacing == old(radar.gateSpacing)
  {
    ghost var x0 := Staged(radar.fields, SettingsOf(req));
    err := FilterStep(radar, req, e.k);
    if err.Some? {
      return;
    }
    ghost var x1 := Staged(radar.fields, SettingsOf(req));
    assert FilterStage(x0, e.k) == Ok(x1);
    err := PiaStep(radar, req, e.s);
  }

  /** The conditioning steps of `compute_cappi_qpe` on the radar just read. */
  method ConditionQpe(radar: Radar, req: QpeRequest, e: Engines) returns (err: Option<Error>)
    requires Separate(req)
    modifies radar, ParsRef(req.pia), ParsRef(req.filter)
    ensures var r := Condition(Staged(old(radar.fields), old(SettingsOf(req))), old(radar.gateSpacing), e);
      (r.Fail? ==> err == Some(r.err)) && (r.Ok? ==> err.None? && radar.fields == r.value.fields && SettingsOf(req) == r.value.settings)
    ensures Separate(req)
  {
    err := FilterPiaStep(radar, req, e);
    if err.Some? {
      return;
    }
    err := CmdStep(radar, req);
  }

  /** `createCAPPIQPE(radar, pars["cappi"])`. */
  method CappiStep(radar: Radar, cappi: MethodPars, g: Gridder) returns (r: Result<Cappi>)
    ensures r == CappiStage(g, radar.fields, ViewOf(cappi).value)
  {
    var param := CappiParamOf(ViewOf(cappi).value);
    if param.Fail? {
      return Fail(param.err);
    }
    r := CreateCappiGridMethod(g, radar, PresentQpeFields(radar.fields.Keys), cappi.methodName, param.value);
  }

  /** `computeQPE(data, pars["qpe"])`, which leaves the other settings alone. */
  method RateStep(pw: (real, real) -> real, data: map<string, CappiField>, req: QpeRequest) returns (r: Result<Qpe>)
    requires Separate(req)
    modifies req.qpe
    ensures r == ComputeQpeSpec(pw, data, old(SettingsOf(req)).qpe)
    ensures r.Ok? ==> SettingsOf(req) == old(SettingsOf(req)).(qpe := QpeAfter(old(SettingsOf(req)).qpe))
    ensures req.qpe.pars == old(req.qpe.pars) || fresh(req.qpe.pars)
  {
    ghost var st := SettingsOf(req);
    r := ComputeQPE(pw, data, req.qpe);
    if r.Ok? {
      assert ViewOf(req.qpe).value == QpeAfter(st.qpe);
      assert ViewOf(req.cappi) == Some(st.cappi) && ViewOf(req.pia) == st.pia && ViewOf(req.filter) == st.filter;
    }
  }

  /** The CAPPI and the threshold on the conditioned radar. */
  method CappiThresholdStep(radar: Radar, req: QpeRequest, g: Gridder)
    returns (r: Result<(GridSpec, map<string, CappiField>)>)
    ensures r == ThresholdedCappi(radar.fields, SettingsOf(req), g)
  {
    var cappi := CappiStep(radar, req.cappi, g);
    if cappi.Fail? {
      return Fail(cappi.err);
    }
    var data := ThresholdStage(cappi.value.data, SettingsOf(req));
    if data.Fail? {
      return Fail(data.err);
    }
    r := Ok((cappi.value.spec, data.value));
  }

  /** CAPPI, threshold and `computeQPE` on the conditioned radar. */
  method ProductStep(radar: Radar, req: QpeRequest, g: Gridder, pw: (real, real) -> real) returns (r: Result<QpeOut>)
    requires Separate(req)
    modifies req.qpe
    ensures r == ProductStage(old(radar.fields), old(SettingsOf(req)), g, pw)
    ensures r.Ok? ==> SettingsOf(req) == old(SettingsOf(req)).(qpe := QpeAfter(old(SettingsOf(req)).qpe))
    ensures req.qpe.pars == old(req.qpe.pars) || fresh(req.qpe.pars)
  {
    var c := CappiThresholdStep(radar, req, g);
    if c.Fail? {
      return Fail(c.err);
    }
    var q := RateStep(pw, c.value.1, req);
    if q.Fail? {
      return Fail(q.err);
    }
    r := Ok(QpeOut(c.value.0, q.value));
  }


  /**
   * `compute_cappi_qpe(dirDate, time, pars)`: the result and the settings
   * it leaves are those of `CappiQpeSpec` on the settings it was given.
   */
  method ComputeCappiQpe(e: Engines, g: Gridder, found: Option<MdvFile>, req: QpeRequest)
    returns (r: Result<Option<QpeOut>>)
    requires Separate(req)
    modifies req.qpe, ParsRef(req.pia), ParsRef(req.filter)
    ensures var spec := CappiQpeSpec(e, g, found, old(SettingsOf(req)));
      (r.Fail? <==> spec.Fail?) && (r.Fail? ==> r.err == spec.err) &&
      (r.Ok? ==> r.value == spec.value.out && SettingsOf(req) == spec.value.after)
    ensures req.qpe.pars == old(req.qpe.pars) || fresh(req.qpe.pars)
  {
    var names := FieldsToUseQPE(req.qpe.methodName, ViewOf(req.pia), ViewOf(req.filter), req.applyCmd);
    if names.Fail? {
      return Fail(names.err);
    }
    var radar := ReadRadarPolar(found, FieldsList(names.value));
    if radar == null {
      return Ok(None);
    }
    var out := ConditionedProductStep(radar, req, e, g);
    r := if out.Ok? then Ok(Some(out.value)) else Fail(out.err);
  }

  /** Conditioning and the product on the radar just read. */
  method ConditionedProductStep(radar: Radar, req: QpeRequest, e: Engines, g: Gridder) returns (r: Result<QpeOut>)
    requires Separate(req)
    modifies radar, req.qpe, ParsRef(req.pia), ParsRef(req.filter)
    ensures var spec := ConditionedProduct(old(radar.fields), old(radar.gateSpacing), old(SettingsOf(req)), e, g);
      (r.Fail? <==> spec.Fail?) && (r.Fail? ==> r.err == spec.err) &&
      (r.Ok? ==> Some(r.value) == spec.value.out && SettingsOf(req) == spec.value.after)
    ensures req.qpe.pars == old(req.qpe.pars) || fresh(req.qpe.pars)
  {
    ghost var x0 := Staged(radar.fields, SettingsOf(req));
    ghost var gs := radar.gateSpacing;
    var err := ConditionQpe(radar, req, e);
    if err.Some? {
      return Fail(err.value);
    }
    ghost var x1 := Staged(radar.fields, SettingsOf(req));
    assert Condition(x0, gs, e) == Ok(x1);
    r := ProductStep(radar, req, g, e.pw);
  }

}
