/**
 * The rain-rate pipelines of qpe/precip_polar.py (`rate_zh`, `rate_zpoly`,
 * `rate_z_zdr`, `rate_kdp`, `rate_kdp_zdr`) and the label dispatch of
 * qpe/precipCalc_polar.py.  Each pipeline reads (or filters) its fields,
 * adds the attenuation correction to dBZ, masks non-finite values,
 * thresholds dBZ, applies the rain-rate relation and wraps the result in
 * a new radar holding the single field `rain_rate`.
 */
module PrecipPolar {
  import opened Wrappers
  import opened PyBase
  import opened Gates
  import opened Radars
  import opened Utilities
  import opened Filter
  import opened Pia
  import opened RainRate

  /** The external numerics a pipeline needs: the power function, the filter kernels and the PIA solvers. */
  datatype Engines = Engines(pw: (real, real) -> real, k: Kernels, s: Solvers)

  // ---------------------------------------------------------------
  // Pipeline stages
  // ---------------------------------------------------------------

  /**
   * `apply_filter_dict_args(radar, field, filter)`, falling back to
   * `radar.fields[field]['data']` when it returns None.
   */
  function FieldOrFiltered(fields: map<string, Field>, name: string, cfg: Option<FilterConfig>, k: Kernels)
    : (r: Result<MArray>)
    ensures FilterDictSpec(fields, name, cfg, true, k) == Ok(None) ==> r == FieldData(fields, name)
    ensures FilterDictSpec(fields, name, cfg, true, k).Ok? && FilterDictSpec(fields, name, cfg, true, k).value.Some? ==>
      r == Ok(FilterDictSpec(fields, name, cfg, true, k).value.value)
    ensures FilterDictSpec(fields, name, cfg, true, k).Fail? ==> r == Fail(FilterDictSpec(fields, name, cfg, true, k).err)
  {
    match FilterDictSpec(fields, name, cfg, true, k)
    case Fail(e) => Fail(e)
    case Ok(Some(a)) => Ok(a)
    case Ok(None) => FieldData(fields, name)
  }

  /** `dbz + res_pia` when the correction is not None. */
  function WithPia(dbz: MArray, pia: Option<MArray>): (r: Result<MArray>)
    ensures pia.None? ==> r == Ok(dbz)
    ensures pia.Some? ==> r == AddArrays(dbz, pia.value)
  {
    if pia.None? then Ok(dbz) else AddArrays(dbz, pia.value)
  }

  /** The number a threshold key holds: KeyError when missing, TypeError when not a number. */
  function Threshold(thres: map<string, Value>, key: string): (r: Result<real>)
    ensures r.Ok? ==> key in thres && AsReal(thres[key]) == r
    ensures key !in thres ==> r == Fail(KeyError(key))
  {
    if key !in thres then Fail(KeyError(key)) else AsReal(thres[key])
  }

  /**
   * `dbz[dbz > max_dbz] = max_dbz` then `masked_where(dbz < min_dbz)` on
   * the converted thresholds.
   */
  function Thresholded(dbz: MArray, thres: map<string, Value>): (r: Result<MArray>)
    ensures r.Ok? <==> Threshold(thres, "max_dbz").Ok? && Threshold(thres, "min_dbz").Ok?
    ensures r.Ok? ==> SameShape(r.value, dbz) && r.value.fill == dbz.fill
  {
    match Threshold(thres, "max_dbz")
    case Fail(e) => Fail(e)
    case Ok(hi) =>
      match Threshold(thres, "min_dbz")
      case Fail(e) => Fail(e)
      case Ok(lo) => Ok(MapGates(MapGates(dbz, g => ClipAbove(g, hi)), g => MaskWhereBelow(g, lo)))
  }

  /**
   * After thresholding no gate exceeds `max_dbz`, every valid gate is at
   * least `min_dbz`, and a gate stays valid exactly when it was valid and
   * its clipped value reaches `min_dbz`.
   */
  lemma ThresholdedBounds(dbz: MArray, thres: map<string, Value>, i: nat, j: nat)
    requires Thresholded(dbz, thres).Ok?
    requires i < |dbz.rows| && j < |dbz.rows[i]|
    ensures var hi := Threshold(thres, "max_dbz").value;
      var lo := Threshold(thres, "min_dbz").value;
      var g := Thresholded(dbz, thres).value.rows[i][j];
      g.value <= hi &&
      (g.valid ==> lo <= g.value) &&
      (g.valid <==> dbz.rows[i][j].valid && lo <= g.value) &&
      (dbz.rows[i][j].value <= hi ==> g.value == dbz.rows[i][j].value)
  {
  }

  /** `dict((k, float(v) if type(v) is str else v) for k, v in coef.items())`. */
  function CoefFloats(coef: map<string, Value>): (r: Result<map<string, Value>>)
    ensures r.Fail? <==> exists k :: k in coef && coef[k].VStr? && ParseFloat(coef[k].s).None?
    ensures r.Fail? ==> r == Fail(ValueError)
    ensures r.Ok? ==> r.value.Keys == coef.Keys
    ensures r.Ok? ==> forall k :: k in coef ==>
      r.value[k] == if coef[k].VStr? then VReal(ParseFloat(coef[k].s).value) else coef[k]
  {
    if exists k :: k in coef && coef[k].VStr? && ParseFloat(coef[k].s).None? then Fail(ValueError)
    else Ok(map k | k in coef :: if coef[k].VStr? then VReal(ParseFloat(coef[k].s).value) else coef[k])
  }

  /** The keyword values a rate relation receives, bound by name with the relation's defaults. */
  function BoundCoefs(params: seq<string>, npos: nat, defaults: map<string, Value>, coef: map<string, Value>)
    : (r: Result<map<string, Value>>)
    requires npos <= |params|
    ensures r.Ok? ==> CoefFloats(coef).Ok? && r == BindKeywords(params, npos, defaults, CoefFloats(coef).value)
  {
    match CoefFloats(coef)
    case Fail(e) => Fail(e)
    case Ok(c) => BindKeywords(params, npos, defaults, c)
  }

  /** The real a bound coefficient stands for (TypeError for a string or None). */
  function Coef(b: map<string, Value>, key: string): (r: Result<real>)
    ensures key in b ==> r == AsReal(b[key])
  {
    if key in b then AsReal(b[key]) else Fail(KeyError(key))
  }

  /** `np.ma.masked_where(rt < 0.1, rt)`. */
  function CutBelowTenth(rt: MArray): (r: MArray)
    ensures SameShape(r, rt) && r.fill == rt.fill
    ensures forall i, j :: 0 <= i < |rt.rows| && 0 <= j < |rt.rows[i]| ==>
      r.rows[i][j].value == rt.rows[i][j].value &&
      (r.rows[i][j].valid <==> rt.rows[i][j].valid && rt.rows[i][j].value >= 0.1)
  {
    MapGates(rt, g => MaskWhereBelow(g, 0.1))
  }

  /** `rt[rt > 600.] = 600.`: a cap by assignment, the mask is unchanged. */
  function CapAt600(rt: MArray): (r: MArray)
    ensures SameShape(r, rt) && r.fill == rt.fill
    ensures forall i, j :: 0 <= i < |rt.rows| && 0 <= j < |rt.rows[i]| ==>
      r.rows[i][j].valid == rt.rows[i][j].valid && r.rows[i][j].value <= 600.0 &&
      (rt.rows[i][j].value <= 600.0 ==> r.rows[i][j] == rt.rows[i][j])
  {
    MapGates(rt, g => ClipAbove(g, 600.0))
  }

  // ---------------------------------------------------------------
  // Rate relations called through do_call
  // ---------------------------------------------------------------

  const ZhDefaults: map<string, Value> := map["alpha" := VReal(0.017), "beta" := VReal(0.714), "invCoef" := VBool(true)]
  const ZZdrDefaults: map<string, Value> := map["alpha" := VReal(0.00786), "beta_zh" := VReal(0.967), "beta_zdr" := VReal(-4.98)]
  const KdpDefaults: map<string, Value> := map["alpha" := VReal(53.3), "beta" := VReal(0.669)]
  const KdpZdrDefaults: map<string, Value> := map["alpha" := VInt(192), "beta_kdp" := VReal(0.946), "beta_zdr" := VReal(-3.45)]

  /** `do_call(rr_zh, args = [dbz], kwargs = coef)` followed by the 0.1 mm/hr cut. */
  function ZhRate(pw: (real, real) -> real, dbz: MArray, coef: map<string, Value>): (r: Result<MArray>)
    ensures r.Ok? ==> SameShape(r.value, dbz) && r.value.fill == dbz.fill
    ensures r.Ok? ==> forall i, j :: 0 <= i < |dbz.rows| && 0 <= j < |dbz.rows[i]| && r.value.rows[i][j].valid ==>
      r.value.rows[i][j].value >= 0.1 && dbz.rows[i][j].valid
  {
    match BoundCoefs(["dbz", "alpha", "beta", "invCoef"], 1, ZhDefaults, coef)
    case Fail(e) => Fail(e)
    case Ok(b) =>
      match Coef(b, "alpha")
      case Fail(e) => Fail(e)
      case Ok(alpha) =>
        match Coef(b, "beta")
        case Fail(e) => Fail(e)
        case Ok(beta) =>
          var inv := "invCoef" in b && Truthy(b["invCoef"]);
          match RrZh(pw, dbz, alpha, beta, inv)
          case Fail(e) => Fail(e)
          case Ok(rt) =>
            assert forall i, j :: 0 <= i < |dbz.rows| && 0 <= j < |dbz.rows[i]| ==>
              rt.rows[i][j] == RrZhGate(pw, dbz.rows[i][j], alpha, beta, inv);
            Ok(CutBelowTenth(rt))
  }

  /** `rr_zpoly(dbz)` followed by the 0.1 mm/hr cut. */
  function ZpolyRate(pw: (real, real) -> real, dbz: MArray): (r: MArray)
    ensures SameShape(r, dbz) && r.fill == dbz.fill
    ensures forall i, j :: 0 <= i < |dbz.rows| && 0 <= j < |dbz.rows[i]| ==>
      (r.rows[i][j].valid <==> dbz.rows[i][j].valid && pw(10.0, ZPoly(dbz.rows[i][j].value)) >= 0.1) &&
      (r.rows[i][j].valid ==> r.rows[i][j].value == pw(10.0, ZPoly(dbz.rows[i][j].value)))
  {
    CutBelowTenth(RrZpoly(pw, dbz))
  }

  /** `do_call(rr_z_zdr, args = [dbz, zdr], kwargs = coef)` followed by the 600 mm/hr cap. */
  function ZZdrRate(pw: (real, real) -> real, dbz: MArray, zdr: MArray, coef: map<string, Value>): (r: Result<MArray>)
    ensures r.Ok? ==> SameShape(dbz, zdr) && SameShape(r.value, dbz) && r.value.fill == dbz.fill
    ensures r.Ok? ==> forall i, j :: 0 <= i < |dbz.rows| && 0 <= j < |dbz.rows[i]| ==>
      r.value.rows[i][j].value <= 600.0
  {
    match BoundCoefs(["dbz", "zdr", "alpha", "beta_zh", "beta_zdr"], 2, ZZdrDefaults, coef)
    case Fail(e) => Fail(e)
    case Ok(b) =>
      match Coef(b, "alpha")
      case Fail(e) => Fail(e)
      case Ok(alpha) =>
        match Coef(b, "beta_zh")
        case Fail(e) => Fail(e)
        case Ok(bzh) =>
          match Coef(b, "beta_zdr")
          case Fail(e) => Fail(e)
          case Ok(bzdr) =>
            match RrZZdr(pw, dbz, zdr, alpha, bzh, bzdr)
            case Fail(e) => Fail(e)
            case Ok(rt) => Ok(CapAt600(rt))
  }

  /**
   * The Z-ZDR pipeline never masks a gate beyond what the relation itself
   * masks: the cap keeps every gate's validity, and no 0.1 cut is applied.
   */
  lemma ZZdrRateKeepsMask(pw: (real, real) -> real, dbz: MArray, zdr: MArray, coef: map<string, Value>, i: nat, j: nat)
    requires ZZdrRate(pw, dbz, zdr, coef).Ok?
    requires i < |dbz.rows| && j < |dbz.rows[i]|
    ensures var b := BoundCoefs(["dbz", "zdr", "alpha", "beta_zh", "beta_zdr"], 2, ZZdrDefaults, coef).value;
      ZZdrRate(pw, dbz, zdr, coef).value.rows[i][j].valid ==
        RrZZdrGate(pw, dbz.rows[i][j], zdr.rows[i][j], Coef(b, "alpha").value, Coef(b, "beta_zh").value,
                   Coef(b, "beta_zdr").value).valid
  {
  }

  /** The KDP rate relation's coefficients, bound by name. */
  function KdpCoefs(coef: map<string, Value>): (r: Result<(real, real)>)
  {
    match BoundCoefs(["kdp", "alpha", "beta"], 1, KdpDefaults, coef)
    case Fail(e) => Fail(e)
    case Ok(b) =>
      match Coef(b, "alpha")
      case Fail(e) => Fail(e)
      case Ok(alpha) =>
        match Coef(b, "beta")
        case Fail(e) => Fail(e)
        case Ok(beta) => Ok((alpha, beta))
  }

  /** The KDP-ZDR rate relation's coefficients, bound by name. */
  function KdpZdrCoefs(coef: map<string, Value>): (r: Result<(real, real, real)>)
  {
    match BoundCoefs(["kdp", "zdr", "alpha", "beta_kdp", "beta_zdr"], 2, KdpZdrDefaults, coef)
    case Fail(e) => Fail(e)
    case Ok(b) =>
      match Coef(b, "alpha")
      case Fail(e) => Fail(e)
      case Ok(alpha) =>
        match Coef(b, "beta_kdp")
        case Fail(e) => Fail(e)
        case Ok(bk) =>
          match Coef(b, "beta_zdr")
          case Fail(e) => Fail(e)
          case Ok(bz) => Ok((alpha, bk, bz))
  }

  // ---------------------------------------------------------------
  // Whole pipelines on a snapshot of their inputs
  // ---------------------------------------------------------------

  /** The conditioned dBZ of `rate_zh`/`rate_zpoly`/`rate_z_zdr` before thresholding. */
  function CorrectedDbz(e: Engines, fields: map<string, Field>, gateSpacing: real, dbzField: string,
                        filterCfg: Option<FilterConfig>, piaCfg: Option<PiaConfig>): (r: Result<MArray>)
  {
    match FieldOrFiltered(fields, dbzField, filterCfg, e.k)
    case Fail(err) => Fail(err)
    case Ok(dbz) =>
      match PiaDictSpec(fields, gateSpacing, piaCfg, "DBZ_F", "KDP_F", e.s)
      case Fail(err) => Fail(err)
      case Ok(pia) => WithPia(dbz, pia)
  }

  /** The thresholded dBZ, after `str2numeric_dict_args` on the thresholds. */
  function ThresholdedDbz(dbz: MArray, thres: map<string, Value>): (r: Result<MArray>)
  {
    match Converted(thres)
    case Fail(err) => Fail(err)
    case Ok(t) => Thresholded(MaskedInvalid(dbz), t)
  }

  /** The rain rate `rate_zh` stores, before it is wrapped in a radar. */
  function RateZhSpec(e: Engines, fields: map<string, Field>, gateSpacing: real, dbzField: string,
                      coef: map<string, Value>, thres: map<string, Value>, filterCfg: Option<FilterConfig>,
                      piaCfg: Option<PiaConfig>): (r: Result<MArray>)
  {
    match CorrectedDbz(e, fields, gateSpacing, dbzField, filterCfg, piaCfg)
    case Fail(err) => Fail(err)
    case Ok(dbz) =>
      match ThresholdedDbz(dbz, thres)
      case Fail(err) => Fail(err)
      case Ok(d) => ZhRate(e.pw, d, coef)
  }

  /** The rain rate `rate_zpoly` stores. */
  function RateZpolySpec(e: Engines, fields: map<string, Field>, gateSpacing: real, dbzField: string,
                         thres: map<string, Value>, filterCfg: Option<FilterConfig>, piaCfg: Option<PiaConfig>)
    : (r: Result<MArray>)
  {
    match CorrectedDbz(e, fields, gateSpacing, dbzField, filterCfg, piaCfg)
    case Fail(err) => Fail(err)
    case Ok(dbz) =>
      match ThresholdedDbz(dbz, thres)
      case Fail(err) => Fail(err)
      case Ok(d) => Ok(ZpolyRate(e.pw, d))
  }

  /** Two fields, each filtered or read raw, the first one first. */
  function FieldPair(fields: map<string, Field>, first: string, second: string, cfg1: Option<FilterConfig>,
                     cfg2: Option<FilterConfig>, k: Kernels): (r: Result<(MArray, MArray)>)
    ensures r.Ok? <==> FieldOrFiltered(fields, first, cfg1, k).Ok? && FieldOrFiltered(fields, second, cfg2, k).Ok?
    ensures r.Ok? ==> r.value == (FieldOrFiltered(fields, first, cfg1, k).value, FieldOrFiltered(fields, second, cfg2, k).value)
  {
    match FieldOrFiltered(fields, first, cfg1, k)
    case Fail(err) => Fail(err)
    case Ok(a) =>
      match FieldOrFiltered(fields, second, cfg2, k)
      case Fail(err) => Fail(err)
      case Ok(b) => Ok((a, b))
  }

  /** The rain rate `rate_z_zdr` stores. */
  function RateZZdrSpec(e: Engines, fields: map<string, Field>, gateSpacing: real, dbzField: string, zdrField: string,
                        coef: map<string, Value>, thres: map<string, Value>, filterDbz: Option<FilterConfig>,
                        filterZdr: Option<FilterConfig>, piaCfg: Option<PiaConfig>): (r: Result<MArray>)
  {
    match FieldPair(fields, dbzField, zdrField, filterDbz, filterZdr, e.k)
    case Fail(err) => Fail(err)
    case Ok((dbz0, zdr)) => ZZdrFrom(e, fields, gateSpacing, dbz0, zdr, coef, thres, piaCfg)
  }

  /** `rate_z_zdr` once its two fields are read. */
  function ZZdrFrom(e: Engines, fields: map<string, Field>, gateSpacing: real, dbz0: MArray, zdr: MArray,
                    coef: map<string, Value>, thres: map<string, Value>, piaCfg: Option<PiaConfig>): (r: Result<MArray>)
  {
    match PiaDictSpec(fields, gateSpacing, piaCfg, "DBZ_F", "KDP_F", e.s)
    case Fail(err) => Fail(err)
    case Ok(pia) =>
      match WithPia(dbz0, pia)
      case Fail(err) => Fail(err)
      case Ok(dbz) =>
        match ThresholdedDbz(dbz, thres)
        case Fail(err) => Fail(err)
        case Ok(d) => ZZdrRate(e.pw, d, MaskedInvalid(zdr), coef)
  }

  /** The rain rate `rate_kdp` stores: the KDP rate of the clamped, non-finite-masked KDP, cut at 0.1. */
  function RateKdpSpec(e: Engines, fields: map<string, Field>, kdpField: string, coef: map<string, Value>,
                       filterKdp: Option<FilterConfig>): (r: Result<MArray>)
  {
    match FieldOrFiltered(fields, kdpField, filterKdp, e.k)
    case Fail(err) => Fail(err)
    case Ok(kdp) =>
      match KdpCoefs(coef)
      case Fail(err) => Fail(err)
      case Ok((alpha, beta)) =>
        Ok(CutBelowTenth(KdpRate(e.pw, MapGates(MaskedInvalid(kdp), ClampNegative), alpha, beta)))
  }

  /** The rain rate `rate_kdp_zdr` stores. */
  function RateKdpZdrSpec(e: Engines, fields: map<string, Field>, kdpField: string, zdrField: string,
                          coef: map<string, Value>, filterKdp: Option<FilterConfig>, filterZdr: Option<FilterConfig>)
    : (r: Result<MArray>)
  {
    match FieldPair(fields, kdpField, zdrField, filterKdp, filterZdr, e.k)
    case Fail(err) => Fail(err)
    case Ok((kdp, zdr)) =>
      match KdpZdrCoefs(coef)
      case Fail(err) => Fail(err)
      case Ok((alpha, bk, bz)) =>
        var clamped := MapGates(MaskedInvalid(kdp), ClampNegative);
        if !SameShape(clamped, MaskedInvalid(zdr)) then Fail(ValueError)
        else Ok(CutBelowTenth(KdpZdrRate(e.pw, clamped, MaskedInvalid(zdr), alpha, bk, bz)))
  }

  /** Every rate a pipeline other than Z-ZDR keeps valid is at least 0.1 mm/hr. */
  lemma RatesBelowTenthMasked(e: Engines, fields: map<string, Field>, gateSpacing: real, name: string,
                              coef: map<string, Value>, thres: map<string, Value>, filterCfg: Option<FilterConfig>,
                              piaCfg: Option<PiaConfig>)
    ensures var r := RateZhSpec(e, fields, gateSpacing, name, coef, thres, filterCfg, piaCfg);
      r.Ok? ==> forall i, j :: 0 <= i < |r.value.rows| && 0 <= j < |r.value.rows[i]| && r.value.rows[i][j].valid ==>
        r.value.rows[i][j].value >= 0.1
    ensures var r := RateZpolySpec(e, fields, gateSpacing, name, thres, filterCfg, piaCfg);
      r.Ok? ==> forall i, j :: 0 <= i < |r.value.rows| && 0 <= j < |r.value.rows[i]| && r.value.rows[i][j].valid ==>
        r.value.rows[i][j].value >= 0.1
    ensures var r := RateKdpSpec(e, fields, name, coef, filterCfg);
      r.Ok? ==> forall i, j :: 0 <= i < |r.value.rows| && 0 <= j < |r.value.rows[i]| && r.value.rows[i][j].valid ==>
        r.value.rows[i][j].value >= 0.1
  {
    var r := RateZhSpec(e, fields, gateSpacing, name, coef, thres, filterCfg, piaCfg);
    if r.Ok? {
      var dbz := CorrectedDbz(e, fields, gateSpacing, name, filterCfg, piaCfg).value;
      var d := ThresholdedDbz(dbz, thres).value;
      assert r == ZhRate(e.pw, d, coef);
      assert SameShape(r.value, d);
    }
    var z := RateZpolySpec(e, fields, gateSpacing, name, thres, filterCfg, piaCfg);
    if z.Ok? {
      var dbz := CorrectedDbz(e, fields, gateSpacing, name, filterCfg, piaCfg).value;
      var d := ThresholdedDbz(dbz, thres).value;
      assert z.value == CutBelowTenth(RrZpoly(e.pw, d));
    }
  }

  /**
   * A dBZ gate that thresholding masks (below `min_dbz`) or that was
   * masked on entry gives a masked Z rate.
   */
  lemma ZhRateMaskedWhereDbzMasked(pw: (real, real) -> real, dbz: MArray, thres: map<string, Value>,
                                   coef: map<string, Value>, i: nat, j: nat)
    requires ThresholdedDbz(dbz, thres).Ok? && ZhRate(pw, ThresholdedDbz(dbz, thres).value, coef).Ok?
    requires i < |dbz.rows| && j < |dbz.rows[i]|
    requires !dbz.rows[i][j].valid || dbz.rows[i][j].value < Threshold(Converted(thres).value, "min_dbz").value
    ensures !ZhRate(pw, ThresholdedDbz(dbz, thres).value, coef).value.rows[i][j].valid
  {
    var t := Converted(thres).value;
    ThresholdedBounds(dbz, t, i, j);
  }

  // ---------------------------------------------------------------
  // The pipelines as the source runs them
  // ---------------------------------------------------------------

  /** `_create_rain_rate_field(radar, rt)` produced `out`: a new radar whose only field is `rain_rate` in mm/hr. */
  predicate RainRateRadar(out: Radar, rt: MArray, radar: Radar)
    reads out, radar
  {
    out.fields == map["rain_rate" := Field(rt, "mm/hr")] && out.gateSpacing == radar.gateSpacing
  }

  /**
   * `_create_rain_rate_field(radar, rt)`: a shallow copy of the radar
   * whose field dictionary is replaced by one holding `rain_rate`; the
   * input radar keeps its fields.
   */
  method CreateRainRateField(radar: Radar, rt: MArray) returns (out: Radar)
    ensures fresh(out) && RainRateRadar(out, rt, radar)
  {
    out := new Radar(map["rain_rate" := Field(rt, "mm/hr")], radar.gateSpacing);
  }

  /** `apply_filter_dict_args` with the raw field as fallback. */
  method ReadField(radar: Radar, name: string, pars: FilterPars?, k: Kernels) returns (r: Result<MArray>)
    modifies UpdatedArgs(pars)
    ensures r == FieldOrFiltered(radar.fields, name, old(FilterConfigOf(pars)), k)
  {
    var f := ApplyFilterDictArgs(radar, name, pars, true, k);
    if f.Fail? {
      return Fail(f.err);
    }
    if f.value.Some? {
      return Ok(f.value.value);
    }
    r := FieldData(radar.fields, name);
  }

  /** Reads (or filters) two fields in order. */
  method ReadPair(radar: Radar, first: string, second: string, p1: FilterPars?, p2: FilterPars?, k: Kernels)
    returns (r: Result<(MArray, MArray)>)
    requires UpdatedArgs(p1) !! UpdatedArgs(p2)
    modifies UpdatedArgs(p1), UpdatedArgs(p2)
    ensures r == FieldPair(radar.fields, first, second, old(FilterConfigOf(p1)), old(FilterConfigOf(p2)), k)
  {
    var a := ReadField(radar, first, p1, k);
    if a.Fail? {
      return Fail(a.err);
    }
    var b := ReadField(radar, second, p2, k);
    if b.Fail? {
      return Fail(b.err);
    }
    r := Ok((a.value, b.value));
  }

  /** Adds the attenuation correction to dBZ and masks non-finite values. */
  method CorrectDbz(radar: Radar, dbz: MArray, pia: PiaPars?, s: Solvers) returns (r: Result<MArray>)
    modifies PiaUpdated(pia)
    ensures r == (match PiaDictSpec(radar.fields, radar.gateSpacing, old(PiaConfigOf(pia)), "DBZ_F", "KDP_F", s)
                  case Fail(err) => Fail(err)
                  case Ok(p) => WithPia(dbz, p))
  {
    var p := CalculatePiaDictArgs(radar, pia, "DBZ_F", "KDP_F", s);
    if p.Fail? {
      return Fail(p.err);
    }
    r := WithPia(dbz, p.value);
  }

  /** Converts the thresholds in place, then clips and masks dBZ with them. */
  method ThresholdDbz(dbz: MArray, thres: ArgDict) returns (r: Result<MArray>)
    modifies thres
    ensures r == ThresholdedDbz(dbz, old(thres.entries))
    ensures Converted(old(thres.entries)).Ok? ==> thres.entries == Converted(old(thres.entries)).value
  {
    var d := MaskedInvalid(dbz);
    var t := Str2NumericDictArgs(thres);
    if t.Fail? {
      return Fail(t.err);
    }
    r := Thresholded(d, thres.entries);
  }

  /** The argument dictionaries the pipelines may update, pairwise distinct. */
  predicate Separate(thres: ArgDict?, pia: PiaPars?, f1: FilterPars?, f2: FilterPars?)
    reads pia, f1, f2
  {
    (thres != null ==> thres !in PiaUpdated(pia) + UpdatedArgs(f1) + UpdatedArgs(f2)) &&
    PiaUpdated(pia) !! UpdatedArgs(f1) && PiaUpdated(pia) !! UpdatedArgs(f2) && UpdatedArgs(f1) !! UpdatedArgs(f2)
  }

  /** `rate_zh(radar, dbz_field, coef, dbz_thres, pia, filter_dbz)`. */
  method RateZh(e: Engines, radar: Radar, dbzField: string, coef: map<string, Value>, dbzThres: ArgDict,
                pia: PiaPars?, filterDbz: FilterPars?) returns (r: Result<Radar>)
    requires Separate(dbzThres, pia, filterDbz, null)
    modifies UpdatedArgs(filterDbz), PiaUpdated(pia), dbzThres
    ensures var spec := RateZhSpec(e, radar.fields, radar.gateSpacing, dbzField, coef, old(dbzThres.entries),
                                   old(FilterConfigOf(filterDbz)), old(PiaConfigOf(pia)));
      (r.Ok? <==> spec.Ok?) && (r.Fail? ==> r.err == spec.err) &&
      (r.Ok? ==> fresh(r.value) && RainRateRadar(r.value, spec.value, radar))
  {
    var dbz := ReadField(radar, dbzField, filterDbz, e.k);
    if dbz.Fail? {
      return Fail(dbz.err);
    }
    var c := CorrectDbz(radar, dbz.value, pia, e.s);
    if c.Fail? {
      return Fail(c.err);
    }
    var d := ThresholdDbz(c.value, dbzThres);
    if d.Fail? {
      return Fail(d.err);
    }
    var rt := ZhRate(e.pw, d.value, coef);
    if rt.Fail? {
      return Fail(rt.err);
    }
    var out := CreateRainRateField(radar, rt.value);
    r := Ok(out);
  }

  /** `rate_zpoly(radar, dbz_field, dbz_thres, pia, filter_dbz)`. */
  method RateZpoly(e: Engines, radar: Radar, dbzField: string, dbzThres: ArgDict, pia: PiaPars?,
                   filterDbz: FilterPars?) returns (r: Result<Radar>)
    requires Separate(dbzThres, pia, filterDbz, null)
    modifies UpdatedArgs(filterDbz), PiaUpdated(pia), dbzThres
    ensures var spec := RateZpolySpec(e, radar.fields, radar.gateSpacing, dbzField, old(dbzThres.entries),
                                      old(FilterConfigOf(filterDbz)), old(PiaConfigOf(pia)));
      (r.Ok? <==> spec.Ok?) && (r.Fail? ==> r.err == spec.err) &&
      (r.Ok? ==> fresh(r.value) && RainRateRadar(r.value, spec.value, radar))
  {
    var dbz := ReadField(radar, dbzField, filterDbz, e.k);
    if dbz.Fail? {
      return Fail(dbz.err);
    }
    var c := CorrectDbz(radar, dbz.value, pia, e.s);
    if c.Fail? {
      return Fail(c.err);
    }
    var d := ThresholdDbz(c.value, dbzThres);
    if d.Fail? {
      return Fail(d.err);
    }
    var out := CreateRainRateField(radar, ZpolyRate(e.pw, d.value));
    r := Ok(out);
  }

  /** `rate_z_zdr` from the point where both fields are read. */
  method ZZdrFromFields(e: Engines, radar: Radar, dbz: MArray, zdr: MArray, coef: map<string, Value>,
                        dbzThres: ArgDict, pia: PiaPars?) returns (r: Result<MArray>)
    requires dbzThres !in PiaUpdated(pia)
    modifies PiaUpdated(pia), dbzThres
    ensures r == ZZdrFrom(e, radar.fields, radar.gateSpacing, dbz, zdr, coef, old(dbzThres.entries), old(PiaConfigOf(pia)))
  {
    var c := CorrectDbz(radar, dbz, pia, e.s);
    if c.Fail? {
      return Fail(c.err);
    }
    var d := ThresholdDbz(c.value, dbzThres);
    if d.Fail? {
      return Fail(d.err);
    }
    r := ZZdrRate(e.pw, d.value, MaskedInvalid(zdr), coef);
  }

  /** `rate_z_zdr(radar, dbz_field, zdr_field, coef, dbz_thres, pia, filter_dbz, filter_zdr)`. */
  method RateZZdr(e: Engines, radar: Radar, dbzField: string, zdrField: string, coef: map<string, Value>,
                  dbzThres: ArgDict, pia: PiaPars?, filterDbz: FilterPars?, filterZdr: FilterPars?)
    returns (r: Result<Radar>)
    requires Separate(dbzThres, pia, filterDbz, filterZdr)
    modifies UpdatedArgs(filterDbz), UpdatedArgs(filterZdr), PiaUpdated(pia), dbzThres
    ensures var spec := RateZZdrSpec(e, radar.fields, radar.gateSpacing, dbzField, zdrField, coef,
                                     old(dbzThres.entries), old(FilterConfigOf(filterDbz)),
                                     old(FilterConfigOf(filterZdr)), old(PiaConfigOf(pia)));
      (r.Ok? <==> spec.Ok?) && (r.Fail? ==> r.err == spec.err) &&
      (r.Ok? ==> fresh(r.value) && RainRateRadar(r.value, spec.value, radar))
  {
    ghost var thres, pc := dbzThres.entries, PiaConfigOf(pia);
    ghost var spec := RateZZdrSpec(e, radar.fields, radar.gateSpacing, dbzField, zdrField, coef, thres,
                                   FilterConfigOf(filterDbz), FilterConfigOf(filterZdr), pc);
    var fs := ReadPair(radar, dbzField, zdrField, filterDbz, filterZdr, e.k);
    if fs.Fail? {
      return Fail(fs.err);
    }
    assert dbzThres.entries == thres && PiaConfigOf(pia) == pc;
    var rt := ZZdrFromFields(e, radar, fs.value.0, fs.value.1, coef, dbzThres, pia);
    assert rt == spec;
    if rt.Fail? {
      return Fail(rt.err);
    }
    var out := CreateRainRateField(radar, rt.value);
    r := Ok(out);
  }

  /** `rate_kdp(radar, kdp_field, coef, filter_kdp)`; `rr_kdp` clamps its own copy of KDP. */
  method RateKdp(e: Engines, radar: Radar, kdpField: string, coef: map<string, Value>, filterKdp: FilterPars?)
    returns (r: Result<Radar>)
    modifies UpdatedArgs(filterKdp)
    ensures var spec := RateKdpSpec(e, radar.fields, kdpField, coef, old(FilterConfigOf(filterKdp)));
      (r.Ok? <==> spec.Ok?) && (r.Fail? ==> r.err == spec.err) &&
      (r.Ok? ==> fresh(r.value) && RainRateRadar(r.value, spec.value, radar))
  {
    var kdp := ReadField(radar, kdpField, filterKdp, e.k);
    if kdp.Fail? {
      return Fail(kdp.err);
    }
    var cs := KdpCoefs(coef);
    if cs.Fail? {
      return Fail(cs.err);
    }
    var cell := new FieldRef(MaskedInvalid(kdp.value));
    var rt := RrKdp(e.pw, cell, cs.value.0, cs.value.1);
    var out := CreateRainRateField(radar, CutBelowTenth(rt));
    r := Ok(out);
  }

  /** `rate_kdp_zdr(radar, kdp_field, zdr_field, coef, filter_kdp, filter_zdr)`. */
  method RateKdpZdr(e: Engines, radar: Radar, kdpField: string, zdrField: string, coef: map<string, Value>,
                    filterKdp: FilterPars?, filterZdr: FilterPars?) returns (r: Result<Radar>)
    requires Separate(null, null, filterKdp, filterZdr)
    modifies UpdatedArgs(filterKdp), UpdatedArgs(filterZdr)
    ensures var spec := RateKdpZdrSpec(e, radar.fields, kdpField, zdrField, coef, old(FilterConfigOf(filterKdp)),
                                       old(FilterConfigOf(filterZdr)));
      (r.Ok? <==> spec.Ok?) && (r.Fail? ==> r.err == spec.err) &&
      (r.Ok? ==> fresh(r.value) && RainRateRadar(r.value, spec.value, radar))
  {
    var fs := ReadPair(radar, kdpField, zdrField, filterKdp, filterZdr, e.k);
    if fs.Fail? {
      return Fail(fs.err);
    }
    var (kdp, zdr) := fs.value;
    var cs := KdpZdrCoefs(coef);
    if cs.Fail? {
      return Fail(cs.err);
    }
    var cell := new FieldRef(MaskedInvalid(kdp));
    var rt := RrKdpZdr(e.pw, cell, MaskedInvalid(zdr), cs.value.0, cs.value.1, cs.value.2);
    if rt.Fail? {
      return Fail(rt.err);
    }
    var out := CreateRainRateField(radar, CutBelowTenth(rt.value));
    r := Ok(out);
  }

  // ---------------------------------------------------------------
  // calculate_PrecipRate
  // ---------------------------------------------------------------

  /** The rate parameters of one configuration file. */
  class PrecipParams {
    var rateLabel: string
    var rateCoef: map<string, Value>
    var dbzThres: ArgDict
    var pia: PiaPars?
    var filterDbz: FilterPars?
    var filterZdr: FilterPars?
    var filterKdp: FilterPars?

    constructor (rateLabel: string, rateCoef: map<string, Value>, dbzThres: ArgDict, pia: PiaPars?,
                 filterDbz: FilterPars?, filterZdr: FilterPars?, filterKdp: FilterPars?)
      ensures this.rateLabel == rateLabel && this.rateCoef == rateCoef && this.dbzThres == dbzThres && this.pia == pia
      ensures this.filterDbz == filterDbz && this.filterZdr == filterZdr && this.filterKdp == filterKdp
    {
      this.rateLabel := rateLabel;
      this.rateCoef := rateCoef;
      this.dbzThres := dbzThres;
      this.pia := pia;
      this.filterDbz := filterDbz;
      this.filterZdr := filterZdr;
      this.filterKdp := filterKdp;
    }

    /** The argument dictionaries a rate computation may update. */
    function Touched(): set<object>
      reads this, pia, filterDbz, filterZdr, filterKdp
    {
      {dbzThres} + PiaUpdated(pia) + UpdatedArgs(filterDbz) + UpdatedArgs(filterZdr) + UpdatedArgs(filterKdp)
    }

    predicate Distinct()
      reads this, pia, filterDbz, filterZdr, filterKdp
    {
      Separate(dbzThres, pia, filterDbz, filterZdr) && Separate(dbzThres, pia, filterKdp, filterZdr)
    }
  }

  /** The labels `calculate_PrecipRate` knows. */
  const RateLabels: set<string> := {"RATE_Z", "RATE_ZPOLY", "RATE_Z_ZDR", "RATE_KDP", "RATE_KDP_ZDR"}

  /** The five rate pipelines. */
  datatype RateKind = ZhKind | ZpolyKind | ZZdrKind | KdpKind | KdpZdrKind
  {
    /** The pipelines that read KDP and not dBZ. */
    predicate KdpBased() { this == KdpKind || this == KdpZdrKind }
  }

  /** The pipeline a rateLabel selects, if any. */
  function KindOf(rateLabel: string): Option<RateKind>
  {
    if rateLabel == "RATE_Z" then Some(ZhKind)
    else if rateLabel == "RATE_ZPOLY" then Some(ZpolyKind)
    else if rateLabel == "RATE_Z_ZDR" then Some(ZZdrKind)
    else if rateLabel == "RATE_KDP" then Some(KdpKind)
    else if rateLabel == "RATE_KDP_ZDR" then Some(KdpZdrKind)
    else None
  }

  /** Exactly the five labels select a pipeline, each its own. */
  lemma KindOfLabels(rateLabel: string)
    ensures KindOf(rateLabel).Some? <==> rateLabel in RateLabels
    ensures KindOf(rateLabel).Some? && KindOf(rateLabel).value.KdpBased() <==> rateLabel in {"RATE_KDP", "RATE_KDP_ZDR"}
    ensures forall other :: KindOf(other).Some? && KindOf(other) == KindOf(rateLabel) ==> other == rateLabel
  {
  }

  /**
   * The rain rate `calculate_PrecipRate` stores for a pipeline, on the configuration as it was before the call
   * (DBZ_F, ZDR_F and KDP_F are the fields used).
   */
  function PrecipRateSpec(e: Engines, fields: map<string, Field>, gateSpacing: real, kind: RateKind,
                          coef: map<string, Value>, thres: map<string, Value>, filterDbz: Option<FilterConfig>,
                          filterZdr: Option<FilterConfig>, filterKdp: Option<FilterConfig>, piaCfg: Option<PiaConfig>)
    : Result<MArray>
  {
    match kind
    case ZhKind => RateZhSpec(e, fields, gateSpacing, "DBZ_F", coef, thres, filterDbz, piaCfg)
    case ZpolyKind => RateZpolySpec(e, fields, gateSpacing, "DBZ_F", thres, filterDbz, piaCfg)
    case ZZdrKind => RateZZdrSpec(e, fields, gateSpacing, "DBZ_F", "ZDR_F", coef, thres, filterDbz, filterZdr, piaCfg)
    case KdpKind => RateKdpSpec(e, fields, "KDP_F", coef, filterKdp)
    case KdpZdrKind => RateKdpZdrSpec(e, fields, "KDP_F", "ZDR_F", coef, filterKdp, filterZdr)
  }

  /** The KDP pipelines depend neither on the dBZ thresholds, nor on the dBZ filter, nor on the PIA parameters. */
  lemma KdpRateIgnoresDbz(e: Engines, fields: map<string, Field>, gateSpacing: real, kind: RateKind,
                           coef: map<string, Value>, thres: map<string, Value>, filterDbz: Option<FilterConfig>,
                           filterZdr: Option<FilterConfig>, filterKdp: Option<FilterConfig>, piaCfg: Option<PiaConfig>,
                           thres2: map<string, Value>, filterDbz2: Option<FilterConfig>, piaCfg2: Option<PiaConfig>)
    requires kind.KdpBased()
    ensures PrecipRateSpec(e, fields, gateSpacing, kind, coef, thres, filterDbz, filterZdr, filterKdp, piaCfg) ==
            PrecipRateSpec(e, fields, gateSpacing, kind, coef, thres2, filterDbz2, filterZdr, filterKdp, piaCfg2)
  {
  }

  /**
   * `calculate_PrecipRate(radar, params)`: the rateLabel picks the pipeline,
   * on `DBZ_F`, `ZDR_F` and `KDP_F`.  KDP-based labels never touch the
   * PIA parameters or the dBZ thresholds; an unknown rateLabel gives None.
   */
  method CalculatePrecipRate(e: Engines, radar: Radar, p: PrecipParams) returns (r: Result<Option<Radar>>)
    requires p.Distinct()
    modifies p.Touched()
    ensures KindOf(old(p.rateLabel)).None? ==> r == Ok(None)
    ensures KindOf(old(p.rateLabel)).Some? && KindOf(old(p.rateLabel)).value.KdpBased() ==>
      unchanged(old(p.dbzThres)) && unchanged(old(PiaUpdated(p.pia)))
    ensures KindOf(old(p.rateLabel)).Some? ==>
      var spec := PrecipRateSpec(e, radar.fields, radar.gateSpacing, KindOf(old(p.rateLabel)).value, old(p.rateCoef),
                                 old(p.dbzThres.entries), old(FilterConfigOf(p.filterDbz)),
                                 old(FilterConfigOf(p.filterZdr)), old(FilterConfigOf(p.filterKdp)), old(PiaConfigOf(p.pia)));
      (r.Ok? <==> spec.Ok?) && (r.Fail? ==> r.err == spec.err) &&
      (r.Ok? ==> r.value.Some? && fresh(r.value.value) && RainRateRadar(r.value.value, spec.value, radar))
  {
    var kind := KindOf(p.rateLabel);
    if kind.None? {
      return Ok(None);
    }
    ghost var spec := PrecipRateSpec(e, radar.fields, radar.gateSpacing, kind.value, p.rateCoef, p.dbzThres.entries,
                                     FilterConfigOf(p.filterDbz), FilterConfigOf(p.filterZdr),
                                     FilterConfigOf(p.filterKdp), PiaConfigOf(p.pia));
    var rt: Result<Radar>;
    match kind.value {
      case ZhKind =>
        rt := RateZh(e, radar, "DBZ_F", p.rateCoef, p.dbzThres, p.pia, p.filterDbz);
      case ZpolyKind =>
        rt := RateZpoly(e, radar, "DBZ_F", p.dbzThres, p.pia, p.filterDbz);
      case ZZdrKind =>
        rt := RateZZdr(e, radar, "DBZ_F", "ZDR_F", p.rateCoef, p.dbzThres, p.pia, p.filterDbz, p.filterZdr);
      case KdpKind =>
        rt := RateKdp(e, radar, "KDP_F", p.rateCoef, p.filterKdp);
      case KdpZdrKind =>
        rt := RateKdpZdr(e, radar, "KDP_F", "ZDR_F", p.rateCoef, p.filterKdp, p.filterZdr);
    }
    assert (rt.Ok? <==> spec.Ok?) && (rt.Fail? ==> rt.err == spec.err) &&
           (rt.Ok? ==> fresh(rt.value) && RainRateRadar(rt.value, spec.value, radar));
    r := if rt.Ok? then Ok(Some(rt.value)) else Fail(rt.err);
  }

}
