/**
 * `radarPolarPrecipData(dirSource, time, params, cmdflag, cmdmask)` of
 * qpe/precipRadar_polar.py: the polar file of the time is read with the
 * fields the rain-rate label needs, the `RATE_Z` coefficients are
 * narrowed to the branch `invCoef` selects, and with `cmdflag` every
 * read field is masked where `CMD_FLAG == 1`.  The file selection is a
 * parameter (`found`), as in PolarReaders.
 */
module PrecipRadar {
  import opened Wrappers
  import opened PyBase
  import opened Gates
  import opened Radars
  import opened Filter
  import opened Pia
  import opened PrecipPolar
  import opened ApiConfig
  import opened FieldPlan
  import opened Conditioning
  import opened ReadMdv
  import opened PolarReaders

  /** What the function reads of `params`. */
  datatype PrecipView = PrecipView(rateLabel: string, rateCoef: map<string, Value>, pia: Option<PiaConfig>,
                                   filterDbz: Option<FilterConfig>, filterZdr: Option<FilterConfig>,
                                   filterKdp: Option<FilterConfig>)

  function PrecipViewOf(p: PrecipParams): PrecipView
    reads p, p.pia, p.filterDbz, p.filterZdr, p.filterKdp
    reads PiaUpdated(p.pia), UpdatedArgs(p.filterDbz), UpdatedArgs(p.filterZdr), UpdatedArgs(p.filterKdp)
  {
    PrecipView(p.rateLabel, p.rateCoef, PiaConfigOf(p.pia),
               FilterConfigOf(p.filterDbz), FilterConfigOf(p.filterZdr), FilterConfigOf(p.filterKdp))
  }

  // ---------------------------------------------------------------
  // Field list
  // ---------------------------------------------------------------

  /** `params['pia']['use_pia'] and params['pia']['pia_field'] == 'kdp'`. */
  predicate KdpPia(pia: Option<PiaConfig>)
  {
    pia.Some? && Truthy(pia.value.usePia) && pia.value.piaField == "kdp"
  }

  /** `params[f]['use_filter'] and params[f]['filter_fun'] == 'median_filter_censor'`. */
  predicate CensorOn(f: Option<FilterConfig>)
  {
    f.Some? && Truthy(f.value.useFilter) && f.value.filterFun == MedianCensorName
  }

  /** `['KDP_F']` for a kdp PIA; a None `pia` raises TypeError. */
  function KdpExtra(pia: Option<PiaConfig>): (r: Result<seq<string>>)
    ensures r.Fail? <==> pia.None?
    ensures r.Fail? ==> r.err == TypeError
    ensures r.Ok? ==> r.value == (if KdpPia(pia) then ["KDP_F"] else [])
  {
    if pia.None? then Fail(TypeError)
    else if KdpPia(pia) then Ok(["KDP_F"])
    else Ok([])
  }

  /**
   * `[params[f]['median_filter_censor']['censor_field'] + '_F']` for a
   * censoring filter: a None filter raises TypeError, missing arguments
   * or a missing `censor_field` KeyError.
   */
  function CensorExtra(f: Option<FilterConfig>): (r: Result<seq<string>>)
    ensures f.None? ==> r == Fail(TypeError)
    ensures f.Some? && !CensorOn(f) ==> r == Ok([])
    ensures CensorOn(f) && f.value.args.None? ==> r == Fail(KeyError(MedianCensorName))
    ensures CensorOn(f) && f.value.args.Some? ==>
      var c := CensorSuffixed(f.value.args);
      (c.Fail? ==> r == Fail(c.err)) && (c.Ok? ==> r == Ok([c.value]) && EndsWith(c.value, "_F"))
  {
    if f.None? then Fail(TypeError)
    else if !CensorOn(f) then Ok([])
    else if f.value.args.None? then Fail(KeyError(MedianCensorName))
    else match CensorSuffixed(f.value.args)
         case Fail(e) => Fail(e)
         case Ok(c) => Ok([c])
  }

  predicate ZLabel(rateLabel: string)
  {
    rateLabel in {"RATE_Z", "RATE_ZPOLY"}
  }

  /** The first failure of two lookups, or both results joined. */
  function Join(a: Result<seq<string>>, b: Result<seq<string>>): (r: Result<seq<string>>)
    ensures r.Ok? <==> a.Ok? && b.Ok?
    ensures a.Fail? ==> r == Fail(a.err)
    ensures a.Ok? && b.Fail? ==> r == Fail(b.err)
    ensures r.Ok? ==> r.value == a.value + b.value
  {
    if a.Fail? then Fail(a.err)
    else if b.Fail? then Fail(b.err)
    else Ok(a.value + b.value)
  }

  /**
   * The field list before duplicates are removed: the label's own fields,
   * then `KDP_F` for a kdp PIA (dBZ-based labels only), then the `_F`
   * censor field of each censoring filter the label uses, the lookups
   * running in that order.
   */
  function PrecipFieldList(v: PrecipView): (r: Result<seq<string>>)
    ensures !ZLabel(v.rateLabel) && v.rateLabel !in {"RATE_Z_ZDR", "RATE_KDP", "RATE_KDP_ZDR"} ==> r == Ok(AllRateFields)
    ensures ZLabel(v.rateLabel) && v.pia.None? ==> r == Fail(TypeError)
    ensures r.Ok? ==> RateBaseFields(v.rateLabel) <= r.value
  {
    if ZLabel(v.rateLabel) then
      Join(Join(Ok(["DBZ_F"]), KdpExtra(v.pia)), CensorExtra(v.filterDbz))
    else if v.rateLabel == "RATE_Z_ZDR" then
      Join(Join(Join(Ok(["DBZ_F", "ZDR_F"]), KdpExtra(v.pia)), CensorExtra(v.filterDbz)), CensorExtra(v.filterZdr))
    else if v.rateLabel == "RATE_KDP" then
      Join(Ok(["KDP_F"]), CensorExtra(v.filterKdp))
    else if v.rateLabel == "RATE_KDP_ZDR" then
      Join(Join(Ok(["KDP_F", "ZDR_F"]), CensorExtra(v.filterKdp)), CensorExtra(v.filterZdr))
    else Ok(AllRateFields)
  }

  /** The censor field a censoring filter adds (meaningful when its lookup succeeds). */
  function CensorName(f: Option<FilterConfig>): string
  {
    if f.Some? && f.value.args.Some? && "censor_field" in f.value.args.value && f.value.args.value["censor_field"].VStr?
    then f.value.args.value["censor_field"].s + "_F" else ""
  }

  /** Whether a censoring filter of one of the label's filters adds `x`. */
  predicate AddsCensor(f: Option<FilterConfig>, x: string)
  {
    CensorOn(f) && x == CensorName(f)
  }

  /**
   * A name is on the list exactly when the label needs it, or it is
   * `KDP_F` under a kdp PIA for a dBZ-based label, or it is the censor
   * field of a censoring filter of a field the label uses.
   */
  lemma PrecipFieldListMembers(v: PrecipView, x: string)
    requires PrecipFieldList(v).Ok?
    ensures x in PrecipFieldList(v).value <==>
      x in RateBaseFields(v.rateLabel) ||
      ((ZLabel(v.rateLabel) || v.rateLabel == "RATE_Z_ZDR") && KdpPia(v.pia) && x == "KDP_F") ||
      ((ZLabel(v.rateLabel) || v.rateLabel == "RATE_Z_ZDR") && AddsCensor(v.filterDbz, x)) ||
      (v.rateLabel in {"RATE_Z_ZDR", "RATE_KDP_ZDR"} && AddsCensor(v.filterZdr, x)) ||
      (v.rateLabel in {"RATE_KDP", "RATE_KDP_ZDR"} && AddsCensor(v.filterKdp, x))
  {
  }

  /** `list(dict.fromkeys(fields))`. */
  function PrecipFields(v: PrecipView): (r: Result<seq<string>>)
    ensures r.Ok? <==> PrecipFieldList(v).Ok?
    ensures r.Fail? ==> r.err == PrecipFieldList(v).err
    ensures r.Ok? ==> NoDuplicates(r.value) && RateBaseFields(v.rateLabel) <= r.value
    ensures r.Ok? ==> forall x :: x in r.value <==> x in PrecipFieldList(v).value
  {
    match PrecipFieldList(v)
    case Fail(e) => Fail(e)
    case Ok(l) =>
      DedupNoDuplicates(l);
      DedupBaseFirst(RateBaseFields(v.rateLabel), l);
      Ok(Dedup(l))
  }

  /** A duplicate-free prefix survives `dict.fromkeys` in place. */
  lemma DedupBaseFirst(b: seq<string>, l: seq<string>)
    requires NoDuplicates(b) && b <= l
    ensures b <= Dedup(l)
  {
    DedupOfDistinct(b);
    assert l == b + l[|b|..];
    DedupPrefix(b, l[|b|..]);
  }

  // ---------------------------------------------------------------
  // RATE_Z coefficients
  // ---------------------------------------------------------------

  /**
   * The `rate_coef` that replaces the user's one for `RATE_Z`:
   * `{invCoef, alpha, beta}`, with `alpha0`/`beta0` when `invCoef` is
   * true and `alpha1`/`beta1` otherwise; a missing key raises KeyError,
   * looked up in that order.
   */
  function ZhCoefs(coef: map<string, Value>): (r: Result<map<string, Value>>)
    ensures "invCoef" !in coef ==> r == Fail(KeyError("invCoef"))
    ensures "invCoef" in coef ==>
      var (a, b) := if Truthy(coef["invCoef"]) then ("alpha0", "beta0") else ("alpha1", "beta1");
      (r.Ok? <==> a in coef && b in coef) &&
      (a !in coef ==> r == Fail(KeyError(a))) &&
      (a in coef && b !in coef ==> r == Fail(KeyError(b)))
    ensures r.Ok? ==> r.value.Keys == {"invCoef", "alpha", "beta"} && r.value["invCoef"] == coef["invCoef"]
    ensures r.Ok? && Truthy(coef["invCoef"]) ==> r.value["alpha"] == coef["alpha0"] && r.value["beta"] == coef["beta0"]
    ensures r.Ok? && !Truthy(coef["invCoef"]) ==> r.value["alpha"] == coef["alpha1"] && r.value["beta"] == coef["beta1"]
  {
    if "invCoef" !in coef then Fail(KeyError("invCoef"))
    else
      var (a, b) := if Truthy(coef["invCoef"]) then ("alpha0", "beta0") else ("alpha1", "beta1");
      if a !in coef then Fail(KeyError(a))
      else if b !in coef then Fail(KeyError(b))
      else Ok(map["invCoef" := coef["invCoef"], "alpha" := coef[a], "beta" := coef[b]])
  }

  /**
   * The narrowing works once: the narrowed dictionary has neither
   * `alpha0` nor `alpha1`, so narrowing it again raises KeyError (which is
   * why the caller, qpe/compute_qpecappi.py, deep-copies `params` per time).
   */
  lemma ZhCoefsNotRepeatable(coef: map<string, Value>)
    requires ZhCoefs(coef).Ok?
    ensures ZhCoefs(ZhCoefs(coef).value).Fail?
    ensures ZhCoefs(ZhCoefs(coef).value).err == KeyError(if Truthy(coef["invCoef"]) then "alpha0" else "alpha1")
  {
    var c := ZhCoefs(coef).value;
    assert "alpha0" !in c && "alpha1" !in c;
  }

  /** The narrowed coefficients bind as `rr_zh(dbz, alpha, beta, invCoef)` keywords: no key is unknown. */
  lemma ZhCoefsAreRateKeywords(coef: map<string, Value>)
    requires ZhCoefs(coef).Ok?
    ensures forall k :: k in ZhCoefs(coef).value ==> k in ["alpha", "beta", "invCoef"]
  {
  }

  // ---------------------------------------------------------------
  // Reading and clutter masking
  // ---------------------------------------------------------------

  /**
   * The masking loop over the listed fields, with the condition
   * `CMD_FLAG == 1.` (`useData` false: a masked flag gate masks) or its
   * `.data` (`useData` true: a masked flag gate does not mask).
   */
  function MaskListed(fields: map<string, Field>, names: seq<string>, flag: MArray, useData: bool)
    : (r: Result<map<string, Field>>)
    ensures r.Ok? ==> r.value.Keys == fields.Keys
    ensures r.Ok? ==> forall g :: g in fields && g !in names ==> r.value[g] == fields[g]
    decreases |names|
  {
    if names == [] then Ok(fields)
    else if names[0] !in fields then Fail(KeyError(names[0]))
    else match MaskWhereFlag(fields[names[0]].data, flag, useData)
         case Fail(e) => Fail(e)
         case Ok(m) => MaskListed(SetData(fields, names[0], m), names[1..], flag, useData)
  }

  /**
   * For a duplicate-free list the loop succeeds iff every listed field
   * exists with the flag's shape, and then each listed field is its own
   * data masked where the flag says so, units kept.
   */
  lemma {:induction false} MaskListedResult(fields: map<string, Field>, names: seq<string>, flag: MArray, useData: bool)
    requires NoDuplicates(names)
    ensures var r := MaskListed(fields, names, flag, useData);
      (r.Ok? <==> forall f :: f in names ==> f in fields && SameShape(fields[f].data, flag)) &&
      (r.Ok? ==> forall f :: f in names ==>
         r.value[f] == Field(MaskWhereFlag(fields[f].data, flag, useData).value, fields[f].units))
    decreases |names|
  {
    if names != [] && names[0] in fields && SameShape(fields[names[0]].data, flag) {
      var f0 := names[0];
      var fields' := SetData(fields, f0, MaskWhereFlag(fields[f0].data, flag, useData).value);
      assert NoDuplicates(names[1..]) by {
        forall a, b | 0 <= a < b < |names[1..]| ensures names[1..][a] != names[1..][b] {
          assert names[1..][a] == names[a + 1] && names[1..][b] == names[b + 1];
        }
      }
      MaskListedResult(fields', names[1..], flag, useData);
      assert f0 !in names[1..] by {
        forall k | 0 <= k < |names[1..]| ensures names[1..][k] != f0 {
          assert names[1..][k] == names[k + 1];
        }
      }
      assert forall f :: f in names <==> f == f0 || f in names[1..];
    }
  }

  /** With the masked comparison the loop is the api layer's clutter-mask loop. */
  lemma {:induction false} MaskListedIsMaskEach(fields: map<string, Field>, names: seq<string>, flag: MArray)
    ensures MaskListed(fields, names, flag, false).Ok? <==> MaskEach(fields, names, flag).err.None?
    ensures MaskListed(fields, names, flag, false).Ok? ==>
      MaskListed(fields, names, flag, false).value == MaskEach(fields, names, flag).fields
    decreases |names|
  {
    if names != [] && names[0] in fields && MaskWhereFlag(fields[names[0]].data, flag, false).Ok? {
      var m := MaskWhereFlag(fields[names[0]].data, flag, false).value;
      MaskListedIsMaskEach(SetData(fields, names[0], m), names[1..], flag);
    }
  }

  /**
   * What the function returns for a found file, and the `rate_coef` it
   * leaves in `params`.
   */
  datatype PrecipOutcome = PrecipOutcome(fields: Result<map<string, Field>>, rateCoef: map<string, Value>)

  /** The read, and with `cmdflag` the masking; KeyError when the file has no `CMD_FLAG`. */
  function ReadMasked(file: MdvFile, names: seq<string>, cmdflag: bool, useData: bool): (r: Result<map<string, Field>>)
    ensures !cmdflag ==> r == Ok(PolarRead(file, FieldsList(names)))
    ensures cmdflag && "CMD_FLAG" !in file.fields ==> r == Fail(KeyError("CMD_FLAG"))
  {
    if !cmdflag then Ok(PolarRead(file, FieldsList(names)))
    else
      var read := PolarRead(file, FieldsList(["CMD_FLAG"] + names));
      if "CMD_FLAG" !in read then Fail(KeyError("CMD_FLAG"))
      else MaskListed(read, names, read["CMD_FLAG"].data, useData)
  }

  function PrecipDataSpec(file: MdvFile, v: PrecipView, cmdflag: bool, useData: bool): (o: PrecipOutcome)
    ensures PrecipFields(v).Fail? ==> o == PrecipOutcome(Fail(PrecipFields(v).err), v.rateCoef)
    ensures v.rateLabel != "RATE_Z" ==> o.rateCoef == v.rateCoef
    ensures PrecipFields(v).Ok? && v.rateLabel == "RATE_Z" && ZhCoefs(v.rateCoef).Ok? ==>
      o.rateCoef == ZhCoefs(v.rateCoef).value
    ensures PrecipFields(v).Ok? && v.rateLabel == "RATE_Z" && ZhCoefs(v.rateCoef).Fail? ==>
      o.fields == Fail(ZhCoefs(v.rateCoef).err)
    ensures PrecipFields(v).Ok? && (v.rateLabel != "RATE_Z" || ZhCoefs(v.rateCoef).Ok?) ==>
      o.fields == ReadMasked(file, PrecipFields(v).value, cmdflag, useData)
  {
    match PrecipFields(v)
    case Fail(e) => PrecipOutcome(Fail(e), v.rateCoef)
    case Ok(names) =>
      if v.rateLabel == "RATE_Z" then
        match ZhCoefs(v.rateCoef)
        case Fail(e) => PrecipOutcome(Fail(e), v.rateCoef)
        case Ok(c) => PrecipOutcome(ReadMasked(file, names, cmdflag, useData), c)
      else PrecipOutcome(ReadMasked(file, names, cmdflag, useData), v.rateCoef)
  }

  /**
   * With `cmdflag`, a successful read holds `CMD_FLAG` and every listed
   * field, each masked wherever the flag gate is a valid 1 (and, with the
   * masked comparison, wherever the flag gate is masked), never unmasked.
   */
  lemma ReadMaskedCmd(file: MdvFile, names: seq<string>, useData: bool, f: string, i: int, j: int)
    requires NoDuplicates(names) && "CMD_FLAG" !in names && f in names
    requires ReadMasked(file, names, true, useData).Ok?
    ensures var out := ReadMasked(file, names, true, useData).value;
      "CMD_FLAG" in out && f in out &&
      "CMD_FLAG" in file.fields && f in file.fields &&
      out["CMD_FLAG"] == file.fields["CMD_FLAG"] &&
      SameShape(out[f].data, out["CMD_FLAG"].data) && SameShape(out[f].data, file.fields[f].data) &&
      (0 <= i < |out[f].data.rows| && 0 <= j < |out[f].data.rows[i]| ==>
        var flag := file.fields["CMD_FLAG"].data.rows[i][j];
        (flag.valid && flag.value == 1.0 ==> !out[f].data.rows[i][j].valid) &&
        (!useData && !flag.valid ==> !out[f].data.rows[i][j].valid) &&
        (out[f].data.rows[i][j].valid ==> file.fields[f].data.rows[i][j].valid))
  {
    var read := PolarRead(file, FieldsList(["CMD_FLAG"] + names));
    var flag := read["CMD_FLAG"].data;
    var out := MaskListed(read, names, flag, useData);
    assert out == ReadMasked(file, names, true, useData);
    MaskListedResult(read, names, flag, useData);
    assert f in read && SameShape(read[f].data, flag);
    var m := MaskWhereFlag(read[f].data, flag, useData);
    assert out.value[f].data == m.value;
    assert read[f] == file.fields[f] && read["CMD_FLAG"] == file.fields["CMD_FLAG"];
    if 0 <= i < |m.value.rows| && 0 <= j < |m.value.rows[i]| {
      assert m.value.rows[i][j] ==
        if useData then MaskByFlagData(read[f].data.rows[i][j], flag.rows[i][j])
        else MaskByFlag(read[f].data.rows[i][j], flag.rows[i][j]);
    }
  }

  /** The precipitation field list never holds `CMD_FLAG`. */
  lemma CmdFlagNotListed(v: PrecipView)
    requires PrecipFields(v).Ok?
    ensures "CMD_FLAG" !in PrecipFields(v).value
  {
    PrecipFieldListMembers(v, "CMD_FLAG");
    CmdFlagNotCensor(v.filterDbz);
    CmdFlagNotCensor(v.filterZdr);
    CmdFlagNotCensor(v.filterKdp);
  }

  /** For the whole function: every field it read is clutter-masked when `cmdflag` is set. */
  lemma CmdMaskedEverywhere(file: MdvFile, v: PrecipView, useData: bool, f: string, i: int, j: int)
    requires PrecipDataSpec(file, v, true, useData).fields.Ok?
    requires PrecipFields(v).Ok? && f in PrecipFields(v).value
    ensures var out := PrecipDataSpec(file, v, true, useData).fields.value;
      "CMD_FLAG" in file.fields && f in out && f in file.fields &&
      SameShape(out[f].data, file.fields[f].data) && SameShape(out[f].data, file.fields["CMD_FLAG"].data) &&
      (0 <= i < |out[f].data.rows| && 0 <= j < |out[f].data.rows[i]| ==>
        var flag := file.fields["CMD_FLAG"].data.rows[i][j];
        (flag.valid && flag.value == 1.0 ==> !out[f].data.rows[i][j].valid) &&
        (out[f].data.rows[i][j].valid ==> file.fields[f].data.rows[i][j].valid))
  {
    var names := PrecipFields(v).value;
    CmdFlagNotListed(v);
    assert PrecipDataSpec(file, v, true, useData).fields == ReadMasked(file, names, true, useData);
    ReadMaskedCmd(file, names, useData, f, i, j);
  }

  /** `CMD_FLAG` does not end in `_F`, so no censor field is `CMD_FLAG`. */
  lemma CmdFlagNotCensor(f: Option<FilterConfig>)
    ensures !AddsCensor(f, "CMD_FLAG")
  {
    var c := CensorName(f);
    if c != "" {
      assert c[|c| - 1] == 'F';
      assert "CMD_FLAG"[7] == 'G';
    }
  }

  // ---------------------------------------------------------------
  // The function
  // ---------------------------------------------------------------

  /**
   * `radarPolarPrecipData`: None (here `Ok(null)`) when no file matches
   * the time; otherwise the read radar, `params['rate_coef']` narrowed for
   * `RATE_Z`.  `cmdmaskY` is `cmdmask == "y"`.
   */
  method RadarPolarPrecipData(found: Option<MdvFile>, p: PrecipParams, cmdflag: bool, cmdmaskY: bool)
    returns (r: Result<Radar?>)
    modifies p
    ensures found.None? ==> r == Ok(null) && p.rateCoef == old(p.rateCoef)
    ensures found.Some? ==>
      var o := PrecipDataSpec(found.value, old(PrecipViewOf(p)), cmdflag, !cmdmaskY);
      p.rateCoef == o.rateCoef &&
      (r.Fail? <==> o.fields.Fail?) &&
      (r.Fail? ==> r.err == o.fields.err) &&
      (r.Ok? ==> r.value != null && fresh(r.value) && r.value.fields == o.fields.value &&
                 r.value.gateSpacing == found.value.gateSpacing)
    ensures p.rateLabel == old(p.rateLabel) && p.pia == old(p.pia) && p.dbzThres == old(p.dbzThres)
    ensures p.filterDbz == old(p.filterDbz) && p.filterZdr == old(p.filterZdr) && p.filterKdp == old(p.filterKdp)
  {
    if found.None? {
      return Ok(null);
    }
    var v := PrecipViewOf(p);
    var names := PrecipFields(v);
    if names.Fail? {
      return Fail(names.err);
    }
    if p.rateLabel == "RATE_Z" {
      var c := ZhCoefs(p.rateCoef);
      if c.Fail? {
        return Fail(c.err);
      }
      p.rateCoef := c.value;
    }
    var file := found.value;
    var radar: Radar;
    if cmdflag {
      radar := new Radar(PolarRead(file, FieldsList(["CMD_FLAG"] + names.value)), file.gateSpacing);
      if "CMD_FLAG" !in radar.fields {
        return Fail(KeyError("CMD_FLAG"));
      }
      var flag := radar.fields["CMD_FLAG"].data;
      var err := MaskRead(radar, names.value, flag, !cmdmaskY);
      if err.Some? {
        return Fail(err.value);
      }
    } else {
      radar := new Radar(PolarRead(file, FieldsList(names.value)), file.gateSpacing);
    }
    return Ok(radar);
  }

  /** `for j in range(len(fields))`: mask each listed field of `radar.fields` in place. */
  method MaskRead(radar: Radar, names: seq<string>, flag: MArray, useData: bool) returns (err: Option<Error>)
    modifies radar
    ensures var o := MaskListed(old(radar.fields), names, flag, useData);
      (err.None? <==> o.Ok?) && (err.Some? ==> err.value == o.err) && (o.Ok? ==> radar.fields == o.value)
    ensures radar.gateSpacing == old(radar.gateSpacing)
  {
    var j := 0;
    while j < |names|
      invariant 0 <= j <= |names|
      invariant MaskListed(old(radar.fields), names, flag, useData) == MaskListed(radar.fields, names[j..], flag, useData)
      invariant radar.gateSpacing == old(radar.gateSpacing)
    {
      assert names[j..][1..] == names[j + 1..];
      if names[j] !in radar.fields {
        return Some(KeyError(names[j]));
      }
      var m := MaskWhereFlag(radar.fields[names[j]].data, flag, useData);
      if m.Fail? {
        return Some(m.err);
      }
      radar.fields := SetData(radar.fields, names[j], m.value);
      j := j + 1;
    }
    return None;
  }
}
