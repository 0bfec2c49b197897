/**
 * The conditioning steps of the api/ layer, which rewrite entries of
 * `radar.fields` in place: the median/smoothing filter (`applyFilterQPE`,
 * `applyFilter`), the attenuation correction (`correctAttenuationQPE`,
 * `correctAttenuation`) and the clutter mask (`applyCMDQPE`, `applyCMD`).
 * api/radar_polar.py holds copies of the QPE versions.
 *
 * Each step loops over a list of field names; the QPE versions loop over
 * `list(set(radar.fields) & {DBZ_F, ZDR_F, KDP_F})`, whose order Python
 * leaves open, so that order is a parameter here.  A step that raises
 * part-way leaves the fields it already rewrote rewritten; the
 * specification functions return the fields together with the error.
 */
module Conditioning {
  import opened Wrappers
  import opened PyBase
  import opened Gates
  import opened Radars
  import opened Utilities
  import opened Filter
  import opened Pia
  import opened ApiConfig
  import opened FieldPlan

  /** The state of `radar.fields` after a step, and the exception it raised, if any. */
  datatype Outcome = Outcome(fields: map<string, Field>, err: Option<Error>)

  /** The field names the QPE steps visit: those of `QpeFields` the radar has. */
  function QpeTargets(keys: set<string>): (t: set<string>)
    ensures forall x :: x in t <==> x in keys && x in QpeFields
  {
    set x | x in keys && x in QpeFields
  }

  /** `order` lists the members of `s`, each once. */
  ghost predicate Enumerates(order: seq<string>, s: set<string>)
  {
    NoDuplicates(order) && forall x :: x in order <==> x in s
  }

  /** `radar.fields[name]["data"] = data`: the other metadata of the entry is kept. */
  function SetData(fields: map<string, Field>, name: string, data: MArray): (r: map<string, Field>)
    requires name in fields
    ensures r.Keys == fields.Keys && r[name] == Field(data, fields[name].units)
    ensures forall g :: g in fields && g != name ==> r[g] == fields[g]
  {
    fields[name := Field(data, fields[name].units)]
  }

  // ---------------------------------------------------------------
  // Filtering
  // ---------------------------------------------------------------

  /** The names `apply_filter(radar, fun, f, **kw)` reads from `radar.fields`: `f` and, when censoring, the censor field. */
  function FilterReads(fun: string, f: string, kw: map<string, Value>): set<string>
  {
    var c := Arg(Forwarded(kw, ["median_filter_len", "minsize_seq", "censor_field", "censor_thres"]),
                 "censor_field", VStr("RHOHV_F"));
    {f} + (if fun == MedianCensorName && c.VStr? then {c.s} else {})
  }

  /** Rewriting a field the filter does not read does not change the filter's result. */
  lemma ApplyFilterFrame(fields: map<string, Field>, fun: string, f: string, kw: map<string, Value>, k: Kernels,
                         g: string, v: Field)
    requires g !in FilterReads(fun, f, kw)
    ensures ApplyFilterSpec(fields[g := v], fun, f, kw, k) == ApplyFilterSpec(fields, fun, f, kw, k)
  {
    assert g != f;
  }

  /** The filter loop: each listed field replaced by its filtered data, in list order. */
  function FilterEach(fields: map<string, Field>, order: seq<string>, fun: string, kw: map<string, Value>,
                      k: Kernels): (o: Outcome)
    ensures o.fields.Keys == fields.Keys
    ensures forall g :: g in fields && g !in order ==> o.fields[g] == fields[g]
    decreases |order|
  {
    if order == [] then Outcome(fields, None)
    else
      match ApplyFilterSpec(fields, fun, order[0], kw, k)
      case Fail(e) => Outcome(fields, Some(e))
      case Ok(a) =>
        if order[0] !in fields then Outcome(fields, Some(KeyError(order[0])))
        else FilterEach(SetData(fields, order[0], a), order[1..], fun, kw, k)
  }

  /** No listed field is read by the filter of another listed field. */
  predicate Independent(order: seq<string>, fun: string, kw: map<string, Value>)
  {
    NoDuplicates(order) &&
    forall i, j :: 0 <= i < |order| && 0 <= j < |order| && i != j ==> order[j] !in FilterReads(fun, order[i], kw)
  }

  /** Dropping the first field keeps the rest independent. */
  lemma IndependentTail(order: seq<string>, fun: string, kw: map<string, Value>)
    requires order != [] && Independent(order, fun, kw)
    ensures Independent(order[1..], fun, kw)
  {
    var rest := order[1..];
    forall i, j | 0 <= i < |rest| && 0 <= j < |rest| && i != j ensures rest[j] !in FilterReads(fun, rest[i], kw) {
      assert rest[i] == order[i + 1] && rest[j] == order[j + 1];
    }
  }

  /** Filtering the first field changes neither what the others filter to nor which of them are present. */
  lemma FirstFilteredFrame(fields: map<string, Field>, order: seq<string>, fun: string, kw: map<string, Value>,
                           k: Kernels, a: MArray)
    requires order != [] && Independent(order, fun, kw) && order[0] in fields
    ensures forall f :: f in order[1..] ==>
      f != order[0] && (f in SetData(fields, order[0], a) <==> f in fields) &&
      ApplyFilterSpec(SetData(fields, order[0], a), fun, f, kw, k) == ApplyFilterSpec(fields, fun, f, kw, k)
  {
    var f0 := order[0];
    var rest := order[1..];
    forall f | f in rest
      ensures f != f0 && (f in SetData(fields, f0, a) <==> f in fields) &&
        ApplyFilterSpec(SetData(fields, f0, a), fun, f, kw, k) == ApplyFilterSpec(fields, fun, f, kw, k)
    {
      var i :| 0 <= i < |rest| && rest[i] == f;
      assert order[i + 1] == f;
      ApplyFilterFrame(fields, fun, f, kw, k, f0, Field(a, fields[f0].units));
    }
  }

  /**
   * With independent fields the loop order does not matter: it succeeds
   * iff every field filters on the original fields, and then each listed
   * field holds its filtered original data and nothing else changes.
   */
  lemma {:induction false} FilterEachIndependent(fields: map<string, Field>, order: seq<string>, fun: string,
                                                 kw: map<string, Value>, k: Kernels)
    requires Independent(order, fun, kw)
    ensures var o := FilterEach(fields, order, fun, kw, k);
      (o.err.None? <==> forall f :: f in order ==> ApplyFilterSpec(fields, fun, f, kw, k).Ok?) &&
      (o.err.None? ==> forall f :: f in order ==>
         f in fields && o.fields[f] == Field(ApplyFilterSpec(fields, fun, f, kw, k).value, fields[f].units))
    decreases |order|
  {
    if order != [] {
      IndependentTail(order, fun, kw);
      match ApplyFilterSpec(fields, fun, order[0], kw, k)
      case Fail(e) =>
      case Ok(a) =>
        if order[0] in fields {
          FilterEachIndependent(SetData(fields, order[0], a), order[1..], fun, kw, k);
          FirstFilteredFrame(fields, order, fun, kw, k, a);
        }
    }
  }

  /** The filter loop over `radar.fields`. */
  method FilterFields(radar: Radar, order: seq<string>, fun: string, kw: map<string, Value>, k: Kernels)
    returns (err: Option<Error>)
    modifies radar
    ensures var o := FilterEach(old(radar.fields), order, fun, kw, k); radar.fields == o.fields && err == o.err
    ensures radar.gateSpacing == old(radar.gateSpacing)
  {
    var i := 0;
    while i < |order|
      invariant 0 <= i <= |order|
      invariant FilterEach(old(radar.fields), order, fun, kw, k) == FilterEach(radar.fields, order[i..], fun, kw, k)
      invariant radar.gateSpacing == old(radar.gateSpacing)
    {
      assert order[i..][1..] == order[i + 1..];
      var a := ApplyFilter(radar, fun, order[i], kw, k);
      if a.Fail? {
        return Some(a.err);
      }
      if order[i] !in radar.fields {
        return Some(KeyError(order[i]));
      }
      radar.fields := SetData(radar.fields, order[i], a.value);
      i := i + 1;
    }
    return None;
  }

  /** The filter settings after `pars["censor_field"] += "_F"`, done for the censoring filter only. */
  function SuffixedPars(v: MethodView): (r: Result<Option<map<string, Value>>>)
    ensures v.methodName != MedianCensorName ==> r == Ok(v.pars)
    ensures v.methodName == MedianCensorName ==>
      (r.Ok? <==> CensorSuffixed(v.pars).Ok?) &&
      (r.Ok? ==> r.value == Some(v.pars.value["censor_field" := VStr(CensorSuffixed(v.pars).value)])) &&
      (r.Fail? ==> r.err == CensorSuffixed(v.pars).err)
  {
    if v.methodName != MedianCensorName then Ok(v.pars)
    else match CensorSuffixed(v.pars)
         case Fail(e) => Fail(e)
         case Ok(c) => Ok(Some(v.pars.value["censor_field" := VStr(c)]))
  }

  /**
   * `applyFilter(radar, pars_filter, filter_fields)` on a snapshot of the
   * settings: the suffix step, then the loop with `**pars` (TypeError when
   * `pars` is None and some field is to be filtered).
   */
  function FilterToSpec(fields: map<string, Field>, v: MethodView, targets: seq<string>, k: Kernels): (o: Outcome)
    ensures o.fields.Keys == fields.Keys
    ensures forall g :: g in fields && g !in targets ==> o.fields[g] == fields[g]
  {
    match SuffixedPars(v)
    case Fail(e) => Outcome(fields, Some(e))
    case Ok(pars) =>
      if targets == [] then Outcome(fields, None)
      else if pars.None? then Outcome(fields, Some(TypeError))
      else FilterEach(fields, targets, v.methodName, pars.value, k)
  }

  /** `applyFilter(radar, pars_filter, filter_fields)` of api/radarpolar_data.py. */
  method ApplyFilterTo(radar: Radar, p: MethodPars, targets: seq<string>, k: Kernels) returns (err: Option<Error>)
    modifies radar, ParsRef(p)
    ensures var o := FilterToSpec(old(radar.fields), old(ViewOf(p)).value, targets, k);
      radar.fields == o.fields && err == o.err
    ensures radar.gateSpacing == old(radar.gateSpacing)
    ensures var sp := SuffixedPars(old(ViewOf(p)).value); sp.Ok? && sp.value.Some? ==> p.pars.entries == sp.value.value
  {
    ghost var v := ViewOf(p).value;
    if p.methodName == MedianCensorName {
      if p.pars == null {
        return Some(TypeError);
      }
      if "censor_field" !in p.pars.entries {
        return Some(KeyError("censor_field"));
      }
      var c := p.pars.entries["censor_field"];
      if !c.VStr? {
        return Some(TypeError);
      }
      p.pars.entries := p.pars.entries["censor_field" := VStr(c.s + "_F")];
    }
    if targets == [] {
      return None;
    }
    if p.pars == null {
      return Some(TypeError);
    }
    err := FilterFields(radar, targets, p.methodName, p.pars.entries, k);
  }

  /**
   * `applyFilterQPE(radar, pars_filter)`: the same step over the QPE
   * fields the radar has; no other field changes.
   */
  method ApplyFilterQPE(radar: Radar, p: MethodPars, order: seq<string>, k: Kernels) returns (err: Option<Error>)
    requires Enumerates(order, QpeTargets(radar.fields.Keys))
    modifies radar, ParsRef(p)
    ensures var o := FilterToSpec(old(radar.fields), old(ViewOf(p)).value, order, k);
      radar.fields == o.fields && err == o.err
    ensures radar.fields.Keys == old(radar.fields.Keys)
    ensures forall g :: g in old(radar.fields) && g !in QpeFields ==> radar.fields[g] == old(radar.fields[g])
    ensures var sp := SuffixedPars(old(ViewOf(p)).value); sp.Ok? && sp.value.Some? ==> p.pars.entries == sp.value.value
    ensures radar.gateSpacing == old(radar.gateSpacing)
  {
    err := ApplyFilterTo(radar, p, order, k);
  }

  // ---------------------------------------------------------------
  // Attenuation correction
  // ---------------------------------------------------------------

  /** `radar.fields[name]["data"] = radar.fields[name]["data"] + pia`. */
  function AddPia(fields: map<string, Field>, name: string, pia: MArray): (r: Result<map<string, Field>>)
    ensures r.Ok? <==> name in fields && SameShape(fields[name].data, pia)
    ensures r.Ok? ==> r.value == SetData(fields, name, AddArrays(fields[name].data, pia).value)
    ensures r.Fail? && name !in fields ==> r.err == KeyError(name)
  {
    if name !in fields then Fail(KeyError(name))
    else match AddArrays(fields[name].data, pia)
         case Fail(e) => Fail(e)
         case Ok(sum) => Ok(SetData(fields, name, sum))
  }

  /** The `pia_args` dictionary the api/ layer builds: `use_pia` true, the method as `pia_field`, its `pars` under the method's name. */
  function ApiPiaConfig(piaMethod: string, pars: map<string, Value>): PiaConfig
  {
    PiaConfig(VBool(true), piaMethod, Some(pars))
  }

  /** A PIA run over several dBZ fields: the fields, the shared `pars` dictionary and the error, if any. */
  datatype PiaRun = PiaRun(fields: map<string, Field>, pars: map<string, Value>, err: Option<Error>)

  /** What `calculate_pia_dict_args` leaves in the shared `pars` dictionary. */
  function ParsAfterPia(pars: map<string, Value>, piaMethod: string, dbzField: string): map<string, Value>
  {
    match Converted(pars)
    case Ok(conv) => UserArgsAfter(conv, piaMethod, dbzField, "KDP_F")
    case Fail(_) => pars
  }

  /**
   * The loop of `correctAttenuation(radar, pars_pia, dbz_fields)`: each
   * field gets the PIA computed with `dbz_field = field` from the current
   * fields and the current (already updated) `pars` dictionary.
   */
  function CorrectEach(fields: map<string, Field>, gateSpacing: real, piaMethod: string, pars: map<string, Value>,
                       dbzFields: seq<string>, s: Solvers): (r: PiaRun)
    ensures r.fields.Keys == fields.Keys
    ensures forall g :: g in fields && g !in dbzFields ==> r.fields[g] == fields[g]
    decreases |dbzFields|
  {
    if dbzFields == [] then PiaRun(fields, pars, None)
    else
      var f := dbzFields[0];
      var pars' := ParsAfterPia(pars, piaMethod, f);
      match PiaDictSpec(fields, gateSpacing, Some(ApiPiaConfig(piaMethod, pars)), f, "KDP_F", s)
      case Fail(e) => PiaRun(fields, pars', Some(e))
      case Ok(None) => PiaRun(fields, pars', Some(TypeError))
      case Ok(Some(pia)) =>
        match AddPia(fields, f, pia)
        case Fail(e) => PiaRun(fields, pars', Some(e))
        case Ok(fs) => CorrectEach(fs, gateSpacing, piaMethod, pars', dbzFields[1..], s)
  }

  /** One `calculate_pia_dict_args(radar, pia_args, dbz_field = field)` call and the addition. */
  method CorrectOne(radar: Radar, piaMethod: string, pars: ArgDict, field: string, s: Solvers)
    returns (err: Option<Error>)
    modifies radar, pars
    ensures var sp := PiaDictSpec(old(radar.fields), radar.gateSpacing, Some(ApiPiaConfig(piaMethod, old(pars.entries))),
                                  field, "KDP_F", s);
      (sp.Fail? ==> err == Some(sp.err) && radar.fields == old(radar.fields)) &&
      (sp == Ok(None) ==> err == Some(TypeError) && radar.fields == old(radar.fields)) &&
      (sp.Ok? && sp.value.Some? ==>
         var add := AddPia(old(radar.fields), field, sp.value.value);
         (add.Fail? ==> err == Some(add.err) && radar.fields == old(radar.fields)) &&
         (add.Ok? ==> err.None? && radar.fields == add.value))
    ensures Converted(old(pars.entries)).Ok? ==> pars.entries == ParsAfterPia(old(pars.entries), piaMethod, field)
    ensures radar.gateSpacing == old(radar.gateSpacing)
  {
    var cfg := new PiaPars(VBool(true), piaMethod, map[piaMethod := pars]);
    assert PiaConfigOf(cfg) == Some(ApiPiaConfig(piaMethod, pars.entries));
    var pia := CalculatePiaDictArgs(radar, cfg, field, "KDP_F", s);
    if pia.Fail? {
      return Some(pia.err);
    }
    if pia.value.None? {
      return Some(TypeError);
    }
    var add := AddPia(radar.fields, field, pia.value.value);
    if add.Fail? {
      return Some(add.err);
    }
    radar.fields := add.value;
    return None;
  }

  /**
   * `correctAttenuation(radar, pars_pia, dbz_fields)` of
   * api/radarpolar_data.py; a None `pars` raises TypeError when the first
   * field is corrected.
   */
  method CorrectAttenuationTo(radar: Radar, p: MethodPars, dbzFields: seq<string>, s: Solvers)
    returns (err: Option<Error>)
    modifies radar, ParsRef(p)
    ensures p.pars == null ==> err == (if dbzFields == [] then None else Some(TypeError)) && radar.fields == old(radar.fields)
    ensures p.pars != null ==>
      var run := CorrectEach(old(radar.fields), old(radar.gateSpacing), p.methodName, old(p.pars.entries), dbzFields, s);
      radar.fields == run.fields && err == run.err && (err.None? ==> p.pars.entries == run.pars)
    ensures radar.gateSpacing == old(radar.gateSpacing)
  {
    if p.pars == null {
      return if dbzFields == [] then None else Some(TypeError);
    }
    var pars := p.pars;
    var i := 0;
    while i < |dbzFields|
      invariant 0 <= i <= |dbzFields|
      invariant radar.gateSpacing == old(radar.gateSpacing)
      invariant CorrectEach(old(radar.fields), old(radar.gateSpacing), p.methodName, old(pars.entries), dbzFields, s) ==
                CorrectEach(radar.fields, radar.gateSpacing, p.methodName, pars.entries, dbzFields[i..], s)
    {
      assert dbzFields[i..][1..] == dbzFields[i + 1..];
      ghost var before := pars.entries;
      var e := CorrectOne(radar, p.methodName, pars, dbzFields[i], s);
      if e.Some? {
        return e;
      }
      assert Converted(before).Ok?;
      i := i + 1;
    }
    return None;
  }

  /**
   * `correctAttenuationQPE(radar, pars_pia)`: one PIA, computed on the
   * `DBZ_F`/`KDP_F` fields, added to `DBZ_F`; no other field changes.
   */
  method CorrectAttenuationQPE(radar: Radar, p: MethodPars, s: Solvers) returns (err: Option<Error>)
    modifies radar, ParsRef(p)
    ensures p.pars == null ==> err == Some(TypeError) && radar.fields == old(radar.fields)
    ensures p.pars != null ==>
      var run := CorrectEach(old(radar.fields), old(radar.gateSpacing), p.methodName, old(p.pars.entries), ["DBZ_F"], s);
      radar.fields == run.fields && err == run.err && (err.None? ==> p.pars.entries == run.pars)
    ensures radar.fields.Keys == old(radar.fields.Keys)
    ensures forall g :: g in old(radar.fields) && g != "DBZ_F" ==> radar.fields[g] == old(radar.fields[g])
    ensures radar.gateSpacing == old(radar.gateSpacing)
  {
    err := CorrectAttenuationTo(radar, p, ["DBZ_F"], s);
  }

  // ---------------------------------------------------------------
  // Clutter mask
  // ---------------------------------------------------------------

  /** The masking loop with the flag read once before it. */
  function MaskEach(fields: map<string, Field>, targets: seq<string>, flag: MArray): (o: Outcome)
    ensures o.fields.Keys == fields.Keys
    ensures forall g :: g in fields && g !in targets ==> o.fields[g] == fields[g]
    decreases |targets|
  {
    if targets == [] then Outcome(fields, None)
    else if targets[0] !in fields then Outcome(fields, Some(KeyError(targets[0])))
    else match MaskWhereFlag(fields[targets[0]].data, flag, false)
         case Fail(e) => Outcome(fields, Some(e))
         case Ok(m) => MaskEach(SetData(fields, targets[0], m), targets[1..], flag)
  }

  /** Masking twice with the same flag is masking once. */
  lemma MaskWhereFlagIdempotent(a: MArray, flag: MArray)
    requires MaskWhereFlag(a, flag, false).Ok?
    ensures MaskWhereFlag(MaskWhereFlag(a, flag, false).value, flag, false) == MaskWhereFlag(a, flag, false)
  {
    var m := MaskWhereFlag(a, flag, false).value;
    var mm := MaskWhereFlag(m, flag, false).value;
    assert mm.rows == m.rows by {
      assert |mm.rows| == |m.rows|;
      forall i | 0 <= i < |m.rows| ensures mm.rows[i] == m.rows[i] {
        assert |mm.rows[i]| == |m.rows[i]|;
      }
    }
  }

  /**
   * Whatever the order, and even with repeated names, the loop succeeds
   * iff every listed field exists and has the flag's shape; then each
   * listed field is its original data masked where `CMD_FLAG == 1`.
   */
  lemma {:induction false} MaskEachResult(fields: map<string, Field>, targets: seq<string>, flag: MArray)
    ensures var o := MaskEach(fields, targets, flag);
      (o.err.None? <==> forall f :: f in targets ==> f in fields && SameShape(fields[f].data, flag)) &&
      (o.err.None? ==> forall f :: f in targets ==>
         o.fields[f] == Field(MaskWhereFlag(fields[f].data, flag, false).value, fields[f].units))
    decreases |targets|
  {
    if targets != [] && targets[0] in fields && SameShape(fields[targets[0]].data, flag) {
      var f0 := targets[0];
      var m := MaskWhereFlag(fields[f0].data, flag, false).value;
      var fields' := SetData(fields, f0, m);
      MaskEachResult(fields', targets[1..], flag);
      MaskWhereFlagIdempotent(fields[f0].data, flag);
      forall f | f in targets[1..] && f != f0
        ensures f in fields' <==> f in fields
        ensures f in fields ==> fields'[f] == fields[f]
      {
      }
      assert forall f :: f in targets <==> f == f0 || f in targets[1..];
    }
  }

  /** The masking loop over `radar.fields`. */
  method MaskFields(radar: Radar, targets: seq<string>, flag: MArray) returns (err: Option<Error>)
    modifies radar
    ensures var o := MaskEach(old(radar.fields), targets, flag); radar.fields == o.fields && err == o.err
    ensures radar.gateSpacing == old(radar.gateSpacing)
  {
    var i := 0;
    while i < |targets|
      invariant 0 <= i <= |targets|
      invariant MaskEach(old(radar.fields), targets, flag) == MaskEach(radar.fields, targets[i..], flag)
      invariant radar.gateSpacing == old(radar.gateSpacing)
    {
      assert targets[i..][1..] == targets[i + 1..];
      if targets[i] !in radar.fields {
        return Some(KeyError(targets[i]));
      }
      var m := MaskWhereFlag(radar.fields[targets[i]].data, flag, false);
      if m.Fail? {
        return Some(m.err);
      }
      radar.fields := SetData(radar.fields, targets[i], m.value);
      i := i + 1;
    }
    return None;
  }

  /** `applyCMD(radar, fields)` of api/radarpolar_data.py: KeyError without `CMD_FLAG`. */
  function CmdToSpec(fields: map<string, Field>, targets: seq<string>): (o: Outcome)
    ensures "CMD_FLAG" !in fields ==> o == Outcome(fields, Some(KeyError("CMD_FLAG")))
    ensures "CMD_FLAG" in fields ==> o == MaskEach(fields, targets, fields["CMD_FLAG"].data)
  {
    if "CMD_FLAG" !in fields then Outcome(fields, Some(KeyError("CMD_FLAG")))
    else MaskEach(fields, targets, fields["CMD_FLAG"].data)
  }

  /** Masks only grow, data values are kept, and unlisted fields are untouched. */
  lemma CmdToNeverUnmasks(fields: map<string, Field>, targets: seq<string>, f: string)
    requires CmdToSpec(fields, targets).err.None? && f in targets
    ensures f in fields && MaskGrows(fields[f].data, CmdToSpec(fields, targets).fields[f].data)
    ensures forall i, j :: 0 <= i < |fields[f].data.rows| && 0 <= j < |fields[f].data.rows[i]| ==>
      CmdToSpec(fields, targets).fields[f].data.rows[i][j].value == fields[f].data.rows[i][j].value
  {
    MaskEachResult(fields, targets, fields["CMD_FLAG"].data);
  }

  method ApplyCmdTo(radar: Radar, targets: seq<string>) returns (err: Option<Error>)
    modifies radar
    ensures var o := CmdToSpec(old(radar.fields), targets); radar.fields == o.fields && err == o.err
    ensures radar.gateSpacing == old(radar.gateSpacing)
  {
    if "CMD_FLAG" !in radar.fields {
      return Some(KeyError("CMD_FLAG"));
    }
    err := MaskFields(radar, targets, radar.fields["CMD_FLAG"].data);
  }

  /** `applyCMDQPE(radar)`: the clutter mask on the QPE fields the radar has. */
  method ApplyCmdQPE(radar: Radar, order: seq<string>) returns (err: Option<Error>)
    requires Enumerates(order, QpeTargets(radar.fields.Keys))
    modifies radar
    ensures var o := CmdToSpec(old(radar.fields), order); radar.fields == o.fields && err == o.err
    ensures forall g :: g in old(radar.fields) && g !in QpeFields ==> radar.fields[g] == old(radar.fields[g])
    ensures radar.gateSpacing == old(radar.gateSpacing)
  {
    err := ApplyCmdTo(radar, order);
  }
}
