/**
 * `create_cappi_data(dirMDV, source, time, pars)` of api/create_cappi.py:
 * the fields the user asked for, plus those the conditioning needs, are
 * read from the polar file of the time; the filter, the attenuation
 * correction and the clutter mask run on the lists the user gave; the
 * requested fields are gridded into a CAPPI.  The file selection is a
 * parameter (`found`), as in PolarReaders.
 */
module CappiData {
  import opened Wrappers
  import opened PyBase
  import opened Radars
  import opened Filter
  import opened Pia
  import opened PrecipPolar
  import opened ApiConfig
  import opened FieldPlan
  import opened Conditioning
  import opened ReadMdv
  import opened PolarReaders
  import opened CreateCappi
  import opened QpeCappi

  /** The settings `create_cappi_data` reads from `pars`, at one moment. */
  datatype CappiSettings = CappiSettings(fields: seq<string>, cappi: MethodView, pia: Option<MethodView>,
                                         filter: Option<MethodView>, applyCmd: bool,
                                         dbzFields: Option<seq<string>>, filterFields: Option<seq<string>>)

  /** `pars[name] or []` for the optional lists. */
  function OrEmpty(l: Option<seq<string>>): seq<string>
  {
    if l.Some? then l.value else []
  }

  /** `bool(pars[name])` for an optional list: None and `[]` are false. */
  predicate NonEmpty(l: Option<seq<string>>)
  {
    l.Some? && l.value != []
  }

  /**
   * `fields_read`: the requested fields, the conditioning fields, the
   * dBZ fields and the filter fields, each name once, in that order.
   */
  function FieldsRead(st: CappiSettings): (r: Result<seq<string>>)
    ensures r.Ok? <==> FieldsPiaFilterCmd(st.pia, st.filter, st.applyCmd).Ok?
    ensures r.Fail? ==> r.err == FieldsPiaFilterCmd(st.pia, st.filter, st.applyCmd).err
    ensures r.Ok? ==> NoDuplicates(r.value) && Dedup(st.fields) <= r.value
    ensures r.Ok? ==> forall x :: x in r.value <==>
      x in st.fields || x in FieldsPiaFilterCmd(st.pia, st.filter, st.applyCmd).value ||
      x in OrEmpty(st.dbzFields) || x in OrEmpty(st.filterFields)
  {
    match FieldsPiaFilterCmd(st.pia, st.filter, st.applyCmd)
    case Fail(e) => Fail(e)
    case Ok(c) =>
      var all := st.fields + c + OrEmpty(st.dbzFields) + OrEmpty(st.filterFields);
      DedupNoDuplicates(all);
      assert all == st.fields + (c + OrEmpty(st.dbzFields) + OrEmpty(st.filterFields));
      DedupPrefix(st.fields, c + OrEmpty(st.dbzFields) + OrEmpty(st.filterFields));
      Ok(Dedup(all))
  }

  /** The fields a step produced and the settings it left. */
  datatype CappiStaged = CappiStaged(fields: map<string, Field>, settings: CappiSettings)

  /**
   * `applyFilter(radar, pars["filter"], pars["filter_fields"])`, run only
   * when both are truthy: the listed fields are filtered and the
   * censoring filter's `censor_field` gets its suffix.
   */
  function FilterStage(x: CappiStaged, k: Kernels): (r: Result<CappiStaged>)
    ensures x.settings.filter.None? || !NonEmpty(x.settings.filterFields) ==> r == Ok(x)
    ensures r.Ok? ==> r.value.fields.Keys == x.fields.Keys
    ensures r.Ok? ==> forall f :: f in x.fields && f !in OrEmpty(x.settings.filterFields) ==> r.value.fields[f] == x.fields[f]
    ensures r.Ok? ==> r.value.settings == x.settings.(filter := r.value.settings.filter)
  {
    if x.settings.filter.None? || !NonEmpty(x.settings.filterFields) then Ok(x)
    else
      var v := x.settings.filter.value;
      var o := FilterToSpec(x.fields, v, x.settings.filterFields.value, k);
      if o.err.Some? then Fail(o.err.value)
      else
        match SuffixedPars(v)
        case Fail(e) => Fail(e)
        case Ok(pars) => Ok(CappiStaged(o.fields, x.settings.(filter := Some(MethodView(v.methodName, pars)))))
  }

  /**
   * `correctAttenuation(radar, pars["pia"], pars["dbz_fields"])`, run only
   * when both are truthy: only the listed dBZ fields change.
   */
  function PiaStage(x: CappiStaged, gateSpacing: real, s: Solvers): (r: Result<CappiStaged>)
    ensures x.settings.pia.None? || !NonEmpty(x.settings.dbzFields) ==> r == Ok(x)
    ensures x.settings.pia.Some? && NonEmpty(x.settings.dbzFields) && x.settings.pia.value.pars.None? ==>
      r == Fail(TypeError)
    ensures r.Ok? ==> r.value.fields.Keys == x.fields.Keys
    ensures r.Ok? ==> forall f :: f in x.fields && f !in OrEmpty(x.settings.dbzFields) ==> r.value.fields[f] == x.fields[f]
    ensures r.Ok? ==> r.value.settings == x.settings.(pia := r.value.settings.pia)
  {
    if x.settings.pia.None? || !NonEmpty(x.settings.dbzFields) then Ok(x)
    else
      var v := x.settings.pia.value;
      if v.pars.None? then Fail(TypeError)
      else
        var run := CorrectEach(x.fields, gateSpacing, v.methodName, v.pars.value, x.settings.dbzFields.value, s);
        if run.err.Some? then Fail(run.err.value)
        else Ok(CappiStaged(run.fields, x.settings.(pia := Some(MethodView(v.methodName, Some(run.pars))))))
  }

  /** `applyCMD(radar, pars["fields"])` when `apply_cmd` is set: only the requested fields are masked. */
  function CmdStage(x: CappiStaged): (r: Result<CappiStaged>)
    ensures !x.settings.applyCmd ==> r == Ok(x)
    ensures x.settings.applyCmd && "CMD_FLAG" !in x.fields ==> r == Fail(KeyError("CMD_FLAG"))
    ensures r.Ok? ==> r.value.fields.Keys == x.fields.Keys && r.value.settings == x.settings
    ensures r.Ok? ==> forall f :: f in x.fields && f !in x.settings.fields ==> r.value.fields[f] == x.fields[f]
  {
    if !x.settings.applyCmd then Ok(x)
    else
      var o := CmdToSpec(x.fields, x.settings.fields);
      if o.err.Some? then Fail(o.err.value) else Ok(CappiStaged(o.fields, x.settings))
  }

  /** The conditioning steps, in the order filter, PIA, clutter mask. */
  function Condition(x: CappiStaged, gateSpacing: real, e: Engines): (r: Result<CappiStaged>)
    ensures r.Ok? ==> r.value.fields.Keys == x.fields.Keys
    ensures r.Ok? ==> forall f ::
      (f in x.fields && f !in x.settings.fields && f !in OrEmpty(x.settings.dbzFields) &&
       f !in OrEmpty(x.settings.filterFields)) ==> r.value.fields[f] == x.fields[f]
    ensures r.Ok? ==> r.value.settings.fields == x.settings.fields && r.value.settings.cappi == x.settings.cappi
    ensures r.Ok? ==> r.value.settings.applyCmd == x.settings.applyCmd
  {
    match FilterStage(x, e.k)
    case Fail(err) => Fail(err)
    case Ok(x1) =>
      match PiaStage(x1, gateSpacing, e.s)
      case Fail(err) => Fail(err)
      case Ok(x2) => CmdStage(x2)
  }

  /** `create_cappi_grid(radar, pars["fields"], method, param_cappi)`. */
  function GridStage(g: Gridder, fields: map<string, Field>, st: CappiSettings): (r: Result<Cappi>)
    ensures r.Ok? ==> r.value.data.Keys == set f | f in st.fields
    ensures CappiParamOf(st.cappi).Fail? ==> r == Fail(CappiParamOf(st.cappi).err)
  {
    match CappiParamOf(st.cappi)
    case Fail(e) => Fail(e)
    case Ok(param) => CreateCappiGrid(g, fields, st.fields, st.cappi.methodName, param)
  }

  /** One call: the CAPPI (None for `{}`) and the settings it leaves behind. */
  datatype CappiStep = CappiStep(out: Option<Cappi>, after: CappiSettings)

  /**
   * `create_cappi_data` with the file found for the time (None when there
   * is none): the read list is planned first, a time without a file gives
   * `{}` and leaves the settings as they were, and otherwise the CAPPI of
   * the conditioned fields holds exactly the requested fields.
   */
  function CappiDataSpec(e: Engines, g: Gridder, found: Option<MdvFile>, st: CappiSettings): (r: Result<CappiStep>)
    ensures FieldsRead(st).Fail? ==> r == Fail(FieldsRead(st).err)
    ensures FieldsRead(st).Ok? && found.None? ==> r == Ok(CappiStep(None, st))
    ensures r.Ok? && r.value.out.Some? ==> r.value.out.value.data.Keys == set f | f in st.fields
    ensures r.Ok? ==>
      r.value.after.fields == st.fields && r.value.after.cappi == st.cappi && r.value.after.applyCmd == st.applyCmd
  {
    match FieldsRead(st)
    case Fail(err) => Fail(err)
    case Ok(names) =>
      if found.None? then Ok(CappiStep(None, st))
      else
        ConditionedGrid(PolarRead(found.value, FieldsList(names)), found.value.gateSpacing, st, e, g)
  }

  /** The steps of `create_cappi_data` once the radar is read: conditioning, then the gridding. */
  function ConditionedGrid(read: map<string, Field>, gateSpacing: real, st: CappiSettings, e: Engines, g: Gridder)
    : Result<CappiStep>
  {
    match Condition(CappiStaged(read, st), gateSpacing, e)
    case Fail(err) => Fail(err)
    case Ok(x) =>
      match GridStage(g, x.fields, x.settings)
      case Fail(err) => Fail(err)
      case Ok(c) => Ok(CappiStep(Some(c), x.settings))
  }

  /** A successful call gives a product exactly when a file was found. */
  lemma CappiDataProductIffFile(e: Engines, g: Gridder, found: Option<MdvFile>, st: CappiSettings)
    requires CappiDataSpec(e, g, found, st).Ok?
    ensures CappiDataSpec(e, g, found, st).value.out.Some? <==> found.Some?
  {
    if found.Some? {
      var names := FieldsRead(st).value;
      var x := Condition(CappiStaged(PolarRead(found.value, FieldsList(names)), st), found.value.gateSpacing, e).value;
      assert GridStage(g, x.fields, x.settings).Ok?;
    }
  }

  /**
   * A requested field the file has, and that no conditioning list names,
   * reaches the gridding exactly as the file holds it.
   */
  lemma UnconditionedFieldAsRead(e: Engines, file: MdvFile, st: CappiSettings, f: string)
    requires FieldsRead(st).Ok? && f in st.fields && f in file.fields
    requires f !in OrEmpty(st.dbzFields) && f !in OrEmpty(st.filterFields) && !st.applyCmd
    requires Condition(CappiStaged(PolarRead(file, FieldsList(FieldsRead(st).value)), st), file.gateSpacing, e).Ok?
    ensures var x := Condition(CappiStaged(PolarRead(file, FieldsList(FieldsRead(st).value)), st), file.gateSpacing, e).value;
      f in x.fields && x.fields[f] == file.fields[f]
  {
    var read := PolarRead(file, FieldsList(FieldsRead(st).value));
    assert f in FieldsRead(st).value;
    assert f in read;
    var x0 := CappiStaged(read, st);
    var x1 := FilterStage(x0, e.k).value;
    var x2 := PiaStage(x1, file.gateSpacing, e.s).value;
    assert x2.fields[f] == x1.fields[f] == read[f];
  }

  // ---------------------------------------------------------------
  // The same steps on the mutable settings and radar
  // ---------------------------------------------------------------

  /** The `pars` dictionary of `create_cappi_data`: the settings objects (None for no PIA or no filter) and plain entries. */
  datatype CappiRequest = CappiRequest(fields: seq<string>, cappi: MethodPars, pia: MethodPars?, filter: MethodPars?,
                                       applyCmd: bool, dbzFields: Option<seq<string>>, filterFields: Option<seq<string>>)

  /** The settings objects are distinct and share no `pars` dictionary. */
  predicate Separate(req: CappiRequest)
    reads req.cappi, req.pia, req.filter
  {
    req.cappi != req.pia && req.cappi != req.filter && (req.pia != null ==> req.pia != req.filter) &&
    ParsRef(req.cappi) !! ParsRef(req.pia) && ParsRef(req.cappi) !! ParsRef(req.filter) &&
    ParsRef(req.pia) !! ParsRef(req.filter)
  }

  /** What the request holds at one moment. */
  function SettingsOf(req: CappiRequest): CappiSettings
    reads req.cappi, req.pia, req.filter, ParsRef(req.cappi), ParsRef(req.pia), ParsRef(req.filter)
  {
    CappiSettings(req.fields, ViewOf(req.cappi).value, ViewOf(req.pia), ViewOf(req.filter), req.applyCmd,
                  req.dbzFields, req.filterFields)
  }

  /** The filter step on the radar. */
  method FilterStep(radar: Radar, req: CappiRequest, k: Kernels) returns (err: Option<Error>)
    requires Separate(req)
    modifies radar, ParsRef(req.filter)
    ensures var r := FilterStage(CappiStaged(old(radar.fields), old(SettingsOf(req))), k);
      (r.Fail? ==> err == Some(r.err)) &&
      (r.Ok? ==> err.None? && radar.fields == r.value.fields && SettingsOf(req) == r.value.settings)
    ensures radar.gateSpacing == old(radar.gateSpacing)
  {
    if req.filter == null || !NonEmpty(req.filterFields) {
      return None;
    }
    ghost var st := SettingsOf(req);
    err := ApplyFilterTo(radar, req.filter, req.filterFields.value, k);
    assert ViewOf(req.cappi) == Some(st.cappi) && ViewOf(req.pia) == st.pia;
  }

  /** The attenuation step on the radar. */
  method PiaStep(radar: Radar, req: CappiRequest, s: Solvers) returns (err: Option<Error>)
    requires Separate(req)
    modifies radar, ParsRef(req.pia)
    ensures var r := PiaStage(CappiStaged(old(radar.fields), old(SettingsOf(req))), old(radar.gateSpacing), s);
      (r.Fail? ==> err == Some(r.err)) &&
      (r.Ok? ==> err.None? && radar.fields == r.value.fields && SettingsOf(req) == r.value.settings)
    ensures radar.gateSpacing == old(radar.gateSpacing)
  {
    if req.pia == null || !NonEmpty(req.dbzFields) {
      return None;
    }
    ghost var st := SettingsOf(req);
    err := CorrectAttenuationTo(radar, req.pia, req.dbzFields.value, s);
    assert ViewOf(req.cappi) == Some(st.cappi) && ViewOf(req.filter) == st.filter;
  }

  /** The clutter-mask step on the radar. */
  method CmdStep(radar: Radar, req: CappiRequest) returns (err: Option<Error>)
    modifies radar
    ensures var r := CmdStage(CappiStaged(old(radar.fields), SettingsOf(req)));
      (r.Fail? ==> err == Some(r.err)) && (r.Ok? ==> err.None? && radar.fields == r.value.fields)
    ensures radar.gateSpacing == old(radar.gateSpacing) && SettingsOf(req) == old(SettingsOf(req))
  {
    if !req.applyCmd {
      return None;
    }
    err := ApplyCmdTo(radar, req.fields);
  }

  /** The conditioning steps on the radar just read. */
  method ConditionRadar(radar: Radar, req: CappiRequest, e: Engines) returns (err: Option<Error>)
    requires Separate(req)
    modifies radar, ParsRef(req.pia), ParsRef(req.filter)
    ensures var r := Condition(CappiStaged(old(radar.fields), old(SettingsOf(req))), old(radar.gateSpacing), e);
      (r.Fail? ==> err == Some(r.err)) &&
      (r.Ok? ==> err.None? && radar.fields == r.value.fields && SettingsOf(req) == r.value.settings)
  {
    ghost var x0 := CappiStaged(radar.fields, SettingsOf(req));
    ghost var gs := radar.gateSpacing;
    err := FilterStep(radar, req, e.k);
    if err.Some? {
      return;
    }
    ghost var x1 := CappiStaged(radar.fields, SettingsOf(req));
    assert FilterStage(x0, e.k) == Ok(x1);
    err := PiaStep(radar, req, e.s);
    if err.Some? {
      return;
    }
    ghost var x2 := CappiStaged(radar.fields, SettingsOf(req));
    assert PiaStage(x1, gs, e.s) == Ok(x2);
    err := CmdStep(radar, req);
  }

  /** The gridding step on the conditioned radar. */
  method GridStep(radar: Radar, req: CappiRequest, g: Gridder) returns (r: Result<Cappi>)
    ensures r == GridStage(g, radar.fields, SettingsOf(req))
  {
    var param := CappiParamOf(ViewOf(req.cappi).value);
    if param.Fail? {
      return Fail(param.err);
    }
    r := CreateCappiGridMethod(g, radar, req.fields, req.cappi.methodName, param.value);
  }

  /**
   * `create_cappi_data(dirMDV, source, time, pars)`: the result and the
   * settings it leaves are those of `CappiDataSpec` on the settings it was
   * given.
   */
  method CreateCappiData(e: Engines, g: Gridder, found: Option<MdvFile>, req: CappiRequest)
    returns (r: Result<Option<Cappi>>)
    requires Separate(req)
    modifies ParsRef(req.pia), ParsRef(req.filter)
    ensures var spec := CappiDataSpec(e, g, found, old(SettingsOf(req)));
      (r.Fail? <==> spec.Fail?) && (r.Fail? ==> r.err == spec.err) &&
      (r.Ok? ==> r.value == spec.value.out && SettingsOf(req) == spec.value.after)
  {
    var names := FieldsRead(SettingsOf(req));
    if names.Fail? {
      return Fail(names.err);
    }
    var radar := ReadRadarPolar(found, FieldsList(names.value));
    if radar == null {
      return Ok(None);
    }
    var c := ConditionedGridStep(radar, req, e, g);
    r := if c.Ok? then Ok(Some(c.value)) else Fail(c.err);
  }

  /** Conditioning and the gridding on the radar just read. */
  method ConditionedGridStep(radar: Radar, req: CappiRequest, e: Engines, g: Gridder) returns (r: Result<Cappi>)
    requires Separate(req)
    modifies radar, ParsRef(req.pia), ParsRef(req.filter)
    ensures var spec := ConditionedGrid(old(radar.fields), old(radar.gateSpacing), old(SettingsOf(req)), e, g);
      (r.Fail? <==> spec.Fail?) && (r.Fail? ==> r.err == spec.err) &&
      (r.Ok? ==> Some(r.value) == spec.value.out && SettingsOf(req) == spec.value.after)
  {
    ghost var x0 := CappiStaged(radar.fields, SettingsOf(req));
    ghost var gs := radar.gateSpacing;
    var err := ConditionRadar(radar, req, e);
    if err.Some? {
      return Fail(err.value);
    }
    ghost var x1 := CappiStaged(radar.fields, SettingsOf(req));
    assert Condition(x0, gs, e) == Ok(x1);
    r := GridStep(radar, req, g);
  }

}
