/**
 * The batch front ends `computeCAPPIQPE` (api/qpe_cappi_loc.py) and
 * `createCAPPI` (api/create_cappi_loc.py): the settings are defaulted
 * once, then one product is computed per five-minute time and written,
 * times without data being skipped.  The file found for each time is a
 * parameter (`lookup`); the netCDF writing is not modelled, so a run's
 * result is the sequence of products it would write.
 *
 * The loops pass the same settings objects to every call, and a call
 * rewrites some of them (the censor field's suffix, the PIA fields), so
 * each time sees the settings the previous time left.
 */
module Series {
  import opened Wrappers
  import opened PyBase
  import opened Utilities
  import opened ApiConfig
  import opened Filter
  import opened Conditioning
  import opened FieldPlan
  import opened ReadMdv
  import opened PolarReaders
  import opened PrecipPolar
  import opened CreateCappi
  import opened QpeCappi
  import opened CappiData
  import opened LocDefaults
  import opened Cadence
  import opened Batch

  // ---------------------------------------------------------------
  // computeCAPPIQPE
  // ---------------------------------------------------------------

  /** One call of `compute_cappi_qpe` as a step of the batch loop. */
  function QpeCall(e: Engines, g: Gridder): (Option<MdvFile>, QpeSettings) -> Result<Stepped<QpeSettings, QpeOut>>
  {
    (f: Option<MdvFile>, st: QpeSettings) =>
      match CappiQpeSpec(e, g, f, st)
      case Fail(err) => Fail(err)
      case Ok(s) => Ok(Stepped(s.out, s.after))
  }

  /** `compute_cappi_qpe` gives a product exactly for a time with a file. */
  lemma QpeCallProductIffFile(e: Engines, g: Gridder)
    ensures ProductIffFile(QpeCall(e, g))
  {
    forall f, st | QpeCall(e, g)(f, st).Ok?
      ensures QpeCall(e, g)(f, st).value.out.Some? <==> f.Some?
    {
      CappiQpeProductIffFile(e, g, f, st);
    }
  }

  /**
   * The loop of `computeCAPPIQPE` as written: each time calls
   * `compute_cappi_qpe` with the settings the previous call left; a time
   * without a file writes nothing, and every time with a file writes one
   * product.
   */
  function QpeSeries(e: Engines, g: Gridder, lookup: int -> Option<MdvFile>, times: seq<int>, st: QpeSettings)
    : (r: Result<seq<QpeOut>>)
    ensures r.Ok? ==> |r.value| == WithFile(lookup, times)
  {
    QpeCallProductIffFile(e, g);
    RunCount(QpeCall(e, g), lookup, times, st);
    Run(QpeCall(e, g), lookup, times, st)
  }

  /** With no file at any time nothing is written, and the run succeeds when the settings plan a read list. */
  lemma QpeSeriesNoFiles(e: Engines, g: Gridder, lookup: int -> Option<MdvFile>, times: seq<int>, st: QpeSettings)
    requires forall t :: t in times ==> lookup(t).None?
    requires FieldsToUseQPE(st.qpe.methodName, st.pia, st.filter, st.applyCmd).Ok?
    ensures QpeSeries(e, g, lookup, times, st) == Ok([])
  {
    assert QpeCall(e, g)(None, st) == Ok(Stepped(None, st));
    RunNoFiles(QpeCall(e, g), lookup, times, st);
  }

  /** What `compute_cappi_qpe` returned and left, as the outcome of the step `QpeCall`. */
  lemma QpeCallIs(e: Engines, g: Gridder, found: Option<MdvFile>, st: QpeSettings, r: Result<Option<QpeOut>>,
                  after: QpeSettings)
    requires var spec := CappiQpeSpec(e, g, found, st);
      (r.Fail? <==> spec.Fail?) && (r.Fail? ==> r.err == spec.err) &&
      (r.Ok? ==> r.value == spec.value.out && after == spec.value.after)
    ensures r.Fail? ==> QpeCall(e, g)(found, st) == Fail(r.err)
    ensures r.Ok? ==> QpeCall(e, g)(found, st) == Ok(Stepped(r.value, after))
  {
  }

  /** One `compute_cappi_qpe` call of the loop, as the step `QpeCall` from the settings it found. */
  method QpeStepCall(e: Engines, g: Gridder, found: Option<MdvFile>, req: QpeRequest) returns (data: Result<Option<QpeOut>>)
    requires QpeCappi.Separate(req)
    modifies req.qpe, ParsRef(req.pia), ParsRef(req.filter)
    ensures QpeCappi.Separate(req)
    ensures data.Fail? ==> QpeCall(e, g)(found, old(QpeCappi.SettingsOf(req))) == Fail(data.err)
    ensures data.Ok? ==> QpeCall(e, g)(found, old(QpeCappi.SettingsOf(req))) == Ok(Stepped(data.value, QpeCappi.SettingsOf(req)))
  {
    ghost var st := QpeCappi.SettingsOf(req);
    data := ComputeCappiQpe(e, g, found, req);
    SeparateKept(req);
    QpeCallIs(e, g, found, st, data, QpeCappi.SettingsOf(req));
  }

  /** `for time in seqTime: data = compute_cappi_qpe(dirMdvDate, time, pars)`, skipping `{}`. */
  method ComputeCappiQpeSeries(e: Engines, g: Gridder, lookup: int -> Option<MdvFile>, times: seq<int>,
                               req: QpeRequest) returns (r: Result<seq<QpeOut>>)
    requires QpeCappi.Separate(req)
    modifies req.qpe, ParsRef(req.pia), ParsRef(req.filter)
    ensures r == QpeSeries(e, g, lookup, times, old(QpeCappi.SettingsOf(req)))
  {
    ghost var step := QpeCall(e, g);
    ghost var st0 := QpeCappi.SettingsOf(req);
    var written: seq<QpeOut> := [];
    var i := 0;
    assert times[0..] == times;
    while i < |times|
      invariant 0 <= i <= |times|
      invariant QpeCappi.Separate(req)
      invariant Run(step, lookup, times, st0) == Then(written, Run(step, lookup, times[i..], QpeCappi.SettingsOf(req)))
    {
      ghost var st := QpeCappi.SettingsOf(req);
      var data := QpeStepCall(e, g, lookup(times[i]), req);
      if data.Fail? {
        RunStops(step, lookup, times, i, written, st, data.err);
        return Fail(data.err);
      }
      RunAdvance(step, lookup, times, i, written, st, data.value, QpeCappi.SettingsOf(req));
      written := written + Kept(data.value);
      i := i + 1;
    }
    RunDone(step, lookup, times, written, QpeCappi.SettingsOf(req));
    return Ok(written);
  }

  /** The PIA settings after defaulting. */
  function DefaultedPia(pia: Option<MethodView>): (r: Option<MethodView>)
    ensures r.Some? <==> pia.Some?
    ensures r.Some? ==> r.value == MethodView(pia.value.methodName, Some(PiaDefaults(pia.value.methodName, pia.value.pars)))
  {
    match pia
    case None => None
    case Some(v) => Some(MethodView(v.methodName, Some(PiaDefaults(v.methodName, v.pars))))
  }

  /** The filter settings after defaulting. */
  function DefaultedFilter(filter: Option<MethodView>): (r: Option<MethodView>)
    ensures r.Some? <==> filter.Some?
    ensures r.Some? ==>
      r.value == MethodView(filter.value.methodName, Some(FilterDefaults(filter.value.methodName, filter.value.pars)))
  {
    match filter
    case None => None
    case Some(v) => Some(MethodView(v.methodName, Some(FilterDefaults(v.methodName, v.pars))))
  }

  /**
   * The settings the loop of `computeCAPPIQPE` starts from: the PIA,
   * filter, CAPPI and QPE defaulting, of which only the QPE one can fail.
   */
  function QpeLocSettings(cappi: MethodView, qpe: MethodView, dbzThres: map<string, Value>, applyCmd: bool,
                          pia: Option<MethodView>, filter: Option<MethodView>): (r: Result<QpeSettings>)
    ensures r.Fail? <==> QpeDefaults(qpe.methodName, qpe.pars).Fail?
    ensures r.Fail? ==> r.err == QpeDefaults(qpe.methodName, qpe.pars).err
    ensures r.Ok? ==> r.value.cappi == MethodView(cappi.methodName, Some(CappiDefaults(cappi.methodName, cappi.pars)))
    ensures r.Ok? ==> r.value.qpe == MethodView(qpe.methodName, QpeDefaults(qpe.methodName, qpe.pars).value)
    ensures r.Ok? ==> r.value.pia == DefaultedPia(pia) && r.value.filter == DefaultedFilter(filter)
    ensures r.Ok? ==> r.value.applyCmd == applyCmd && r.value.dbzThres == dbzThres
  {
    match QpeDefaults(qpe.methodName, qpe.pars)
    case Fail(err) => Fail(err)
    case Ok(qp) =>
      Ok(QpeSettings(MethodView(qpe.methodName, qp),
                     MethodView(cappi.methodName, Some(CappiDefaults(cappi.methodName, cappi.pars))),
                     DefaultedPia(pia), DefaultedFilter(filter), applyCmd, dbzThres))
  }

  /** `computeCAPPIQPE(...)`: the defaulting, then the loop over the times from `start` to `end`. */
  function CappiQpeLocSpec(e: Engines, g: Gridder, lookup: int -> Option<MdvFile>, start: int, end: int,
                           cappi: MethodView, qpe: MethodView, dbzThres: map<string, Value>, applyCmd: bool,
                           pia: Option<MethodView>, filter: Option<MethodView>): (r: Result<seq<QpeOut>>)
    ensures QpeDefaults(qpe.methodName, qpe.pars).Fail? ==> r == Fail(QpeDefaults(qpe.methodName, qpe.pars).err)
    ensures r.Ok? ==> |r.value| == WithFile(lookup, Times(start, end))
  {
    match QpeLocSettings(cappi, qpe, dbzThres, applyCmd, pia, filter)
    case Fail(err) => Fail(err)
    case Ok(st) => QpeSeries(e, g, lookup, Times(start, end), st)
  }

  /** The PIA and filter defaulting the two front ends share. */
  method DefaultConditioning(pia: MethodPars?, filter: MethodPars?)
    requires pia != null ==> pia != filter
    modifies pia, filter
    ensures ViewOf(pia) == DefaultedPia(old(ViewOf(pia))) && ViewOf(filter) == DefaultedFilter(old(ViewOf(filter)))
    ensures fresh(ParsRef(pia)) && fresh(ParsRef(filter)) && ParsRef(pia) !! ParsRef(filter)
  {
    DefaultPia(pia);
    DefaultFilter(filter);
  }

  /** The CAPPI and QPE defaulting the QPE front end adds: each object gets a new `pars`. */
  method DefaultProduct(cappi: MethodPars, qpe: MethodPars) returns (err: Option<Error>)
    requires cappi != qpe
    modifies cappi, qpe
    ensures var d := QpeDefaults(old(qpe.methodName), old(ViewOf(qpe)).value.pars);
      (err.Some? <==> d.Fail?) && (err.Some? ==> err.value == d.err) &&
      (err.None? ==> ViewOf(qpe) == Some(MethodView(old(qpe.methodName), d.value)) &&
                     ViewOf(cappi).value == MethodView(old(cappi.methodName),
                                                       Some(CappiDefaults(old(cappi.methodName), old(ViewOf(cappi)).value.pars))))
    ensures fresh(ParsRef(cappi)) && ParsRef(cappi) != {}
    ensures err.None? ==> (ParsRef(qpe) == {} || fresh(ParsRef(qpe))) && ParsRef(cappi) !! ParsRef(qpe)
  {
    DefaultCappi(cappi);
    ghost var vc1 := ViewOf(cappi);
    err := DefaultQpe(qpe);
    assert ViewOf(cappi) == vc1;
  }

  /**
   * The defaulting at the head of `computeCAPPIQPE`: each settings object
   * gets a new `pars`, and the request the loop runs on is built from
   * them.
   */
  method DefaultQpeRequest(cappi: MethodPars, qpe: MethodPars, dbzThres: map<string, Value>, applyCmd: bool,
                           pia: MethodPars?, filter: MethodPars?) returns (r: Result<QpeRequest>)
    requires cappi != qpe && cappi != pia && cappi != filter && qpe != pia && qpe != filter
    requires pia != null ==> pia != filter
    modifies cappi, qpe, pia, filter
    ensures var s := QpeLocSettings(old(ViewOf(cappi)).value, old(ViewOf(qpe)).value, dbzThres, applyCmd,
                                    old(ViewOf(pia)), old(ViewOf(filter)));
      (r.Fail? <==> s.Fail?) && (r.Fail? ==> r.err == s.err) &&
      (r.Ok? ==> r.value == QpeRequest(qpe, cappi, pia, filter, applyCmd, dbzThres) &&
                 QpeCappi.Separate(r.value) && QpeCappi.SettingsOf(r.value) == s.value)
    ensures ParsRef(pia) == {} || fresh(ParsRef(pia))
    ensures ParsRef(filter) == {} || fresh(ParsRef(filter))
  {
    ghost var vc, vq, vp, vf := ViewOf(cappi).value, ViewOf(qpe).value, ViewOf(pia), ViewOf(filter);
    DefaultConditioning(pia, filter);
    var err := DefaultProduct(cappi, qpe);
    if err.Some? {
      return Fail(err.value);
    }
    var req := QpeRequest(qpe, cappi, pia, filter, applyCmd, dbzThres);
    assert ViewOf(cappi).value == MethodView(vc.methodName, Some(CappiDefaults(vc.methodName, vc.pars)));
    assert ViewOf(qpe).value == MethodView(vq.methodName, QpeDefaults(vq.methodName, vq.pars).value);
    assert ViewOf(pia) == DefaultedPia(vp);
    assert ViewOf(filter) == DefaultedFilter(vf);
    assert QpeCappi.SettingsOf(req) ==
      QpeSettings(ViewOf(qpe).value, ViewOf(cappi).value, ViewOf(pia), ViewOf(filter), applyCmd, dbzThres);
    return Ok(req);
  }

  /**
   * `computeCAPPIQPE`: the caller's settings objects are defaulted in
   * place, then the loop runs on them.
   */
  method ComputeCappiQpeLoc(e: Engines, g: Gridder, lookup: int -> Option<MdvFile>, start: int, end: int,
                            cappi: MethodPars, qpe: MethodPars, dbzThres: map<string, Value>, applyCmd: bool,
                            pia: MethodPars?, filter: MethodPars?) returns (r: Result<seq<QpeOut>>)
    requires cappi != qpe && cappi != pia && cappi != filter && qpe != pia && qpe != filter
    requires pia != null ==> pia != filter
    modifies cappi, qpe, pia, filter
    ensures r == CappiQpeLocSpec(e, g, lookup, start, end, old(ViewOf(cappi)).value, old(ViewOf(qpe)).value,
                                 dbzThres, applyCmd, old(ViewOf(pia)), old(ViewOf(filter)))
  {
    var req := DefaultQpeRequest(cappi, qpe, dbzThres, applyCmd, pia, filter);
    if req.Fail? {
      return Fail(req.err);
    }
    r := ComputeCappiQpeSeries(e, g, lookup, Times(start, end), req.value);
  }

  // ---------------------------------------------------------------
  // createCAPPI
  // ---------------------------------------------------------------

  /** One call of `create_cappi_data` as a step of the batch loop. */
  function CappiCall(e: Engines, g: Gridder): (Option<MdvFile>, CappiSettings) -> Result<Stepped<CappiSettings, Cappi>>
  {
    (f: Option<MdvFile>, st: CappiSettings) =>
      match CappiDataSpec(e, g, f, st)
      case Fail(err) => Fail(err)
      case Ok(s) => Ok(Stepped(s.out, s.after))
  }

  /** `create_cappi_data` gives a product exactly for a time with a file. */
  lemma CappiCallProductIffFile(e: Engines, g: Gridder)
    ensures ProductIffFile(CappiCall(e, g))
  {
    forall f, st | CappiCall(e, g)(f, st).Ok?
      ensures CappiCall(e, g)(f, st).value.out.Some? <==> f.Some?
    {
      CappiDataProductIffFile(e, g, f, st);
    }
  }

  /**
   * Every CAPPI the loop writes holds exactly the requested fields: a
   * call keeps the field list, so every time grids the list the run
   * started with.
   */
  lemma CappiRunKeys(e: Engines, g: Gridder, lookup: int -> Option<MdvFile>, times: seq<int>, st: CappiSettings)
    ensures var r := Run(CappiCall(e, g), lookup, times, st);
      r.Ok? ==> forall k :: 0 <= k < |r.value| ==> r.value[k].data.Keys == set f | f in st.fields
  {
    var keep := (s: CappiSettings) => s.fields == st.fields;
    var keyed := (c: Cappi) => c.data.Keys == set f | f in st.fields;
    CappiCallKeepsFields(e, g, st.fields);
    RunProductsSatisfy(CappiCall(e, g), keep, keyed, lookup, times, st);
  }

  /** A call keeps the requested fields and gives a CAPPI holding exactly those. */
  lemma CappiCallKeepsFields(e: Engines, g: Gridder, fields: seq<string>)
    ensures ProductsSatisfy(CappiCall(e, g), (s: CappiSettings) => s.fields == fields,
                            (c: Cappi) => c.data.Keys == set f | f in fields)
  {
  }

  /** The loop of `createCAPPI` as written: each time sees the settings the previous call left. */
  function CappiSeries(e: Engines, g: Gridder, lookup: int -> Option<MdvFile>, times: seq<int>, st: CappiSettings)
    : (r: Result<seq<Cappi>>)
    ensures r.Ok? ==> |r.value| == WithFile(lookup, times)
    ensures r.Ok? ==> forall k :: 0 <= k < |r.value| ==> r.value[k].data.Keys == set f | f in st.fields
  {
    CappiCallProductIffFile(e, g);
    RunCount(CappiCall(e, g), lookup, times, st);
    CappiRunKeys(e, g, lookup, times, st);
    Run(CappiCall(e, g), lookup, times, st)
  }

  /** What `create_cappi_data` returned and left, as the outcome of the step `CappiCall`. */
  lemma CappiCallIs(e: Engines, g: Gridder, found: Option<MdvFile>, st: CappiSettings, r: Result<Option<Cappi>>,
                    after: CappiSettings)
    requires var spec := CappiDataSpec(e, g, found, st);
      (r.Fail? <==> spec.Fail?) && (r.Fail? ==> r.err == spec.err) &&
      (r.Ok? ==> r.value == spec.value.out && after == spec.value.after)
    ensures r.Fail? ==> CappiCall(e, g)(found, st) == Fail(r.err)
    ensures r.Ok? ==> CappiCall(e, g)(found, st) == Ok(Stepped(r.value, after))
  {
  }

  /** One `create_cappi_data` call of the loop, as the step `CappiCall` from the settings it found. */
  method CappiStep(e: Engines, g: Gridder, found: Option<MdvFile>, req: CappiRequest) returns (don: Result<Option<Cappi>>)
    requires CappiData.Separate(req)
    modifies ParsRef(req.pia), ParsRef(req.filter)
    ensures CappiData.Separate(req)
    ensures don.Fail? ==> CappiCall(e, g)(found, old(CappiData.SettingsOf(req))) == Fail(don.err)
    ensures don.Ok? ==> CappiCall(e, g)(found, old(CappiData.SettingsOf(req))) == Ok(Stepped(don.value, CappiData.SettingsOf(req)))
  {
    ghost var st := CappiData.SettingsOf(req);
    don := CreateCappiData(e, g, found, req);
    CappiCallIs(e, g, found, st, don, CappiData.SettingsOf(req));
  }

  /** `for time in seqTime: don = create_cappi_data(dirMdvDate, None, time, pars)`, skipping `{}`. */
  method CreateCappiSeries(e: Engines, g: Gridder, lookup: int -> Option<MdvFile>, times: seq<int>,
                           req: CappiRequest) returns (r: Result<seq<Cappi>>)
    requires CappiData.Separate(req)
    modifies ParsRef(req.pia), ParsRef(req.filter)
    ensures r == CappiSeries(e, g, lookup, times, old(CappiData.SettingsOf(req)))
  {
    ghost var step := CappiCall(e, g);
    ghost var st0 := CappiData.SettingsOf(req);
    var written: seq<Cappi> := [];
    var i := 0;
    assert times[0..] == times;
    while i < |times|
      invariant 0 <= i <= |times|
      invariant CappiData.Separate(req)
      invariant Run(step, lookup, times, st0) == Then(written, Run(step, lookup, times[i..], CappiData.SettingsOf(req)))
    {
      ghost var st := CappiData.SettingsOf(req);
      var don := CappiStep(e, g, lookup(times[i]), req);
      if don.Fail? {
        RunStops(step, lookup, times, i, written, st, don.err);
        return Fail(don.err);
      }
      RunAdvance(step, lookup, times, i, written, st, don.value, CappiData.SettingsOf(req));
      written := written + Kept(don.value);
      i := i + 1;
    }
    RunDone(step, lookup, times, written, CappiData.SettingsOf(req));
    return Ok(written);
  }

  /** The settings the loop of `createCAPPI` starts from: PIA, filter and CAPPI defaulting, and the lists normalised. */
  function CappiLocSettings(fields: NameArg, cappi: MethodView, applyCmd: bool, pia: Option<MethodView>,
                            dbzFields: Option<NameArg>, filter: Option<MethodView>, filterFields: Option<NameArg>)
    : (r: CappiSettings)
    ensures r.fields == AsList(fields)
    ensures r.cappi == MethodView(cappi.methodName, Some(CappiDefaults(cappi.methodName, cappi.pars)))
    ensures r.dbzFields == AsOptionalList(dbzFields) && r.filterFields == AsOptionalList(filterFields)
    ensures r.pia == DefaultedPia(pia) && r.filter == DefaultedFilter(filter) && r.applyCmd == applyCmd
  {
    CappiSettings(AsList(fields), MethodView(cappi.methodName, Some(CappiDefaults(cappi.methodName, cappi.pars))),
                  DefaultedPia(pia), DefaultedFilter(filter), applyCmd, AsOptionalList(dbzFields),
                  AsOptionalList(filterFields))
  }

  /** `createCAPPI(...)`: the defaulting and normalisation, then the loop. */
  function CreateCappiLocSpec(e: Engines, g: Gridder, lookup: int -> Option<MdvFile>, start: int, end: int,
                              fields: NameArg, cappi: MethodView, applyCmd: bool, pia: Option<MethodView>,
                              dbzFields: Option<NameArg>, filter: Option<MethodView>, filterFields: Option<NameArg>)
    : (r: Result<seq<Cappi>>)
    ensures r.Ok? ==> |r.value| == WithFile(lookup, Times(start, end))
    ensures r.Ok? ==> forall k :: 0 <= k < |r.value| ==> r.value[k].data.Keys == set f | f in AsList(fields)
  {
    CappiSeries(e, g, lookup, Times(start, end),
                CappiLocSettings(fields, cappi, applyCmd, pia, dbzFields, filter, filterFields))
  }

  /** The defaulting and normalisation at the head of `createCAPPI`. */
  method DefaultCappiRequest(fields: NameArg, cappi: MethodPars, applyCmd: bool, pia: MethodPars?,
                             dbzFields: Option<NameArg>, filter: MethodPars?, filterFields: Option<NameArg>)
    returns (req: CappiRequest)
    requires cappi != pia && cappi != filter && (pia != null ==> pia != filter)
    modifies cappi, pia, filter
    ensures req.cappi == cappi && req.pia == pia && req.filter == filter && CappiData.Separate(req)
    ensures CappiData.SettingsOf(req) ==
      CappiLocSettings(fields, old(ViewOf(cappi)).value, applyCmd, old(ViewOf(pia)), dbzFields, old(ViewOf(filter)),
                       filterFields)
    ensures ParsRef(pia) == {} || fresh(ParsRef(pia))
    ensures ParsRef(filter) == {} || fresh(ParsRef(filter))
  {
    ghost var vc, vp, vf := ViewOf(cappi).value, ViewOf(pia), ViewOf(filter);
    DefaultConditioning(pia, filter);
    DefaultCappi(cappi);
    req := CappiRequest(AsList(fields), cappi, pia, filter, applyCmd, AsOptionalList(dbzFields),
                        AsOptionalList(filterFields));
    assert ViewOf(cappi).value == MethodView(vc.methodName, Some(CappiDefaults(vc.methodName, vc.pars)));
    assert ViewOf(pia) == DefaultedPia(vp);
    assert ViewOf(filter) == DefaultedFilter(vf);
    assert CappiData.SettingsOf(req) == CappiSettings(AsList(fields), ViewOf(cappi).value, ViewOf(pia), ViewOf(filter),
                                                      applyCmd, AsOptionalList(dbzFields), AsOptionalList(filterFields));
  }

  /** `createCAPPI`: the caller's settings objects are defaulted in place, then the loop runs on them. */
  method CreateCappiLoc(e: Engines, g: Gridder, lookup: int -> Option<MdvFile>, start: int, end: int,
                        fields: NameArg, cappi: MethodPars, applyCmd: bool, pia: MethodPars?,
                        dbzFields: Option<NameArg>, filter: MethodPars?, filterFields: Option<NameArg>)
    returns (r: Result<seq<Cappi>>)
    requires cappi != pia && cappi != filter && (pia != null ==> pia != filter)
    modifies cappi, pia, filter
    ensures r == CreateCappiLocSpec(e, g, lookup, start, end, fields, old(ViewOf(cappi)).value, applyCmd,
                                    old(ViewOf(pia)), dbzFields, old(ViewOf(filter)), filterFields)
  {
    var req := DefaultCappiRequest(fields, cappi, applyCmd, pia, dbzFields, filter, filterFields);
    r := CreateCappiSeries(e, g, lookup, Times(start, end), req);
  }

  // ---------------------------------------------------------------
  // The censor suffix across times
  // ---------------------------------------------------------------

  /** Censoring filter settings with censor field `c`. */
  predicate CensorsOn(filter: Option<MethodView>, c: string)
  {
    filter.Some? && filter.value.methodName == MedianCensorName && filter.value.pars.Some? &&
    "censor_field" in filter.value.pars.value && filter.value.pars.value["censor_field"] == VStr(c)
  }

  /** A successful filter stage leaves the censor field suffixed with `_F`. */
  lemma FilterStageSuffixes(x: Staged, k: Kernels, c: string)
    requires CensorsOn(x.settings.filter, c) && QpeCappi.FilterStage(x, k).Ok?
    ensures CensorsOn(QpeCappi.FilterStage(x, k).value.settings.filter, c + "_F")
  {
    var v := x.settings.filter.value;
    assert CensorSuffixed(v.pars) == Ok(c + "_F");
    assert SuffixedPars(v) == Ok(Some(v.pars.value["censor_field" := VStr(c + "_F")]));
  }

  /** The PIA and clutter-mask stages leave the filter settings alone. */
  lemma ConditionKeepsFilter(x: Staged, gateSpacing: real, e: Engines)
    requires QpeCappi.Condition(x, gateSpacing, e).Ok?
    ensures QpeCappi.FilterStage(x, e.k).Ok?
    ensures QpeCappi.Condition(x, gateSpacing, e).value.settings.filter == QpeCappi.FilterStage(x, e.k).value.settings.filter
  {
    var x1 := QpeCappi.FilterStage(x, e.k).value;
    var x2 := QpeCappi.PiaStage(x1, gateSpacing, e.s).value;
    assert x2.settings.filter == x1.settings.filter;
  }

  /** A successful call leaves the censor field suffixed with `_F`. */
  lemma CensorSuffixedByCall(e: Engines, g: Gridder, file: MdvFile, st: QpeSettings, c: string)
    requires CensorsOn(st.filter, c)
    requires CappiQpeSpec(e, g, Some(file), st).Ok?
    ensures CensorsOn(CappiQpeSpec(e, g, Some(file), st).value.after.filter, c + "_F")
  {
    var names := FieldsToUseQPE(st.qpe.methodName, st.pia, st.filter, st.applyCmd).value;
    var x0 := Staged(PolarRead(file, FieldsList(names)), st);
    ConditionKeepsFilter(x0, file.gateSpacing, e);
    FilterStageSuffixes(x0, e.k, c);
  }

  /**
   * The censoring filter on DBZ_F, the first QPE field, looks up the
   * censor field with its suffix: when the fields lack it the filter
   * raises KeyError naming it.
   */
  lemma FilterStageCensorFails(x: Staged, k: Kernels, c: string)
    requires CensorsOn(x.settings.filter, c)
    requires "DBZ_F" in x.fields && c + "_F" !in x.fields
    ensures QpeCappi.FilterStage(x, k) == Fail(KeyError(c + "_F"))
  {
    var v := x.settings.filter.value;
    var targets := PresentQpeFields(x.fields.Keys);
    assert targets[0] == "DBZ_F";
    var pars := v.pars.value["censor_field" := VStr(c + "_F")];
    assert CensorSuffixed(v.pars) == Ok(c + "_F");
    assert SuffixedPars(v) == Ok(Some(pars));
    var kw := Forwarded(pars, FilterParams(MedianCensorName).value);
    assert kw["censor_field"] == VStr(c + "_F");
    assert ApplyFilterSpec(x.fields, MedianCensorName, "DBZ_F", pars, k) == Fail(KeyError(c + "_F"));
    assert FilterToSpec(x.fields, v, targets, k).err == Some(KeyError(c + "_F"));
  }

  /**
   * A call of the `RATE_Z` method whose censor field is `c` reads DBZ_F
   * and `c + "_F"`: a file holding DBZ_F but not `c + "_F"` makes the call
   * raise KeyError.
   */
  lemma CensorLookupFails(e: Engines, g: Gridder, file: MdvFile, st: QpeSettings, c: string)
    requires CensorsOn(st.filter, c)
    requires st.qpe.methodName == "RATE_Z"
    requires "DBZ_F" in file.fields && c + "_F" !in file.fields
    ensures CappiQpeSpec(e, g, Some(file), st) == Fail(KeyError(c + "_F"))
  {
    assert CensorSuffixed(st.filter.value.pars) == Ok(c + "_F");
    assert ConditioningFields(st.pia, st.filter, st.applyCmd).Ok?;
    var names := FieldsToUseQPE(st.qpe.methodName, st.pia, st.filter, st.applyCmd).value;
    assert "DBZ_F" in RateBaseFields(st.qpe.methodName);
    assert "DBZ_F" in names;
    var x0 := Staged(PolarRead(file, FieldsList(names)), st);
    assert "DBZ_F" in x0.fields && c + "_F" !in x0.fields;
    FilterStageCensorFails(x0, e.k, c);
  }

  /**
   * After a successful first call on a censoring filter on `c`, a call on
   * a file with DBZ_F but without `c + "_F_F"` raises KeyError naming it.
   */
  lemma SecondCallFails(e: Engines, g: Gridder, f2: MdvFile, after: QpeSettings, c: string)
    requires CensorsOn(after.filter, c + "_F") && after.qpe.methodName == "RATE_Z"
    requires "DBZ_F" in f2.fields && c + "_F_F" !in f2.fields
    ensures QpeCall(e, g)(Some(f2), after) == Fail(KeyError(c + "_F_F"))
  {
    assert c + "_F" + "_F" == c + "_F_F";
    CensorLookupFails(e, g, f2, after, c + "_F");
  }

  /**
   * The loop as written: with a censoring filter on `c`, a first time
   * whose call succeeds makes the next time with data look up
   * `c + "_F_F"`, and a file without that field ends the run with
   * KeyError.
   */
  lemma CensorSuffixAccumulates(e: Engines, g: Gridder, lookup: int -> Option<MdvFile>, t1: int, t2: int,
                                st: QpeSettings, c: string)
    requires CensorsOn(st.filter, c) && st.qpe.methodName == "RATE_Z"
    requires lookup(t1).Some? && CappiQpeSpec(e, g, lookup(t1), st).Ok?
    requires lookup(t2).Some? && "DBZ_F" in lookup(t2).value.fields && c + "_F_F" !in lookup(t2).value.fields
    ensures QpeSeries(e, g, lookup, [t1, t2], st) == Fail(KeyError(c + "_F_F"))
  {
    var s := CappiQpeSpec(e, g, lookup(t1), st).value;
    CensorSuffixedByCall(e, g, lookup(t1).value, st, c);
    CappiQpeProductIffFile(e, g, lookup(t1), st);
    SecondCallFails(e, g, lookup(t2).value, s.after, c);
    assert QpeCall(e, g)(lookup(t1), st) == Ok(Stepped(s.out, s.after));
    RunTwo(QpeCall(e, g), lookup, t1, t2, st);
    assert Run(QpeCall(e, g), lookup, [t2], s.after) == Fail(KeyError(c + "_F_F"));
  }

  /**
   * The loop as intended, each time computed from a copy of the settings
   * (as compute_qpecappi.py does with `copy.deepcopy`): every time sees
   * the settings the run started with.
   */
  function QpeSeriesCopied(e: Engines, g: Gridder, lookup: int -> Option<MdvFile>, times: seq<int>, st: QpeSettings)
    : (r: Result<seq<QpeOut>>)
    ensures r.Ok? ==> |r.value| == WithFile(lookup, times)
  {
    QpeCallProductIffFile(e, g);
    RunCopiedCount(QpeCall(e, g), lookup, times, st);
    RunCopied(QpeCall(e, g), lookup, times, st)
  }

  /**
   * With copied settings a time's outcome does not depend on the times
   * before it: after a first time that succeeds, the second time gives
   * what a run over it alone gives, so its censor field is `c + "_F"`
   * again and not `c + "_F_F"`.
   */
  lemma CopiedSecondTimeAlone(e: Engines, g: Gridder, lookup: int -> Option<MdvFile>, t1: int, t2: int,
                              st: QpeSettings)
    requires CappiQpeSpec(e, g, lookup(t1), st).Ok?
    ensures QpeSeriesCopied(e, g, lookup, [t1, t2], st) ==
      Then(Kept(CappiQpeSpec(e, g, lookup(t1), st).value.out), QpeSeriesCopied(e, g, lookup, [t2], st))
  {
    var s := CappiQpeSpec(e, g, lookup(t1), st).value;
    assert QpeCall(e, g)(lookup(t1), st) == Ok(Stepped(s.out, s.after));
    assert [t1, t2][1..] == [t2];
  }

  /** With copied settings, the censoring filter on `c` looks up `c + "_F"` at every time. */
  lemma CopiedCensorLookupStable(e: Engines, g: Gridder, lookup: int -> Option<MdvFile>, t1: int, t2: int,
                                 st: QpeSettings, c: string)
    requires CensorsOn(st.filter, c) && st.qpe.methodName == "RATE_Z"
    requires lookup(t1).Some? && CappiQpeSpec(e, g, lookup(t1), st).Ok?
    requires lookup(t2).Some? && "DBZ_F" in lookup(t2).value.fields && c + "_F" !in lookup(t2).value.fields
    ensures QpeSeriesCopied(e, g, lookup, [t1, t2], st) == Fail(KeyError(c + "_F"))
  {
    CopiedSecondTimeAlone(e, g, lookup, t1, t2, st);
    CensorLookupFails(e, g, lookup(t2).value, st, c);
    assert QpeCall(e, g)(lookup(t2), st) == Fail(KeyError(c + "_F"));
  }

  /** A fresh copy of a settings object and of its `pars`. */
  method CopyPars(p: MethodPars?) returns (q: MethodPars?)
    ensures ViewOf(q) == old(ViewOf(p))
    ensures q != null ==> fresh(q) && (q.pars != null ==> fresh(q.pars))
  {
    if p == null {
      return null;
    }
    var d: ArgDict? := null;
    if p.pars != null {
      d := new ArgDict(p.pars.entries);
    }
    q := new MethodPars(p.methodName, d);
  }

  /** `copy.deepcopy(pars)`: fresh settings objects holding what `req` holds. */
  method CopyRequest(req: QpeRequest) returns (copy: QpeRequest)
    ensures QpeCappi.Separate(copy) && QpeCappi.SettingsOf(copy) == QpeCappi.SettingsOf(req)
    ensures fresh(copy.qpe) && fresh(ParsRef(copy.qpe)) && fresh(ParsRef(copy.pia)) && fresh(ParsRef(copy.filter))
  {
    var qpe := CopyPars(req.qpe);
    var cappi := CopyPars(req.cappi);
    var pia := CopyPars(req.pia);
    var filter := CopyPars(req.filter);
    copy := QpeRequest(qpe, cappi, pia, filter, req.applyCmd, req.dbzThres);
  }

  /** What `compute_cappi_qpe` returned on a copy, as the outcome of the step `QpeCall`. */
  lemma CopiedCallIs(e: Engines, g: Gridder, found: Option<MdvFile>, st: QpeSettings, r: Result<Option<QpeOut>>)
    requires var spec := CappiQpeSpec(e, g, found, st);
      (r.Fail? <==> spec.Fail?) && (r.Fail? ==> r.err == spec.err) && (r.Ok? ==> r.value == spec.value.out)
    ensures r.Fail? ==> QpeCall(e, g)(found, st) == Fail(r.err)
    ensures r.Ok? ==> QpeCall(e, g)(found, st).Ok? && QpeCall(e, g)(found, st).value.out == r.value
  {
  }

  /** One time of the intended loop: `compute_cappi_qpe` on a deep copy of the settings. */
  method CopiedTime(e: Engines, g: Gridder, found: Option<MdvFile>, req: QpeRequest, ghost st: QpeSettings)
    returns (r: Result<Option<QpeOut>>)
    requires QpeCappi.SettingsOf(req) == st
    ensures var spec := CappiQpeSpec(e, g, found, st);
      (r.Fail? <==> spec.Fail?) && (r.Fail? ==> r.err == spec.err) && (r.Ok? ==> r.value == spec.value.out)
  {
    var copy := CopyRequest(req);
    r := ComputeCappiQpe(e, g, found, copy);
  }

  /**
   * The intended loop: each time runs on a deep copy of the settings, so
   * the caller's settings objects are left as they were.
   */
  method ComputeCappiQpeSeriesCopied(e: Engines, g: Gridder, lookup: int -> Option<MdvFile>, times: seq<int>,
                                     req: QpeRequest) returns (r: Result<seq<QpeOut>>)
    ensures r == QpeSeriesCopied(e, g, lookup, times, QpeCappi.SettingsOf(req))
  {
    ghost var step := QpeCall(e, g);
    ghost var st0 := QpeCappi.SettingsOf(req);
    var written: seq<QpeOut> := [];
    var i := 0;
    assert times[0..] == times;
    while i < |times|
      invariant 0 <= i <= |times|
      invariant RunCopied(step, lookup, times, st0) == Then(written, RunCopied(step, lookup, times[i..], st0))
      invariant QpeCappi.SettingsOf(req) == st0
    {
      var data := CopiedTime(e, g, lookup(times[i]), req, st0);
      CopiedCallIs(e, g, lookup(times[i]), st0, data);
      if data.Fail? {
        RunCopiedStops(step, lookup, times, i, written, st0, data.err);
        return Fail(data.err);
      }
      RunCopiedAdvance(step, lookup, times, i, written, st0, data.value);
      written := written + Kept(data.value);
      i := i + 1;
    }
    RunDone(step, lookup, times, written, st0);
    return Ok(written);
  }
}
