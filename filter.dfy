/**
 * The field filters of util/filter.py: `median_filter_censor`,
 * `median_filter`, `smooth_trim`, `smooth_trim_scan`, the dispatcher
 * `apply_filter` and the configuration front end
 * `apply_filter_dict_args`.
 *
 * The numerical kernels (scipy's `medfilt`, pyart's `smooth_and_trim`
 * and `smooth_and_trim_scan`) are parameters: each maps its raw size and
 * window arguments and the NaN-filled input to the output gate at a
 * position.
 */
module Filter {
  import opened Wrappers
  import opened Gates
  import opened PyBase
  import opened Utilities
  import opened FilterRuns
  import opened Radars

  datatype Kernels = Kernels(
    median: (Value, seq<Gate>, nat) -> Gate,
    smooth: (Value, Value, seq<Gate>, nat) -> Gate,
    smoothScan: (Value, Value, seq<seq<Gate>>, nat, nat) -> Gate)

  /** `medfilt(., median_filter_len)` as a per-position kernel on the padded ray. */
  function MedianKernel(k: Kernels, len: Value): (seq<Gate>, nat) -> Gate
  {
    (p: seq<Gate>, q: nat) => k.median(len, p, q)
  }

  // ---------------------------------------------------------------
  // median_filter_censor and median_filter
  // ---------------------------------------------------------------

  /** `censor_f < censor_thres`, compared on the raw data. */
  function CensorRows(filter: MArray, censor: MArray, thres: real): (c: seq<seq<bool>>)
    requires SameShape(filter, censor)
    ensures |c| == |filter.rows| && forall i :: 0 <= i < |c| ==> |c[i]| == |filter.rows[i]|
    ensures forall i, g :: 0 <= i < |c| && 0 <= g < |c[i]| ==> (c[i][g] <==> censor.rows[i][g].value < thres)
  {
    seq(|filter.rows|, i requires 0 <= i < |filter.rows| =>
      seq(|filter.rows[i]|, g requires 0 <= g < |filter.rows[i]| => censor.rows[i][g].value < thres))
  }

  /** No censoring, as in `median_filter`. */
  function NoCensorRows(filter: MArray): (c: seq<seq<bool>>)
    ensures |c| == |filter.rows| && forall i :: 0 <= i < |c| ==> |c[i]| == |filter.rows[i]|
    ensures forall i, g :: 0 <= i < |c| && 0 <= g < |c[i]| ==> !c[i][g]
  {
    seq(|filter.rows|, i requires 0 <= i < |filter.rows| =>
      seq(|filter.rows[i]|, g requires 0 <= g < |filter.rows[i]| => false))
  }

  predicate RowsMatch(rows: seq<seq<Gate>>, censored: seq<seq<bool>>)
  {
    |censored| == |rows| && forall i :: 0 <= i < |rows| ==> |censored[i]| == |rows[i]|
  }

  /** Every ray filtered by `FilteredRay`. */
  function FilteredRows(rows: seq<seq<Gate>>, censored: seq<seq<bool>>, minsize: real,
                        median: (seq<Gate>, nat) -> Gate): (r: seq<seq<Gate>>)
    requires RowsMatch(rows, censored)
    ensures |r| == |rows| && forall i :: 0 <= i < |r| ==> |r[i]| == |rows[i]|
  {
    seq(|rows|, i requires 0 <= i < |rows| => FilteredRay(rows[i], censored[i], minsize, median))
  }

  /** The loop `for i, row in enumerate(filter_f)`, one ray at a time. */
  method FilterRows(rows: seq<seq<Gate>>, censored: seq<seq<bool>>, minsize: real,
                    median: (seq<Gate>, nat) -> Gate) returns (out: seq<seq<Gate>>)
    requires RowsMatch(rows, censored)
    ensures out == FilteredRows(rows, censored, minsize, median)
  {
    out := [];
    var i := 0;
    while i < |rows|
      invariant 0 <= i <= |rows|
      invariant out == FilteredRows(rows[..i], censored[..i], minsize, median)
    {
      var ray := FilterRay(rows[i], censored[i], minsize, median);
      out := out + [ray];
      i := i + 1;
    }
    assert rows[..i] == rows && censored[..i] == censored;
  }

  /**
   * `median_filter_censor(radar, filter_field, median_filter_len,
   * minsize_seq, censor_field, censor_thres)`, or the exception it
   * raises: a missing field (KeyError), a non-numeric threshold
   * (TypeError), a censor field of another shape (ValueError), a
   * non-numeric `minsize_seq` (TypeError).
   */
  function MedianFilterCensorSpec(fields: map<string, Field>, filterField: string, medianLen: Value,
                                  minsize: Value, censorField: Value, censorThres: Value,
                                  k: Kernels): Result<MArray>
  {
    if filterField !in fields then Fail(KeyError(filterField))
    else if !censorField.VStr? || censorField.s !in fields then Fail(KeyError(Repr(censorField)))
    else if AsReal(censorThres).Fail? then Fail(TypeError)
    else
      var f, c := fields[filterField].data, fields[censorField.s].data;
      if !SameShape(f, c) then Fail(ValueError)
      else if AsReal(minsize).Fail? then Fail(TypeError)
      else Ok(MArray(FilteredRows(f.rows, CensorRows(f, c, AsReal(censorThres).value),
                                  AsReal(minsize).value, MedianKernel(k, medianLen)), f.fill))
  }

  /** `median_filter(radar, filter_field, median_filter_len, minsize_seq)`. */
  function MedianFilterSpec(fields: map<string, Field>, filterField: string, medianLen: Value,
                            minsize: Value, k: Kernels): Result<MArray>
  {
    if filterField !in fields then Fail(KeyError(filterField))
    else if AsReal(minsize).Fail? then Fail(TypeError)
    else
      var f := fields[filterField].data;
      Ok(MArray(FilteredRows(f.rows, NoCensorRows(f), AsReal(minsize).value,
                             MedianKernel(k, medianLen)), f.fill))
  }

  method MedianFilterCensor(radar: Radar, filterField: string, medianLen: Value, minsize: Value,
                            censorField: Value, censorThres: Value, k: Kernels) returns (r: Result<MArray>)
    ensures r == MedianFilterCensorSpec(radar.fields, filterField, medianLen, minsize,
                                        censorField, censorThres, k)
  {
    if filterField !in radar.fields {
      return Fail(KeyError(filterField));
    }
    if !censorField.VStr? || censorField.s !in radar.fields {
      return Fail(KeyError(Repr(censorField)));
    }
    var thres := AsReal(censorThres);
    if thres.Fail? {
      return Fail(TypeError);
    }
    var f, c := radar.fields[filterField].data, radar.fields[censorField.s].data;
    if !SameShape(f, c) {
      return Fail(ValueError);
    }
    var ms := AsReal(minsize);
    if ms.Fail? {
      return Fail(TypeError);
    }
    var rows := FilterRows(f.rows, CensorRows(f, c, thres.value), ms.value, MedianKernel(k, medianLen));
    r := Ok(MArray(rows, f.fill));
  }

  method MedianFilter(radar: Radar, filterField: string, medianLen: Value, minsize: Value,
                      k: Kernels) returns (r: Result<MArray>)
    ensures r == MedianFilterSpec(radar.fields, filterField, medianLen, minsize, k)
  {
    if filterField !in radar.fields {
      return Fail(KeyError(filterField));
    }
    var ms := AsReal(minsize);
    if ms.Fail? {
      return Fail(TypeError);
    }
    var f := radar.fields[filterField].data;
    var rows := FilterRows(f.rows, NoCensorRows(f), ms.value, MedianKernel(k, medianLen));
    r := Ok(MArray(rows, f.fill));
  }

  /**
   * A gate of a filtered ray is valid exactly when the kernel output is
   * valid, the input gate was valid, it is not censored and it does not
   * belong to a short run; its value is the kernel output up to the last
   * valid gate and 0 after it.
   */
  lemma FilteredRayGate(row: seq<Gate>, censored: seq<bool>, minsize: real,
                        median: (seq<Gate>, nat) -> Gate, g: nat)
    requires |censored| == |row| && g < |row|
    ensures FilteredRay(row, censored, minsize, median)[g].valid <==>
      MedianAt(row, median, g).valid && row[g].valid && !censored[g] &&
      !InShortRun(Valids(row), g, minsize)
    ensures g as int > LastValid(row) ==> FilteredRay(row, censored, minsize, median)[g].value == 0.0
    ensures g as int <= LastValid(row) ==>
      FilteredRay(row, censored, minsize, median)[g].value == median(Padded(row), g + 1).value
  {
  }

  /**
   * `median_filter_censor` keeps the field's shape and fill value, and
   * every gate that was masked on input or whose censor value is below
   * the threshold is masked in the output.
   */
  lemma MedianFilterCensorMasks(fields: map<string, Field>, filterField: string, medianLen: Value,
                                minsize: Value, censorField: Value, censorThres: Value,
                                k: Kernels, i: nat, g: nat)
    requires MedianFilterCensorSpec(fields, filterField, medianLen, minsize, censorField, censorThres, k).Ok?
    requires i < |fields[filterField].data.rows| && g < |fields[filterField].data.rows[i]|
    ensures SameShape(MedianFilterCensorSpec(fields, filterField, medianLen, minsize, censorField, censorThres, k).value,
                      fields[filterField].data)
    ensures MedianFilterCensorSpec(fields, filterField, medianLen, minsize, censorField, censorThres, k).value.fill ==
            fields[filterField].data.fill
    ensures !fields[filterField].data.rows[i][g].valid ||
            fields[censorField.s].data.rows[i][g].value < AsReal(censorThres).value ==>
      !MedianFilterCensorSpec(fields, filterField, medianLen, minsize, censorField, censorThres, k).value.rows[i][g].valid
  {
    var f, c := fields[filterField].data, fields[censorField.s].data;
    var cr := CensorRows(f, c, AsReal(censorThres).value);
    FilteredRayGate(f.rows[i], cr[i], AsReal(minsize).value, MedianKernel(k, medianLen), g);
  }

  /**
   * `median_filter`: the output mask is the input mask united with the
   * short-run mask (and whatever the kernel itself leaves invalid); no
   * gate is censored.
   */
  lemma MedianFilterMask(fields: map<string, Field>, filterField: string, medianLen: Value,
                         minsize: Value, k: Kernels, i: nat, g: nat)
    requires MedianFilterSpec(fields, filterField, medianLen, minsize, k).Ok?
    requires i < |fields[filterField].data.rows| && g < |fields[filterField].data.rows[i]|
    ensures SameShape(MedianFilterSpec(fields, filterField, medianLen, minsize, k).value, fields[filterField].data)
    ensures MedianFilterSpec(fields, filterField, medianLen, minsize, k).value.rows[i][g].valid <==>
      fields[filterField].data.rows[i][g].valid &&
      !InShortRun(Valids(fields[filterField].data.rows[i]), g, AsReal(minsize).value) &&
      MedianAt(fields[filterField].data.rows[i], MedianKernel(k, medianLen), g).valid
  {
    var f := fields[filterField].data;
    FilteredRayGate(f.rows[i], NoCensorRows(f)[i], AsReal(minsize).value, MedianKernel(k, medianLen), g);
  }

  /** A ray without any valid gate is skipped: it stays entirely masked. */
  lemma EmptyRayStaysMasked(row: seq<Gate>, censored: seq<bool>, minsize: real,
                            median: (seq<Gate>, nat) -> Gate)
    requires |censored| == |row| && LastValid(row) < 0
    ensures forall g :: 0 <= g < |row| ==>
      !FilteredRay(row, censored, minsize, median)[g].valid &&
      FilteredRay(row, censored, minsize, median)[g].value == 0.0
  {
    forall g | 0 <= g < |row|
      ensures !FilteredRay(row, censored, minsize, median)[g].valid
      ensures FilteredRay(row, censored, minsize, median)[g].value == 0.0
    {
      FilteredRayGate(row, censored, minsize, median, g);
    }
  }

  // ---------------------------------------------------------------
  // smooth_trim and smooth_trim_scan
  // ---------------------------------------------------------------

  /** `np.ma.filled(row, np.nan)`. */
  function FilledRow(row: seq<Gate>): (r: seq<Gate>)
    ensures |r| == |row| && forall g :: 0 <= g < |row| ==> r[g] == Filled(row[g])
  {
    seq(|row|, g requires 0 <= g < |row| => Filled(row[g]))
  }

  /**
   * `np.ma.masked_array(np.ma.masked_invalid(smoothed), mask = field.mask)`:
   * the smoothed value, valid only where both the smoother's output and
   * the input are valid.
   */
  function Remasked(smoothed: Gate, input: Gate): (r: Gate)
    ensures r.value == smoothed.value
    ensures r.valid <==> smoothed.valid && input.valid
  {
    Gate(smoothed.value, smoothed.valid && input.valid)
  }

  /** One ray through `smooth_and_trim`, re-masked with the ray's input mask. */
  function SmoothedRow(k: Kernels, windowLen: Value, window: Value, row: seq<Gate>): (r: seq<Gate>)
    ensures |r| == |row|
    ensures forall g :: 0 <= g < |row| ==> r[g] == Remasked(k.smooth(windowLen, window, FilledRow(row), g), row[g])
  {
    seq(|row|, g requires 0 <= g < |row| => Remasked(k.smooth(windowLen, window, FilledRow(row), g), row[g]))
  }

  /** `smooth_trim`: each ray smoothed separately. */
  function SmoothTrimSpec(fields: map<string, Field>, filterField: string, windowLen: Value,
                          window: Value, k: Kernels): Result<MArray>
  {
    if filterField !in fields then Fail(KeyError(filterField))
    else
      var f := fields[filterField].data;
      Ok(MArray(seq(|f.rows|, i requires 0 <= i < |f.rows| => SmoothedRow(k, windowLen, window, f.rows[i])),
                f.fill))
  }

  function FilledRows(rows: seq<seq<Gate>>): (r: seq<seq<Gate>>)
    ensures |r| == |rows| && forall i :: 0 <= i < |rows| ==> r[i] == FilledRow(rows[i])
  {
    seq(|rows|, i requires 0 <= i < |rows| => FilledRow(rows[i]))
  }

  /** `smooth_trim_scan`: the whole sweep smoothed at once. */
  function SmoothTrimScanSpec(fields: map<string, Field>, filterField: string, windowLen: Value,
                              window: Value, k: Kernels): Result<MArray>
  {
    if filterField !in fields then Fail(KeyError(filterField))
    else
      var f := fields[filterField].data;
      Ok(MArray(seq(|f.rows|, i requires 0 <= i < |f.rows| =>
                  seq(|f.rows[i]|, g requires 0 <= g < |f.rows[i]| =>
                    Remasked(k.smoothScan(windowLen, window, FilledRows(f.rows), i, g), f.rows[i][g]))),
                f.fill))
  }

  /** The ray loop of `smooth_trim`, writing `field_smooth[i, :]`. */
  method SmoothTrim(radar: Radar, filterField: string, windowLen: Value, window: Value,
                    k: Kernels) returns (r: Result<MArray>)
    ensures r == SmoothTrimSpec(radar.fields, filterField, windowLen, window, k)
  {
    if filterField !in radar.fields {
      return Fail(KeyError(filterField));
    }
    var f := radar.fields[filterField].data;
    var rows: seq<seq<Gate>> := [];
    var i := 0;
    while i < |f.rows|
      invariant 0 <= i <= |f.rows| && |rows| == i
      invariant forall p :: 0 <= p < i ==> rows[p] == SmoothedRow(k, windowLen, window, f.rows[p])
    {
      var nan := FilledRow(f.rows[i]);
      var smth := seq(|f.rows[i]|, g requires 0 <= g < |f.rows[i]| => k.smooth(windowLen, window, nan, g));
      rows := rows + [seq(|f.rows[i]|, g requires 0 <= g < |f.rows[i]| => Remasked(smth[g], f.rows[i][g]))];
      i := i + 1;
    }
    assert rows == seq(|f.rows|, p requires 0 <= p < |f.rows| => SmoothedRow(k, windowLen, window, f.rows[p]));
    r := Ok(MArray(rows, f.fill));
  }

  /** Neither smoother ever unmasks a gate, and both keep the shape and the fill value. */
  lemma SmoothersNeverUnmask(fields: map<string, Field>, filterField: string, windowLen: Value,
                             window: Value, k: Kernels)
    requires filterField in fields
    ensures SmoothTrimSpec(fields, filterField, windowLen, window, k).Ok?
    ensures MaskGrows(fields[filterField].data, SmoothTrimSpec(fields, filterField, windowLen, window, k).value)
    ensures SmoothTrimSpec(fields, filterField, windowLen, window, k).value.fill == fields[filterField].data.fill
    ensures MaskGrows(fields[filterField].data, SmoothTrimScanSpec(fields, filterField, windowLen, window, k).value)
    ensures SmoothTrimScanSpec(fields, filterField, windowLen, window, k).value.fill == fields[filterField].data.fill
  {
    var f := fields[filterField].data;
    var a := SmoothTrimSpec(fields, filterField, windowLen, window, k).value;
    var b := SmoothTrimScanSpec(fields, filterField, windowLen, window, k).value;
    forall i, j | 0 <= i < |f.rows| && 0 <= j < |f.rows[i]|
      ensures a.rows[i][j].valid ==> f.rows[i][j].valid
      ensures b.rows[i][j].valid ==> f.rows[i][j].valid
    {
      assert a.rows[i] == SmoothedRow(k, windowLen, window, f.rows[i]);
      assert b.rows[i][j] == Remasked(k.smoothScan(windowLen, window, FilledRows(f.rows), i, j), f.rows[i][j]);
    }
  }

  // ---------------------------------------------------------------
  // apply_filter
  // ---------------------------------------------------------------

  const MedianCensorName: string := "median_filter_censor"
  const MedianName: string := "median_filter"
  const SmoothName: string := "smooth_trim"
  const SmoothScanName: string := "smooth_trim_scan"

  /** The keyword parameters of each filter after `(radar, filter_field)`; None for an unknown name. */
  function FilterParams(fun: string): (r: Option<seq<string>>)
    ensures r.Some? <==> fun in {MedianCensorName, MedianName, SmoothName, SmoothScanName}
  {
    if fun == MedianCensorName then Some(["median_filter_len", "minsize_seq", "censor_field", "censor_thres"])
    else if fun == MedianName then Some(["median_filter_len", "minsize_seq"])
    else if fun == SmoothName || fun == SmoothScanName then Some(["window_len", "window"])
    else None
  }

  /** `dict((key, kwargs[key]) for key in params if key in kwargs)`. */
  function Forwarded(kwargs: map<string, Value>, params: seq<string>): (r: map<string, Value>)
    ensures forall key :: key in r <==> key in kwargs && key in params
    ensures forall key :: key in r ==> r[key] == kwargs[key]
  {
    map key | key in kwargs && key in params :: kwargs[key]
  }

  /** A keyword argument, or the filter's default for it. */
  function Arg(kw: map<string, Value>, key: string, default: Value): Value
  {
    if key in kw then kw[key] else default
  }

  /**
   * `apply_filter(radar, filter_fun, filter_field, **kwargs)`: the filter
   * named by `filter_fun` (KeyError for any other name), called with only
   * the keyword arguments it accepts and its own defaults for the rest.
   */
  function ApplyFilterSpec(fields: map<string, Field>, fun: string, filterField: string,
                           kwargs: map<string, Value>, k: Kernels): Result<MArray>
  {
    match FilterParams(fun)
    case None => Fail(KeyError(fun))
    case Some(params) =>
      var kw := Forwarded(kwargs, params);
      if fun == MedianCensorName then
        MedianFilterCensorSpec(fields, filterField, Arg(kw, "median_filter_len", VInt(5)),
                               Arg(kw, "minsize_seq", VInt(3)), Arg(kw, "censor_field", VStr("RHOHV_F")),
                               Arg(kw, "censor_thres", VReal(0.7)), k)
      else if fun == MedianName then
        MedianFilterSpec(fields, filterField, Arg(kw, "median_filter_len", VInt(5)),
                         Arg(kw, "minsize_seq", VInt(3)), k)
      else if fun == SmoothName then
        SmoothTrimSpec(fields, filterField, Arg(kw, "window_len", VInt(5)), Arg(kw, "window", VStr("hanning")), k)
      else
        SmoothTrimScanSpec(fields, filterField, Arg(kw, "window_len", VInt(5)), Arg(kw, "window", VStr("hanning")), k)
  }

  method ApplyFilter(radar: Radar, fun: string, filterField: string, kwargs: map<string, Value>,
                     k: Kernels) returns (r: Result<MArray>)
    ensures r == ApplyFilterSpec(radar.fields, fun, filterField, kwargs, k)
  {
    var params := FilterParams(fun);
    if params.None? {
      return Fail(KeyError(fun));
    }
    var kw := Forwarded(kwargs, params.value);
    if fun == MedianCensorName {
      r := MedianFilterCensor(radar, filterField, Arg(kw, "median_filter_len", VInt(5)),
                              Arg(kw, "minsize_seq", VInt(3)), Arg(kw, "censor_field", VStr("RHOHV_F")),
                              Arg(kw, "censor_thres", VReal(0.7)), k);
    } else if fun == MedianName {
      r := MedianFilter(radar, filterField, Arg(kw, "median_filter_len", VInt(5)),
                        Arg(kw, "minsize_seq", VInt(3)), k);
    } else if fun == SmoothName {
      r := SmoothTrim(radar, filterField, Arg(kw, "window_len", VInt(5)), Arg(kw, "window", VStr("hanning")), k);
    } else {
      r := SmoothTrimScanSpec(radar.fields, filterField, Arg(kw, "window_len", VInt(5)),
                              Arg(kw, "window", VStr("hanning")), k);
    }
  }

  /**
   * Keyword arguments the chosen filter does not accept make no
   * difference: only the accepted ones are forwarded.
   */
  lemma ApplyFilterIgnoresForeignKeys(fields: map<string, Field>, fun: string, filterField: string,
                                      kwargs: map<string, Value>, extra: map<string, Value>, k: Kernels)
    requires FilterParams(fun).Some?
    requires forall key :: key in extra ==> key !in FilterParams(fun).value
    ensures ApplyFilterSpec(fields, fun, filterField, kwargs + extra, k) ==
            ApplyFilterSpec(fields, fun, filterField, kwargs, k)
  {
    var params := FilterParams(fun).value;
    assert Forwarded(kwargs + extra, params) == Forwarded(kwargs, params);
  }

  // ---------------------------------------------------------------
  // apply_filter_dict_args
  // ---------------------------------------------------------------

  /**
   * The `filter_pars` dictionary: `use_filter`, `filter_fun`, and one
   * argument dictionary per filter name that has one.  The argument
   * dictionaries are the caller's objects, updated in place.
   */
  class FilterPars {
    var useFilter: Value
    var filterFun: string
    var funArgs: map<string, ArgDict>

    constructor (useFilter: Value, filterFun: string, funArgs: map<string, ArgDict>)
      ensures this.useFilter == useFilter && this.filterFun == filterFun && this.funArgs == funArgs
    {
      this.useFilter := useFilter;
      this.filterFun := filterFun;
      this.funArgs := funArgs;
    }
  }

  /** The argument dictionary `apply_filter_dict_args` would update, if any. */
  function UpdatedArgs(pars: FilterPars?): set<ArgDict>
    reads pars
  {
    if pars != null && pars.filterFun in pars.funArgs then {pars.funArgs[pars.filterFun]} else {}
  }

  /**
   * The argument dictionary after `str2numeric_dict_args` and, for
   * `median_filter_censor` with `censor_fieldF`, the `_F` suffix on
   * `censor_field` (KeyError when it is missing, TypeError when it is
   * not a string).
   */
  function PreparedArgs(entries: map<string, Value>, fun: string, censorFieldF: bool): (r: Result<map<string, Value>>)
    ensures r.Ok? ==> r.value.Keys == entries.Keys
    ensures r.Ok? && !(fun == MedianCensorName && censorFieldF) ==> r == Converted(entries)
    ensures r.Ok? && fun == MedianCensorName && censorFieldF ==>
      Converted(entries).Ok? && "censor_field" in Converted(entries).value &&
      Converted(entries).value["censor_field"].VStr? &&
      r.value == Converted(entries).value["censor_field" := VStr(Converted(entries).value["censor_field"].s + "_F")]
  {
    match Converted(entries)
    case Fail(e) => Fail(e)
    case Ok(conv) =>
      if fun == MedianCensorName && censorFieldF then
        if "censor_field" !in conv then Fail(KeyError("censor_field"))
        else if !conv["censor_field"].VStr? then Fail(TypeError)
        else Ok(conv["censor_field" := VStr(conv["censor_field"].s + "_F")])
      else Ok(conv)
  }

  /** What `apply_filter_dict_args` reads of `filter_pars`: a snapshot of the parameters. */
  datatype FilterConfig = FilterConfig(useFilter: Value, filterFun: string, args: Option<map<string, Value>>)

  function FilterConfigOf(pars: FilterPars?): (c: Option<FilterConfig>)
    reads pars, UpdatedArgs(pars)
    ensures c.None? <==> pars == null
  {
    if pars == null then None
    else Some(FilterConfig(pars.useFilter, pars.filterFun,
                           if pars.filterFun in pars.funArgs then Some(pars.funArgs[pars.filterFun].entries) else None))
  }

  /**
   * The outcome of `apply_filter_dict_args` on a parameter snapshot: None
   * (here `Ok(None)`) without parameters or with a false `use_filter`;
   * otherwise the chosen filter run with the prepared arguments of its
   * name, or with no arguments when `filter_pars` has none for it.
   */
  function FilterDictSpec(fields: map<string, Field>, filterField: string, cfg: Option<FilterConfig>,
                          censorFieldF: bool, k: Kernels): (r: Result<Option<MArray>>)
    ensures cfg.None? || !Truthy(cfg.value.useFilter) ==> r == Ok(None)
    ensures cfg.Some? && Truthy(cfg.value.useFilter) && cfg.value.args.None? ==>
      r == (match ApplyFilterSpec(fields, cfg.value.filterFun, filterField, map[], k)
            case Ok(a) => Ok(Some(a)) case Fail(e) => Fail(e))
    ensures cfg.Some? && Truthy(cfg.value.useFilter) && cfg.value.args.Some? ==>
      var prep := PreparedArgs(cfg.value.args.value, cfg.value.filterFun, censorFieldF);
      (prep.Fail? ==> r == Fail(prep.err)) &&
      (prep.Ok? ==> r == (match ApplyFilterSpec(fields, cfg.value.filterFun, filterField, prep.value, k)
                          case Ok(a) => Ok(Some(a)) case Fail(e) => Fail(e)))
  {
    if cfg.None? || !Truthy(cfg.value.useFilter) then Ok(None)
    else
      var kw := if cfg.value.args.Some? then PreparedArgs(cfg.value.args.value, cfg.value.filterFun, censorFieldF)
                else Ok(map[]);
      match kw
      case Fail(e) => Fail(e)
      case Ok(m) =>
        match ApplyFilterSpec(fields, cfg.value.filterFun, filterField, m, k)
        case Ok(a) => Ok(Some(a))
        case Fail(e) => Fail(e)
  }

  /**
   * `apply_filter_dict_args(radar, filter_field, filter_pars,
   * censor_fieldF)`: the outcome of `FilterDictSpec` on the parameters as
   * they were on entry; the chosen argument dictionary is converted and
   * suffixed in place.
   */
  method ApplyFilterDictArgs(radar: Radar, filterField: string, pars: FilterPars?, censorFieldF: bool,
                             k: Kernels) returns (r: Result<Option<MArray>>)
    modifies UpdatedArgs(pars)
    ensures r == FilterDictSpec(radar.fields, filterField, old(FilterConfigOf(pars)), censorFieldF, k)
    ensures pars != null && Truthy(pars.useFilter) && pars.filterFun in pars.funArgs ==>
      var prep := PreparedArgs(old(pars.funArgs[pars.filterFun].entries), pars.filterFun, censorFieldF);
      prep.Ok? ==> pars.funArgs[pars.filterFun].entries == prep.value
  {
    if pars == null || !Truthy(pars.useFilter) {
      return Ok(None);
    }
    var fun := pars.filterFun;
    if fun !in pars.funArgs {
      var res := ApplyFilter(radar, fun, filterField, map[], k);
      r := if res.Ok? then Ok(Some(res.value)) else Fail(res.err);
      return;
    }
    var args := pars.funArgs[fun];
    var conv := Str2NumericDictArgs(args);
    if conv.Fail? {
      return Fail(conv.err);
    }
    if fun == MedianCensorName && censorFieldF {
      if "censor_field" !in args.entries {
        return Fail(KeyError("censor_field"));
      }
      var cf := args.entries["censor_field"];
      if !cf.VStr? {
        return Fail(TypeError);
      }
      args.entries := args.entries["censor_field" := VStr(cf.s + "_F")];
    }
    var res := ApplyFilter(radar, fun, filterField, args.entries, k);
    r := if res.Ok? then Ok(Some(res.value)) else Fail(res.err);
  }
}
