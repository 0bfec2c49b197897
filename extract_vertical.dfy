/**
 * `extract_polar_vertical` of api/radarpolarV_extract.py, its front end
 * `extractRadarPolarV` and `polarVExtractedTable`
 * (api/radarpolar_extractV_loc.py): each volume is read and conditioned
 * like in `extract_polar_data`, and the R routine `extract_3DPolarData`
 * interpolates its fields to a regular x × y × height grid centred on the
 * radar and returns, per field, one value per point and height.
 *
 * The volume of a time (None when there is none) and the R routine
 * (`VExtractor`) are parameters; the geographic coordinates of the
 * interpolation grid, which pyart computes from the radar's projection,
 * are left to that routine, which receives the radar's site.
 */
module ExtractVertical {
  import opened Wrappers
  import opened PyBase
  import opened Radars
  import opened Utilities
  import opened ApiConfig
  import opened ReadMdv
  import opened PolarReaders
  import opened PrecipPolar
  import opened CappiData
  import opened Batch
  import opened Cadence
  import opened LocDefaults
  import opened Series
  import opened ExtractCommon
  import opened ExtractConditioning
  import opened ExtractTables

  /**
   * A polar volume as this extractor reads it: the file, the Cartesian
   * coordinates of its gates (`gate_x`, `gate_y`, `gate_z`, flattened),
   * the radar site and the formatted scan time.
   */
  datatype VolumeV = VolumeV(file: MdvFile, gateX: seq<real>, gateY: seq<real>, gateZ: seq<real>, siteLon: real,
                             siteLat: real, date: string)

  /** `r_coords`: the first volume's gate coordinates. */
  datatype VCoords = VCoords(x: seq<real>, y: seq<real>, z: seq<real>)

  /** `r_interp`: the interpolation axes, and the site the grid is centred on. */
  datatype VInterp = VInterp(x: seq<real>, y: seq<real>, z: seq<real>, lon0: real, lat0: real)

  /**
   * `mtrwdata.extract_3DPolarData(r_coords, r_data, r_interp, r_points,
   * r_padxy, fun_sp)`, its result as a dictionary from names to vectors
   * (None for NaN).
   */
  type VExtractor = (VCoords, map<string, seq<Option<real>>>, VInterp, seq<Point>, seq<real>, string)
    -> map<string, seq<Option<real>>>

  // ---------------------------------------------------------------
  // The interpolation axes
  // ---------------------------------------------------------------

  /**
   * `r_heights`: `np.arange(heights[0], heights[1] + 0.001, heights[2])`,
   * with `[0, 10000, 500]` when no heights are given; a list shorter than
   * three raises IndexError.
   */
  function HeightAxis(heights: Option<seq<real>>): (r: Result<seq<real>>)
    ensures heights.Some? && |heights.value| < 3 ==> r == Fail(IndexError)
    ensures heights.Some? && |heights.value| >= 3 ==>
      r == ARangeAnyStep(heights.value[0], heights.value[1] + 0.001, heights.value[2])
    ensures heights.None? ==> r == ARangeAnyStep(0.0, 10000.001, 500.0)
  {
    var h := if heights.None? then [0.0, 10000.0, 500.0] else heights.value;
    if |h| < 3 then Fail(IndexError) else ARangeAnyStep(h[0], h[1] + 0.001, h[2])
  }

  /** By default the heights are 0, 500, ..., 10000 m: 21 levels. */
  lemma DefaultHeights()
    ensures HeightAxis(None).Ok? && |HeightAxis(None).value| == 21
    ensures forall k :: 0 <= k < 21 ==> HeightAxis(None).value[k] == (k as real) * 500.0
  {
    var r := HeightAxis(None).value;
    var n := |r|;
    assert (n as real) * 500.0 >= 10000.001;
    assert n > 0;
    assert r[n - 1] == ((n - 1) as real) * 500.0 < 10000.001;
  }

  /**
   * `np.concatenate((-1 * np.flip(a[1:]), a))`: the axis mirrored about
   * its first value.
   */
  function Mirrored(a: seq<real>): (r: seq<real>)
    ensures |a| == 0 ==> r == []
    ensures |a| > 0 ==> |r| == 2 * |a| - 1
    ensures |a| > 0 ==> forall k :: 0 <= k < |a| ==> r[|a| - 1 + k] == a[k]
    ensures |a| > 0 ==> forall k :: 0 <= k < |a| - 1 ==> r[k] == -a[|a| - 1 - k]
  {
    if |a| == 0 then []
    else seq(|a| - 1, k requires 0 <= k < |a| - 1 => -a[|a| - 1 - k]) + a
  }

  /**
   * `r_x` (or `r_y`): multiples of 500 m from 0 up to the largest gate
   * coordinate, mirrored; the `max` of no gates raises ValueError.
   */
  function GridAxis(gates: seq<real>): (r: Result<seq<real>>)
    ensures r.Fail? <==> gates == []
    ensures r.Fail? ==> r.err == ValueError
    ensures r.Ok? ==> r.value == Mirrored(ARange(0.0, SeqMax(gates) + 0.001, 500.0))
  {
    if gates == [] then Fail(ValueError) else Ok(Mirrored(ARange(0.0, SeqMax(gates) + 0.001, 500.0)))
  }

  /**
   * The axis is symmetric about the radar and regular: entry k is
   * `(k - n) * 500` for the 2n + 1 entries, and it reaches the farthest
   * gate to within 500 m.
   */
  lemma GridAxisRegular(gates: seq<real>)
    requires GridAxis(gates).Ok? && GridAxis(gates).value != []
    ensures var r := GridAxis(gates).value; var n := (|r| - 1) / 2;
      |r| == 2 * n + 1 && (forall k :: 0 <= k < |r| ==> r[k] == ((k - n) as real) * 500.0) &&
      ((n as real) * 500.0 < SeqMax(gates) + 0.001 <= ((n + 1) as real) * 500.0)
  {
    var a := ARange(0.0, SeqMax(gates) + 0.001, 500.0);
    var r := Mirrored(a);
    var n := |a| - 1;
    assert |r| == 2 * n + 1;
    forall k | 0 <= k < |r| ensures r[k] == ((k - n) as real) * 500.0 {
      if k < n {
        assert r[k] == -a[n - k];
      } else {
        assert r[k] == a[k - n];
      }
    }
    assert a[n] == (n as real) * 500.0;
  }

  // ---------------------------------------------------------------
  // One time
  // ---------------------------------------------------------------

  /**
   * One pass of the time loop on the volume found and the settings `st`:
   * the conditioned volume's requested fields, flattened, go to the R
   * routine, and each vector it returns becomes that field's height ×
   * point table. Only the PIA and filter settings change.
   */
  function VTimeSpec(e: Engines, x: VExtractor, coords: VCoords, interp: VInterp, pts: seq<Point>, padxy: seq<real>,
                     funSp: string, read: seq<string>, found: Option<VolumeV>, st: CappiSettings)
    : (r: Result<Stepped<CappiSettings, LevelDated>>)
    ensures found.None? ==> r == Ok(Stepped(None, st))
    ensures r.Ok? ==> (r.value.out.Some? <==> found.Some?)
    ensures r.Ok? ==> r.value.after.fields == st.fields
    ensures r.Ok? && r.value.out.Some? ==>
      r.value.out.value.date == found.value.date && TablesShaped(|pts|, |interp.z|, st.fields, r.value.out.value)
  {
    if found.None? then Ok(Stepped(None, st))
    else
      var v := found.value;
      match ConditionedRead(e, read, v.file, st)
      case Fail(err) => Fail(err)
      case Ok(y) =>
        match FillFields(y.fields, st.fields)
        case Fail(err) => Fail(err)
        case Ok(fill) =>
          var out := x(coords, RData(fill), interp, pts, padxy, funSp);
          match Reshaped(out, st.fields, |pts|, |interp.z|)
          case Fail(err) => Fail(err)
          case Ok(m) =>
            assert forall f :: f in st.fields ==> IsMatrix(m[f], |interp.z|, |pts|) by {
              forall f | f in st.fields ensures IsMatrix(m[f], |interp.z|, |pts|) {
                assert Ok(m[f]) == LevelsByPoints(out[f], |pts|, |interp.z|);
              }
            }
            Ok(Stepped(Some(LevelDated(v.date, m)), y.settings))
  }

  /** `VTimeSpec` as a step of the batch loop. */
  function VCall(e: Engines, x: VExtractor, coords: VCoords, interp: VInterp, pts: seq<Point>, padxy: seq<real>,
                 funSp: string, read: seq<string>)
    : (Option<VolumeV>, CappiSettings) -> Result<Stepped<CappiSettings, LevelDated>>
  {
    (found: Option<VolumeV>, st: CappiSettings) => VTimeSpec(e, x, coords, interp, pts, padxy, funSp, read, found, st)
  }

  /**
   * Every time with a volume appends a table per field, shaped height ×
   * point, and keeps the requested fields.
   */
  lemma VCallShaped(e: Engines, x: VExtractor, coords: VCoords, interp: VInterp, pts: seq<Point>, padxy: seq<real>,
                    funSp: string, read: seq<string>, fields: seq<string>)
    ensures ProductIffFile(VCall(e, x, coords, interp, pts, padxy, funSp, read))
    ensures ProductsSatisfy(VCall(e, x, coords, interp, pts, padxy, funSp, read), SameFields(fields),
                            (d: LevelDated) => TablesShaped(|pts|, |interp.z|, fields, d))
  {
  }

  // ---------------------------------------------------------------
  // The whole extraction
  // ---------------------------------------------------------------

  /**
   * What follows the set-up, on settings `st`: the read list is planned
   * and one table per field appended per time with a volume, each time
   * conditioned with the settings the previous time left.
   */
  function VFrom(e: Engines, x: VExtractor, lookup: int -> Option<VolumeV>, times: seq<int>, st: CappiSettings,
                 coords: VCoords, interp: VInterp, pts: seq<Point>, padxy: seq<real>, funSp: string)
    : (r: Result<LevelExtraction>)
    ensures r.Ok? ==> |r.value.date| == WithFile(lookup, times)
    ensures r.Ok? ==> r.value.coords == pts && r.value.levels == interp.z && r.value.data.Keys == set f | f in st.fields
  {
    match ExtractFieldsRead(st)
    case Fail(err) => Fail(err)
    case Ok(read) =>
      var step := VCall(e, x, coords, interp, pts, padxy, funSp, read);
      match Run(step, lookup, times, st)
      case Fail(err) => Fail(err)
      case Ok(ds) =>
        VCallShaped(e, x, coords, interp, pts, padxy, funSp, read, st.fields);
        RunCount(step, lookup, times, st);
        Ok(AssembleLevels(pts, interp.z, st.fields, ds))
  }

  /**
   * With every field listed once, the output has the date × height ×
   * point shape `polarVExtractedTable` needs.
   */
  lemma VFromShaped(e: Engines, x: VExtractor, lookup: int -> Option<VolumeV>, times: seq<int>, st: CappiSettings,
                    coords: VCoords, interp: VInterp, pts: seq<Point>, padxy: seq<real>, funSp: string)
    requires NoDuplicates(st.fields)
    requires VFrom(e, x, lookup, times, st, coords, interp, pts, padxy, funSp).Ok?
    ensures var r := VFrom(e, x, lookup, times, st, coords, interp, pts, padxy, funSp).value;
      Shaped(|r.coords|, |r.levels|, |r.date|, r.data)
  {
    var read := ExtractFieldsRead(st).value;
    var step := VCall(e, x, coords, interp, pts, padxy, funSp, read);
    var ds := Run(step, lookup, times, st).value;
    VCallShaped(e, x, coords, interp, pts, padxy, funSp, read, st.fields);
    RunProductsSatisfy(step, SameFields(st.fields), (d: LevelDated) => TablesShaped(|pts|, |interp.z|, st.fields, d),
                       lookup, times, st);
    AssembleLevelsShaped(pts, interp.z, st.fields, ds);
  }

  /** The fields kept: those of the request that the first volume holds. */
  function VFields(fields: seq<string>, v0: VolumeV): (r: seq<string>)
    ensures forall f :: f in r <==> f in fields && f in v0.file.fields
  {
    KeepPresent(fields, PolarRead(v0.file, FieldsStr("all")).Keys)
  }

  /**
   * `extract_polar_vertical` on settings `st`: `{}` (None) when no time has
   * a volume or the first volume holds none of the fields; otherwise the
   * heights and the x and y axes are set up from the first volume, an
   * empty list of points raises IndexError, and the loop runs on the
   * fields kept.
   */
  function ExtractVSpec(e: Engines, x: VExtractor, lookup: int -> Option<VolumeV>, times: seq<int>, st: CappiSettings,
                        pts: seq<Point>, heights: Option<seq<real>>, padxy: seq<real>, funSp: string)
    : (r: Result<Option<LevelExtraction>>)
    ensures (forall t :: t in times ==> lookup(t).None?) ==> r == Ok(None)
    ensures r.Ok? && r.value.Some? ==>
      |r.value.value.date| == WithFile(lookup, times) && r.value.value.coords == pts && pts != [] &&
      r.value.value.data.Keys == set f | f in VFields(st.fields, FirstFound(lookup, times).value)
    ensures r.Ok? && r.value.Some? && heights.None? ==> |r.value.value.levels| == 21
  {
    match FirstFound(lookup, times)
    case None => Ok(None)
    case Some(v0) => ExtractVOn(e, x, lookup, times, st, v0, pts, heights, padxy, funSp)
  }

  /** `extract_polar_vertical` once the first volume `v0` is found: the grid is built from its gates. */
  function ExtractVOn(e: Engines, x: VExtractor, lookup: int -> Option<VolumeV>, times: seq<int>, st: CappiSettings,
                      v0: VolumeV, pts: seq<Point>, heights: Option<seq<real>>, padxy: seq<real>, funSp: string)
    : (r: Result<Option<LevelExtraction>>)
    ensures r.Ok? && r.value.Some? ==>
      |r.value.value.date| == WithFile(lookup, times) && r.value.value.coords == pts && pts != [] &&
      r.value.value.data.Keys == set f | f in VFields(st.fields, v0)
    ensures r.Ok? && r.value.Some? && heights.None? ==> |r.value.value.levels| == 21
  {
    var fs := VFields(st.fields, v0);
    if fs == [] then Ok(None)
    else
      match HeightAxis(heights)
      case Fail(err) => Fail(err)
      case Ok(hs) =>
        match GridAxis(v0.gateX)
        case Fail(err) => Fail(err)
        case Ok(rx) =>
          match GridAxis(v0.gateY)
          case Fail(err) => Fail(err)
          case Ok(ry) =>
            if pts == [] then Fail(IndexError)
            else
              var coords := VCoords(v0.gateX, v0.gateY, v0.gateZ);
              var interp := VInterp(rx, ry, hs, v0.siteLon, v0.siteLat);
              match VFrom(e, x, lookup, times, st.(fields := fs), coords, interp, pts, padxy, funSp)
              case Fail(err) => Fail(err)
              case Ok(t) =>
                DefaultHeights();
                Ok(Some(t))
  }

  /** With every field listed once, the output has the shape its table needs. */
  lemma ExtractVShaped(e: Engines, x: VExtractor, lookup: int -> Option<VolumeV>, times: seq<int>, st: CappiSettings,
                       pts: seq<Point>, heights: Option<seq<real>>, padxy: seq<real>, funSp: string)
    requires NoDuplicates(st.fields)
    requires var r := ExtractVSpec(e, x, lookup, times, st, pts, heights, padxy, funSp); r.Ok? && r.value.Some?
    ensures var r := ExtractVSpec(e, x, lookup, times, st, pts, heights, padxy, funSp).value.value;
      Shaped(|r.coords|, |r.levels|, |r.date|, r.data)
  {
    var v0 := FirstFound(lookup, times).value;
    var fs := VFields(st.fields, v0);
    KeepPresentNoDuplicates(st.fields, PolarRead(v0.file, FieldsStr("all")).Keys);
    var interp := VInterp(GridAxis(v0.gateX).value, GridAxis(v0.gateY).value, HeightAxis(heights).value, v0.siteLon,
                          v0.siteLat);
    VFromShaped(e, x, lookup, times, st.(fields := fs), VCoords(v0.gateX, v0.gateY, v0.gateZ), interp, pts, padxy,
                funSp);
  }

  // ---------------------------------------------------------------
  // The loops
  // ---------------------------------------------------------------

  /** One pass of the time loop on the request's settings objects. */
  method ExtractVTime(e: Engines, x: VExtractor, coords: VCoords, interp: VInterp, pts: seq<Point>, padxy: seq<real>,
                      funSp: string, read: seq<string>, found: Option<VolumeV>, req: CappiRequest)
    returns (r: Result<Option<LevelDated>>)
    requires CappiData.Separate(req)
    modifies ParsRef(req.pia), ParsRef(req.filter)
    ensures var spec := VTimeSpec(e, x, coords, interp, pts, padxy, funSp, read, found, old(CappiData.SettingsOf(req)));
      (r.Fail? <==> spec.Fail?) && (r.Fail? ==> r.err == spec.err) &&
      (r.Ok? ==> r.value == spec.value.out && CappiData.SettingsOf(req) == spec.value.after)
  {
    if found.None? {
      return Ok(None);
    }
    var v := found.value;
    var conditioned := ConditionFile(e, read, v.file, req);
    if conditioned.Fail? {
      return Fail(conditioned.err);
    }
    var fill := FillFields(conditioned.value, req.fields);
    if fill.Fail? {
      return Fail(fill.err);
    }
    var out := x(coords, RData(fill.value), interp, pts, padxy, funSp);
    var m := Reshaped(out, req.fields, |pts|, |interp.z|);
    if m.Fail? {
      return Fail(m.err);
    }
    return Ok(Some(LevelDated(v.date, m.value)));
  }

  /** What `ExtractVTime` returned and left, as the outcome of the step `VCall`. */
  lemma VCallIs(e: Engines, x: VExtractor, coords: VCoords, interp: VInterp, pts: seq<Point>, padxy: seq<real>,
                funSp: string, read: seq<string>, found: Option<VolumeV>, st: CappiSettings,
                r: Result<Option<LevelDated>>, after: CappiSettings)
    requires var spec := VTimeSpec(e, x, coords, interp, pts, padxy, funSp, read, found, st);
      (r.Fail? <==> spec.Fail?) && (r.Fail? ==> r.err == spec.err) &&
      (r.Ok? ==> r.value == spec.value.out && after == spec.value.after)
    ensures r.Fail? ==> VCall(e, x, coords, interp, pts, padxy, funSp, read)(found, st) == Fail(r.err)
    ensures r.Ok? ==> VCall(e, x, coords, interp, pts, padxy, funSp, read)(found, st) == Ok(Stepped(r.value, after))
  {
  }

  /** The time loop, appending to `ext_data` for each time with a volume. */
  method ExtractVTimes(e: Engines, x: VExtractor, lookup: int -> Option<VolumeV>, times: seq<int>, coords: VCoords,
                       interp: VInterp, pts: seq<Point>, padxy: seq<real>, funSp: string, read: seq<string>,
                       req: CappiRequest) returns (r: Result<LevelExtraction>)
    requires CappiData.Separate(req)
    modifies ParsRef(req.pia), ParsRef(req.filter)
    ensures var run := Run(VCall(e, x, coords, interp, pts, padxy, funSp, read), lookup, times,
                           old(CappiData.SettingsOf(req)));
      (r.Fail? <==> run.Fail?) && (r.Fail? ==> r.err == run.err) &&
      (r.Ok? ==> r.value == AssembleLevels(pts, interp.z, req.fields, run.value))
  {
    ghost var step := VCall(e, x, coords, interp, pts, padxy, funSp, read);
    ghost var st0 := CappiData.SettingsOf(req);
    var dates: seq<string> := [];
    var data := NoValues(req.fields);
    ghost var written: seq<LevelDated> := [];
    var i := 0;
    assert times[0..] == times;
    while i < |times|
      invariant 0 <= i <= |times|
      invariant CappiData.Separate(req)
      invariant Run(step, lookup, times, st0) == Then(written, Run(step, lookup, times[i..], CappiData.SettingsOf(req)))
      invariant AssembleLevels(pts, interp.z, req.fields, written) == LevelExtraction(pts, interp.z, dates, data)
    {
      ghost var cur := CappiData.SettingsOf(req);
      var d := ExtractVTime(e, x, coords, interp, pts, padxy, funSp, read, lookup(times[i]), req);
      VCallIs(e, x, coords, interp, pts, padxy, funSp, read, lookup(times[i]), cur, d, CappiData.SettingsOf(req));
      if d.Fail? {
        RunStops(step, lookup, times, i, written, cur, d.err);
        return Fail(d.err);
      }
      RunAdvance(step, lookup, times, i, written, cur, d.value, CappiData.SettingsOf(req));
      if d.value.Some? {
        var t := d.value.value;
        AssembleLevelsSnoc(pts, interp.z, req.fields, written, t);
        written := written + [t];
        dates := dates + [t.date];
        data := AppendEach(data, req.fields, t.values);
      }
      i := i + 1;
    }
    RunDone(step, lookup, times, written, CappiData.SettingsOf(req));
    return Ok(LevelExtraction(pts, interp.z, dates, data));
  }

  /** What follows the set-up, on the request's settings objects. */
  method ExtractVAfterSetup(e: Engines, x: VExtractor, lookup: int -> Option<VolumeV>, times: seq<int>,
                            coords: VCoords, interp: VInterp, pts: seq<Point>, padxy: seq<real>, funSp: string,
                            req: CappiRequest) returns (r: Result<LevelExtraction>)
    requires CappiData.Separate(req)
    modifies ParsRef(req.pia), ParsRef(req.filter)
    ensures r == VFrom(e, x, lookup, times, old(CappiData.SettingsOf(req)), coords, interp, pts, padxy, funSp)
  {
    var st := CappiData.SettingsOf(req);
    var read := ExtractFieldsRead(st);
    if read.Fail? {
      return Fail(read.err);
    }
    r := ExtractVTimes(e, x, lookup, times, coords, interp, pts, padxy, funSp, read.value, req);
  }

  /** The time loop of `extract_polar_vertical` on the caller's settings, once the grid is known. */
  method ExtractVWith(e: Engines, x: VExtractor, lookup: int -> Option<VolumeV>, times: seq<int>, fs: seq<string>,
                      coords: VCoords, interp: VInterp, pts: seq<Point>, padxy: seq<real>, funSp: string,
                      pia: MethodPars?, dbzFields: Option<seq<string>>, filter: MethodPars?,
                      filterFields: Option<seq<string>>, applyCmd: bool)
    returns (r: Result<LevelExtraction>)
    requires Apart(pia, filter)
    modifies ParsRef(pia), ParsRef(filter)
    ensures r == VFrom(e, x, lookup, times, old(ExtractSettings(fs, ViewOf(pia), ViewOf(filter), applyCmd, dbzFields,
                                                                filterFields)), coords, interp, pts, padxy, funSp)
  {
    ghost var st0 := ExtractSettings(fs, ViewOf(pia), ViewOf(filter), applyCmd, dbzFields, filterFields);
    var noCappi := new MethodPars("", null);
    var req := CappiRequest(fs, noCappi, pia, filter, applyCmd, dbzFields, filterFields);
    assert CappiData.SettingsOf(req) == st0;
    r := ExtractVAfterSetup(e, x, lookup, times, coords, interp, pts, padxy, funSp, req);
  }

  /** `extract_polar_vertical` once the first volume `v0` is found, on the caller's settings. */
  method ExtractVOnStep(e: Engines, x: VExtractor, lookup: int -> Option<VolumeV>, times: seq<int>, v0: VolumeV,
                        fields: NameArg, pts: seq<Point>, padxy: seq<real>, funSp: string,
                        heights: Option<seq<real>>, applyCmd: bool, pia: MethodPars?,
                        dbzFields: Option<seq<string>>, filter: MethodPars?, filterFields: Option<seq<string>>)
    returns (r: Result<Option<LevelExtraction>>)
    requires Apart(pia, filter)
    modifies ParsRef(pia), ParsRef(filter)
    ensures r == ExtractVOn(e, x, lookup, times,
                            old(ExtractSettings(AsList(fields), ViewOf(pia), ViewOf(filter), applyCmd, dbzFields,
                                                filterFields)), v0, pts, heights, padxy, funSp)
  {
    ghost var st0 := ExtractSettings(AsList(fields), ViewOf(pia), ViewOf(filter), applyCmd, dbzFields, filterFields);
    var fs := VFields(AsList(fields), v0);
    if fs == [] {
      return Ok(None);
    }
    var hs := HeightAxis(heights);
    if hs.Fail? {
      return Fail(hs.err);
    }
    var rx := GridAxis(v0.gateX);
    if rx.Fail? {
      return Fail(rx.err);
    }
    var ry := GridAxis(v0.gateY);
    if ry.Fail? {
      return Fail(ry.err);
    }
    if pts == [] {
      return Fail(IndexError);
    }
    var coords := VCoords(v0.gateX, v0.gateY, v0.gateZ);
    var interp := VInterp(rx.value, ry.value, hs.value, v0.siteLon, v0.siteLat);
    assert ExtractSettings(fs, ViewOf(pia), ViewOf(filter), applyCmd, dbzFields, filterFields) == st0.(fields := fs);
    var t := ExtractVWith(e, x, lookup, times, fs, coords, interp, pts, padxy, funSp, pia, dbzFields, filter,
                          filterFields, applyCmd);
    if t.Fail? {
      return Fail(t.err);
    }
    if heights.None? {
      DefaultHeights();
    }
    return Ok(Some(t.value));
  }

  /**
   * `extract_polar_vertical(dirMDV, source, start_time, end_time, fields,
   * points, padxy, fun_sp, heights, apply_cmd, pia, dbz_fields, filter,
   * filter_fields)` for the times `times`: the result is `ExtractVSpec` on
   * the settings the caller passed.
   */
  method ExtractPolarVertical(e: Engines, x: VExtractor, lookup: int -> Option<VolumeV>, times: seq<int>,
                              fields: NameArg, pts: seq<Point>, padxy: seq<real>, funSp: string,
                              heights: Option<seq<real>>, applyCmd: bool, pia: MethodPars?,
                              dbzFields: Option<seq<string>>, filter: MethodPars?, filterFields: Option<seq<string>>)
    returns (r: Result<Option<LevelExtraction>>)
    requires Apart(pia, filter)
    modifies ParsRef(pia), ParsRef(filter)
    ensures r == ExtractVSpec(e, x, lookup, times,
                              old(ExtractSettings(AsList(fields), ViewOf(pia), ViewOf(filter), applyCmd, dbzFields,
                                                  filterFields)), pts, heights, padxy, funSp)
  {
    var radar0 := FindFirst(lookup, times);
    if radar0.None? {
      return Ok(None);
    }
    r := ExtractVOnStep(e, x, lookup, times, radar0.value, fields, pts, padxy, funSp, heights, applyCmd, pia,
                        dbzFields, filter, filterFields);
  }

  /**
   * `extractRadarPolarV`: the caller's PIA and filter settings are
   * defaulted in place, then `extract_polar_vertical` runs on the date
   * folders themselves (`source=None`) for the times from `start` to
   * `end`.
   */
  method ExtractRadarPolarV(e: Engines, x: VExtractor, lookup: int -> Option<VolumeV>, start: int, end: int,
                            fields: NameArg, pts: seq<Point>, padxy: seq<real>, funSp: string,
                            heights: Option<seq<real>>, applyCmd: bool, pia: MethodPars?,
                            dbzFields: Option<seq<string>>, filter: MethodPars?, filterFields: Option<seq<string>>)
    returns (r: Result<Option<LevelExtraction>>)
    requires pia != null ==> pia != filter
    modifies pia, filter
    ensures r == ExtractVSpec(e, x, lookup, Times(start, end),
                              ExtractSettings(AsList(fields), DefaultedPia(old(ViewOf(pia))),
                                              DefaultedFilter(old(ViewOf(filter))), applyCmd, dbzFields,
                                              filterFields), pts, heights, padxy, funSp)
  {
    DefaultConditioning(pia, filter);
    r := ExtractPolarVertical(e, x, lookup, Times(start, end), fields, pts, padxy, funSp, heights, applyCmd, pia,
                              dbzFields, filter, filterFields);
  }

  /** `polarVExtractedTable(x)`: one row per point, height and date. */
  method PolarVExtractedTable(x: LevelExtraction) returns (out: seq<TableRow>)
    requires Shaped(|x.coords|, |x.levels|, |x.date|, x.data)
    ensures out == Table(x.coords, x.levels, x.date, x.data)
  {
    out := ExtractedTable(x.coords, x.levels, x.date, x.data);
  }
}
