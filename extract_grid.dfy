/**
 * `extract_grid_data` of api/radargrid_extract.py, its front end
 * `extractRadarGrid` and `gridExtractedTable`
 * (api/radargrid_extract_loc.py): the Cartesian grid of each five-minute
 * time is read, its fields handed with the first grid's coordinates to
 * the R routine `extract_3DGridData`, and the vector it returns per field
 * reshaped to a level × point table.
 *
 * The grid file of a time (None when there is none) is a parameter
 * (`lookup`), and so is the R routine (`GridExtractor`); the geographic
 * coordinates of a grid's axes, which pyart computes from its
 * projection, are part of the grid.
 */
module ExtractGrid {
  import opened Wrappers
  import opened PyBase
  import opened Radars
  import opened Utilities
  import opened ReadMdv
  import opened Batch
  import opened LocDefaults
  import opened ExtractCommon
  import opened ExtractTables

  /**
   * A grid file: its fields, the field names of its header, the number of
   * levels (`nz`), the longitudes and latitudes of its x and y axes, the
   * altitudes of its levels (`z["data"]`) and its formatted scan time.
   */
  datatype GridFile = GridFile(fields: map<string, Field>, header: seq<string>, nz: nat, lon: seq<real>,
                               lat: seq<real>, alt: seq<real>, date: string)

  /** `r_coords`: the first grid's axes. */
  datatype GridCoords = GridCoords(lon: seq<real>, lat: seq<real>, alt: seq<real>)

  /**
   * `mtrwdata.extract_3DGridData(r_coords, r_data, r_points, r_levels,
   * r_padxyz, fun_sp)`, its result as a dictionary from names to vectors
   * (None for NaN).
   */
  type GridExtractor = (GridCoords, map<string, seq<Option<real>>>, seq<Point>, seq<int>, seq<real>, string)
    -> map<string, seq<Option<real>>>

  // ---------------------------------------------------------------
  // The levels
  // ---------------------------------------------------------------

  /** `[l for l in levels if not l > max_nz]`. */
  function AtMost(l: seq<int>, m: int): (r: seq<int>)
    ensures forall x :: x in r <==> x in l && x <= m
    ensures |r| <= |l|
    ensures (forall x :: x in l ==> x <= m) ==> r == l
  {
    if l == [] then []
    else
      assert l == [l[0]] + l[1..] && l[0] in l;
      assert forall x :: x in l[1..] ==> x in l;
      (if l[0] <= m then [l[0]] else []) + AtMost(l[1..], m)
  }

  /**
   * The levels after normalisation: `max` of an empty list raises
   * ValueError; otherwise, when the largest level exceeds the top index
   * `nz - 1`, the levels above it are dropped.
   */
  function GridLevels(a: IndexArg, nz: nat): (r: Result<seq<int>>)
    ensures r.Fail? <==> AllOrListed(a, nz) == []
    ensures r.Fail? ==> r.err == ValueError
    ensures r.Ok? ==> forall x :: x in r.value <==> x in AllOrListed(a, nz) && x < nz
    ensures r.Ok? && (forall x :: x in AllOrListed(a, nz) ==> x < nz) ==> r.value == AllOrListed(a, nz)
  {
    var l := AllOrListed(a, nz);
    if l == [] then Fail(ValueError)
    else if exists x :: x in l && x > nz - 1 then Ok(AtMost(l, nz - 1))
    else Ok(l)
  }

  /** With `levels == -1`, every level of the first grid is taken, in order. */
  lemma AllGridLevels(nz: nat)
    requires nz > 0
    ensures GridLevels(OneIndex(-1), nz) == Ok(seq(nz, i requires 0 <= i < nz => i))
  {
    var l := AllOrListed(OneIndex(-1), nz);
    assert forall x :: x in l ==> x < nz;
    assert l == seq(nz, i requires 0 <= i < nz => i);
  }

  /** `alt[levels]`: IndexError when any level is outside the axis. */
  function PickAll(xs: seq<real>, ks: seq<int>): (r: Result<seq<real>>)
    ensures r.Ok? <==> forall k :: k in ks ==> PyIndex(k, |xs|).Some?
    ensures r.Fail? ==> r.err == IndexError
    ensures r.Ok? ==> (|r.value| == |ks| &&
      forall i :: 0 <= i < |ks| ==> r.value[i] == xs[PyIndex(ks[i], |xs|).value])
  {
    if forall k :: k in ks ==> PyIndex(k, |xs|).Some? then
      Ok(seq(|ks|, i requires 0 <= i < |ks| => xs[PyIndex(ks[i], |xs|).value]))
    else Fail(IndexError)
  }

  // ---------------------------------------------------------------
  // One time
  // ---------------------------------------------------------------

  /** `readRadarGrid(dirDate, time, fields)`: the requested fields its header lists. */
  function GridRead(g: GridFile, fields: seq<string>): (r: map<string, Field>)
    ensures (forall x :: x in g.fields ==> x in g.header) ==> forall x :: x in r <==> x in g.fields && x in fields
  {
    RadarGridFields(g.fields, g.header, FieldsList(fields))
  }

  /**
   * `out` of one grid: each field's values, flattened, go to the R
   * routine; a requested field the grid lacks raises KeyError first.
   */
  function GridOut(x: GridExtractor, coords: GridCoords, pts: seq<Point>, levels: seq<int>, padxyz: seq<real>,
                   funSp: string, fields: seq<string>, g: GridFile): (r: Result<map<string, seq<Option<real>>>>)
    ensures r.Ok? <==> forall f :: f in fields ==> f in GridRead(g, fields)
    ensures r.Fail? ==> r.err.KeyError? && r.err.key in fields
  {
    match FillFields(GridRead(g, fields), fields)
    case Fail(err) => Fail(err)
    case Ok(fill) => Ok(x(coords, RData(fill), pts, levels, padxyz, funSp))
  }

  /**
   * One pass of the time loop on the grid found (None: nothing is
   * appended): each vector the R routine returns becomes that field's
   * level × point table.
   */
  function GridTime(x: GridExtractor, coords: GridCoords, pts: seq<Point>, levels: seq<int>, padxyz: seq<real>,
                    funSp: string, fields: seq<string>, found: Option<GridFile>): (r: Result<Option<LevelDated>>)
    ensures found.None? ==> r == Ok(None)
    ensures r.Ok? && found.Some? ==> r.value.Some? && r.value.value.date == found.value.date
    ensures r.Ok? && r.value.Some? ==> TablesShaped(|pts|, |levels|, fields, r.value.value)
    ensures found.Some? && r.Fail? ==> r.err == ValueError || (r.err.KeyError? && r.err.key in fields)
  {
    if found.None? then Ok(None)
    else
      var g := found.value;
      match GridOut(x, coords, pts, levels, padxyz, funSp, fields, g)
      case Fail(err) => Fail(err)
      case Ok(out) =>
        match Reshaped(out, fields, |pts|, |levels|)
        case Fail(err) => Fail(err)
        case Ok(m) =>
          assert forall f :: f in fields ==> IsMatrix(m[f], |levels|, |pts|) by {
            forall f | f in fields ensures IsMatrix(m[f], |levels|, |pts|) {
              assert Ok(m[f]) == LevelsByPoints(out[f], |pts|, |levels|);
            }
          }
          Ok(Some(LevelDated(g.date, m)))
  }

  /** `GridTime` as a step of the batch loop, which has no settings to thread. */
  function GridCall(x: GridExtractor, coords: GridCoords, pts: seq<Point>, levels: seq<int>, padxyz: seq<real>,
                    funSp: string, fields: seq<string>): (Option<GridFile>, ()) -> Result<Stepped<(), LevelDated>>
  {
    (found: Option<GridFile>, u: ()) =>
      match GridTime(x, coords, pts, levels, padxyz, funSp, fields, found)
      case Fail(err) => Fail(err)
      case Ok(o) => Ok(Stepped(o, u))
  }

  /** Every time with a grid appends a table per field, shaped level × point. */
  lemma GridCallShaped(x: GridExtractor, coords: GridCoords, pts: seq<Point>, levels: seq<int>, padxyz: seq<real>,
                       funSp: string, fields: seq<string>)
    ensures ProductIffFile(GridCall(x, coords, pts, levels, padxyz, funSp, fields))
    ensures ProductsSatisfy(GridCall(x, coords, pts, levels, padxyz, funSp, fields), (u: ()) => true,
                            (d: LevelDated) => TablesShaped(|pts|, |levels|, fields, d))
  {
  }

  // ---------------------------------------------------------------
  // The whole extraction
  // ---------------------------------------------------------------

  /** The fields kept: those of the request that the first grid holds. */
  function GridFields(fields: seq<string>, g0: GridFile): (r: seq<string>)
    ensures forall f :: f in r <==> f in fields && f in g0.fields
  {
    KeepPresent(fields, RadarGridFields(g0.fields, g0.header, FieldsStr("all")).Keys)
  }

  /**
   * `extract_grid_data` for the times `times`: `{}` (None) when no time
   * has a grid, when the first grid holds none of the fields, or when no
   * level is left; an empty list of points raises IndexError; otherwise one
   * table per field is appended per time with a grid.
   */
  function ExtractGridSpec(x: GridExtractor, lookup: int -> Option<GridFile>, times: seq<int>, fields: seq<string>,
                           pts: seq<Point>, levels: IndexArg, padxyz: seq<real>, funSp: string)
    : (r: Result<Option<LevelExtraction>>)
    ensures (forall t :: t in times ==> lookup(t).None?) ==> r == Ok(None)
    ensures r.Ok? && r.value.Some? ==>
      |r.value.value.date| == WithFile(lookup, times) && r.value.value.coords == pts &&
      r.value.value.data.Keys == set f | f in GridFields(fields, FirstFound(lookup, times).value)
  {
    match FirstFound(lookup, times)
    case None => Ok(None)
    case Some(g0) =>
      var fs := GridFields(fields, g0);
      if fs == [] then Ok(None)
      else
        match GridLevels(levels, g0.nz)
        case Fail(err) => Fail(err)
        case Ok(lv) =>
          if lv == [] then Ok(None)
          else if pts == [] then Fail(IndexError)
          else
            match PickAll(g0.alt, lv)
            case Fail(err) => Fail(err)
            case Ok(alts) =>
              var step := GridCall(x, GridCoords(g0.lon, g0.lat, g0.alt), pts, lv, padxyz, funSp, fs);
              match Run(step, lookup, times, ())
              case Fail(err) => Fail(err)
              case Ok(ds) =>
                GridCallShaped(x, GridCoords(g0.lon, g0.lat, g0.alt), pts, lv, padxyz, funSp, fs);
                RunCount(step, lookup, times, ());
                Ok(Some(AssembleLevels(pts, alts, fs, ds)))
  }

  /**
   * With every field listed once, the output has the date × altitude ×
   * point shape `gridExtractedTable` needs, and the table of date k of
   * field f is the one the k-th grid found gave.
   */
  lemma ExtractGridShaped(x: GridExtractor, lookup: int -> Option<GridFile>, times: seq<int>, fields: seq<string>,
                          pts: seq<Point>, levels: IndexArg, padxyz: seq<real>, funSp: string)
    requires NoDuplicates(fields)
    requires var r := ExtractGridSpec(x, lookup, times, fields, pts, levels, padxyz, funSp); r.Ok? && r.value.Some?
    ensures var e := ExtractGridSpec(x, lookup, times, fields, pts, levels, padxyz, funSp).value.value;
      Shaped(|e.coords|, |e.levels|, |e.date|, e.data)
  {
    var g0 := FirstFound(lookup, times).value;
    var fs := GridFields(fields, g0);
    KeepPresentNoDuplicates(fields, g0.fields.Keys);
    var lv := GridLevels(levels, g0.nz).value;
    var alts := PickAll(g0.alt, lv).value;
    var step := GridCall(x, GridCoords(g0.lon, g0.lat, g0.alt), pts, lv, padxyz, funSp, fs);
    var ds := Run(step, lookup, times, ()).value;
    GridCallShaped(x, GridCoords(g0.lon, g0.lat, g0.alt), pts, lv, padxyz, funSp, fs);
    RunProductsSatisfy(step, (u: ()) => true, (d: LevelDated) => TablesShaped(|pts|, |lv|, fs, d), lookup, times, ());
    AssembleLevelsShaped(pts, alts, fs, ds);
  }

  // ---------------------------------------------------------------
  // The loops
  // ---------------------------------------------------------------

  /** The time loop, appending to `ext_data` for each time with a grid. */
  method ExtractGridTimes(x: GridExtractor, lookup: int -> Option<GridFile>, times: seq<int>, coords: GridCoords,
                          pts: seq<Point>, lv: seq<int>, alts: seq<real>, padxyz: seq<real>, funSp: string,
                          fs: seq<string>) returns (r: Result<LevelExtraction>)
    ensures var run := Run(GridCall(x, coords, pts, lv, padxyz, funSp, fs), lookup, times, ());
      (r.Fail? <==> run.Fail?) && (r.Fail? ==> r.err == run.err) &&
      (r.Ok? ==> r.value == AssembleLevels(pts, alts, fs, run.value))
  {
    ghost var step := GridCall(x, coords, pts, lv, padxyz, funSp, fs);
    var dates: seq<string> := [];
    var data := NoValues(fs);
    ghost var written: seq<LevelDated> := [];
    var i := 0;
    assert times[0..] == times;
    while i < |times|
      invariant 0 <= i <= |times|
      invariant Run(step, lookup, times, ()) == Then(written, Run(step, lookup, times[i..], ()))
      invariant AssembleLevels(pts, alts, fs, written) == LevelExtraction(pts, alts, dates, data)
    {
      var d := GridTime(x, coords, pts, lv, padxyz, funSp, fs, lookup(times[i]));
      if d.Fail? {
        RunStops(step, lookup, times, i, written, (), d.err);
        return Fail(d.err);
      }
      RunAdvance(step, lookup, times, i, written, (), d.value, ());
      if d.value.Some? {
        var t := d.value.value;
        AssembleLevelsSnoc(pts, alts, fs, written, t);
        written := written + [t];
        dates := dates + [t.date];
        data := AppendEach(data, fs, t.values);
      }
      i := i + 1;
    }
    RunDone(step, lookup, times, written, ());
    return Ok(LevelExtraction(pts, alts, dates, data));
  }

  /**
   * `extract_grid_data(dirMDV, source, start_time, end_time, fields,
   * points, levels, padxyz, fun_sp)` for the times `times`.
   */
  method ExtractGridData(x: GridExtractor, lookup: int -> Option<GridFile>, times: seq<int>, fields: NameArg,
                         pts: seq<Point>, levels: IndexArg, padxyz: seq<real>, funSp: string)
    returns (r: Result<Option<LevelExtraction>>)
    ensures r == ExtractGridSpec(x, lookup, times, AsList(fields), pts, levels, padxyz, funSp)
  {
    var grid0 := FindFirst(lookup, times);
    if grid0.None? {
      return Ok(None);
    }
    var g0 := grid0.value;
    var fs := GridFields(AsList(fields), g0);
    if fs == [] {
      return Ok(None);
    }
    var lv := GridLevels(levels, g0.nz);
    if lv.Fail? {
      return Fail(lv.err);
    }
    if lv.value == [] {
      return Ok(None);
    }
    if pts == [] {
      return Fail(IndexError);
    }
    var alts := PickAll(g0.alt, lv.value);
    if alts.Fail? {
      return Fail(alts.err);
    }
    var e := ExtractGridTimes(x, lookup, times, GridCoords(g0.lon, g0.lat, g0.alt), pts, lv.value, alts.value, padxyz,
                              funSp, fs);
    if e.Fail? {
      return Fail(e.err);
    }
    return Ok(Some(e.value));
  }

  /** `extractRadarGrid`: `extract_grid_data` on the date folders themselves (`source=None`). */
  method ExtractRadarGrid(x: GridExtractor, lookup: int -> Option<GridFile>, times: seq<int>, fields: NameArg,
                          pts: seq<Point>, levels: IndexArg, padxyz: seq<real>, funSp: string)
    returns (r: Result<Option<LevelExtraction>>)
    ensures r == ExtractGridSpec(x, lookup, times, AsList(fields), pts, levels, padxyz, funSp)
  {
    r := ExtractGridData(x, lookup, times, fields, pts, levels, padxyz, funSp);
  }

  /** `gridExtractedTable(x)`: one row per point, altitude and date. */
  method GridExtractedTable(x: LevelExtraction) returns (out: seq<TableRow>)
    requires Shaped(|x.coords|, |x.levels|, |x.date|, x.data)
    ensures out == Table(x.coords, x.levels, x.date, x.data)
  {
    out := ExtractedTable(x.coords, x.levels, x.date, x.data);
  }
}
