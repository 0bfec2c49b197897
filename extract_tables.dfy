/**
 * The output the grid and vertical extractors share (`extract_grid_data`,
 * `extract_polar_vertical`): per field, one level × point table per time
 * with a file; and its flattening by `gridExtractedTable`
 * (api/radargrid_extract_loc.py) and `polarVExtractedTable`
 * (api/radarpolar_extractV_loc.py) into one row per point, level and
 * date, points outermost and dates innermost.
 */
module ExtractTables {
  import opened PyBase
  import opened Utilities
  import opened ExtractCommon

  /** What one time appends: the scan time and, per field, its level × point table. */
  datatype LevelDated = LevelDated(date: string, values: map<string, seq<seq<real>>>)

  /**
   * The returned dictionary: `coords`, the levels (`altitude` or
   * `height`), `date` and, per field, the values as date × level × point.
   */
  datatype LevelExtraction = LevelExtraction(coords: seq<Point>, levels: seq<real>, date: seq<string>,
                                             data: map<string, seq<seq<seq<real>>>>)

  /** The output after the tables `ds` were appended, in order. */
  function AssembleLevels(pts: seq<Point>, levels: seq<real>, fields: seq<string>, ds: seq<LevelDated>)
    : (r: LevelExtraction)
    ensures r.coords == pts && r.levels == levels && |r.date| == |ds| && r.data.Keys == set f | f in fields
    decreases |ds|
  {
    if ds == [] then LevelExtraction(pts, levels, [], NoValues(fields))
    else
      var a := AssembleLevels(pts, levels, fields, ds[..|ds| - 1]);
      var d := ds[|ds| - 1];
      a.(date := a.date + [d.date], data := AppendEach(a.data, fields, d.values))
  }

  /** Appending one more time's tables extends the dates and each field's list by that time. */
  lemma AssembleLevelsSnoc(pts: seq<Point>, levels: seq<real>, fields: seq<string>, ds: seq<LevelDated>, d: LevelDated)
    ensures var a := AssembleLevels(pts, levels, fields, ds);
      AssembleLevels(pts, levels, fields, ds + [d]) == a.(date := a.date + [d.date], data := AppendEach(a.data, fields, d.values))
  {
    assert (ds + [d])[..|ds|] == ds;
  }

  /** A time's tables: exactly the requested fields, each with one row per level and one column per point. */
  ghost predicate TablesShaped(npt: nat, nlev: nat, fields: seq<string>, d: LevelDated)
  {
    d.values.Keys == (set f | f in fields) && forall f :: f in fields ==> IsMatrix(d.values[f], nlev, npt)
  }

  /**
   * With every field listed once, entry k of the dates and of each
   * field's list comes from the k-th time appended, and each field's list
   * has one entry per time.
   */
  lemma {:induction false} AssembleLevelsAt(pts: seq<Point>, levels: seq<real>, fields: seq<string>,
                                            ds: seq<LevelDated>, k: nat)
    requires k < |ds|
    requires forall j :: 0 <= j < |ds| ==> ds[j].values.Keys == set f | f in fields
    ensures AssembleLevels(pts, levels, fields, ds).date[k] == ds[k].date
    ensures NoDuplicates(fields) ==> forall f :: f in fields ==>
      |AssembleLevels(pts, levels, fields, ds).data[f]| == |ds| &&
      AssembleLevels(pts, levels, fields, ds).data[f][k] == ds[k].values[f]
    decreases |ds|
  {
    var init := ds[..|ds| - 1];
    var a := AssembleLevels(pts, levels, fields, init);
    if NoDuplicates(fields) {
      AppendEachDistinct(a.data, fields, ds[|ds| - 1].values);
      AssembleLevelsLengths(pts, levels, fields, init);
    }
    if k < |ds| - 1 {
      AssembleLevelsAt(pts, levels, fields, init, k);
    }
  }

  /** With every field listed once, each field's list has one entry per time. */
  lemma {:induction false} AssembleLevelsLengths(pts: seq<Point>, levels: seq<real>, fields: seq<string>,
                                                 ds: seq<LevelDated>)
    requires NoDuplicates(fields)
    requires forall j :: 0 <= j < |ds| ==> ds[j].values.Keys == set f | f in fields
    ensures forall f :: f in fields ==> |AssembleLevels(pts, levels, fields, ds).data[f]| == |ds|
    decreases |ds|
  {
    if ds != [] {
      var init := ds[..|ds| - 1];
      AssembleLevelsLengths(pts, levels, fields, init);
      AppendEachDistinct(AssembleLevels(pts, levels, fields, init).data, fields, ds[|ds| - 1].values);
    }
  }

  /** Entry d of a field's list is that time's level × point table. */
  lemma AssembleLevelsEntry(pts: seq<Point>, levels: seq<real>, fields: seq<string>, ds: seq<LevelDated>, v: string,
                            d: nat)
    requires NoDuplicates(fields)
    requires forall j :: 0 <= j < |ds| ==> TablesShaped(|pts|, |levels|, fields, ds[j])
    requires v in fields && d < |ds|
    ensures var x := AssembleLevels(pts, levels, fields, ds);
      |x.data[v]| == |ds| && IsMatrix(x.data[v][d], |levels|, |pts|)
  {
    assert forall j :: 0 <= j < |ds| ==> ds[j].values.Keys == set f | f in fields by {
      forall j | 0 <= j < |ds| ensures ds[j].values.Keys == set f | f in fields {
        assert TablesShaped(|pts|, |levels|, fields, ds[j]);
      }
    }
    AssembleLevelsAt(pts, levels, fields, ds, d);
    assert TablesShaped(|pts|, |levels|, fields, ds[d]);
  }

  /**
   * With every field listed once and every time's tables shaped, the
   * output has the date × level × point shape its tables need.
   */
  lemma AssembleLevelsShaped(pts: seq<Point>, levels: seq<real>, fields: seq<string>, ds: seq<LevelDated>)
    requires NoDuplicates(fields)
    requires forall j :: 0 <= j < |ds| ==> TablesShaped(|pts|, |levels|, fields, ds[j])
    ensures var x := AssembleLevels(pts, levels, fields, ds); Shaped(|x.coords|, |x.levels|, |x.date|, x.data)
  {
    var x := AssembleLevels(pts, levels, fields, ds);
    forall v, d | v in x.data && 0 <= d < |ds|
      ensures |x.data[v]| == |ds| && IsMatrix(x.data[v][d], |levels|, |pts|)
    {
      AssembleLevelsEntry(pts, levels, fields, ds, v, d);
    }
    if ds != [] {
      forall v | v in x.data ensures |x.data[v]| == |ds| {
        AssembleLevelsEntry(pts, levels, fields, ds, v, 0);
      }
    }
  }

  /**
   * One row: the point's `id`, `longitude` and `latitude`, the `dates`
   * entry, the level (`altitude` of a grid, `height` of a vertical
   * extraction) and each variable's value.
   */
  datatype TableRow = TableRow(id: string, lon: real, lat: real, date: string, level: real, values: map<string, real>)

  /** `x['data'][v][d][e][p]` exists for every variable, date d, level e and point p. */
  predicate Shaped(npt: nat, nlev: nat, ndates: nat, data: map<string, seq<seq<seq<real>>>>)
  {
    forall v :: v in data ==> (|data[v]| >= ndates &&
      forall d :: 0 <= d < ndates ==> (|data[v][d]| >= nlev &&
        forall e :: 0 <= e < nlev ==> |data[v][d][e]| >= npt))
  }

  /** The row of point p, level e and date d. */
  function RowAt(coords: seq<Point>, levels: seq<real>, dates: seq<string>, data: map<string, seq<seq<seq<real>>>>,
                 p: nat, e: nat, d: nat): (r: TableRow)
    requires Shaped(|coords|, |levels|, |dates|, data)
    requires p < |coords| && e < |levels| && d < |dates|
    ensures r.values.Keys == data.Keys
  {
    TableRow(coords[p].id, coords[p].lon, coords[p].lat, dates[d], levels[e], map v | v in data :: data[v][d][e][p])
  }

  /** The rows of point p and level e, one per date. */
  function LevelRows(coords: seq<Point>, levels: seq<real>, dates: seq<string>, data: map<string, seq<seq<seq<real>>>>,
                     p: nat, e: nat): (r: seq<TableRow>)
    requires Shaped(|coords|, |levels|, |dates|, data)
    requires p < |coords| && e < |levels|
    ensures |r| == |dates|
  {
    seq(|dates|, d requires 0 <= d < |dates| => RowAt(coords, levels, dates, data, p, e, d))
  }

  /** The blocks of point p, one per level. */
  function PointBlocks(coords: seq<Point>, levels: seq<real>, dates: seq<string>, data: map<string, seq<seq<seq<real>>>>,
                       p: nat): (r: seq<seq<TableRow>>)
    requires Shaped(|coords|, |levels|, |dates|, data)
    requires p < |coords|
    ensures IsMatrix(r, |levels|, |dates|)
  {
    seq(|levels|, e requires 0 <= e < |levels| => LevelRows(coords, levels, dates, data, p, e))
  }

  /** The blocks of the whole table, one per point. */
  function TableBlocks(coords: seq<Point>, levels: seq<real>, dates: seq<string>, data: map<string, seq<seq<seq<real>>>>)
    : (r: seq<seq<TableRow>>)
    requires Shaped(|coords|, |levels|, |dates|, data)
    ensures IsMatrix(r, |coords|, |levels| * |dates|)
  {
    seq(|coords|, p requires 0 <= p < |coords| => Concat(PointBlocks(coords, levels, dates, data, p)))
  }

  /** The rows in the order of the three loops. */
  function Table(coords: seq<Point>, levels: seq<real>, dates: seq<string>, data: map<string, seq<seq<seq<real>>>>)
    : seq<TableRow>
    requires Shaped(|coords|, |levels|, |dates|, data)
  {
    Concat(TableBlocks(coords, levels, dates, data))
  }

  /** The row index of point p, level e and date d is not negative. */
  lemma RowIndexNonNegative(nlev: nat, ndates: nat, p: nat, e: nat, d: nat)
    ensures 0 <= (nlev * ndates) * p + (ndates * e + d)
  {
    assert 0 <= nlev * ndates;
    assert 0 <= (nlev * ndates) * p && 0 <= ndates * e;
  }

  /**
   * The table has one row per point, level and date, and the row of point
   * p, level e and date d is row `(nlev * ndates) * p + (ndates * e + d)`:
   * it carries the point, the date, the level and every variable's value
   * `data[v][d][e][p]`.
   */
  lemma TableAt(coords: seq<Point>, levels: seq<real>, dates: seq<string>, data: map<string, seq<seq<seq<real>>>>,
                p: nat, e: nat, d: nat)
    requires Shaped(|coords|, |levels|, |dates|, data)
    requires p < |coords| && e < |levels| && d < |dates|
    ensures |Table(coords, levels, dates, data)| == |coords| * (|levels| * |dates|)
    ensures 0 <= (|levels| * |dates|) * p + (|dates| * e + d) < |Table(coords, levels, dates, data)|
    ensures var row := Table(coords, levels, dates, data)[(|levels| * |dates|) * p + (|dates| * e + d)];
      row.id == coords[p].id && row.lon == coords[p].lon && row.lat == coords[p].lat &&
      row.date == dates[d] && row.level == levels[e] &&
      row.values.Keys == data.Keys && forall v :: v in data ==> row.values[v] == data[v][d][e][p]
  {
    RowIndexNonNegative(|levels|, |dates|, p, e, d);
    var pb := PointBlocks(coords, levels, dates, data, p);
    var row := RowAt(coords, levels, dates, data, p, e, d);
    ConcatAt(pb, |levels|, |dates|, e, d);
    assert pb[e][d] == row;
    var blocks := TableBlocks(coords, levels, dates, data);
    assert blocks[p] == Concat(pb);
    ConcatAt(blocks, |coords|, |levels| * |dates|, p, |dates| * e + d);
  }

  /** The innermost loop, over the dates of point p and level e: `out = out + [tab]`. */
  method AppendDates(out0: seq<TableRow>, coords: seq<Point>, levels: seq<real>, dates: seq<string>,
                     data: map<string, seq<seq<seq<real>>>>, p: nat, e: nat) returns (out: seq<TableRow>)
    requires Shaped(|coords|, |levels|, |dates|, data)
    requires p < |coords| && e < |levels|
    ensures out == out0 + LevelRows(coords, levels, dates, data, p, e)
  {
    ghost var row := LevelRows(coords, levels, dates, data, p, e);
    out := out0;
    var d := 0;
    while d < |dates|
      invariant 0 <= d <= |dates|
      invariant out == out0 + row[..d]
    {
      var pt := coords[p];
      var tab := TableRow(pt.id, pt.lon, pt.lat, dates[d], levels[e], map v | v in data :: data[v][d][e][p]);
      assert tab == row[d];
      assert row[..d + 1] == row[..d] + [tab];
      out := out + [tab];
      d := d + 1;
    }
    assert row[..|dates|] == row;
  }

  /** The middle loop, over the levels of point p. */
  method AppendLevels(out0: seq<TableRow>, coords: seq<Point>, levels: seq<real>, dates: seq<string>,
                      data: map<string, seq<seq<seq<real>>>>, p: nat) returns (out: seq<TableRow>)
    requires Shaped(|coords|, |levels|, |dates|, data)
    requires p < |coords|
    ensures out == out0 + Concat(PointBlocks(coords, levels, dates, data, p))
  {
    ghost var pb := PointBlocks(coords, levels, dates, data, p);
    out := out0;
    var e := 0;
    while e < |levels|
      invariant 0 <= e <= |levels|
      invariant out == out0 + Concat(pb[..e])
    {
      out := AppendDates(out, coords, levels, dates, data, p, e);
      ConcatSnoc(pb, e);
      e := e + 1;
    }
    assert pb[..|levels|] == pb;
  }

  /** `polarVExtractedTable` / `gridExtractedTable` on the output's coordinates, levels, dates and data. */
  method ExtractedTable(coords: seq<Point>, levels: seq<real>, dates: seq<string>,
                        data: map<string, seq<seq<seq<real>>>>) returns (out: seq<TableRow>)
    requires Shaped(|coords|, |levels|, |dates|, data)
    ensures out == Table(coords, levels, dates, data)
  {
    ghost var blocks := TableBlocks(coords, levels, dates, data);
    out := [];
    var p := 0;
    while p < |coords|
      invariant 0 <= p <= |coords|
      invariant out == Concat(blocks[..p])
    {
      out := AppendLevels(out, coords, levels, dates, data, p);
      ConcatSnoc(blocks, p);
      p := p + 1;
    }
    assert blocks[..|coords|] == blocks;
  }
}
