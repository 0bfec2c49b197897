/**
 * `extract_polar_data` of api/radarpolar_extract.py: the polar volume of
 * each five-minute time is read, conditioned as in `create_cappi_data`
 * (filter, attenuation correction, clutter mask), and for every
 * requested sweep and point the gate nearest to the point is taken; its
 * position and each field's value there are appended to the output, one
 * slab per time with a file.
 *
 * The volume of a time (None when no file is found) is a parameter
 * (`lookup`), as the file selection is in PolarReaders; the formatted
 * scan time of a volume is part of it.
 */
module ExtractPolar {
  import opened Wrappers
  import opened PyBase
  import opened Gates
  import opened Radars
  import opened Utilities
  import opened ApiConfig
  import opened FieldPlan
  import opened ReadMdv
  import opened PolarReaders
  import opened PrecipPolar
  import opened CappiData
  import opened Batch
  import opened LocDefaults
  import opened Cadence
  import opened Series
  import opened ExtractCommon
  import opened ExtractConditioning

  // ---------------------------------------------------------------
  // The volume
  // ---------------------------------------------------------------

  /** Where one gate is: an entry of `get_gate_lat_lon_alt`. */
  datatype Site = Site(lon: real, lat: real, alt: real)

  /**
   * One sweep: its fixed angle, the index of its first ray in the volume,
   * and the sites of its gates, ray after ray (`lon.flatten()`).
   */
  datatype Sweep = Sweep(fixedAngle: real, startRay: nat, sites: seq<Site>)

  /**
   * A polar volume as the extraction sees it: the MDV content, the sweeps,
   * the number of gates per ray, and the scan time as
   * `radarPolarTimeInfo(radar, time_zone)["format"]` gives it.
   */
  datatype PolarVolume = PolarVolume(file: MdvFile, sweeps: seq<Sweep>, ngates: nat, date: string)

  /** `radar0.fixed_angle["data"][sweeps]`: IndexError when any index is outside the volume. */
  function ElevationAngles(v: PolarVolume, sw: seq<int>): (r: Result<seq<real>>)
    ensures r.Ok? <==> forall k :: k in sw ==> PyIndex(k, |v.sweeps|).Some?
    ensures r.Fail? ==> r.err == IndexError
    ensures r.Ok? ==> (|r.value| == |sw| &&
      forall i :: 0 <= i < |sw| ==> r.value[i] == v.sweeps[PyIndex(sw[i], |v.sweeps|).value].fixedAngle)
  {
    if forall k :: k in sw ==> PyIndex(k, |v.sweeps|).Some? then
      Ok(seq(|sw|, i requires 0 <= i < |sw| => v.sweeps[PyIndex(sw[i], |v.sweeps|).value].fixedAngle))
    else Fail(IndexError)
  }

  /** With `sweeps == -1` the angles are those of every sweep, in order, and never raise. */
  lemma AllSweepsAngles(v: PolarVolume)
    ensures var r := ElevationAngles(v, AllOrListed(OneIndex(-1), |v.sweeps|));
      r.Ok? && |r.value| == |v.sweeps| && forall i :: 0 <= i < |v.sweeps| ==> r.value[i] == v.sweeps[i].fixedAngle
  {
    var sw := AllOrListed(OneIndex(-1), |v.sweeps|);
    assert forall k :: k in sw ==> 0 <= k < |v.sweeps|;
  }

  // ---------------------------------------------------------------
  // The nearest gate
  // ---------------------------------------------------------------

  /** `np.square(lon - x) + np.square(lat - y)` at one gate. */
  function SqDist(s: Site, p: Point): real
  {
    (s.lon - p.lon) * (s.lon - p.lon) + (s.lat - p.lat) * (s.lat - p.lat)
  }

  /** `argmin` of the squared distances: a closest gate, the first one on ties. */
  function Nearest(sites: seq<Site>, p: Point): (ix: nat)
    requires |sites| > 0
    ensures ix < |sites|
    ensures forall j :: 0 <= j < |sites| ==> SqDist(sites[ix], p) <= SqDist(sites[j], p)
    ensures forall j :: 0 <= j < ix ==> SqDist(sites[ix], p) < SqDist(sites[j], p)
    decreases |sites|
  {
    if |sites| == 1 then 0
    else
      var k := Nearest(sites[..|sites| - 1], p);
      assert forall j :: 0 <= j < |sites| - 1 ==> sites[..|sites| - 1][j] == sites[j];
      if SqDist(sites[|sites| - 1], p) < SqDist(sites[k], p) then |sites| - 1 else k
  }

  // ---------------------------------------------------------------
  // The value at a gate
  // ---------------------------------------------------------------

  /**
   * `fill_fields[field].flatten()[ixy]` as written: the sweep's gate index
   * taken into the whole volume.
   */
  function SampleAsWritten(data: MArray, ixy: nat): (r: Result<Option<real>>)
    ensures r.Ok? <==> ixy < |Concat(data.rows)|
    ensures r.Fail? ==> r.err == IndexError
  {
    var flat := Concat(data.rows);
    if ixy < |flat| then Ok(Filled(flat[ixy])) else Fail(IndexError)
  }

  /**
   * The value the sweep's gate index stands for: the index counted from the
   * sweep's first ray, as the sweep's own slice of the volume would give it.
   */
  function Sample(data: MArray, startRay: nat, ngates: nat, ixy: nat): (r: Result<Option<real>>)
    ensures r.Fail? ==> r.err == IndexError
    ensures startRay == 0 ==> r == SampleAsWritten(data, ixy)
  {
    SampleAsWritten(data, ngates * startRay + ixy)
  }

  /**
   * For a volume of `nrays` rays of `ngates` gates, gate g of ray r of the
   * sweep is read from ray `startRay + r` of the field.
   */
  lemma SampleReadsSweepRay(data: MArray, nrays: nat, ngates: nat, startRay: nat, r: nat, g: nat)
    requires IsMatrix(data.rows, nrays, ngates) && g < ngates && startRay + r < nrays
    ensures Sample(data, startRay, ngates, ngates * r + g) == Ok(Filled(data.rows[startRay + r][g]))
  {
    assert ngates * startRay + (ngates * r + g) == ngates * (startRay + r) + g;
    ConcatAt(data.rows, nrays, ngates, startRay + r, g);
  }

  /**
   * As written, gate g of ray r of any sweep is read from ray r of the
   * volume, that is from the first sweep's rays.
   */
  lemma SampleAsWrittenReadsFirstRays(data: MArray, nrays: nat, ngates: nat, r: nat, g: nat)
    requires IsMatrix(data.rows, nrays, ngates) && g < ngates && r < nrays
    ensures SampleAsWritten(data, ngates * r + g) == Ok(Filled(data.rows[r][g]))
  {
    ConcatAt(data.rows, nrays, ngates, r, g);
  }

  /**
   * Two rays of one gate each, the second sweep starting at ray 1: the
   * gate nearest to a point of the second sweep has index 0 in that
   * sweep, and the code as written returns the first sweep's value.
   */
  lemma SweepIndexDiscrepancy()
    ensures var data := MArray([[Gate(1.0, true)], [Gate(2.0, true)]], 0.0);
      SampleAsWritten(data, 0) == Ok(Some(1.0)) && Sample(data, 1, 1, 0) == Ok(Some(2.0))
  {
    var data := MArray([[Gate(1.0, true)], [Gate(2.0, true)]], 0.0);
    assert Concat(data.rows) == [Gate(1.0, true), Gate(2.0, true)] by {
      assert data.rows[..1] == [[Gate(1.0, true)]];
      assert data.rows[..1][..0] == [];
    }
  }

  // ---------------------------------------------------------------
  // One point, one sweep, one volume
  // ---------------------------------------------------------------

  /** What a point contributes to a sweep: the site of its nearest gate and each field's value there. */
  datatype PointValues = PointValues(site: Site, values: map<string, Option<real>>)

  /**
   * The body of `for pxy in points`: numpy's `argmin` of an empty sweep
   * raises ValueError; a value index past the volume raises IndexError.
   */
  function SamplePoint(fill: map<string, MArray>, fields: seq<string>, sw: Sweep, ngates: nat, p: Point)
    : (r: Result<PointValues>)
    requires forall f :: f in fields ==> f in fill
    ensures |sw.sites| == 0 ==> r == Fail(ValueError)
    ensures r.Fail? && |sw.sites| > 0 ==> r.err == IndexError
    ensures r.Ok? ==> |sw.sites| > 0 && r.value.site == sw.sites[Nearest(sw.sites, p)]
    ensures r.Ok? ==> r.value.values.Keys == set f | f in fields
    ensures |sw.sites| > 0 ==>
      (r.Ok? <==> forall f :: f in fields ==> Sample(fill[f], sw.startRay, ngates, Nearest(sw.sites, p)).Ok?)
    ensures r.Ok? ==> forall f :: f in fields ==>
      Sample(fill[f], sw.startRay, ngates, Nearest(sw.sites, p)) == Ok(r.value.values[f])
  {
    if |sw.sites| == 0 then Fail(ValueError)
    else
      var ix := Nearest(sw.sites, p);
      if forall f :: f in fields ==> Sample(fill[f], sw.startRay, ngates, ix).Ok? then
        Ok(PointValues(sw.sites[ix], map f | f in fields :: Sample(fill[f], sw.startRay, ngates, ix).value))
      else Fail(IndexError)
  }

  /** One sweep's lists: the sites of the points' gates and, per field, their values. */
  datatype SweepRow = SweepRow(sites: seq<Site>, values: map<string, seq<Option<real>>>)

  /** The loop over the points of one sweep (`p_lon`, `p_lat`, `p_alt`, `p_fields`). */
  function PointsRow(fill: map<string, MArray>, fields: seq<string>, sw: Sweep, ngates: nat, pts: seq<Point>)
    : (r: Result<SweepRow>)
    requires forall f :: f in fields ==> f in fill
    ensures r.Ok? ==> |r.value.sites| == |pts| && r.value.values.Keys == set f | f in fields
    decreases |pts|
  {
    if pts == [] then Ok(SweepRow([], NoValues(fields)))
    else
      match PointsRow(fill, fields, sw, ngates, pts[..|pts| - 1])
      case Fail(e) => Fail(e)
      case Ok(row) =>
        match SamplePoint(fill, fields, sw, ngates, pts[|pts| - 1])
        case Fail(e) => Fail(e)
        case Ok(s) => Ok(SweepRow(row.sites + [s.site], AppendEach(row.values, fields, s.values)))
  }

  /** Once the loop over the first k points raises, the loop over all of them raises the same. */
  lemma {:induction false} PointsRowFailStays(fill: map<string, MArray>, fields: seq<string>, sw: Sweep, ngates: nat,
                                              pts: seq<Point>, k: nat)
    requires forall f :: f in fields ==> f in fill
    requires k <= |pts| && PointsRow(fill, fields, sw, ngates, pts[..k]).Fail?
    ensures PointsRow(fill, fields, sw, ngates, pts) == PointsRow(fill, fields, sw, ngates, pts[..k])
    decreases |pts| - k
  {
    if k < |pts| {
      var init := pts[..|pts| - 1];
      assert init[..k] == pts[..k];
      PointsRowFailStays(fill, fields, sw, ngates, init, k);
    } else {
      assert pts[..k] == pts;
    }
  }

  /**
   * The row holds, for the i-th point, the site of its nearest gate and,
   * when every field is listed once, each field's value there.
   */
  lemma {:induction false} PointsRowAt(fill: map<string, MArray>, fields: seq<string>, sw: Sweep, ngates: nat,
                                       pts: seq<Point>, i: nat)
    requires forall f :: f in fields ==> f in fill
    requires PointsRow(fill, fields, sw, ngates, pts).Ok? && i < |pts|
    ensures SamplePoint(fill, fields, sw, ngates, pts[i]).Ok?
    ensures PointsRow(fill, fields, sw, ngates, pts).value.sites[i] == SamplePoint(fill, fields, sw, ngates, pts[i]).value.site
    ensures NoDuplicates(fields) ==> forall f :: f in fields ==>
      |PointsRow(fill, fields, sw, ngates, pts).value.values[f]| == |pts| &&
      PointsRow(fill, fields, sw, ngates, pts).value.values[f][i] == SamplePoint(fill, fields, sw, ngates, pts[i]).value.values[f]
    decreases |pts|
  {
    var init := pts[..|pts| - 1];
    var row := PointsRow(fill, fields, sw, ngates, init).value;
    var s := SamplePoint(fill, fields, sw, ngates, pts[|pts| - 1]).value;
    if NoDuplicates(fields) {
      AppendEachDistinct(row.values, fields, s.values);
      PointsRowLengths(fill, fields, sw, ngates, init);
    }
    if i < |pts| - 1 {
      PointsRowAt(fill, fields, sw, ngates, init, i);
      assert init[i] == pts[i];
    }
  }

  /** With every field listed once, each field's list has one value per point. */
  lemma {:induction false} PointsRowLengths(fill: map<string, MArray>, fields: seq<string>, sw: Sweep, ngates: nat,
                                            pts: seq<Point>)
    requires forall f :: f in fields ==> f in fill
    requires PointsRow(fill, fields, sw, ngates, pts).Ok? && NoDuplicates(fields)
    ensures forall f :: f in fields ==> |PointsRow(fill, fields, sw, ngates, pts).value.values[f]| == |pts|
    decreases |pts|
  {
    if pts != [] {
      var init := pts[..|pts| - 1];
      var row := PointsRow(fill, fields, sw, ngates, init).value;
      var s := SamplePoint(fill, fields, sw, ngates, pts[|pts| - 1]).value;
      PointsRowLengths(fill, fields, sw, ngates, init);
      AppendEachDistinct(row.values, fields, s.values);
    }
  }

  /** The lists of one volume: per sweep, the sites and each field's values. */
  datatype Slab = Slab(sites: seq<seq<Site>>, values: map<string, seq<seq<Option<real>>>>)

  /**
   * The loop over the sweeps (`s_lon`, `s_lat`, `s_alt`, `s_fields`): a
   * sweep index outside the volume raises IndexError in `get_slice`.
   */
  function SweepsSlab(v: PolarVolume, fill: map<string, MArray>, fields: seq<string>, sw: seq<int>,
                      pts: seq<Point>): (r: Result<Slab>)
    requires forall f :: f in fields ==> f in fill
    ensures r.Ok? ==> |r.value.sites| == |sw| && r.value.values.Keys == set f | f in fields
    decreases |sw|
  {
    if sw == [] then Ok(Slab([], NoValues(fields)))
    else
      match SweepsSlab(v, fill, fields, sw[..|sw| - 1], pts)
      case Fail(e) => Fail(e)
      case Ok(s) =>
        match PyIndex(sw[|sw| - 1], |v.sweeps|)
        case None => Fail(IndexError)
        case Some(ix) =>
          match PointsRow(fill, fields, v.sweeps[ix], v.ngates, pts)
          case Fail(e) => Fail(e)
          case Ok(row) => Ok(Slab(s.sites + [row.sites], AppendEach(s.values, fields, row.values)))
  }

  /** Once the loop over the first k sweeps raises, the loop over all of them raises the same. */
  lemma {:induction false} SweepsSlabFailStays(v: PolarVolume, fill: map<string, MArray>, fields: seq<string>,
                                               sw: seq<int>, pts: seq<Point>, k: nat)
    requires forall f :: f in fields ==> f in fill
    requires k <= |sw| && SweepsSlab(v, fill, fields, sw[..k], pts).Fail?
    ensures SweepsSlab(v, fill, fields, sw, pts) == SweepsSlab(v, fill, fields, sw[..k], pts)
    decreases |sw| - k
  {
    if k < |sw| {
      var init := sw[..|sw| - 1];
      assert init[..k] == sw[..k];
      SweepsSlabFailStays(v, fill, fields, init, pts, k);
    } else {
      assert sw[..k] == sw;
    }
  }

  /** Sweep e of the slab holds the row of the sweep that `sweeps[e]` names, for every point. */
  lemma {:induction false} SweepsSlabAt(v: PolarVolume, fill: map<string, MArray>, fields: seq<string>, sw: seq<int>,
                                        pts: seq<Point>, e: nat)
    requires forall f :: f in fields ==> f in fill
    requires SweepsSlab(v, fill, fields, sw, pts).Ok? && e < |sw|
    ensures PyIndex(sw[e], |v.sweeps|).Some?
    ensures var row := PointsRow(fill, fields, v.sweeps[PyIndex(sw[e], |v.sweeps|).value], v.ngates, pts);
      row.Ok? && SweepsSlab(v, fill, fields, sw, pts).value.sites[e] == row.value.sites
    decreases |sw|
  {
    if e < |sw| - 1 {
      SweepsSlabAt(v, fill, fields, sw[..|sw| - 1], pts, e);
      assert sw[..|sw| - 1][e] == sw[e];
    }
  }

  // ---------------------------------------------------------------
  // One time
  // ---------------------------------------------------------------

  /** What one time appends: the scan time and the volume's slab. */
  datatype Dated = Dated(date: string, slab: Slab)

  /**
   * One pass of the time loop on the volume found (None: nothing is
   * appended): the planned fields are read, conditioned with the current
   * settings, and sampled; the settings the conditioning leaves are those
   * of the next time.
   */
  function TimeSpec(e: Engines, read: seq<string>, sw: seq<int>, pts: seq<Point>, found: Option<PolarVolume>,
                    st: CappiSettings): (r: Result<Stepped<CappiSettings, Dated>>)
    ensures found.None? ==> r == Ok(Stepped(None, st))
    ensures r.Ok? ==> (r.value.out.Some? <==> found.Some?)
    ensures r.Ok? ==> (r.value.after.fields == st.fields && r.value.after.cappi == st.cappi &&
      r.value.after.applyCmd == st.applyCmd && r.value.after.dbzFields == st.dbzFields &&
      r.value.after.filterFields == st.filterFields)
    ensures r.Ok? && r.value.out.Some? ==>
      r.value.out.value.date == found.value.date && |r.value.out.value.slab.sites| == |sw| &&
      r.value.out.value.slab.values.Keys == set f | f in st.fields
  {
    if found.None? then Ok(Stepped(None, st))
    else
      var v := found.value;
      match ConditionedRead(e, read, v.file, st)
      case Fail(err) => Fail(err)
      case Ok(x) =>
        match FillFields(x.fields, st.fields)
        case Fail(err) => Fail(err)
        case Ok(fill) =>
          match SweepsSlab(v, fill, st.fields, sw, pts)
          case Fail(err) => Fail(err)
          case Ok(s) => Ok(Stepped(Some(Dated(v.date, s)), x.settings))
  }

  /** `TimeSpec` as a step of the batch loop. */
  function TimeCall(e: Engines, read: seq<string>, sw: seq<int>, pts: seq<Point>)
    : (Option<PolarVolume>, CappiSettings) -> Result<Stepped<CappiSettings, Dated>>
  {
    (found: Option<PolarVolume>, st: CappiSettings) => TimeSpec(e, read, sw, pts, found, st)
  }

  /** A time gives a slab exactly when a volume was found. */
  lemma TimeCallProductIffFile(e: Engines, read: seq<string>, sw: seq<int>, pts: seq<Point>)
    ensures ProductIffFile(TimeCall(e, read, sw, pts))
  {
  }

  // ---------------------------------------------------------------
  // The whole extraction
  // ---------------------------------------------------------------

  /**
   * The returned dictionary: `coords`, `elevation_angle`, `date`, the
   * gate sites (the `longitude`, `latitude` and `altitude` lists) and,
   * per field, the values, each as date × sweep × point.
   */
  datatype PolarExtraction = PolarExtraction(coords: seq<Point>, elevationAngle: seq<real>, date: seq<string>,
                                             sites: seq<seq<seq<Site>>>,
                                             data: map<string, seq<seq<seq<Option<real>>>>>)

  /** The output after the slabs `ds` were appended, in order. */
  function Assemble(pts: seq<Point>, angles: seq<real>, fields: seq<string>, ds: seq<Dated>): (r: PolarExtraction)
    ensures r.coords == pts && r.elevationAngle == angles
    ensures |r.date| == |ds| && |r.sites| == |ds| && r.data.Keys == set f | f in fields
    decreases |ds|
  {
    if ds == [] then PolarExtraction(pts, angles, [], [], NoValues(fields))
    else
      var a := Assemble(pts, angles, fields, ds[..|ds| - 1]);
      var d := ds[|ds| - 1];
      a.(date := a.date + [d.date], sites := a.sites + [d.slab.sites], data := AppendEach(a.data, fields, d.slab.values))
  }

  /** Appending what one time kept extends the dates, the sites and each field's list by its slab, if any. */
  lemma AssembleKept(pts: seq<Point>, angles: seq<real>, fields: seq<string>, ds: seq<Dated>, o: Option<Dated>)
    ensures var a := Assemble(pts, angles, fields, ds);
      Assemble(pts, angles, fields, ds + Kept(o)) ==
      if o.None? then a
      else a.(date := a.date + [o.value.date], sites := a.sites + [o.value.slab.sites],
              data := AppendEach(a.data, fields, o.value.slab.values))
  {
    if o.None? {
      assert ds + Kept(o) == ds;
    } else {
      assert (ds + Kept(o))[..|ds|] == ds;
    }
  }

  /**
   * Entry k of every output list comes from the k-th slab appended; with
   * every field listed once, so does each field's entry k.
   */
  lemma {:induction false} AssembleAt(pts: seq<Point>, angles: seq<real>, fields: seq<string>, ds: seq<Dated>, k: nat)
    requires k < |ds|
    requires forall j :: 0 <= j < |ds| ==> ds[j].slab.values.Keys == set f | f in fields
    ensures var r := Assemble(pts, angles, fields, ds);
      r.date[k] == ds[k].date && r.sites[k] == ds[k].slab.sites
    ensures var r := Assemble(pts, angles, fields, ds);
      NoDuplicates(fields) ==> forall f :: f in fields ==> |r.data[f]| == |ds| && r.data[f][k] == ds[k].slab.values[f]
    decreases |ds|
  {
    var init := ds[..|ds| - 1];
    var a := Assemble(pts, angles, fields, init);
    if NoDuplicates(fields) {
      AppendEachDistinct(a.data, fields, ds[|ds| - 1].slab.values);
      AssembleLengths(pts, angles, fields, init);
    }
    if k < |ds| - 1 {
      AssembleAt(pts, angles, fields, init, k);
    }
  }

  /** With every field listed once, each field's list has one entry per slab. */
  lemma {:induction false} AssembleLengths(pts: seq<Point>, angles: seq<real>, fields: seq<string>, ds: seq<Dated>)
    requires NoDuplicates(fields)
    requires forall j :: 0 <= j < |ds| ==> ds[j].slab.values.Keys == set f | f in fields
    ensures forall f :: f in fields ==> |Assemble(pts, angles, fields, ds).data[f]| == |ds|
    decreases |ds|
  {
    if ds != [] {
      var init := ds[..|ds| - 1];
      AssembleLengths(pts, angles, fields, init);
      AppendEachDistinct(Assemble(pts, angles, fields, init).data, fields, ds[|ds| - 1].slab.values);
    }
  }

  /**
   * What follows the first volume, on settings `st`: the read list is
   * planned and one slab appended per time with a volume, each time
   * conditioned with the settings the previous time left.
   */
  function ExtractFrom(e: Engines, lookup: int -> Option<PolarVolume>, times: seq<int>, st: CappiSettings,
                       pts: seq<Point>, sw: seq<int>, angles: seq<real>): (r: Result<PolarExtraction>)
    ensures r.Ok? ==> |r.value.date| == WithFile(lookup, times) && |r.value.sites| == WithFile(lookup, times)
    ensures r.Ok? ==> (r.value.coords == pts && r.value.elevationAngle == angles &&
      r.value.data.Keys == set f | f in st.fields)
  {
    match ExtractFieldsRead(st)
    case Fail(err) => Fail(err)
    case Ok(read) =>
      match Run(TimeCall(e, read, sw, pts), lookup, times, st)
      case Fail(err) => Fail(err)
      case Ok(ds) =>
        TimeCallProductIffFile(e, read, sw, pts);
        RunCount(TimeCall(e, read, sw, pts), lookup, times, st);
        Ok(Assemble(pts, angles, st.fields, ds))
  }

  /**
   * `extract_polar_data` on settings `st`: `{}` (None) when no time has a
   * volume; otherwise the sweeps are normalised on the first volume and
   * its angles looked up before the time loop.
   */
  function ExtractPolarSpec(e: Engines, lookup: int -> Option<PolarVolume>, times: seq<int>, st: CappiSettings,
                            pts: seq<Point>, sweeps: IndexArg): (r: Result<Option<PolarExtraction>>)
    ensures (forall t :: t in times ==> lookup(t).None?) <==> r == Ok(None)
    ensures r.Ok? && r.value.Some? ==>
      |r.value.value.date| == WithFile(lookup, times) && |r.value.value.sites| == WithFile(lookup, times) &&
      r.value.value.coords == pts && r.value.value.data.Keys == set f | f in st.fields
  {
    match FirstFound(lookup, times)
    case None => Ok(None)
    case Some(v0) =>
      var sw := AllOrListed(sweeps, |v0.sweeps|);
      match ElevationAngles(v0, sw)
      case Fail(err) => Fail(err)
      case Ok(angles) =>
        match ExtractFrom(e, lookup, times, st, pts, sw, angles)
        case Fail(err) => Fail(err)
        case Ok(x) => Ok(Some(x))
  }

  /** A slab over the sweeps `sw` holding exactly the fields `fields`. */
  function SlabShaped(sw: seq<int>, fields: seq<string>): Dated -> bool
  {
    (d: Dated) => |d.slab.sites| == |sw| && d.slab.values.Keys == set f | f in fields
  }

  /** Every time keeps the requested fields and gives a slab over the sweeps holding exactly those fields. */
  lemma TimeCallShaped(e: Engines, read: seq<string>, sw: seq<int>, pts: seq<Point>, fields: seq<string>)
    ensures ProductsSatisfy(TimeCall(e, read, sw, pts), SameFields(fields), SlabShaped(sw, fields))
  {
  }

  /**
   * The output's date k, sites and values are those of the k-th volume
   * found, as sampled by its call of the loop: one entry per time with a
   * volume, in time order.
   */
  lemma ExtractFromAt(e: Engines, lookup: int -> Option<PolarVolume>, times: seq<int>, st: CappiSettings,
                      pts: seq<Point>, sw: seq<int>, angles: seq<real>, k: nat)
    requires ExtractFrom(e, lookup, times, st, pts, sw, angles).Ok?
    requires k < |ExtractFrom(e, lookup, times, st, pts, sw, angles).value.date|
    ensures var x := ExtractFrom(e, lookup, times, st, pts, sw, angles).value;
      var ds := Run(TimeCall(e, ExtractFieldsRead(st).value, sw, pts), lookup, times, st).value;
      k < |ds| && x.date[k] == ds[k].date && x.sites[k] == ds[k].slab.sites
    ensures var x := ExtractFrom(e, lookup, times, st, pts, sw, angles).value;
      var ds := Run(TimeCall(e, ExtractFieldsRead(st).value, sw, pts), lookup, times, st).value;
      NoDuplicates(st.fields) ==> forall f :: f in st.fields ==>
        f in ds[k].slab.values && k < |x.data[f]| && x.data[f][k] == ds[k].slab.values[f]
  {
    var read := ExtractFieldsRead(st).value;
    TimeCallShaped(e, read, sw, pts, st.fields);
    RunProductsSatisfy(TimeCall(e, read, sw, pts), SameFields(st.fields), SlabShaped(sw, st.fields), lookup, times, st);
    var ds := Run(TimeCall(e, read, sw, pts), lookup, times, st).value;
    assert ExtractFrom(e, lookup, times, st, pts, sw, angles).value == Assemble(pts, angles, st.fields, ds);
    forall j | 0 <= j < |ds|
      ensures ds[j].slab.values.Keys == set f | f in st.fields
    {
      assert SlabShaped(sw, st.fields)(ds[j]);
    }
    AssembleAt(pts, angles, st.fields, ds, k);
  }

  // ---------------------------------------------------------------
  // The loops
  // ---------------------------------------------------------------

  /** `for pxy in points` of one sweep. */
  method SweepPoints(fill: map<string, MArray>, fields: seq<string>, sw: Sweep, ngates: nat, pts: seq<Point>)
    returns (r: Result<SweepRow>)
    requires forall f :: f in fields ==> f in fill
    ensures r == PointsRow(fill, fields, sw, ngates, pts)
  {
    var sites: seq<Site> := [];
    var values := NoValues(fields);
    var i := 0;
    while i < |pts|
      invariant 0 <= i <= |pts|
      invariant PointsRow(fill, fields, sw, ngates, pts[..i]) == Ok(SweepRow(sites, values))
    {
      assert pts[..i + 1][..i] == pts[..i];
      var s := SamplePoint(fill, fields, sw, ngates, pts[i]);
      if s.Fail? {
        PointsRowFailStays(fill, fields, sw, ngates, pts, i + 1);
        return Fail(s.err);
      }
      sites := sites + [s.value.site];
      values := AppendEach(values, fields, s.value.values);
      i := i + 1;
    }
    assert pts[..|pts|] == pts;
    return Ok(SweepRow(sites, values));
  }

  /** `for swp in sweeps` of one volume. */
  method VolumeSweeps(v: PolarVolume, fill: map<string, MArray>, fields: seq<string>, sw: seq<int>, pts: seq<Point>)
    returns (r: Result<Slab>)
    requires forall f :: f in fields ==> f in fill
    ensures r == SweepsSlab(v, fill, fields, sw, pts)
  {
    var sites: seq<seq<Site>> := [];
    var values := NoValues(fields);
    var i := 0;
    while i < |sw|
      invariant 0 <= i <= |sw|
      invariant SweepsSlab(v, fill, fields, sw[..i], pts) == Ok(Slab(sites, values))
    {
      assert sw[..i + 1][..i] == sw[..i];
      var ix := PyIndex(sw[i], |v.sweeps|);
      if ix.None? {
        SweepsSlabFailStays(v, fill, fields, sw, pts, i + 1);
        return Fail(IndexError);
      }
      var row := SweepPoints(fill, fields, v.sweeps[ix.value], v.ngates, pts);
      if row.Fail? {
        SweepsSlabFailStays(v, fill, fields, sw, pts, i + 1);
        return Fail(row.err);
      }
      sites := sites + [row.value.sites];
      values := AppendEach(values, fields, row.value.values);
      i := i + 1;
    }
    assert sw[..|sw|] == sw;
    return Ok(Slab(sites, values));
  }

  /** One pass of the time loop on the request's settings objects. */
  method ExtractTime(e: Engines, read: seq<string>, sw: seq<int>, pts: seq<Point>, found: Option<PolarVolume>,
                     req: CappiRequest) returns (r: Result<Option<Dated>>)
    requires CappiData.Separate(req)
    modifies ParsRef(req.pia), ParsRef(req.filter)
    ensures var spec := TimeSpec(e, read, sw, pts, found, old(CappiData.SettingsOf(req)));
      (r.Fail? <==> spec.Fail?) && (r.Fail? ==> r.err == spec.err) &&
      (r.Ok? ==> r.value == spec.value.out && CappiData.SettingsOf(req) == spec.value.after)
  {
    if found.None? {
      return Ok(None);
    }
    var v := found.value;
    var conditioned := ConditionFile(e, read, v.file, req);
    if conditioned.Fail? {
      return Fail(conditioned.err);
    }
    var fill := FillFields(conditioned.value, req.fields);
    if fill.Fail? {
      return Fail(fill.err);
    }
    var slab := VolumeSweeps(v, fill.value, req.fields, sw, pts);
    if slab.Fail? {
      return Fail(slab.err);
    }
    return Ok(Some(Dated(v.date, slab.value)));
  }

  /** What `ExtractTime` returned and left, as the outcome of the step `TimeCall`. */
  lemma TimeCallIs(e: Engines, read: seq<string>, sw: seq<int>, pts: seq<Point>, found: Option<PolarVolume>,
                   st: CappiSettings, r: Result<Option<Dated>>, after: CappiSettings)
    requires var spec := TimeSpec(e, read, sw, pts, found, st);
      (r.Fail? <==> spec.Fail?) && (r.Fail? ==> r.err == spec.err) &&
      (r.Ok? ==> r.value == spec.value.out && after == spec.value.after)
    ensures r.Fail? ==> TimeCall(e, read, sw, pts)(found, st) == Fail(r.err)
    ensures r.Ok? ==> TimeCall(e, read, sw, pts)(found, st) == Ok(Stepped(r.value, after))
  {
  }

  /**
   * The time loop of `extract_polar_data` on the request's settings
   * objects: the output lists grow by one entry per time with a volume.
   */
  method ExtractTimes(e: Engines, lookup: int -> Option<PolarVolume>, times: seq<int>, read: seq<string>, sw: seq<int>,
                      pts: seq<Point>, angles: seq<real>, req: CappiRequest) returns (r: Result<PolarExtraction>)
    requires CappiData.Separate(req)
    modifies ParsRef(req.pia), ParsRef(req.filter)
    ensures var run := Run(TimeCall(e, read, sw, pts), lookup, times, old(CappiData.SettingsOf(req)));
      (r.Fail? <==> run.Fail?) && (r.Fail? ==> r.err == run.err) &&
      (r.Ok? ==> r.value == Assemble(pts, angles, req.fields, run.value))
  {
    ghost var step := TimeCall(e, read, sw, pts);
    ghost var st0 := CappiData.SettingsOf(req);
    var dates: seq<string> := [];
    var sites: seq<seq<seq<Site>>> := [];
    var data := NoValues(req.fields);
    ghost var written: seq<Dated> := [];
    var i := 0;
    assert times[0..] == times;
    while i < |times|
      invariant 0 <= i <= |times|
      invariant CappiData.Separate(req)
      invariant Run(step, lookup, times, st0) == Then(written, Run(step, lookup, times[i..], CappiData.SettingsOf(req)))
      invariant Assemble(pts, angles, req.fields, written) == PolarExtraction(pts, angles, dates, sites, data)
    {
      ghost var cur := CappiData.SettingsOf(req);
      var d := ExtractTime(e, read, sw, pts, lookup(times[i]), req);
      TimeCallIs(e, read, sw, pts, lookup(times[i]), cur, d, CappiData.SettingsOf(req));
      if d.Fail? {
        RunStops(step, lookup, times, i, written, cur, d.err);
        return Fail(d.err);
      }
      RunAdvance(step, lookup, times, i, written, cur, d.value, CappiData.SettingsOf(req));
      AssembleKept(pts, angles, req.fields, written, d.value);
      written := written + Kept(d.value);
      if d.value.Some? {
        var x := d.value.value;
        dates := dates + [x.date];
        sites := sites + [x.slab.sites];
        data := AppendEach(data, req.fields, x.slab.values);
      }
      i := i + 1;
    }
    RunDone(step, lookup, times, written, CappiData.SettingsOf(req));
    return Ok(PolarExtraction(pts, angles, dates, sites, data));
  }

  /** What follows the first volume, on the request's settings objects. */
  method ExtractAfterFirst(e: Engines, lookup: int -> Option<PolarVolume>, times: seq<int>, pts: seq<Point>,
                           sw: seq<int>, angles: seq<real>, req: CappiRequest) returns (r: Result<PolarExtraction>)
    requires CappiData.Separate(req)
    modifies ParsRef(req.pia), ParsRef(req.filter)
    ensures r == ExtractFrom(e, lookup, times, old(CappiData.SettingsOf(req)), pts, sw, angles)
  {
    var st := CappiData.SettingsOf(req);
    var read := ExtractFieldsRead(st);
    if read.Fail? {
      return Fail(read.err);
    }
    r := ExtractTimes(e, lookup, times, read.value, sw, pts, angles, req);
  }

  /**
   * `extract_polar_data(dirMDV, source, start_time, end_time, fields,
   * points, sweeps, pia, dbz_fields, filter, filter_fields, apply_cmd)`
   * for the times `times`: the result is `ExtractPolarSpec` on the
   * settings the caller passed.
   */
  method ExtractPolarData(e: Engines, lookup: int -> Option<PolarVolume>, times: seq<int>, fields: NameArg,
                          pts: seq<Point>, sweeps: IndexArg, pia: MethodPars?, dbzFields: Option<seq<string>>,
                          filter: MethodPars?, filterFields: Option<seq<string>>, applyCmd: bool)
    returns (r: Result<Option<PolarExtraction>>)
    requires Apart(pia, filter)
    modifies ParsRef(pia), ParsRef(filter)
    ensures r == ExtractPolarSpec(e, lookup, times,
                                  old(ExtractSettings(AsList(fields), ViewOf(pia), ViewOf(filter), applyCmd, dbzFields,
                                                      filterFields)), pts, sweeps)
  {
    var radar0 := FindFirst(lookup, times);
    if radar0.None? {
      return Ok(None);
    }
    var v0 := radar0.value;
    var sw := AllOrListed(sweeps, |v0.sweeps|);
    var angles := ElevationAngles(v0, sw);
    if angles.Fail? {
      return Fail(angles.err);
    }
    var x := ExtractWith(e, lookup, times, fields, pts, sw, angles.value, pia, dbzFields, filter, filterFields, applyCmd);
    r := if x.Fail? then Fail(x.err) else Ok(Some(x.value));
  }

  /** The time loop of `extract_polar_data` on the caller's settings, once the sweeps and angles are known. */
  method ExtractWith(e: Engines, lookup: int -> Option<PolarVolume>, times: seq<int>, fields: NameArg,
                     pts: seq<Point>, sw: seq<int>, angles: seq<real>, pia: MethodPars?, dbzFields: Option<seq<string>>,
                     filter: MethodPars?, filterFields: Option<seq<string>>, applyCmd: bool)
    returns (x: Result<PolarExtraction>)
    requires Apart(pia, filter)
    modifies ParsRef(pia), ParsRef(filter)
    ensures x == ExtractFrom(e, lookup, times, old(ExtractSettings(AsList(fields), ViewOf(pia), ViewOf(filter), applyCmd,
                                                               dbzFields, filterFields)), pts, sw, angles)
  {
    ghost var st0 := ExtractSettings(AsList(fields), ViewOf(pia), ViewOf(filter), applyCmd, dbzFields, filterFields);
    var noCappi := new MethodPars("", null);
    var req := CappiRequest(AsList(fields), noCappi, pia, filter, applyCmd, dbzFields, filterFields);
    assert CappiData.SettingsOf(req) == st0;
    x := ExtractAfterFirst(e, lookup, times, pts, sw, angles, req);
  }

  /**
   * `extractRadarPolar`: the caller's PIA and filter settings are
   * defaulted in place, then `extract_polar_data` runs on the date folders
   * themselves (`source=None`) for the times from `start` to `end`.
   */
  method ExtractRadarPolar(e: Engines, lookup: int -> Option<PolarVolume>, start: int, end: int, fields: NameArg,
                           pts: seq<Point>, sweeps: IndexArg, pia: MethodPars?, dbzFields: Option<seq<string>>,
                           filter: MethodPars?, filterFields: Option<seq<string>>, applyCmd: bool)
    returns (r: Result<Option<PolarExtraction>>)
    requires pia != null ==> pia != filter
    modifies pia, filter
    ensures r == ExtractPolarSpec(e, lookup, Times(start, end),
                                  ExtractSettings(AsList(fields), DefaultedPia(old(ViewOf(pia))),
                                                  DefaultedFilter(old(ViewOf(filter))), applyCmd, dbzFields,
                                                  filterFields), pts, sweeps)
  {
    DefaultConditioning(pia, filter);
    r := ExtractPolarData(e, lookup, Times(start, end), fields, pts, sweeps, pia, dbzFields, filter, filterFields,
                          applyCmd);
  }
}
