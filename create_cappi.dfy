/**
 * `create_cappi_grid(radar, fields, cappi, param_cappi)` of
 * qpe/create_cappi.py: the grid request each CAPPI method makes of the
 * gridding engine, the altitude levels of the composite methods, the
 * choice of the vertical reducer, and the `data` dictionary filled field
 * by field.  The gridding itself (pyart) and the reducers (numpy) are
 * parameters; the longitude/latitude vectors are not modelled.
 */
module CreateCappi {
  import opened Wrappers
  import opened PyBase
  import opened Gates
  import opened Radars

  /** `grid_shape`, `z_lim` and `constant_roi` of a gridding request. */
  datatype GridSpec = GridSpec(nz: nat, ny: nat, nx: nat, zLo: real, zHi: real, roi: real)

  /** The reducers over the altitude axis: `np.amax`, `np.nanmean`, `np.nanmedian`. */
  datatype Reducer = AltMaximum | AltAverage | AltMedian

  /** A CAPPI field: the gridded levels as returned, or one plane reduced over the levels. */
  datatype CappiField = Levels(levels: seq<MArray>) | Plane(plane: MArray)

  /** The external numerics: the gridding of the radar fields and the reducers. */
  datatype Gridder = Gridder(grid: (map<string, Field>, seq<string>, GridSpec) -> map<string, seq<MArray>>,
                             reduce: (Reducer, seq<MArray>) -> MArray)

  /** `param_cappi`: a number (the altitude, in km) or a dictionary. */
  datatype CappiParam = Alt(v: Value) | Pars(m: map<string, Value>)

  /** The request of `one_altitude` and of `ppi_ranges`: one level at `alt` km, radius of influence 3000 m. */
  function SingleLevelSpec(alt: real): (g: GridSpec)
    ensures g.nz == 1 && g.ny == 800 && g.nx == 800 && g.zLo == g.zHi == alt * 1000.0 && g.roi == 3000.0
  {
    GridSpec(1, 800, 800, alt * 1000.0, alt * 1000.0, 3000.0)
  }

  /** The composite levels: from `min_alt` km upwards by 500 m, strictly below `max_alt` km. */
  function CompositeLevels(minAlt: real, maxAlt: real): (lev: seq<real>)
    ensures forall k :: 0 <= k < |lev| ==> lev[k] == minAlt * 1000.0 + (k as real) * 500.0 && lev[k] < maxAlt * 1000.0
    ensures minAlt * 1000.0 + (|lev| as real) * 500.0 >= maxAlt * 1000.0
    ensures |lev| > 0 <==> minAlt < maxAlt
  {
    ARange(minAlt * 1000.0, maxAlt * 1000.0, 500.0)
  }

  /** The composite request: one level per altitude, from the first to the last, radius 1500 m. */
  function CompositeSpec(lev: seq<real>): (g: GridSpec)
    requires |lev| > 0
    ensures g.nz == |lev| && g.ny == 800 && g.nx == 800 && g.zLo == lev[0] && g.zHi == lev[|lev| - 1] && g.roi == 1500.0
  {
    GridSpec(|lev|, 800, 800, lev[0], lev[|lev| - 1], 1500.0)
  }

  /** The reducer a composite method name selects; any other name leaves `foo` unbound. */
  function ReducerOf(cappi: string): (r: Option<Reducer>)
    ensures r == Some(AltMaximum) <==> cappi == "alt_maximum"
    ensures r == Some(AltAverage) <==> cappi == "alt_average"
    ensures r == Some(AltMedian) <==> cappi == "alt_median"
  {
    if cappi == "alt_maximum" then Some(AltMaximum)
    else if cappi == "alt_average" then Some(AltAverage)
    else if cappi == "alt_median" then Some(AltMedian)
    else None
  }

  /** The CAPPI of a request: the gridding request made and the `data` dictionary. */
  datatype Cappi = Cappi(spec: GridSpec, data: map<string, CappiField>)

  /** `param_cappi * 1000.`: a dictionary, a string or None cannot be multiplied. */
  function AltOf(p: CappiParam): (r: Result<real>)
    ensures p.Pars? ==> r == Fail(TypeError)
    ensures p.Alt? ==> r == AsReal(p.v)
  {
    match p
    case Alt(v) => AsReal(v)
    case Pars(_) => Fail(TypeError)
  }

  /** `param_cappi['min_alt']` and `param_cappi['max_alt']`, as numbers. */
  function AltRange(p: CappiParam): (r: Result<(real, real)>)
    ensures p.Alt? ==> r == Fail(TypeError)
    ensures r.Ok? ==>
      p.Pars? && "min_alt" in p.m && "max_alt" in p.m &&
      AsReal(p.m["min_alt"]) == Ok(r.value.0) && AsReal(p.m["max_alt"]) == Ok(r.value.1)
  {
    match p
    case Alt(_) => Fail(TypeError)
    case Pars(m) =>
      if "min_alt" !in m then Fail(KeyError("min_alt"))
      else if "max_alt" !in m then Fail(KeyError("max_alt"))
      else match (AsReal(m["min_alt"]), AsReal(m["max_alt"]))
           case (Ok(lo), Ok(hi)) => Ok((lo, hi))
           case (Fail(e), _) => Fail(e)
           case (_, Fail(e)) => Fail(e)
  }

  /** One gridded field: all levels, or the levels reduced to one plane. */
  function Reduced(levels: seq<MArray>, reduce: Option<Reducer>, g: Gridder): CappiField
  {
    if reduce.None? then Levels(levels) else Plane(g.reduce(reduce.value, levels))
  }

  /** `data[field] = grid.fields[field]['data']` (reduced or not) for every requested field, in order. */
  function FillData(grid: map<string, seq<MArray>>, fields: seq<string>, reduce: Option<Reducer>,
                    g: Gridder): Result<map<string, CappiField>>
    decreases |fields|
  {
    if fields == [] then Ok(map[])
    else
      var f := fields[|fields| - 1];
      match FillData(grid, fields[..|fields| - 1], reduce, g)
      case Fail(e) => Fail(e)
      case Ok(d) =>
        if f !in grid then Fail(KeyError(f))
        else Ok(d[f := Reduced(grid[f], reduce, g)])
  }

  /** A successful fill has exactly the requested fields, each gridded and reduced as chosen. */
  lemma {:induction false} FillDataContents(grid: map<string, seq<MArray>>, fields: seq<string>,
                                            reduce: Option<Reducer>, g: Gridder)
    ensures FillData(grid, fields, reduce, g).Ok? ==>
      FillData(grid, fields, reduce, g).value.Keys == set f | f in fields
    ensures FillData(grid, fields, reduce, g).Ok? ==>
      forall f :: f in fields ==>
        f in grid && FillData(grid, fields, reduce, g).value[f] == Reduced(grid[f], reduce, g)
    decreases |fields|
  {
    if fields != [] {
      var init := fields[..|fields| - 1];
      FillDataContents(grid, init, reduce, g);
      assert fields == init + [fields[|fields| - 1]];
    }
  }

  /**
   * `create_cappi_grid` as written: `ppi_ranges` and `one_altitude` make
   * the same single-level request; every other method reaches
   * `np.arange`, and `np` is never imported in that file.
   */
  function CreateCappiGridAsWritten(g: Gridder, fields: map<string, Field>, names: seq<string>, cappi: string,
                                    p: CappiParam): (r: Result<Cappi>)
    ensures cappi !in {"ppi_ranges", "one_altitude"} ==> r == Fail(NameError("np"))
    ensures r.Ok? ==> r.value.data.Keys == set f | f in names
  {
    if cappi == "ppi_ranges" || cappi == "one_altitude" then
      match AltOf(p)
      case Fail(e) => Fail(e)
      case Ok(alt) =>
        var spec := SingleLevelSpec(alt);
        FillDataContents(g.grid(fields, names, spec), names, None, g);
        match FillData(g.grid(fields, names, spec), names, None, g)
        case Fail(e) => Fail(e)
        case Ok(d) => Ok(Cappi(spec, d))
    else Fail(NameError("np"))
  }

  /**
   * The reducer the corrected code applies: by method name for the
   * `alt_*` methods, and for `composite_altitude` the one its `fun`
   * parameter names (`"maximum"`, `"average"`, `"median"`, the same
   * suffixes as the `alt_*` names).
   */
  function IntendedReducer(cappi: string, p: CappiParam): (r: Option<Reducer>)
    ensures cappi != "composite_altitude" ==> r == ReducerOf(cappi)
    ensures cappi == "composite_altitude" ==>
      (r.Some? <==> p.Pars? && "fun" in p.m && p.m["fun"] in {VStr("maximum"), VStr("average"), VStr("median")})
    ensures cappi == "composite_altitude" && r.Some? ==>
      (r.value == AltMaximum <==> p.m["fun"] == VStr("maximum")) &&
      (r.value == AltAverage <==> p.m["fun"] == VStr("average")) &&
      (r.value == AltMedian <==> p.m["fun"] == VStr("median"))
  {
    if cappi != "composite_altitude" then ReducerOf(cappi)
    else if !(p.Pars? && "fun" in p.m) then None
    else if p.m["fun"] == VStr("maximum") then Some(AltMaximum)
    else if p.m["fun"] == VStr("average") then Some(AltAverage)
    else if p.m["fun"] == VStr("median") then Some(AltMedian)
    else None
  }

  /**
   * The composite branch for a given reducer choice: the levels of
   * `CompositeLevels` (IndexError on `lev[0]` when there is none), then
   * every field reduced over them; without a reducer the loop raises
   * UnboundLocalError on `foo`, unless there is no field to fill.
   */
  function CompositeGrid(g: Gridder, fields: map<string, Field>, names: seq<string>, p: CappiParam,
                         reduce: Option<Reducer>): (r: Result<Cappi>)
    ensures r.Ok? ==> r.value.data.Keys == set f | f in names
    ensures r.Ok? ==>
      AltRange(p).Ok? && AltRange(p).value.0 < AltRange(p).value.1 &&
      r.value.spec == CompositeSpec(CompositeLevels(AltRange(p).value.0, AltRange(p).value.1)) &&
      (names != [] ==>
        reduce.Some? &&
        forall f :: f in names ==>
          f in g.grid(fields, names, r.value.spec) &&
          r.value.data[f] == Plane(g.reduce(reduce.value, g.grid(fields, names, r.value.spec)[f])))
    ensures names != [] && reduce.None? ==> r.Fail?
  {
    match AltRange(p)
    case Fail(e) => Fail(e)
    case Ok((lo, hi)) =>
      var lev := CompositeLevels(lo, hi);
      if |lev| == 0 then Fail(IndexError)
      else
        var spec := CompositeSpec(lev);
        if names != [] && reduce.None? then Fail(UnboundLocalError("foo"))
        else
          FillDataContents(g.grid(fields, names, spec), names, if names == [] then None else reduce, g);
          match FillData(g.grid(fields, names, spec), names, if names == [] then None else reduce, g)
          case Fail(e) => Fail(e)
          case Ok(d) => Ok(Cappi(spec, d))
  }

  /**
   * `create_cappi_grid` once `np` is imported, still choosing the reducer
   * by method name only.
   */
  function CreateCappiGridNamed(g: Gridder, fields: map<string, Field>, names: seq<string>, cappi: string,
                                p: CappiParam): (r: Result<Cappi>)
    ensures cappi in {"ppi_ranges", "one_altitude"} ==> r == CreateCappiGridAsWritten(g, fields, names, cappi, p)
    ensures cappi !in {"ppi_ranges", "one_altitude"} ==> r == CompositeGrid(g, fields, names, p, ReducerOf(cappi))
  {
    if cappi == "ppi_ranges" || cappi == "one_altitude" then CreateCappiGridAsWritten(g, fields, names, cappi, p)
    else CompositeGrid(g, fields, names, p, ReducerOf(cappi))
  }

  /**
   * `create_cappi_grid` as evidently intended: `np` imported, and the
   * `composite_altitude` method the api/ layer passes reduced with the
   * function its `fun` parameter names.
   */
  function CreateCappiGrid(g: Gridder, fields: map<string, Field>, names: seq<string>, cappi: string,
                           p: CappiParam): (r: Result<Cappi>)
    ensures cappi in {"ppi_ranges", "one_altitude"} ==> r == CreateCappiGridAsWritten(g, fields, names, cappi, p)
    ensures cappi != "composite_altitude" ==> r == CreateCappiGridNamed(g, fields, names, cappi, p)
    ensures r.Ok? ==> r.value.data.Keys == set f | f in names
    ensures cappi !in {"ppi_ranges", "one_altitude"} ==> r == CompositeGrid(g, fields, names, p, IntendedReducer(cappi, p))
  {
    if cappi == "ppi_ranges" || cappi == "one_altitude" then CreateCappiGridAsWritten(g, fields, names, cappi, p)
    else CompositeGrid(g, fields, names, p, IntendedReducer(cappi, p))
  }

  /** `ppi_ranges` is gridded exactly like `one_altitude`: there is no range-dependent blending. */
  lemma PpiRangesIsOneAltitude(g: Gridder, fields: map<string, Field>, names: seq<string>, p: CappiParam)
    ensures CreateCappiGrid(g, fields, names, "ppi_ranges", p) == CreateCappiGrid(g, fields, names, "one_altitude", p)
  {
  }

  /** The composite branch of the code as written never produces a CAPPI. */
  lemma CompositeBranchRaises(g: Gridder, fields: map<string, Field>, names: seq<string>, p: CappiParam)
    ensures CreateCappiGridAsWritten(g, fields, names, "alt_maximum", p) == Fail(NameError("np"))
    ensures CreateCappiGridAsWritten(g, fields, names, "composite_altitude", p) == Fail(NameError("np"))
  {
  }

  /**
   * The `composite_altitude` method the api/ layer passes has no reducer
   * by name: even with `np` imported, the code fails as soon as a field
   * is to be filled, while the intended choice grids the default
   * `{fun: "maximum", min_alt: 1.7, max_alt: 15}` as a maximum composite.
   */
  lemma CompositeAltitudeHasNoReducer(g: Gridder, fields: map<string, Field>, names: seq<string>)
    requires names != []
    ensures var p := Pars(map["fun" := VStr("maximum"), "min_alt" := VReal(1.7), "max_alt" := VInt(15)]);
      CreateCappiGridNamed(g, fields, names, "composite_altitude", p) == Fail(UnboundLocalError("foo")) &&
      IntendedReducer("composite_altitude", p) == Some(AltMaximum)
  {
    var p := Pars(map["fun" := VStr("maximum"), "min_alt" := VReal(1.7), "max_alt" := VInt(15)]);
    assert AltRange(p) == Ok((1.7, 15.0));
    assert CompositeLevels(1.7, 15.0)[0] == 1700.0;
  }

  /** The `data` loop of `create_cappi_grid`, on the grid the engine returned. */
  method FillDataLoop(grid: map<string, seq<MArray>>, names: seq<string>, reduce: Option<Reducer>, g: Gridder)
    returns (r: Result<map<string, CappiField>>)
    ensures r == FillData(grid, names, reduce, g)
  {
    var data: map<string, CappiField> := map[];
    var i := 0;
    while i < |names| && names[i] in grid
      invariant 0 <= i <= |names|
      invariant FillData(grid, names[..i], reduce, g) == Ok(data)
    {
      FillDataStep(grid, names, i, reduce, g);
      data := data[names[i] := Reduced(grid[names[i]], reduce, g)];
      i := i + 1;
    }
    if i < |names| {
      FillDataFirstMissing(grid, names, i, reduce, g);
      return Fail(KeyError(names[i]));
    }
    assert names[..i] == names;
    return Ok(data);
  }

  /** The fill fails exactly when the grid lacks one of the requested fields. */
  lemma {:induction false} FillDataFailsIffMissing(grid: map<string, seq<MArray>>, fields: seq<string>,
                                                   reduce: Option<Reducer>, g: Gridder)
    ensures FillData(grid, fields, reduce, g).Fail? <==> exists f :: f in fields && f !in grid
    decreases |fields|
  {
    if fields != [] {
      var init := fields[..|fields| - 1];
      FillDataFailsIffMissing(grid, init, reduce, g);
      assert fields == init + [fields[|fields| - 1]];
    }
  }

  /** One more present field extends the filled dictionary by that field. */
  lemma FillDataStep(grid: map<string, seq<MArray>>, names: seq<string>, i: nat, reduce: Option<Reducer>, g: Gridder)
    requires i < |names| && names[i] in grid && FillData(grid, names[..i], reduce, g).Ok?
    ensures FillData(grid, names[..i + 1], reduce, g) ==
      Ok(FillData(grid, names[..i], reduce, g).value[names[i] := Reduced(grid[names[i]], reduce, g)])
  {
    assert names[..i + 1][..i] == names[..i];
  }

  /** The fill fails with the first requested name the grid lacks. */
  lemma {:induction false} FillDataFirstMissing(grid: map<string, seq<MArray>>, names: seq<string>, m: nat,
                                               reduce: Option<Reducer>, g: Gridder)
    requires m < |names| && names[m] !in grid
    requires FillData(grid, names[..m], reduce, g).Ok?
    ensures FillData(grid, names, reduce, g) == Fail(KeyError(names[m]))
    decreases |names|
  {
    var init := names[..|names| - 1];
    if m < |names| - 1 {
      assert init[..m] == names[..m];
      FillDataFirstMissing(grid, init, m, reduce, g);
    } else {
      assert init == names[..m];
    }
  }

  /**
   * `create_cappi_grid(radar, fields, cappi, param_cappi)` (with `np`
   * imported): the gridding request, then the fill loop.
   */
  method CreateCappiGridMethod(g: Gridder, radar: Radar, names: seq<string>, cappi: string, p: CappiParam)
    returns (r: Result<Cappi>)
    ensures r == CreateCappiGrid(g, radar.fields, names, cappi, p)
  {
    var spec: GridSpec;
    var reduce: Option<Reducer> := None;
    if cappi == "ppi_ranges" || cappi == "one_altitude" {
      var alt := AltOf(p);
      if alt.Fail? {
        return Fail(alt.err);
      }
      spec := SingleLevelSpec(alt.value);
    } else {
      var range := AltRange(p);
      if range.Fail? {
        return Fail(range.err);
      }
      var lev := CompositeLevels(range.value.0, range.value.1);
      if |lev| == 0 {
        return Fail(IndexError);
      }
      spec := CompositeSpec(lev);
      if names != [] {
        reduce := IntendedReducer(cappi, p);
        if reduce.None? {
          return Fail(UnboundLocalError("foo"));
        }
      }
    }
    var grid := g.grid(radar.fields, names, spec);
    var d := FillDataLoop(grid, names, reduce, g);
    if d.Fail? {
      return Fail(d.err);
    }
    r := Ok(Cappi(spec, d.value));
  }
}
