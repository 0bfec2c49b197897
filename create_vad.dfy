/**
 * `createVAD` and `vadTable` of api/create_vad_loc.py: a velocity azimuth
 * display (VAD) wind profile for each five-minute time, and the profiles
 * flattened to one row per height.
 *
 * The volume of a time (None when there is none) is a parameter
 * (`lookup`), and so is pyart's `velocity_azimuth_display` with the time
 * formatting of `create_vad_data` (`VadEngine`).
 */
module CreateVad {
  import opened Wrappers
  import opened PyBase
  import opened PolarReaders
  import opened Cadence

  /** The dictionary `create_vad_data` returns for a time with a volume. */
  datatype VadProfile = VadProfile(time: string, height: seq<real>, speed: seq<real>, direction: seq<real>,
                                   uWind: seq<real>, vWind: seq<real>)

  /** `velocity_azimuth_display(radar, vel_field, z_want)` on a volume, with its time formatted. */
  type VadEngine = (MdvFile, string, seq<real>) -> VadProfile

  // ---------------------------------------------------------------
  // createVAD
  // ---------------------------------------------------------------

  /**
   * `z_want`: `np.arange(heights[0], heights[1], heights[2])`, with
   * `[0, 10000, 100]` when no heights are given; a list shorter than three
   * raises IndexError.
   */
  function VadHeights(heights: Option<seq<real>>): (r: Result<seq<real>>)
    ensures heights.Some? && |heights.value| < 3 ==> r == Fail(IndexError)
    ensures heights.Some? && |heights.value| >= 3 ==>
      r == ARangeAnyStep(heights.value[0], heights.value[1], heights.value[2])
    ensures heights.None? ==> r == ARangeAnyStep(0.0, 10000.0, 100.0)
  {
    var h := if heights.None? then [0.0, 10000.0, 100.0] else heights.value;
    if |h| < 3 then Fail(IndexError) else ARangeAnyStep(h[0], h[1], h[2])
  }

  /** By default the heights are 0, 100, ..., 9900 m: the end, 10000 m, is not included. */
  lemma DefaultVadHeights()
    ensures VadHeights(None).Ok? && |VadHeights(None).value| == 100
    ensures forall k :: 0 <= k < 100 ==> VadHeights(None).value[k] == (k as real) * 100.0
    ensures 10000.0 !in VadHeights(None).value
  {
    var r := VadHeights(None).value;
    var n := |r|;
    assert (n as real) * 100.0 >= 10000.0;
    assert n > 0;
    assert r[n - 1] == ((n - 1) as real) * 100.0 < 10000.0;
  }

  /** `create_vad_data(dirMdvDate, None, time, z_want, vel_field)`: `{}` (None) when no volume was found. */
  function VadAt(engine: VadEngine, found: Option<MdvFile>, velField: string, z: seq<real>): (r: Option<VadProfile>)
    ensures r.None? <==> found.None?
  {
    if found.None? then None else Some(engine(found.value, velField, z))
  }

  /**
   * `createVAD` for the times from `start` to `end`: one entry per time,
   * `{}` (None) for a time without a volume, in time order.
   */
  function CreateVadSpec(engine: VadEngine, lookup: int -> Option<MdvFile>, start: int, end: int,
                         heights: Option<seq<real>>, velField: string): (r: Result<seq<Option<VadProfile>>>)
    ensures r.Fail? <==> VadHeights(heights).Fail?
    ensures r.Ok? ==> |r.value| == |Times(start, end)|
    ensures r.Ok? ==> forall k :: 0 <= k < |r.value| ==> (r.value[k].None? <==> lookup(Times(start, end)[k]).None?)
  {
    match VadHeights(heights)
    case Fail(err) => Fail(err)
    case Ok(z) =>
      var times := Times(start, end);
      Ok(seq(|times|, k requires 0 <= k < |times| => VadAt(engine, lookup(times[k]), velField, z)))
  }

  /** `createVAD(dirMdvDate, start_time, end_time, heights, vel_field)`. */
  method CreateVAD(engine: VadEngine, lookup: int -> Option<MdvFile>, start: int, end: int, heights: Option<seq<real>>,
                   velField: string) returns (r: Result<seq<Option<VadProfile>>>)
    ensures r == CreateVadSpec(engine, lookup, start, end, heights, velField)
  {
    var times := Times(start, end);
    var z := VadHeights(heights);
    if z.Fail? {
      return Fail(z.err);
    }
    var out: seq<Option<VadProfile>> := [];
    var i := 0;
    while i < |times|
      invariant 0 <= i <= |times|
      invariant |out| == i
      invariant forall k :: 0 <= k < i ==> out[k] == VadAt(engine, lookup(times[k]), velField, z.value)
    {
      var vad := VadAt(engine, lookup(times[i]), velField, z.value);
      out := out + [vad];
      i := i + 1;
    }
    assert out == seq(|times|, k requires 0 <= k < |times| => VadAt(engine, lookup(times[k]), velField, z.value));
    return Ok(out);
  }

  // ---------------------------------------------------------------
  // vadTable
  // ---------------------------------------------------------------

  /** One row of `vadTable`. */
  datatype VadRow = VadRow(time: string, height: real, speed: real, direction: real, uWind: real, vWind: real)

  /** Row j of a profile: IndexError when one of its lists is shorter than `height`. */
  function RowAt(p: VadProfile, j: nat): (r: Result<VadRow>)
    requires j < |p.height|
    ensures r.Ok? <==> j < |p.speed| && j < |p.direction| && j < |p.uWind| && j < |p.vWind|
    ensures r.Fail? ==> r.err == IndexError
    ensures r.Ok? ==> (r.value.time == p.time && r.value.height == p.height[j] && r.value.speed == p.speed[j] &&
      r.value.direction == p.direction[j] && r.value.uWind == p.uWind[j] && r.value.vWind == p.vWind[j])
  {
    if j < |p.speed| && j < |p.direction| && j < |p.uWind| && j < |p.vWind| then
      Ok(VadRow(p.time, p.height[j], p.speed[j], p.direction[j], p.uWind[j], p.vWind[j]))
    else Fail(IndexError)
  }

  /** The rows of one profile, one per height, in order. */
  function ProfileRows(p: VadProfile, n: nat): (r: Result<seq<VadRow>>)
    requires n <= |p.height|
    ensures r.Ok? <==> forall j :: 0 <= j < n ==> RowAt(p, j).Ok?
    ensures r.Ok? ==> |r.value| == n && forall j :: 0 <= j < n ==> r.value[j] == RowAt(p, j).value
    ensures r.Fail? ==> r.err == IndexError
  {
    if n == 0 then Ok([])
    else
      match ProfileRows(p, n - 1)
      case Fail(err) => Fail(err)
      case Ok(rows) =>
        match RowAt(p, n - 1)
        case Fail(err) => Fail(err)
        case Ok(row) => Ok(rows + [row])
  }

  /**
   * `vadTable(vad)` as written: every entry is read as a profile, so an
   * entry `{}` of a time without a volume raises KeyError on `"height"`.
   */
  function VadRowsAsWritten(vad: seq<Option<VadProfile>>): (r: Result<seq<VadRow>>)
    ensures vad == [] ==> r == Ok([])
    decreases |vad|
  {
    if vad == [] then Ok([])
    else
      match VadRowsAsWritten(vad[..|vad| - 1])
      case Fail(err) => Fail(err)
      case Ok(rows) =>
        match vad[|vad| - 1]
        case None => Fail(KeyError("height"))
        case Some(p) =>
          match ProfileRows(p, |p.height|)
          case Fail(err) => Fail(err)
          case Ok(more) => Ok(rows + more)
  }

  /** The number of heights of the profiles of `vad`; an entry `{}` has none. */
  function TotalHeights(vad: seq<Option<VadProfile>>): nat
    decreases |vad|
  {
    if vad == [] then 0
    else TotalHeights(vad[..|vad| - 1]) + (if vad[|vad| - 1].Some? then |vad[|vad| - 1].value.height| else 0)
  }

  /**
   * `vadTable` as evidently intended: the profiles flattened in order,
   * one row per height, the entries `{}` of times without a volume
   * skipped.
   */
  function VadRows(vad: seq<Option<VadProfile>>): (r: Result<seq<VadRow>>)
    ensures r.Ok? ==> |r.value| == TotalHeights(vad)
    ensures r.Fail? ==> r.err == IndexError
    decreases |vad|
  {
    if vad == [] then Ok([])
    else
      match VadRows(vad[..|vad| - 1])
      case Fail(err) => Fail(err)
      case Ok(rows) =>
        match vad[|vad| - 1]
        case None => Ok(rows)
        case Some(p) =>
          match ProfileRows(p, |p.height|)
          case Fail(err) => Fail(err)
          case Ok(more) => Ok(rows + more)
  }

  /** Row `TotalHeights(vad) + j` of a table with one more profile `p` is row j of `p`. */
  lemma VadRowsLast(vad: seq<Option<VadProfile>>, p: VadProfile, j: nat)
    requires VadRows(vad + [Some(p)]).Ok? && j < |p.height|
    ensures VadRows(vad).Ok? && RowAt(p, j).Ok?
    ensures var rows := VadRows(vad + [Some(p)]).value;
      TotalHeights(vad) + j < |rows| && rows[TotalHeights(vad) + j] == RowAt(p, j).value
  {
    assert (vad + [Some(p)])[..|vad|] == vad;
  }

  /** Without entries `{}` the table as written is the intended one. */
  lemma {:induction false} VadRowsAsWrittenAllPresent(vad: seq<Option<VadProfile>>)
    requires forall k :: 0 <= k < |vad| ==> vad[k].Some?
    ensures VadRowsAsWritten(vad) == VadRows(vad)
    decreases |vad|
  {
    if vad != [] {
      VadRowsAsWrittenAllPresent(vad[..|vad| - 1]);
    }
  }

  /**
   * `vadTable(createVAD(...))` as written fails as soon as one time in the
   * range has no volume, where the intended table skips that time.
   */
  lemma VadTableMissingTime(p: VadProfile)
    requires |p.height| == |p.speed| == |p.direction| == |p.uWind| == |p.vWind|
    ensures VadRowsAsWritten([None, Some(p)]) == Fail(KeyError("height"))
    ensures VadRows([None, Some(p)]).Ok? && |VadRows([None, Some(p)]).value| == |p.height|
  {
    assert [None, Some(p)][..1] == [None];
    assert [None, Some(p)][..1][..0] == [];
    assert ProfileRows(p, |p.height|).Ok?;
    assert VadRows([None]) == Ok([]) && TotalHeights([None]) == 0;
  }

  /**
   * `vadTable(vad)` as the source writes it: the nested loops append one
   * row per height of each entry in turn.
   */
  method VadTable(vad: seq<Option<VadProfile>>) returns (r: Result<seq<VadRow>>)
    ensures r == VadRowsAsWritten(vad)
  {
    var tab: seq<VadRow> := [];
    var i := 0;
    assert vad[..0] == [];
    while i < |vad|
      invariant 0 <= i <= |vad|
      invariant VadRowsAsWritten(vad[..i]) == Ok(tab)
    {
      assert vad[..i + 1][..i] == vad[..i];
      if vad[i].None? {
        VadRowsAsWrittenFailStays(vad, i + 1);
        return Fail(KeyError("height"));
      }
      var p := vad[i].value;
      var j := 0;
      ghost var tab0 := tab;
      assert tab[|tab0|..] == [] && tab[..|tab0|] == tab0;
      while j < |p.height|
        invariant 0 <= j <= |p.height|
        invariant VadRowsAsWritten(vad[..i]) == Ok(tab0)
        invariant |tab0| <= |tab| && ProfileRows(p, j) == Ok(tab[|tab0|..]) && tab[..|tab0|] == tab0
      {
        if !(j < |p.speed| && j < |p.direction| && j < |p.uWind| && j < |p.vWind|) {
          ProfileRowsFailStays(p, j + 1, |p.height|);
          VadRowsAsWrittenFailStays(vad, i + 1);
          return Fail(IndexError);
        }
        var x := VadRow(p.time, p.height[j], p.speed[j], p.direction[j], p.uWind[j], p.vWind[j]);
        assert (tab + [x])[|tab0|..] == tab[|tab0|..] + [x];
        assert (tab + [x])[..|tab0|] == tab0;
        tab := tab + [x];
        j := j + 1;
      }
      assert tab == tab0 + tab[|tab0|..];
      i := i + 1;
    }
    assert vad[..|vad|] == vad;
    return Ok(tab);
  }

  /** Once the rows of a prefix of heights fail, so do those of every longer prefix. */
  lemma {:induction false} ProfileRowsFailStays(p: VadProfile, n: nat, m: nat)
    requires n <= m <= |p.height| && ProfileRows(p, n).Fail?
    ensures ProfileRows(p, m) == Fail(IndexError)
    decreases m - n
  {
    if n < m {
      ProfileRowsFailStays(p, n + 1, m);
    }
  }

  /** Once the table of a prefix of entries fails, so does the table of the whole list, with that error. */
  lemma {:induction false} VadRowsAsWrittenFailStays(vad: seq<Option<VadProfile>>, n: nat)
    requires n <= |vad| && VadRowsAsWritten(vad[..n]).Fail?
    ensures VadRowsAsWritten(vad) == VadRowsAsWritten(vad[..n])
    decreases |vad| - n
  {
    if n < |vad| {
      assert vad[..n + 1][..n] == vad[..n];
      VadRowsAsWrittenFailStays(vad, n + 1);
    } else {
      assert vad[..n] == vad;
    }
  }
}
