/**
 * What the three extractors of the api/ layer (`extract_polar_data`,
 * `extract_grid_data`, `extract_polar_vertical`) share: the search for
 * the first time with a file, numpy's indexing of an axis, the per-field
 * output lists that grow one entry per time, and the reshaping of the
 * vectors the R extraction routines return.
 */
module ExtractCommon {
  import opened Wrappers
  import opened PyBase
  import opened Utilities
  import opened Gates
  import opened Radars

  /** One entry of `points`: `{"id": ..., "longitude": ..., "latitude": ...}`. */
  datatype Point = Point(id: string, lon: real, lat: real)

  // ---------------------------------------------------------------
  // The first time with a file
  // ---------------------------------------------------------------

  /** The position in `times` of the first time with a file; `|times|` when no time has one. */
  function FirstFoundAt<F>(lookup: int -> Option<F>, times: seq<int>): (k: nat)
    ensures k <= |times|
    ensures forall j :: 0 <= j < k ==> lookup(times[j]).None?
    ensures k < |times| ==> lookup(times[k]).Some?
    decreases |times|
  {
    if times == [] then 0
    else if lookup(times[0]).Some? then 0
    else 1 + FirstFoundAt(lookup, times[1..])
  }

  /** `radar0` (or `grid0`) after the search loop: the file of the first time that has one. */
  function FirstFound<F>(lookup: int -> Option<F>, times: seq<int>): (r: Option<F>)
    ensures r.None? <==> forall t :: t in times ==> lookup(t).None?
    ensures r.Some? ==> r == lookup(times[FirstFoundAt(lookup, times)])
  {
    var k := FirstFoundAt(lookup, times);
    if k < |times| then
      var t0 := times[k];
      assert t0 in times && lookup(t0).Some?;
      lookup(t0)
    else
      assert forall t :: t in times ==> exists j :: 0 <= j < |times| && times[j] == t;
      None
  }

  /** `for time in seqTime: x0 = read(time); if x0 is not None: break`. */
  method FindFirst<F>(lookup: int -> Option<F>, times: seq<int>) returns (found: Option<F>)
    ensures found == FirstFound(lookup, times)
  {
    found := None;
    var i := 0;
    while i < |times|
      invariant 0 <= i <= |times|
      invariant forall j :: 0 <= j < i ==> lookup(times[j]).None?
      invariant found.None?
    {
      found := lookup(times[i]);
      if found.Some? {
        assert FirstFoundAt(lookup, times) == i;
        return;
      }
      i := i + 1;
    }
    assert FirstFoundAt(lookup, times) == |times|;
  }

  // ---------------------------------------------------------------
  // Axis indexing
  // ---------------------------------------------------------------

  /**
   * numpy's index `k` into an axis of length `n`: a negative index counts
   * from the end, and an index outside `-n .. n-1` raises IndexError.
   */
  function PyIndex(k: int, n: nat): (r: Option<nat>)
    ensures r.Some? <==> -(n as int) <= k < n
    ensures r.Some? ==> r.value < n
    ensures 0 <= k < n ==> r == Some(k)
    ensures -(n as int) <= k < 0 ==> r == Some(k + n)
  {
    if 0 <= k < n then Some(k) else if -(n as int) <= k < 0 then Some(k + n) else None
  }

  /** The `sweeps` and `levels` arguments: one integer or a list of them. */
  datatype IndexArg = OneIndex(k: int) | IndexList(ks: seq<int>)

  /** `-1` stands for every index of an axis of length `n`; another integer is a one-element list. */
  function AllOrListed(a: IndexArg, n: nat): (r: seq<int>)
    ensures a == OneIndex(-1) ==> |r| == n && forall i :: 0 <= i < |r| ==> r[i] == i
    ensures a.OneIndex? && a.k != -1 ==> r == [a.k]
    ensures a.IndexList? ==> r == a.ks
  {
    match a
    case OneIndex(k) => if k == -1 then seq(n, i requires 0 <= i < n => i) else [k]
    case IndexList(ks) => ks
  }

  /** `[f for f in fields if f in keys]`. */
  function KeepPresent(fields: seq<string>, keys: set<string>): (r: seq<string>)
    ensures forall f :: f in r <==> f in fields && f in keys
    ensures |r| <= |fields|
    ensures (forall f :: f in fields ==> f in keys) ==> r == fields
  {
    if fields == [] then []
    else (if fields[0] in keys then [fields[0]] else []) + KeepPresent(fields[1..], keys)
  }

  /** A filtered list keeps the order of the names it keeps. */
  lemma {:induction false} KeepPresentIsPrefixWhenAllKept(fields: seq<string>, keys: set<string>, n: nat)
    requires n <= |fields| && forall i :: 0 <= i < n ==> fields[i] in keys
    ensures fields[..n] <= KeepPresent(fields, keys)
    decreases n
  {
    if n > 0 {
      KeepPresentIsPrefixWhenAllKept(fields[1..], keys, n - 1);
      assert fields[..n] == [fields[0]] + fields[1..][..n - 1];
    }
  }

  /** Filtering a list of distinct names leaves distinct names. */
  lemma {:induction false} KeepPresentNoDuplicates(fields: seq<string>, keys: set<string>)
    requires NoDuplicates(fields)
    ensures NoDuplicates(KeepPresent(fields, keys))
    decreases |fields|
  {
    if fields != [] {
      assert NoDuplicates(fields[1..]);
      KeepPresentNoDuplicates(fields[1..], keys);
      var rest := KeepPresent(fields[1..], keys);
      assert fields[0] !in fields[1..];
      assert fields[0] !in rest;
    }
  }

  // ---------------------------------------------------------------
  // Per-field output lists
  // ---------------------------------------------------------------

  /** `for field in fields: d[field] = list()`. */
  function NoValues<X>(names: seq<string>): (r: map<string, seq<X>>)
    ensures r.Keys == set f | f in names
    ensures forall f :: f in r ==> r[f] == []
  {
    map f | f in names :: []
  }

  /**
   * `for field in fields: d[field] = d[field] + [v[field]]`: a name listed
   * twice is appended twice.
   */
  function AppendEach<X>(m: map<string, seq<X>>, names: seq<string>, v: map<string, X>): (r: map<string, seq<X>>)
    ensures r.Keys == m.Keys
    ensures forall f :: f in m && f !in names ==> r[f] == m[f]
    decreases |names|
  {
    if names == [] then m
    else
      var f := names[0];
      var m1 := if f in m && f in v then m[f := m[f] + [v[f]]] else m;
      AppendEach(m1, names[1..], v)
  }

  /** With every name listed once, each listed list grows by exactly its value. */
  lemma {:induction false} AppendEachDistinct<X>(m: map<string, seq<X>>, names: seq<string>, v: map<string, X>)
    requires NoDuplicates(names)
    requires forall f :: f in names ==> f in m && f in v
    ensures forall f :: f in names ==> AppendEach(m, names, v)[f] == m[f] + [v[f]]
    decreases |names|
  {
    if names != [] {
      var f := names[0];
      var m1 := m[f := m[f] + [v[f]]];
      assert NoDuplicates(names[1..]);
      assert forall g :: g in names[1..] ==> g in names;
      AppendEachDistinct(m1, names[1..], v);
      assert f !in names[1..];
    }
  }

  // ---------------------------------------------------------------
  // The R extraction result of one field
  // ---------------------------------------------------------------

  /** `masked_invalid(...).filled(-9999)` for one value; None stands for NaN or an infinite value. */
  function Filled9999(o: Option<real>): real
  {
    if o.Some? then o.value else -9999.0
  }

  /**
   * `rFloatVector_to_npmDarray(out[field], (npt, nlev)).transpose()`,
   * masked where invalid and filled with -9999: one row per level, one
   * column per point.
   */
  function LevelsByPoints(vec: seq<Option<real>>, npt: nat, nlev: nat): (r: Result<seq<seq<real>>>)
    ensures r.Ok? <==> |vec| == npt * nlev
    ensures r.Fail? ==> r.err == ValueError
    ensures r.Ok? ==> IsMatrix(r.value, nlev, npt)
  {
    match FromRVector(vec, npt, nlev)
    case Fail(e) => Fail(e)
    case Ok(a) =>
      var t := Transpose(a, npt, nlev);
      Ok(seq(nlev, j requires 0 <= j < nlev => seq(npt, i requires 0 <= i < npt => Filled9999(t[j][i]))))
  }

  /**
   * Level `j` at point `i` is entry `npt * j + i` of R's vector: the
   * values of one level are consecutive, and an invalid value becomes
   * -9999.
   */
  lemma LevelsByPointsAt(vec: seq<Option<real>>, npt: nat, nlev: nat, j: nat, i: nat)
    requires |vec| == npt * nlev && j < nlev && i < npt
    ensures npt * j + i < |vec|
    ensures LevelsByPoints(vec, npt, nlev).value[j][i] == Filled9999(vec[npt * j + i])
    ensures vec[npt * j + i].None? ==> LevelsByPoints(vec, npt, nlev).value[j][i] == -9999.0
  {
    FromRVectorAt(vec, npt, nlev, i, j);
  }

  // ---------------------------------------------------------------
  // Field values
  // ---------------------------------------------------------------

  /** `filled(np.nan)` at one gate; None stands for NaN. */
  function Filled(g: Gate): Option<real>
  {
    if g.valid then Some(g.value) else None
  }

  /** `xdat.filled(np.nan).flatten()`: the values row after row. */
  function FlatFilled(a: MArray): (r: seq<Option<real>>)
    ensures |r| == |Concat(a.rows)|
    ensures forall i :: 0 <= i < |r| ==> r[i] == Filled(Concat(a.rows)[i])
  {
    var flat := Concat(a.rows);
    seq(|flat|, i requires 0 <= i < |flat| => Filled(flat[i]))
  }

  /**
   * `radar.fields[field]["data"]` for each requested field: a field the
   * radar lacks raises KeyError.
   */
  function FillFields(fields: map<string, Field>, names: seq<string>): (r: Result<map<string, MArray>>)
    ensures r.Ok? <==> forall f :: f in names ==> f in fields
    ensures r.Fail? ==> r.err.KeyError? && r.err.key in names && r.err.key !in fields
    ensures r.Ok? ==> r.value.Keys == set f | f in names
    ensures r.Ok? ==> forall f :: f in names ==> r.value[f] == fields[f].data
    decreases |names|
  {
    if names == [] then Ok(map[])
    else if names[0] !in fields then Fail(KeyError(names[0]))
    else
      match FillFields(fields, names[1..])
      case Fail(e) => Fail(e)
      case Ok(m) => Ok(m[names[0] := fields[names[0]].data])
  }

  /** `r_data`: each requested field's values, flattened, for the R extraction routine. */
  function RData(fill: map<string, MArray>): (r: map<string, seq<Option<real>>>)
    ensures r.Keys == fill.Keys
    ensures forall f :: f in fill ==> r[f] == FlatFilled(fill[f])
  {
    map f | f in fill :: FlatFilled(fill[f])
  }

  /**
   * The loop over the fields of the R result: each field's vector becomes
   * its level × point table; a field missing from the result raises
   * KeyError and a vector of the wrong length ValueError.
   */
  function Reshaped(out: map<string, seq<Option<real>>>, names: seq<string>, npt: nat, nlev: nat)
    : (r: Result<map<string, seq<seq<real>>>>)
    ensures r.Ok? <==> forall f :: f in names ==> f in out && |out[f]| == npt * nlev
    ensures r.Ok? ==> r.value.Keys == set f | f in names
    ensures r.Ok? ==> forall f :: f in names ==> Ok(r.value[f]) == LevelsByPoints(out[f], npt, nlev)
    ensures r.Fail? && names != [] && names[0] !in out ==> r.err == KeyError(names[0])
    ensures r.Fail? ==> r.err == ValueError || (r.err.KeyError? && r.err.key in names && r.err.key !in out)
    decreases |names|
  {
    if names == [] then Ok(map[])
    else if names[0] !in out then Fail(KeyError(names[0]))
    else
      match LevelsByPoints(out[names[0]], npt, nlev)
      case Fail(e) => Fail(e)
      case Ok(t) =>
        match Reshaped(out, names[1..], npt, nlev)
        case Fail(e) => Fail(e)
        case Ok(m) => Ok(m[names[0] := t])
  }
}
