/**
 * Echo tops (`mdv/echotops.py`).
 *
 * The echo top of a column of a Cartesian reflectivity volume is the
 * altitude of the highest level whose reflectivity reaches a threshold;
 * a column where no level reaches it is masked.  `compute_echo_tops`
 * builds one such field per threshold, named after the threshold.
 *
 * A volume is indexed [level][y][x]; masked cells of the output are
 * `None`.  Thresholds are whole numbers of millionths of a dBZ, the
 * precision at which `'%f'` prints them.
 */
module EchoTops {
  import opened Wrappers
  import opened PyBase

  /** A volume of levels, each `ny` rows of `nx` values. */
  predicate IsVolume(data: seq<seq<seq<real>>>, ny: nat, nx: nat)
  {
    forall k :: 0 <= k < |data| ==> |data[k]| == ny && forall j :: 0 <= j < ny ==> |data[k][j]| == nx
  }

  // ---------------------------------------------------------------
  // The level index array
  // ---------------------------------------------------------------

  /** Level `lev` of `arr_index`: its number where the value reaches `thres`. */
  method MarkLevel(a: array3<int>, data: seq<seq<seq<real>>>, ny: nat, nx: nat, lev: nat, thres: real)
    requires IsVolume(data, ny, nx) && lev < |data|
    requires a.Length0 == |data| && a.Length1 == ny && a.Length2 == nx
    modifies a
    ensures forall k, j, i :: 0 <= k < |data| && 0 <= j < ny && 0 <= i < nx ==>
      a[k, j, i] == if k == lev && data[lev][j][i] >= thres then lev else old(a[k, j, i])
  {
    for j := 0 to ny
      invariant forall k, y, x :: 0 <= k < |data| && 0 <= y < ny && 0 <= x < nx ==>
        a[k, y, x] == if k == lev && y < j && data[lev][y][x] >= thres then lev else old(a[k, y, x])
    {
      for i := 0 to nx
        invariant forall k, y, x :: 0 <= k < |data| && 0 <= y < ny && 0 <= x < nx ==>
          a[k, y, x] ==
            if k == lev && (y < j || (y == j && x < i)) && data[lev][y][x] >= thres then lev else old(a[k, y, x])
      {
        if data[lev][j][i] >= thres {
          a[lev, j, i] := lev;
        }
      }
    }
  }

  /** `arr_index`: -1 everywhere, then each level's number where its value reaches `thres`. */
  method LevelIndex(data: seq<seq<seq<real>>>, ny: nat, nx: nat, thres: real) returns (a: array3<int>)
    requires IsVolume(data, ny, nx)
    ensures fresh(a) && a.Length0 == |data| && a.Length1 == ny && a.Length2 == nx
    ensures forall k, j, i :: 0 <= k < |data| && 0 <= j < ny && 0 <= i < nx ==>
      a[k, j, i] == if data[k][j][i] >= thres then k else -1
  {
    a := new int[|data|, ny, nx]((k, j, i) => -1);
    for lev := 0 to |data|
      invariant forall k, j, i :: 0 <= k < |data| && 0 <= j < ny && 0 <= i < nx ==>
        a[k, j, i] == if k < lev && data[k][j][i] >= thres then k else -1
    {
      MarkLevel(a, data, ny, nx, lev, thres);
    }
  }

  /** Column (j, i) of `arr_index` masked where it holds -1. */
  function MaskedColumn(a: array3<int>, j: nat, i: nat): (col: seq<Option<int>>)
    requires j < a.Length1 && i < a.Length2
    reads a
    ensures |col| == a.Length0
  {
    seq(a.Length0, k requires 0 <= k < a.Length0 reads a => if a[k, j, i] == -1 then None else Some(a[k, j, i]))
  }

  /** The same column computed from the data: each level's number where it reaches `thres`. */
  function LevelColumn(data: seq<seq<seq<real>>>, ny: nat, nx: nat, j: nat, i: nat, thres: real): (col: seq<Option<int>>)
    requires IsVolume(data, ny, nx) && j < ny && i < nx
    ensures |col| == |data|
  {
    seq(|data|, k requires 0 <= k < |data| => if data[k][j][i] >= thres then Some(k) else None)
  }

  // ---------------------------------------------------------------
  // argmax, digitize and the highest level
  // ---------------------------------------------------------------

  /** Masked entries count below every value, as the masked `argmax` fills them with the smallest value. */
  predicate Above(x: Option<int>, y: Option<int>)
  {
    x.Some? && (y.None? || x.value > y.value)
  }

  /** `argmax` of a masked column: the first position of its largest entry. */
  function Argmax(col: seq<Option<int>>): (m: nat)
    requires |col| > 0
    ensures m < |col|
    ensures forall k :: 0 <= k < |col| ==> !Above(col[k], col[m])
    ensures forall k :: 0 <= k < m ==> Above(col[m], col[k])
  {
    if |col| == 1 then 0
    else
      var b := Argmax(col[..|col| - 1]);
      assert forall k :: 0 <= k < |col| - 1 ==> col[..|col| - 1][k] == col[k];
      if Above(col[|col| - 1], col[b]) then |col| - 1 else b
  }

  /** `np.logical_and.reduce` of the column's mask: every level masked. */
  predicate AllMasked(col: seq<Option<int>>)
  {
    forall k :: 0 <= k < |col| ==> col[k].None?
  }

  /** `np.digitize(x, bins, right=True)` for increasing bins: how many bins lie below `x`. */
  function Digitize(x: int, bins: seq<int>): (ix: nat)
    ensures ix <= |bins|
  {
    if |bins| == 0 then 0
    else Digitize(x, bins[..|bins| - 1]) + (if bins[|bins| - 1] < x then 1 else 0)
  }

  /** `list(range(n))`. */
  function Range(n: nat): (r: seq<int>)
    ensures |r| == n && forall k :: 0 <= k < n ==> r[k] == k
  {
    seq(n, k requires 0 <= k < n => k)
  }

  /** Digitizing a level number against the level numbers gives the level back; past the end, the count. */
  lemma {:induction false} DigitizeLevels(x: nat, n: nat)
    ensures Digitize(x, Range(n)) == if x < n then x else n
  {
    if n > 0 {
      assert Range(n)[..n - 1] == Range(n - 1);
      DigitizeLevels(x, n - 1);
    }
  }

  /** The highest level below `n` whose value in column (j, i) reaches `thres`. */
  function TopLevel(data: seq<seq<seq<real>>>, ny: nat, nx: nat, j: nat, i: nat, thres: real, n: nat): (t: Option<nat>)
    requires IsVolume(data, ny, nx) && j < ny && i < nx && n <= |data|
    ensures t.Some? ==> t.value < n && data[t.value][j][i] >= thres
    ensures t.Some? ==> forall k :: t.value < k < n ==> data[k][j][i] < thres
    ensures t.None? ==> forall k :: 0 <= k < n ==> data[k][j][i] < thres
  {
    if n == 0 then None
    else if data[n - 1][j][i] >= thres then Some(n - 1)
    else TopLevel(data, ny, nx, j, i, thres, n - 1)
  }

  /** The argmax of a level column is the top level, or 0 when no level reaches the threshold. */
  lemma ColumnArgmax(data: seq<seq<seq<real>>>, ny: nat, nx: nat, j: nat, i: nat, thres: real)
    requires IsVolume(data, ny, nx) && j < ny && i < nx && |data| > 0
    ensures var t := TopLevel(data, ny, nx, j, i, thres, |data|);
      Argmax(LevelColumn(data, ny, nx, j, i, thres)) == if t.Some? then t.value else 0
    ensures AllMasked(LevelColumn(data, ny, nx, j, i, thres)) <==> TopLevel(data, ny, nx, j, i, thres, |data|).None?
  {
    var col := LevelColumn(data, ny, nx, j, i, thres);
    var t := TopLevel(data, ny, nx, j, i, thres, |data|);
    var m := Argmax(col);
    if t.Some? {
      assert col[t.value] == Some(t.value);
      assert !Above(col[t.value], col[m]);
      assert !Above(col[m], col[t.value]);
    } else {
      assert forall k :: 0 <= k < |col| ==> col[k] == None;
      assert col[m] == None;
      assert !Above(col[m], col[0]);
    }
  }

  // ---------------------------------------------------------------
  // echo_tops_array
  // ---------------------------------------------------------------

  predicate IsGrid<T>(g: seq<seq<T>>, ny: nat, nx: nat)
  {
    |g| == ny && forall j :: 0 <= j < ny ==> |g[j]| == nx
  }

  /**
   * The altitudes at the digitized argmax indices, masked where every
   * level was masked; an index past the altitudes raises IndexError.
   */
  function TopsFromIndex(index: seq<seq<int>>, masked: seq<seq<bool>>, alt: seq<real>, ny: nat, nx: nat):
    (r: Result<seq<seq<Option<real>>>>)
    requires IsGrid(index, ny, nx) && IsGrid(masked, ny, nx)
    ensures r.Ok? ==> IsGrid(r.value, ny, nx)
  {
    var lev := Range(|alt|);
    if exists j, i :: 0 <= j < ny && 0 <= i < nx && Digitize(index[j][i], lev) >= |alt| then Fail(IndexError)
    else
      Ok(seq(ny, j requires 0 <= j < ny =>
        seq(nx, i requires 0 <= i < nx =>
          if masked[j][i] then None else Some(alt[Digitize(index[j][i], lev)]))))
  }

  /** `echo_tops_array(data, alt, thres)`; a volume without levels raises ValueError in `argmax`. */
  function EchoTopsSpec(data: seq<seq<seq<real>>>, ny: nat, nx: nat, alt: seq<real>, thres: real):
    (r: Result<seq<seq<Option<real>>>>)
    requires IsVolume(data, ny, nx)
    ensures r.Ok? ==> IsGrid(r.value, ny, nx)
  {
    if |data| == 0 then Fail(ValueError)
    else
      TopsFromIndex(
        seq(ny, j requires 0 <= j < ny =>
          seq(nx, i requires 0 <= i < nx => Argmax(LevelColumn(data, ny, nx, j, i, thres)))),
        seq(ny, j requires 0 <= j < ny =>
          seq(nx, i requires 0 <= i < nx => AllMasked(LevelColumn(data, ny, nx, j, i, thres)))),
        alt, ny, nx)
  }

  /** An output cell against the top level of its column. */
  predicate CellIs(c: Option<real>, t: Option<nat>, alt: seq<real>)
  {
    match t
    case None => c == None
    case Some(k) => k < |alt| && c == Some(alt[k])
  }

  /** The level `alt[ix]` is looked up at for a column: its top level, or 0 for a masked column. */
  function LookupLevel(data: seq<seq<seq<real>>>, ny: nat, nx: nat, j: nat, i: nat, thres: real): nat
    requires IsVolume(data, ny, nx) && j < ny && i < nx
  {
    var t := TopLevel(data, ny, nx, j, i, thres, |data|);
    if t.Some? then t.value else 0
  }

  /**
   * Each echo top is the altitude of the highest level whose value
   * reaches the threshold, masked exactly where no level does; the call
   * fails with ValueError on a volume without levels and with IndexError
   * when a column looks up a level past the altitude list.
   */
  lemma EchoTopsColumns(data: seq<seq<seq<real>>>, ny: nat, nx: nat, alt: seq<real>, thres: real)
    requires IsVolume(data, ny, nx)
    ensures var r := EchoTopsSpec(data, ny, nx, alt, thres);
      r == Fail(ValueError) <==> |data| == 0
    ensures var r := EchoTopsSpec(data, ny, nx, alt, thres);
      r == Fail(IndexError) <==>
        |data| > 0 && exists j, i :: 0 <= j < ny && 0 <= i < nx && LookupLevel(data, ny, nx, j, i, thres) >= |alt|
    ensures var r := EchoTopsSpec(data, ny, nx, alt, thres);
      r.Ok? ==> forall j, i :: 0 <= j < ny && 0 <= i < nx ==>
        CellIs(r.value[j][i], TopLevel(data, ny, nx, j, i, thres, |data|), alt)
  {
    if |data| > 0 {
      var index := seq(ny, j requires 0 <= j < ny =>
        seq(nx, i requires 0 <= i < nx => Argmax(LevelColumn(data, ny, nx, j, i, thres))));
      var masked := seq(ny, j requires 0 <= j < ny =>
        seq(nx, i requires 0 <= i < nx => AllMasked(LevelColumn(data, ny, nx, j, i, thres))));
      var lev := Range(|alt|);
      forall j, i | 0 <= j < ny && 0 <= i < nx
        ensures index[j][i] == LookupLevel(data, ny, nx, j, i, thres)
        ensures masked[j][i] <==> TopLevel(data, ny, nx, j, i, thres, |data|).None?
        ensures Digitize(index[j][i], lev) == if index[j][i] < |alt| then index[j][i] else |alt|
        ensures Digitize(index[j][i], lev) >= |alt| <==> LookupLevel(data, ny, nx, j, i, thres) >= |alt|
      {
        ColumnArgmax(data, ny, nx, j, i, thres);
        DigitizeLevels(index[j][i], |alt|);
      }
      var r := TopsFromIndex(index, masked, alt, ny, nx);
      assert EchoTopsSpec(data, ny, nx, alt, thres) == r;
      if r.Ok? {
        forall j, i | 0 <= j < ny && 0 <= i < nx
          ensures CellIs(r.value[j][i], TopLevel(data, ny, nx, j, i, thres, |data|), alt)
        {
          assert r.value[j][i] == if masked[j][i] then None else Some(alt[Digitize(index[j][i], lev)]);
        }
      }
    }
  }

  /** `echo_tops_array(data, alt, thres)`. */
  method EchoTopsArray(data: seq<seq<seq<real>>>, ny: nat, nx: nat, alt: seq<real>, thres: real)
    returns (r: Result<seq<seq<Option<real>>>>)
    requires IsVolume(data, ny, nx)
    ensures r == EchoTopsSpec(data, ny, nx, alt, thres)
  {
    var a := LevelIndex(data, ny, nx, thres);
    if |data| == 0 {
      return Fail(ValueError);
    }
    forall j, i | 0 <= j < ny && 0 <= i < nx
      ensures MaskedColumn(a, j, i) == LevelColumn(data, ny, nx, j, i, thres)
    {
    }
    var index := seq(ny, j requires 0 <= j < ny reads a =>
      seq(nx, i requires 0 <= i < nx reads a => Argmax(MaskedColumn(a, j, i))));
    var masked := seq(ny, j requires 0 <= j < ny reads a =>
      seq(nx, i requires 0 <= i < nx reads a => AllMasked(MaskedColumn(a, j, i))));
    ghost var index0 := seq(ny, j requires 0 <= j < ny =>
      seq(nx, i requires 0 <= i < nx => Argmax(LevelColumn(data, ny, nx, j, i, thres))));
    ghost var masked0 := seq(ny, j requires 0 <= j < ny =>
      seq(nx, i requires 0 <= i < nx => AllMasked(LevelColumn(data, ny, nx, j, i, thres))));
    assert index == index0 && masked == masked0 by {
      forall j | 0 <= j < ny
        ensures index[j] == index0[j] && masked[j] == masked0[j]
      {
      }
    }
    r := TopsFromIndex(index, masked, alt, ny, nx);
  }

  // ---------------------------------------------------------------
  // Threshold labels
  // ---------------------------------------------------------------

  /** `v` in exactly `w` decimal digits (the low `w` digits, zero-padded). */
  function FixedDigits(v: nat, w: nat): (s: string)
    ensures |s| == w && forall i :: 0 <= i < w ==> IsDigitChar(s[i])
  {
    if w == 0 then "" else FixedDigits(v / 10, w - 1) + ['0' + (v % 10) as char]
  }

  lemma {:induction false} FixedDigitsZero(w: nat)
    ensures forall i :: 0 <= i < w ==> FixedDigits(0, w)[i] == '0'
  {
    if w > 0 {
      FixedDigitsZero(w - 1);
    }
  }

  /** `'%f' % th` for a threshold of `t` millionths: six decimals. */
  function FormatF(t: int): string
  {
    var m: nat := if t < 0 then -t else t;
    (if t < 0 then "-" else "") + NatToString(m / 1000000) + "." + FixedDigits(m % 1000000, 6)
  }

  /** `('%f' % th).rstrip('0').rstrip('.')`. */
  function ThresholdLabel(t: int): string
  {
    RStripChar(RStripChar(FormatF(t), '0'), '.')
  }

  function ThresholdValue(t: int): real
  {
    t as real / 1000000.0
  }

  /** The name of the echo-top field for a threshold. */
  function TopsName(t: int): string
  {
    "Tops" + ThresholdLabel(t)
  }

  /** A whole-number threshold is labelled by its integer digits alone. */
  lemma TopsLabelWhole(n: int)
    ensures ThresholdLabel(n * 1000000) == IntToString(n)
  {
    var t := n * 1000000;
    var m: nat := if t < 0 then -t else t;
    var a: nat := if n < 0 then -n else n;
    assert m == a * 1000000;
    assert m / 1000000 == a && m % 1000000 == 0;
    var p := IntToString(n);
    assert p == (if t < 0 then "-" else "") + NatToString(a);
    var z := FixedDigits(0, 6);
    FixedDigitsZero(6);
    assert FormatF(t) == (p + ".") + z;
    RStripRun(p + ".", z, '0');
    var d := NatToString(a);
    assert IsDigits(d);
    assert p[|p| - 1] == d[|d| - 1];
    RStripRun(p, ".", '.');
    assert p + "." == p + ".";
  }

  const DefaultThresholds: seq<int> := [10000000, 15000000, 20000000]
  const DefaultTopsFieldName: string := "DBZ_F"

  /** The field names of the default thresholds. */
  const DefaultTopsFieldNames: seq<string> := ["Tops10", "Tops15", "Tops20"]

  /** The default thresholds 10, 15 and 20 dBZ give the fields Tops10, Tops15 and Tops20. */
  lemma DefaultTopsNames(i: nat)
    requires i < |DefaultThresholds|
    ensures TopsName(DefaultThresholds[i]) == DefaultTopsFieldNames[i]
  {
    if i == 0 {
      WholeTopsName(10, '1', '0');
    } else if i == 1 {
      WholeTopsName(15, '1', '5');
    } else {
      WholeTopsName(20, '2', '0');
    }
  }

  /** The field name of a two-digit whole-number threshold. */
  lemma WholeTopsName(n: nat, tens: char, units: char)
    requires 10 <= n < 100
    requires tens == '0' + (n / 10) as char && units == '0' + (n % 10) as char
    ensures TopsName(n * 1000000) == "Tops" + [tens, units]
  {
    TopsLabelWhole(n);
    assert NatToString(n / 10) == [tens];
  }

  // ---------------------------------------------------------------
  // compute_echo_tops
  // ---------------------------------------------------------------

  /** A field of a Cartesian grid: values [z][y][x] and its fill value. */
  datatype GridField = GridField(data: seq<seq<seq<real>>>, fillValue: real)

  /** The parts of a Cartesian grid that echo tops read: axes in metres, fields, time and origin. */
  datatype CartGrid = CartGrid(x: seq<real>, y: seq<real>, z: seq<real>,
                               fields: map<string, GridField>, time: int, origin: (real, real, real))

  /** Every field holds one value per grid point. */
  predicate ValidGrid(g: CartGrid)
  {
    forall f :: f in g.fields ==> |g.fields[f].data| == |g.z| && IsVolume(g.fields[f].data, |g.y|, |g.x|)
  }

  /** An echo-top field: km, with the fill value of the reflectivity and one level. */
  datatype TopsField = TopsField(units: string, standardName: string, longName: string, fillValue: real,
                                 data: seq<seq<seq<Option<real>>>>)

  /** The output grid: one level of `ny` by `nx`, the horizontal extent, time, origin and the echo-top fields. */
  datatype TopsGrid = TopsGrid(ny: nat, nx: nat, yLimits: (real, real), xLimits: (real, real), time: int,
                               origin: (real, real, real), fields: map<string, TopsField>)

  function TopsFieldOf(tops: seq<seq<Option<real>>>, t: int, fill: real): TopsField
  {
    TopsField("km", "echo_tops", "Echo tops, Threshold " + ThresholdLabel(t) + "dBZ", fill, [tops])
  }

  /** The echo-top fields of the thresholds, added in order; a later field of the same name replaces an earlier one. */
  function TopsFields(data: seq<seq<seq<real>>>, ny: nat, nx: nat, alt: seq<real>, thres: seq<int>, fill: real):
    (r: Result<map<string, TopsField>>)
    requires IsVolume(data, ny, nx)
    ensures r.Ok? <==> forall n :: 0 <= n < |thres| ==> EchoTopsSpec(data, ny, nx, alt, ThresholdValue(thres[n])).Ok?
  {
    if |thres| == 0 then Ok(map[])
    else
      var p := thres[..|thres| - 1];
      var t := thres[|thres| - 1];
      assert forall n :: 0 <= n < |p| ==> p[n] == thres[n];
      match TopsFields(data, ny, nx, alt, p, fill)
      case Fail(e) => Fail(e)
      case Ok(m) =>
        match EchoTopsSpec(data, ny, nx, alt, ThresholdValue(t))
        case Fail(e) => Fail(e)
        case Ok(tops) => Ok(m[TopsName(t) := TopsFieldOf(tops, t, fill)])
  }

  /** One field per distinct threshold name. */
  lemma {:induction false} TopsFieldsKeys(data: seq<seq<seq<real>>>, ny: nat, nx: nat, alt: seq<real>,
                                          thres: seq<int>, fill: real)
    requires IsVolume(data, ny, nx)
    requires TopsFields(data, ny, nx, alt, thres, fill).Ok?
    ensures TopsFields(data, ny, nx, alt, thres, fill).value.Keys == set t | t in thres :: TopsName(t)
  {
    if |thres| > 0 {
      var p := thres[..|thres| - 1];
      var t := thres[|thres| - 1];
      TopsFieldsKeys(data, ny, nx, alt, p, fill);
      var m0 := TopsFields(data, ny, nx, alt, p, fill).value;
      var tops := EchoTopsSpec(data, ny, nx, alt, ThresholdValue(t)).value;
      assert TopsFields(data, ny, nx, alt, thres, fill) == Ok(m0[TopsName(t) := TopsFieldOf(tops, t, fill)]);
      NamesSnoc(thres);
    }
  }

  /** The names of a list of thresholds are those of all but its last one, and the last one's. */
  lemma NamesSnoc(thres: seq<int>)
    requires |thres| > 0
    ensures (set s | s in thres :: TopsName(s)) ==
            (set s | s in thres[..|thres| - 1] :: TopsName(s)) + {TopsName(thres[|thres| - 1])}
  {
    assert thres == thres[..|thres| - 1] + [thres[|thres| - 1]];
  }

  /** Each threshold with no later threshold of the same name has its own echo tops in the field of its name. */
  lemma {:induction false} TopsFieldsAt(data: seq<seq<seq<real>>>, ny: nat, nx: nat, alt: seq<real>, thres: seq<int>,
                                        fill: real, n: nat)
    requires IsVolume(data, ny, nx)
    requires TopsFields(data, ny, nx, alt, thres, fill).Ok?
    requires n < |thres|
    requires forall q :: n < q < |thres| ==> TopsName(thres[q]) != TopsName(thres[n])
    ensures EchoTopsSpec(data, ny, nx, alt, ThresholdValue(thres[n])).Ok?
    ensures TopsName(thres[n]) in TopsFields(data, ny, nx, alt, thres, fill).value
    ensures TopsFields(data, ny, nx, alt, thres, fill).value[TopsName(thres[n])] ==
      TopsFieldOf(EchoTopsSpec(data, ny, nx, alt, ThresholdValue(thres[n])).value, thres[n], fill)
  {
    TopsFieldsKeys(data, ny, nx, alt, thres, fill);
    assert thres[n] in thres;
    var p := thres[..|thres| - 1];
    var t := thres[|thres| - 1];
    var m0 := TopsFields(data, ny, nx, alt, p, fill).value;
    var tops := EchoTopsSpec(data, ny, nx, alt, ThresholdValue(t)).value;
    assert TopsFields(data, ny, nx, alt, thres, fill) == Ok(m0[TopsName(t) := TopsFieldOf(tops, t, fill)]);
    if n < |p| {
      assert p[n] == thres[n];
      assert TopsName(t) != TopsName(thres[n]);
      assert forall q :: n < q < |p| ==> p[q] == thres[q];
      TopsFieldsAt(data, ny, nx, alt, p, fill, n);
    }
  }

  /** Once a threshold fails, the later thresholds are never reached: the error is the first one. */
  lemma {:induction false} TopsFieldsFailStays(data: seq<seq<seq<real>>>, ny: nat, nx: nat, alt: seq<real>,
                                               thres: seq<int>, n: nat, fill: real)
    requires IsVolume(data, ny, nx) && n <= |thres|
    requires TopsFields(data, ny, nx, alt, thres[..n], fill).Fail?
    ensures TopsFields(data, ny, nx, alt, thres, fill) == TopsFields(data, ny, nx, alt, thres[..n], fill)
    decreases |thres| - n
  {
    if n < |thres| {
      var p := thres[..|thres| - 1];
      assert p[..n] == thres[..n];
      TopsFieldsFailStays(data, ny, nx, alt, p, n, fill);
    } else {
      assert thres[..n] == thres;
    }
  }

  /** Altitudes in km from the grid's z axis in metres. */
  function Kilometres(z: seq<real>): (alt: seq<real>)
    ensures |alt| == |z| && forall k :: 0 <= k < |z| ==> alt[k] == z[k] / 1000.0
  {
    seq(|z|, k requires 0 <= k < |z| => z[k] / 1000.0)
  }

  /**
   * `compute_echo_tops`: an empty horizontal axis raises ValueError (its
   * min and max), a missing reflectivity field KeyError; otherwise the
   * echo-top fields of every threshold on a one-level grid over the same
   * horizontal extent, with the input's time and origin.
   */
  function ComputeEchoTopsSpec(g: CartGrid, thres: seq<int>, fieldName: string): (r: Result<TopsGrid>)
    requires ValidGrid(g)
    ensures r.Ok? ==> r.value.ny == |g.y| && r.value.nx == |g.x| && r.value.time == g.time && r.value.origin == g.origin
    ensures |g.y| == 0 || |g.x| == 0 ==> r == Fail(ValueError)
    ensures |g.y| > 0 && |g.x| > 0 && fieldName !in g.fields ==> r == Fail(KeyError(fieldName))
  {
    if |g.y| == 0 || |g.x| == 0 then Fail(ValueError)
    else if fieldName !in g.fields then Fail(KeyError(fieldName))
    else
      var f := g.fields[fieldName];
      match TopsFields(f.data, |g.y|, |g.x|, Kilometres(g.z), thres, f.fillValue)
      case Fail(e) => Fail(e)
      case Ok(m) =>
        Ok(TopsGrid(|g.y|, |g.x|, (SeqMin(g.y), SeqMax(g.y)), (SeqMin(g.x), SeqMax(g.x)), g.time, g.origin, m))
  }

  /** `compute_echo_tops(grid, thres, field_name)`: the loop over thresholds adding one field each. */
  method ComputeEchoTops(g: CartGrid, thres: seq<int>, fieldName: string) returns (r: Result<TopsGrid>)
    requires ValidGrid(g)
    ensures r == ComputeEchoTopsSpec(g, thres, fieldName)
  {
    if |g.y| == 0 || |g.x| == 0 {
      return Fail(ValueError);
    }
    var ny, nx := |g.y|, |g.x|;
    var limits := ((SeqMin(g.y), SeqMax(g.y)), (SeqMin(g.x), SeqMax(g.x)));
    var alt := Kilometres(g.z);
    if fieldName !in g.fields {
      return Fail(KeyError(fieldName));
    }
    var data := g.fields[fieldName].data;
    var fill := g.fields[fieldName].fillValue;
    var fields: map<string, TopsField> := map[];
    for n := 0 to |thres|
      invariant TopsFields(data, ny, nx, alt, thres[..n], fill) == Ok(fields)
    {
      var th := thres[n];
      var tops := EchoTopsArray(data, ny, nx, alt, ThresholdValue(th));
      assert thres[..n + 1][..n] == thres[..n] && thres[..n + 1][n] == th;
      if tops.Fail? {
        TopsFieldsFailStays(data, ny, nx, alt, thres, n + 1, g.fields[fieldName].fillValue);
        return Fail(tops.err);
      }
      fields := fields[TopsName(th) := TopsFieldOf(tops.value, th, fill)];
    }
    assert thres[..|thres|] == thres;
    r := Ok(TopsGrid(ny, nx, limits.0, limits.1, g.time, g.origin, fields));
  }
}
