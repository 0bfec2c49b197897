/**
 * `str2numeric_dict_args` and `do_call` from util/utilities.py, plus the
 * keyword binding Python performs when `do_call` finally invokes a
 * function with `**kwargs`.
 */
module Utilities {
  import opened Wrappers
  import opened PyBase

  /**
   * One value as `str2numeric_dict_args` converts it: non-strings and
   * purely alphabetic strings stay, all-digit strings become ints, every
   * other string goes through `float()` (ValueError if it cannot).
   */
  function ConvertValue(v: Value): (r: Result<Value>)
    ensures r.Fail? ==> r == Fail(ValueError)
    ensures !v.VStr? ==> r == Ok(v)
    ensures v.VStr? && IsAlpha(v.s) ==> r == Ok(v)
    ensures v.VStr? && IsDigits(v.s) ==> r == Ok(VInt(DecimalValue(v.s)))
    ensures v.VStr? && !IsAlpha(v.s) && !IsDigits(v.s) ==>
      (r.Ok? <==> ParseFloat(v.s).Some?) && (r.Ok? ==> r.value == VReal(ParseFloat(v.s).value))
  {
    match v
    case VStr(s) =>
      if IsAlpha(s) then Ok(v)
      else if IsDigits(s) then Ok(VInt(ParseDigits(s)))
      else (match ParseFloat(s) case Some(x) => Ok(VReal(x)) case None => Fail(ValueError))
    case _ => Ok(v)
  }

  /** The whole dictionary after conversion, or the ValueError one of its values raises. */
  function Converted(m: map<string, Value>): (r: Result<map<string, Value>>)
    ensures r.Fail? <==> exists k :: k in m && ConvertValue(m[k]).Fail?
    ensures r.Fail? ==> r == Fail(ValueError)
    ensures r.Ok? ==> r.value.Keys == m.Keys
    ensures r.Ok? ==> forall k :: k in m ==> Ok(r.value[k]) == ConvertValue(m[k])
  {
    if exists k :: k in m && ConvertValue(m[k]).Fail? then Fail(ValueError)
    else Ok(map k | k in m :: ConvertValue(m[k]).value)
  }

  /** A converted value converts to itself. */
  lemma ConvertValueIdempotent(v: Value)
    requires ConvertValue(v).Ok?
    ensures ConvertValue(ConvertValue(v).value) == ConvertValue(v)
  {
  }

  /** Converting twice is converting once, so repeated calls on the same dictionary are harmless. */
  lemma ConvertedIdempotent(m: map<string, Value>)
    requires Converted(m).Ok?
    ensures Converted(Converted(m).value) == Converted(m)
  {
    var c := Converted(m).value;
    forall k | k in c ensures ConvertValue(c[k]) == Ok(c[k]) {
      ConvertValueIdempotent(m[k]);
    }
    assert !exists k :: k in c && ConvertValue(c[k]).Fail?;
    assert Converted(c).value == c;
  }

  /** A Python dict that the modelled code updates in place. */
  class ArgDict {
    var entries: map<string, Value>

    constructor (m: map<string, Value>)
      ensures entries == m
    {
      entries := m;
    }
  }

  /**
   * `str2numeric_dict_args(args)`: converts every value in place and
   * returns the same dictionary.  On a ValueError the keys visited before
   * the failing one are already converted; the model leaves that
   * intermediate state unspecified.
   */
  method Str2NumericDictArgs(args: ArgDict) returns (r: Result<ArgDict>)
    modifies args
    ensures r.Ok? <==> Converted(old(args.entries)).Ok?
    ensures r.Fail? ==> r == Fail(ValueError)
    ensures r.Ok? ==> r.value == args && args.entries == Converted(old(args.entries)).value
  {
    ghost var orig := args.entries;
    var todo := args.entries.Keys;
    while todo != {}
      invariant todo <= orig.Keys
      invariant args.entries.Keys == orig.Keys
      invariant forall k :: k in orig && k !in todo ==> Ok(args.entries[k]) == ConvertValue(orig[k])
      invariant forall k :: k in todo ==> args.entries[k] == orig[k]
      decreases todo
    {
      var key :| key in todo;
      var conv := ConvertValue(args.entries[key]);
      if conv.Fail? {
        return Fail(conv.err);
      }
      args.entries := args.entries[key := conv.value];
      todo := todo - {key};
    }
    assert forall k :: k in orig ==> ConvertValue(orig[k]).Ok?;
    assert args.entries == Converted(orig).value;
    r := Ok(args);
  }

  /** A call assembled by `do_call`: positional arguments and keyword arguments. */
  datatype Call<A> = Call(args: seq<A>, kwargs: map<string, Value>)

  /**
   * `do_call(what, args, kwargs)`: kwargs only, args only, or both; with
   * neither, `what(*None, **None)` raises TypeError.
   */
  function DoCall<A>(args: Option<seq<A>>, kwargs: Option<map<string, Value>>): (r: Result<Call<A>>)
    ensures r.Fail? <==> args.None? && kwargs.None?
    ensures r.Ok? ==> r.value.args == (if args.Some? then args.value else [])
    ensures r.Ok? ==> r.value.kwargs == (if kwargs.Some? then kwargs.value else map[])
  {
    match (args, kwargs)
    case (None, Some(kw)) => Ok(Call([], kw))
    case (Some(a), None) => Ok(Call(a, map[]))
    case (Some(a), Some(kw)) => Ok(Call(a, kw))
    case (None, None) => Fail(TypeError)
  }

  /**
   * Python's binding of `f(p1, ..., pn, **kwargs)` for a function whose
   * parameters are `params`, the first `npos` of them passed positionally:
   * an unknown keyword, a keyword repeating a positional parameter, or a
   * parameter left without a value and without a default raise TypeError.
   * The result maps every keyword parameter to its value.
   */
  function BindKeywords(params: seq<string>, npos: nat, defaults: map<string, Value>,
                        kwargs: map<string, Value>): (r: Result<map<string, Value>>)
    requires npos <= |params|
    ensures r.Ok? <==>
      (forall k :: k in kwargs ==> k in params[npos..]) &&
      (forall p :: p in params[npos..] ==> p in kwargs || p in defaults)
    ensures r.Ok? ==> forall p :: p in params[npos..] ==>
      p in r.value && r.value[p] == (if p in kwargs then kwargs[p] else defaults[p])
  {
    if (forall k :: k in kwargs ==> k in params[npos..]) &&
       (forall p :: p in params[npos..] ==> p in kwargs || p in defaults)
    then Ok(map p | p in params[npos..] :: if p in kwargs then kwargs[p] else defaults[p])
    else Fail(TypeError)
  }

  // ---------------------------------------------------------------
  // Two-dimensional arrays passed to and from R
  // ---------------------------------------------------------------

  /** A `rows` × `cols` array as nested lists. */
  ghost predicate IsMatrix<T>(a: seq<seq<T>>, rows: nat, cols: nat)
  {
    |a| == rows && forall i :: 0 <= i < rows ==> |a[i]| == cols
  }

  /** The rows of an array one after the other: numpy's `reshape(arr.size)`. */
  function Concat<T>(a: seq<seq<T>>): (r: seq<T>)
    ensures forall n: nat :: IsMatrix(a, |a|, n) ==> |r| == |a| * n
  {
    if a == [] then []
    else
      var r := Concat(a[..|a| - 1]) + a[|a| - 1];
      assert forall n: nat :: IsMatrix(a, |a|, n) ==> IsMatrix(a[..|a| - 1], |a| - 1, n);
      assert forall n: nat :: |a| * n == (|a| - 1) * n + n;
      r
  }

  /** A vector cut into `count` consecutive pieces of length `n`. */
  function Chunks<T>(vec: seq<T>, n: nat, count: nat): (r: seq<seq<T>>)
    requires |vec| == n * count
    ensures IsMatrix(r, count, n)
    decreases count
  {
    if count == 0 then []
    else
      assert n * count == n * (count - 1) + n;
      Chunks(vec[..n * (count - 1)], n, count - 1) + [vec[n * (count - 1)..]]
  }

  /** `arr.transpose()` of a `rows` × `cols` array. */
  function Transpose<T>(a: seq<seq<T>>, rows: nat, cols: nat): (r: seq<seq<T>>)
    requires IsMatrix(a, rows, cols)
    ensures IsMatrix(r, cols, rows)
    ensures forall j, i :: 0 <= j < cols && 0 <= i < rows ==> r[j][i] == a[i][j]
  {
    seq(cols, j requires 0 <= j < cols => seq(rows, i requires 0 <= i < rows => a[i][j]))
  }

  /**
   * `rFloatVector_to_npmDarray(vec, (rows, cols))`: R's `array` fills the
   * array column by column, so its columns are the consecutive pieces of
   * the vector.  A vector of any other length is refused here (R would
   * recycle it).
   */
  function FromRVector<T>(vec: seq<T>, rows: nat, cols: nat): (r: Result<seq<seq<T>>>)
    ensures r.Ok? <==> |vec| == rows * cols
    ensures r.Fail? ==> r.err == ValueError
    ensures r.Ok? ==> IsMatrix(r.value, rows, cols)
  {
    if |vec| != rows * cols then Fail(ValueError)
    else Ok(Transpose(Chunks(vec, rows, cols), cols, rows))
  }

  /** `npmDarray_to_rFloatVector(arr)`: `arr.transpose().reshape(arr.size)` lists the array column by column. */
  function ToRVector<T>(a: seq<seq<T>>, rows: nat, cols: nat): (r: seq<T>)
    requires IsMatrix(a, rows, cols)
    ensures |r| == rows * cols
  {
    Concat(Transpose(a, rows, cols))
  }

  /** Entry `k` of the piece `j` is entry `n * j + k` of the vector. */
  lemma {:induction false} ChunksAt<T>(vec: seq<T>, n: nat, count: nat, j: nat, k: nat)
    requires |vec| == n * count && j < count && k < n
    ensures n * j + k < |vec| && Chunks(vec, n, count)[j][k] == vec[n * j + k]
    decreases count
  {
    var m := n * (count - 1);
    assert n * count == m + n;
    var pre := vec[..m];
    var c := Chunks(vec, n, count);
    assert c == Chunks(pre, n, count - 1) + [vec[m..]];
    if j < count - 1 {
      ChunksAt(pre, n, count - 1, j, k);
      assert c[j] == Chunks(pre, n, count - 1)[j];
      assert pre[n * j + k] == vec[n * j + k];
    } else {
      assert c[j] == vec[m..];
      assert n * j == m;
    }
  }

  /** Entry (i, j) of the array R builds is entry `i + rows * j` of the vector. */
  lemma FromRVectorAt<T>(vec: seq<T>, rows: nat, cols: nat, i: nat, j: nat)
    requires |vec| == rows * cols && i < rows && j < cols
    ensures rows * j + i < |vec| && FromRVector(vec, rows, cols).value[i][j] == vec[rows * j + i]
  {
    ChunksAt(vec, rows, cols, j, i);
  }

  /** Joining the pieces gives the vector back. */
  lemma {:induction false} ConcatChunks<T>(vec: seq<T>, n: nat, count: nat)
    requires |vec| == n * count
    ensures Concat(Chunks(vec, n, count)) == vec
    decreases count
  {
    if count > 0 {
      assert n * count == n * (count - 1) + n;
      var c := Chunks(vec, n, count);
      ConcatChunks(vec[..n * (count - 1)], n, count - 1);
      assert c[..|c| - 1] == Chunks(vec[..n * (count - 1)], n, count - 1);
      assert vec == vec[..n * (count - 1)] + vec[n * (count - 1)..];
    }
  }

  /** Cutting the joined rows of a matrix gives its rows back. */
  lemma {:induction false} ChunksConcat<T>(a: seq<seq<T>>, count: nat, n: nat)
    requires IsMatrix(a, count, n)
    ensures |Concat(a)| == n * count && Chunks(Concat(a), n, count) == a
    decreases count
  {
    if count > 0 {
      var p := a[..count - 1];
      assert IsMatrix(p, count - 1, n);
      ChunksConcat(p, count - 1, n);
      assert Concat(a) == Concat(p) + a[count - 1];
      assert Concat(a)[..n * (count - 1)] == Concat(p);
      assert Concat(a)[n * (count - 1)..] == a[count - 1];
      assert a == p + [a[count - 1]];
    }
  }

  /** Transposing twice gives the array back. */
  lemma TransposeTwice<T>(a: seq<seq<T>>, rows: nat, cols: nat)
    requires IsMatrix(a, rows, cols)
    ensures Transpose(Transpose(a, rows, cols), cols, rows) == a
  {
    var b := Transpose(Transpose(a, rows, cols), cols, rows);
    forall i | 0 <= i < rows
      ensures b[i] == a[i]
    {
    }
  }

  /** Converting an array to R and back gives the array. */
  lemma FromToRVector<T>(a: seq<seq<T>>, rows: nat, cols: nat)
    requires IsMatrix(a, rows, cols)
    ensures FromRVector(ToRVector(a, rows, cols), rows, cols) == Ok(a)
  {
    var t := Transpose(a, rows, cols);
    ChunksConcat(t, cols, rows);
    TransposeTwice(a, rows, cols);
  }

  /** Converting an R vector of the right length to an array and back gives the vector. */
  lemma ToFromRVector<T>(vec: seq<T>, rows: nat, cols: nat)
    requires |vec| == rows * cols
    ensures ToRVector(FromRVector(vec, rows, cols).value, rows, cols) == vec
  {
    var c := Chunks(vec, rows, cols);
    TransposeTwice(c, cols, rows);
    ConcatChunks(vec, rows, cols);
  }

  /** Entry `n * j + k` of the joined rows of a matrix is entry k of row j. */
  lemma ConcatAt<T>(a: seq<seq<T>>, count: nat, n: nat, j: nat, k: nat)
    requires IsMatrix(a, count, n) && j < count && k < n
    ensures n * j + k < |Concat(a)| && Concat(a)[n * j + k] == a[j][k]
  {
    ChunksConcat(a, count, n);
    ChunksAt(Concat(a), n, count, j, k);
  }

  /** Joining one more row appends that row. */
  lemma ConcatSnoc<T>(a: seq<seq<T>>, i: nat)
    requires i < |a|
    ensures Concat(a[..i + 1]) == Concat(a[..i]) + a[i]
  {
    assert a[..i + 1][..i] == a[..i];
  }
}
