/**
 * The small part of Python's and numpy's semantics that the modelled code
 * leans on: dynamically typed configuration values, truthiness, whitespace, ASCII
 * string predicates, number parsing, `list(dict.fromkeys(xs))` and
 * `np.arange`.
 */
module PyBase {
  import opened Wrappers

  /** A configuration value as it arrives from a JSON file or a keyword argument. */
  datatype Value = VInt(i: int) | VReal(r: real) | VBool(b: bool) | VStr(s: string) | VNone

  /** Python truthiness of a value. */
  predicate Truthy(v: Value)
  {
    match v
    case VInt(i) => i != 0
    case VReal(r) => r != 0.0
    case VBool(b) => b
    case VStr(s) => s != ""
    case VNone => false
  }

  /** The number a value stands for in arithmetic or a comparison; strings and None raise TypeError. */
  function AsReal(v: Value): (r: Result<real>)
    ensures r.Fail? <==> v.VStr? || v.VNone?
    ensures v.VInt? ==> r == Ok(v.i as real)
    ensures v.VReal? ==> r == Ok(v.r)
  {
    match v
    case VInt(i) => Ok(i as real)
    case VReal(x) => Ok(x)
    case VBool(b) => Ok(if b then 1.0 else 0.0)
    case VStr(_) => Fail(TypeError)
    case VNone => Fail(TypeError)
  }

  /** `str(v)` for values used as dictionary keys (floats are not rendered). */
  function Repr(v: Value): string
  {
    match v
    case VInt(i) => IntToString(i)
    case VReal(_) => "<float>"
    case VBool(b) => if b then "True" else "False"
    case VStr(s) => s
    case VNone => "None"
  }

  // ---------------------------------------------------------------
  // Characters and strings (letters and digits are the ASCII ones)
  // ---------------------------------------------------------------

  /** `c.isspace()`: the characters `str.split()` with no argument splits on. */
  predicate IsPySpace(c: char)
  {
    var n := c as int;
    n == 0x20 || 0x09 <= n <= 0x0d || 0x1c <= n <= 0x1f || n == 0x85 || n == 0xa0 ||
    n == 0x1680 || 0x2000 <= n <= 0x200a || n == 0x2028 || n == 0x2029 ||
    n == 0x202f || n == 0x205f || n == 0x3000
  }

  predicate IsDigitChar(c: char) { '0' <= c <= '9' }

  predicate IsAlphaChar(c: char) { 'a' <= c <= 'z' || 'A' <= c <= 'Z' }

  /** `str.isalpha()`: non-empty and letters only. */
  predicate IsAlpha(s: string) { |s| > 0 && forall i :: 0 <= i < |s| ==> IsAlphaChar(s[i]) }

  /** `str.isdigit()`: non-empty and digits only. */
  predicate IsDigits(s: string) { |s| > 0 && forall i :: 0 <= i < |s| ==> IsDigitChar(s[i]) }

  function DigitValue(c: char): (d: nat)
    requires IsDigitChar(c)
    ensures d < 10
  {
    (c as int - '0' as int) as nat
  }

  /** The number written by a string of decimal digits (0 for the empty string). */
  function DecimalValue(s: string): (n: nat)
    requires forall i :: 0 <= i < |s| ==> IsDigitChar(s[i])
  {
    if |s| == 0 then 0 else 10 * DecimalValue(s[..|s| - 1]) + DigitValue(s[|s| - 1])
  }

  function Pow10(n: nat): (r: real)
    ensures r >= 1.0
  {
    if n == 0 then 1.0 else 10.0 * Pow10(n - 1)
  }

  /** Decimal digits of a natural number, most significant first. */
  function NatToString(n: nat): (s: string)
    ensures IsDigits(s)
    decreases n
  {
    if n < 10 then ['0' + n as char]
    else NatToString(n / 10) + ['0' + (n % 10) as char]
  }

  /** `str(n)` for an int. */
  function IntToString(n: int): string
  {
    if n < 0 then "-" + NatToString(-n) else NatToString(n)
  }

  lemma {:induction false} DecimalValueOfNatToString(n: nat)
    ensures DecimalValue(NatToString(n)) == n
    decreases n
  {
    if n >= 10 {
      var s := NatToString(n / 10);
      var t := s + ['0' + (n % 10) as char];
      assert t[..|t| - 1] == s;
      DecimalValueOfNatToString(n / 10);
    }
  }

  function IndexOfChar(s: string, c: char): (r: Option<nat>)
    ensures r.Some? ==> r.value < |s| && s[r.value] == c
    ensures r.Some? ==> forall k :: 0 <= k < r.value ==> s[k] != c
    ensures r.None? ==> forall k :: 0 <= k < |s| ==> s[k] != c
  {
    if |s| == 0 then None
    else if s[0] == c then Some(0)
    else match IndexOfChar(s[1..], c)
      case None => None
      case Some(k) => Some(k + 1)
  }

  predicate StartsWith(s: string, prefix: string)
  {
    |prefix| <= |s| && s[..|prefix|] == prefix
  }

  predicate EndsWith(s: string, suffix: string)
  {
    |suffix| <= |s| && s[|s| - |suffix|..] == suffix
  }

  /** `sub in s` for strings. */
  predicate ContainsStr(s: string, sub: string)
    decreases |s|
  {
    StartsWith(s, sub) || (|s| > 0 && ContainsStr(s[1..], sub))
  }

  // ---------------------------------------------------------------
  // Number parsing
  // ---------------------------------------------------------------

  /** `int(s)` for an all-digit string. */
  function ParseDigits(s: string): (n: int)
    requires IsDigits(s)
    ensures n >= 0
  {
    DecimalValue(s)
  }

  /** A decimal mantissa: digits with at most one '.', at least one digit. */
  function ParseMantissa(m: string): (r: Option<real>)
    ensures r.Some? ==> r.value >= 0.0
  {
    match IndexOfChar(m, '.')
    case None =>
      if IsDigits(m) then Some(DecimalValue(m) as real) else None
    case Some(k) =>
      var ip := m[..k];
      var fp := m[k + 1..];
      if (|ip| > 0 || |fp| > 0) &&
         (forall i :: 0 <= i < |ip| ==> IsDigitChar(ip[i])) &&
         (forall i :: 0 <= i < |fp| ==> IsDigitChar(fp[i]))
      then Some(DecimalValue(ip) as real + DecimalValue(fp) as real / Pow10(|fp|))
      else None
  }

  /**
   * `int(s)`: an optional sign then decimal digits; None where Python
   * raises ValueError.  Also the exponent of a float literal.
   */
  function ParseInt(e: string): Option<int>
  {
    if |e| > 0 && (e[0] == '+' || e[0] == '-') then
      (if IsDigits(e[1..]) then Some(if e[0] == '-' then -(DecimalValue(e[1..]) as int) else DecimalValue(e[1..]))
       else None)
    else if IsDigits(e) then Some(DecimalValue(e))
    else None
  }

  /** `int(str(n)) == n`. */
  lemma ParseIntOfIntToString(n: int)
    ensures ParseInt(IntToString(n)) == Some(n)
  {
    var d := NatToString(if n < 0 then -n else n);
    assert IsDigits(d);
    assert IsDigitChar(d[0]);
    DecimalValueOfNatToString(if n < 0 then -n else n);
    if n < 0 {
      var s := "-" + d;
      assert s == IntToString(n);
      assert s[1..] == d;
      assert ParseInt(s) == Some(-(DecimalValue(d) as int));
    } else {
      assert d == IntToString(n);
      assert ParseInt(d) == Some(DecimalValue(d));
    }
  }

  function ScaleByPow10(x: real, e: int): real
  {
    if e >= 0 then x * Pow10(e) else x / Pow10(-e)
  }

  function FirstExpMarker(s: string): Option<nat>
  {
    match IndexOfChar(s, 'e')
    case Some(k) => (match IndexOfChar(s, 'E') case Some(k2) => Some(if k2 < k then k2 else k) case None => Some(k))
    case None => IndexOfChar(s, 'E')
  }

  /**
   * `float(s)` for the decimal forms `[+-]digits[.digits][(e|E)[+-]digits]`;
   * None where Python raises ValueError.
   */
  function ParseFloat(s: string): Option<real>
  {
    var neg := |s| > 0 && s[0] == '-';
    var body := if |s| > 0 && (s[0] == '-' || s[0] == '+') then s[1..] else s;
    var parts :=
      match FirstExpMarker(body)
      case None => (body, Some(0))
      case Some(k) => if k < |body| then (body[..k], ParseInt(body[k + 1..])) else (body, None);
    match (ParseMantissa(parts.0), parts.1)
    case (Some(m), Some(e)) => Some(if neg then -ScaleByPow10(m, e) else ScaleByPow10(m, e))
    case _ => None
  }

  lemma ParseFloatDecimal()
    ensures ParseFloat("0.8") == Some(0.8)
  {
    assert FirstExpMarker("0.8") == None;
    assert IndexOfChar("0.8", '.') == Some(1);
    assert "0.8"[..1] == "0" && "0.8"[2..] == "8";
  }

  lemma IndexOfAbsent(s: string, c: char)
    requires c !in s
    ensures IndexOfChar(s, c) == None
  {
    forall k | 0 <= k < |s|
      ensures s[k] != c
    {
      assert s[k] in s;
    }
  }

  /**
   * A string that starts with neither a digit, a sign nor '.', and has no
   * '.', 'e' or 'E', is not a float: `float` raises ValueError on it.
   */
  lemma ParseFloatRejectsName(s: string)
    requires |s| > 0 && !IsDigitChar(s[0]) && s[0] != '-' && s[0] != '+'
    requires '.' !in s && 'e' !in s && 'E' !in s
    ensures ParseFloat(s) == None
  {
    IndexOfAbsent(s, 'e');
    IndexOfAbsent(s, 'E');
    IndexOfAbsent(s, '.');
    assert !IsDigits(s);
  }

  lemma ParseFloatRejectsFieldName()
    ensures ParseFloat("RHOHV_F") == None
  {
    ParseFloatRejectsName("RHOHV_F");
  }

  // ---------------------------------------------------------------
  // list(dict.fromkeys(xs))
  // ---------------------------------------------------------------

  /** Order-preserving removal of duplicates: each element kept at its first occurrence. */
  function Dedup<T(==,!new)>(s: seq<T>): (r: seq<T>)
    ensures forall x :: x in r <==> x in s
    ensures |r| <= |s|
  {
    if |s| == 0 then []
    else
      var r := Dedup(s[..|s| - 1]);
      assert forall x :: x in s <==> x in s[..|s| - 1] || x == s[|s| - 1] by {
        assert s == s[..|s| - 1] + [s[|s| - 1]];
      }
      if s[|s| - 1] in r then r else r + [s[|s| - 1]]
  }

  predicate NoDuplicates<T(==,!new)>(s: seq<T>)
  {
    forall i, j :: 0 <= i < j < |s| ==> s[i] != s[j]
  }

  /** Index of the first occurrence of `x` in `s`. */
  function FirstIndex<T(==,!new)>(s: seq<T>, x: T): (k: nat)
    requires x in s
    ensures k < |s| && s[k] == x
    ensures forall j :: 0 <= j < k ==> s[j] != x
  {
    if s[0] == x then 0
    else
      assert x in s[1..] by { var j :| 0 <= j < |s| && s[j] == x; assert s[1..][j - 1] == x; }
      FirstIndex(s[1..], x) + 1
  }

  lemma {:induction false} DedupNoDuplicates<T(!new)>(s: seq<T>)
    ensures NoDuplicates(Dedup(s))
  {
    if |s| > 0 {
      DedupNoDuplicates(s[..|s| - 1]);
    }
  }

  /** Deduplicating a longer list only appends to the deduplicated prefix. */
  lemma {:induction false} DedupPrefix<T(!new)>(s: seq<T>, t: seq<T>)
    ensures Dedup(s) <= Dedup(s + t)
    decreases |t|
  {
    if |t| > 0 {
      var u := s + t[..|t| - 1];
      assert (s + t)[..|s + t| - 1] == u;
      DedupPrefix(s, t[..|t| - 1]);
    } else {
      assert s + t == s;
    }
  }

  lemma FirstIndexPrefix<T(!new)>(s: seq<T>, p: seq<T>, x: T)
    requires p <= s && x in p
    ensures FirstIndex(s, x) == FirstIndex(p, x)
  {
    var b := FirstIndex(p, x);
    assert s[b] == x;
    assert forall j :: 0 <= j < |p| ==> s[j] == p[j];
  }

  /** A list without duplicates is its own deduplication. */
  lemma {:induction false} DedupOfDistinct<T(!new)>(s: seq<T>)
    requires NoDuplicates(s)
    ensures Dedup(s) == s
  {
    if |s| > 0 {
      var p := s[..|s| - 1];
      DedupOfDistinct(p);
      assert s[|s| - 1] !in p;
      assert p + [s[|s| - 1]] == s;
    }
  }

  /** Kept elements appear in the order of their first occurrences. */
  lemma {:induction false} DedupKeepsFirstOccurrenceOrder<T(!new)>(s: seq<T>)
    ensures forall i, j :: 0 <= i < j < |Dedup(s)| ==>
      FirstIndex(s, Dedup(s)[i]) < FirstIndex(s, Dedup(s)[j])
  {
    if |s| > 0 {
      var p := s[..|s| - 1];
      var x := s[|s| - 1];
      var r := Dedup(p);
      DedupKeepsFirstOccurrenceOrder(p);
      assert s == p + [x];
      forall y | y in r ensures FirstIndex(s, y) == FirstIndex(p, y) {
        FirstIndexPrefix(s, p, y);
      }
      if x !in r {
        assert x !in p;
        assert forall j :: 0 <= j < |p| ==> s[j] == p[j];
        assert FirstIndex(s, x) == |s| - 1;
      }
    }
  }

  // ---------------------------------------------------------------
  // str.lstrip / str.rstrip of one character, list.reverse, min / max
  // ---------------------------------------------------------------

  /** `s.lstrip(c)`: `s` without its leading run of `c`. */
  function LStripChar(s: string, c: char): (r: string)
    ensures |r| <= |s| && r == s[|s| - |r|..]
    ensures r == [] || r[0] != c
    ensures forall i :: 0 <= i < |s| - |r| ==> s[i] == c
  {
    if |s| > 0 && s[0] == c then LStripChar(s[1..], c) else s
  }

  /** `s.rstrip(c)`: `s` without its trailing run of `c`. */
  function RStripChar(s: string, c: char): (r: string)
    ensures |r| <= |s| && r == s[..|r|]
    ensures r == [] || r[|r| - 1] != c
    ensures forall i :: |r| <= i < |s| ==> s[i] == c
  {
    if |s| > 0 && s[|s| - 1] == c then RStripChar(s[..|s| - 1], c) else s
  }

  /** Stripping `c` from the right removes exactly a trailing run of `c`. */
  lemma {:induction false} RStripRun(a: string, b: string, c: char)
    requires forall i :: 0 <= i < |b| ==> b[i] == c
    requires a == [] || a[|a| - 1] != c
    ensures RStripChar(a + b, c) == a
    decreases |b|
  {
    if |b| == 0 {
      assert a + b == a;
    } else {
      assert (a + b)[..|a + b| - 1] == a + b[..|b| - 1];
      RStripRun(a, b[..|b| - 1], c);
    }
  }

  /** `s.strip(c)`. */
  function StripChar(s: string, c: char): string
  {
    RStripChar(LStripChar(s, c), c)
  }

  /** The elements of `s` in reverse order (`list.reverse`). */
  function Reversed<T>(s: seq<T>): (r: seq<T>)
    ensures |r| == |s|
    ensures forall i :: 0 <= i < |s| ==> r[i] == s[|s| - 1 - i]
  {
    seq(|s|, i requires 0 <= i < |s| => s[|s| - 1 - i])
  }

  /** `max` of a non-empty list. */
  function SeqMax(s: seq<real>): (m: real)
    requires |s| > 0
    ensures m in s
    ensures forall x :: x in s ==> x <= m
  {
    if |s| == 1 then s[0]
    else
      var m := SeqMax(s[1..]);
      assert forall x :: x in s[1..] ==> x in s;
      assert forall x :: x in s ==> x == s[0] || x in s[1..];
      if s[0] > m then s[0] else m
  }

  /** `min` of a non-empty list. */
  function SeqMin(s: seq<real>): (m: real)
    requires |s| > 0
    ensures m in s
    ensures forall x :: x in s ==> m <= x
  {
    if |s| == 1 then s[0]
    else
      var m := SeqMin(s[1..]);
      assert forall x :: x in s[1..] ==> x in s;
      assert forall x :: x in s ==> x == s[0] || x in s[1..];
      if s[0] < m then s[0] else m
  }

  // ---------------------------------------------------------------
  // np.arange
  // ---------------------------------------------------------------

  /** The number of values `np.arange(start, stop, step)` yields for a positive step. */
  function ARangeCount(start: real, stop: real, step: real): nat
    requires step > 0.0
  {
    if start < stop then ((stop - start) / step).Floor + 1 else 0
  }

  lemma DivShift(a: real, d: real)
    requires d > 0.0
    ensures (a - d) / d == a / d - 1.0
  {
    var q := a / d;
    var r := (a - d) / d;
    assert q * d == a;
    assert r * d == a - d;
    assert (r - (q - 1.0)) * d == 0.0;
    if r > q - 1.0 { MulPositive(r - (q - 1.0), d); }
    if r < q - 1.0 { MulPositive(q - 1.0 - r, d); }
  }

  lemma MulPositive(x: real, d: real)
    requires x > 0.0 && d > 0.0
    ensures x * d > 0.0
  {
  }

  lemma DivNonNeg(a: real, d: real)
    requires a > 0.0 && d > 0.0
    ensures a / d > 0.0
  {
  }

  /** One step of `np.arange` brings the start one count closer to the stop. */
  lemma ARangeCountStep(start: real, stop: real, step: real)
    requires step > 0.0 && start < stop
    ensures ARangeCount(start + step, stop, step) < ARangeCount(start, stop, step)
  {
    DivShift(stop - start, step);
    DivNonNeg(stop - start, step);
    assert stop - (start + step) == (stop - start) - step;
  }

  lemma StepShift(start: real, step: real, k: int)
    ensures start + ((k + 1) as real) * step == (start + step) + (k as real) * step
  {
    assert ((k + 1) as real) * step == (k as real) * step + step;
  }

  /**
   * `np.arange(start, stop, step)` for a positive step: start, start+step, ...
   * while strictly below `stop`.
   */
  function ARange(start: real, stop: real, step: real): (r: seq<real>)
    requires step > 0.0
    ensures forall k :: 0 <= k < |r| ==> r[k] == start + (k as real) * step && r[k] < stop
    ensures start + (|r| as real) * step >= stop
    decreases ARangeCount(start, stop, step)
  {
    if start < stop then
      ARangeCountStep(start, stop, step);
      var rest := ARange(start + step, stop, step);
      ARangeCons(start, stop, step, rest);
      [start] + rest
    else
      assert start + (0 as real) * step == start;
      []
  }

  /** Prepending `start` to the range from `start + step` gives the range from `start`. */
  lemma ARangeCons(start: real, stop: real, step: real, rest: seq<real>)
    requires step > 0.0 && start < stop
    requires forall k :: 0 <= k < |rest| ==> rest[k] == (start + step) + (k as real) * step && rest[k] < stop
    requires (start + step) + (|rest| as real) * step >= stop
    ensures forall k :: 0 <= k < |[start] + rest| ==>
      ([start] + rest)[k] == start + (k as real) * step && ([start] + rest)[k] < stop
    ensures start + (|[start] + rest| as real) * step >= stop
  {
    var r := [start] + rest;
    forall k | 0 < k < |r|
      ensures r[k] == start + (k as real) * step && r[k] < stop
    {
      assert r[k] == rest[k - 1];
      StepShift(start, step, k - 1);
    }
    assert r[0] == start + (0 as real) * step;
    StepShift(start, step, |rest|);
  }

  /**
   * `np.arange(start, stop, step)` for a step of either sign: the values
   * `start + k * step` strictly before `stop`, in order; a zero step
   * raises ZeroDivisionError.
   */
  function ARangeAnyStep(start: real, stop: real, step: real): (r: Result<seq<real>>)
    ensures r.Fail? <==> step == 0.0
    ensures r.Fail? ==> r.err == ZeroDivisionError
    ensures r.Ok? ==> forall k :: 0 <= k < |r.value| ==> r.value[k] == start + (k as real) * step
    ensures r.Ok? && step > 0.0 ==>
      (forall k :: 0 <= k < |r.value| ==> r.value[k] < stop) && start + (|r.value| as real) * step >= stop
    ensures r.Ok? && step < 0.0 ==>
      (forall k :: 0 <= k < |r.value| ==> r.value[k] > stop) && start + (|r.value| as real) * step <= stop
  {
    if step > 0.0 then Ok(ARange(start, stop, step))
    else if step == 0.0 then Fail(ZeroDivisionError)
    else
      var a := ARange(-start, -stop, -step);
      var r := seq(|a|, k requires 0 <= k < |a| => -a[k]);
      assert forall k :: 0 <= k < |r| ==> r[k] == start + (k as real) * step by {
        forall k | 0 <= k < |r| ensures r[k] == start + (k as real) * step {
          NegatedStep(start, step, k);
        }
      }
      NegatedStep(start, step, |a|);
      Ok(r)
  }

  lemma NegatedStep(start: real, step: real, k: nat)
    ensures -(-start + (k as real) * -step) == start + (k as real) * step
  {
  }
}
