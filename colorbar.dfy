/**
 * Colour-scale key files (`util/colorbar.py`).
 *
 * A key file lists one colour per line: the first line gives the colour
 * below the first break, each following line a break value and the colour
 * from that break on, so that the last line gives the colour above the
 * last break.  `get_ColorScale` reads such a file into breaks, middle
 * colours and the two extension colours; `format_ColorScale` turns them
 * into legend labels and colours listed top to bottom.
 *
 * The file is given as its lines (each with its line terminator); the
 * named-colour table of `colorlist.py` is given as its (name, value)
 * entries in dictionary order.
 */
module ColorBar {
  import opened Wrappers
  import opened PyBase

  // ---------------------------------------------------------------
  // Python string splitting
  // ---------------------------------------------------------------

  predicate NoSpace(w: string)
  {
    forall i :: 0 <= i < |w| ==> !IsPySpace(w[i])
  }

  /** Length of the run of non-space characters at the head of `s`. */
  function WordLength(s: string): (k: nat)
    ensures k <= |s|
    ensures forall i :: 0 <= i < k ==> !IsPySpace(s[i])
    ensures k == |s| || IsPySpace(s[k])
  {
    if |s| == 0 || IsPySpace(s[0]) then 0 else 1 + WordLength(s[1..])
  }

  /** `s.split()`: the maximal runs of non-space characters, in order. */
  function Words(s: string): (r: seq<string>)
    ensures forall i :: 0 <= i < |r| ==> |r[i]| > 0 && NoSpace(r[i])
    decreases |s|
  {
    if |s| == 0 then []
    else if IsPySpace(s[0]) then Words(s[1..])
    else
      var k := WordLength(s);
      [s[..k]] + Words(s[k..])
  }

  /** `sep.join(ws)`. */
  function JoinWith(ws: seq<string>, sep: string): string
  {
    if |ws| == 0 then ""
    else if |ws| == 1 then ws[0]
    else ws[0] + sep + JoinWith(ws[1..], sep)
  }

  /** `s.split(c)`: the pieces between the occurrences of `c`. */
  function SplitOn(s: string, c: char): (r: seq<string>)
    ensures |r| >= 1
    ensures forall i :: 0 <= i < |r| ==> c !in r[i]
    ensures JoinWith(r, [c]) == s
    decreases |s|
  {
    match IndexOfChar(s, c)
    case None =>
      assert forall k :: 0 <= k < |s| ==> s[k] != c;
      [s]
    case Some(k) =>
      var rest := SplitOn(s[k + 1..], c);
      var r := [s[..k]] + rest;
      assert r[1..] == rest;
      assert s == s[..k] + [c] + s[k + 1..];
      r
  }

  lemma IndexOfFirst(a: string, c: char, b: string)
    requires c !in a
    ensures IndexOfChar(a + [c] + b, c) == Some(|a|)
  {
    var s := a + [c] + b;
    assert s[|a|] == c;
    assert forall k :: 0 <= k < |a| ==> s[k] == a[k];
  }

  /** Splitting a joined list gives the list back when no piece holds the separator. */
  lemma {:induction false} SplitJoin(ws: seq<string>, c: char)
    requires |ws| >= 1
    requires forall i :: 0 <= i < |ws| ==> c !in ws[i]
    ensures SplitOn(JoinWith(ws, [c]), c) == ws
  {
    if |ws| == 1 {
      IndexOfAbsent(ws[0], c);
    } else {
      var rest := JoinWith(ws[1..], [c]);
      assert JoinWith(ws, [c]) == ws[0] + [c] + rest;
      IndexOfFirst(ws[0], c, rest);
      var s := ws[0] + [c] + rest;
      assert s[..|ws[0]|] == ws[0];
      assert s[|ws[0]| + 1..] == rest;
      SplitJoin(ws[1..], c);
      assert ws == [ws[0]] + ws[1..];
    }
  }

  lemma WordLengthOfWord(w: string, t: string)
    requires NoSpace(w)
    requires t == [] || IsPySpace(t[0])
    ensures WordLength(w + t) == |w|
    decreases |w|
  {
    if |w| > 0 {
      assert (w + t)[1..] == w[1..] + t;
      WordLengthOfWord(w[1..], t);
    } else {
      assert w + t == t;
    }
  }

  /** `s.split()` undoes `' '.join(ws)` for non-empty words without white space. */
  lemma {:induction false} WordsOfJoin(ws: seq<string>)
    requires forall i :: 0 <= i < |ws| ==> |ws[i]| > 0 && NoSpace(ws[i])
    ensures Words(JoinWith(ws, " ")) == ws
  {
    if |ws| == 1 {
      var w := ws[0];
      WordLengthOfWord(w, []);
      assert w + [] == w;
      assert w[|w|..] == [];
      assert w[..|w|] == w;
    } else if |ws| > 1 {
      var w := ws[0];
      var rest := JoinWith(ws[1..], " ");
      var s := w + " " + rest;
      assert JoinWith(ws, " ") == s;
      WordLengthOfWord(w, " " + rest);
      assert s == w + (" " + rest);
      assert s[..|w|] == w;
      assert s[|w|..] == " " + rest;
      assert (" " + rest)[1..] == rest;
      WordsOfJoin(ws[1..]);
      assert ws == [w] + ws[1..];
    }
  }

  /** `x.split(';')` after `';'.join(x.split())`: the tokens of a key line. */
  function Tokens(x: string): seq<string>
  {
    SplitOn(JoinWith(Words(x), ";"), ';')
  }

  /**
   * The tokens of a line are its white-space separated words when no word
   * holds a ';'; a line of white space alone is the single empty token.
   */
  lemma TokensAreWords(x: string)
    ensures Words(x) == [] ==> Tokens(x) == [""]
    ensures Words(x) != [] && (forall i :: 0 <= i < |Words(x)| ==> ';' !in Words(x)[i]) ==>
      Tokens(x) == Words(x)
  {
    if Words(x) == [] {
      assert JoinWith([], ";") == "";
      IndexOfAbsent("", ';');
    } else if forall i :: 0 <= i < |Words(x)| ==> ';' !in Words(x)[i] {
      SplitJoin(Words(x), ';');
    }
  }

  // ---------------------------------------------------------------
  // Key lines
  // ---------------------------------------------------------------

  /** A line with its surrounding spaces removed (`l.strip(' ')`). */
  function Stripped(l: string): string
  {
    StripChar(l, ' ')
  }

  predicate IsComment(l: string)
  {
    StartsWith(Stripped(l), "#")
  }

  /** A line without surrounding spaces and trailing newlines. */
  function Content(l: string): string
  {
    RStripChar(Stripped(l), '\n')
  }

  /** A line is a key row when it is no comment, not blank and has more than two tokens. */
  predicate IsKeyLine(l: string)
  {
    !IsComment(l) && Content(l) != "" && |Tokens(Content(l))| > 2
  }

  /** The token rows of the key lines, in file order. */
  function KeyRows(lines: seq<string>): (rows: seq<seq<string>>)
    ensures |rows| <= |lines|
    ensures forall i :: 0 <= i < |rows| ==> |rows[i]| > 2
  {
    if |lines| == 0 then []
    else
      var l := lines[|lines| - 1];
      var rest := KeyRows(lines[..|lines| - 1]);
      if IsKeyLine(l) then rest + [Tokens(Content(l))] else rest
  }

  /** Key rows are found line by line: the rows of two pieces of a file are the rows of the file. */
  lemma {:induction false} KeyRowsAppend(a: seq<string>, b: seq<string>)
    ensures KeyRows(a + b) == KeyRows(a) + KeyRows(b)
    decreases |b|
  {
    if |b| == 0 {
      assert a + b == a;
    } else {
      var b0 := b[..|b| - 1];
      assert (a + b)[..|a + b| - 1] == a + b0;
      assert (a + b)[|a + b| - 1] == b[|b| - 1];
      KeyRowsAppend(a, b0);
    }
  }

  /** Comment and blank lines add no key row. */
  lemma KeyRowsSkip(lines: seq<string>, l: string)
    requires IsComment(l) || Content(l) == ""
    ensures KeyRows(lines + [l]) == KeyRows(lines)
  {
    assert (lines + [l])[..|lines|] == lines;
  }

  /** A row cut before its first token that starts with '!'. */
  function UntilBang(row: seq<string>): (r: seq<string>)
    ensures |r| <= |row| && r == row[..|r|]
    ensures forall i :: 0 <= i < |r| ==> !StartsWith(r[i], "!")
    ensures |r| < |row| ==> StartsWith(row[|r|], "!")
  {
    if |row| == 0 || StartsWith(row[0], "!") then []
    else [row[0]] + UntilBang(row[1..])
  }

  lemma {:induction false} UntilBangUnique(row: seq<string>, p: seq<string>)
    requires |p| <= |row| && p == row[..|p|]
    requires forall i :: 0 <= i < |p| ==> !StartsWith(p[i], "!")
    requires |p| < |row| ==> StartsWith(row[|p|], "!")
    ensures p == UntilBang(row)
  {
    var u := UntilBang(row);
    assert |p| == |u|;
  }

  /** The loop over rows cutting each at its first '!' token. */
  method TruncateRows(rows: seq<seq<string>>) returns (ck: seq<seq<string>>)
    ensures ck == seq(|rows|, i requires 0 <= i < |rows| => UntilBang(rows[i]))
  {
    ck := [];
    for n := 0 to |rows|
      invariant ck == seq(n, i requires 0 <= i < n => UntilBang(rows[i]))
    {
      var x := rows[n];
      var c := [];
      var m := 0;
      while m < |x|
        invariant 0 <= m <= |x|
        invariant c == x[..m]
        invariant forall i :: 0 <= i < m ==> !StartsWith(x[i], "!")
      {
        if StartsWith(x[m], "!") {
          break;
        }
        c := c + [x[m]];
        m := m + 1;
      }
      UntilBangUnique(x, c);
      ck := ck + [c];
    }
  }

  /**
   * A cut row as a (break, colour label, colour) triple: tokens from the
   * third on are joined with single spaces into the colour; a row of
   * fewer than two tokens gains one empty token.
   */
  function Widened(x: seq<string>): (r: seq<string>)
    ensures |x| >= 2 ==> |r| == 3 && r[..2] == x[..2] && r[2] == JoinWith(x[2..], " ")
    ensures |x| < 2 ==> r == x + [""]
  {
    if |x| == 3 then
      assert x[2..] == [x[2]];
      x
    else if |x| < 2 then x + [JoinWith([], " ")]
    else x[..2] + [JoinWith(x[2..], " ")]
  }

  /** The key table: the key rows, cut at '!' and widened to triples. */
  function KeyTable(lines: seq<string>): (t: seq<seq<string>>)
    ensures |t| == |KeyRows(lines)|
    ensures forall i :: 0 <= i < |t| ==> |t[i]| >= 1
  {
    var rows := KeyRows(lines);
    seq(|rows|, i requires 0 <= i < |rows| => Widened(UntilBang(rows[i])))
  }

  // ---------------------------------------------------------------
  // Breaks
  // ---------------------------------------------------------------

  datatype Breaks = IntBreaks(ints: seq<int>) | FloatBreaks(reals: seq<real>)

  function BreakCount(b: Breaks): nat
  {
    match b
    case IntBreaks(xs) => |xs|
    case FloatBreaks(xs) => |xs|
  }

  /** The first token of every row after the first. */
  function BreakStrings(ckey: seq<seq<string>>): (bs: seq<string>)
    requires forall i :: 0 <= i < |ckey| ==> |ckey[i]| >= 1
    ensures |ckey| > 0 ==> |bs| == |ckey| - 1
  {
    if |ckey| == 0 then [] else seq(|ckey| - 1, i requires 0 <= i < |ckey| - 1 => ckey[i + 1][0])
  }

  /** Every string converted by `parse`, or None at the first that does not convert. */
  function ParseAll<T>(bs: seq<string>, parse: string -> Option<T>): (r: Option<seq<T>>)
    ensures r.Some? <==> forall i :: 0 <= i < |bs| ==> parse(bs[i]).Some?
    ensures r.Some? ==> |r.value| == |bs| && forall i :: 0 <= i < |bs| ==> parse(bs[i]) == Some(r.value[i])
  {
    if |bs| == 0 then Some([])
    else match (ParseAll(bs[..|bs| - 1], parse), parse(bs[|bs| - 1]))
      case (Some(xs), Some(x)) =>
        assert forall i :: 0 <= i < |bs| - 1 ==> bs[..|bs| - 1][i] == bs[i];
        Some(xs + [x])
      case _ =>
        assert forall i :: 0 <= i < |bs| - 1 ==> bs[..|bs| - 1][i] == bs[i];
        None
  }

  predicate AnyDot(bs: seq<string>)
  {
    exists i :: 0 <= i < |bs| && '.' in bs[i]
  }

  /**
   * The breaks as numbers: all floats when any break holds a '.', all
   * ints otherwise; a break that does not convert raises ValueError.
   */
  function ParseBreaks(bs: seq<string>): (r: Result<Breaks>)
    ensures r.Fail? ==> r.err == ValueError
    ensures r.Fail? <==>
      if AnyDot(bs) then exists i :: 0 <= i < |bs| && ParseFloat(bs[i]).None?
      else exists i :: 0 <= i < |bs| && ParseInt(bs[i]).None?
    ensures r.Ok? ==> (r.value.FloatBreaks? <==> AnyDot(bs)) && BreakCount(r.value) == |bs|
    ensures r.Ok? && r.value.IntBreaks? ==>
      forall i :: 0 <= i < |bs| ==> ParseInt(bs[i]) == Some(r.value.ints[i])
    ensures r.Ok? && r.value.FloatBreaks? ==>
      forall i :: 0 <= i < |bs| ==> ParseFloat(bs[i]) == Some(r.value.reals[i])
  {
    if AnyDot(bs) then
      match ParseAll(bs, ParseFloat)
      case Some(xs) => Ok(FloatBreaks(xs))
      case None => Fail(ValueError)
    else
      match ParseAll(bs, ParseInt)
      case Some(xs) => Ok(IntBreaks(xs))
      case None => Fail(ValueError)
  }

  // ---------------------------------------------------------------
  // Colours
  // ---------------------------------------------------------------

  function LowerChar(c: char): char
  {
    if 'A' <= c <= 'Z' then (c as int + 32) as char else c
  }

  /** `s.lower()` on ASCII letters. */
  function Lower(s: string): (r: string)
    ensures |r| == |s|
    ensures forall i :: 0 <= i < |s| ==> r[i] == LowerChar(s[i]) && !('A' <= r[i] <= 'Z')
  {
    seq(|s|, i requires 0 <= i < |s| => LowerChar(s[i]))
  }

  /**
   * The named-colour table keyed by lower-cased name; of two names that
   * lower-case alike the later entry wins.
   */
  function LowerKeys(named: seq<(string, string)>): (m: map<string, string>)
    ensures m.Keys == set e | e in named :: Lower(e.0)
    ensures |named| > 0 ==> m[Lower(named[|named| - 1].0)] == named[|named| - 1].1
  {
    if |named| == 0 then map[]
    else
      var p := named[..|named| - 1];
      var last := named[|named| - 1];
      assert named == p + [last];
      assert (set e | e in named :: Lower(e.0)) == (set e | e in p :: Lower(e.0)) + {Lower(last.0)};
      LowerKeys(p)[Lower(last.0) := last.1]
  }

  /** A colour token: a '#' value passes unchanged, a known name becomes its value, anything else stays. */
  function ColorOf(k: string, named: map<string, string>): (c: string)
    ensures StartsWith(k, "#") ==> c == k
    ensures !StartsWith(k, "#") && k in named ==> c == named[k]
    ensures k !in named ==> c == k
  {
    if !StartsWith(k, "#") && k in named then named[k] else k
  }

  /** The loops that map each colour token through the named-colour table. */
  method MapColors(ks: seq<string>, named: map<string, string>) returns (cs: seq<string>)
    ensures cs == seq(|ks|, i requires 0 <= i < |ks| => ColorOf(ks[i], named))
  {
    cs := [];
    for n := 0 to |ks|
      invariant cs == seq(n, i requires 0 <= i < n => ColorOf(ks[i], named))
    {
      var k := ks[n];
      if !StartsWith(k, "#") {
        if k in named {
          k := named[k];
        }
      }
      cs := cs + [k];
    }
  }

  // ---------------------------------------------------------------
  // get_ColorScale
  // ---------------------------------------------------------------

  /** Breaks, the colours between them, and the colours below the first and above the last break. */
  datatype ColorScale = ColorScale(breaks: Breaks, colors: seq<string>, colorsExt: seq<string>)

  /** The rows strictly between the first and the last (`ckey[1:-1]`). */
  function Middle(ckey: seq<seq<string>>): (m: seq<seq<string>>)
    ensures |ckey| >= 2 ==> |m| == |ckey| - 2 && forall i :: 0 <= i < |m| ==> m[i] == ckey[i + 1]
    ensures |ckey| < 2 ==> m == []
  {
    if |ckey| >= 2 then ckey[1..|ckey| - 1] else []
  }

  predicate AllTriples(rows: seq<seq<string>>)
  {
    forall i :: 0 <= i < |rows| ==> |rows[i]| >= 3
  }

  /**
   * The colours of a key table whose breaks converted to `b`: the third
   * token of the first and last rows, and of the rows between them,
   * lower-cased and looked up; a row without a third token raises
   * IndexError.
   */
  function ScaleOf(ckey: seq<seq<string>>, b: Breaks, named: seq<(string, string)>): (r: Result<ColorScale>)
    ensures r.Fail? ==> r.err == IndexError
    ensures r.Ok? ==> |ckey| >= 1 && |r.value.colorsExt| == 2 && |r.value.colors| == |Middle(ckey)|
    ensures r.Ok? ==> r.value.breaks == b
  {
    if |ckey| == 0 || |ckey[0]| < 3 || |ckey[|ckey| - 1]| < 3 || !AllTriples(Middle(ckey)) then Fail(IndexError)
    else
      var middle := Middle(ckey);
      var d := LowerKeys(named);
      var kolExt := [Lower(ckey[0][2]), Lower(ckey[|ckey| - 1][2])];
      var kol := seq(|middle|, i requires 0 <= i < |middle| => Lower(middle[i][2]));
      Ok(ColorScale(b,
        seq(|kol|, i requires 0 <= i < |kol| => ColorOf(kol[i], d)),
        seq(2, i requires 0 <= i < 2 => ColorOf(kolExt[i], d))))
  }

  function ColorScaleSpec(lines: seq<string>, named: seq<(string, string)>): (r: Result<ColorScale>)
    ensures r.Fail? ==> r.err == ValueError || r.err == IndexError
    ensures r.Ok? ==> |KeyRows(lines)| >= 1 && |r.value.colorsExt| == 2
    ensures r.Ok? ==> BreakCount(r.value.breaks) == |KeyRows(lines)| - 1
    ensures r.Ok? ==> |r.value.colors| == |Middle(KeyTable(lines))|
  {
    var ckey := KeyTable(lines);
    match ParseBreaks(BreakStrings(ckey))
    case Fail(e) => Fail(e)
    case Ok(b) => ScaleOf(ckey, b, named)
  }

  /** Every row has a third token exactly when the first, the last and those between do. */
  lemma TriplesSplit(ckey: seq<seq<string>>)
    requires |ckey| >= 1
    ensures AllTriples(ckey) <==> |ckey[0]| >= 3 && |ckey[|ckey| - 1]| >= 3 && AllTriples(Middle(ckey))
  {
    if !AllTriples(ckey) {
      var i :| 0 <= i < |ckey| && |ckey[i]| < 3;
      if 0 < i < |ckey| - 1 {
        assert Middle(ckey)[i - 1] == ckey[i];
      }
    }
  }

  /**
   * When the breaks convert, the scale fails with IndexError exactly when
   * the file has no key row or some row keeps fewer than two tokens
   * before its first '!' token.
   */
  lemma ColorScaleIndexError(lines: seq<string>, named: seq<(string, string)>)
    ensures ColorScaleSpec(lines, named) == Fail(ValueError) <==>
      ParseBreaks(BreakStrings(KeyTable(lines))).Fail?
    ensures ColorScaleSpec(lines, named) == Fail(IndexError) <==>
      ParseBreaks(BreakStrings(KeyTable(lines))).Ok? &&
      (|KeyRows(lines)| == 0 || exists i :: 0 <= i < |KeyRows(lines)| && |UntilBang(KeyRows(lines)[i])| < 2)
  {
    var rows := KeyRows(lines);
    var ckey := KeyTable(lines);
    assert forall i :: 0 <= i < |ckey| ==> ckey[i] == Widened(UntilBang(rows[i]));
    assert AllTriples(ckey) <==> forall i :: 0 <= i < |rows| ==> |UntilBang(rows[i])| >= 2;
    if |ckey| >= 1 {
      TriplesSplit(ckey);
    }
  }

  /**
   * With more than one key row there is one middle colour fewer than
   * breaks; a single key row gives no break, no middle colour and its own
   * colour on both sides.
   */
  lemma ColorScaleCounts(lines: seq<string>, named: seq<(string, string)>)
    requires ColorScaleSpec(lines, named).Ok?
    ensures var s := ColorScaleSpec(lines, named).value;
      |KeyRows(lines)| >= 2 ==> |s.colors| + 1 == BreakCount(s.breaks)
    ensures var s := ColorScaleSpec(lines, named).value;
      |KeyRows(lines)| == 1 ==> |s.colors| == 0 && BreakCount(s.breaks) == 0 && s.colorsExt[0] == s.colorsExt[1]
  {
    var ckey := KeyTable(lines);
    var b := ParseBreaks(BreakStrings(ckey)).value;
    assert ColorScaleSpec(lines, named) == ScaleOf(ckey, b, named);
    if |ckey| == 1 {
      assert ckey[|ckey| - 1] == ckey[0];
    }
  }

  /** `get_ColorScale` on the lines of a key file. */
  method GetColorScale(lines: seq<string>, named: seq<(string, string)>) returns (r: Result<ColorScale>)
    ensures r == ColorScaleSpec(lines, named)
  {
    var rows := KeyRows(lines);
    var ck := TruncateRows(rows);
    var ckey := seq(|ck|, i requires 0 <= i < |ck| => Widened(ck[i]));
    assert ckey == KeyTable(lines);
    var breaks := ParseBreaks(BreakStrings(ckey));
    if breaks.Fail? {
      return Fail(breaks.err);
    }
    r := ScaleFromTable(ckey, breaks.value, named);
  }

  /** The colour half of `get_ColorScale`, after the breaks have converted. */
  method ScaleFromTable(ckey: seq<seq<string>>, b: Breaks, named: seq<(string, string)>) returns (r: Result<ColorScale>)
    ensures r == ScaleOf(ckey, b, named)
  {
    if |ckey| == 0 || |ckey[0]| < 3 || |ckey[|ckey| - 1]| < 3 {
      return Fail(IndexError);
    }
    var middle := Middle(ckey);
    if !AllTriples(middle) {
      return Fail(IndexError);
    }
    var kolExt := [Lower(ckey[0][2]), Lower(ckey[|ckey| - 1][2])];
    var kol := seq(|middle|, i requires 0 <= i < |middle| => Lower(middle[i][2]));
    var d := LowerKeys(named);
    var colorsExt := MapColors(kolExt, d);
    var colors := MapColors(kol, d);
    r := Ok(ColorScale(b, colors, colorsExt));
  }

  // ---------------------------------------------------------------
  // format_ColorScale
  // ---------------------------------------------------------------

  /** Legend labels and colours, listed from the top of the scale down. */
  datatype Legend = Legend(labels: seq<string>, colors: seq<string>)

  /** `str(x)` of each break; floats are rendered by `floatRepr`. */
  function BreakLabels(b: Breaks, floatRepr: real -> string): (r: seq<string>)
    ensures |r| == BreakCount(b)
  {
    match b
    case IntBreaks(xs) => seq(|xs|, i requires 0 <= i < |xs| => IntToString(xs[i]))
    case FloatBreaks(xs) => seq(|xs|, i requires 0 <= i < |xs| => floatRepr(xs[i]))
  }

  /**
   * `format_ColorScale`: the upper extension colour, the colours from the
   * top down, then the lower extension colour; labels are the breaks from
   * the top down.  Fewer than two extension colours raise IndexError.
   */
  method FormatColorScale(breaks: Breaks, colors: seq<string>, colorsExt: seq<string>,
                          floatRepr: real -> string) returns (r: Result<Legend>)
    ensures r.Fail? <==> |colorsExt| < 2
    ensures r.Fail? ==> r.err == IndexError
    ensures r.Ok? ==> (|colorsExt| >= 2 &&
      r.value.colors == [colorsExt[1]] + Reversed(colors) + [colorsExt[0]])
    ensures r.Ok? ==> r.value.labels == Reversed(BreakLabels(breaks, floatRepr))
  {
    var n := |colors| + 2;
    var kol := new string[n];
    for j := 0 to n
      invariant j >= 1 ==> |colorsExt| >= 1
      invariant j == n ==> |colorsExt| >= 2
      invariant forall k :: 0 <= k < j ==>
        kol[k] == (if k == 0 then colorsExt[0] else if k == n - 1 then colorsExt[1] else colors[k - 1])
    {
      if j == 0 {
        if |colorsExt| < 1 {
          return Fail(IndexError);
        }
        kol[j] := colorsExt[0];
      } else if j == n - 1 {
        if |colorsExt| < 2 {
          return Fail(IndexError);
        }
        kol[j] := colorsExt[1];
      } else {
        kol[j] := colors[j - 1];
      }
    }
    assert kol[..] == [colorsExt[0]] + colors + [colorsExt[1]];
    Reverse(kol);
    r := Ok(Legend(Reversed(BreakLabels(breaks, floatRepr)), kol[..]));
  }

  /** `list.reverse()` in place. */
  method Reverse(a: array<string>)
    modifies a
    ensures a[..] == Reversed(old(a[..]))
  {
    var n := a.Length;
    var i := 0;
    while i < n / 2
      invariant 0 <= i <= n / 2
      invariant forall k :: 0 <= k < i ==> a[k] == old(a[n - 1 - k]) && a[n - 1 - k] == old(a[k])
      invariant forall k :: i <= k < n - i ==> a[k] == old(a[k])
    {
      a[i], a[n - 1 - i] := a[n - 1 - i], a[i];
      i := i + 1;
    }
  }

  /** Integer labels read back as the breaks, from the top down. */
  lemma IntLabelsReadBack(xs: seq<int>, floatRepr: real -> string)
    ensures var labels := Reversed(BreakLabels(IntBreaks(xs), floatRepr));
      forall i :: 0 <= i < |xs| ==> ParseInt(labels[i]) == Some(xs[|xs| - 1 - i])
  {
    forall i | 0 <= i < |xs|
      ensures ParseInt(Reversed(BreakLabels(IntBreaks(xs), floatRepr))[i]) == Some(xs[|xs| - 1 - i])
    {
      ParseIntOfIntToString(xs[|xs| - 1 - i]);
    }
  }
}
