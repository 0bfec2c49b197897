/**
 * util/radarDateTime.py: the scan times of an MDV file, the rounding of a
 * time down to the five-minute cadence, and the choice of the MDV file of
 * a time.  Times are integer seconds on a UTC time line whose day 0 starts
 * at second 0; the day directory `YYYYMMDD` of a time is its day number,
 * and the directory listing (`os.listdir`, None where `os.path.isdir`
 * fails) is the parameter `dirs`.  Parsing and formatting of date strings
 * are not modelled: a function that turns the origin token of the time
 * units into a time is a parameter.
 */
module RadarDateTime {
  import opened Wrappers
  import opened PyBase

  const Minute: int := 60
  const FiveMinutes: int := 300
  const Hour: int := 3600
  const Day: int := 86400

  // ---------------------------------------------------------------
  // round_5minutes
  // ---------------------------------------------------------------

  /**
   * `round_5minutes(time)`: the minute is brought down to a multiple of 5
   * (`mn - mn % 5`), date and hour are kept and the seconds dropped; the
   * result is the last five-minute mark at or before the time.
   */
  function Round5Minutes(t: int): (r: int)
    ensures r % FiveMinutes == 0 && r <= t < r + FiveMinutes
    ensures r / Hour == t / Hour
  {
    var mn := (t % Hour) / Minute;
    var divm := mn % 5;
    var m := if divm != 0 then mn - divm else mn;
    var r := (t / Hour) * Hour + m * Minute;
    assert t == (t / Hour) * Hour + mn * Minute + (t % Hour) % Minute;
    assert m == 5 * (mn / 5);
    assert r == FiveMinutes * (12 * (t / Hour) + mn / 5);
    r
  }

  /** Rounding a time already on the cadence leaves it, and rounding twice is rounding once. */
  lemma Round5MinutesIdempotent(t: int)
    ensures t % FiveMinutes == 0 ==> Round5Minutes(t) == t
    ensures Round5Minutes(Round5Minutes(t)) == Round5Minutes(t)
  {
    var r := Round5Minutes(t);
    if t % FiveMinutes == 0 {
      RoundUnique(t, t);
    }
    RoundUnique(r, r);
  }

  /** The five-minute mark at or before a time is unique. */
  lemma RoundUnique(t: int, r: int)
    requires r % FiveMinutes == 0 && r <= t < r + FiveMinutes
    ensures Round5Minutes(t) == r
  {
    var q := Round5Minutes(t);
    var a, b := q / FiveMinutes, r / FiveMinutes;
    assert q == FiveMinutes * a && r == FiveMinutes * b;
    assert -FiveMinutes < FiveMinutes * (a - b) < FiveMinutes;
  }

  // ---------------------------------------------------------------
  // get_mdv_time, polar_mdv_last_time, grid_mdv_time
  // ---------------------------------------------------------------

  /** The length of the leading run of non-space characters. */
  function WordLength(s: string): (n: nat)
    ensures n <= |s|
    ensures forall i :: 0 <= i < n ==> !IsPySpace(s[i])
    ensures n < |s| ==> IsPySpace(s[n])
  {
    if |s| == 0 || IsPySpace(s[0]) then 0 else WordLength(s[1..]) + 1
  }

  /** `s.split()`: the maximal runs of non-space characters, in order. */
  function Tokens(s: string): (r: seq<string>)
    ensures forall k :: 0 <= k < |r| ==> |r[k]| > 0 && forall i :: 0 <= i < |r[k]| ==> !IsPySpace(r[k][i])
    ensures |r| == 0 <==> forall i :: 0 <= i < |s| ==> IsPySpace(s[i])
    decreases |s|
  {
    if |s| == 0 then []
    else if IsPySpace(s[0]) then
      var r := Tokens(s[1..]);
      assert forall i :: 1 <= i < |s| ==> s[i] == s[1..][i - 1];
      r
    else
      var n := WordLength(s);
      [s[..n]] + Tokens(s[n..])
  }

  /**
   * The scan times of a file: the origin (the last token of
   * `time['units']`, read by `parseOrigin`) plus each offset of
   * `time['data']`.  Units without a token raise IndexError, an origin that
   * does not parse ValueError.
   */
  function MdvTimes(units: string, offsets: seq<int>, parseOrigin: string -> Option<int>): (r: Result<seq<int>>)
    ensures Tokens(units) == [] ==> r == Fail(IndexError)
    ensures Tokens(units) != [] && parseOrigin(Tokens(units)[|Tokens(units)| - 1]).None? ==> r == Fail(ValueError)
    ensures r.Ok? ==>
      var origin := parseOrigin(Tokens(units)[|Tokens(units)| - 1]).value;
      |r.value| == |offsets| && forall k :: 0 <= k < |offsets| ==> r.value[k] == origin + offsets[k]
  {
    var tokens := Tokens(units);
    if |tokens| == 0 then Fail(IndexError)
    else
      match parseOrigin(tokens[|tokens| - 1])
      case None => Fail(ValueError)
      case Some(origin) => Ok(seq(|offsets|, k requires 0 <= k < |offsets| => origin + offsets[k]))
  }

  /** `polar_mdv_last_time`: the last scan time (IndexError when there is none). */
  function PolarMdvLastTime(units: string, offsets: seq<int>, parseOrigin: string -> Option<int>): (r: Result<int>)
    ensures MdvTimes(units, offsets, parseOrigin).Fail? ==> r == Fail(MdvTimes(units, offsets, parseOrigin).err)
    ensures MdvTimes(units, offsets, parseOrigin).Ok? && offsets == [] ==> r == Fail(IndexError)
    ensures r.Ok? ==> offsets != [] && r.value == MdvTimes(units, offsets, parseOrigin).value[|offsets| - 1]
  {
    match MdvTimes(units, offsets, parseOrigin)
    case Fail(e) => Fail(e)
    case Ok(ts) => if |ts| == 0 then Fail(IndexError) else Ok(ts[|ts| - 1])
  }

  /** `grid_mdv_time`: the first scan time (IndexError when there is none). */
  function GridMdvTime(units: string, offsets: seq<int>, parseOrigin: string -> Option<int>): (r: Result<int>)
    ensures MdvTimes(units, offsets, parseOrigin).Fail? ==> r == Fail(MdvTimes(units, offsets, parseOrigin).err)
    ensures MdvTimes(units, offsets, parseOrigin).Ok? && offsets == [] ==> r == Fail(IndexError)
    ensures r.Ok? ==> offsets != [] && r.value == MdvTimes(units, offsets, parseOrigin).value[0]
  {
    match MdvTimes(units, offsets, parseOrigin)
    case Fail(e) => Fail(e)
    case Ok(ts) => if |ts| == 0 then Fail(IndexError) else Ok(ts[0])
  }

  /** A word with no space is one whole run. */
  lemma {:induction false} WordLengthOfWord(w: string)
    requires forall i :: 0 <= i < |w| ==> !IsPySpace(w[i])
    ensures WordLength(w) == |w|
  {
    if |w| > 0 {
      WordLengthOfWord(w[1..]);
    }
  }

  /** A space after `p` ends the leading run of `p` where it would have ended. */
  lemma {:induction false} WordLengthBeforeSpace(p: string, x: string)
    requires |x| > 0 && IsPySpace(x[0])
    ensures WordLength(p + x) == WordLength(p)
  {
    if |p| > 0 && !IsPySpace(p[0]) {
      assert (p + x)[1..] == p[1..] + x;
      WordLengthBeforeSpace(p[1..], x);
    }
  }

  /** A space and a word after any text add that word as the last token. */
  lemma {:induction false} TokensAppendWord(p: string, tok: string)
    requires |tok| > 0 && forall i :: 0 <= i < |tok| ==> !IsPySpace(tok[i])
    ensures Tokens(p + " " + tok) == Tokens(p) + [tok]
    decreases |p|
  {
    var s := p + " " + tok;
    if |p| == 0 {
      assert s[1..] == tok;
      WordLengthOfWord(tok);
      assert tok[..|tok|] == tok && tok[|tok|..] == [];
      assert Tokens(s) == Tokens(tok) == [tok];
    } else if IsPySpace(p[0]) {
      assert s[1..] == p[1..] + " " + tok;
      TokensAppendWord(p[1..], tok);
      assert Tokens(s) == Tokens(s[1..]);
    } else {
      var n := WordLength(p);
      assert s == p + (" " + tok);
      WordLengthBeforeSpace(p, " " + tok);
      assert s[..n] == p[..n];
      assert s[n..] == p[n..] + " " + tok;
      TokensAppendWord(p[n..], tok);
      assert Tokens(s) == [p[..n]] + Tokens(p[n..] + " " + tok);
    }
  }

  /**
   * For units `"<anything> <origin>"` the last scan time is the origin
   * plus the last offset and the first one the origin plus the first
   * offset.
   */
  lemma FirstAndLastTimes(p: string, tok: string, origin: int, offsets: seq<int>, parseOrigin: string -> Option<int>)
    requires |tok| > 0 && forall i :: 0 <= i < |tok| ==> !IsPySpace(tok[i])
    requires parseOrigin(tok) == Some(origin) && offsets != []
    ensures PolarMdvLastTime(p + " " + tok, offsets, parseOrigin) == Ok(origin + offsets[|offsets| - 1])
    ensures GridMdvTime(p + " " + tok, offsets, parseOrigin) == Ok(origin + offsets[0])
  {
    TokensAppendWord(p, tok);
  }

  // ---------------------------------------------------------------
  // Directory search of mdv_end_time_file and mdv_nearest_time_file
  // ---------------------------------------------------------------

  /** The start of the hour a time falls in: the directory and file prefix the search looks at. */
  function HourStart(t: int): (h: int)
    ensures h % Hour == 0 && h <= t < h + Hour
  {
    t - t % Hour
  }

  /** The distinct hours (`list(set(heure))`) of the window points. */
  function HourSet(points: seq<int>): set<int>
  {
    set p | p in points :: HourStart(p)
  }

  function DigitChar(d: int): char
    requires 0 <= d < 10
  {
    "0123456789"[d]
  }

  /** The two-digit hour of an hour start (`strftime("%H")`). */
  function HourPrefix(h: int): (s: string)
    ensures |s| == 2 && IsDigitChar(s[0]) && IsDigitChar(s[1])
  {
    var hh := (h % Day) / Hour;
    [DigitChar(hh / 10), DigitChar(hh % 10)]
  }

  /**
   * `re.match('^' + HH + '.+\\.mdv$', f)` with the `$` at the end of the
   * name (`tail` empty) or before a final newline (`tail == "\n"`): the hour
   * prefix, at least one character other than a newline, `.mdv`, then `tail`.
   */
  predicate MatchesWith(name: string, prefix: string, tail: string)
  {
    |name| >= |prefix| + 5 + |tail| && name[..|prefix|] == prefix &&
    name[|name| - 4 - |tail|..] == ".mdv" + tail &&
    forall i :: |prefix| <= i < |name| - 4 - |tail| ==> name[i] != '\n'
  }

  /** The names the hour pattern accepts: `$` matches at the end and before a final newline. */
  predicate MatchesHour(name: string, prefix: string)
  {
    MatchesWith(name, prefix, "") || MatchesWith(name, prefix, "\n")
  }

  /**
   * `os.path.splitext` of a matching name: the name without its last
   * extension, which is ".mdv" or, before a final newline, ".mdv\n".
   */
  function Stem(name: string, prefix: string): (r: string)
    requires MatchesHour(name, prefix)
    ensures name == r + ".mdv" || name == r + ".mdv\n"
    ensures StartsWith(r, prefix) && |r| > |prefix|
  {
    var e := if MatchesWith(name, prefix, "\n") then 5 else 4;
    assert name[..|name| - e][..|prefix|] == prefix;
    assert name == name[..|name| - e] + name[|name| - e..];
    name[..|name| - e]
  }

  /** A matching file of the directory of `day`: `os.path.splitext(d + f)[0]`, kept as the day and the stem. */
  datatype Candidate = Candidate(day: int, stem: string)

  /** The matching names of one listing, in listing order. */
  function Matching(day: int, prefix: string, names: seq<string>): (r: seq<Candidate>)
    ensures |r| <= |names|
    ensures forall c :: c in r ==> c.day == day && StartsWith(c.stem, prefix) && |c.stem| > |prefix|
  {
    if |names| == 0 then []
    else
      var rest := Matching(day, prefix, names[1..]);
      if MatchesHour(names[0], prefix) then [Candidate(day, Stem(names[0], prefix))] + rest
      else rest
  }

  /** Every matching name of the listing gives a candidate. */
  lemma {:induction false} MatchingComplete(day: int, prefix: string, names: seq<string>, f: string)
    requires f in names && MatchesHour(f, prefix)
    ensures Candidate(day, Stem(f, prefix)) in Matching(day, prefix, names)
  {
    if f != names[0] {
      MatchingComplete(day, prefix, names[1..], f);
    }
  }

  /** Only matching names give candidates. */
  lemma {:induction false} MatchingSound(day: int, prefix: string, names: seq<string>, c: Candidate)
    requires c in Matching(day, prefix, names)
    ensures exists f :: f in names && MatchesHour(f, prefix) && c.stem == Stem(f, prefix)
  {
    if !(MatchesHour(names[0], prefix) && c == Candidate(day, Stem(names[0], prefix))) {
      MatchingSound(day, prefix, names[1..], c);
      var f :| f in names[1..] && MatchesHour(f, prefix) && c.stem == Stem(f, prefix);
      assert f in names;
    }
  }

  /** A name with a final newline still matches, and its stem drops ".mdv\n". */
  lemma MatchingBeforeNewline(day: int)
    ensures Matching(day, "12", ["123000.mdv\n", "123000.mdv.bak", "12.mdv"]) == [Candidate(day, "123000")]
  {
    assert MatchesWith("123000.mdv\n", "12", "\n");
    assert !MatchesHour("123000.mdv.bak", "12") by {
      assert "123000.mdv.bak"[10..] != ".mdv";
      assert "123000.mdv.bak"[9..] != ".mdv\n";
    }
    assert !MatchesHour("12.mdv", "12");
    var names := ["123000.mdv\n", "123000.mdv.bak", "12.mdv"];
    assert Matching(day, "12", names[2..]) == [];
    assert Matching(day, "12", names[1..]) == [] by { assert names[1..][1..] == names[2..]; }
    assert Stem(names[0], "12") == "123000";
  }

  /** The candidates found in the directory of one hour (none when the day directory does not exist). */
  function InHour(dirs: int -> Option<seq<string>>, h: int): (r: seq<Candidate>)
    ensures forall c :: c in r ==> c.day == h / Day && StartsWith(c.stem, HourPrefix(h)) && |c.stem| > 2
  {
    match dirs(h / Day)
    case None => []
    case Some(names) => Matching(h / Day, HourPrefix(h), names)
  }

  /** `dt`: the candidates of the hours, hour after hour. */
  function Collected(dirs: int -> Option<seq<string>>, hours: seq<int>): (r: seq<Candidate>)
  {
    if |hours| == 0 then [] else Collected(dirs, hours[..|hours| - 1]) + InHour(dirs, hours[|hours| - 1])
  }

  /** The loop over the hour directories, accumulating `dt`. */
  method CollectCandidates(dirs: int -> Option<seq<string>>, hours: seq<int>) returns (dt: seq<Candidate>)
    ensures dt == Collected(dirs, hours)
  {
    dt := [];
    var i := 0;
    while i < |hours|
      invariant 0 <= i <= |hours|
      invariant dt == Collected(dirs, hours[..i])
    {
      assert hours[..i + 1][..i] == hours[..i];
      dt := dt + InHour(dirs, hours[i]);
      i := i + 1;
    }
    assert hours[..i] == hours;
  }

  /** One position of a `strptime` pattern: a character in `[lo, hi]`. */
  datatype CharRange = CharRange(lo: char, hi: char)

  /** `\d`. */
  const AnyDigit: CharRange := CharRange('0', '9')

  /** `%H`: `2[0-3]|[0-1]\d|\d`, the alternatives in the order the regular expression tries them. */
  const HourAlts: seq<seq<CharRange>> :=
    [[CharRange('2', '2'), CharRange('0', '3')], [CharRange('0', '1'), AnyDigit], [AnyDigit]]

  /** `%M`: `[0-5]\d|\d`. */
  const MinuteAlts: seq<seq<CharRange>> := [[CharRange('0', '5'), AnyDigit], [AnyDigit]]

  /** `%S`: `6[0-1]|[0-5]\d|\d`. */
  const SecondAlts: seq<seq<CharRange>> :=
    [[CharRange('6', '6'), CharRange('0', '1')], [CharRange('0', '5'), AnyDigit], [AnyDigit]]

  /** `%H%M%S`, the clock part of `'%Y%m%d%H%M%S'`. */
  const ClockFormat: seq<seq<seq<CharRange>>> := [HourAlts, MinuteAlts, SecondAlts]

  /** The pattern `p` matches `s` at `i`. */
  predicate Fits(s: string, i: nat, p: seq<CharRange>)
  {
    i + |p| <= |s| && forall k :: 0 <= k < |p| ==> p[k].lo <= s[i + k] <= p[k].hi
  }

  /** The directives `ds` match `s` from `i` on when directive `j` takes its alternative `ch[j]`. */
  predicate Consumes(s: string, i: nat, ds: seq<seq<seq<CharRange>>>, ch: seq<nat>)
    decreases |ds|
  {
    |ch| == |ds| &&
    (|ds| == 0 ||
     (ch[0] < |ds[0]| && Fits(s, i, ds[0][ch[0]]) && Consumes(s, i + |ds[0][ch[0]]|, ds[1..], ch[1..])))
  }

  /** `a` comes before `b` in the order in which backtracking tries the choices. */
  predicate Before(a: seq<nat>, b: seq<nat>)
    decreases |a|
  {
    |a| > 0 && |b| > 0 && (a[0] < b[0] || (a[0] == b[0] && Before(a[1..], b[1..])))
  }

  /**
   * `re.match` of the directives `ds` at `i`: the alternatives of each
   * directive are tried in order, and a later directive that cannot match
   * sends the search back to the next alternative of an earlier one
   * (FirstMatchIsFirst). The match need not reach the end of `s`.
   */
  function FirstMatch(s: string, i: nat, ds: seq<seq<seq<CharRange>>>): (r: Option<seq<nat>>)
    ensures r.Some? ==> Consumes(s, i, ds, r.value)
    decreases |ds|, 1, 0
  {
    if |ds| == 0 then Some([]) else TryFrom(s, i, ds, 0)
  }

  /** Backtracking through the alternatives `k`, `k + 1`, … of the first directive. */
  function TryFrom(s: string, i: nat, ds: seq<seq<seq<CharRange>>>, k: nat): (r: Option<seq<nat>>)
    requires |ds| > 0 && k <= |ds[0]|
    ensures r.Some? ==> Consumes(s, i, ds, r.value) && k <= r.value[0]
    decreases |ds|, 0, |ds[0]| - k
  {
    if k == |ds[0]| then None
    else if Fits(s, i, ds[0][k]) then
      match FirstMatch(s, i + |ds[0][k]|, ds[1..])
      case Some(rest) =>
        assert ([k] + rest)[1..] == rest;
        Some([k] + rest)
      case None => TryFrom(s, i, ds, k + 1)
    else TryFrom(s, i, ds, k + 1)
  }

  /**
   * The match found is the first matching choice in backtracking order, and
   * there is none only when no choice matches.
   */
  lemma {:induction false} FirstMatchIsFirst(s: string, i: nat, ds: seq<seq<seq<CharRange>>>)
    ensures FirstMatch(s, i, ds).Some? ==> forall ch :: Consumes(s, i, ds, ch) ==> !Before(ch, FirstMatch(s, i, ds).value)
    ensures FirstMatch(s, i, ds).None? ==> forall ch :: !Consumes(s, i, ds, ch)
    decreases |ds|, 1, 0
  {
    if |ds| > 0 {
      TryFromIsFirst(s, i, ds, 0);
    }
  }

  lemma {:induction false} TryFromIsFirst(s: string, i: nat, ds: seq<seq<seq<CharRange>>>, k: nat)
    requires |ds| > 0 && k <= |ds[0]|
    ensures var r := TryFrom(s, i, ds, k);
            r.Some? ==> forall ch :: Consumes(s, i, ds, ch) && k <= ch[0] ==> !Before(ch, r.value)
    ensures TryFrom(s, i, ds, k).None? ==> forall ch :: Consumes(s, i, ds, ch) ==> ch[0] < k
    decreases |ds|, 0, |ds[0]| - k
  {
    if k < |ds[0]| {
      TryFromIsFirst(s, i, ds, k + 1);
      if Fits(s, i, ds[0][k]) {
        FirstMatchIsFirst(s, i + |ds[0][k]|, ds[1..]);
        match FirstMatch(s, i + |ds[0][k]|, ds[1..])
        case Some(rest) =>
          assert ([k] + rest)[1..] == rest;
        case None =>
      }
    }
  }

  /** The value of the one or two digits `s[i..i + n]`. */
  function FieldValue(s: string, i: nat, n: nat): nat
    requires 1 <= n <= 2 && i + n <= |s| && forall k :: i <= k < i + n ==> IsDigitChar(s[k])
  {
    if n == 1 then DigitValue(s[i]) else DigitValue(s[i]) * 10 + DigitValue(s[i + 1])
  }

  /** The alternatives a `%H%M%S` choice that matches takes, and where each one fits. */
  lemma ClockShape(s: string, ch: seq<nat>)
    requires Consumes(s, 0, ClockFormat, ch)
    ensures |ch| == 3 && ch[0] < 3 && ch[1] < 2 && ch[2] < 3
    ensures var h := |HourAlts[ch[0]]|;
            var m := h + |MinuteAlts[ch[1]]|;
            Fits(s, 0, HourAlts[ch[0]]) && Fits(s, h, MinuteAlts[ch[1]]) && Fits(s, m, SecondAlts[ch[2]])
  {
    var h := |HourAlts[ch[0]]|;
    var m := h + |MinuteAlts[ch[1]]|;
    assert ClockFormat[1..] == [MinuteAlts, SecondAlts];
    assert [MinuteAlts, SecondAlts][1..] == [SecondAlts];
    assert Consumes(s, h, [MinuteAlts, SecondAlts], ch[1..]);
    assert Consumes(s, m, [SecondAlts], ch[1..][1..]);
  }

  /** What a `%H%M%S` choice that matches consumes: one or two digits per field, an hour below 24, a minute below 60. */
  lemma ClockFits(s: string, ch: seq<nat>)
    requires Consumes(s, 0, ClockFormat, ch)
    ensures |ch| == 3 && ch[0] < 3 && ch[1] < 2 && ch[2] < 3
    ensures var h := |HourAlts[ch[0]]|;
            var m := h + |MinuteAlts[ch[1]]|;
            var e := m + |SecondAlts[ch[2]]|;
            1 <= h <= 2 && 1 <= m - h <= 2 && 1 <= e - m <= 2 && e <= |s| &&
            (forall k :: 0 <= k < e ==> IsDigitChar(s[k])) &&
            Fits(s, 0, HourAlts[ch[0]]) && Fits(s, h, MinuteAlts[ch[1]]) && Fits(s, m, SecondAlts[ch[2]]) &&
            FieldValue(s, 0, h) < 24 && FieldValue(s, h, m - h) < 60
  {
    ClockShape(s, ch);
    var h := |HourAlts[ch[0]]|;
    var m := h + |MinuteAlts[ch[1]]|;
    var e := m + |SecondAlts[ch[2]]|;
    var hp, mp, sp := HourAlts[ch[0]], MinuteAlts[ch[1]], SecondAlts[ch[2]];
    assert Fits(s, 0, hp) && Fits(s, h, mp) && Fits(s, m, sp);
    forall k | 0 <= k < e
      ensures IsDigitChar(s[k])
    {
      if k < h {
        assert hp[k].lo <= s[k] <= hp[k].hi;
      } else if k < m {
        assert mp[k - h].lo <= s[h + (k - h)] <= mp[k - h].hi;
      } else {
        assert sp[k - m].lo <= s[m + (k - m)] <= sp[k - m].hi;
      }
    }
    FitsAt(s, 0, hp, 0);
    if ch[0] == 0 {
      FitsAt(s, 0, hp, 1);
    }
    FitsAt(s, h, mp, 0);
  }

  lemma FitsAt(s: string, i: nat, p: seq<CharRange>, k: nat)
    requires Fits(s, i, p) && k < |p|
    ensures i + k < |s| && p[k].lo <= s[i + k] <= p[k].hi
  {
  }

  /** A pattern does not fit where one of its positions does not. */
  lemma Mismatch(s: string, i: nat, p: seq<CharRange>, k: nat)
    requires k < |p| && i + k < |s| && !(p[k].lo <= s[i + k] <= p[k].hi)
    ensures !Fits(s, i, p)
  {
  }

  /**
   * The clock part of `strptime(d + stem, '%Y%m%d%H%M%S')`, in seconds
   * since midnight: the date digits `d` match their own directives, so the
   * clock directives match the stem; the first match in backtracking order
   * must consume the whole stem ("unconverted data remains" otherwise), and
   * datetime refuses the seconds 60 and 61 that `%S` lets through.
   */
  function ClockTime(s: string): (r: Option<int>)
    ensures r.Some? ==> 0 <= r.value < Day
    ensures r.Some? ==> 3 <= |s| <= 6 && IsDigits(s)
  {
    match FirstMatch(s, 0, ClockFormat)
    case None => None
    case Some(ch) =>
      ClockFits(s, ch);
      var h := |HourAlts[ch[0]]|;
      var m := h + |MinuteAlts[ch[1]]|;
      var e := m + |SecondAlts[ch[2]]|;
      if e != |s| then None
      else
        var ss := FieldValue(s, m, e - m);
        if ss < 60 then Some(FieldValue(s, 0, h) * Hour + FieldValue(s, h, m - h) * Minute + ss) else None
  }

  /** The time of a candidate; every failure of `strptime` is a ValueError. */
  function ParseCandidate(c: Candidate): (r: Option<int>)
    ensures r.Some? ==> c.day * Day <= r.value < (c.day + 1) * Day
    ensures r.Some? ==> 3 <= |c.stem| <= 6 && IsDigits(c.stem)
  {
    match ClockTime(c.stem)
    case None => None
    case Some(t) => Some(c.day * Day + t)
  }

  /** The first match of a six-digit clock time takes two digits for every field. */
  lemma SixDigitMatch(s: string)
    requires |s| == 6 && IsDigits(s)
    requires FieldValue(s, 0, 2) < 24 && FieldValue(s, 2, 2) < 60 && FieldValue(s, 4, 2) < 60
    ensures FirstMatch(s, 0, ClockFormat) == Some([if s[0] == '2' then 0 else 1, 0, 1])
  {
    assert ClockFormat[1..] == [MinuteAlts, SecondAlts];
    assert [MinuteAlts, SecondAlts][1..] == [SecondAlts];
    assert FirstMatch(s, 6, []) == Some([]);
    assert DigitValue(s[2]) <= 5 && DigitValue(s[4]) <= 5;
    assert [SecondAlts][1..] == [];
    assert !Fits(s, 4, SecondAlts[0]) && Fits(s, 4, SecondAlts[1]);
    assert [1] + [] == [1];
    assert TryFrom(s, 4, [SecondAlts], 1) == Some([1]);
    assert FirstMatch(s, 4, [SecondAlts]) == Some([1]);
    assert Fits(s, 2, MinuteAlts[0]);
    assert [0] + [1] == [0, 1];
    assert FirstMatch(s, 2, [MinuteAlts, SecondAlts]) == Some([0, 1]);
    assert [1] + [0, 1] == [1, 0, 1] && [0] + [0, 1] == [0, 0, 1];
    if s[0] == '2' {
      assert Fits(s, 0, HourAlts[0]);
      assert TryFrom(s, 0, ClockFormat, 0) == Some([0, 0, 1]);
    } else {
      assert !Fits(s, 0, HourAlts[0]) && Fits(s, 0, HourAlts[1]);
      assert TryFrom(s, 0, ClockFormat, 1) == Some([1, 0, 1]);
    }
  }

  /** A stem of six digits reads as `HHMMSS` whenever that is a clock time. */
  lemma ParseSixDigits(c: Candidate)
    requires |c.stem| == 6 && IsDigits(c.stem)
    requires FieldValue(c.stem, 0, 2) < 24 && FieldValue(c.stem, 2, 2) < 60 && FieldValue(c.stem, 4, 2) < 60
    ensures ParseCandidate(c) ==
      Some(c.day * Day + FieldValue(c.stem, 0, 2) * Hour + FieldValue(c.stem, 2, 2) * Minute + FieldValue(c.stem, 4, 2))
  {
    SixDigitMatch(c.stem);
  }

  /** In "12355" `%S` takes the last digit alone. */
  lemma MatchOneDigitSecond()
    ensures FirstMatch("12355", 0, ClockFormat) == Some([1, 0, 2])
  {
    var s := "12355";
    assert ClockFormat[1..] == [MinuteAlts, SecondAlts] && [MinuteAlts, SecondAlts][1..] == [SecondAlts];
    assert [SecondAlts][1..] == [] && FirstMatch(s, 5, []) == Some([]);
    assert !Fits(s, 4, SecondAlts[0]) && !Fits(s, 4, SecondAlts[1]) && Fits(s, 4, SecondAlts[2]);
    assert [2] + [] == [2];
    assert TryFrom(s, 4, [SecondAlts], 2) == Some([2]);
    assert TryFrom(s, 4, [SecondAlts], 1) == Some([2]);
    assert FirstMatch(s, 4, [SecondAlts]) == Some([2]);
    assert Fits(s, 2, MinuteAlts[0]) && [0] + [2] == [0, 2];
    assert FirstMatch(s, 2, [MinuteAlts, SecondAlts]) == Some([0, 2]);
    Mismatch(s, 0, HourAlts[0], 0);
    assert Fits(s, 0, HourAlts[1]) && [1] + [0, 2] == [1, 0, 2];
    assert TryFrom(s, 0, ClockFormat, 1) == Some([1, 0, 2]);
  }

  /** A one-digit `%S`: "12355" reads as 12:35:05. */
  lemma ParseOneDigitSecond(day: int)
    ensures ParseCandidate(Candidate(day, "12355")) == Some(day * Day + 12 * Hour + 35 * Minute + 5)
  {
    MatchOneDigitSecond();
  }

  /** In "1235" `%M` backtracks to one digit so that `%S` matches. */
  lemma MatchBacktracksMinute()
    ensures FirstMatch("1235", 0, ClockFormat) == Some([1, 1, 2])
  {
    var s := "1235";
    assert ClockFormat[1..] == [MinuteAlts, SecondAlts] && [MinuteAlts, SecondAlts][1..] == [SecondAlts];
    assert [SecondAlts][1..] == [] && FirstMatch(s, 4, []) == Some([]);
    assert !Fits(s, 3, SecondAlts[0]) && !Fits(s, 3, SecondAlts[1]) && Fits(s, 3, SecondAlts[2]);
    assert [2] + [] == [2];
    assert TryFrom(s, 3, [SecondAlts], 2) == Some([2]);
    assert TryFrom(s, 3, [SecondAlts], 1) == Some([2]);
    assert FirstMatch(s, 3, [SecondAlts]) == Some([2]);
    assert !Fits(s, 4, SecondAlts[0]) && !Fits(s, 4, SecondAlts[1]) && !Fits(s, 4, SecondAlts[2]);
    assert TryFrom(s, 4, [SecondAlts], 2) == None;
    assert TryFrom(s, 4, [SecondAlts], 1) == None;
    assert FirstMatch(s, 4, [SecondAlts]) == None;
    assert Fits(s, 2, MinuteAlts[0]) && Fits(s, 2, MinuteAlts[1]) && [1] + [2] == [1, 2];
    assert TryFrom(s, 2, [MinuteAlts, SecondAlts], 1) == Some([1, 2]);
    assert FirstMatch(s, 2, [MinuteAlts, SecondAlts]) == Some([1, 2]);
    Mismatch(s, 0, HourAlts[0], 0);
    assert Fits(s, 0, HourAlts[1]) && [1] + [1, 2] == [1, 1, 2];
    assert TryFrom(s, 0, ClockFormat, 1) == Some([1, 1, 2]);
  }

  /** Backtracking: in "1235" `%M` gives up "35" so that `%S` can match, which reads 12:03:05. */
  lemma ParseBacktracksMinute(day: int)
    ensures ParseCandidate(Candidate(day, "1235")) == Some(day * Day + 12 * Hour + 3 * Minute + 5)
  {
    MatchBacktracksMinute();
  }

  /** In "126000" `%M` can take only "6", and `%S` then takes "00". */
  lemma MatchLeavesUnconverted()
    ensures FirstMatch("126000", 0, ClockFormat) == Some([1, 1, 1])
  {
    var s := "126000";
    assert ClockFormat[1..] == [MinuteAlts, SecondAlts] && [MinuteAlts, SecondAlts][1..] == [SecondAlts];
    assert [SecondAlts][1..] == [] && FirstMatch(s, 5, []) == Some([]);
    Mismatch(s, 3, SecondAlts[0], 0);
    assert Fits(s, 3, SecondAlts[1]);
    assert [1] + [] == [1];
    assert TryFrom(s, 3, [SecondAlts], 1) == Some([1]);
    assert FirstMatch(s, 3, [SecondAlts]) == Some([1]);
    Mismatch(s, 2, MinuteAlts[0], 0);
    assert Fits(s, 2, MinuteAlts[1]) && [1] + [1] == [1, 1];
    assert TryFrom(s, 2, [MinuteAlts, SecondAlts], 1) == Some([1, 1]);
    assert FirstMatch(s, 2, [MinuteAlts, SecondAlts]) == Some([1, 1]);
    Mismatch(s, 0, HourAlts[0], 0);
    assert Fits(s, 0, HourAlts[1]) && [1] + [1, 1] == [1, 1, 1];
    assert TryFrom(s, 0, ClockFormat, 1) == Some([1, 1, 1]);
  }

  /** The first match is not retried for a longer one: "126000" matches 12, 6 and 00 and leaves "0" unconverted. */
  lemma ParseLeavesUnconverted(day: int)
    ensures ParseCandidate(Candidate(day, "126000")) == None
  {
    MatchLeavesUnconverted();
  }

  /** The file times, in candidate order; one that does not parse raises ValueError. */
  function ParseAll(cs: seq<Candidate>): (r: Result<seq<int>>)
    ensures r.Ok? <==> forall c :: c in cs ==> ParseCandidate(c).Some?
    ensures r.Ok? ==> |r.value| == |cs| && forall k :: 0 <= k < |cs| ==> r.value[k] == ParseCandidate(cs[k]).value
    ensures r.Fail? ==> r.err == ValueError
  {
    if |cs| == 0 then Ok([])
    else
      assert forall c :: c in cs ==> c == cs[0] || c in cs[1..];
      match (ParseCandidate(cs[0]), ParseAll(cs[1..]))
      case (Some(t), Ok(ts)) => Ok([t] + ts)
      case _ => Fail(ValueError)
  }

  /** The times of `ts` within `[lo, hi]`, in order. */
  function Within(ts: seq<int>, lo: int, hi: int): (r: seq<int>)
    ensures forall t :: t in r <==> t in ts && lo <= t <= hi
    ensures |r| <= |ts|
  {
    if |ts| == 0 then []
    else
      var rest := Within(ts[1..], lo, hi);
      assert forall t :: t in ts <==> t == ts[0] || t in ts[1..];
      if lo <= ts[0] <= hi then [ts[0]] + rest else rest
  }

  function Dist(t: int, t0: int): nat
  {
    if t < t0 then t0 - t else t - t0
  }

  /** `min(dt, key=lambda x: abs(x - t0))`: the first of the closest times. */
  function Closest(ts: seq<int>, t0: int): (r: nat)
    requires |ts| > 0
    ensures r < |ts|
    ensures forall k :: 0 <= k < |ts| ==> Dist(ts[r], t0) <= Dist(ts[k], t0)
    ensures forall k :: 0 <= k < r ==> Dist(ts[r], t0) < Dist(ts[k], t0)
  {
    if |ts| == 1 then 0
    else
      var j := Closest(ts[1..], t0) + 1;
      if Dist(ts[0], t0) <= Dist(ts[j], t0) then 0 else j
  }

  /**
   * The times of the candidates that fall in `[lo, hi]`, in candidate
   * order (the early `return None` on an empty `dt` gives the same).
   */
  function WindowTimes(cs: seq<Candidate>, lo: int, hi: int): (r: Result<seq<int>>)
    ensures cs == [] ==> r == Ok([])
  {
    match ParseAll(cs)
    case Fail(e) => Fail(e)
    case Ok(ts) => Ok(Within(ts, lo, hi))
  }

  /**
   * `mdv_end_time_file(dirMDV, time)` on the hours visited in `order`
   * (the iteration order of `set(heure)`): the first candidate in
   * `[t0, t0 + 300]`, None when there is none.
   */
  function EndTimeFile(dirs: int -> Option<seq<string>>, t0: int, order: seq<int>): Result<Option<int>>
  {
    FirstInWindow(Collected(dirs, order), t0)
  }

  /** The choice of `mdv_end_time_file` among the collected candidates. */
  function FirstInWindow(cs: seq<Candidate>, t0: int): Result<Option<int>>
  {
    match WindowTimes(cs, t0, t0 + FiveMinutes)
    case Fail(e) => Fail(e)
    case Ok(w) => if |w| == 0 then Ok(None) else Ok(Some(w[0]))
  }

  /**
   * `mdv_nearest_time_file(dirMDV, time)`: among the candidates in
   * `[t0 - 300, t0 + 300]`, the first of those closest to `t0`.
   */
  function NearestTimeFile(dirs: int -> Option<seq<string>>, t0: int, order: seq<int>): Result<Option<int>>
  {
    ClosestInWindow(Collected(dirs, order), t0)
  }

  /** The choice of `mdv_nearest_time_file` among the collected candidates. */
  function ClosestInWindow(cs: seq<Candidate>, t0: int): Result<Option<int>>
  {
    match WindowTimes(cs, t0 - FiveMinutes, t0 + FiveMinutes)
    case Fail(e) => Fail(e)
    case Ok(w) => if |w| == 0 then Ok(None) else Ok(Some(w[Closest(w, t0)]))
  }

  /** `mdv_end_time_file` as the source computes it: the hour loop, then parsing, filtering and the first entry. */
  method MdvEndTimeFile(dirs: int -> Option<seq<string>>, t0: int, order: seq<int>) returns (r: Result<Option<int>>)
    requires NoDuplicates(order) && forall h :: h in order <==> h in HourSet([t0, t0 + FiveMinutes])
    ensures r == EndTimeFile(dirs, t0, order)
  {
    var dt := CollectCandidates(dirs, order);
    if |dt| == 0 {
      return Ok(None);
    }
    var ts := ParseAll(dt);
    if ts.Fail? {
      return Fail(ts.err);
    }
    var w := Within(ts.value, t0, t0 + FiveMinutes);
    if |w| == 0 {
      return Ok(None);
    }
    r := Ok(Some(w[0]));
  }

  /** `mdv_nearest_time_file` as the source computes it. */
  method MdvNearestTimeFile(dirs: int -> Option<seq<string>>, t0: int, order: seq<int>) returns (r: Result<Option<int>>)
    requires NoDuplicates(order) && forall h :: h in order <==> h in HourSet([t0 - FiveMinutes, t0, t0 + FiveMinutes])
    ensures r == NearestTimeFile(dirs, t0, order)
  {
    var dt := CollectCandidates(dirs, order);
    if |dt| == 0 {
      return Ok(None);
    }
    var ts := ParseAll(dt);
    if ts.Fail? {
      return Fail(ts.err);
    }
    var w := Within(ts.value, t0 - FiveMinutes, t0 + FiveMinutes);
    if |w| == 0 {
      return Ok(None);
    }
    r := Ok(Some(w[Closest(w, t0)]));
  }

  // ---------------------------------------------------------------
  // What the selection promises
  // ---------------------------------------------------------------

  /** A time between two others at most an hour apart lies in the hour of one of them. */
  lemma HourBetween(a: int, b: int, t: int)
    requires a <= t <= b && b - a <= Hour
    ensures HourStart(t) == HourStart(a) || HourStart(t) == HourStart(b)
  {
    var ha, hb, ht := HourStart(a), HourStart(b), HourStart(t);
    assert ha / Hour * Hour == ha && hb / Hour * Hour == hb && ht / Hour * Hour == ht;
  }

  /** Every time of the end window lies in the hour of `t0` or in that of `t0 + 300`. */
  lemma EndWindowHours(t0: int, t: int)
    requires t0 <= t <= t0 + FiveMinutes
    ensures HourStart(t) in HourSet([t0, t0 + FiveMinutes])
  {
    var pts := [t0, t0 + FiveMinutes];
    assert pts[0] in pts && pts[1] in pts;
    HourBetween(t0, t0 + FiveMinutes, t);
  }

  /** Every time of the nearest-file window lies in the hour of one of the three window points. */
  lemma NearestWindowHours(t0: int, t: int)
    requires t0 - FiveMinutes <= t <= t0 + FiveMinutes
    ensures HourStart(t) in HourSet([t0 - FiveMinutes, t0, t0 + FiveMinutes])
  {
    var pts := [t0 - FiveMinutes, t0, t0 + FiveMinutes];
    assert pts[0] in pts && pts[1] in pts && pts[2] in pts;
    if t <= t0 {
      HourBetween(t0 - FiveMinutes, t0, t);
    } else {
      HourBetween(t0, t0 + FiveMinutes, t);
    }
  }

  /** Both choices raise ValueError exactly when a collected candidate does not parse. */
  lemma ChoiceFails(cs: seq<Candidate>, t0: int)
    ensures FirstInWindow(cs, t0).Fail? <==> exists c :: c in cs && ParseCandidate(c).None?
    ensures ClosestInWindow(cs, t0).Fail? <==> exists c :: c in cs && ParseCandidate(c).None?
  {
  }

  /** `mdv_end_time_file` finds nothing exactly when every parsed time lies outside `[t0, t0 + 300]`. */
  lemma FirstInWindowNone(cs: seq<Candidate>, t0: int)
    ensures FirstInWindow(cs, t0) == Ok(None) <==>
      ParseAll(cs).Ok? && forall t :: t in ParseAll(cs).value ==> !(t0 <= t <= t0 + FiveMinutes)
  {
    if ParseAll(cs).Ok? {
      var w := Within(ParseAll(cs).value, t0, t0 + FiveMinutes);
      if w != [] {
        assert w[0] in w;
      }
    }
  }

  /**
   * What `mdv_end_time_file` returns is a time of the window, and every
   * candidate before it in listing order lies outside the window.
   */
  lemma FirstInWindowIsFirst(cs: seq<Candidate>, t0: int, t: int)
    requires FirstInWindow(cs, t0) == Ok(Some(t))
    ensures ParseAll(cs).Ok?
    ensures var ts := ParseAll(cs).value;
      t0 <= t <= t0 + FiveMinutes &&
      exists k :: 0 <= k < |ts| && ts[k] == t && forall j :: 0 <= j < k ==> !(t0 <= ts[j] <= t0 + FiveMinutes)
  {
    FirstWithin(ParseAll(cs).value, t0, t0 + FiveMinutes);
  }

  /** The first element of `Within` is the first in-range element of the sequence. */
  lemma {:induction false} FirstWithin(ts: seq<int>, lo: int, hi: int)
    ensures Within(ts, lo, hi) != [] ==>
      exists k :: 0 <= k < |ts| && ts[k] == Within(ts, lo, hi)[0] && forall j :: 0 <= j < k ==> !(lo <= ts[j] <= hi)
  {
    if |ts| > 0 && !(lo <= ts[0] <= hi) {
      FirstWithin(ts[1..], lo, hi);
      if Within(ts, lo, hi) != [] {
        var k :| 0 <= k < |ts[1..]| && ts[1..][k] == Within(ts[1..], lo, hi)[0] &&
          forall j :: 0 <= j < k ==> !(lo <= ts[1..][j] <= hi);
        assert ts[k + 1] == Within(ts, lo, hi)[0];
        forall j | 0 <= j < k + 1 ensures !(lo <= ts[j] <= hi) {
          if j > 0 { assert ts[j] == ts[1..][j - 1]; }
        }
      }
    }
  }

  /**
   * The first candidate, not the earliest: when the first parsed time
   * lies in the window it is returned, whatever earlier times follow it
   * in the listing; and the listing is the hours in the order `set(heure)`
   * gives them.
   */
  lemma FirstInWindowNotEarliest(cs: seq<Candidate>, t0: int)
    requires ParseAll(cs).Ok? && |cs| > 0
    requires t0 <= ParseAll(cs).value[0] <= t0 + FiveMinutes
    ensures FirstInWindow(cs, t0) == Ok(Some(ParseAll(cs).value[0]))
  {
  }

  lemma CollectedTwoHours(dirs: int -> Option<seq<string>>, h1: int, h2: int)
    ensures Collected(dirs, [h1, h2]) == InHour(dirs, h1) + InHour(dirs, h2)
  {
    assert [h1, h2][..1] == [h1];
    assert [h1][..0] == [];
    assert Collected(dirs, []) == [];
    assert Collected(dirs, [h1]) == InHour(dirs, h1);
  }

  /** `mdv_nearest_time_file` finds nothing exactly when every parsed time is more than 300 s from `t0`. */
  lemma ClosestInWindowNone(cs: seq<Candidate>, t0: int)
    ensures ClosestInWindow(cs, t0) == Ok(None) <==>
      ParseAll(cs).Ok? && forall t :: t in ParseAll(cs).value ==> Dist(t, t0) > FiveMinutes
  {
    if ParseAll(cs).Ok? {
      var w := Within(ParseAll(cs).value, t0 - FiveMinutes, t0 + FiveMinutes);
      if w != [] {
        assert w[0] in w;
      }
    }
  }

  /**
   * What `mdv_nearest_time_file` returns is a parsed time within 300 s of
   * `t0` that no time of the window is closer to.
   */
  lemma ClosestInWindowIsClosest(cs: seq<Candidate>, t0: int, t: int)
    requires ClosestInWindow(cs, t0) == Ok(Some(t))
    ensures ParseAll(cs).Ok?
    ensures Dist(t, t0) <= FiveMinutes && t in ParseAll(cs).value
    ensures forall u :: u in ParseAll(cs).value && Dist(u, t0) <= FiveMinutes ==> Dist(t, t0) <= Dist(u, t0)
  {
    var ts := ParseAll(cs).value;
    ClosestWithin(ts, t0, t);
  }

  /** The closest of the times within 300 s of `t0` is no farther from `t0` than any time within 300 s. */
  lemma ClosestWithin(ts: seq<int>, t0: int, t: int)
    requires var w := Within(ts, t0 - FiveMinutes, t0 + FiveMinutes); |w| > 0 && t == w[Closest(w, t0)]
    ensures Dist(t, t0) <= FiveMinutes && t in ts
    ensures forall u :: u in ts && Dist(u, t0) <= FiveMinutes ==> Dist(t, t0) <= Dist(u, t0)
  {
    var w := Within(ts, t0 - FiveMinutes, t0 + FiveMinutes);
    assert t in w;
    forall u | u in ts && Dist(u, t0) <= FiveMinutes
      ensures Dist(t, t0) <= Dist(u, t0)
    {
      assert u in w;
    }
  }
}
