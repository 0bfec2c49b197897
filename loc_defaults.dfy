/**
 * The parameter defaulting of the api front ends in the `_loc` files
 * (`computeCAPPIQPE`, `createCAPPI`, `extractRadarPolar`,
 * `extractRadarPolarV`): each user settings dictionary `{method, pars}`
 * gets a `pars` built from per-method defaults, overridden key by key
 * by the user's values for keys the defaults know, and the new
 * dictionary replaces the user's `pars` in place.
 */
module LocDefaults {
  import opened Wrappers
  import opened PyBase
  import opened Utilities
  import opened ApiConfig

  // ---------------------------------------------------------------
  // Key-by-key override
  // ---------------------------------------------------------------

  /**
   * `for n in names: if n in user: d[n] = user[n]`, the copy loop every
   * front end uses (the source filters the user's keys by `names`; the
   * resulting dictionary is the same).
   */
  function Overlay(d: map<string, Value>, user: map<string, Value>, names: seq<string>): (r: map<string, Value>)
  {
    map k | k in d.Keys + (set n | n in names && n in user) :: if k in names && k in user then user[k] else d[k]
  }

  /** The copy loop, one key at a time. */
  method CopyKnown(d: map<string, Value>, user: map<string, Value>, names: seq<string>) returns (r: map<string, Value>)
    ensures r.Keys == d.Keys + (set n | n in names && n in user)
    ensures forall k :: k in r ==> r[k] == (if k in names && k in user then user[k] else d[k])
    ensures r == Overlay(d, user, names)
  {
    r := d;
    for i := 0 to |names|
      invariant r.Keys == d.Keys + (set n | n in names[..i] && n in user)
      invariant forall k :: k in r ==> r[k] == (if k in names[..i] && k in user then user[k] else d[k])
    {
      assert forall n :: n in names[..i + 1] <==> n in names[..i] || n == names[i];
      if names[i] in user {
        r := r[names[i] := user[names[i]]];
      }
    }
    assert names[..|names|] == names;
  }

  /** Overriding with the defaults' own keys keeps exactly the defaults' keys. */
  lemma OverlayKeepsKeys(d: map<string, Value>, user: map<string, Value>, names: seq<string>)
    requires forall n :: n in names ==> n in d
    ensures Overlay(d, user, names).Keys == d.Keys
  {
  }

  // ---------------------------------------------------------------
  // PIA
  // ---------------------------------------------------------------

  /** The user PIA keys copied as they are (besides the constraint keys). */
  const PiaNumericNames: seq<string> := ["a_max", "a_min", "n_a", "b_max", "b_min", "n_b", "sector_thr"]

  /** The defaults of method `dbz` (any method but `kdp`), before the user's values. */
  const DbzPiaBase: map<string, Value> :=
    map["a_max" := VReal(0.0002), "a_min" := VInt(0), "n_a" := VInt(10), "b_max" := VReal(0.7),
        "b_min" := VReal(0.65), "n_b" := VInt(6), "sector_thr" := VInt(10), "constraints" := VStr("none")]

  /** `user.get(key, default)`. */
  function Get(user: map<string, Value>, key: string, default: Value): Value
  {
    if key in user then user[key] else default
  }

  /**
   * The constraint entries of method `dbz`: a user `constraints` replaces
   * "none", and `dbz`/`pia`/`both` bring `constraint_args_dbz` (default
   * 60) and/or `constraint_args_pia` (default 20).
   */
  function ConstraintEntries(user: map<string, Value>): (r: map<string, Value>)
    ensures "constraints" !in user ==> r == map["constraints" := VStr("none")]
    ensures "constraints" in r
    ensures "constraints" in user ==> r["constraints"] == user["constraints"]
    ensures "constraint_args_dbz" in r <==> "constraints" in user && user["constraints"] in {VStr("dbz"), VStr("both")}
    ensures "constraint_args_pia" in r <==> "constraints" in user && user["constraints"] in {VStr("pia"), VStr("both")}
    ensures "constraint_args_dbz" in r ==> r["constraint_args_dbz"] == Get(user, "constraint_args_dbz", VInt(60))
    ensures "constraint_args_pia" in r ==> r["constraint_args_pia"] == Get(user, "constraint_args_pia", VInt(20))
    ensures r.Keys <= {"constraints", "constraint_args_dbz", "constraint_args_pia"}
  {
    if "constraints" !in user then map["constraints" := VStr("none")]
    else
      var c := user["constraints"];
      var withDbz := if c in {VStr("dbz"), VStr("both")}
                     then map["constraint_args_dbz" := Get(user, "constraint_args_dbz", VInt(60))] else map[];
      var withPia := if c in {VStr("pia"), VStr("both")}
                     then map["constraint_args_pia" := Get(user, "constraint_args_pia", VInt(20))] else map[];
      map["constraints" := c] + withDbz + withPia
  }

  /**
   * The PIA `pars` the front ends build: `{gamma: 0.8}` for `kdp`, with
   * only a user `gamma` taken; for any other method the `dbz` defaults,
   * the constraint entries and the user's values of the seven numeric
   * keys.  Other user keys are dropped.
   */
  function PiaDefaults(piaMethod: string, user: Option<map<string, Value>>): (r: map<string, Value>)
    ensures piaMethod == "kdp" ==>
      r == map["gamma" := if user.Some? then Get(user.value, "gamma", VReal(0.8)) else VReal(0.8)]
    ensures piaMethod != "kdp" && user.None? ==> r == DbzPiaBase
    ensures piaMethod != "kdp" && user.Some? ==>
      (forall n :: n in PiaNumericNames ==> n in r && r[n] == Get(user.value, n, DbzPiaBase[n])) &&
      (forall k :: k in r ==> k in PiaNumericNames || k in ConstraintEntries(user.value)) &&
      (forall k :: k in ConstraintEntries(user.value) ==> k in r && r[k] == ConstraintEntries(user.value)[k])
  {
    if piaMethod == "kdp" then
      map["gamma" := if user.Some? then Get(user.value, "gamma", VReal(0.8)) else VReal(0.8)]
    else if user.None? then DbzPiaBase
    else DbzPiaWithEntries(user.value); DbzPiaWith(user.value)
  }

  /** The `kdp` method never receives the `dbz` solver keys, whatever the user passed. */
  lemma KdpPiaOnlyGamma(user: Option<map<string, Value>>)
    ensures PiaDefaults("kdp", user).Keys == {"gamma"}
  {
  }

  /**
   * Defaulting a result again changes nothing, so a front end called twice
   * with the same (already rewritten) dictionary builds the same `pars`.
   */
  lemma PiaDefaultsIdempotent(piaMethod: string, user: Option<map<string, Value>>)
    ensures PiaDefaults(piaMethod, Some(PiaDefaults(piaMethod, user))) == PiaDefaults(piaMethod, user)
  {
    if piaMethod != "kdp" {
      var u := if user.Some? then user.value else map[];
      var r := PiaDefaults(piaMethod, user);
      assert r == DbzPiaWith(u) by {
        if user.None? {
          DbzPiaWithEmpty();
        }
      }
      ConstraintsStable(u);
      assert PiaDefaults(piaMethod, Some(r)) == DbzPiaWith(r);
      DbzPiaWithSelf(u);
    }
  }

  /** The `dbz` defaults with the user's constraint and numeric entries. */
  function DbzPiaWith(u: map<string, Value>): (r: map<string, Value>)
  {
    Overlay(DbzPiaBase + ConstraintEntries(u), u, PiaNumericNames)
  }

  /** Which keys a built `dbz` pars holds, and where each value comes from. */
  lemma DbzPiaWithEntries(u: map<string, Value>)
    ensures forall n :: n in PiaNumericNames ==> n in DbzPiaWith(u) && DbzPiaWith(u)[n] == Get(u, n, DbzPiaBase[n])
    ensures forall k :: k in DbzPiaWith(u) ==> k in PiaNumericNames || k in ConstraintEntries(u)
    ensures forall k :: k in ConstraintEntries(u) ==> k in DbzPiaWith(u) && DbzPiaWith(u)[k] == ConstraintEntries(u)[k]
  {
    var c := ConstraintEntries(u);
    assert forall k :: k in c ==> k !in PiaNumericNames;
  }

  lemma DbzPiaWithEmpty()
    ensures DbzPiaWith(map[]) == DbzPiaBase
  {
    assert ConstraintEntries(map[]) == map["constraints" := VStr("none")];
  }

  /** The constraint entries of a built `pars` are those it was built from. */
  lemma ConstraintsStable(u: map<string, Value>)
    ensures ConstraintEntries(DbzPiaWith(u)) == ConstraintEntries(u)
  {
    var r := DbzPiaWith(u);
    var c := ConstraintEntries(u);
    assert "constraints" !in PiaNumericNames;
    assert "constraint_args_dbz" !in PiaNumericNames;
    assert "constraint_args_pia" !in PiaNumericNames;
    assert "constraints" in r && r["constraints"] == c["constraints"];
    assert "constraint_args_dbz" in c ==> r["constraint_args_dbz"] == c["constraint_args_dbz"];
    assert "constraint_args_pia" in c ==> r["constraint_args_pia"] == c["constraint_args_pia"];
  }

  /** Rebuilding from a built `pars` gives it back. */
  lemma DbzPiaWithSelf(u: map<string, Value>)
    requires ConstraintEntries(DbzPiaWith(u)) == ConstraintEntries(u)
    ensures DbzPiaWith(DbzPiaWith(u)) == DbzPiaWith(u)
  {
    var r := DbzPiaWith(u);
    var r2 := DbzPiaWith(r);
    assert forall n :: n in PiaNumericNames ==> n in DbzPiaBase;
    assert r2.Keys == r.Keys;
    forall k | k in r2
      ensures r2[k] == r[k]
    {
    }
  }

  /** `pia["pars"] = pia_pars`: the caller's dictionary gets the new `pars`. */
  method DefaultPia(pia: MethodPars?)
    modifies pia
    ensures pia != null ==>
      pia.pars != null && fresh(pia.pars) && pia.methodName == old(pia.methodName) &&
      pia.pars.entries == PiaDefaults(pia.methodName, old(ViewOf(pia)).value.pars)
  {
    if pia == null {
      return;
    }
    var user := if pia.pars == null then None else Some(pia.pars.entries);
    var piaPars: map<string, Value>;
    if pia.methodName == "kdp" {
      piaPars := map["gamma" := VReal(0.8)];
      if user.Some? && "gamma" in user.value {
        piaPars := piaPars["gamma" := user.value["gamma"]];
      }
    } else {
      piaPars := DbzPiaBase;
      if user.Some? {
        piaPars := piaPars + ConstraintEntries(user.value);
        piaPars := CopyKnown(piaPars, user.value, PiaNumericNames);
      }
    }
    pia.pars := new ArgDict(piaPars);
  }

  // ---------------------------------------------------------------
  // Filter
  // ---------------------------------------------------------------

  /** The default keys of a filter method, in the order the source lists them. */
  function FilterNames(filterMethod: string): seq<string>
  {
    if filterMethod == "median_filter_censor" then ["median_filter_len", "minsize_seq", "censor_field", "censor_thres"]
    else if filterMethod == "median_filter" then ["median_filter_len", "minsize_seq"]
    else ["window_len", "window"]
  }

  /** The defaults of a filter method: the censoring filter censors on RHOHV below 0.8; any other name is a smoother. */
  function FilterBase(filterMethod: string): (r: map<string, Value>)
    ensures r.Keys == set n | n in FilterNames(filterMethod)
  {
    if filterMethod == "median_filter_censor" then
      map["median_filter_len" := VInt(5), "minsize_seq" := VInt(3), "censor_field" := VStr("RHOHV"),
          "censor_thres" := VReal(0.8)]
    else if filterMethod == "median_filter" then map["median_filter_len" := VInt(5), "minsize_seq" := VInt(3)]
    else map["window_len" := VInt(5), "window" := VStr("hanning")]
  }

  /** The threshold for a user censor field given without one: 0.8 for RHOHV, 0.5 for NCP, 3 otherwise. */
  function CensorThresDefault(censorField: Value): (r: Value)
    ensures censorField == VStr("RHOHV") ==> r == VReal(0.8)
    ensures censorField == VStr("NCP") ==> r == VReal(0.5)
    ensures censorField !in {VStr("RHOHV"), VStr("NCP")} ==> r == VInt(3)
  {
    if censorField == VStr("RHOHV") then VReal(0.8)
    else if censorField == VStr("NCP") then VReal(0.5)
    else VInt(3)
  }

  /** Whether the threshold rule applies: the censoring filter, a user `censor_field`, no user `censor_thres`. */
  predicate CensorRule(filterMethod: string, user: map<string, Value>)
  {
    filterMethod == "median_filter_censor" && "censor_field" in user && "censor_thres" !in user
  }

  /**
   * The filter `pars` the front ends build: exactly the default keys of
   * the method, each the user's value when given and the default
   * otherwise, except that a user censor field without a threshold gets
   * the threshold that suits it.
   */
  function FilterDefaults(filterMethod: string, user: Option<map<string, Value>>): (r: map<string, Value>)
    ensures r.Keys == FilterBase(filterMethod).Keys
    ensures user.None? ==> r == FilterBase(filterMethod)
    ensures user.Some? ==> forall k :: k in r && !(k == "censor_thres" && CensorRule(filterMethod, user.value)) ==>
      r[k] == Get(user.value, k, FilterBase(filterMethod)[k])
    ensures user.Some? && CensorRule(filterMethod, user.value) ==>
      r["censor_thres"] == CensorThresDefault(user.value["censor_field"])
  {
    if user.None? then FilterBase(filterMethod)
    else
      var copied := Overlay(FilterBase(filterMethod), user.value, FilterNames(filterMethod));
      if CensorRule(filterMethod, user.value) then copied["censor_thres" := CensorThresDefault(user.value["censor_field"])]
      else copied
  }

  /** A user NCP censor field without a threshold censors below 0.5, and no unknown key gets through. */
  lemma NcpCensorThreshold(user: map<string, Value>)
    requires "censor_field" in user && user["censor_field"] == VStr("NCP") && "censor_thres" !in user
    ensures FilterDefaults("median_filter_censor", Some(user))["censor_thres"] == VReal(0.5)
    ensures FilterDefaults("median_filter_censor", Some(user))["censor_field"] == VStr("NCP")
    ensures forall k :: k in FilterDefaults("median_filter_censor", Some(user)) ==>
      k in {"median_filter_len", "minsize_seq", "censor_field", "censor_thres"}
  {
  }

  /** Defaulting a result again changes nothing. */
  lemma FilterDefaultsIdempotent(filterMethod: string, user: Option<map<string, Value>>)
    ensures FilterDefaults(filterMethod, Some(FilterDefaults(filterMethod, user))) == FilterDefaults(filterMethod, user)
  {
    var r := FilterDefaults(filterMethod, user);
    var r2 := FilterDefaults(filterMethod, Some(r));
    assert !CensorRule(filterMethod, r);
    assert forall k :: k in r2 ==> r2[k] == r[k];
  }

  /** `filter["pars"] = filter_pars`. */
  method DefaultFilter(filter: MethodPars?)
    modifies filter
    ensures filter != null ==>
      filter.pars != null && fresh(filter.pars) && filter.methodName == old(filter.methodName) &&
      filter.pars.entries == FilterDefaults(filter.methodName, old(ViewOf(filter)).value.pars)
  {
    if filter == null {
      return;
    }
    var filterPars := FilterBase(filter.methodName);
    if filter.pars != null {
      var user := filter.pars.entries;
      filterPars := CopyKnown(filterPars, user, FilterNames(filter.methodName));
      if CensorRule(filter.methodName, user) {
        filterPars := filterPars["censor_thres" := CensorThresDefault(user["censor_field"])];
      }
    }
    filter.pars := new ArgDict(filterPars);
  }

  // ---------------------------------------------------------------
  // CAPPI
  // ---------------------------------------------------------------

  const CompositeNames: seq<string> := ["fun", "min_alt", "max_alt"]

  const CompositeBase: map<string, Value> := map["fun" := VStr("maximum"), "min_alt" := VReal(1.7), "max_alt" := VInt(15)]

  /**
   * The CAPPI `pars`: for `composite_altitude` exactly `fun`, `min_alt`
   * and `max_alt`, the user's values overriding; for any other method
   * `{alt: 4.5}`, whatever `alt` the user gave.
   */
  function CappiDefaults(cappiMethod: string, user: Option<map<string, Value>>): (r: map<string, Value>)
    ensures cappiMethod != "composite_altitude" ==> r == map["alt" := VReal(4.5)]
    ensures cappiMethod == "composite_altitude" ==>
      r.Keys == {"fun", "min_alt", "max_alt"} &&
      forall k :: k in r ==> r[k] == (if user.Some? then Get(user.value, k, CompositeBase[k]) else CompositeBase[k])
  {
    if cappiMethod != "composite_altitude" then map["alt" := VReal(4.5)]
    else if user.None? then CompositeBase
    else Overlay(CompositeBase, user.value, CompositeNames)
  }

  /** The user's altitude never reaches a single-level CAPPI. */
  lemma UserAltIgnored(cappiMethod: string, alt: Value)
    requires cappiMethod != "composite_altitude"
    ensures CappiDefaults(cappiMethod, Some(map["alt" := alt]))["alt"] == VReal(4.5)
  {
  }

  /** `cappi["pars"] = cappi_pars`; for the non-composite methods the source's `if "alt" not in ...` adds nothing. */
  method DefaultCappi(cappi: MethodPars)
    modifies cappi
    ensures cappi.pars != null && fresh(cappi.pars) && cappi.methodName == old(cappi.methodName)
    ensures cappi.pars.entries == CappiDefaults(cappi.methodName, old(ViewOf(cappi)).value.pars)
  {
    var cappiPars: map<string, Value>;
    if cappi.methodName == "composite_altitude" {
      cappiPars := CompositeBase;
    } else {
      cappiPars := map["alt" := VReal(4.5)];
    }
    if cappi.pars != null {
      if cappi.methodName == "composite_altitude" {
        cappiPars := CopyKnown(cappiPars, cappi.pars.entries, CompositeNames);
      } else if "alt" !in cappi.pars.entries {
        cappiPars := cappiPars["alt" := VReal(4.5)];
      }
    }
    cappi.pars := new ArgDict(cappiPars);
  }

  // ---------------------------------------------------------------
  // QPE
  // ---------------------------------------------------------------

  /** The default coefficient names of a rate method, in the source's order. */
  function QpeNames(qpeMethod: string): seq<string>
  {
    if qpeMethod == "RATE_Z" then ["alpha", "beta", "invCoef"]
    else if qpeMethod == "RATE_Z_ZDR" then ["alpha", "beta_zh", "beta_zdr"]
    else if qpeMethod == "RATE_KDP" then ["alpha", "beta"]
    else if qpeMethod == "RATE_KDP_ZDR" then ["alpha", "beta_kdp", "beta_zdr"]
    else []
  }

  /** The default coefficients; None for `RATE_ZPOLY` and unknown methods. */
  function QpeBase(qpeMethod: string): (r: Option<map<string, Value>>)
    ensures r.Some? <==> qpeMethod in {"RATE_Z", "RATE_Z_ZDR", "RATE_KDP", "RATE_KDP_ZDR"}
    ensures r.Some? ==> r.value.Keys == set n | n in QpeNames(qpeMethod)
  {
    if qpeMethod == "RATE_Z" then Some(map["alpha" := VInt(300), "beta" := VReal(1.4), "invCoef" := VBool(false)])
    else if qpeMethod == "RATE_Z_ZDR" then
      Some(map["alpha" := VReal(0.00786), "beta_zh" := VReal(0.967), "beta_zdr" := VReal(-4.98)])
    else if qpeMethod == "RATE_KDP" then Some(map["alpha" := VReal(53.3), "beta" := VReal(0.669)])
    else if qpeMethod == "RATE_KDP_ZDR" then
      Some(map["alpha" := VInt(192), "beta_kdp" := VReal(0.946), "beta_zdr" := VReal(-3.45)])
    else None
  }

  /**
   * The QPE `pars`: the method's defaults with the user's values for their
   * keys; `RATE_ZPOLY` always ends with None, and an unknown method given
   * `pars` fails on `None.keys()`.
   */
  function QpeDefaults(qpeMethod: string, user: Option<map<string, Value>>): (r: Result<Option<map<string, Value>>>)
    ensures user.None? ==> r == Ok(QpeBase(qpeMethod))
    ensures qpeMethod == "RATE_ZPOLY" ==> r == Ok(None)
    ensures user.Some? && qpeMethod != "RATE_ZPOLY" && QpeBase(qpeMethod).None? ==> r == Fail(AttributeError)
    ensures user.Some? && QpeBase(qpeMethod).Some? ==>
      r.Ok? && r.value.Some? && r.value.value.Keys == QpeBase(qpeMethod).value.Keys &&
      forall k :: k in r.value.value ==> r.value.value[k] == Get(user.value, k, QpeBase(qpeMethod).value[k])
  {
    if user.None? then Ok(QpeBase(qpeMethod))
    else if qpeMethod == "RATE_ZPOLY" then Ok(None)
    else match QpeBase(qpeMethod)
         case None => Fail(AttributeError)
         case Some(base) => Ok(Some(Overlay(base, user.value, QpeNames(qpeMethod))))
  }

  /**
   * The function's own default `qpe` dictionary is rewritten on every
   * call; since defaulting twice is defaulting once, later calls see the
   * same coefficients.
   */
  lemma QpeDefaultsIdempotent(qpeMethod: string, user: Option<map<string, Value>>)
    requires QpeDefaults(qpeMethod, user).Ok?
    ensures QpeDefaults(qpeMethod, QpeDefaults(qpeMethod, user).value) == QpeDefaults(qpeMethod, user)
  {
    var d := QpeDefaults(qpeMethod, user).value;
    if d.Some? {
      OverlayOfSameKeys(QpeBase(qpeMethod).value, d.value, QpeNames(qpeMethod));
    }
  }

  /** Overriding every default key with a dictionary of the same keys yields that dictionary. */
  lemma OverlayOfSameKeys(d: map<string, Value>, e: map<string, Value>, names: seq<string>)
    requires d.Keys == set n | n in names
    requires e.Keys == d.Keys
    ensures Overlay(d, e, names) == e
  {
  }

  /** `qpe["pars"] = qpe_pars`: None becomes a missing dictionary. */
  method DefaultQpe(qpe: MethodPars) returns (err: Option<Error>)
    modifies qpe
    ensures var d := QpeDefaults(old(qpe.methodName), old(ViewOf(qpe)).value.pars);
      (err.Some? <==> d.Fail?) && (err.Some? ==> err.value == d.err) &&
      (err.None? ==> ViewOf(qpe) == Some(MethodView(old(qpe.methodName), d.value)))
    ensures err.None? && qpe.pars != null ==> fresh(qpe.pars)
  {
    err := None;
    var qpePars := QpeBase(qpe.methodName);
    if qpe.pars != null {
      if qpe.methodName == "RATE_ZPOLY" {
        qpePars := None;
      } else {
        if qpePars.None? {
          return Some(AttributeError);
        }
        var merged := CopyKnown(qpePars.value, qpe.pars.entries, QpeNames(qpe.methodName));
        qpePars := Some(merged);
      }
    }
    if qpePars.None? {
      qpe.pars := null;
    } else {
      qpe.pars := new ArgDict(qpePars.value);
    }
  }

  // ---------------------------------------------------------------
  // List normalisation (create_cappi_loc.py)
  // ---------------------------------------------------------------

  /** A `fields`-like argument: one name or a list of names. */
  datatype NameArg = OneName(name: string) | NameList(names: seq<string>)

  /** `if type(x) is not list: x = [x]`. */
  function AsList(a: NameArg): (r: seq<string>)
    ensures a.OneName? ==> r == [a.name]
    ensures a.NameList? ==> r == a.names
  {
    match a
    case OneName(n) => [n]
    case NameList(l) => l
  }

  /** The same for an optional argument: None stays None. */
  function AsOptionalList(a: Option<NameArg>): (r: Option<seq<string>>)
    ensures a.None? <==> r.None?
    ensures a.Some? ==> r == Some(AsList(a.value))
  {
    if a.None? then None else Some(AsList(a.value))
  }

  /** A list passes unchanged, and normalising a normalised argument changes nothing. */
  lemma AsListIdempotent(a: NameArg)
    ensures AsList(NameList(AsList(a))) == AsList(a)
  {
  }
}
