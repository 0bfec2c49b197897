/**
 * Path-integrated attenuation (util/pia.py): how `calculate_pia_dict_args`,
 * `calculate_pia` and `correct_attenuation` assemble the keyword arguments
 * of the two wradlib solvers.  The solvers themselves are parameters; the
 * model states which solver is called, on which field, with which
 * keywords.
 */
module Pia {
  import opened Wrappers
  import opened PyBase
  import opened Gates
  import opened Radars
  import opened Utilities

  /** `wradlib.atten.constraint_dbz` and `wradlib.atten.constraint_pia`. */
  datatype Constraint = ConstraintDbz | ConstraintPia

  /** A solver keyword: a plain value, a list of constraint functions, or their argument lists. */
  datatype PiaArg = Plain(v: Value) | Constraints(fs: seq<Constraint>) | ConstraintArgs(args: seq<seq<Value>>)

  /** The call `correct_attenuation` makes: which solver, on which field, with which keywords. */
  datatype SolverCall =
    | Constrained(dbz: MArray, kwargs: map<string, PiaArg>)   // correct_attenuation_constrained
    | FromKdp(kdp: MArray, kwargs: map<string, PiaArg>)       // pia_from_kdp

  /** The two wradlib solvers, left uninterpreted. */
  datatype Solvers = Solvers(constrained: (MArray, map<string, PiaArg>) -> MArray,
                             fromKdp: (MArray, map<string, PiaArg>) -> MArray)

  function Solve(s: Solvers, c: SolverCall): MArray
  {
    match c
    case Constrained(d, kw) => s.constrained(d, kw)
    case FromKdp(d, kw) => s.fromKdp(d, kw)
  }

  /** The named parameters of `correct_attenuation` after `radar`. */
  const CorrectAttenuationParams: seq<string> := ["pia_field", "dbz_field", "kdp_field"]

  /** The parameters of `wradlib.atten.correct_attenuation_constrained` after the gate set. */
  const ConstrainedParams: seq<string> :=
    ["a_max", "a_min", "n_a", "b_max", "b_min", "n_b", "gate_length", "constraints", "constraint_args", "sector_thr"]

  /** The parameters of `wradlib.atten.pia_from_kdp` after the KDP field. */
  const FromKdpParams: seq<string> := ["dr", "gamma"]

  /** The keywords `calculate_pia` lets through. */
  const AcceptedParams: seq<string> := CorrectAttenuationParams + ConstrainedParams + FromKdpParams

  /** `dict((key, kw[key]) for key in params if key in kw)`. */
  function Restrict(kw: map<string, PiaArg>, params: seq<string>): (r: map<string, PiaArg>)
    ensures r.Keys == set k | k in kw && k in params
    ensures forall k :: k in r ==> r[k] == kw[k]
  {
    map k | k in kw && k in params :: kw[k]
  }

  function Lift(m: map<string, Value>): (r: map<string, PiaArg>)
    ensures r.Keys == m.Keys && forall k :: k in m ==> r[k] == Plain(m[k])
  {
    map k | k in m :: Plain(m[k])
  }

  /** `str(key)` of a keyword value used to index `radar.fields`. */
  function ArgKey(a: PiaArg): string
  {
    if a.Plain? then Repr(a.v) else "<list>"
  }

  /** `kw.get(key, default)`. */
  function GetArg(kw: map<string, PiaArg>, key: string, default: PiaArg): PiaArg
  {
    if key in kw then kw[key] else default
  }

  /**
   * `correct_attenuation(radar, **kw)`: `pia_field` "dbz" calls the
   * constrained solver on `dbz_field`, "kdp" calls `pia_from_kdp` on
   * `kdp_field`; each gets the extra keywords it accepts, with the gate
   * length (`gate_length` or `dr`) defaulting to the gate spacing in km.
   * Any other `pia_field` leaves `pia` unbound.
   */
  function CorrectAttenuation(fields: map<string, Field>, gateSpacing: real, kw: map<string, PiaArg>)
    : (r: Result<SolverCall>)
    ensures var pf := GetArg(kw, "pia_field", Plain(VStr("dbz")));
      pf != Plain(VStr("dbz")) && pf != Plain(VStr("kdp")) ==> r == Fail(UnboundLocalError("pia"))
    ensures r.Ok? && r.value.Constrained? ==>
      GetArg(kw, "pia_field", Plain(VStr("dbz"))) == Plain(VStr("dbz")) &&
      GetArg(kw, "dbz_field", Plain(VStr("DBZ_F"))) == Plain(VStr(FieldKeyOf(kw, "dbz_field", "DBZ_F"))) &&
      FieldKeyOf(kw, "dbz_field", "DBZ_F") in fields && r.value.dbz == fields[FieldKeyOf(kw, "dbz_field", "DBZ_F")].data &&
      (forall k :: k in r.value.kwargs ==> k in ConstrainedParams) &&
      "gate_length" in r.value.kwargs &&
      r.value.kwargs["gate_length"] == GetArg(kw, "gate_length", Plain(VReal(gateSpacing / 1000.0))) &&
      (forall k :: k in kw && k in ConstrainedParams ==> k in r.value.kwargs && r.value.kwargs[k] == kw[k])
    ensures r.Ok? && r.value.FromKdp? ==>
      GetArg(kw, "pia_field", Plain(VStr("dbz"))) == Plain(VStr("kdp")) &&
      FieldKeyOf(kw, "kdp_field", "KDP_F") in fields && r.value.kdp == fields[FieldKeyOf(kw, "kdp_field", "KDP_F")].data &&
      (forall k :: k in r.value.kwargs ==> k in FromKdpParams) &&
      "dr" in r.value.kwargs &&
      r.value.kwargs["dr"] == GetArg(kw, "dr", Plain(VReal(gateSpacing / 1000.0))) &&
      (forall k :: k in kw && k in FromKdpParams ==> k in r.value.kwargs && r.value.kwargs[k] == kw[k])
  {
    var pf := GetArg(kw, "pia_field", Plain(VStr("dbz")));
    var extra := map k | k in kw && k !in CorrectAttenuationParams :: kw[k];
    var dr := Plain(VReal(gateSpacing / 1000.0));
    if pf == Plain(VStr("dbz")) then
      var df := GetArg(kw, "dbz_field", Plain(VStr("DBZ_F")));
      if !(df.Plain? && df.v.VStr? && df.v.s in fields) then Fail(KeyError(ArgKey(df)))
      else
        var pk := Restrict(extra, ConstrainedParams);
        Ok(Constrained(fields[df.v.s].data, if "gate_length" in extra then pk else pk["gate_length" := dr]))
    else if pf == Plain(VStr("kdp")) then
      var kf := GetArg(kw, "kdp_field", Plain(VStr("KDP_F")));
      if !(kf.Plain? && kf.v.VStr? && kf.v.s in fields) then Fail(KeyError(ArgKey(kf)))
      else
        var pk := Restrict(extra, FromKdpParams);
        Ok(FromKdp(fields[kf.v.s].data, if "dr" in extra then pk else pk["dr" := dr]))
    else Fail(UnboundLocalError("pia"))
  }

  /** The field name a keyword designates, when it is a string (else its default). */
  function FieldKeyOf(kw: map<string, PiaArg>, key: string, default: string): string
  {
    var a := GetArg(kw, key, Plain(VStr(default)));
    if a.Plain? && a.v.VStr? then a.v.s else default
  }

  /** `calculate_pia(radar, **kw)`: only the keywords of the three signatures reach `correct_attenuation`. */
  function CalculatePia(fields: map<string, Field>, gateSpacing: real, kw: map<string, PiaArg>)
    : (r: Result<SolverCall>)
    ensures r == CorrectAttenuation(fields, gateSpacing, Restrict(kw, AcceptedParams))
  {
    CorrectAttenuation(fields, gateSpacing, Restrict(kw, AcceptedParams))
  }

  /** `'constraint' in k`. */
  predicate IsConstraintKey(k: string)
  {
    exists i: nat :: i + 10 <= |k| && Window(k, i) == "constraint"
  }

  /** The ten characters of `k` from `i`. */
  function Window(k: string, i: nat): string
    requires i + 10 <= |k|
  {
    k[i..i + 10]
  }

  predicate HasConstraintKeys(m: map<string, Value>)
  {
    exists k :: k in m && IsConstraintKey(k)
  }

  /** The two solver keywords the split builds are themselves constraint-named. */
  lemma ConstraintNamesAreConstraintKeys()
    ensures IsConstraintKey("constraints") && IsConstraintKey("constraint_args")
  {
    assert Window("constraints", 0) == "constraint";
    assert Window("constraint_args", 0) == "constraint";
  }

  /**
   * The `constraints` and `constraint_args` keywords built from the
   * user's `constraints` choice: "both", "dbz", "pia", anything else None.
   */
  function ConstraintChoice(m: map<string, Value>): (r: Result<(PiaArg, PiaArg)>)
    ensures r.Fail? ==> r.err.KeyError?
    ensures r.Ok? ==> "constraints" in m
    ensures r.Ok? && m["constraints"] == VStr("both") ==>
      "constraint_args_dbz" in m && "constraint_args_pia" in m &&
      r.value == (Constraints([ConstraintDbz, ConstraintPia]),
                  ConstraintArgs([[m["constraint_args_dbz"]], [m["constraint_args_pia"]]]))
    ensures r.Ok? && m["constraints"] == VStr("dbz") ==>
      "constraint_args_dbz" in m &&
      r.value == (Constraints([ConstraintDbz]), ConstraintArgs([[m["constraint_args_dbz"]]]))
    ensures r.Ok? && m["constraints"] == VStr("pia") ==>
      "constraint_args_pia" in m &&
      r.value == (Constraints([ConstraintPia]), ConstraintArgs([[m["constraint_args_pia"]]]))
    ensures r.Ok? && m["constraints"] !in {VStr("both"), VStr("dbz"), VStr("pia")} ==>
      r.value == (Plain(VNone), Plain(VNone))
  {
    if "constraints" !in m then Fail(KeyError("constraints"))
    else
      var c := m["constraints"];
      if c == VStr("both") then
        if "constraint_args_dbz" !in m then Fail(KeyError("constraint_args_dbz"))
        else if "constraint_args_pia" !in m then Fail(KeyError("constraint_args_pia"))
        else Ok((Constraints([ConstraintDbz, ConstraintPia]),
                 ConstraintArgs([[m["constraint_args_dbz"]], [m["constraint_args_pia"]]])))
      else if c == VStr("dbz") then
        if "constraint_args_dbz" !in m then Fail(KeyError("constraint_args_dbz"))
        else Ok((Constraints([ConstraintDbz]), ConstraintArgs([[m["constraint_args_dbz"]]])))
      else if c == VStr("pia") then
        if "constraint_args_pia" !in m then Fail(KeyError("constraint_args_pia"))
        else Ok((Constraints([ConstraintPia]), ConstraintArgs([[m["constraint_args_pia"]]])))
      else Ok((Plain(VNone), Plain(VNone)))
  }

  /**
   * The dbz keywords when constraint keys are present: those keys are
   * split off and replaced by `constraints`/`constraint_args`, then
   * `dbz_field` and `pia_field` are set.
   */
  function ConstrainedKwargs(m: map<string, Value>, dbzField: string): (r: Result<map<string, PiaArg>>)
    ensures r.Fail? <==> ConstraintChoice(m).Fail?
    ensures r.Fail? ==> r.err == ConstraintChoice(m).err
    ensures r.Ok? ==> forall k :: k in r.value && IsConstraintKey(k) ==> k == "constraints" || k == "constraint_args"
    ensures r.Ok? ==> forall k :: k in m && !IsConstraintKey(k) && k != "dbz_field" && k != "pia_field" ==>
      k in r.value && r.value[k] == Plain(m[k])
    ensures r.Ok? ==> "dbz_field" in r.value && r.value["dbz_field"] == Plain(VStr(dbzField)) &&
                      "pia_field" in r.value && r.value["pia_field"] == Plain(VStr("dbz"))
    ensures r.Ok? ==>
      "constraints" in r.value && "constraint_args" in r.value &&
      (r.value["constraints"], r.value["constraint_args"]) == ConstraintChoice(m).value
  {
    match ConstraintChoice(m)
    case Fail(e) => Fail(e)
    case Ok((c, a)) =>
      ConstraintNamesAreConstraintKeys();
      Ok(NonConstraint(m)["constraints" := c]["constraint_args" := a]["dbz_field" := Plain(VStr(dbzField))]
             ["pia_field" := Plain(VStr("dbz"))])
  }

  /** The keywords whose names do not contain "constraint". */
  function NonConstraint(m: map<string, Value>): (r: map<string, PiaArg>)
    ensures forall k :: k in r <==> k in m && !IsConstraintKey(k)
    ensures forall k :: k in r ==> r[k] == Plain(m[k])
  {
    map k | k in m && !IsConstraintKey(k) :: Plain(m[k])
  }

  /**
   * The user's argument dictionary after the call: converted in place and,
   * unless constraint keys made the code build a new dictionary, with the
   * field keywords written into it.
   */
  function UserArgsAfter(conv: map<string, Value>, piaField: string, dbzField: string, kdpField: string)
    : (r: map<string, Value>)
    ensures piaField == "dbz" && HasConstraintKeys(conv) ==> r == conv
    ensures piaField == "dbz" && !HasConstraintKeys(conv) ==>
      r == conv["dbz_field" := VStr(dbzField)]["pia_field" := VStr(piaField)]
    ensures piaField != "dbz" ==> r == conv["kdp_field" := VStr(kdpField)]["pia_field" := VStr(piaField)]
  {
    if piaField == "dbz" then
      if HasConstraintKeys(conv) then conv
      else conv["dbz_field" := VStr(dbzField)]["pia_field" := VStr(piaField)]
    else conv["kdp_field" := VStr(kdpField)]["pia_field" := VStr(piaField)]
  }

  /** The keywords `calculate_pia` receives from a converted argument dictionary. */
  function PiaKwargs(conv: map<string, Value>, piaField: string, dbzField: string, kdpField: string)
    : (r: Result<map<string, PiaArg>>)
    ensures !(piaField == "dbz" && HasConstraintKeys(conv)) ==>
      r == Ok(Lift(UserArgsAfter(conv, piaField, dbzField, kdpField)))
    ensures piaField == "dbz" && HasConstraintKeys(conv) ==> r == ConstrainedKwargs(conv, dbzField)
  {
    if piaField == "dbz" && HasConstraintKeys(conv) then ConstrainedKwargs(conv, dbzField)
    else Ok(Lift(UserArgsAfter(conv, piaField, dbzField, kdpField)))
  }

  // ---------------------------------------------------------------
  // calculate_pia_dict_args
  // ---------------------------------------------------------------

  /** The `pia` dictionary: `use_pia`, `pia_field` and the per-method argument dictionaries. */
  class PiaPars {
    var usePia: Value
    var piaField: string
    var methodArgs: map<string, ArgDict>

    constructor (usePia: Value, piaField: string, methodArgs: map<string, ArgDict>)
      ensures this.usePia == usePia && this.piaField == piaField && this.methodArgs == methodArgs
    {
      this.usePia := usePia;
      this.piaField := piaField;
      this.methodArgs := methodArgs;
    }
  }

  /** The argument dictionary `calculate_pia_dict_args` would update, if any. */
  function PiaUpdated(pia: PiaPars?): set<ArgDict>
    reads pia
  {
    if pia != null && pia.piaField in pia.methodArgs then {pia.methodArgs[pia.piaField]} else {}
  }

  /** What `calculate_pia_dict_args` reads of `pia`. */
  datatype PiaConfig = PiaConfig(usePia: Value, piaField: string, args: Option<map<string, Value>>)

  function PiaConfigOf(pia: PiaPars?): (c: Option<PiaConfig>)
    reads pia, PiaUpdated(pia)
    ensures c.None? <==> pia == null
  {
    if pia == null then None
    else Some(PiaConfig(pia.usePia, pia.piaField,
                        if pia.piaField in pia.methodArgs then Some(pia.methodArgs[pia.piaField].entries) else None))
  }

  /**
   * The outcome of `calculate_pia_dict_args(radar, pia, dbz_field,
   * kdp_field)`: None without `pia` or with a false `use_pia`; the
   * solver's result otherwise.  Without an argument dictionary for the
   * method, `correct_attenuation` runs with its own defaults.
   */
  function PiaDictSpec(fields: map<string, Field>, gateSpacing: real, cfg: Option<PiaConfig>, dbzField: string,
                       kdpField: string, s: Solvers): (r: Result<Option<MArray>>)
    ensures cfg.None? || !Truthy(cfg.value.usePia) ==> r == Ok(None)
    ensures cfg.Some? && Truthy(cfg.value.usePia) && cfg.value.args.None? ==>
      r == (match CorrectAttenuation(fields, gateSpacing, map["pia_field" := Plain(VStr(cfg.value.piaField))])
            case Ok(c) => Ok(Some(Solve(s, c))) case Fail(e) => Fail(e))
    ensures cfg.Some? && Truthy(cfg.value.usePia) && cfg.value.args.Some? ==>
      var conv := Converted(cfg.value.args.value);
      (conv.Fail? ==> r == Fail(ValueError)) &&
      (conv.Ok? ==>
        var kw := PiaKwargs(conv.value, cfg.value.piaField, dbzField, kdpField);
        (kw.Fail? ==> r == Fail(kw.err)) &&
        (kw.Ok? ==> r == (match CalculatePia(fields, gateSpacing, kw.value)
                          case Ok(c) => Ok(Some(Solve(s, c))) case Fail(e) => Fail(e))))
  {
    if cfg.None? || !Truthy(cfg.value.usePia) then Ok(None)
    else
      var call :=
        if cfg.value.args.None? then CorrectAttenuation(fields, gateSpacing, map["pia_field" := Plain(VStr(cfg.value.piaField))])
        else match Converted(cfg.value.args.value)
             case Fail(e) => Fail(e)
             case Ok(conv) =>
               match PiaKwargs(conv, cfg.value.piaField, dbzField, kdpField)
               case Fail(e) => Fail(e)
               case Ok(kw) => CalculatePia(fields, gateSpacing, kw);
      match call
      case Ok(c) => Ok(Some(Solve(s, c)))
      case Fail(e) => Fail(e)
  }

  /**
   * `calculate_pia_dict_args`: the outcome of `PiaDictSpec` on the
   * parameters as they were on entry.  The method's argument dictionary
   * is converted in place and, unless constraint keys are present, gets
   * the field keywords written into it.
   */
  method CalculatePiaDictArgs(radar: Radar, pia: PiaPars?, dbzField: string, kdpField: string, s: Solvers)
    returns (r: Result<Option<MArray>>)
    modifies PiaUpdated(pia)
    ensures r == PiaDictSpec(radar.fields, radar.gateSpacing, old(PiaConfigOf(pia)), dbzField, kdpField, s)
    ensures pia != null && Truthy(pia.usePia) && pia.piaField in pia.methodArgs &&
            Converted(old(pia.methodArgs[pia.piaField].entries)).Ok? ==>
      pia.methodArgs[pia.piaField].entries ==
        UserArgsAfter(Converted(old(pia.methodArgs[pia.piaField].entries)).value, pia.piaField, dbzField, kdpField)
  {
    if pia == null || !Truthy(pia.usePia) {
      return Ok(None);
    }
    var pf := pia.piaField;
    var call: Result<SolverCall>;
    if pf !in pia.methodArgs {
      call := CorrectAttenuation(radar.fields, radar.gateSpacing, map["pia_field" := Plain(VStr(pf))]);
    } else {
      var d := pia.methodArgs[pf];
      var conv := Str2NumericDictArgs(d);
      if conv.Fail? {
        return Fail(conv.err);
      }
      if pf == "dbz" && HasConstraintKeys(d.entries) {
        var kw := ConstrainedKwargs(d.entries, dbzField);
        if kw.Fail? {
          return Fail(kw.err);
        }
        call := CalculatePia(radar.fields, radar.gateSpacing, kw.value);
      } else {
        if pf == "dbz" {
          d.entries := d.entries["dbz_field" := VStr(dbzField)];
        } else {
          d.entries := d.entries["kdp_field" := VStr(kdpField)];
        }
        d.entries := d.entries["pia_field" := VStr(pf)];
        call := CalculatePia(radar.fields, radar.gateSpacing, Lift(d.entries));
      }
    }
    r := if call.Ok? then Ok(Some(Solve(s, call.value))) else Fail(call.err);
  }

  /**
   * Whatever the user's dbz parameters hold, the keywords reaching the
   * constrained solver are only its own, and none of the user's
   * `constraint_args_*` keys is among them.
   */
  lemma ConstraintKeysNeverReachSolver(fields: map<string, Field>, gateSpacing: real, conv: map<string, Value>,
                                       dbzField: string)
    requires ConstrainedKwargs(conv, dbzField).Ok?
    requires CalculatePia(fields, gateSpacing, ConstrainedKwargs(conv, dbzField).value).Ok?
    ensures var c := CalculatePia(fields, gateSpacing, ConstrainedKwargs(conv, dbzField).value).value;
      c.Constrained? &&
      "constraint_args_dbz" !in c.kwargs && "constraint_args_pia" !in c.kwargs &&
      "constraints" in c.kwargs && "constraint_args" in c.kwargs
  {
    var kw := ConstrainedKwargs(conv, dbzField).value;
    var rk := Restrict(kw, AcceptedParams);
    var c := CalculatePia(fields, gateSpacing, kw).value;
    assert AcceptedParams[0] == "pia_field";
    assert GetArg(rk, "pia_field", Plain(VStr("dbz"))) == Plain(VStr("dbz"));
    assert ConstrainedParams[7] == "constraints" && ConstrainedParams[8] == "constraint_args";
    assert AcceptedParams[10] == "constraints" && AcceptedParams[11] == "constraint_args";
    assert "constraints" in rk && "constraint_args" in rk;
    LongKeyNotSolverParam("constraint_args_dbz");
    LongKeyNotSolverParam("constraint_args_pia");
  }

  /** Every parameter name of the constrained solver has at most 15 characters. */
  lemma LongKeyNotSolverParam(k: string)
    requires |k| > 15
    ensures k !in ConstrainedParams
  {
    forall i | 0 <= i < |ConstrainedParams| ensures |ConstrainedParams[i]| <= 15 {
    }
  }

  /** The gate length handed to the constrained solver is the gate spacing in km unless the user gave one. */
  lemma DefaultGateLength(fields: map<string, Field>, gateSpacing: real, conv: map<string, Value>)
    requires !HasConstraintKeys(conv) && "gate_length" !in conv && "DBZ_F" in fields
    ensures var c := PiaKwargs(conv, "dbz", "DBZ_F", "KDP_F");
      c.Ok? && CalculatePia(fields, gateSpacing, c.value) ==
        Ok(Constrained(fields["DBZ_F"].data, CalculatePia(fields, gateSpacing, c.value).value.kwargs)) &&
      CalculatePia(fields, gateSpacing, c.value).value.kwargs["gate_length"] == Plain(VReal(gateSpacing / 1000.0))
  {
    var kw := PiaKwargs(conv, "dbz", "DBZ_F", "KDP_F").value;
    var rk := Restrict(kw, AcceptedParams);
    assert "pia_field" in AcceptedParams && "dbz_field" in AcceptedParams;
    assert rk["pia_field"] == Plain(VStr("dbz")) && rk["dbz_field"] == Plain(VStr("DBZ_F"));
    assert "gate_length" !in rk;
  }

  // ---------------------------------------------------------------
  // Repeated calls on the same parameters
  // ---------------------------------------------------------------

  /**
   * As written, a kdp call leaves `kdp_field = 'KDP_F'` in the caller's
   * argument dictionary.  A second call on the same dictionary hands that
   * string to `str2numeric_dict_args`; it is neither alphabetic nor
   * numeric, so `float('KDP_F')` raises ValueError.
   */
  lemma KdpSecondCallFails(fields: map<string, Field>, gateSpacing: real, usePia: Value,
                           args: map<string, Value>, dbzField: string, s: Solvers)
    requires Truthy(usePia) && Converted(args).Ok?
    ensures var after := UserArgsAfter(Converted(args).value, "kdp", dbzField, "KDP_F");
      PiaDictSpec(fields, gateSpacing, Some(PiaConfig(usePia, "kdp", Some(after))), dbzField, "KDP_F", s)
        == Fail(ValueError)
  {
    var after := UserArgsAfter(Converted(args).value, "kdp", dbzField, "KDP_F");
    assert "KDP_F"[3] == '_' && !IsAlphaChar("KDP_F"[3]) && !IsDigitChar("KDP_F"[0]);
    ParseFloatRejectsName("KDP_F");
    assert "kdp_field" in after && ConvertValue(after["kdp_field"]).Fail?;
  }

  /** Two calls as written on the same kdp parameters: the second one raises ValueError. */
  method CalculatePiaTwiceAsWritten(radar: Radar, pia: PiaPars, dbzField: string, s: Solvers)
    returns (r1: Result<Option<MArray>>, r2: Result<Option<MArray>>)
    requires Truthy(pia.usePia) && pia.piaField == "kdp" && "kdp" in pia.methodArgs
    requires Converted(pia.methodArgs["kdp"].entries).Ok?
    modifies PiaUpdated(pia)
    ensures r1 == PiaDictSpec(radar.fields, radar.gateSpacing, old(PiaConfigOf(pia)), dbzField, "KDP_F", s)
    ensures r2 == Fail(ValueError)
  {
    var args := pia.methodArgs["kdp"].entries;
    r1 := CalculatePiaDictArgs(radar, pia, dbzField, "KDP_F", s);
    KdpSecondCallFails(radar.fields, radar.gateSpacing, pia.usePia, args, dbzField, s);
    assert PiaConfigOf(pia) ==
      Some(PiaConfig(pia.usePia, "kdp", Some(UserArgsAfter(Converted(args).value, "kdp", dbzField, "KDP_F"))));
    r2 := CalculatePiaDictArgs(radar, pia, dbzField, "KDP_F", s);
  }

  /**
   * `calculate_pia_dict_args` on a copy of the method's argument
   * dictionary, as the caller evidently intends: the result is the one
   * the parameters describe, and the caller's parameters are left as
   * they were, so calling again gives the same result.
   */
  method CalculatePiaDictArgsOnCopy(radar: Radar, pia: PiaPars?, dbzField: string, kdpField: string,
                                    s: Solvers) returns (r: Result<Option<MArray>>)
    ensures r == PiaDictSpec(radar.fields, radar.gateSpacing, PiaConfigOf(pia), dbzField, kdpField, s)
  {
    if pia == null {
      r := CalculatePiaDictArgs(radar, null, dbzField, kdpField, s);
      return;
    }
    var margs := pia.methodArgs;
    if pia.piaField in margs {
      var copy := new ArgDict(margs[pia.piaField].entries);
      margs := margs[pia.piaField := copy];
    }
    var p := new PiaPars(pia.usePia, pia.piaField, margs);
    assert PiaConfigOf(p) == PiaConfigOf(pia);
    r := CalculatePiaDictArgs(radar, p, dbzField, kdpField, s);
  }

  /** With the copy, a second call on the same parameters gives the first call's result. */
  method CalculatePiaTwiceOnCopy(radar: Radar, pia: PiaPars?, dbzField: string, kdpField: string, s: Solvers)
    returns (r1: Result<Option<MArray>>, r2: Result<Option<MArray>>)
    ensures r1 == PiaDictSpec(radar.fields, radar.gateSpacing, PiaConfigOf(pia), dbzField, kdpField, s)
    ensures r2 == r1
  {
    r1 := CalculatePiaDictArgsOnCopy(radar, pia, dbzField, kdpField, s);
    r2 := CalculatePiaDictArgsOnCopy(radar, pia, dbzField, kdpField, s);
  }
}
