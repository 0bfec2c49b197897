/**
 * The `{'method': ..., 'pars': {...}}` dictionaries through which the
 * api/ layer passes its PIA, filter, CAPPI and QPE settings.  The layer
 * updates the inner `pars` dictionary in place (the `_F` suffix of the
 * censor field, the attenuation keywords, the cleared QPE keywords), so
 * it is an `ArgDict`; a missing (None) `pars` is a null reference.
 */
module ApiConfig {
  import opened Wrappers
  import opened PyBase
  import opened Utilities

  class MethodPars {
    var methodName: string
    var pars: ArgDict?

    constructor (methodName: string, pars: ArgDict?)
      ensures this.methodName == methodName && this.pars == pars
    {
      this.methodName := methodName;
      this.pars := pars;
    }
  }

  /** The inner dictionary of a settings object, as a set for frames. */
  function ParsRef(p: MethodPars?): set<ArgDict>
    reads p
  {
    if p != null && p.pars != null then {p.pars} else {}
  }

  /** What a settings object holds at one moment: its method and a copy of its `pars`. */
  datatype MethodView = MethodView(methodName: string, pars: Option<map<string, Value>>)

  function ViewOf(p: MethodPars?): (v: Option<MethodView>)
    reads p, ParsRef(p)
    ensures v.None? <==> p == null
    ensures v.Some? ==> v.value.methodName == p.methodName && (v.value.pars.None? <==> p.pars == null)
  {
    if p == null then None
    else Some(MethodView(p.methodName, if p.pars == null then None else Some(p.pars.entries)))
  }

  /**
   * `pars["censor_field"] + "_F"`: subscripting a None `pars` or adding
   * `"_F"` to a non-string raises TypeError, a missing key KeyError.
   */
  function CensorSuffixed(pars: Option<map<string, Value>>): (r: Result<string>)
    ensures r.Ok? <==> pars.Some? && "censor_field" in pars.value && pars.value["censor_field"].VStr?
    ensures r.Ok? ==> r.value == pars.value["censor_field"].s + "_F" && EndsWith(r.value, "_F")
    ensures pars.Some? && "censor_field" !in pars.value ==> r == Fail(KeyError("censor_field"))
    ensures r.Fail? && !(pars.Some? && "censor_field" !in pars.value) ==> r == Fail(TypeError)
  {
    match pars
    case None => Fail(TypeError)
    case Some(m) =>
      if "censor_field" !in m then Fail(KeyError("censor_field"))
      else if !m["censor_field"].VStr? then Fail(TypeError)
      else Ok(m["censor_field"].s + "_F")
  }
}
