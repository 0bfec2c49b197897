/**
 * Which radar fields the api/ layer reads: the fields a rain-rate method
 * needs, plus those the conditioning steps need (the PIA input, the
 * `_F` censor field of the censoring median filter, `CMD_FLAG`), with
 * duplicates removed in first-occurrence order (`list(dict.fromkeys(...))`).
 */
module FieldPlan {
  import opened Wrappers
  import opened PyBase
  import opened ApiConfig
  import opened Filter

  /** The fields the QPE conditioning steps filter and mask. */
  const QpeFields: seq<string> := ["DBZ_F", "ZDR_F", "KDP_F"]

  /** The fields read when the rate method is not one of the five known ones. */
  const AllRateFields: seq<string> := ["DBZ_F", "ZDR_F", "KDP_F", "RHOHV_F", "NCP_F", "SNR_F"]

  /** The fields a rain-rate method needs. */
  function RateBaseFields(rateMethod: string): (r: seq<string>)
    ensures NoDuplicates(r) && "CMD_FLAG" !in r && |r| > 0
    ensures rateMethod in {"RATE_Z", "RATE_ZPOLY", "RATE_Z_ZDR"} ==> r[0] == "DBZ_F"
    ensures rateMethod in {"RATE_KDP", "RATE_KDP_ZDR"} ==> r[0] == "KDP_F"
    ensures rateMethod !in {"RATE_Z", "RATE_ZPOLY", "RATE_Z_ZDR", "RATE_KDP", "RATE_KDP_ZDR"} ==> r == AllRateFields
  {
    if rateMethod in {"RATE_Z", "RATE_ZPOLY"} then ["DBZ_F"]
    else if rateMethod == "RATE_Z_ZDR" then ["DBZ_F", "ZDR_F"]
    else if rateMethod == "RATE_KDP" then ["KDP_F"]
    else if rateMethod == "RATE_KDP_ZDR" then ["KDP_F", "ZDR_F"]
    else AllRateFields
  }

  /** The field the attenuation correction reads: KDP for method `kdp`, dBZ for any other. */
  function PiaInputField(piaMethod: string): string
  {
    if piaMethod == "kdp" then "KDP_F" else "DBZ_F"
  }

  function CmdFields(applyCmd: bool): seq<string>
  {
    if applyCmd then ["CMD_FLAG"] else []
  }

  predicate CensorFilter(filter: Option<MethodView>)
  {
    filter.Some? && filter.value.methodName == MedianCensorName
  }

  /**
   * The conditioning fields in the order the code appends them, before
   * duplicates are removed: a false (None) `pia` or `filter` adds nothing.
   */
  function ConditioningFields(pia: Option<MethodView>, filter: Option<MethodView>, applyCmd: bool)
    : (r: Result<seq<string>>)
    ensures r.Fail? <==> CensorFilter(filter) && CensorSuffixed(filter.value.pars).Fail?
    ensures r.Fail? ==> r.err == CensorSuffixed(filter.value.pars).err
    ensures r.Ok? ==> forall x :: x in r.value <==>
      (pia.Some? && x == PiaInputField(pia.value.methodName)) ||
      (CensorFilter(filter) && x == CensorSuffixed(filter.value.pars).value) ||
      (applyCmd && x == "CMD_FLAG")
  {
    var p := if pia.Some? then [PiaInputField(pia.value.methodName)] else [];
    if CensorFilter(filter) then
      match CensorSuffixed(filter.value.pars)
      case Fail(e) => Fail(e)
      case Ok(c) => Ok(p + [c] + CmdFields(applyCmd))
    else Ok(p + CmdFields(applyCmd))
  }

  /**
   * `getFieldsToUseQPE(pars)` of api/radarpolar_qpe.py (and its copy in
   * api/radar_polar.py): the method's fields first, then the
   * conditioning fields, each name once.
   */
  function FieldsToUseQPE(qpeMethod: string, pia: Option<MethodView>, filter: Option<MethodView>, applyCmd: bool)
    : (r: Result<seq<string>>)
    ensures r.Ok? <==> ConditioningFields(pia, filter, applyCmd).Ok?
    ensures r.Fail? ==> r.err == ConditioningFields(pia, filter, applyCmd).err
    ensures r.Ok? ==> NoDuplicates(r.value)
    ensures r.Ok? ==> forall x :: x in r.value <==>
      x in RateBaseFields(qpeMethod) || x in ConditioningFields(pia, filter, applyCmd).value
  {
    match ConditioningFields(pia, filter, applyCmd)
    case Fail(e) => Fail(e)
    case Ok(c) =>
      DedupNoDuplicates(RateBaseFields(qpeMethod) + c);
      Ok(Dedup(RateBaseFields(qpeMethod) + c))
  }

  /** The method's own fields come first, in their order. */
  lemma BaseFieldsFirst(qpeMethod: string, pia: Option<MethodView>, filter: Option<MethodView>, applyCmd: bool)
    requires FieldsToUseQPE(qpeMethod, pia, filter, applyCmd).Ok?
    ensures RateBaseFields(qpeMethod) <= FieldsToUseQPE(qpeMethod, pia, filter, applyCmd).value
  {
    var b := RateBaseFields(qpeMethod);
    DedupOfDistinct(b);
    DedupPrefix(b, ConditioningFields(pia, filter, applyCmd).value);
  }

  /** A name appears in the result exactly when some rule adds it. */
  lemma FieldsToUseQPEMembers(qpeMethod: string, pia: Option<MethodView>, filter: Option<MethodView>,
                              applyCmd: bool, x: string)
    requires FieldsToUseQPE(qpeMethod, pia, filter, applyCmd).Ok?
    ensures x in FieldsToUseQPE(qpeMethod, pia, filter, applyCmd).value <==>
      x in RateBaseFields(qpeMethod) ||
      (pia.Some? && x == (if pia.value.methodName == "kdp" then "KDP_F" else "DBZ_F")) ||
      (CensorFilter(filter) && filter.value.pars.Some? && x == filter.value.pars.value["censor_field"].s + "_F") ||
      (applyCmd && x == "CMD_FLAG")
  {
  }

  /** `CMD_FLAG` is read if and only if the clutter mask is applied. */
  lemma CmdFlagReadIffApplyCmd(qpeMethod: string, pia: Option<MethodView>, filter: Option<MethodView>, applyCmd: bool)
    requires FieldsToUseQPE(qpeMethod, pia, filter, applyCmd).Ok?
    ensures "CMD_FLAG" in FieldsToUseQPE(qpeMethod, pia, filter, applyCmd).value <==> applyCmd
  {
    if CensorFilter(filter) {
      var c := CensorSuffixed(filter.value.pars).value;
      assert c[|c| - 2..] == "_F";
      assert "CMD_FLAG"[6..] == "AG";
      assert c != "CMD_FLAG";
    }
  }

  /**
   * `getFieldsPiaFilterCmd(pars_pia, pars_filter, apply_cmd)` of
   * api/radarpolar_data.py: the conditioning fields alone, each once.
   */
  function FieldsPiaFilterCmd(pia: Option<MethodView>, filter: Option<MethodView>, applyCmd: bool)
    : (r: Result<seq<string>>)
    ensures r.Ok? <==> ConditioningFields(pia, filter, applyCmd).Ok?
    ensures r.Fail? ==> r.err == ConditioningFields(pia, filter, applyCmd).err
    ensures r.Ok? ==> NoDuplicates(r.value)
    ensures r.Ok? ==> forall x :: x in r.value <==> x in ConditioningFields(pia, filter, applyCmd).value
  {
    match ConditioningFields(pia, filter, applyCmd)
    case Fail(e) => Fail(e)
    case Ok(c) =>
      DedupNoDuplicates(c);
      Ok(Dedup(c))
  }

  /** Nothing is read for conditioning when there is no PIA, no censoring filter and no clutter mask. */
  lemma FieldsPiaFilterCmdEmpty(pia: Option<MethodView>, filter: Option<MethodView>, applyCmd: bool)
    requires FieldsPiaFilterCmd(pia, filter, applyCmd).Ok?
    ensures FieldsPiaFilterCmd(pia, filter, applyCmd).value == [] <==>
      pia.None? && !CensorFilter(filter) && !applyCmd
  {
    var r := FieldsPiaFilterCmd(pia, filter, applyCmd).value;
    if pia.Some? {
      assert PiaInputField(pia.value.methodName) in r;
    } else if CensorFilter(filter) {
      assert CensorSuffixed(filter.value.pars).value in r;
    } else if applyCmd {
      assert "CMD_FLAG" in r;
    }
  }
}
