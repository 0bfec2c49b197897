/**
 * The conditioning the polar extractors (`extract_polar_data` and
 * `extract_polar_vertical`) share with `create_cappi_data`: the read list
 * they plan once, and the filter, attenuation correction and clutter mask
 * applied to each volume read, with the settings dictionaries updated in
 * place from one time to the next.
 */
module ExtractConditioning {
  import opened Wrappers
  import opened PyBase
  import opened Radars
  import opened ApiConfig
  import opened FieldPlan
  import opened ReadMdv
  import opened PolarReaders
  import opened PrecipPolar
  import opened CappiData

  /** The CAPPI entry of the shared settings type, which the conditioning steps never read. */
  const NoCappi := MethodView("", None)

  /** The settings of an extraction, in the type the conditioning steps of `create_cappi_data` take. */
  function ExtractSettings(fields: seq<string>, pia: Option<MethodView>, filter: Option<MethodView>, applyCmd: bool,
                           dbzFields: Option<seq<string>>, filterFields: Option<seq<string>>): (r: CappiSettings)
    ensures r.cappi == NoCappi
  {
    CappiSettings(fields, NoCappi, pia, filter, applyCmd, dbzFields, filterFields)
  }

  /**
   * `fields_read`: the requested fields, then the conditioning fields, each
   * name once and in that order.
   */
  function ExtractFieldsRead(st: CappiSettings): (r: Result<seq<string>>)
    ensures r.Ok? <==> FieldsPiaFilterCmd(st.pia, st.filter, st.applyCmd).Ok?
    ensures r.Fail? ==> r.err == FieldsPiaFilterCmd(st.pia, st.filter, st.applyCmd).err
    ensures r.Ok? ==> NoDuplicates(r.value) && Dedup(st.fields) <= r.value
    ensures r.Ok? ==> forall x :: x in r.value <==> x in st.fields || x in FieldsPiaFilterCmd(st.pia, st.filter, st.applyCmd).value
  {
    match FieldsPiaFilterCmd(st.pia, st.filter, st.applyCmd)
    case Fail(e) => Fail(e)
    case Ok(c) =>
      DedupNoDuplicates(st.fields + c);
      DedupPrefix(st.fields, c);
      Ok(Dedup(st.fields + c))
  }

  /**
   * `readRadarPolar(dirDate, time, fields_read)` followed by the filter,
   * the attenuation correction and the clutter mask, on settings `st`:
   * the fields after conditioning and the settings it leaves, in which
   * only the PIA and filter entries can differ.
   */
  function ConditionedRead(e: Engines, read: seq<string>, file: MdvFile, st: CappiSettings): (r: Result<CappiStaged>)
    ensures r.Ok? ==> r.value.fields.Keys == PolarRead(file, FieldsList(read)).Keys
    ensures r.Ok? ==> (r.value.settings.fields == st.fields && r.value.settings.cappi == st.cappi &&
      r.value.settings.applyCmd == st.applyCmd && r.value.settings.dbzFields == st.dbzFields &&
      r.value.settings.filterFields == st.filterFields)
  {
    var x := CappiStaged(PolarRead(file, FieldsList(read)), st);
    match Condition(x, file.gateSpacing, e)
    case Fail(err) => Fail(err)
    case Ok(y) =>
      ConditionKeepsLists(x, file.gateSpacing, e);
      Ok(y)
  }

  /** The conditioning changes only the PIA and filter settings. */
  lemma ConditionKeepsLists(x: CappiStaged, gateSpacing: real, e: Engines)
    requires Condition(x, gateSpacing, e).Ok?
    ensures var s := Condition(x, gateSpacing, e).value.settings;
      s.dbzFields == x.settings.dbzFields && s.filterFields == x.settings.filterFields
  {
    var x1 := FilterStage(x, e.k).value;
    var x2 := PiaStage(x1, gateSpacing, e.s).value;
    assert CmdStage(x2).value.settings == x2.settings;
  }

  /** A field read and named by none of the conditioning lists reaches the extraction as read. */
  lemma ConditionedReadKeepsUnlisted(e: Engines, read: seq<string>, file: MdvFile, st: CappiSettings, f: string)
    requires ConditionedRead(e, read, file, st).Ok?
    requires f in PolarRead(file, FieldsList(read))
    requires f !in st.fields && f !in OrEmpty(st.dbzFields) && f !in OrEmpty(st.filterFields)
    ensures ConditionedRead(e, read, file, st).value.fields[f] == PolarRead(file, FieldsList(read))[f]
  {
  }

  /** Settings that request `fields`. */
  function SameFields(fields: seq<string>): CappiSettings -> bool
  {
    (s: CappiSettings) => s.fields == fields
  }

  /** The settings objects of a call are distinct and share no `pars` dictionary. */
  predicate Apart(pia: MethodPars?, filter: MethodPars?)
    reads pia, filter
  {
    (pia != null ==> pia != filter) && ParsRef(pia) !! ParsRef(filter)
  }

  /**
   * The volume of one time read into a radar object and conditioned in
   * place, the request's settings dictionaries updated as the steps go.
   */
  method ConditionFile(e: Engines, read: seq<string>, file: MdvFile, req: CappiRequest)
    returns (r: Result<map<string, Field>>)
    requires CappiData.Separate(req)
    modifies ParsRef(req.pia), ParsRef(req.filter)
    ensures var spec := ConditionedRead(e, read, file, old(CappiData.SettingsOf(req)));
      (r.Fail? <==> spec.Fail?) && (r.Fail? ==> r.err == spec.err) &&
      (r.Ok? ==> r.value == spec.value.fields && CappiData.SettingsOf(req) == spec.value.settings)
  {
    ghost var st := CappiData.SettingsOf(req);
    var radar := ReadRadarPolar(Some(file), FieldsList(read));
    ghost var x0 := CappiStaged(radar.fields, st);
    var err := ConditionRadar(radar, req, e);
    if err.Some? {
      return Fail(err.value);
    }
    ghost var x := CappiStaged(radar.fields, CappiData.SettingsOf(req));
    assert Condition(x0, file.gateSpacing, e) == Ok(x);
    return Ok(radar.fields);
  }
}
