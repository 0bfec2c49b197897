/**
 * `readRadarPolar(dirRadar, time, fields)` of api/radarpolar_data.py and
 * its copy in api/radar_polar.py: the file `mdv_end_time_file` selects
 * (None when the directory has none for the time) is read with
 * `radarPolar`.  The selection is `MdvEndTimeFile` of RadarDateTime; here
 * its outcome, with the content of the selected file, is a parameter.
 */
module PolarReaders {
  import opened Wrappers
  import opened Radars
  import opened ReadMdv

  /** The content of an MDV polar file: its fields and the gate spacing in metres. */
  datatype MdvFile = MdvFile(fields: map<string, Field>, gateSpacing: real)

  /** The fields a `radarPolar` read of `file` loads; a shorthand for the readers below. */
  function PolarRead(file: MdvFile, fields: FieldsArg): map<string, Field>
  {
    RadarPolarFields(file.fields, fields)
  }

  /** api/radarpolar_data.py: None when no file was found. */
  method ReadRadarPolar(found: Option<MdvFile>, fields: FieldsArg) returns (radar: Radar?)
    ensures radar == null <==> found.None?
    ensures radar != null ==>
      fresh(radar) && radar.fields == PolarRead(found.value, fields) && radar.gateSpacing == found.value.gateSpacing
  {
    if found.None? {
      return null;
    }
    radar := new Radar(PolarRead(found.value, fields), found.value.gateSpacing);
  }

  /**
   * api/radar_polar.py: the same read without the None guard, so a time
   * with no file raises TypeError on `mdvtime[0]`.
   */
  method ReadRadarPolarUnguarded(found: Option<MdvFile>, fields: FieldsArg) returns (r: Result<Radar>)
    ensures r.Fail? <==> found.None?
    ensures r.Fail? ==> r.err == TypeError
    ensures r.Ok? ==>
      fresh(r.value) && r.value.fields == PolarRead(found.value, fields) && r.value.gateSpacing == found.value.gateSpacing
  {
    if found.None? {
      return Fail(TypeError);
    }
    var radar := new Radar(PolarRead(found.value, fields), found.value.gateSpacing);
    return Ok(radar);
  }
}
