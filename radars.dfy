/**
 * The pyart radar object as the modelled code uses it: a dictionary of
 * fields, updated in place by the conditioning steps, and the gate
 * spacing that the attenuation correction reads.
 */
module Radars {
  import opened Wrappers
  import opened Gates

  /** One entry of `radar.fields`: the masked data and its units (other metadata is not modelled). */
  datatype Field = Field(data: MArray, units: string)

  class Radar {
    var fields: map<string, Field>
    /** `radar.range['meters_between_gates']`. */
    var gateSpacing: real

    constructor (fields: map<string, Field>, gateSpacing: real)
      ensures this.fields == fields && this.gateSpacing == gateSpacing
    {
      this.fields := fields;
      this.gateSpacing := gateSpacing;
    }
  }

  /** `fields[name]['data']`, or the KeyError a missing name raises. */
  function FieldData(fields: map<string, Field>, name: string): (r: Result<MArray>)
    ensures r.Ok? <==> name in fields
    ensures r.Ok? ==> r.value == fields[name].data
    ensures r.Fail? ==> r.err == KeyError(name)
  {
    if name in fields then Ok(fields[name].data) else Fail(KeyError(name))
  }
}
