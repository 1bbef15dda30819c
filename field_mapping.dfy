/** `FieldMapper.map_to_six_field_format`: ERP data, keyed by field name,
    laid out as the store's six-entry location list. */
module FieldMapping {

  /** The six field names, in location order. */
  const FieldNames: seq<string> :=
    ["customer", "site", "area", "location_id", "deployment_type", "trap_configuration"]

  /** What a missing field becomes. */
  const Defaults: seq<string> := ["", "", "", "", "Internal", "Bait/Lured"]

  /** `data.get(name, default)` for each field in turn. */
  function MapToSixFieldFormat(data: map<string, string>): (location: seq<string>)
    ensures |location| == 6
    ensures forall i :: 0 <= i < 6 ==>
      location[i] == (if FieldNames[i] in data then data[FieldNames[i]] else Defaults[i])
  {
    seq(6, i requires 0 <= i < 6 => if FieldNames[i] in data then data[FieldNames[i]] else Defaults[i])
  }

  /** The fields of a six-entry location, keyed by name. */
  function FieldsOf(location: seq<string>): (data: map<string, string>)
    requires |location| == 6
    ensures forall i :: 0 <= i < 6 ==> FieldNames[i] in data && data[FieldNames[i]] == location[i]
  {
    map[FieldNames[0] := location[0], FieldNames[1] := location[1], FieldNames[2] := location[2],
        FieldNames[3] := location[3], FieldNames[4] := location[4], FieldNames[5] := location[5]]
  }

  /** Naming the entries of a location and laying them out again gives the
      same location. */
  lemma LayoutRoundTrip(location: seq<string>)
    requires |location| == 6
    ensures MapToSixFieldFormat(FieldsOf(location)) == location
  {
  }

  /** With nothing given, the location is four empty entries, then the
      default placement and configuration. */
  lemma EmptyDataGivesDefaults()
    ensures MapToSixFieldFormat(map[]) == ["", "", "", "", "Internal", "Bait/Lured"]
  {
  }

  /** Data naming none of the six fields, whatever else it holds, gives
      the defaults. */
  lemma NoFieldsGivesDefaults(data: map<string, string>)
    requires forall i :: 0 <= i < 6 ==> FieldNames[i] !in data
    ensures MapToSixFieldFormat(data) == Defaults
  {
  }

  /** Keys other than the six field names have no effect. */
  lemma OtherKeysIgnored(data: map<string, string>, k: string, v: string)
    requires k !in FieldNames
    ensures MapToSixFieldFormat(data[k := v]) == MapToSixFieldFormat(data)
  {
    forall i | 0 <= i < 6 ensures MapToSixFieldFormat(data[k := v])[i] == MapToSixFieldFormat(data)[i] {
      assert FieldNames[i] != k;
    }
  }

  /** A given field overrides its default at its own position and nowhere
      else. */
  lemma GivenFieldOverrides(data: map<string, string>, i: nat, v: string)
    requires i < 6
    ensures MapToSixFieldFormat(data[FieldNames[i] := v])[i] == v
    ensures forall j :: 0 <= j < 6 && j != i ==>
      MapToSixFieldFormat(data[FieldNames[i] := v])[j] == MapToSixFieldFormat(data)[j]
  {
    assert forall j :: 0 <= j < 6 && j != i ==> FieldNames[j] != FieldNames[i];
  }
}
