/** The ERP side of the integration: an inspection point's name read as a
    customer, site and area; the search for the store device that carries
    the point's reference; and the mapping report that pairs every
    inspection point with such a device, or with none. */
module Erp {
  import opened Wire
  import opened Strings
  import FieldMapping

  /** An inspection point as the ERP returns it; `name` and `default_code`
      may be missing. */
  datatype InspectionPoint = InspectionPoint(id: int, name: Option<string>, defaultCode: Option<string>)

  /** The location fields `parse_erp_location` returns. */
  datatype ErpLocation = ErpLocation(
    customer: string, site: string, area: string,
    erpReference: string, placement: string, configuration: string)

  const Separator: string := " - "
  const DefaultCustomer: string := "Golden Crust Manchester"
  const DefaultSite: string := "Manchester Production"

  /** `point.get(key, '')`. */
  function GetOrEmpty(o: Option<string>): string {
    if o.Some? then o.value else ""
  }

  /** `parse_erp_location`: a name of the form "<customer/site> - <area>" is
      split at its first separator and both parts are stripped; a prefix
      naming Golden Crust is normalised to the default customer and site;
      a name without separator is all area, with the default customer and
      site. */
  function ParseErpLocation(p: InspectionPoint): (l: ErpLocation)
    ensures l.erpReference == GetOrEmpty(p.defaultCode)
    ensures l.placement == "Internal" && l.configuration == "Bait/Lured"
    ensures !Contains(GetOrEmpty(p.name), Separator) ==>
      l.customer == DefaultCustomer && l.site == DefaultSite && l.area == GetOrEmpty(p.name)
    ensures Contains(GetOrEmpty(p.name), Separator) ==>
      var head := Strip(SplitOnce(GetOrEmpty(p.name), Separator).0);
      && l.area == Strip(SplitOnce(GetOrEmpty(p.name), Separator).1)
      && (Contains(head, "Golden Crust") ==> l.customer == DefaultCustomer && l.site == DefaultSite)
      && (!Contains(head, "Golden Crust") ==> l.customer == head && l.site == head)
  {
    var name := GetOrEmpty(p.name);
    var defaultCode := GetOrEmpty(p.defaultCode);
    if Contains(name, Separator) then
      var parts := SplitOnce(name, Separator);
      var customerSite := Strip(parts.0);
      var area := Strip(parts.1);
      if Contains(customerSite, "Golden Crust") then
        ErpLocation(DefaultCustomer, DefaultSite, area, defaultCode, "Internal", "Bait/Lured")
      else
        ErpLocation(customerSite, customerSite, area, defaultCode, "Internal", "Bait/Lured")
    else
      ErpLocation(DefaultCustomer, DefaultSite, name, defaultCode, "Internal", "Bait/Lured")
  }

  /** A name written as "<prefix> - <area>" is read back as that prefix and
      that area, when both are already stripped, the prefix holds no
      separator of its own and does not name Golden Crust. */
  lemma ParseReadsComposedName(id: int, prefix: string, area: string, code: Option<string>)
    requires !Contains(prefix + " -", Separator)
    requires Strip(prefix) == prefix && Strip(area) == area
    requires !Contains(prefix, "Golden Crust")
    ensures var l := ParseErpLocation(InspectionPoint(id, Some(prefix + Separator + area), code));
      l.customer == prefix && l.site == prefix && l.area == area
  {
    var name := prefix + Separator + area;
    var p := InspectionPoint(id, Some(name), code);
    assert GetOrEmpty(p.name) == name;
    SplitComposedName(prefix, area);
    ParseOfSplitName(p, prefix, area);
  }

  lemma SplitComposedName(prefix: string, area: string)
    requires !Contains(prefix + " -", Separator)
    ensures Contains(prefix + Separator + area, Separator)
    ensures SplitOnce(prefix + Separator + area, Separator) == (prefix, area)
  {
    assert Separator[..|Separator| - 1] == " -";
    SplitOnceOfJoined(prefix, Separator, area);
  }

  lemma ParseOfSplitName(p: InspectionPoint, prefix: string, area: string)
    requires Contains(GetOrEmpty(p.name), Separator) && SplitOnce(GetOrEmpty(p.name), Separator) == (prefix, area)
    requires Strip(prefix) == prefix && Strip(area) == area
    requires !Contains(prefix, "Golden Crust")
    ensures var l := ParseErpLocation(p);
      l.customer == prefix && l.site == prefix && l.area == area
  {
  }

  /** The six-entry location list the routes build from the parsed fields. */
  function LocationArray(l: ErpLocation): (location: seq<string>)
    ensures |location| == 6 && location[3] == l.erpReference
  {
    [l.customer, l.site, l.area, l.erpReference, l.placement, l.configuration]
  }

  /** The list agrees with the field mapper's layout of the same fields. */
  lemma LocationArrayIsSixFieldFormat(l: ErpLocation)
    ensures LocationArray(l) == FieldMapping.MapToSixFieldFormat(map[
      "customer" := l.customer, "site" := l.site, "area" := l.area, "location_id" := l.erpReference,
      "deployment_type" := l.placement, "trap_configuration" := l.configuration])
  {
  }

  /** Does the device's location name `reference` at position 3? */
  predicate HasReference(d: Device, reference: string) {
    |LocationOf(d)| > 3 && LocationOf(d)[3] == reference
  }

  /** Position of the first device that carries the reference, or -1. */
  function FirstWithReference(devices: seq<Device>, reference: string): (r: int)
    ensures -1 <= r < |devices|
    ensures r >= 0 ==> HasReference(devices[r], reference)
    ensures forall j :: 0 <= j < |devices| && (r < 0 || j < r) ==> !HasReference(devices[j], reference)
  {
    if devices == [] then -1
    else if HasReference(devices[0], reference) then 0
    else
      var r := FirstWithReference(devices[1..], reference);
      if r < 0 then -1 else r + 1
  }

  /** `find_matching_microshare_device`: the first device whose location
      carries the reference at position 3, else None. */
  function FindMatchingDevice(devices: seq<Device>, reference: string): (r: Option<Device>)
    ensures r.None? <==> forall j :: 0 <= j < |devices| ==> !HasReference(devices[j], reference)
    ensures r.Some? ==>
      var i := FirstWithReference(devices, reference);
      && r.value == devices[i]
      && forall j :: 0 <= j < i ==> !HasReference(devices[j], reference)
  {
    var i := FirstWithReference(devices, reference);
    if i < 0 then None else Some(devices[i])
  }

  /** A device laid out from an inspection point is found again by that
      point's reference. */
  lemma LaidOutDeviceIsFound(devices: seq<Device>, k: nat, p: InspectionPoint)
    requires k < |devices| && LocationOf(devices[k]) == LocationArray(ParseErpLocation(p))
    ensures FindMatchingDevice(devices, GetOrEmpty(p.defaultCode)).Some?
  {
    assert HasReference(devices[k], GetOrEmpty(p.defaultCode));
  }

  // ---------------------------------------------------------------------
  // The mapping report

  /** One row of the mapping report. */
  datatype MappingResult = MappingResult(
    odooId: int, erpReference: string, erpName: string, location: seq<string>,
    device: Option<Device>, action: string)

  /** `mapping_status`: 'mapped' exactly when a device was found. */
  function Status(r: MappingResult): string {
    if r.device.Some? then "mapped" else "unmapped"
  }

  datatype Summary = Summary(totalErpPoints: nat, mappedDevices: nat, unmappedDevices: int)

  /** A device of the listing, tagged with its cluster's id, name and record
      type. */
  function Tagged(d: Device, doc: ClusterDoc): (t: Device)
    ensures LocationOf(t) == LocationOf(d)
    ensures KeyIs(t, "cluster_id", doc.id)
  {
    var name := if doc.name.Some? then doc.name.value else "";
    var recType := if doc.recType.Some? then doc.recType.value else "";
    Device(d.fields["cluster_id" := Str(doc.id)]["cluster_name" := Str(name)]["device_type" := Str(recType)], d.meta)
  }

  /** The devices of one cluster, tagged, in order. */
  function TaggedDevices(ds: seq<Device>, doc: ClusterDoc): (r: seq<Device>)
    ensures |r| == |ds|
    ensures forall i :: 0 <= i < |ds| ==> r[i] == Tagged(ds[i], doc)
  {
    if ds == [] then [] else TaggedDevices(ds[..|ds| - 1], doc) + [Tagged(ds[|ds| - 1], doc)]
  }

  /** `all_devices`: every cluster's tagged devices, clusters in order. */
  function AllDevices(clusters: seq<ClusterDoc>): (r: seq<Device>)
    ensures forall d :: d in r ==> exists c :: c in clusters && KeyIs(d, "cluster_id", c.id)
  {
    if clusters == [] then []
    else
      var last := clusters[|clusters| - 1];
      AllDevices(clusters[..|clusters| - 1]) + TaggedDevices(DevicesOf(last), last)
  }

  /** The row of one inspection point, or the KeyError its missing
      `default_code` or `name` raises. */
  function RowOf(p: InspectionPoint, devices: seq<Device>): (r: Result<MappingResult>)
    ensures p.defaultCode.None? ==> r == Err("'default_code'")
    ensures p.defaultCode.Some? && p.name.None? ==> r == Err("'name'")
    ensures r.Ok? ==>
      (&& r.value.erpReference == p.defaultCode.value
       && r.value.device == FindMatchingDevice(devices, p.defaultCode.value)
       && r.value.location == LocationArray(ParseErpLocation(p)))
  {
    var location := ParseErpLocation(p);
    if p.defaultCode.None? then Err("'default_code'")
    else
      var match_ := FindMatchingDevice(devices, p.defaultCode.value);
      if p.name.None? then Err("'name'")
      else
        Ok(MappingResult(p.id, p.defaultCode.value, p.name.value, LocationArray(location), match_,
          if match_.Some? then "none" else "create_device_with_default_deveui"))
  }

  /** The rows of the mapping report, in inspection-point order, or the
      first KeyError. */
  function RowsOf(points: seq<InspectionPoint>, devices: seq<Device>): (r: Result<seq<MappingResult>>)
    ensures r.Ok? ==> |r.value| == |points|
    ensures r.Ok? ==> forall i :: 0 <= i < |points| ==> RowOf(points[i], devices) == Ok(r.value[i])
    ensures r.Err? <==> exists i :: 0 <= i < |points| && RowOf(points[i], devices).Err?
  {
    if points == [] then Ok([])
    else
      var init := RowsOf(points[..|points| - 1], devices);
      if init.Err? then init
      else
        var row := RowOf(points[|points| - 1], devices);
        if row.Err? then Err(row.message) else Ok(init.value + [row.value])
  }

  function MappedCount(rows: seq<MappingResult>): (n: nat)
    ensures n <= |rows|
  {
    if rows == [] then 0 else MappedCount(rows[..|rows| - 1]) + (if Status(rows[|rows| - 1]) == "mapped" then 1 else 0)
  }

  /** `/unmapped`: the rows whose status is 'unmapped', in order. */
  function Unmapped(rows: seq<MappingResult>): (r: seq<MappingResult>)
    ensures forall x :: x in r ==> x in rows && Status(x) == "unmapped"
    ensures forall i :: 0 <= i < |rows| && Status(rows[i]) == "unmapped" ==> rows[i] in r
  {
    if rows == [] then []
    else
      var init := Unmapped(rows[..|rows| - 1]);
      var last := rows[|rows| - 1];
      assert forall i :: 0 <= i < |rows| - 1 ==> rows[i] == rows[..|rows| - 1][i];
      if Status(last) == "unmapped" then init + [last] else init
  }

  /** The summary's two counts add up to the total, and the unmapped list
      holds exactly as many rows as the summary counts unmapped. */
  lemma {:induction false} UnmappedCountMatches(rows: seq<MappingResult>)
    ensures MappedCount(rows) + |Unmapped(rows)| == |rows|
  {
    if rows != [] {
      UnmappedCountMatches(rows[..|rows| - 1]);
    }
  }

  function SummaryOf(rows: seq<MappingResult>): (s: Summary)
    ensures s.totalErpPoints == |rows| && s.mappedDevices + s.unmappedDevices == s.totalErpPoints
    ensures s.unmappedDevices == |Unmapped(rows)|
  {
    UnmappedCountMatches(rows);
    Summary(|rows|, MappedCount(rows), |rows| - MappedCount(rows))
  }

  /** The inner loop of the listing: each device of one cluster tagged with
      the cluster's id. */
  method TagDevices(cluster: ClusterDoc) returns (tagged: seq<Device>)
    ensures tagged == TaggedDevices(DevicesOf(cluster), cluster)
  {
    var devices := DevicesOf(cluster);
    tagged := [];
    var k := 0;
    while k < |devices|
      invariant 0 <= k <= |devices|
      invariant tagged == TaggedDevices(devices[..k], cluster)
    {
      assert devices[..k + 1][..k] == devices[..k];
      tagged := tagged + [Tagged(devices[k], cluster)];
      k := k + 1;
    }
    assert devices[..k] == devices;
  }

  /** The outer loop of the listing: the tagged devices of every cluster, in
      cluster order. */
  method FlattenClusters(clusters: seq<ClusterDoc>) returns (all: seq<Device>)
    ensures all == AllDevices(clusters)
  {
    all := [];
    var c := 0;
    while c < |clusters|
      invariant 0 <= c <= |clusters|
      invariant all == AllDevices(clusters[..c])
    {
      var tagged := TagDevices(clusters[c]);
      assert clusters[..c + 1][..c] == clusters[..c];
      all := all + tagged;
      c := c + 1;
    }
    assert clusters[..c] == clusters;
  }

  /** The loop over the inspection points: one row each, stopping at the
      first KeyError. */
  method MapPoints(points: seq<InspectionPoint>, all: seq<Device>) returns (r: Result<seq<MappingResult>>)
    ensures r == RowsOf(points, all)
  {
    var rows: seq<MappingResult> := [];
    var i := 0;
    while i < |points|
      invariant 0 <= i <= |points|
      invariant RowsOf(points[..i], all) == Ok(rows)
    {
      assert points[..i + 1][..i] == points[..i];
      var row := RowOf(points[i], all);
      if row.Err? {
        assert RowsOf(points[..i + 1], all).Err?;
        RowsErrStays(points, i + 1, all);
        return Err(row.message);
      }
      rows := rows + [row.value];
      i := i + 1;
    }
    assert points[..i] == points;
    return Ok(rows);
  }

  /** `discover_erp_microshare_mapping`: the cluster listing flattened into
      tagged devices, then one row per inspection point and the summary of
      the rows. */
  method DiscoverMapping(points: seq<InspectionPoint>, clusters: seq<ClusterDoc>)
    returns (r: Result<(seq<MappingResult>, Summary)>)
    ensures RowsOf(points, AllDevices(clusters)).Err? <==> r.Err?
    ensures r.Err? ==> r.message == RowsOf(points, AllDevices(clusters)).message
    ensures r.Ok? ==>
      && r.value.0 == RowsOf(points, AllDevices(clusters)).value
      && r.value.1 == SummaryOf(r.value.0)
  {
    var all := FlattenClusters(clusters);
    var rows := MapPoints(points, all);
    if rows.Err? {
      return Err(rows.message);
    }
    return Ok((rows.value, SummaryOf(rows.value)));
  }

  /** Once a prefix of the points fails, every longer prefix fails with the
      same error. */
  lemma {:induction false} RowsErrStays(points: seq<InspectionPoint>, n: nat, devices: seq<Device>)
    requires n <= |points| && RowsOf(points[..n], devices).Err?
    ensures RowsOf(points, devices) == RowsOf(points[..n], devices)
    decreases |points| - n
  {
    if n < |points| {
      assert points[..n + 1][..n] == points[..n];
      RowsErrStays(points, n + 1, devices);
    } else {
      assert points[..n] == points;
    }
  }
}
