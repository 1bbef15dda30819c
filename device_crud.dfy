/** The cached device routes of services/integration-api/routes/device_crud.py:
    the listing of every device across clusters with its filters and
    enrichment, the search of a device by id, the update route's removal of
    absent fields, and the choice between clearing one cluster's cache entry
    and clearing them all.

    Every route reads the cluster listing through the client's cache; the
    wildcard answer the client would request on a miss is an input. */
module DeviceCrud {
  import opened Wire
  import opened Enums
  import opened Errors
  import opened TtlCache
  import opened MicroshareClient
  import Routes

  /** The routes' `except` clauses: a MicroshareAPIError (an
      AuthenticationError included) becomes an HTTPException with its own
      status and message; anything else a 500 naming the action. */
  function Refused<T>(o: Outcome<T>, action: string): (e: Routes.HttpException)
    requires !o.Success?
    ensures o.Failure? && o.error.ApiError? ==> e == Routes.HttpException(o.error.statusCode, o.error.message)
    ensures !(o.Failure? && o.error.ApiError?) ==> e.status == 500
    ensures o.Failure? && !o.error.ApiError? ==> e.detail == "Failed to " + action + ": " + o.error.message
    ensures o.Crash? ==> e.detail == "Failed to " + action + ": " + o.message
  {
    if o.Failure? && o.error.ApiError? then Routes.HttpException(o.error.statusCode, o.error.message)
    else if o.Failure? then Routes.HttpException(500, "Failed to " + action + ": " + o.error.message)
    else Routes.HttpException(500, "Failed to " + action + ": " + o.message)
  }

  // ---------------------------------------------------------------------
  // Listing

  /** The query filters of the listing; absent ones are None. */
  datatype Filters = Filters(deviceType: Option<DeviceType>, customer: Option<string>, site: Option<string>)

  /** A listed device: its own members, then the cluster it came from and
      its location read into named fields (None past the end of the list). */
  datatype EnrichedDevice = EnrichedDevice(
    device: Device,
    clusterId: string,
    clusterName: string,
    deviceType: string,
    customer: Option<string>,
    site: Option<string>,
    area: Option<string>,
    erpReference: Option<string>,
    placement: Option<string>,
    configuration: Option<string>)

  /** `location[i] if len(location) > i else None`. */
  function Slot(location: seq<string>, i: nat): (v: Option<string>)
    ensures v.Some? <==> i < |location|
    ensures v.Some? ==> v.value == location[i]
  {
    if i < |location| then Some(location[i]) else None
  }

  /** `cluster.get('name', '')`. */
  function NameOf(doc: ClusterDoc): string {
    if doc.name.Some? then doc.name.value else ""
  }

  /** `cluster.get('recType', '')`. */
  function RecTypeOf(doc: ClusterDoc): string {
    if doc.recType.Some? then doc.recType.value else ""
  }

  function Enriched(doc: ClusterDoc, d: Device): EnrichedDevice {
    var l := LocationOf(d);
    EnrichedDevice(d, doc.id, NameOf(doc), RecTypeOf(doc),
      Slot(l, 0), Slot(l, 1), Slot(l, 2), Slot(l, 3), Slot(l, 4), Slot(l, 5))
  }

  /** The six named fields of a listed device, in location order. */
  function NamedFields(e: EnrichedDevice): seq<Option<string>> {
    [e.customer, e.site, e.area, e.erpReference, e.placement, e.configuration]
  }

  /** Each named field is the location entry at its position, present
      exactly when the location is long enough; the cluster fields are the
      cluster's. */
  lemma EnrichedReadsLocation(doc: ClusterDoc, d: Device)
    ensures var e := Enriched(doc, d);
      && e.device == d && e.clusterId == doc.id
      && (forall i :: 0 <= i < 6 ==>
            (NamedFields(e)[i].Some? <==> i < |LocationOf(d)|)
            && (NamedFields(e)[i].Some? ==> NamedFields(e)[i].value == LocationOf(d)[i]))
  {
  }

  /** The device-type filter: an absent filter keeps every cluster; a given
      one keeps the clusters whose record type maps to that type. */
  predicate TypeKept(f: Filters, recType: string) {
    f.deviceType.None? || FromRecType(recType) == f.deviceType
  }

  /** The customer and site filters: a given (non-empty) customer must be
      location[0], a given site location[1]. */
  predicate Passes(f: Filters, d: Device) {
    var l := LocationOf(d);
    && (!Truthy(f.customer) || (|l| > 0 && l[0] == f.customer.value))
    && (!Truthy(f.site) || (|l| > 1 && l[1] == f.site.value))
  }

  /** The devices of one cluster that pass the filters, enriched, in order. */
  function FromCluster(f: Filters, doc: ClusterDoc, ds: seq<Device>): seq<EnrichedDevice> {
    if ds == [] then []
    else
      var last := ds[|ds| - 1];
      FromCluster(f, doc, ds[..|ds| - 1]) + (if Passes(f, last) then [Enriched(doc, last)] else [])
  }

  /** What the listing shows: cluster by cluster, the passing devices of
      every cluster of the requested type. */
  function Listing(f: Filters, objs: seq<ClusterDoc>): seq<EnrichedDevice> {
    if objs == [] then []
    else
      var last := objs[|objs| - 1];
      Listing(f, objs[..|objs| - 1])
        + (if TypeKept(f, RecTypeOf(last)) then FromCluster(f, last, DevicesOf(last)) else [])
  }

  /** A device the listing shows passes the filters it was asked for. */
  predicate Shown(f: Filters, e: EnrichedDevice) {
    Passes(f, e.device) && TypeKept(f, e.deviceType)
  }

  lemma {:induction false} FromClusterShown(f: Filters, doc: ClusterDoc, ds: seq<Device>)
    requires TypeKept(f, RecTypeOf(doc))
    ensures forall e :: e in FromCluster(f, doc, ds) ==> Shown(f, e) && e.clusterId == doc.id
  {
    if ds != [] {
      FromClusterShown(f, doc, ds[..|ds| - 1]);
    }
  }

  /** Soundness: every listed device passes every filter. */
  lemma {:induction false} ListingShown(f: Filters, objs: seq<ClusterDoc>)
    ensures forall e :: e in Listing(f, objs) ==> Shown(f, e)
  {
    if objs != [] {
      var last := objs[|objs| - 1];
      ListingShown(f, objs[..|objs| - 1]);
      if TypeKept(f, RecTypeOf(last)) {
        FromClusterShown(f, last, DevicesOf(last));
      }
    }
  }

  lemma {:induction false} FromClusterComplete(f: Filters, doc: ClusterDoc, ds: seq<Device>, j: nat)
    requires j < |ds| && Passes(f, ds[j])
    ensures Enriched(doc, ds[j]) in FromCluster(f, doc, ds)
  {
    if j < |ds| - 1 {
      FromClusterComplete(f, doc, ds[..|ds| - 1], j);
    }
  }

  /** Completeness: every device of a kept cluster that passes the customer
      and site filters is listed. */
  lemma {:induction false} ListingComplete(f: Filters, objs: seq<ClusterDoc>, i: nat, j: nat)
    requires i < |objs| && j < |DevicesOf(objs[i])|
    requires TypeKept(f, RecTypeOf(objs[i])) && Passes(f, DevicesOf(objs[i])[j])
    ensures Enriched(objs[i], DevicesOf(objs[i])[j]) in Listing(f, objs)
  {
    var init := objs[..|objs| - 1];
    if i < |objs| - 1 {
      assert init[i] == objs[i];
      ListingComplete(f, init, i, j);
    } else {
      FromClusterComplete(f, objs[i], DevicesOf(objs[i]), j);
    }
  }

  /** The inner loop of `list_all_devices_cached`: the devices of one
      cluster failing the customer or site filter are skipped. */
  method CollectFromCluster(f: Filters, cluster: ClusterDoc, devices: seq<EnrichedDevice>)
    returns (collected: seq<EnrichedDevice>)
    ensures collected == devices + FromCluster(f, cluster, DevicesOf(cluster))
  {
    var ds := DevicesOf(cluster);
    collected := devices;
    var j := 0;
    while j < |ds|
      invariant 0 <= j <= |ds|
      invariant collected == devices + FromCluster(f, cluster, ds[..j])
    {
      assert ds[..j + 1][..j] == ds[..j];
      if Passes(f, ds[j]) {
        collected := collected + [Enriched(cluster, ds[j])];
      }
      j := j + 1;
    }
    assert ds[..j] == ds;
  }

  /** The outer loop: clusters of another type than the one asked for are
      skipped. */
  method CollectDevices(f: Filters, objs: seq<ClusterDoc>) returns (devices: seq<EnrichedDevice>)
    ensures devices == Listing(f, objs)
  {
    devices := [];
    var i := 0;
    while i < |objs|
      invariant 0 <= i <= |objs|
      invariant devices == Listing(f, objs[..i])
    {
      assert objs[..i + 1][..i] == objs[..i];
      if TypeKept(f, RecTypeOf(objs[i])) {
        devices := CollectFromCluster(f, objs[i], devices);
      }
      i := i + 1;
    }
    assert objs[..i] == objs;
  }

  /** The listing's answer. */
  datatype DeviceList = DeviceList(
    devices: seq<EnrichedDevice>,
    totalCount: nat,
    deviceTypeApplied: Option<string>,
    customer: Option<string>,
    site: Option<string>,
    cachedResponse: bool)

  /** The listing the client's cache serves, or the wildcard answer on a miss. */
  function Served(client: MicroshareDeviceClient, entries: map<string, CacheEntry<seq<ClusterDoc>>>, wildcard: Response, now: int)
    : Outcome<seq<ClusterDoc>>
    reads client
  {
    var hit := GetResult(entries, AllClustersKey(), now).1;
    if hit.Some? then Success(hit.value) else client.Request(wildcard)
  }

  /** `list_all_devices_cached`. */
  method ListAllDevicesCached(client: MicroshareDeviceClient, f: Filters, ttl: int, wildcard: Response, now: int)
    returns (r: Routes.Handled<DeviceList>)
    modifies client.cache
    ensures var got := Served(client, old(client.cache.entries), wildcard, now);
      && (got.Success? ==> r.Answer? && r.value.devices == Listing(f, got.value))
      && (!got.Success? ==> r == Routes.Raise(Refused(got, "list devices")))
    ensures r.Answer? ==> r.value.totalCount == |r.value.devices| && r.value.cachedResponse
    ensures r.Answer? ==> r.value.deviceTypeApplied == (if f.deviceType.Some? then Some(RecordType(f.deviceType.value)) else None)
    ensures r.Answer? ==> r.value.customer == f.customer && r.value.site == f.site
    ensures var (after, hit) := GetResult(old(client.cache.entries), AllClustersKey(), now);
      && (hit.Some? ==> client.cache.entries == old(client.cache.entries))
      && (hit.None? && client.Request(wildcard).Success? ==>
            client.cache.entries == after[AllClustersKey() := CacheEntry(client.Request(wildcard).value, now, ttl)])
      && (hit.None? && !client.Request(wildcard).Success? ==> client.cache.entries == after)
  {
    var got := client.ListAllClustersCached(wildcard, now, ttl);
    if !got.Success? {
      return Routes.Raise(Refused(got, "list devices"));
    }
    var devices := CollectDevices(f, got.value);
    var applied := if f.deviceType.Some? then Some(RecordType(f.deviceType.value)) else None;
    r := Routes.Answer(DeviceList(devices, |devices|, applied, f.customer, f.site, true));
  }

  // ---------------------------------------------------------------------
  // Find by id

  /** A found device: its members, its cluster and the first four location
      fields (`found_in_cluster` and `cached_response` are always true). */
  datatype FoundDevice = FoundDevice(
    device: Device,
    clusterId: string,
    clusterName: string,
    deviceType: string,
    customer: Option<string>,
    site: Option<string>,
    area: Option<string>,
    erpReference: Option<string>)

  /** Position of the first cluster holding a device with the id, or -1. */
  function HolderOf(objs: seq<ClusterDoc>, id: string): (r: int)
    ensures -1 <= r < |objs|
    ensures r >= 0 ==> FirstMatch(DevicesOf(objs[r]), "id", id) >= 0
    ensures forall i :: 0 <= i < |objs| && (r < 0 || i < r) ==> FirstMatch(DevicesOf(objs[i]), "id", id) < 0
  {
    if objs == [] then -1
    else if FirstMatch(DevicesOf(objs[0]), "id", id) >= 0 then 0
    else
      var r := HolderOf(objs[1..], id);
      if r < 0 then -1 else r + 1
  }

  function Found(doc: ClusterDoc, d: Device): FoundDevice {
    var l := LocationOf(d);
    FoundDevice(d, doc.id, NameOf(doc), RecTypeOf(doc), Slot(l, 0), Slot(l, 1), Slot(l, 2), Slot(l, 3))
  }

  /** The search of `find_device_by_id`: the first device with the id, in
      cluster order and then device order; none raises 404. */
  function FindDeviceById(objs: seq<ClusterDoc>, id: string): (r: Routes.Handled<FoundDevice>)
    ensures r.Raise? <==>
      forall i, j :: 0 <= i < |objs| && 0 <= j < |DevicesOf(objs[i])| ==> !KeyIs(DevicesOf(objs[i])[j], "id", id)
    ensures r.Raise? ==> r.exception == Routes.HttpException(404, "Device " + id + " not found in any cluster")
    ensures r.Answer? ==> KeyIs(r.value.device, "id", id)
  {
    var i := HolderOf(objs, id);
    if i < 0 then Routes.Raise(Routes.HttpException(404, "Device " + id + " not found in any cluster"))
    else
      var ds := DevicesOf(objs[i]);
      Routes.Answer(Found(objs[i], ds[FirstMatch(ds, "id", id)]))
  }

  /** The device found by id is one the unfiltered listing shows, and no
      cluster before its own holds the id. */
  lemma FoundIsListed(objs: seq<ClusterDoc>, id: string)
    requires FindDeviceById(objs, id).Answer?
    ensures var i := HolderOf(objs, id);
      && 0 <= i < |objs|
      && FindDeviceById(objs, id).value.clusterId == objs[i].id
      && Enriched(objs[i], FindDeviceById(objs, id).value.device) in Listing(Filters(None, None, None), objs)
      && forall k :: 0 <= k < i ==> FirstMatch(DevicesOf(objs[k]), "id", id) < 0
  {
    var i := HolderOf(objs, id);
    ListingComplete(Filters(None, None, None), objs, i, FirstMatch(DevicesOf(objs[i]), "id", id));
  }

  /** The `find_device_by_id` route: the 404 of the search passes through
      unchanged; the client's errors are mapped as in every route. */
  method FindDeviceByIdRoute(client: MicroshareDeviceClient, id: string, ttl: int, wildcard: Response, now: int)
    returns (r: Routes.Handled<FoundDevice>)
    modifies client.cache
    ensures var got := Served(client, old(client.cache.entries), wildcard, now);
      && (got.Success? ==> r == FindDeviceById(got.value, id))
      && (!got.Success? ==> r == Routes.Raise(Refused(got, "find device")))
    ensures var (after, hit) := GetResult(old(client.cache.entries), AllClustersKey(), now);
      && (hit.Some? ==> client.cache.entries == old(client.cache.entries))
      && (hit.None? && client.Request(wildcard).Success? ==>
            client.cache.entries == after[AllClustersKey() := CacheEntry(client.Request(wildcard).value, now, ttl)])
      && (hit.None? && !client.Request(wildcard).Success? ==> client.cache.entries == after)
  {
    var got := client.ListAllClustersCached(wildcard, now, ttl);
    if !got.Success? {
      return Routes.Raise(Refused(got, "find device"));
    }
    r := FindDeviceById(got.value, id);
  }

  // ---------------------------------------------------------------------
  // Update and cache clearing

  /** `DeviceUpdateModel`: the two members an update may carry. */
  datatype DeviceUpdateModel = DeviceUpdateModel(location: Option<seq<string>>, status: Option<string>)

  /** `{k: v for k, v in updates.dict().items() if v is not None}`. */
  function Stripped(u: DeviceUpdateModel): (updates: Fields)
    ensures updates.Keys <= {"location", "status"}
    ensures "location" in updates <==> u.location.Some?
    ensures "status" in updates <==> u.status.Some?
    ensures u.location.Some? ==> updates["location"] == Strs(u.location.value)
    ensures u.status.Some? ==> updates["status"] == Str(u.status.value)
  {
    (if u.location.Some? then map["location" := Strs(u.location.value)] else map[])
      + (if u.status.Some? then map["status" := Str(u.status.value)] else map[])
  }

  /** An update that carries nothing leaves the device as it was; a new
      location lands in `meta` of a device that has one, a new status in its
      top-level members, and every other member is kept. */
  lemma StrippedUpdateEffect(d: Device, u: DeviceUpdateModel)
    ensures u == DeviceUpdateModel(None, None) ==> Updated(d, Stripped(u)) == d
    ensures u.location.Some? && d.meta.Some? ==> LocationOf(Updated(d, Stripped(u))) == u.location.value
    ensures u.status.Some? ==> KeyIs(Updated(d, Stripped(u)), "status", u.status.value)
    ensures forall k :: k in d.fields && k != "location" && k != "status" ==>
      k in Updated(d, Stripped(u)).fields && Updated(d, Stripped(u)).fields[k] == d.fields[k]
  {
    if u == DeviceUpdateModel(None, None) {
      assert Stripped(u) == map[];
      assert d.fields + map[] == d.fields;
    }
  }

  /** The update route's answer. */
  datatype UpdateAnswer = UpdateAnswer(
    clusterId: string, deviceId: string, deviceType: string, updatesApplied: Fields, result: ClusterDoc)

  /** `update_device_in_cluster`: absent fields are dropped, then the
      client's cached update runs; a device that is not in the cluster
      comes back as the client's MicroshareAPIError, whose status is 500. */
  method UpdateDeviceRoute(
    client: MicroshareDeviceClient, clusterId: string, deviceId: string, t: DeviceType,
    u: DeviceUpdateModel, fetched: Response, put: Reply)
    returns (r: Routes.Handled<UpdateAnswer>)
    modifies client.cache
    ensures r.Answer? ==>
      && client.FetchCluster(fetched).Success?
      && UpdatedDoc(client.FetchCluster(fetched).value, deviceId, Stripped(u)).Some?
      && r.value == UpdateAnswer(clusterId, deviceId, RecordType(t), Stripped(u),
           UpdatedDoc(client.FetchCluster(fetched).value, deviceId, Stripped(u)).value)
      && client.cache.entries == AfterInvalidate(old(client.cache.entries), Some(clusterId), Some(t))
    ensures client.FetchCluster(fetched).Success? && UpdatedDoc(client.FetchCluster(fetched).value, deviceId, Stripped(u)).None? ==>
      r == Routes.Raise(Routes.HttpException(500, NotFoundMessage(deviceId, clusterId)))
    ensures client.FetchCluster(fetched).Success? && UpdatedDoc(client.FetchCluster(fetched).value, deviceId, Stripped(u)).Some? ==>
      var sent := client.Written(UpdatedDoc(client.FetchCluster(fetched).value, deviceId, Stripped(u)).value, put);
      && (sent.Success? ==> r.Answer?)
      && (!sent.Success? ==> r == Routes.Raise(Refused(sent, "update device")))
    ensures !client.FetchCluster(fetched).Success? ==>
      r == Routes.Raise(Refused(client.FetchCluster(fetched), "update device"))
    ensures r.Raise? ==> client.cache.entries == old(client.cache.entries)
  {
    var updates := Stripped(u);
    var result := client.UpdateDeviceInClusterCached(clusterId, t, deviceId, updates, fetched, put);
    if !result.Success? {
      return Routes.Raise(Refused(result, "update device"));
    }
    r := Routes.Answer(UpdateAnswer(clusterId, deviceId, RecordType(t), updates, result.value));
  }

  /** `clear_device_cache`: a targeted clear needs both a non-empty cluster
      id and a device type; otherwise every entry goes. */
  method ClearDeviceCache(client: MicroshareDeviceClient, clusterId: Option<string>, t: Option<DeviceType>)
    returns (message: string)
    modifies client.cache
    ensures Truthy(clusterId) && t.Some? ==>
      && client.cache.entries == AfterInvalidate(old(client.cache.entries), clusterId, t)
      && message == "Cache cleared for cluster " + clusterId.value + " (" + RecordType(t.value) + ")"
    ensures !(Truthy(clusterId) && t.Some?) ==>
      client.cache.entries == map[] && message == "All device cluster cache cleared"
  {
    if Truthy(clusterId) && t.Some? {
      client.InvalidateClusterCache(clusterId, t);
      message := "Cache cleared for cluster " + clusterId.value + " (" + RecordType(t.value) + ")";
    } else {
      client.InvalidateClusterCache(None, None);
      message := "All device cluster cache cleared";
    }
  }
}
