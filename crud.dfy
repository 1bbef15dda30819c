/** The fast create, update and delete of api/devices/crud.py. A class-level
    cache holds the cluster map of the last discovery; the target cluster is
    taken from it without looking at its age, and each operation is one
    direct GET of a cluster document, an edit of its device list by
    `deviceId`, and one direct PUT of the whole document.

    The discovery the fallback would run is an input (`discovery`), as are
    the answers to the direct GETs (`fetch(clusterId)`), the answer to the
    PUT (`reply`), the current time, the generated id and the stamp. */
module Crud {
  import opened Wire
  import opened Dicts
  import opened Strings
  import Operations

  const ClusterCacheTtl: int := 60

  /** The request body of a fast create, a JSON object: absent members are
      None. */
  datatype FastCreate = FastCreate(
    customer: Option<string>,
    site: Option<string>,
    area: Option<string>,
    erpReference: Option<string>,
    placement: Option<string>,
    configuration: Option<string>,
    deviceId: Option<string>,
    deviceType: Option<string>)

  /** The members of an update that the fast update acts on. */
  datatype FastUpdates = FastUpdates(
    customer: Option<string>,
    site: Option<string>,
    area: Option<string>,
    erpReference: Option<string>,
    placement: Option<string>,
    configuration: Option<string>)

  /** A chosen target cluster. */
  datatype Target = Target(clusterId: string, recType: string, cacheHit: bool, info: ClusterInfo)

  datatype FastOutcome =
    | Done(device: Device, clusterId: string)
    | Failed(error: string)

  function OrElse(v: Option<string>, default: string): string {
    if v.Some? then v.value else default
  }

  /** The record type a request targets: the trap type for `rodent_sensor`
      (also the default) and the gateway type for anything else. */
  function TargetRecTypeFor(deviceType: Option<string>): (t: string)
    ensures t == TrapRecType <==> deviceType.None? || deviceType == Some("rodent_sensor")
    ensures t != TrapRecType ==> t == GatewayRecType
  {
    if OrElse(deviceType, "rodent_sensor") == "rodent_sensor" then TrapRecType else GatewayRecType
  }

  /** `direct_cluster_get`: the first document of a 200 answer with a
      non-empty `objs`; anything else is a failure. */
  function DirectClusterGet(response: Response): (r: Result<ClusterDoc>)
    ensures r.Ok? <==> response.Response? && response.status == 200 && |response.objs| > 0
    ensures r.Ok? ==> r.value == response.objs[0]
    ensures response.Response? && !r.Ok? ==> r.message == "Direct access failed: HTTP " + IntToString(response.status)
    ensures response.Raised? ==> r.message == "Direct access exception: " + response.error
  {
    match response
    case Raised(e) => Err("Direct access exception: " + e)
    case Response(status, objs) =>
      if status == 200 && |objs| > 0 then Ok(objs[0])
      else Err("Direct access failed: HTTP " + IntToString(status))
  }

  /** `direct_cluster_put`: true exactly for 200 and 201; a raised error is
      false. */
  function DirectClusterPut(reply: Reply): (ok: bool)
    ensures ok <==> reply.Reply? && (reply.code == 200 || reply.code == 201)
  {
    match reply
    case PutRaised(_) => false
    case Reply(code) => code == 200 || code == 201
  }

  /** The text of the KeyError raised by `cluster_data['data']['devices']`. */
  function MissingListError(doc: ClusterDoc): string {
    if doc.data.None? then "'data'" else "'devices'"
  }

  /** `device['meta'][key] == v`. */
  predicate MetaIs(d: Device, key: string, v: Value) {
    d.meta.Some? && key in d.meta.value && d.meta.value[key] == v
  }

  /** The device appended by a fast create: a four-entry location,
      placement and configuration as their own `meta` keys, and a
      `createdDate` stamp. */
  function NewFastDevice(req: FastCreate, generatedId: string, stamp: string): (d: Device)
    ensures KeyIs(d, "deviceId", OrElse(req.deviceId, generatedId)) && KeyIs(d, "createdDate", stamp)
    ensures LocationOf(d) == [OrElse(req.customer, ""), OrElse(req.site, ""), OrElse(req.area, ""), OrElse(req.erpReference, "")]
    ensures MetaIs(d, "placement", Str(OrElse(req.placement, "Internal")))
    ensures MetaIs(d, "configuration", Str(OrElse(req.configuration, "Bait/Lured")))
  {
    Device(
      map["deviceId" := Str(OrElse(req.deviceId, generatedId)), "createdDate" := Str(stamp)],
      Some(map[
        "location" := Strs([OrElse(req.customer, ""), OrElse(req.site, ""), OrElse(req.area, ""), OrElse(req.erpReference, "")]),
        "placement" := Str(OrElse(req.placement, "Internal")),
        "configuration" := Str(OrElse(req.configuration, "Bait/Lured"))]))
  }

  /** The location part of a fast update is the same edit as the update by
      guid of operations.py. */
  function AsGuidUpdates(u: FastUpdates): Operations.GuidUpdates {
    Operations.GuidUpdates(u.customer, u.site, u.area, u.erpReference, None, None, None)
  }

  /** The edit of lines 331-351: location entries 0-3 as in the update by
      guid, then placement and configuration written as `meta` keys, which
      raises KeyError when the device still has no `meta`, then the stamp. */
  function EditFast(d: Device, u: FastUpdates, stamp: string): (r: Result<Device>)
    ensures r.Ok? ==> KeyIs(r.value, "lastModified", stamp)
    ensures r.Ok? ==> forall k :: k in d.fields && k != "lastModified" ==> k in r.value.fields && r.value.fields[k] == d.fields[k]
    ensures r.Ok? && u.placement.Some? ==> MetaIs(r.value, "placement", Str(u.placement.value))
    ensures r.Ok? && u.configuration.Some? ==> MetaIs(r.value, "configuration", Str(u.configuration.value))
    ensures r.Ok? ==> LocationOf(r.value) == Operations.ExpectedLocation(d, AsGuidUpdates(u))
    ensures (u.placement.Some? || u.configuration.Some?) && d.meta.None? && !Operations.TouchesLocation(AsGuidUpdates(u))
      ==> r == Err("'meta'")
  {
    var relocated := Operations.EditByGuid(d, AsGuidUpdates(u), stamp);
    if relocated.Err? then Err(relocated.message)
    else
      var e := relocated.value;
      if (u.placement.Some? || u.configuration.Some?) && e.meta.None? then Err("'meta'")
      else
        var meta0 := if e.meta.Some? then e.meta.value else map[];
        var meta1 := if u.placement.Some? then meta0["placement" := Str(u.placement.value)] else meta0;
        var meta2 := if u.configuration.Some? then meta1["configuration" := Str(u.configuration.value)] else meta1;
        var r := Device(e.fields, if e.meta.Some? then Some(meta2) else None);
        assert LocationOf(r) == LocationOf(e);
        Ok(r)
  }

  /** Does a cache holding `data` answer `get_target_cluster_from_cache`
      without a discovery? Only a non-empty cache with a cluster of the
      target record type does. */
  predicate TargetFromCache(data: Dict<ClusterInfo>, deviceType: Option<string>) {
    data != [] && Operations.FirstOfRecType(data, TargetRecTypeFor(deviceType)) >= 0
  }

  /** The cluster `get_target_cluster_from_cache` picks for a cache holding
      `data`: its first cluster of the target record type, else the first one
      in the discovered map. */
  function TargetFrom(data: Dict<ClusterInfo>, deviceType: Option<string>, discovery: Operations.Discovery): (r: Result<Target>)
    ensures r.Ok? ==> r.value.recType == TargetRecTypeFor(deviceType) && r.value.info.recType == Some(r.value.recType)
    ensures r.Ok? <==>
      TargetFromCache(data, deviceType)
      || (discovery.Discovered? && Operations.FirstOfRecType(discovery.clusterMap, TargetRecTypeFor(deviceType)) >= 0)
    ensures r.Ok? ==> (r.value.cacheHit <==> TargetFromCache(data, deviceType))
    ensures r.Ok? && r.value.cacheHit ==> (r.value.clusterId, r.value.info) in data
    ensures r.Ok? && !r.value.cacheHit ==> (r.value.clusterId, r.value.info) in discovery.clusterMap
    ensures r.Err? ==> r.message == "No suitable cluster found"
  {
    var t := TargetRecTypeFor(deviceType);
    if TargetFromCache(data, deviceType) then
      var i := Operations.FirstOfRecType(data, t);
      Ok(Target(data[i].0, t, true, data[i].1))
    else if discovery.DiscoveryFailed? then
      Err("No suitable cluster found")
    else
      var j := Operations.FirstOfRecType(discovery.clusterMap, t);
      if j >= 0 then Ok(Target(discovery.clusterMap[j].0, t, false, discovery.clusterMap[j].1))
      else Err("No suitable cluster found")
  }

  /** Does the scan of the update or delete stop at a cluster whose direct
      GET answered `response`? It stops at a readable document that either
      lacks its device list (the lookup raises) or holds the device. */
  predicate StopsAt(response: Response, deviceId: string) {
    var got := DirectClusterGet(response);
    got.Ok? && (!HasDeviceList(got.value) || FirstMatch(DevicesOf(got.value), "deviceId", deviceId) >= 0)
  }

  /** Position in the cluster map where the scan stops, or -1. */
  function FirstStop(m: Dict<ClusterInfo>, fetch: string -> Response, deviceId: string): (r: int)
    ensures -1 <= r < |m|
    ensures r >= 0 ==> StopsAt(fetch(m[r].0), deviceId)
    ensures forall j :: 0 <= j < |m| && (r < 0 || j < r) ==> !StopsAt(fetch(m[j].0), deviceId)
  {
    if m == [] then -1
    else if StopsAt(fetch(m[0].0), deviceId) then 0
    else
      var r := FirstStop(m[1..], fetch, deviceId);
      if r < 0 then -1 else r + 1
  }

  /** The `for i, device in enumerate(devices)` search by `deviceId`. */
  method FindDevice(ds: seq<Device>, deviceId: string) returns (i: int)
    ensures i == FirstMatch(ds, "deviceId", deviceId)
  {
    i := 0;
    while i < |ds|
      invariant 0 <= i <= |ds|
      invariant forall j :: 0 <= j < i ==> !KeyIs(ds[j], "deviceId", deviceId)
    {
      if KeyIs(ds[i], "deviceId", deviceId) {
        return i;
      }
      i := i + 1;
    }
    return -1;
  }

  /** The test of one cluster in the scan: its direct GET succeeds and its
      document either lacks the device list or holds the device. */
  method StopsHere(response: Response, deviceId: string) returns (stop: bool)
    ensures stop == StopsAt(response, deviceId)
  {
    var got := DirectClusterGet(response);
    if got.Err? {
      return false;
    }
    if !HasDeviceList(got.value) {
      return true;
    }
    var i := FindDevice(DevicesOf(got.value), deviceId);
    return i >= 0;
  }

  /** The outer loop of the update and delete: the cluster the scan stops
      at, reading the clusters in map order. */
  method ScanClusters(m: Dict<ClusterInfo>, fetch: string -> Response, deviceId: string) returns (k: int)
    ensures k == FirstStop(m, fetch, deviceId)
  {
    ghost var first := FirstStop(m, fetch, deviceId);
    k := 0;
    while k < |m|
      invariant 0 <= k <= |m|
      invariant first < 0 || first >= k
    {
      var stop := StopsHere(fetch(m[k].0), deviceId);
      if stop {
        return k;
      }
      k := k + 1;
    }
    return -1;
  }

  class FastCrudManager {
    /** `_cluster_cache`: the cluster map, when it was stored, and its TTL. */
    var data: Dict<ClusterInfo>
    var timestamp: int
    var ttl: int

    constructor ()
      ensures data == [] && timestamp == 0 && ttl == ClusterCacheTtl
    {
      data := [];
      timestamp := 0;
      ttl := ClusterCacheTtl;
    }

    /** `get_target_cluster_from_cache`. A non-empty cache answers with its
        first cluster of the target record type whatever its age; when it
        has none, the discovery result replaces the cache (a failed
        discovery leaves it alone) and is searched the same way. */
    method GetTargetCluster(deviceType: Option<string>, discovery: Operations.Discovery, now: int)
      returns (r: Result<Target>)
      modifies this
      ensures ttl == old(ttl)
      ensures var t := TargetRecTypeFor(deviceType);
        var i := Operations.FirstOfRecType(old(data), t);
        if old(data) != [] && i >= 0 then
          data == old(data) && timestamp == old(timestamp)
          && r == Ok(Target(old(data)[i].0, t, true, old(data)[i].1))
        else if discovery.DiscoveryFailed? then
          data == old(data) && timestamp == old(timestamp) && r == Err("No suitable cluster found")
        else
          data == discovery.clusterMap && timestamp == now
          && var j := Operations.FirstOfRecType(data, t);
          r == if j >= 0 then Ok(Target(data[j].0, t, false, data[j].1)) else Err("No suitable cluster found")
    {
      var t := TargetRecTypeFor(deviceType);
      if data != [] {
        var i := 0;
        while i < |data|
          invariant 0 <= i <= |data|
          invariant forall j :: 0 <= j < i ==> data[j].1.recType != Some(t)
        {
          if data[i].1.recType == Some(t) {
            assert i == Operations.FirstOfRecType(data, t);
            return Ok(Target(data[i].0, t, true, data[i].1));
          }
          i := i + 1;
        }
      }
      if discovery.DiscoveryFailed? {
        return Err("No suitable cluster found");
      }
      data := discovery.clusterMap;
      timestamp := now;
      var i := 0;
      while i < |data|
        invariant 0 <= i <= |data|
        invariant forall j :: 0 <= j < i ==> data[j].1.recType != Some(t)
      {
        if data[i].1.recType == Some(t) {
          assert i == Operations.FirstOfRecType(data, t);
          return Ok(Target(data[i].0, t, false, data[i].1));
        }
        i := i + 1;
      }
      return Err("No suitable cluster found");
    }

    /** `create_device_fast`: one new device appended at the end of the
        target cluster's list, and one PUT of the document. `written` is
        the document sent with the PUT, when one is sent. */
    method CreateDeviceFast(
      req: FastCreate, generatedId: string, stamp: string,
      discovery: Operations.Discovery, fetch: string -> Response, reply: Reply, now: int)
      returns (r: FastOutcome, written: Option<ClusterDoc>)
      modifies this
      ensures ttl == old(ttl)
      ensures if TargetFromCache(old(data), req.deviceType) || discovery.DiscoveryFailed?
        then data == old(data) && timestamp == old(timestamp)
        else data == discovery.clusterMap && timestamp == now
      ensures var tg := TargetFrom(old(data), req.deviceType, discovery);
        && (tg.Err? ==> r == Failed(tg.message) && written.None?)
        && (tg.Ok? ==>
          var got := DirectClusterGet(fetch(tg.value.clusterId));
          && (got.Err? ==> r == Failed("Failed to retrieve cluster data") && written.None?)
          && (got.Ok? && !HasDeviceList(got.value) ==>
                r == Failed("Fast device creation failed: " + MissingListError(got.value)) && written.None?)
          && (got.Ok? && HasDeviceList(got.value) ==>
                written == Some(WithDevices(got.value, DevicesOf(got.value) + [NewFastDevice(req, generatedId, stamp)])))
          && (r.Done? ==> r.clusterId == tg.value.clusterId))
      ensures written.Some? ==>
        (&& |DevicesOf(written.value)| > 0
         && DevicesOf(written.value)[|DevicesOf(written.value)| - 1] == NewFastDevice(req, generatedId, stamp))
      ensures r.Done? <==> written.Some? && DirectClusterPut(reply)
      ensures r.Done? ==> r.device == NewFastDevice(req, generatedId, stamp)
      ensures written.Some? && !DirectClusterPut(reply) ==> r == Failed("Failed to update cluster with new device")
    {
      written := None;
      var target := GetTargetCluster(req.deviceType, discovery, now);
      if target.Err? {
        return Failed(target.message), None;
      }
      var got := DirectClusterGet(fetch(target.value.clusterId));
      if got.Err? {
        return Failed("Failed to retrieve cluster data"), None;
      }
      var doc := got.value;
      if !HasDeviceList(doc) {
        return Failed("Fast device creation failed: " + MissingListError(doc)), None;
      }
      var device := NewFastDevice(req, generatedId, stamp);
      written := Some(WithDevices(doc, DevicesOf(doc) + [device]));
      if DirectClusterPut(reply) {
        return Done(device, target.value.clusterId), written;
      }
      return Failed("Failed to update cluster with new device"), written;
    }

    /** The cache filled by the fallback discovery of update and delete: only
        an empty cache is refilled; a failed discovery is reported. */
    method EnsureClusters(discovery: Operations.Discovery, now: int) returns (ok: bool)
      modifies this
      ensures ttl == old(ttl)
      ensures old(data) != [] ==> ok && data == old(data) && timestamp == old(timestamp)
      ensures old(data) == [] && discovery.Discovered? ==> ok && data == discovery.clusterMap && timestamp == now
      ensures old(data) == [] && discovery.DiscoveryFailed? ==> !ok && data == old(data) && timestamp == old(timestamp)
    {
      if data == [] {
        if discovery.DiscoveryFailed? {
          return false;
        }
        data := discovery.clusterMap;
        timestamp := now;
      }
      return true;
    }

    /** `update_device_fast`: the first device with the `deviceId`, in the
        first cluster (in map order) that holds one, is edited and its
        document written back. */
    method UpdateDeviceFast(
      deviceId: string, u: FastUpdates, stamp: string,
      discovery: Operations.Discovery, fetch: string -> Response, reply: Reply, now: int)
      returns (r: FastOutcome, written: Option<ClusterDoc>)
      modifies this
      ensures ttl == old(ttl)
      ensures old(data) == [] && discovery.DiscoveryFailed? ==> r == Failed("Failed to get cluster information") && written.None?
      ensures old(data) != [] ==> data == old(data) && timestamp == old(timestamp)
      ensures old(data) == [] && discovery.Discovered? ==> data == discovery.clusterMap && timestamp == now
      ensures old(data) == [] && discovery.DiscoveryFailed? ==> data == old(data) && timestamp == old(timestamp)
      ensures (old(data) != [] || discovery.Discovered?) && FirstStop(data, fetch, deviceId) < 0 ==>
        r == Failed("Device " + deviceId + " not found in any cluster") && written.None?
      ensures written.Some? ==>
        var k := FirstStop(data, fetch, deviceId);
        && k >= 0
        && var doc := DirectClusterGet(fetch(data[k].0)).value;
        && var ds := DevicesOf(doc);
        && var i := FirstMatch(ds, "deviceId", deviceId);
        && i >= 0 && EditFast(ds[i], u, stamp).Ok?
        && written.value == WithDevices(doc, ds[i := EditFast(ds[i], u, stamp).value])
      ensures var k := FirstStop(data, fetch, deviceId);
        (old(data) != [] || discovery.Discovered?) && k >= 0 ==>
          var doc := DirectClusterGet(fetch(data[k].0)).value;
          && (!HasDeviceList(doc) ==> r == Failed("Fast device update failed: " + MissingListError(doc)) && written.None?)
          && (HasDeviceList(doc) ==>
                var ds := DevicesOf(doc);
                var e := EditFast(ds[FirstMatch(ds, "deviceId", deviceId)], u, stamp);
                && (e.Err? ==> r == Failed("Fast device update failed: " + e.message) && written.None?)
                && (e.Ok? ==> written == Some(WithDevices(doc, ds[FirstMatch(ds, "deviceId", deviceId) := e.value])))
                && (r.Done? ==> r == Done(e.value, data[k].0)))
      ensures r.Done? <==> written.Some? && DirectClusterPut(reply)
      ensures r.Done? ==> KeyIs(r.device, "deviceId", deviceId) && KeyIs(r.device, "lastModified", stamp)
      ensures written.Some? && !DirectClusterPut(reply) ==> r == Failed("Failed to update cluster")
    {
      written := None;
      var ok := EnsureClusters(discovery, now);
      if !ok {
        return Failed("Failed to get cluster information"), None;
      }
      var k := ScanClusters(data, fetch, deviceId);
      if k < 0 {
        return Failed("Device " + deviceId + " not found in any cluster"), None;
      }
      var doc := DirectClusterGet(fetch(data[k].0)).value;
      if !HasDeviceList(doc) {
        return Failed("Fast device update failed: " + MissingListError(doc)), None;
      }
      var ds := DevicesOf(doc);
      var i := FindDevice(ds, deviceId);
      var edited := EditFast(ds[i], u, stamp);
      if edited.Err? {
        return Failed("Fast device update failed: " + edited.message), None;
      }
      written := Some(WithDevices(doc, ds[i := edited.value]));
      if DirectClusterPut(reply) {
        return Done(edited.value, data[k].0), written;
      }
      return Failed("Failed to update cluster"), written;
    }

    /** `delete_device_fast`: the first device with the `deviceId`, in the
        first cluster that holds one, is popped and its document written
        back. */
    method DeleteDeviceFast(
      deviceId: string, discovery: Operations.Discovery, fetch: string -> Response, reply: Reply, now: int)
      returns (r: FastOutcome, written: Option<ClusterDoc>)
      modifies this
      ensures ttl == old(ttl)
      ensures old(data) == [] && discovery.DiscoveryFailed? ==> r == Failed("Failed to get cluster information") && written.None?
      ensures old(data) != [] ==> data == old(data) && timestamp == old(timestamp)
      ensures old(data) == [] && discovery.Discovered? ==> data == discovery.clusterMap && timestamp == now
      ensures old(data) == [] && discovery.DiscoveryFailed? ==> data == old(data) && timestamp == old(timestamp)
      ensures (old(data) != [] || discovery.Discovered?) && FirstStop(data, fetch, deviceId) < 0 ==>
        r == Failed("Device " + deviceId + " not found in any cached cluster") && written.None?
      ensures written.Some? ==>
        var k := FirstStop(data, fetch, deviceId);
        && k >= 0
        && var doc := DirectClusterGet(fetch(data[k].0)).value;
        && var i := FirstMatch(DevicesOf(doc), "deviceId", deviceId);
        && i >= 0 && written.value == WithDevices(doc, RemoveAt(DevicesOf(doc), i))
      ensures var k := FirstStop(data, fetch, deviceId);
        (old(data) != [] || discovery.Discovered?) && k >= 0 ==>
          var doc := DirectClusterGet(fetch(data[k].0)).value;
          && (!HasDeviceList(doc) ==> r == Failed("Fast device deletion failed: " + MissingListError(doc)) && written.None?)
          && (HasDeviceList(doc) ==>
                var ds := DevicesOf(doc);
                && written == Some(WithDevices(doc, RemoveAt(ds, FirstMatch(ds, "deviceId", deviceId))))
                && (r.Done? ==> r == Done(ds[FirstMatch(ds, "deviceId", deviceId)], data[k].0)))
      ensures r.Done? <==> written.Some? && DirectClusterPut(reply)
      ensures r.Done? ==> KeyIs(r.device, "deviceId", deviceId)
      ensures written.Some? && !DirectClusterPut(reply) ==> r == Failed("Failed to update cluster after deletion")
    {
      written := None;
      var ok := EnsureClusters(discovery, now);
      if !ok {
        return Failed("Failed to get cluster information"), None;
      }
      var k := ScanClusters(data, fetch, deviceId);
      if k < 0 {
        return Failed("Device " + deviceId + " not found in any cached cluster"), None;
      }
      var doc := DirectClusterGet(fetch(data[k].0)).value;
      if !HasDeviceList(doc) {
        return Failed("Fast device deletion failed: " + MissingListError(doc)), None;
      }
      var ds := DevicesOf(doc);
      var i := FindDevice(ds, deviceId);
      var deleted := ds[i];
      written := Some(WithDevices(doc, RemoveAt(ds, i)));
      if DirectClusterPut(reply) {
        return Done(deleted, data[k].0), written;
      }
      return Failed("Failed to update cluster after deletion"), written;
    }

    /** `clear_cluster_cache`. */
    method ClearClusterCache()
      modifies this
      ensures data == [] && timestamp == 0 && ttl == ClusterCacheTtl
    {
      data := [];
      timestamp := 0;
      ttl := ClusterCacheTtl;
    }
  }

  /** The not-found failure of both scans mentions "not found", which is
      what the delete route looks for. */
  lemma NotFoundMessages(deviceId: string)
    ensures Contains("Device " + deviceId + " not found in any cached cluster", " not found")
    ensures Contains("Device " + deviceId + " not found in any cluster", " not found")
  {
    var s1 := "Device " + deviceId + " not found in any cached cluster";
    var s2 := "Device " + deviceId + " not found in any cluster";
    var pre := "Device " + deviceId;
    var at := |pre|;
    assert s1 == pre + " not found" + " in any cached cluster";
    assert s2 == pre + " not found" + " in any cluster";
    assert s1[at..at + 10] == " not found";
    assert s2[at..at + 10] == " not found";
    ContainsAt(s1, " not found", at);
    ContainsAt(s2, " not found", at);
  }

  /** A fast update that only edits the identifying entries keeps the
      device's placement and configuration keys. */
  lemma FastUpdateKeepsPlacement(d: Device, u: FastUpdates, stamp: string)
    requires u.placement.None? && u.configuration.None?
    requires d.meta.Some? && "placement" in d.meta.value && EditFast(d, u, stamp).Ok?
    ensures MetaIs(EditFast(d, u, stamp).value, "placement", d.meta.value["placement"])
  {
  }
}
