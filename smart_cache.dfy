/** The surgical cache manager of api/devices/enhanced_cache_manager.py.

    It keeps two caches: the discovery cluster map, valid for 60 seconds, and
    the cluster documents by cluster id with one refresh time per cluster,
    valid for 300 seconds. After a device is created, updated or deleted, the
    manager edits the cached device list of that one cluster in place instead
    of clearing everything. The module-level functions below state what each
    edit does to the caches; the class methods perform the edits and are
    proved to agree with them. */
module SmartCache {
  import opened Wire
  import opened Dicts

  const DiscoveryTtl: int := 60
  const DeviceDataTtl: int := 300

  /** `cluster_discovery_cache`: the cluster map, when it was stored, its TTL. */
  datatype DiscoveryCache = DiscoveryCache(data: Dict<ClusterInfo>, timestamp: int, ttl: int)

  /** `device_data_cache`: documents and refresh times by cluster id, its TTL. */
  datatype DeviceDataCache = DeviceDataCache(
    clusters: map<string, ClusterDoc>,
    timestamps: map<string, int>,
    ttl: int)

  /** What `get_cluster_for_device_type` returns on a hit. */
  datatype ClusterChoice = ClusterChoice(clusterId: string, recType: string, info: ClusterInfo)

  /** What `update_after_operation` reports: which edit ran and its outcome. */
  datatype SurgicalOutcome = SurgicalOutcome(kind: string, success: bool)

  /** One entry of `cluster_details` in the status report. */
  datatype ClusterStatus = ClusterStatus(ageSeconds: int, valid: bool, deviceCount: nat)

  datatype CacheStatus = CacheStatus(
    discoveryValid: bool,
    discoveryAge: int,
    clusterCount: nat,
    discoveryTtl: int,
    cachedClusters: nat,
    clusterDetails: map<string, ClusterStatus>,
    deviceTtl: int,
    performanceTier: string)

  function EmptyDiscovery(): DiscoveryCache {
    DiscoveryCache([], 0, DiscoveryTtl)
  }

  function EmptyDeviceData(): DeviceDataCache {
    DeviceDataCache(map[], map[], DeviceDataTtl)
  }

  /** Python truthiness of a device dictionary: it has at least one member. */
  predicate Truthy(d: Device) {
    |d.fields| > 0 || d.meta.Some?
  }

  /** The discovery cache answers only while its map is non-empty and younger
      than its TTL. */
  predicate DiscoveryValid(c: DiscoveryCache, now: int) {
    |c.data| > 0 && now - c.timestamp < c.ttl
  }

  /** `dc2` differs from `dc` at most in the document of `clusterId`, whose
      refresh time is now `now`. */
  predicate TouchedOnly(dc: DeviceDataCache, dc2: DeviceDataCache, clusterId: string, now: int) {
    && clusterId in dc.clusters
    && dc2.clusters.Keys == dc.clusters.Keys
    && (forall c :: c in dc.clusters && c != clusterId ==> dc2.clusters[c] == dc.clusters[c])
    && dc2.timestamps == dc.timestamps[clusterId := now]
    && dc2.ttl == dc.ttl
  }

  /** The device after the surgical merge: members of `update.meta` are merged
      into the device's `meta` (created if missing), every other member of
      `update` overwrites the device's own, and `lastModified` is stamped. */
  function Merged(d: Device, update: Device, stamp: string): (r: Device)
    ensures r.fields.Keys == d.fields.Keys + update.fields.Keys + {"lastModified"}
    ensures r.fields["lastModified"] == Str(stamp)
    ensures forall k :: k in update.fields && k != "lastModified" ==> r.fields[k] == update.fields[k]
    ensures forall k :: k in d.fields && k !in update.fields && k != "lastModified" ==> r.fields[k] == d.fields[k]
    ensures update.meta.None? ==> r.meta == d.meta
    ensures update.meta.Some? ==> r.meta.Some?
    ensures update.meta.Some? ==> forall k :: k in update.meta.value ==> k in r.meta.value && r.meta.value[k] == update.meta.value[k]
    ensures update.meta.Some? && d.meta.Some? ==>
      forall k :: k in d.meta.value && k !in update.meta.value ==> k in r.meta.value && r.meta.value[k] == d.meta.value[k]
    ensures update.meta.Some? ==>
      forall k :: k in r.meta.value ==> k in update.meta.value || (d.meta.Some? && k in d.meta.value)
  {
    var meta := if update.meta.Some? then Some((if d.meta.Some? then d.meta.value else map[]) + update.meta.value) else d.meta;
    Device((d.fields + update.fields)["lastModified" := Str(stamp)], meta)
  }

  /** `update_device_in_cache`: the first device of the cached cluster whose
      `deviceId` matches is merged with `update`; nothing changes and the
      answer is false when the cluster is not cached or no device matches. */
  function AfterUpdate(dc: DeviceDataCache, clusterId: string, deviceId: string, update: Device, stamp: string, now: int)
    : (r: (DeviceDataCache, bool))
    ensures r.1 <==> clusterId in dc.clusters && FirstMatch(DevicesOf(dc.clusters[clusterId]), "deviceId", deviceId) >= 0
    ensures !r.1 ==> r.0 == dc
    ensures r.1 ==> TouchedOnly(dc, r.0, clusterId, now)
    ensures r.1 ==>
      var before := DevicesOf(dc.clusters[clusterId]);
      var after := DevicesOf(r.0.clusters[clusterId]);
      var i := FirstMatch(before, "deviceId", deviceId);
      && |after| == |before|
      && after[i] == Merged(before[i], update, stamp)
      && (forall j :: 0 <= j < |before| && j != i ==> after[j] == before[j])
  {
    if clusterId !in dc.clusters then (dc, false)
    else
      var doc := dc.clusters[clusterId];
      var ds := DevicesOf(doc);
      var i := FirstMatch(ds, "deviceId", deviceId);
      if i < 0 then (dc, false)
      else
        var doc2 := WithDevices(doc, ds[i := Merged(ds[i], update, stamp)]);
        (dc.(clusters := dc.clusters[clusterId := doc2], timestamps := dc.timestamps[clusterId := now]), true)
  }

  /** `add_device_to_cache`: on a cached cluster the device goes at the end of
      its list and the answer is true. A cached document without a
      `data.devices` list is left as it is (the append lands on a throw-away
      list) although the answer is still true and the refresh time moves. */
  function AfterAdd(dc: DeviceDataCache, clusterId: string, device: Device, now: int): (r: (DeviceDataCache, bool))
    ensures r.1 <==> clusterId in dc.clusters
    ensures !r.1 ==> r.0 == dc
    ensures r.1 ==> TouchedOnly(dc, r.0, clusterId, now)
    ensures r.1 && HasDeviceList(dc.clusters[clusterId]) ==>
      DevicesOf(r.0.clusters[clusterId]) == DevicesOf(dc.clusters[clusterId]) + [device]
    ensures r.1 && !HasDeviceList(dc.clusters[clusterId]) ==> r.0.clusters[clusterId] == dc.clusters[clusterId]
  {
    if clusterId !in dc.clusters then (dc, false)
    else
      var doc := dc.clusters[clusterId];
      var doc2 := if HasDeviceList(doc) then WithDevices(doc, DevicesOf(doc) + [device]) else doc;
      (dc.(clusters := dc.clusters[clusterId := doc2], timestamps := dc.timestamps[clusterId := now]), true)
  }

  /** `remove_device_from_cache`: the first device whose `deviceId` matches is
      taken out of the list and returned, the rest keep their order; with no
      match nothing changes, not even the refresh time. */
  function AfterRemove(dc: DeviceDataCache, clusterId: string, deviceId: string, now: int): (r: (DeviceDataCache, Option<Device>))
    ensures r.1.Some? <==> clusterId in dc.clusters && FirstMatch(DevicesOf(dc.clusters[clusterId]), "deviceId", deviceId) >= 0
    ensures r.1.None? ==> r.0 == dc
    ensures r.1.Some? ==> TouchedOnly(dc, r.0, clusterId, now) && KeyIs(r.1.value, "deviceId", deviceId)
    ensures r.1.Some? ==>
      var before := DevicesOf(dc.clusters[clusterId]);
      var i := FirstMatch(before, "deviceId", deviceId);
      r.1.value == before[i] && DevicesOf(r.0.clusters[clusterId]) == RemoveAt(before, i)
  {
    if clusterId !in dc.clusters then (dc, None)
    else
      var doc := dc.clusters[clusterId];
      var ds := DevicesOf(doc);
      var i := FirstMatch(ds, "deviceId", deviceId);
      if i < 0 then (dc, None)
      else
        var doc2 := WithDevices(doc, RemoveAt(ds, i));
        (dc.(clusters := dc.clusters[clusterId := doc2], timestamps := dc.timestamps[clusterId := now]), Some(ds[i]))
  }

  /** `invalidate_cluster_cache`: the document and refresh time of one cluster
      are dropped; every other cluster keeps both. */
  function Invalidated(dc: DeviceDataCache, clusterId: string): (r: DeviceDataCache)
    ensures clusterId !in r.clusters && clusterId !in r.timestamps && r.ttl == dc.ttl
    ensures forall c :: c != clusterId ==> (c in r.clusters <==> c in dc.clusters)
    ensures forall c :: c != clusterId ==> (c in r.timestamps <==> c in dc.timestamps)
    ensures forall c :: c in r.clusters ==> r.clusters[c] == dc.clusters[c]
    ensures forall c :: c in r.timestamps ==> r.timestamps[c] == dc.timestamps[c]
  {
    dc.(clusters := dc.clusters - {clusterId}, timestamps := dc.timestamps - {clusterId})
  }

  /** `TRAP_RECORD_TYPE` for 'rodent_sensor', the gateway type for 'gateway',
      nothing for any other device type. */
  function TargetRecType(deviceType: string): (r: Option<string>)
    ensures r.Some? <==> deviceType == "rodent_sensor" || deviceType == "gateway"
    ensures r == Some(TrapRecType) <==> deviceType == "rodent_sensor"
  {
    if deviceType == "rodent_sensor" then Some(TrapRecType)
    else if deviceType == "gateway" then Some(GatewayRecType)
    else None
  }

  /** Position of the first map entry whose `rec_type` is `recType`, or -1. */
  function FirstWithRecType(data: Dict<ClusterInfo>, recType: string): (r: int)
    ensures -1 <= r < |data|
    ensures r >= 0 ==> data[r].1.recType == Some(recType)
    ensures forall j :: 0 <= j < |data| && (r < 0 || j < r) ==> data[j].1.recType != Some(recType)
  {
    if data == [] then -1
    else if data[0].1.recType == Some(recType) then 0
    else
      var r := FirstWithRecType(data[1..], recType);
      if r < 0 then -1 else r + 1
  }

  /** `get_cluster_for_device_type`: with a valid discovery cache and a known
      device type, the first cluster of the map (in insertion order) whose
      record type is the target one. */
  function ClusterForDeviceType(c: DiscoveryCache, deviceType: string, now: int): (r: Option<ClusterChoice>)
    ensures !DiscoveryValid(c, now) || TargetRecType(deviceType).None? ==> r.None?
    ensures r.Some? ==>
      var i := FirstWithRecType(c.data, TargetRecType(deviceType).value);
      && i >= 0
      && r.value == ClusterChoice(c.data[i].0, TargetRecType(deviceType).value, c.data[i].1)
    ensures DiscoveryValid(c, now) && TargetRecType(deviceType).Some? ==>
      (r.None? <==> forall j :: 0 <= j < |c.data| ==> c.data[j].1.recType != TargetRecType(deviceType))
  {
    if !DiscoveryValid(c, now) then None
    else
      var target := TargetRecType(deviceType);
      if target.None? then None
      else
        var i := FirstWithRecType(c.data, target.value);
        if i < 0 then None else Some(ClusterChoice(c.data[i].0, target.value, c.data[i].1))
  }

  /** `update_after_operation`: a create with a non-empty device adds it, an
      update with an id and a non-empty device merges it, a delete with an id
      removes it (succeeding iff something was removed); any other call drops
      just that cluster from the cache and reports success. */
  function AfterOperation(
    dc: DeviceDataCache, operation: string, clusterId: string,
    deviceId: Option<string>, deviceData: Option<Device>, stamp: string, now: int)
    : (r: (DeviceDataCache, SurgicalOutcome))
    ensures operation == "CREATE" && deviceData.Some? && Truthy(deviceData.value) ==>
      r.1 == SurgicalOutcome("ADD", clusterId in dc.clusters) && r.0 == AfterAdd(dc, clusterId, deviceData.value, now).0
    ensures operation == "UPDATE" && deviceId.Some? && deviceId.value != "" && deviceData.Some? && Truthy(deviceData.value) ==>
      r.1.kind == "UPDATE" && (r.0, r.1.success) == AfterUpdate(dc, clusterId, deviceId.value, deviceData.value, stamp, now)
    ensures operation == "DELETE" && deviceId.Some? && deviceId.value != "" ==>
      r.1.kind == "DELETE" && r.0 == AfterRemove(dc, clusterId, deviceId.value, now).0
      && (r.1.success <==> AfterRemove(dc, clusterId, deviceId.value, now).1.Some?)
    ensures operation !in {"CREATE", "UPDATE", "DELETE"} ==>
      r == (Invalidated(dc, clusterId), SurgicalOutcome("CLUSTER_INVALIDATION", true))
    ensures && !(operation == "CREATE" && deviceData.Some? && Truthy(deviceData.value))
            && !(operation == "UPDATE" && deviceId.Some? && deviceId.value != "" && deviceData.Some? && Truthy(deviceData.value))
            && !(operation == "DELETE" && deviceId.Some? && deviceId.value != "") ==>
      r == (Invalidated(dc, clusterId), SurgicalOutcome("CLUSTER_INVALIDATION", true))
    ensures r.0.ttl == dc.ttl
  {
    if operation == "CREATE" && deviceData.Some? && Truthy(deviceData.value) then
      var (dc2, ok) := AfterAdd(dc, clusterId, deviceData.value, now);
      (dc2, SurgicalOutcome("ADD", ok))
    else if operation == "UPDATE" && deviceId.Some? && deviceId.value != "" && deviceData.Some? && Truthy(deviceData.value) then
      var (dc2, ok) := AfterUpdate(dc, clusterId, deviceId.value, deviceData.value, stamp, now);
      (dc2, SurgicalOutcome("UPDATE", ok))
    else if operation == "DELETE" && deviceId.Some? && deviceId.value != "" then
      var (dc2, removed) := AfterRemove(dc, clusterId, deviceId.value, now);
      (dc2, SurgicalOutcome("DELETE", removed.Some?))
    else
      (Invalidated(dc, clusterId), SurgicalOutcome("CLUSTER_INVALIDATION", true))
  }

  /** `get_cache_status`. Unlike `is_discovery_cache_valid`, the reported
      discovery validity looks only at the age, not at whether the map is
      empty. One entry per cluster with a refresh time. */
  function StatusOf(c: DiscoveryCache, dc: DeviceDataCache, now: int): (r: CacheStatus)
    ensures r.discoveryValid <==> now - c.timestamp < c.ttl
    ensures r.discoveryAge == now - c.timestamp && r.clusterCount == |c.data|
    ensures r.cachedClusters == |dc.clusters| && r.clusterDetails.Keys == dc.timestamps.Keys
    ensures forall id :: id in r.clusterDetails ==>
      && r.clusterDetails[id].ageSeconds == now - dc.timestamps[id]
      && (r.clusterDetails[id].valid <==> now - dc.timestamps[id] < dc.ttl)
      && r.clusterDetails[id].deviceCount == (if id in dc.clusters then |DevicesOf(dc.clusters[id])| else 0)
    ensures r.performanceTier == (if r.discoveryValid then "OPTIMIZED" else "DISCOVERY_NEEDED")
  {
    var valid := now - c.timestamp < c.ttl;
    var details := map id | id in dc.timestamps ::
      ClusterStatus(now - dc.timestamps[id], now - dc.timestamps[id] < dc.ttl,
                    if id in dc.clusters then |DevicesOf(dc.clusters[id])| else 0);
    CacheStatus(valid, now - c.timestamp, |c.data|, c.ttl, |dc.clusters|, details, dc.ttl,
                if valid then "OPTIMIZED" else "DISCOVERY_NEEDED")
  }

  /** An empty cluster map freshly stored is reported as a valid discovery
      cache by the status report while `get_discovery_cache` misses on it. */
  lemma StatusDisagreesOnEmptyMap(now: int)
    ensures StatusOf(DiscoveryCache([], now, DiscoveryTtl), EmptyDeviceData(), now).discoveryValid
    ensures !DiscoveryValid(DiscoveryCache([], now, DiscoveryTtl), now)
  {
  }

  lemma {:induction false} FirstMatchAppend(ds: seq<Device>, d: Device, key: string, value: string)
    requires FirstMatch(ds, key, value) < 0 && KeyIs(d, key, value)
    ensures FirstMatch(ds + [d], key, value) == |ds|
  {
    var r := FirstMatch(ds + [d], key, value);
    assert forall j :: 0 <= j < |ds| ==> (ds + [d])[j] == ds[j];
    assert (ds + [d])[|ds|] == d;
  }

  /** Removing by id the device just added under a fresh id hands that device
      back and restores the cluster's document. */
  lemma AddThenRemoveRestores(dc: DeviceDataCache, clusterId: string, device: Device, deviceId: string, t1: int, t2: int)
    requires clusterId in dc.clusters && HasDeviceList(dc.clusters[clusterId])
    requires KeyIs(device, "deviceId", deviceId)
    requires FirstMatch(DevicesOf(dc.clusters[clusterId]), "deviceId", deviceId) < 0
    ensures AfterAdd(dc, clusterId, device, t1).1
    ensures AfterRemove(AfterAdd(dc, clusterId, device, t1).0, clusterId, deviceId, t2).1 == Some(device)
    ensures AfterRemove(AfterAdd(dc, clusterId, device, t1).0, clusterId, deviceId, t2).0
      == dc.(timestamps := dc.timestamps[clusterId := t2])
  {
    var ds := DevicesOf(dc.clusters[clusterId]);
    FirstMatchAppend(ds, device, "deviceId", deviceId);
    assert RemoveAt(ds + [device], |ds|) == ds;
    var mid := AfterAdd(dc, clusterId, device, t1).0;
    var fin := AfterRemove(mid, clusterId, deviceId, t2).0;
    assert fin.clusters[clusterId] == dc.clusters[clusterId];
    assert fin.clusters == dc.clusters;
  }

  /** Every device that was in the list before a removal is either the
      removed one or still in the list. */
  lemma {:induction false} RemoveKeepsTheRest(ds: seq<Device>, i: nat)
    requires i < |ds|
    ensures multiset(ds) == multiset(RemoveAt(ds, i)) + multiset{ds[i]}
  {
    assert ds == ds[..i] + [ds[i]] + ds[i + 1..];
  }

  class SmartCacheManager {
    var discovery: DiscoveryCache
    var deviceData: DeviceDataCache

    /** The TTLs are the fixed 60 and 300 seconds, the cluster map is a
        dictionary, and every cached document has a refresh time and vice
        versa. */
    ghost predicate Valid()
      reads this
    {
      && DistinctKeys(discovery.data)
      && discovery.ttl == DiscoveryTtl
      && deviceData.ttl == DeviceDataTtl
      && deviceData.timestamps.Keys == deviceData.clusters.Keys
    }

    constructor ()
      ensures Valid()
      ensures discovery == EmptyDiscovery() && deviceData == EmptyDeviceData()
    {
      discovery := EmptyDiscovery();
      deviceData := EmptyDeviceData();
    }

    function IsDiscoveryCacheValid(now: int): (valid: bool)
      reads this
      requires Valid()
      ensures valid <==> |discovery.data| > 0 && now - discovery.timestamp < 60
    {
      DiscoveryValid(discovery, now)
    }

    method UpdateDiscoveryCache(clusterMap: Dict<ClusterInfo>, now: int)
      requires Valid() && DistinctKeys(clusterMap)
      modifies this
      ensures Valid()
      ensures discovery == old(discovery).(data := clusterMap, timestamp := now)
      ensures deviceData == old(deviceData)
    {
      discovery := discovery.(data := clusterMap, timestamp := now);
    }

    /** The cached cluster map and its age, while the cache is valid. */
    function GetDiscoveryCache(now: int): (r: Option<(Dict<ClusterInfo>, int)>)
      reads this
      requires Valid()
      ensures r.Some? <==> |discovery.data| > 0 && now - discovery.timestamp < 60
      ensures r.Some? ==> r.value.0 == discovery.data && r.value.1 == now - discovery.timestamp
    {
      if IsDiscoveryCacheValid(now) then Some((discovery.data, now - discovery.timestamp)) else None
    }

    method UpdateDeviceInCache(clusterId: string, deviceId: string, update: Device, stamp: string, now: int)
      returns (updated: bool)
      requires Valid()
      modifies this
      ensures Valid()
      ensures (deviceData, updated) == AfterUpdate(old(deviceData), clusterId, deviceId, update, stamp, now)
      ensures discovery == old(discovery)
    {
      if clusterId !in deviceData.clusters {
        return false;
      }
      var doc := deviceData.clusters[clusterId];
      var devices := DevicesOf(doc);
      var i := 0;
      while i < |devices|
        invariant 0 <= i <= |devices|
        invariant forall j :: 0 <= j < i ==> !KeyIs(devices[j], "deviceId", deviceId)
      {
        if KeyIs(devices[i], "deviceId", deviceId) {
          var doc2 := WithDevices(doc, devices[i := Merged(devices[i], update, stamp)]);
          deviceData := deviceData.(clusters := deviceData.clusters[clusterId := doc2],
                                    timestamps := deviceData.timestamps[clusterId := now]);
          return true;
        }
        i := i + 1;
      }
      return false;
    }

    method AddDeviceToCache(clusterId: string, device: Device, now: int) returns (added: bool)
      requires Valid()
      modifies this
      ensures Valid()
      ensures (deviceData, added) == AfterAdd(old(deviceData), clusterId, device, now)
      ensures discovery == old(discovery)
    {
      if clusterId in deviceData.clusters {
        var doc := deviceData.clusters[clusterId];
        if HasDeviceList(doc) {
          doc := WithDevices(doc, DevicesOf(doc) + [device]);
        }
        deviceData := deviceData.(clusters := deviceData.clusters[clusterId := doc],
                                  timestamps := deviceData.timestamps[clusterId := now]);
        return true;
      }
      return false;
    }

    method RemoveDeviceFromCache(clusterId: string, deviceId: string, now: int) returns (removed: Option<Device>)
      requires Valid()
      modifies this
      ensures Valid()
      ensures (deviceData, removed) == AfterRemove(old(deviceData), clusterId, deviceId, now)
      ensures discovery == old(discovery)
    {
      if clusterId in deviceData.clusters {
        var doc := deviceData.clusters[clusterId];
        var devices := DevicesOf(doc);
        var i := 0;
        while i < |devices|
          invariant 0 <= i <= |devices|
          invariant forall j :: 0 <= j < i ==> !KeyIs(devices[j], "deviceId", deviceId)
        {
          if KeyIs(devices[i], "deviceId", deviceId) {
            var doc2 := WithDevices(doc, RemoveAt(devices, i));
            deviceData := deviceData.(clusters := deviceData.clusters[clusterId := doc2],
                                      timestamps := deviceData.timestamps[clusterId := now]);
            return Some(devices[i]);
          }
          i := i + 1;
        }
      }
      return None;
    }

    method CacheClusterData(clusterId: string, doc: ClusterDoc, now: int)
      requires Valid()
      modifies this
      ensures Valid()
      ensures deviceData == old(deviceData).(clusters := old(deviceData).clusters[clusterId := doc],
                                             timestamps := old(deviceData).timestamps[clusterId := now])
      ensures discovery == old(discovery)
    {
      deviceData := deviceData.(clusters := deviceData.clusters[clusterId := doc],
                                timestamps := deviceData.timestamps[clusterId := now]);
    }

    /** The cached document and its age, when the cluster is cached and was
        refreshed less than 300 seconds ago (a missing refresh time counts
        as time 0). */
    function GetCachedClusterData(clusterId: string, now: int): (r: Option<(ClusterDoc, int)>)
      reads this
      requires Valid()
      ensures r.Some? <==> (clusterId in deviceData.clusters
        && now - (if clusterId in deviceData.timestamps then deviceData.timestamps[clusterId] else 0) < 300)
      ensures r.Some? ==> (r.value.0 == deviceData.clusters[clusterId]
        && r.value.1 == now - deviceData.timestamps[clusterId])
    {
      if clusterId !in deviceData.clusters then None
      else
        var last := if clusterId in deviceData.timestamps then deviceData.timestamps[clusterId] else 0;
        if now - last < deviceData.ttl then Some((deviceData.clusters[clusterId], now - last)) else None
    }

    method GetClusterForDeviceType(deviceType: string, now: int) returns (choice: Option<ClusterChoice>)
      requires Valid()
      ensures choice == ClusterForDeviceType(discovery, deviceType, now)
    {
      if !IsDiscoveryCacheValid(now) {
        return None;
      }
      var target := TargetRecType(deviceType);
      if target.None? {
        return None;
      }
      var data := discovery.data;
      var i := 0;
      while i < |data|
        invariant 0 <= i <= |data|
        invariant forall j :: 0 <= j < i ==> data[j].1.recType != target
      {
        if data[i].1.recType == target {
          return Some(ClusterChoice(data[i].0, target.value, data[i].1));
        }
        i := i + 1;
      }
      return None;
    }

    method InvalidateClusterCache(clusterId: string)
      requires Valid()
      modifies this
      ensures Valid()
      ensures deviceData == Invalidated(old(deviceData), clusterId)
      ensures discovery == old(discovery)
    {
      if clusterId in deviceData.clusters {
        deviceData := deviceData.(clusters := deviceData.clusters - {clusterId});
      }
      if clusterId in deviceData.timestamps {
        deviceData := deviceData.(timestamps := deviceData.timestamps - {clusterId});
      }
    }

    method ClearAllCache()
      modifies this
      ensures Valid()
      ensures discovery == EmptyDiscovery() && deviceData == EmptyDeviceData()
    {
      discovery := EmptyDiscovery();
      deviceData := EmptyDeviceData();
    }

    function GetCacheStatus(now: int): (r: CacheStatus)
      reads this
      requires Valid()
      ensures r.discoveryValid <==> now - discovery.timestamp < 60
      ensures r.cachedClusters == |deviceData.clusters| && r.clusterDetails.Keys == deviceData.clusters.Keys
      ensures forall id :: id in r.clusterDetails ==>
        r.clusterDetails[id].deviceCount == |DevicesOf(deviceData.clusters[id])|
    {
      StatusOf(discovery, deviceData, now)
    }

    method UpdateAfterOperation(
      operation: string, clusterId: string, deviceId: Option<string>, deviceData': Option<Device>,
      stamp: string, now: int)
      returns (outcome: SurgicalOutcome)
      requires Valid()
      modifies this
      ensures Valid()
      ensures (deviceData, outcome) == AfterOperation(old(deviceData), operation, clusterId, deviceId, deviceData', stamp, now)
      ensures discovery == old(discovery)
    {
      if operation == "CREATE" && deviceData'.Some? && Truthy(deviceData'.value) {
        var ok := AddDeviceToCache(clusterId, deviceData'.value, now);
        outcome := SurgicalOutcome("ADD", ok);
      } else if operation == "UPDATE" && deviceId.Some? && deviceId.value != ""
                && deviceData'.Some? && Truthy(deviceData'.value) {
        var ok := UpdateDeviceInCache(clusterId, deviceId.value, deviceData'.value, stamp, now);
        outcome := SurgicalOutcome("UPDATE", ok);
      } else if operation == "DELETE" && deviceId.Some? && deviceId.value != "" {
        var removed := RemoveDeviceFromCache(clusterId, deviceId.value, now);
        outcome := SurgicalOutcome("DELETE", removed.Some?);
      } else {
        InvalidateClusterCache(clusterId);
        outcome := SurgicalOutcome("CLUSTER_INVALIDATION", true);
      }
    }
  }

  /** `update_cache_after_create` on a given manager. */
  method UpdateCacheAfterCreate(m: SmartCacheManager, clusterId: string, device: Device, now: int)
    returns (outcome: SurgicalOutcome)
    requires m.Valid()
    modifies m
    ensures m.Valid() && m.discovery == old(m.discovery)
    ensures (m.deviceData, outcome) == AfterOperation(old(m.deviceData), "CREATE", clusterId, None, Some(device), "", now)
  {
    outcome := m.UpdateAfterOperation("CREATE", clusterId, None, Some(device), "", now);
  }

  /** `update_cache_after_update` on a given manager. */
  method UpdateCacheAfterUpdate(m: SmartCacheManager, clusterId: string, deviceId: string, device: Device, stamp: string, now: int)
    returns (outcome: SurgicalOutcome)
    requires m.Valid()
    modifies m
    ensures m.Valid() && m.discovery == old(m.discovery)
    ensures (m.deviceData, outcome) == AfterOperation(old(m.deviceData), "UPDATE", clusterId, Some(deviceId), Some(device), stamp, now)
  {
    outcome := m.UpdateAfterOperation("UPDATE", clusterId, Some(deviceId), Some(device), stamp, now);
  }

  /** `update_cache_after_delete` on a given manager. */
  method UpdateCacheAfterDelete(m: SmartCacheManager, clusterId: string, deviceId: string, now: int)
    returns (outcome: SurgicalOutcome)
    requires m.Valid()
    modifies m
    ensures m.Valid() && m.discovery == old(m.discovery)
    ensures (m.deviceData, outcome) == AfterOperation(old(m.deviceData), "DELETE", clusterId, Some(deviceId), None, "", now)
  {
    outcome := m.UpdateAfterOperation("DELETE", clusterId, Some(deviceId), None, "", now);
  }
}
