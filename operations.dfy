/** The device operations of api/devices/operations.py: the wildcard discovery
    behind a TTL cache, the cluster map built from it, the decoding of each
    device's positional location list, and create, update and delete of one
    device by its `guid` as a read-modify-write of its cluster document.

    Network calls are inputs: `wildcard` is the answer to the discovery GET,
    `fetch(id)` the answer to the GET of cluster `id`, and `reply` the answer
    to the PUT of the changed document. Time and uuids are inputs too. */
module Operations {
  import opened Wire
  import opened Dicts
  import opened Strings
  import OpsCache

  /** What a successful discovery stores in the cache. */
  datatype Snapshot = Snapshot(clusterMap: Dict<ClusterInfo>, totalClusters: nat, totalDevices: nat)

  /** What `wildcard_discovery_with_cache` returns. */
  datatype Discovery =
    | Discovered(clusterMap: Dict<ClusterInfo>, totalClusters: nat, totalDevices: nat, cacheHit: bool)
    | DiscoveryFailed(error: string)

  /** One device as `get_cluster_devices` reports it. */
  datatype DecodedDevice = DecodedDevice(
    id: Value,
    customer: string,
    site: string,
    area: string,
    erpReference: string,
    placement: string,
    configuration: string,
    status: Value,
    deviceType: string,
    clusterId: string,
    clusterName: string,
    locationLayers: nat,
    erpReady: bool,
    meta: map<string, Value>,
    state: Value,
    guid: Value)

  /** What `get_cluster_devices` returns. */
  datatype ClusterDevices =
    | Fetched(devices: seq<DecodedDevice>, erpReadyCount: nat, raw: ClusterDoc)
    | FetchFailed(error: string)

  /** A successful `find_device_by_guid`. */
  datatype Hit = Hit(device: DecodedDevice, info: ClusterInfo, raw: ClusterDoc)

  /** The keys `update_device_by_guid` recognises; None means absent. */
  datatype GuidUpdates = GuidUpdates(
    customer: Option<string>,
    site: Option<string>,
    area: Option<string>,
    erpReference: Option<string>,
    placement: Option<string>,
    configuration: Option<string>,
    status: Option<string>)

  /** The request body of a create (`CanonicalDeviceCreate`). */
  datatype DeviceCreate = DeviceCreate(
    customer: string,
    site: string,
    area: string,
    erpReference: string,
    placement: string,
    configuration: string,
    deviceId: string,
    status: string,
    deviceType: string)

  datatype Outcome =
    | Done(device: Device, clusterId: string)
    | Failed(error: string)

  /** The defaults of `CanonicalDeviceCreate` for the optional members. */
  function DefaultCreate(customer: string, site: string, area: string, erpReference: string): DeviceCreate {
    DeviceCreate(customer, site, area, erpReference, "Internal", "Bait/Lured", "00-00-00-00-00-00-00-00", "pending", "rodent_sensor")
  }

  // ---------------------------------------------------------------------
  // Discovery

  /** `discovery:{api_base}:{access_token[:16]}`: the fixed prefix, the API
      base, a colon, and at most the first 16 characters of the token. */
  function DiscoveryKey(apiBase: string, token: string): (key: string)
    ensures |key| == 11 + |apiBase| + (if |token| < 16 then |token| else 16)
    ensures key[..10] == "discovery:" && key[10..10 + |apiBase|] == apiBase && key[10 + |apiBase|] == ':'
    ensures key[11 + |apiBase|..] <= token
  {
    "discovery:" + apiBase + ":" + token[..if |token| < 16 then |token| else 16]
  }

  /** Only the first 16 characters of the token reach the key, so two tokens
      that share them share the cached discovery of that API base. */
  lemma DiscoveryKeySharedByPrefix(apiBase: string, t1: string, t2: string)
    requires |t1| >= 16 && |t2| >= 16 && t1[..16] == t2[..16]
    ensures DiscoveryKey(apiBase, t1) == DiscoveryKey(apiBase, t2)
  {
  }

  /** The device type a cluster's record type stands for. */
  function DeviceTypeOf(recType: Option<string>): (t: string)
    ensures t == "rodent_sensor" <==> recType == Some(TrapRecType)
    ensures t == "gateway" <==> recType == Some(GatewayRecType)
    ensures t != "rodent_sensor" && t != "gateway" ==> t == "unknown"
  {
    if recType == Some(TrapRecType) then "rodent_sensor"
    else if recType == Some(GatewayRecType) then "gateway"
    else "unknown"
  }

  /** The cluster-map entry of one discovered cluster. */
  function InfoOf(c: ClusterDoc): (info: ClusterInfo)
    ensures info.clusterId == c.id && info.recType == c.recType
    ensures info.clusterName == (if c.name.Some? then c.name.value else "Unknown")
    ensures info.deviceType == DeviceTypeOf(c.recType)
    ensures info.deviceCount == |DevicesOf(c)|
  {
    ClusterInfo(c.id, if c.name.Some? then c.name.value else "Unknown", c.recType, DeviceTypeOf(c.recType), |DevicesOf(c)|)
  }

  /** The cluster map after the discovery loop has seen `cs`: one entry per
      distinct `_id`, in first-seen order, a repeated id overwriting the
      entry of the earlier cluster. */
  function ClusterMapOf(cs: seq<ClusterDoc>): (m: Dict<ClusterInfo>)
    ensures DistinctKeys(m)
    ensures |m| <= |cs|
  {
    if cs == [] then []
    else
      var prev := ClusterMapOf(cs[..|cs| - 1]);
      var last := cs[|cs| - 1];
      PutThenLookup(prev, last.id, InfoOf(last), last.id);
      Put(prev, last.id, InfoOf(last))
  }

  /** Every discovered cluster has an entry in the map. */
  lemma {:induction false} ClusterMapCoversIds(cs: seq<ClusterDoc>)
    ensures forall i :: 0 <= i < |cs| ==> HasKey(ClusterMapOf(cs), cs[i].id)
  {
    if cs != [] {
      var init := cs[..|cs| - 1];
      var prev := ClusterMapOf(init);
      var last := cs[|cs| - 1];
      ClusterMapCoversIds(init);
      forall i | 0 <= i < |cs| ensures HasKey(ClusterMapOf(cs), cs[i].id) {
        PutThenLookup(prev, last.id, InfoOf(last), cs[i].id);
        if i < |cs| - 1 {
          assert init[i] == cs[i];
        }
      }
    }
  }

  /** Every entry of the cluster map is keyed by its own cluster id. */
  lemma {:induction false} ClusterMapKeysMatchIds(cs: seq<ClusterDoc>)
    ensures forall i :: 0 <= i < |ClusterMapOf(cs)| ==> ClusterMapOf(cs)[i].1.clusterId == ClusterMapOf(cs)[i].0
  {
    if cs != [] {
      var init := cs[..|cs| - 1];
      var last := cs[|cs| - 1];
      ClusterMapKeysMatchIds(init);
    }
  }

  /** `total_devices`: the device counts of all discovered clusters added up. */
  function TotalDevices(cs: seq<ClusterDoc>): nat {
    if cs == [] then 0 else TotalDevices(cs[..|cs| - 1]) + |DevicesOf(cs[|cs| - 1])|
  }

  /** The map entry of an id describes the last cluster carrying that id:
      `cluster_map[cluster_id] = ...` overwrites. */
  lemma {:induction false} LastClusterWins(cs: seq<ClusterDoc>, i: nat)
    requires i < |cs|
    requires forall j :: i < j < |cs| ==> cs[j].id != cs[i].id
    ensures Lookup(ClusterMapOf(cs), cs[i].id) == Some(InfoOf(cs[i]))
  {
    var init := cs[..|cs| - 1];
    var last := cs[|cs| - 1];
    if i == |cs| - 1 {
      PutThenLookup(ClusterMapOf(init), last.id, InfoOf(last), last.id);
    } else {
      assert init[i] == cs[i];
      LastClusterWins(init, i);
      PutThenLookup(ClusterMapOf(init), last.id, InfoOf(last), cs[i].id);
    }
  }

  /** With distinct ids the map holds every cluster at its own position. */
  lemma {:induction false} ClusterMapInOrder(cs: seq<ClusterDoc>)
    requires forall i, j :: 0 <= i < j < |cs| ==> cs[i].id != cs[j].id
    ensures |ClusterMapOf(cs)| == |cs|
    ensures forall i :: 0 <= i < |cs| ==> ClusterMapOf(cs)[i] == (cs[i].id, InfoOf(cs[i]))
  {
    if cs != [] {
      var init := cs[..|cs| - 1];
      var last := cs[|cs| - 1];
      assert forall i, j :: 0 <= i < j < |init| ==> init[i].id != init[j].id by {
        assert forall i :: 0 <= i < |init| ==> init[i] == cs[i];
      }
      ClusterMapInOrder(init);
      var prev := ClusterMapOf(init);
      assert !HasKey(prev, last.id) by {
        forall j | 0 <= j < |prev| ensures prev[j].0 != last.id {
          assert prev[j] == (init[j].id, InfoOf(init[j]));
          assert init[j] == cs[j];
        }
      }
      var m := ClusterMapOf(cs);
      assert m == prev + [(last.id, InfoOf(last))];
      forall i | 0 <= i < |cs| ensures m[i] == (cs[i].id, InfoOf(cs[i])) {
        if i < |cs| - 1 {
          assert m[i] == prev[i];
          assert prev[i] == (init[i].id, InfoOf(init[i]));
          assert init[i] == cs[i];
        } else {
          assert m[i] == (last.id, InfoOf(last));
        }
      }
    }
  }

  /** The loop of lines 157-182: builds the cluster map and adds up the
      device counts. */
  method BuildClusterMap(clusters: seq<ClusterDoc>) returns (clusterMap: Dict<ClusterInfo>, total: nat)
    ensures clusterMap == ClusterMapOf(clusters)
    ensures total == TotalDevices(clusters)
  {
    clusterMap, total := [], 0;
    var i := 0;
    while i < |clusters|
      invariant 0 <= i <= |clusters|
      invariant clusterMap == ClusterMapOf(clusters[..i])
      invariant total == TotalDevices(clusters[..i])
    {
      var cluster := clusters[i];
      assert clusters[..i + 1][..i] == clusters[..i];
      clusterMap := Put(clusterMap, cluster.id, InfoOf(cluster));
      total := total + |DevicesOf(cluster)|;
      i := i + 1;
    }
    assert clusters[..i] == clusters;
  }

  /** The cache entry a read of the discovery key finds still fresh, if any. */
  function FreshSnapshot(entries: Dict<(Snapshot, int)>, ttl: int, key: string, now: int): (r: Option<Snapshot>)
    ensures r.Some? <==> Lookup(entries, key).Some? && OpsCache.Fresh(Lookup(entries, key).value.1, ttl, now)
    ensures r.Some? ==> r.value == Lookup(entries, key).value.0
  {
    var c := Lookup(entries, key);
    if c.Some? && OpsCache.Fresh(c.value.1, ttl, now) then Some(c.value.0) else None
  }

  /** What `wildcard_discovery_with_cache` answers, given the cache entries
      before the call: a fresh snapshot is a hit and no request is made;
      otherwise the wildcard GET decides. */
  function DiscoveryOf(entries: Dict<(Snapshot, int)>, ttl: int, apiBase: string, token: string, wildcard: Response, now: int): (r: Discovery)
    ensures (r.Discovered? && r.cacheHit) <==> FreshSnapshot(entries, ttl, DiscoveryKey(apiBase, token), now).Some?
    ensures r.Discovered? && r.cacheHit ==>
      var snap := FreshSnapshot(entries, ttl, DiscoveryKey(apiBase, token), now).value;
      r.clusterMap == snap.clusterMap && r.totalClusters == snap.totalClusters && r.totalDevices == snap.totalDevices
    ensures r.Discovered? && !r.cacheHit ==>
      (&& wildcard.Response? && wildcard.status == 200
       && r.clusterMap == ClusterMapOf(wildcard.objs)
       && r.totalClusters == |wildcard.objs| && r.totalDevices == TotalDevices(wildcard.objs))
    ensures FreshSnapshot(entries, ttl, DiscoveryKey(apiBase, token), now).None? ==>
      (r.Discovered? <==> wildcard.Response? && wildcard.status == 200)
    ensures r.DiscoveryFailed? ==>
      r.error == if wildcard.Raised? then "Wildcard discovery exception: " + wildcard.error
                 else "Wildcard discovery failed: HTTP " + IntToString(wildcard.status)
  {
    var snap := FreshSnapshot(entries, ttl, DiscoveryKey(apiBase, token), now);
    if snap.Some? then Discovered(snap.value.clusterMap, snap.value.totalClusters, snap.value.totalDevices, true)
    else if wildcard.Raised? then DiscoveryFailed("Wildcard discovery exception: " + wildcard.error)
    else if wildcard.status != 200 then DiscoveryFailed("Wildcard discovery failed: HTTP " + IntToString(wildcard.status))
    else Discovered(ClusterMapOf(wildcard.objs), |wildcard.objs|, TotalDevices(wildcard.objs), false)
  }

  /** The cache entries after `wildcard_discovery_with_cache`: untouched on
      a hit; otherwise the stale entry is gone and a successful answer is
      stored, stamped `now`. */
  function EntriesAfterDiscovery(entries: Dict<(Snapshot, int)>, ttl: int, apiBase: string, token: string, wildcard: Response, now: int): (r: Dict<(Snapshot, int)>)
    requires DistinctKeys(entries)
    ensures DistinctKeys(r)
    ensures FreshSnapshot(entries, ttl, DiscoveryKey(apiBase, token), now).Some? ==> r == entries
    ensures var d := DiscoveryOf(entries, ttl, apiBase, token, wildcard, now);
      d.Discovered? && !d.cacheHit ==>
        Lookup(r, DiscoveryKey(apiBase, token)) == Some((Snapshot(d.clusterMap, d.totalClusters, d.totalDevices), now))
    ensures DiscoveryOf(entries, ttl, apiBase, token, wildcard, now).DiscoveryFailed? ==>
      Lookup(r, DiscoveryKey(apiBase, token)) == None
    ensures forall k :: k != DiscoveryKey(apiBase, token) ==> Lookup(r, k) == Lookup(entries, k)
  {
    var key := DiscoveryKey(apiBase, token);
    if FreshSnapshot(entries, ttl, key, now).Some? then entries
    else
      var gone := Delete(entries, key);
      DeleteThenLookupAll(entries, key);
      if wildcard.Raised? || wildcard.status != 200 then gone
      else
        var snap := Snapshot(ClusterMapOf(wildcard.objs), |wildcard.objs|, TotalDevices(wildcard.objs));
        PutThenLookupAll(gone, key, (snap, now));
        Put(gone, key, (snap, now))
  }

  /** `wildcard_discovery_with_cache`: the answer is `DiscoveryOf` the cache
      before the call and the cache is left as `EntriesAfterDiscovery`. */
  method WildcardDiscoveryWithCache(cache: OpsCache.ExpiringCache<Snapshot>, apiBase: string, token: string, wildcard: Response, now: int)
    returns (r: Discovery)
    requires cache.Valid()
    modifies cache
    ensures cache.Valid()
    ensures r == DiscoveryOf(old(cache.entries), cache.ttl, apiBase, token, wildcard, now)
    ensures cache.entries == EntriesAfterDiscovery(old(cache.entries), cache.ttl, apiBase, token, wildcard, now)
  {
    var key := DiscoveryKey(apiBase, token);
    var cached := cache.Get(key, now);
    if cached.Some? {
      var snap := cached.value;
      return Discovered(snap.clusterMap, snap.totalClusters, snap.totalDevices, true);
    }
    if wildcard.Raised? {
      return DiscoveryFailed("Wildcard discovery exception: " + wildcard.error);
    }
    if wildcard.status != 200 {
      return DiscoveryFailed("Wildcard discovery failed: HTTP " + IntToString(wildcard.status));
    }
    var clusterMap, total := BuildClusterMap(wildcard.objs);
    r := Discovered(clusterMap, |wildcard.objs|, total, false);
    cache.Set(key, Snapshot(clusterMap, |wildcard.objs|, total), now);
  }

  // ---------------------------------------------------------------------
  // Decoding

  /** `location[i]` when the list is long enough, otherwise `default`. */
  function At(location: seq<string>, i: nat, default: string): string {
    if i < |location| then location[i] else default
  }

  /** One device of a cluster as the listing reports it. Gateways are ready for
      the ERP with four location entries and report fixed placement and
      configuration; every other device needs six entries and reads its
      placement and configuration from positions 4 and 5. */
  function Decode(d: Device, info: ClusterInfo): (r: DecodedDevice)
    ensures r.locationLayers == |LocationOf(d)|
    ensures r.erpReady <==> |LocationOf(d)| >= (if info.deviceType == "gateway" then 4 else 6)
    ensures info.deviceType == "gateway" ==> r.placement == "Infrastructure" && r.configuration == "Gateway"
    ensures info.deviceType != "gateway" ==>
      && r.placement == At(LocationOf(d), 4, "Internal")
      && r.configuration == At(LocationOf(d), 5, "Bait/Lured")
    ensures r.customer == At(LocationOf(d), 0, "") && r.site == At(LocationOf(d), 1, "")
    ensures r.area == At(LocationOf(d), 2, "") && r.erpReference == At(LocationOf(d), 3, "")
    ensures r.deviceType == info.deviceType && r.clusterId == info.clusterId && r.clusterName == info.clusterName
    ensures r.guid == (if "guid" in d.fields then d.fields["guid"] else Str(""))
  {
    var location := LocationOf(d);
    var gateway := info.deviceType == "gateway";
    DecodedDevice(
      if "id" in d.fields then d.fields["id"] else Str("unknown"),
      At(location, 0, ""), At(location, 1, ""), At(location, 2, ""), At(location, 3, ""),
      if gateway then "Infrastructure" else At(location, 4, "Internal"),
      if gateway then "Gateway" else At(location, 5, "Bait/Lured"),
      if "status" in d.fields then d.fields["status"] else Str("unknown"),
      info.deviceType, info.clusterId, info.clusterName,
      |location|,
      |location| >= (if gateway then 4 else 6),
      if d.meta.Some? then d.meta.value else map[],
      if "state" in d.fields then d.fields["state"] else Obj(map[]),
      if "guid" in d.fields then d.fields["guid"] else Str(""))
  }

  function DecodeAll(ds: seq<Device>, info: ClusterInfo): (r: seq<DecodedDevice>)
    ensures |r| == |ds|
  {
    if ds == [] then [] else DecodeAll(ds[..|ds| - 1], info) + [Decode(ds[|ds| - 1], info)]
  }

  /** Each device is decoded on its own, at its own position. */
  lemma {:induction false} DecodeAllPointwise(ds: seq<Device>, info: ClusterInfo)
    ensures forall i :: 0 <= i < |ds| ==> DecodeAll(ds, info)[i] == Decode(ds[i], info)
  {
    if ds != [] {
      var init := ds[..|ds| - 1];
      DecodeAllPointwise(init, info);
      forall i | 0 <= i < |ds| ensures DecodeAll(ds, info)[i] == Decode(ds[i], info) {
        if i < |init| {
          assert init[i] == ds[i];
        }
      }
    }
  }

  function CountReady(ds: seq<DecodedDevice>): (n: nat)
    ensures n <= |ds|
  {
    if ds == [] then 0 else CountReady(ds[..|ds| - 1]) + (if ds[|ds| - 1].erpReady then 1 else 0)
  }

  /** The loop of lines 244-278: one decoded device per device, in order. */
  method DecodeDevices(devices: seq<Device>, info: ClusterInfo) returns (out: seq<DecodedDevice>, ready: nat)
    ensures out == DecodeAll(devices, info)
    ensures |out| == |devices|
    ensures ready == CountReady(out)
  {
    out, ready := [], 0;
    var i := 0;
    while i < |devices|
      invariant 0 <= i <= |devices|
      invariant out == DecodeAll(devices[..i], info)
      invariant ready == CountReady(out)
    {
      var decoded := Decode(devices[i], info);
      DecodeStep(devices, i, info, out);
      ready := ready + if decoded.erpReady then 1 else 0;
      out := out + [decoded];
      i := i + 1;
    }
    assert devices[..i] == devices;
  }

  /** One turn of the decoding loop: the prefix grows by one decoded device,
      and the ready count by one exactly when that device is ERP-ready. */
  lemma DecodeStep(devices: seq<Device>, i: nat, info: ClusterInfo, out: seq<DecodedDevice>)
    requires i < |devices| && out == DecodeAll(devices[..i], info)
    ensures DecodeAll(devices[..i + 1], info) == out + [Decode(devices[i], info)]
    ensures CountReady(out + [Decode(devices[i], info)]) == CountReady(out) + (if Decode(devices[i], info).erpReady then 1 else 0)
  {
    assert devices[..i + 1][..i] == devices[..i];
    var d := Decode(devices[i], info);
    assert (out + [d])[..|out|] == out;
  }

  /** What `get_cluster_devices` makes of the answer to the cluster GET: the
      decoded devices of the first document when the answer is a 200 with a
      document carrying `data.devices`, and otherwise the error it reports. */
  function ClusterDevicesOf(info: ClusterInfo, response: Response): (r: ClusterDevices)
    ensures r.Fetched? <==>
      (response.Response? && response.status == 200 && |response.objs| > 0 && HasDeviceList(response.objs[0]))
    ensures r.Fetched? ==>
      (&& r.raw == response.objs[0]
       && r.devices == DecodeAll(DevicesOf(r.raw), info)
       && r.erpReadyCount == CountReady(r.devices))
    ensures response.Raised? ==> r == FetchFailed(response.error)
    ensures response.Response? && response.status != 200 ==> r == FetchFailed("HTTP " + IntToString(response.status))
    ensures response.Response? && response.status == 200 && response.objs == [] ==> r == FetchFailed("Empty cluster response")
  {
    match response
    case Raised(e) => FetchFailed(e)
    case Response(status, objs) =>
      if status != 200 then FetchFailed("HTTP " + IntToString(status))
      else if |objs| == 0 then FetchFailed("Empty cluster response")
      else if objs[0].data.None? then FetchFailed("'data'")
      else if objs[0].data.value.devices.None? then FetchFailed("'devices'")
      else
        var decoded := DecodeAll(DevicesOf(objs[0]), info);
        Fetched(decoded, CountReady(decoded), objs[0])
  }

  /** `get_cluster_devices`. */
  method GetClusterDevices(info: ClusterInfo, response: Response) returns (r: ClusterDevices)
    ensures r == ClusterDevicesOf(info, response)
  {
    match response
    case Raised(e) =>
      return FetchFailed(e);
    case Response(status, objs) =>
      if status != 200 {
        return FetchFailed("HTTP " + IntToString(status));
      }
      if |objs| == 0 {
        return FetchFailed("Empty cluster response");
      }
      if objs[0].data.None? {
        return FetchFailed("'data'");
      }
      if objs[0].data.value.devices.None? {
        return FetchFailed("'devices'");
      }
      var decoded, ready := DecodeDevices(DevicesOf(objs[0]), info);
      return Fetched(decoded, ready, objs[0]);
  }

  // ---------------------------------------------------------------------
  // Search by guid

  const TestPatterns: seq<string> :=
    ["test-", "fake-", "erp-device-test-", "erp-device-fake-", "dummy-", "sample-", "placeholder-", "mock-"]

  /** The fast reject: the lower-cased guid contains one of the test patterns. */
  predicate IsTestGuid(guid: string) {
    exists p :: p in TestPatterns && Contains(Lower(guid), p)
  }

  /** The characters of the guids this service creates: the prefix
      `erp-device-` followed by a lower-case hexadecimal uuid with dashes. */
  predicate CreatedGuidChar(c: char) {
    c == '-' || ('0' <= c <= '9') || ('a' <= c <= 'f') || c == 'r' || c == 'p' || c == 'v' || c == 'i'
  }

  /** A string made of created-guid characters contains no pattern that
      holds some other character. */
  lemma NoOccurrenceOfForeignChar(s: string, sub: string, x: nat)
    requires forall i :: 0 <= i < |s| ==> CreatedGuidChar(s[i])
    requires x < |sub| && !CreatedGuidChar(sub[x])
    ensures !Contains(s, sub)
  {
  }

  /** Every guid the create path hands out passes the fast reject, so a
      created device can always be searched for. */
  lemma CreatedGuidIsNotTest(uuid: string)
    requires forall i :: 0 <= i < |uuid| ==> uuid[i] == '-' || ('0' <= uuid[i] <= '9') || ('a' <= uuid[i] <= 'f')
    ensures !IsTestGuid("erp-device-" + uuid)
  {
    var g := "erp-device-" + uuid;
    assert forall i :: 0 <= i < |g| ==> CreatedGuidChar(g[i]);
    assert NoUpper(g);
    LowerOfLowerCase(g);
    NoOccurrenceOfForeignChar(g, "test-", 0);
    NoOccurrenceOfForeignChar(g, "fake-", 2);
    NoOccurrenceOfForeignChar(g, "erp-device-test-", 11);
    NoOccurrenceOfForeignChar(g, "erp-device-fake-", 13);
    NoOccurrenceOfForeignChar(g, "dummy-", 1);
    NoOccurrenceOfForeignChar(g, "sample-", 0);
    NoOccurrenceOfForeignChar(g, "placeholder-", 1);
    NoOccurrenceOfForeignChar(g, "mock-", 0);
  }

  /** The fast reject ignores case: a guid and its lower-cased form, or
      any two guids that lower-case alike, get the same verdict; `TEST-1`
      is rejected like `test-1`. */
  lemma TestGuidIgnoresCase(g1: string, g2: string)
    requires Lower(g1) == Lower(g2)
    ensures IsTestGuid(g1) <==> IsTestGuid(Lower(g1))
    ensures IsTestGuid(g1) <==> IsTestGuid(g2)
    ensures IsTestGuid("TEST-1")
  {
    LowerIdempotent(g1);
    var low := Lower("TEST-1");
    assert low[..5] == "test-";
    assert OccursAt(low, "test-", 0);
    ContainsAt(low, "test-", 0);
    assert TestPatterns[0] == "test-";
  }

  /** Position of the first decoded device whose `guid` is `guid`, or -1. */
  function FirstGuid(ds: seq<DecodedDevice>, guid: string): (r: int)
    ensures -1 <= r < |ds|
    ensures r >= 0 ==> ds[r].guid == Str(guid)
    ensures forall j :: 0 <= j < |ds| && (r < 0 || j < r) ==> ds[j].guid != Str(guid)
  {
    if ds == [] then -1
    else if ds[0].guid == Str(guid) then 0
    else
      var r := FirstGuid(ds[1..], guid);
      if r < 0 then -1 else r + 1
  }

  /** `search_cluster` for one cluster: found exactly when the cluster could
      be listed and one of its devices carries the guid; the first such
      device is reported. */
  function SearchOne(info: ClusterInfo, response: Response, guid: string): (r: Option<Hit>)
    ensures r.Some? <==>
      (ClusterDevicesOf(info, response).Fetched?
       && FirstGuid(ClusterDevicesOf(info, response).devices, guid) >= 0)
    ensures r.Some? ==>
      (&& r.value.device.guid == Str(guid) && r.value.info == info
       && r.value.raw == ClusterDevicesOf(info, response).raw)
  {
    var res := ClusterDevicesOf(info, response);
    if res.FetchFailed? then None
    else
      var i := FirstGuid(res.devices, guid);
      if i < 0 then None else Some(Hit(res.devices[i], info, res.raw))
  }

  /** Position of the first cluster of the map whose search finds the guid,
      or -1: the search results are read in map order. */
  function FirstHit(m: Dict<ClusterInfo>, fetch: string -> Response, guid: string): (r: int)
    ensures -1 <= r < |m|
    ensures r >= 0 ==> SearchOne(m[r].1, fetch(m[r].0), guid).Some?
    ensures forall j :: 0 <= j < |m| && (r < 0 || j < r) ==> SearchOne(m[j].1, fetch(m[j].0), guid).None?
  {
    if m == [] then -1
    else if SearchOne(m[0].1, fetch(m[0].0), guid).Some? then 0
    else
      var r := FirstHit(m[1..], fetch, guid);
      if r < 0 then -1 else r + 1
  }

  /** `search_cluster`, looking through the decoded devices in order. */
  method SearchCluster(info: ClusterInfo, response: Response, guid: string) returns (r: Option<Hit>)
    ensures r == SearchOne(info, response, guid)
  {
    var res := GetClusterDevices(info, response);
    if res.FetchFailed? {
      return None;
    }
    var ds := res.devices;
    ghost var first := FirstGuid(ds, guid);
    var i := 0;
    while i < |ds|
      invariant 0 <= i <= |ds|
      invariant first < 0 || first >= i
    {
      if ds[i].guid == Str(guid) {
        assert first == i;
        return Some(Hit(ds[i], info, res.raw));
      }
      i := i + 1;
    }
    return None;
  }

  /** The gathered searches of all clusters, the first hit in map order. */
  method SearchClusters(m: Dict<ClusterInfo>, fetch: string -> Response, guid: string) returns (r: Option<Hit>)
    ensures r.None? <==> FirstHit(m, fetch, guid) < 0
    ensures r.Some? ==> r == SearchOne(m[FirstHit(m, fetch, guid)].1, fetch(m[FirstHit(m, fetch, guid)].0), guid)
  {
    ghost var first := FirstHit(m, fetch, guid);
    var i := 0;
    while i < |m|
      invariant 0 <= i <= |m|
      invariant first < 0 || first >= i
    {
      var hit := SearchCluster(m[i].1, fetch(m[i].0), guid);
      if hit.Some? {
        assert first == i;
        return hit;
      }
      assert first != i;
      i := i + 1;
    }
    return None;
  }

  /** What `find_device_by_guid` answers, given the cache entries before the
      call: a test-looking guid is rejected before any discovery; otherwise
      the first cluster in map order whose search finds the guid supplies
      the hit. */
  function FindResult(
    entries: Dict<(Snapshot, int)>, ttl: int, guid: string, apiBase: string, token: string,
    wildcard: Response, fetch: string -> Response, now: int): (r: Result<Hit>)
    ensures IsTestGuid(guid) ==>
      r == Err("Device with GUID " + guid + " not found (early termination: test pattern detected)")
    ensures var d := DiscoveryOf(entries, ttl, apiBase, token, wildcard, now);
      !IsTestGuid(guid) && d.DiscoveryFailed? ==> r == Err("Discovery failed: " + d.error)
    ensures var d := DiscoveryOf(entries, ttl, apiBase, token, wildcard, now);
      !IsTestGuid(guid) && d.Discovered? ==>
        && (r.Ok? <==> FirstHit(d.clusterMap, fetch, guid) >= 0)
        && (r.Ok? ==> var k := FirstHit(d.clusterMap, fetch, guid);
              Some(r.value) == SearchOne(d.clusterMap[k].1, fetch(d.clusterMap[k].0), guid))
        && (r.Err? ==> r == Err("Device with GUID " + guid + " not found"))
    ensures r.Ok? ==> r.value.device.guid == Str(guid) && HasDeviceList(r.value.raw)
  {
    if IsTestGuid(guid) then Err("Device with GUID " + guid + " not found (early termination: test pattern detected)")
    else
      var d := DiscoveryOf(entries, ttl, apiBase, token, wildcard, now);
      if d.DiscoveryFailed? then Err("Discovery failed: " + d.error)
      else
        var k := FirstHit(d.clusterMap, fetch, guid);
        if k < 0 then Err("Device with GUID " + guid + " not found")
        else Ok(SearchOne(d.clusterMap[k].1, fetch(d.clusterMap[k].0), guid).value)
  }

  /** `find_device_by_guid`: answers `FindResult`; a rejected guid leaves
      the cache alone, any other leaves it as the discovery did. */
  method FindDeviceByGuid(
    cache: OpsCache.ExpiringCache<Snapshot>, guid: string, apiBase: string, token: string,
    wildcard: Response, fetch: string -> Response, now: int)
    returns (r: Result<Hit>)
    requires cache.Valid()
    modifies cache
    ensures cache.Valid()
    ensures r == FindResult(old(cache.entries), cache.ttl, guid, apiBase, token, wildcard, fetch, now)
    ensures cache.entries ==
      if IsTestGuid(guid) then old(cache.entries)
      else EntriesAfterDiscovery(old(cache.entries), cache.ttl, apiBase, token, wildcard, now)
  {
    if exists p :: p in TestPatterns && Contains(Lower(guid), p) {
      return Err("Device with GUID " + guid + " not found (early termination: test pattern detected)");
    }
    var discovery := WildcardDiscoveryWithCache(cache, apiBase, token, wildcard, now);
    if discovery.DiscoveryFailed? {
      return Err("Discovery failed: " + discovery.error);
    }
    var hit := SearchClusters(discovery.clusterMap, fetch, guid);
    if hit.None? {
      return Err("Device with GUID " + guid + " not found");
    }
    return Ok(hit.value);
  }

  // ---------------------------------------------------------------------
  // Update and delete by guid

  /** `device.get('meta', {}).get('location', ['', '', '', ''])`. */
  function StartLocation(d: Device): (location: seq<string>)
    ensures d.meta.Some? && "location" in d.meta.value && d.meta.value["location"].Strs? ==> location == LocationOf(d)
  {
    if d.meta.Some? && "location" in d.meta.value && d.meta.value["location"].Strs?
    then d.meta.value["location"].items
    else ["", "", "", ""]
  }

  /** Does the update name one of the four identifying location entries? */
  predicate TouchesLocation(u: GuidUpdates) {
    u.customer.Some? || u.site.Some? || u.area.Some? || u.erpReference.Some?
  }

  /** The update's value for position `i` of the location, if it has one. */
  function Override(u: GuidUpdates, i: nat, current: string): string {
    if i == 0 && u.customer.Some? then u.customer.value
    else if i == 1 && u.site.Some? then u.site.value
    else if i == 2 && u.area.Some? then u.area.value
    else if i == 3 && u.erpReference.Some? then u.erpReference.value
    else if i == 4 && u.placement.Some? then u.placement.value
    else if i == 5 && u.configuration.Some? then u.configuration.value
    else current
  }

  /** The location an update by guid is meant to leave: the starting list,
      every position the update names overwritten, and no position added. */
  function ExpectedLocation(d: Device, u: GuidUpdates): seq<string> {
    var base := if TouchesLocation(u) then StartLocation(d) else LocationOf(d);
    seq(|base|, i requires 0 <= i < |base| => Override(u, i, base[i]))
  }

  /** Does an identifying entry the update names lie past the end of the
      list it would be written into? */
  predicate Overflows(d: Device, u: GuidUpdates) {
    var n := |StartLocation(d)|;
    (u.customer.Some? && n < 1) || (u.site.Some? && n < 2) || (u.area.Some? && n < 3) || (u.erpReference.Some? && n < 4)
  }

  /** `location[i] = v`, which raises IndexError past the end. */
  function SetAt(location: seq<string>, i: nat, v: Option<string>): (r: Result<seq<string>>)
    ensures v.None? ==> r == Ok(location)
    ensures v.Some? ==> (r.Ok? <==> i < |location|)
    ensures r.Ok? && v.Some? ==> r.value == location[i := v.value]
    ensures r.Err? ==> r.message == "list assignment index out of range"
  {
    if v.None? then Ok(location)
    else if i < |location| then Ok(location[i := v.value])
    else Err("list assignment index out of range")
  }

  /** The device with `location` stored under `meta`, which is created if
      missing; its other members and other `meta` keys are kept. */
  function WithLocation(d: Device, location: seq<string>): (r: Device)
    ensures LocationOf(r) == location && r.fields == d.fields && r.meta.Some?
    ensures d.meta.Some? ==> forall k :: k in d.meta.value && k != "location" ==> k in r.meta.value && r.meta.value[k] == d.meta.value[k]
  {
    var meta := if d.meta.Some? then d.meta.value else map[];
    Device(d.fields, Some(meta["location" := Strs(location)]))
  }

  /** Lines 498-512: the identifying entries written into the location. */
  function Relocated(d: Device, u: GuidUpdates): (r: Result<Device>)
    ensures !TouchesLocation(u) ==> r == Ok(d)
    ensures TouchesLocation(u) ==> (r.Err? <==> Overflows(d, u))
    ensures r.Err? ==> r.message == "list assignment index out of range"
    ensures r.Ok? ==> r.value.fields == d.fields
    ensures r.Ok? && TouchesLocation(u) ==>
      (&& |LocationOf(r.value)| == |StartLocation(d)|
       && (forall i :: 0 <= i < |StartLocation(d)| && i < 4 ==> LocationOf(r.value)[i] == Override(u, i, StartLocation(d)[i]))
       && (forall i :: 4 <= i < |StartLocation(d)| ==> LocationOf(r.value)[i] == StartLocation(d)[i]))
  {
    if !TouchesLocation(u) then Ok(d)
    else
      var l := Identified(StartLocation(d), u);
      if l.Err? then Err(l.message) else Ok(WithLocation(d, l.value))
  }

  /** Lines 498-512 on the list itself: customer, site, area and ERP
      reference written into positions 0 to 3, in that order, each one
      failing when its position is past the end. */
  function Identified(location: seq<string>, u: GuidUpdates): (r: Result<seq<string>>)
    ensures r.Err? <==>
      ((u.customer.Some? && |location| < 1) || (u.site.Some? && |location| < 2) ||
       (u.area.Some? && |location| < 3) || (u.erpReference.Some? && |location| < 4))
    ensures r.Err? ==> r.message == "list assignment index out of range"
    ensures r.Ok? ==>
      (&& |r.value| == |location|
       && (forall i :: 0 <= i < |location| && i < 4 ==> r.value[i] == Override(u, i, location[i]))
       && (forall i :: 4 <= i < |location| ==> r.value[i] == location[i]))
  {
    var l0 := SetAt(location, 0, u.customer);
    if l0.Err? then Err(l0.message) else
    var l1 := SetAt(l0.value, 1, u.site);
    if l1.Err? then Err(l1.message) else
    var l2 := SetAt(l1.value, 2, u.area);
    if l2.Err? then Err(l2.message) else
    var l3 := SetAt(l2.value, 3, u.erpReference);
    if l3.Err? then Err(l3.message) else
    Ok(l3.value)
  }

  /** Lines 514-518: placement and configuration written only into a list
      that already has position 4 or 5. */
  function Placed(d: Device, u: GuidUpdates): (r: Device)
    ensures r.fields == d.fields
    ensures |LocationOf(r)| == |LocationOf(d)|
    ensures forall i :: 0 <= i < |LocationOf(d)| && i != 4 && i != 5 ==> LocationOf(r)[i] == LocationOf(d)[i]
    ensures 4 < |LocationOf(d)| ==> LocationOf(r)[4] == Override(u, 4, LocationOf(d)[4])
    ensures 5 < |LocationOf(d)| ==> LocationOf(r)[5] == Override(u, 5, LocationOf(d)[5])
  {
    var loc := LocationOf(d);
    var loc4 := if u.placement.Some? && |loc| > 4 then loc[4 := u.placement.value] else loc;
    var loc5 := if u.configuration.Some? && |loc4| > 5 then loc4[5 := u.configuration.value] else loc4;
    if (u.placement.Some? && |loc| > 4) || (u.configuration.Some? && |loc| > 5) then WithLocation(d, loc5) else d
  }

  /** The edit applied to the first device with the guid (lines 496-524). */
  function EditByGuid(d: Device, u: GuidUpdates, stamp: string): (r: Result<Device>)
    ensures r.Err? <==> TouchesLocation(u) && Overflows(d, u)
    ensures r.Err? ==> r.message == "list assignment index out of range"
    ensures r.Ok? ==> LocationOf(r.value) == ExpectedLocation(d, u)
    ensures r.Ok? ==> KeyIs(r.value, "lastModified", stamp)
    ensures r.Ok? && u.status.Some? ==> KeyIs(r.value, "status", u.status.value)
    ensures r.Ok? ==> forall k :: k in d.fields && k != "lastModified" && (k != "status" || u.status.None?) ==>
      k in r.value.fields && r.value.fields[k] == d.fields[k]
  {
    var relocated := Relocated(d, u);
    if relocated.Err? then Err(relocated.message)
    else
      var placed := Placed(relocated.value, u);
      var fields := if u.status.Some? then placed.fields["status" := Str(u.status.value)] else placed.fields;
      var r := Device(fields["lastModified" := Str(stamp)], placed.meta);
      assert LocationOf(r) == LocationOf(placed);
      assert LocationOf(r) == ExpectedLocation(d, u) by {
        EditedLocation(d, u, relocated.value, placed);
      }
      Ok(r)
  }

  lemma EditedLocation(d: Device, u: GuidUpdates, relocated: Device, placed: Device)
    requires Relocated(d, u) == Ok(relocated) && placed == Placed(relocated, u)
    ensures LocationOf(placed) == ExpectedLocation(d, u)
  {
    var e := ExpectedLocation(d, u);
    assert |LocationOf(placed)| == |e|;
    var base := if TouchesLocation(u) then StartLocation(d) else LocationOf(d);
    assert LocationOf(relocated) == base || TouchesLocation(u);
    forall i | 0 <= i < |e| ensures LocationOf(placed)[i] == e[i] {
      assert e[i] == Override(u, i, base[i]);
      if i == 4 || i == 5 {
        assert LocationOf(placed)[i] == Override(u, i, LocationOf(relocated)[i]);
        assert LocationOf(relocated)[i] == base[i];
      } else {
        assert LocationOf(placed)[i] == LocationOf(relocated)[i];
        if i < 4 && TouchesLocation(u) {
          assert LocationOf(relocated)[i] == Override(u, i, base[i]);
        } else {
          assert LocationOf(relocated)[i] == base[i];
        }
      }
    }
  }

  /** The device list after the edit of the first device with the guid. */
  function UpdatedList(ds: seq<Device>, guid: string, u: GuidUpdates, stamp: string): (r: Result<seq<Device>>)
    ensures FirstMatch(ds, "guid", guid) < 0 ==> r == Err("Failed to locate device " + guid + " in cluster data")
    ensures r.Ok? ==>
      (&& |r.value| == |ds|
       && var i := FirstMatch(ds, "guid", guid);
          && i >= 0 && EditByGuid(ds[i], u, stamp) == Ok(r.value[i])
          && forall j :: 0 <= j < |ds| && j != i ==> r.value[j] == ds[j])
    ensures r.Err? && FirstMatch(ds, "guid", guid) >= 0 ==>
      r == Err("GUID update failed: " + "list assignment index out of range")
  {
    var i := FirstMatch(ds, "guid", guid);
    if i < 0 then Err("Failed to locate device " + guid + " in cluster data")
    else
      var e := EditByGuid(ds[i], u, stamp);
      if e.Err? then Err("GUID update failed: " + e.message) else Ok(ds[i := e.value])
  }

  /** The in-document loop of lines 496-524. */
  method UpdateInList(ds: seq<Device>, guid: string, u: GuidUpdates, stamp: string) returns (r: Result<seq<Device>>)
    ensures r == UpdatedList(ds, guid, u, stamp)
  {
    var i := 0;
    while i < |ds|
      invariant 0 <= i <= |ds|
      invariant forall j :: 0 <= j < i ==> !KeyIs(ds[j], "guid", guid)
    {
      if KeyIs(ds[i], "guid", guid) {
        assert FirstMatch(ds, "guid", guid) == i;
        var e := EditByGuid(ds[i], u, stamp);
        if e.Err? {
          return Err("GUID update failed: " + e.message);
        }
        return Ok(ds[i := e.value]);
      }
      i := i + 1;
    }
    return Err("Failed to locate device " + guid + " in cluster data");
  }

  /** The loop of lines 592-595: takes out the first device with the guid. */
  method RemoveFromList(ds: seq<Device>, guid: string) returns (rest: seq<Device>, removed: Option<Device>)
    ensures removed.Some? <==> FirstMatch(ds, "guid", guid) >= 0
    ensures removed.None? ==> rest == ds
    ensures removed.Some? ==>
      (&& removed.value == ds[FirstMatch(ds, "guid", guid)]
       && rest == RemoveAt(ds, FirstMatch(ds, "guid", guid)))
  {
    var i := 0;
    while i < |ds|
      invariant 0 <= i <= |ds|
      invariant forall j :: 0 <= j < i ==> !KeyIs(ds[j], "guid", guid)
    {
      if KeyIs(ds[i], "guid", guid) {
        assert FirstMatch(ds, "guid", guid) == i;
        return RemoveAt(ds, i), Some(ds[i]);
      }
      i := i + 1;
    }
    return ds, None;
  }

  /** A PUT answered 200 or 201 succeeded. */
  predicate PutAccepted(reply: Reply) {
    reply.Reply? && (reply.code == 200 || reply.code == 201)
  }

  /** The edit never touches the guid it searched by. */
  lemma EditKeepsGuid(d: Device, u: GuidUpdates, stamp: string, guid: string)
    requires KeyIs(d, "guid", guid) && EditByGuid(d, u, stamp).Ok?
    ensures KeyIs(EditByGuid(d, u, stamp).value, "guid", guid)
  {
  }

  /** The cache entries a guid operation leaves when it does not succeed:
      those its search left. */
  function EntriesAfterFind(
    entries: Dict<(Snapshot, int)>, ttl: int, guid: string, apiBase: string, token: string, wildcard: Response, now: int)
    : (r: Dict<(Snapshot, int)>)
    requires DistinctKeys(entries)
    ensures DistinctKeys(r)
    ensures IsTestGuid(guid) ==> r == entries
  {
    if IsTestGuid(guid) then entries else EntriesAfterDiscovery(entries, ttl, apiBase, token, wildcard, now)
  }

  /** The error reported when the PUT of a changed cluster is refused or
      raises; `prefix` is the operation's exception prefix. */
  function PutFailure(reply: Reply, prefix: string): string {
    if reply.PutRaised? then prefix + reply.error else "Cluster update failed: HTTP " + IntToString(reply.code)
  }

  /** `update_device_by_guid`: the device found by `FindResult` is edited in
      its raw cluster document as `UpdatedList` says, that document is the
      one PUT back, and an accepted PUT reports the edited device and clears
      the discovery cache. */
  method UpdateDeviceByGuid(
    cache: OpsCache.ExpiringCache<Snapshot>, guid: string, u: GuidUpdates, apiBase: string, token: string,
    wildcard: Response, fetch: string -> Response, reply: Reply, stamp: string, now: int)
    returns (r: Outcome, written: Option<ClusterDoc>)
    requires cache.Valid()
    modifies cache
    ensures cache.Valid()
    ensures var f := FindResult(old(cache.entries), cache.ttl, guid, apiBase, token, wildcard, fetch, now);
      && (f.Err? ==> r == Failed(f.message) && written.None?)
      && (f.Ok? ==>
            var ds := DevicesOf(f.value.raw);
            var edited := UpdatedList(ds, guid, u, stamp);
            && (edited.Err? ==> r == Failed(edited.message) && written.None?)
            && (edited.Ok? ==>
                  && written == Some(WithDevices(f.value.raw, edited.value))
                  && (PutAccepted(reply) ==> r == Done(edited.value[FirstMatch(ds, "guid", guid)], f.value.info.clusterId))
                  && (!PutAccepted(reply) ==> r == Failed(PutFailure(reply, "GUID update failed: ")))))
    ensures r.Done? ==> KeyIs(r.device, "guid", guid) && KeyIs(r.device, "lastModified", stamp)
    ensures r.Done? ==> cache.entries == []
    ensures r.Failed? ==> cache.entries == EntriesAfterFind(old(cache.entries), cache.ttl, guid, apiBase, token, wildcard, now)
  {
    var found := FindDeviceByGuid(cache, guid, apiBase, token, wildcard, fetch, now);
    if found.Err? {
      return Failed(found.message), None;
    }
    var raw := found.value.raw;
    var ds := DevicesOf(raw);
    var edited := UpdateInList(ds, guid, u, stamp);
    if edited.Err? {
      return Failed(edited.message), None;
    }
    written := Some(WithDevices(raw, edited.value));
    match reply
    case PutRaised(e) =>
      return Failed("GUID update failed: " + e), written;
    case Reply(code) =>
      if code == 200 || code == 201 {
        cache.Clear();
        var i := FirstMatch(ds, "guid", guid);
        EditKeepsGuid(ds[i], u, stamp, guid);
        return Done(edited.value[i], found.value.info.clusterId), written;
      }
      return Failed("Cluster update failed: HTTP " + IntToString(code)), written;
  }

  /** `delete_device_by_guid`: the first device with the guid is taken out
      of the raw cluster document `FindResult` supplies, that document is
      the one PUT back, and an accepted PUT reports the removed device and
      clears the discovery cache. */
  method DeleteDeviceByGuid(
    cache: OpsCache.ExpiringCache<Snapshot>, guid: string, apiBase: string, token: string,
    wildcard: Response, fetch: string -> Response, reply: Reply, now: int)
    returns (r: Outcome, written: Option<ClusterDoc>)
    requires cache.Valid()
    modifies cache
    ensures cache.Valid()
    ensures var f := FindResult(old(cache.entries), cache.ttl, guid, apiBase, token, wildcard, fetch, now);
      && (f.Err? ==> r == Failed(f.message) && written.None?)
      && (f.Ok? ==>
            var ds := DevicesOf(f.value.raw);
            var i := FirstMatch(ds, "guid", guid);
            && (i < 0 ==> r == Failed("Device " + guid + " not found in cluster data") && written.None?)
            && (i >= 0 ==>
                  && written == Some(WithDevices(f.value.raw, RemoveAt(ds, i)))
                  && (PutAccepted(reply) ==> r == Done(ds[i], f.value.info.clusterId))
                  && (!PutAccepted(reply) ==> r == Failed(PutFailure(reply, "GUID delete failed: ")))))
    ensures r.Done? ==> KeyIs(r.device, "guid", guid)
    ensures r.Done? ==> cache.entries == []
    ensures r.Failed? ==> cache.entries == EntriesAfterFind(old(cache.entries), cache.ttl, guid, apiBase, token, wildcard, now)
  {
    var found := FindDeviceByGuid(cache, guid, apiBase, token, wildcard, fetch, now);
    if found.Err? {
      return Failed(found.message), None;
    }
    var raw := found.value.raw;
    var rest, removed := RemoveFromList(DevicesOf(raw), guid);
    if removed.None? {
      return Failed("Device " + guid + " not found in cluster data"), None;
    }
    written := Some(WithDevices(raw, rest));
    match reply
    case PutRaised(e) =>
      return Failed("GUID delete failed: " + e), written;
    case Reply(code) =>
      if code == 200 || code == 201 {
        cache.Clear();
        return Done(removed.value, found.value.info.clusterId), written;
      }
      return Failed("Cluster update failed: HTTP " + IntToString(code)), written;
  }

  // ---------------------------------------------------------------------
  // Create

  /** The location list of a new device: four entries for a gateway, six for
      anything else. */
  function LocationArray(c: DeviceCreate): (location: seq<string>)
    ensures |location| == (if c.deviceType == "gateway" then 4 else 6)
    ensures location[..4] == [c.customer, c.site, c.area, c.erpReference]
    ensures c.deviceType != "gateway" ==> location[4] == c.placement && location[5] == c.configuration
  {
    if c.deviceType == "gateway" then [c.customer, c.site, c.area, c.erpReference]
    else [c.customer, c.site, c.area, c.erpReference, c.placement, c.configuration]
  }

  /** The record type whose cluster receives a new device. */
  function CreateRecType(c: DeviceCreate): (t: string)
    ensures t == GatewayRecType <==> c.deviceType == "gateway"
    ensures t != GatewayRecType ==> t == TrapRecType
  {
    if c.deviceType == "gateway" then GatewayRecType else TrapRecType
  }

  /** The device appended on create. */
  function NewDevice(c: DeviceCreate, uuid: string): (d: Device)
    ensures KeyIs(d, "id", c.deviceId) && KeyIs(d, "status", c.status) && KeyIs(d, "guid", "erp-device-" + uuid)
    ensures LocationOf(d) == LocationArray(c)
  {
    Device(map["id" := Str(c.deviceId), "status" := Str(c.status), "guid" := Str("erp-device-" + uuid)],
           Some(map["location" := Strs(LocationArray(c))]))
  }

  /** A created device, listed from a cluster of its record type, reads back
      the fields it was created with and is ready for the ERP. */
  lemma CreatedDeviceDecodes(c: DeviceCreate, uuid: string, cluster: ClusterDoc)
    requires cluster.recType == Some(CreateRecType(c))
    ensures var r := Decode(NewDevice(c, uuid), InfoOf(cluster));
      && r.customer == c.customer && r.site == c.site && r.area == c.area && r.erpReference == c.erpReference
      && r.erpReady && r.guid == Str("erp-device-" + uuid)
      && (c.deviceType != "gateway" ==> r.placement == c.placement && r.configuration == c.configuration)
  {
    var loc := LocationArray(c);
    assert loc[0] == c.customer && loc[1] == c.site && loc[2] == c.area && loc[3] == c.erpReference by {
      assert loc[..4][0] == loc[0] && loc[..4][1] == loc[1] && loc[..4][2] == loc[2] && loc[..4][3] == loc[3];
    }
  }

  /** Position of the first map entry whose `rec_type` is `recType`, or -1. */
  function FirstOfRecType(m: Dict<ClusterInfo>, recType: string): (r: int)
    ensures -1 <= r < |m|
    ensures r >= 0 ==> m[r].1.recType == Some(recType)
    ensures forall j :: 0 <= j < |m| && (r < 0 || j < r) ==> m[j].1.recType != Some(recType)
  {
    if m == [] then -1
    else if m[0].1.recType == Some(recType) then 0
    else
      var r := FirstOfRecType(m[1..], recType);
      if r < 0 then -1 else r + 1
  }

  /** `create_device`: the new device goes at the end of the device list of
      the first cluster of the target record type in the discovered map;
      `written` is the document sent with the PUT, when one is sent, and an
      accepted PUT reports the device and that cluster and clears the
      discovery cache. */
  method CreateDevice(
    cache: OpsCache.ExpiringCache<Snapshot>, c: DeviceCreate, uuid: string, apiBase: string, token: string,
    wildcard: Response, fetch: string -> Response, reply: Reply, now: int)
    returns (r: Outcome, written: Option<ClusterDoc>)
    requires cache.Valid()
    modifies cache
    ensures cache.Valid()
    ensures var d := DiscoveryOf(old(cache.entries), cache.ttl, apiBase, token, wildcard, now);
      && (d.DiscoveryFailed? ==> r == Failed("Discovery failed: " + d.error) && written.None?)
      && (d.Discovered? ==>
            var k := FirstOfRecType(d.clusterMap, CreateRecType(c));
            && (k < 0 ==> r == Failed("No clusters found for record type " + CreateRecType(c)) && written.None?)
            && (k >= 0 ==>
                  var target := ClusterDevicesOf(d.clusterMap[k].1, fetch(d.clusterMap[k].0));
                  && (target.FetchFailed? ==> r == Failed("Failed to access target cluster: " + target.error) && written.None?)
                  && (target.Fetched? ==>
                        && written == Some(WithDevices(target.raw, DevicesOf(target.raw) + [NewDevice(c, uuid)]))
                        && (PutAccepted(reply) ==> r == Done(NewDevice(c, uuid), d.clusterMap[k].1.clusterId))
                        && (!PutAccepted(reply) ==>
                              r == Failed(if reply.PutRaised? then "Device creation failed: " + reply.error
                                          else "Failed to create device: HTTP " + IntToString(reply.code))))))
    ensures r.Done? ==> cache.entries == []
    ensures r.Failed? ==> cache.entries == EntriesAfterDiscovery(old(cache.entries), cache.ttl, apiBase, token, wildcard, now)
  {
    var recType := CreateRecType(c);
    var discovery := WildcardDiscoveryWithCache(cache, apiBase, token, wildcard, now);
    if discovery.DiscoveryFailed? {
      return Failed("Discovery failed: " + discovery.error), None;
    }
    var m := discovery.clusterMap;
    ghost var first := FirstOfRecType(m, recType);
    var i := 0;
    while i < |m|
      invariant 0 <= i <= |m|
      invariant first < 0 || first >= i
    {
      if m[i].1.recType == Some(recType) {
        break;
      }
      i := i + 1;
    }
    if i == |m| {
      return Failed("No clusters found for record type " + recType), None;
    }
    assert i == first;
    var target := m[i].1;
    var fetched := GetClusterDevices(target, fetch(m[i].0));
    if fetched.FetchFailed? {
      return Failed("Failed to access target cluster: " + fetched.error), None;
    }
    var device := NewDevice(c, uuid);
    written := Some(WithDevices(fetched.raw, DevicesOf(fetched.raw) + [device]));
    match reply
    case PutRaised(e) =>
      return Failed("Device creation failed: " + e), written;
    case Reply(code) =>
      if code == 200 || code == 201 {
        cache.Clear();
        return Done(device, target.clusterId), written;
      }
      return Failed("Failed to create device: HTTP " + IntToString(code)), written;
  }
}
