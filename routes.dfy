/** The device routes of api/devices/routes.py: the listing that reads the
    fast-CRUD cluster cache (or fills it from one discovery when it is
    empty), and the update and delete handlers, which call the fast CRUD
    operations and then patch the surgical cache.

    The handlers are shown both as written and with the two defects found in
    them corrected (README, "Findings"): the catch-all `except Exception`
    turns every HTTPException raised inside the `try` into a 500, and the
    update handler calls the cache hook with one argument too few. */
module Routes {
  import opened Wire
  import opened Dicts
  import opened Strings
  import Operations
  import Crud
  import SmartCache

  const DefaultApiBase: string := "https://dapi.microshare.io"

  /** `AuthData`: the token and the API base a handler works with. */
  datatype AuthData = AuthData(accessToken: string, apiBase: string)

  /** FastAPI's HTTPException. */
  datatype HttpException = HttpException(status: int, detail: string)

  /** `str(e)` of an HTTPException: the status, a colon and the detail. */
  function Text(e: HttpException): string {
    IntToString(e.status) + ": " + e.detail
  }

  /** The body a handler returns, or the HTTPException it raises. */
  datatype Handled<T> = Answer(value: T) | Raise(exception: HttpException)

  /** `get_auth_data`: a missing or empty auth dict is refused with 401;
      otherwise the token defaults to '' and the API base to the public one. */
  function GetAuthData(auth: map<string, string>): (r: Handled<AuthData>)
    ensures r.Raise? <==> |auth| == 0
    ensures r.Raise? ==> r.exception == HttpException(401, "Authentication required")
    ensures r.Answer? && "api_base" !in auth ==> r.value.apiBase == DefaultApiBase
    ensures r.Answer? && "access_token" !in auth ==> r.value.accessToken == ""
    ensures r.Answer? && "api_base" in auth ==> r.value.apiBase == auth["api_base"]
    ensures r.Answer? && "access_token" in auth ==> r.value.accessToken == auth["access_token"]
  {
    if |auth| == 0 then Raise(HttpException(401, "Authentication required"))
    else
      Answer(AuthData(
        if "access_token" in auth then auth["access_token"] else "",
        if "api_base" in auth then auth["api_base"] else DefaultApiBase))
  }

  // ---------------------------------------------------------------------
  // Listing

  /** What `optimized_get_devices` returns. A failure comes with empty
      device and cluster lists and zero counts. */
  datatype Listing =
    | Listed(
        devices: seq<Operations.DecodedDevice>,
        totalCount: nat,
        clustersInfo: Dict<nat>,
        erpReadyCount: nat,
        cacheHit: bool,
        clustersDiscovered: nat)
    | ListingFailed(error: string)

  /** The devices and the ERP-ready count that the loop over a cluster map
      collects: each cluster whose GET succeeds adds its decoded devices, in
      map order; a cluster whose GET fails adds nothing. */
  function Gathered(m: Dict<ClusterInfo>, fetch: string -> Response): (r: (seq<Operations.DecodedDevice>, nat))
    ensures r.1 <= |r.0|
  {
    if m == [] then ([], 0)
    else
      var prev := Gathered(m[..|m| - 1], fetch);
      var info := m[|m| - 1].1;
      var res := Operations.ClusterDevicesOf(info, fetch(info.clusterId));
      if res.Fetched? then (prev.0 + res.devices, prev.1 + res.erpReadyCount) else prev
  }

  /** `len([d for d in all_devices if d.get('cluster_id') == id])`. */
  function CountFor(ds: seq<Operations.DecodedDevice>, id: string): (n: nat)
    ensures n <= |ds|
  {
    if ds == [] then 0
    else CountFor(ds[..|ds| - 1], id) + (if ds[|ds| - 1].clusterId == id then 1 else 0)
  }

  /** `clusters_info`: for each key of the cluster map, in order, how many of
      the listed devices carry that cluster id. */
  function ClustersInfo(m: Dict<ClusterInfo>, ds: seq<Operations.DecodedDevice>): (r: Dict<nat>)
    ensures |r| == |m|
    ensures forall j :: 0 <= j < |m| ==> r[j] == (m[j].0, CountFor(ds, m[j].0))
  {
    if m == [] then []
    else ClustersInfo(m[..|m| - 1], ds) + [(m[|m| - 1].0, CountFor(ds, m[|m| - 1].0))]
  }

  /** The per-cluster counts added up. */
  function SumCounts(c: Dict<nat>): nat {
    if c == [] then 0 else SumCounts(c[..|c| - 1]) + c[|c| - 1].1
  }

  /** The successful answer of the listing for a cluster map. */
  function ListingOf(m: Dict<ClusterInfo>, fetch: string -> Response, cacheHit: bool): (r: Listing)
    ensures r.Listed? && r.cacheHit == cacheHit && r.clustersDiscovered == |m|
    ensures r.totalCount == |r.devices| && r.erpReadyCount <= r.totalCount
    ensures r.devices == Gathered(m, fetch).0 && r.clustersInfo == ClustersInfo(m, r.devices)
  {
    var g := Gathered(m, fetch);
    Listed(g.0, |g.0|, ClustersInfo(m, g.0), g.1, cacheHit, |m|)
  }

  /** `device_type` as the listing back-fills it for a device that lacks
      one: 'gateway' when the cluster name contains "gateway" in any case,
      'rodent_sensor' otherwise. */
  function BackfilledType(deviceType: Option<string>, clusterName: string): (t: string)
    ensures deviceType.Some? ==> t == deviceType.value
    ensures deviceType.None? ==> (t == "gateway" <==> Contains(Lower(clusterName), "gateway"))
    ensures deviceType.None? ==> (t == "gateway" || t == "rodent_sensor")
  {
    if deviceType.Some? then deviceType.value
    else if Contains(Lower(clusterName), "gateway") then "gateway"
    else "rodent_sensor"
  }

  /** The back-fill reads the cluster name without regard to case. */
  lemma BackfillIgnoresCase(clusterName: string)
    ensures BackfilledType(None, clusterName) == BackfilledType(None, Lower(clusterName))
  {
    LowerIdempotent(clusterName);
  }

  /** One more cluster read by the listing loop. */
  lemma GatheredStep(m: Dict<ClusterInfo>, i: nat, fetch: string -> Response)
    requires i < |m|
    ensures var res := Operations.ClusterDevicesOf(m[i].1, fetch(m[i].1.clusterId));
      var prev := Gathered(m[..i], fetch);
      Gathered(m[..i + 1], fetch) == if res.Fetched? then (prev.0 + res.devices, prev.1 + res.erpReadyCount) else prev
  {
    var prefix := m[..i + 1];
    assert prefix[..|prefix| - 1] == m[..i] && prefix[|prefix| - 1] == m[i];
  }

  /** The loop of lines 71-83 (and 129-138): every cluster of the map is
      read in order and its devices appended. */
  method CollectDevices(m: Dict<ClusterInfo>, fetch: string -> Response)
    returns (devices: seq<Operations.DecodedDevice>, ready: nat)
    ensures (devices, ready) == Gathered(m, fetch)
  {
    devices, ready := [], 0;
    var i := 0;
    while i < |m|
      invariant 0 <= i <= |m|
      invariant devices == Gathered(m[..i], fetch).0 && ready == Gathered(m[..i], fetch).1
    {
      var info := m[i].1;
      var res := Operations.GetClusterDevices(info, fetch(info.clusterId));
      GatheredStep(m, i, fetch);
      ghost var next := Gathered(m[..i + 1], fetch);
      if res.Fetched? {
        devices := devices + res.devices;
        ready := ready + res.erpReadyCount;
      }
      assert devices == next.0 && ready == next.1;
      i := i + 1;
    }
    assert m[..i] == m;
  }

  /** `optimized_get_devices`. A non-empty fast-CRUD cache is listed as it
      is, however old; an empty one is filled from the discovery, which is
      then listed; a failed discovery leaves the cache alone. */
  method OptimizedGetDevices(c: Crud.FastCrudManager, discovery: Operations.Discovery, fetch: string -> Response, now: int)
    returns (r: Listing)
    modifies c
    ensures c.ttl == old(c.ttl)
    ensures old(c.data) != [] ==>
      (&& c.data == old(c.data) && c.timestamp == old(c.timestamp)
       && r == ListingOf(old(c.data), fetch, true))
    ensures old(c.data) == [] && discovery.Discovered? ==>
      (&& c.data == discovery.clusterMap && c.timestamp == now
       && r == ListingOf(discovery.clusterMap, fetch, false))
    ensures old(c.data) == [] && discovery.DiscoveryFailed? ==>
      (&& c.data == old(c.data) && c.timestamp == old(c.timestamp)
       && r == ListingFailed("Failed to get device list"))
  {
    if c.data != [] {
      var devices, ready := CollectDevices(c.data, fetch);
      return Listed(devices, |devices|, ClustersInfo(c.data, devices), ready, true, |c.data|);
    }
    if discovery.Discovered? {
      c.data := discovery.clusterMap;
      c.timestamp := now;
      var devices, ready := CollectDevices(discovery.clusterMap, fetch);
      return Listed(devices, |devices|, ClustersInfo(discovery.clusterMap, devices), ready, false, |discovery.clusterMap|);
    }
    return ListingFailed("Failed to get device list");
  }

  // ---------------------------------------------------------------------
  // What the listing's counts add up to

  /** Every entry of the map is keyed by its own cluster id, as the
      discovery's cluster map is. */
  predicate KeyedById(m: Dict<ClusterInfo>) {
    forall j :: 0 <= j < |m| ==> m[j].1.clusterId == m[j].0
  }

  /** How many keys of the map equal `id`. */
  function Hits(m: Dict<ClusterInfo>, id: string): nat {
    if m == [] then 0 else Hits(m[..|m| - 1], id) + (if m[|m| - 1].0 == id then 1 else 0)
  }

  lemma {:induction false} CountReadyAppend(a: seq<Operations.DecodedDevice>, b: seq<Operations.DecodedDevice>)
    ensures Operations.CountReady(a + b) == Operations.CountReady(a) + Operations.CountReady(b)
  {
    if b != [] {
      var b' := b[..|b| - 1];
      assert (a + b)[..|a + b| - 1] == a + b';
      CountReadyAppend(a, b');
    } else {
      assert a + b == a;
    }
  }

  /** The listing's `erp_ready_count` is the number of listed devices that
      are ready for the ERP. */
  lemma {:induction false} ReadyCountMatches(m: Dict<ClusterInfo>, fetch: string -> Response)
    ensures Gathered(m, fetch).1 == Operations.CountReady(Gathered(m, fetch).0)
  {
    if m != [] {
      ReadyCountMatches(m[..|m| - 1], fetch);
      var info := m[|m| - 1].1;
      var res := Operations.ClusterDevicesOf(info, fetch(info.clusterId));
      if res.Fetched? {
        CountReadyAppend(Gathered(m[..|m| - 1], fetch).0, res.devices);
      }
    }
  }

  /** Every device a cluster's GET yields carries that cluster's id. */
  lemma FetchedCarryClusterId(info: ClusterInfo, response: Response)
    requires Operations.ClusterDevicesOf(info, response).Fetched?
    ensures forall k :: 0 <= k < |Operations.ClusterDevicesOf(info, response).devices| ==>
      Operations.ClusterDevicesOf(info, response).devices[k].clusterId == info.clusterId
  {
    var res := Operations.ClusterDevicesOf(info, response);
    var ds := DevicesOf(res.raw);
    Operations.DecodeAllPointwise(ds, info);
    forall k | 0 <= k < |res.devices| ensures res.devices[k].clusterId == info.clusterId {
      assert res.devices[k] == Operations.Decode(ds[k], info);
    }
  }

  /** The cluster ids the entries of a map describe. */
  function InfoIds(m: Dict<ClusterInfo>): set<string> {
    if m == [] then {} else InfoIds(m[..|m| - 1]) + {m[|m| - 1].1.clusterId}
  }

  /** The keys of a map. */
  function KeySet(m: Dict<ClusterInfo>): set<string> {
    if m == [] then {} else KeySet(m[..|m| - 1]) + {m[|m| - 1].0}
  }

  lemma {:induction false} KeyedIdsAreKeys(m: Dict<ClusterInfo>)
    requires KeyedById(m)
    ensures InfoIds(m) == KeySet(m)
  {
    if m != [] {
      var init := m[..|m| - 1];
      assert forall j :: 0 <= j < |init| ==> init[j] == m[j];
      KeyedIdsAreKeys(init);
    }
  }

  /** Every listed device names a cluster of the map it was listed from. */
  lemma {:induction false} GatheredFromMap(m: Dict<ClusterInfo>, fetch: string -> Response)
    ensures forall i :: 0 <= i < |Gathered(m, fetch).0| ==> Gathered(m, fetch).0[i].clusterId in InfoIds(m)
  {
    if m != [] {
      var init := m[..|m| - 1];
      GatheredFromMap(init, fetch);
      var info := m[|m| - 1].1;
      var res := Operations.ClusterDevicesOf(info, fetch(info.clusterId));
      var prev := Gathered(init, fetch).0;
      var added := if res.Fetched? then res.devices else [];
      assert Gathered(m, fetch).0 == prev + added;
      assert forall k :: 0 <= k < |added| ==> added[k].clusterId == info.clusterId by {
        if res.Fetched? {
          FetchedCarryClusterId(info, fetch(info.clusterId));
        }
      }
    }
  }

  /** Adding one device raises the summed counts by the number of keys that
      name its cluster. */
  lemma {:induction false} SumCountsAddOne(m: Dict<ClusterInfo>, ds: seq<Operations.DecodedDevice>, d: Operations.DecodedDevice)
    ensures SumCounts(ClustersInfo(m, ds + [d])) == SumCounts(ClustersInfo(m, ds)) + Hits(m, d.clusterId)
  {
    if m != [] {
      var init := m[..|m| - 1];
      var k := m[|m| - 1].0;
      SumCountsAddOne(init, ds, d);
      assert (ds + [d])[..|ds + [d]| - 1] == ds;
      assert CountFor(ds + [d], k) == CountFor(ds, k) + (if d.clusterId == k then 1 else 0);
      var after := ClustersInfo(m, ds + [d]);
      var before := ClustersInfo(m, ds);
      assert after[..|after| - 1] == ClustersInfo(init, ds + [d]);
      assert before[..|before| - 1] == ClustersInfo(init, ds);
    }
  }

  /** With distinct keys, a key is counted once. */
  lemma {:induction false} HitsOfKey(m: Dict<ClusterInfo>, id: string)
    requires DistinctKeys(m) && id in KeySet(m)
    ensures Hits(m, id) == 1
  {
    var init := m[..|m| - 1];
    assert forall j :: 0 <= j < |init| ==> init[j] == m[j];
    if m[|m| - 1].0 == id {
      HitsOfAbsent(init, id);
    } else {
      HitsOfKey(init, id);
    }
  }

  lemma {:induction false} HitsOfAbsent(m: Dict<ClusterInfo>, id: string)
    requires forall j :: 0 <= j < |m| ==> m[j].0 != id
    ensures Hits(m, id) == 0
  {
    if m != [] {
      HitsOfAbsent(m[..|m| - 1], id);
    }
  }

  /** When every device names a key of the map, and keys are distinct, the
      per-cluster counts add up to the number of devices. */
  lemma {:induction false} CountsCoverDevices(m: Dict<ClusterInfo>, ds: seq<Operations.DecodedDevice>)
    requires DistinctKeys(m)
    requires forall i :: 0 <= i < |ds| ==> ds[i].clusterId in KeySet(m)
    ensures SumCounts(ClustersInfo(m, ds)) == |ds|
  {
    if ds == [] {
      var c := ClustersInfo(m, ds);
      forall k | 0 <= k < |c| ensures c[k].1 == 0 { }
      SumOfZeros(c);
    } else {
      var init := ds[..|ds| - 1];
      var d := ds[|ds| - 1];
      CountsCoverDevices(m, init);
      assert init + [d] == ds;
      SumCountsAddOne(m, init, d);
      HitsOfKey(m, d.clusterId);
    }
  }

  lemma {:induction false} SumOfZeros(c: Dict<nat>)
    requires forall k :: 0 <= k < |c| ==> c[k].1 == 0
    ensures SumCounts(c) == 0
  {
    if c != [] {
      SumOfZeros(c[..|c| - 1]);
    }
  }

  /** For a map keyed by cluster id, the `device_count`s of `clusters_info`
      add up to `total_count`. */
  lemma ListingCountsAddUp(m: Dict<ClusterInfo>, fetch: string -> Response, cacheHit: bool)
    requires DistinctKeys(m) && KeyedById(m)
    ensures SumCounts(ListingOf(m, fetch, cacheHit).clustersInfo) == ListingOf(m, fetch, cacheHit).totalCount
    ensures ListingOf(m, fetch, cacheHit).erpReadyCount == Operations.CountReady(ListingOf(m, fetch, cacheHit).devices)
  {
    var ds := Gathered(m, fetch).0;
    GatheredFromMap(m, fetch);
    KeyedIdsAreKeys(m);
    CountsCoverDevices(m, ds);
    ReadyCountMatches(m, fetch);
  }

  /** The same holds for the cluster map a discovery builds. */
  lemma DiscoveredListingCountsAddUp(cs: seq<ClusterDoc>, fetch: string -> Response, cacheHit: bool)
    ensures var l := ListingOf(Operations.ClusterMapOf(cs), fetch, cacheHit);
      SumCounts(l.clustersInfo) == l.totalCount
  {
    Operations.ClusterMapKeysMatchIds(cs);
    ListingCountsAddUp(Operations.ClusterMapOf(cs), fetch, cacheHit);
  }

  // ---------------------------------------------------------------------
  // Handlers

  /** What the handlers' catch-all `except Exception as e` raises: a 500
      whose detail is the handler's prefix followed by `str(e)`. */
  function CatchAll(prefix: string, message: string): (e: HttpException)
    ensures e.status == 500 && e.detail == prefix + message
  {
    HttpException(500, prefix + message)
  }

  /** `str()` of the TypeError raised by calling `update_cache_after_update`
      without its `device_data` argument. */
  const MissingDeviceData: string :=
    "update_cache_after_update() missing 1 required positional argument: 'device_data'"

  datatype DeleteAnswer =
    | Deleted(device: Device, clusterId: string, cacheUpdate: Option<SmartCache.SurgicalOutcome>)
    | AlreadyGone(message: string)

  datatype UpdateAnswer = Updated(device: Device, clusterId: string, cacheUpdate: Option<SmartCache.SurgicalOutcome>)

  /** The answer to a failed fast delete: an error saying the device was not
      found, in any case, means it is already gone and counts as success;
      any other error is a 404. */
  function DeleteFailure(deviceId: string, error: string): (r: Handled<DeleteAnswer>)
    ensures r.Answer? <==> Contains(Lower(error), "not found")
    ensures r.Answer? ==> r.value == AlreadyGone("Device " + deviceId + " was already deleted or does not exist")
    ensures r.Raise? ==> r.exception == HttpException(404, "Fast device deletion failed: " + error)
  {
    if Contains(Lower(error), "not found") then Answer(AlreadyGone("Device " + deviceId + " was already deleted or does not exist"))
    else Raise(HttpException(404, "Fast device deletion failed: " + error))
  }

  /** The same answer as lines 396-412 give it: the 404 is raised inside the
      `try`, so the catch-all turns it into a 500. */
  function DeleteFailureAsWritten(deviceId: string, error: string): (r: Handled<DeleteAnswer>)
    ensures r.Answer? <==> DeleteFailure(deviceId, error).Answer?
    ensures r.Raise? ==> r.exception.status == 500
  {
    var intended := DeleteFailure(deviceId, error);
    if intended.Answer? then intended
    else Raise(CatchAll("Fast device deletion error: ", Text(intended.exception)))
  }

  /** A failed delete that is not a not-found reaches the client as a 500
      whose detail nests the 404, never as the 404 itself. */
  lemma DeleteFailureAsWrittenHides404(deviceId: string, error: string)
    requires !Contains(Lower(error), "not found")
    ensures DeleteFailure(deviceId, error).exception == HttpException(404, "Fast device deletion failed: " + error)
    ensures DeleteFailureAsWritten(deviceId, error).exception
         == HttpException(500, "Fast device deletion error: " + ("404" + ": " + ("Fast device deletion failed: " + error)))
  {
    assert NatToString(4) == "4";
    assert NatToString(40) == NatToString(4) + [DigitChar(0)] == "40";
    assert NatToString(404) == NatToString(40) + [DigitChar(4)] == "404";
  }

  lemma {:induction false} AbsentWhenFirstCharAbsent(s: string, sub: string)
    requires sub != []
    requires forall i :: 0 <= i && i + |sub| <= |s| ==> s[i] != sub[0]
    ensures !Contains(s, sub)
  {
    forall j | 0 <= j <= |s| ensures !OccursAt(s, sub, j) {
      if j + |sub| <= |s| {
        assert s[j..j + |sub|][0] == s[j];
      }
    }
  }

  lemma LowerCharIsNotN(c: char)
    requires c != 'n' && c != 'N'
    ensures LowerChar(c) != 'n'
  {
  }

  /** A text with no 'n' or 'N' early enough to start "not found" does not
      contain it once lower-cased. */
  lemma NotFoundAbsent(s: string)
    requires forall i :: 0 <= i && i + 9 <= |s| ==> s[i] != 'n' && s[i] != 'N'
    ensures !Contains(Lower(s), "not found")
  {
    var l := Lower(s);
    forall i | 0 <= i && i + 9 <= |l| ensures l[i] != 'n' {
      assert l[i] == LowerChar(s[i]);
      LowerCharIsNotN(s[i]);
    }
    AbsentWhenFirstCharAbsent(l, "not found");
  }

  /** The input that shows it: the PUT of the changed document is refused,
      so the fast delete fails with "Failed to update cluster after
      deletion"; the client is told 500, not 404. */
  lemma RefusedDeletePutIs500()
    ensures DeleteFailure("d1", "Failed to update cluster after deletion").Raise?
    ensures DeleteFailure("d1", "Failed to update cluster after deletion").exception.status == 404
    ensures DeleteFailureAsWritten("d1", "Failed to update cluster after deletion").exception.status == 500
  {
    NotFoundAbsent("Failed to update cluster after deletion");
  }

  /** What the update handler as written answers for a fast-update outcome.
      A failure raises 404 inside the `try`, which the catch-all turns into a
      500; a success with a cluster id and a non-empty device calls
      `update_cache_after_update(cluster_id, device)`, which lacks its third
      argument, and the resulting TypeError becomes a 500 too. */
  function UpdateReplyAsWritten(outcome: Crud.FastOutcome): (r: Handled<UpdateAnswer>)
    ensures r.Raise? ==> r.exception.status == 500
    ensures r.Answer? <==> outcome.Done? && (outcome.clusterId == "" || !SmartCache.Truthy(outcome.device))
  {
    match outcome
    case Failed(error) =>
      Raise(CatchAll("Fast device update error: ", Text(HttpException(404, "Fast device update failed: " + error))))
    case Done(device, clusterId) =>
      if clusterId != "" && SmartCache.Truthy(device) then Raise(CatchAll("Fast device update error: ", MissingDeviceData))
      else Answer(Updated(device, clusterId, None))
  }

  /** The update handler's answer with both defects corrected: a failure is
      the 404, and a success is reported with whatever the cache hook did
      (`cacheUpdate`, None when the hook is not called). */
  function UpdateReply(outcome: Crud.FastOutcome, cacheUpdate: Option<SmartCache.SurgicalOutcome>): (r: Handled<UpdateAnswer>)
    ensures r.Answer? <==> outcome.Done?
    ensures r.Raise? ==> r.exception == HttpException(404, "Fast device update failed: " + outcome.error)
    ensures r.Answer? ==> r.value == Updated(outcome.device, outcome.clusterId, cacheUpdate)
  {
    match outcome
    case Failed(error) => Raise(HttpException(404, "Fast device update failed: " + error))
    case Done(device, clusterId) => Answer(Updated(device, clusterId, cacheUpdate))
  }

  /** Every update the store accepted, of a device in a cluster with a
      non-empty id, is reported to the client as a 500 by the handler as
      written, and as a success once corrected. */
  lemma SuccessfulUpdateReportedAsFailure(device: Device, clusterId: string, cacheUpdate: Option<SmartCache.SurgicalOutcome>)
    requires clusterId != "" && SmartCache.Truthy(device)
    ensures UpdateReplyAsWritten(Crud.Done(device, clusterId))
         == Raise(HttpException(500, "Fast device update error: " + MissingDeviceData))
    ensures UpdateReply(Crud.Done(device, clusterId), cacheUpdate).Answer?
  {
  }

  /** The input that shows it: any device the store accepted, say one with
      only a `deviceId`, in cluster "c1". */
  lemma AcceptedUpdateIs500()
    ensures UpdateReplyAsWritten(Crud.Done(Device(map["deviceId" := Str("d1")], None), "c1")).Raise?
  {
    SuccessfulUpdateReportedAsFailure(Device(map["deviceId" := Str("d1")], None), "c1", None);
  }

  /** `delete_device_optimized`, with the 401 and the 404 raised as such
      rather than swallowed by the catch-all. `outcome` is what the fast
      delete returned, None when authentication failed first. */
  method DeleteDeviceOptimized(
    c: Crud.FastCrudManager, sc: SmartCache.SmartCacheManager, auth: map<string, string>, deviceId: string,
    discovery: Operations.Discovery, fetch: string -> Response, reply: Reply, now: int)
    returns (r: Handled<DeleteAnswer>, outcome: Option<Crud.FastOutcome>)
    requires sc.Valid()
    modifies c, sc
    ensures sc.Valid() && sc.discovery == old(sc.discovery) && c.ttl == old(c.ttl)
    ensures outcome.None? <==> |auth| == 0
    ensures outcome.None? ==>
      (&& r == Raise(HttpException(401, "Authentication required"))
       && c.data == old(c.data) && c.timestamp == old(c.timestamp)
       && sc.deviceData == old(sc.deviceData))
    ensures outcome.Some? ==> DeleteAnswered(outcome.value, deviceId, r, old(sc.deviceData), sc.deviceData, now)
  {
    var authData := GetAuthData(auth);
    if authData.Raise? {
      return Raise(authData.exception), None;
    }
    var result;
    r, result := DeleteAuthorized(c, sc, deviceId, discovery, fetch, reply, now);
    outcome := Some(result);
  }

  /** How a fast delete's outcome becomes the handler's answer and the
      cache's new device lists: a failure goes through `DeleteFailure`; a
      success names the device, and patches the cluster's cached list when
      the cluster is known. */
  ghost predicate DeleteAnswered(
    result: Crud.FastOutcome, deviceId: string, r: Handled<DeleteAnswer>,
    cacheBefore: SmartCache.DeviceDataCache, cacheAfter: SmartCache.DeviceDataCache, now: int)
  {
    && (result.Failed? ==> r == DeleteFailure(deviceId, result.error) && cacheAfter == cacheBefore)
    && (result.Done? ==> KeyIs(result.device, "deviceId", deviceId))
    && (result.Done? && result.clusterId == "" ==>
         r == Answer(Deleted(result.device, "", None)) && cacheAfter == cacheBefore)
    && (result.Done? && result.clusterId != "" ==>
         var after := SmartCache.AfterOperation(cacheBefore, "DELETE", result.clusterId, Some(deviceId), None, "", now);
         && cacheAfter == after.0
         && r == Answer(Deleted(result.device, result.clusterId, Some(after.1))))
  }

  /** The part of `delete_device_optimized` after authentication. */
  method DeleteAuthorized(
    c: Crud.FastCrudManager, sc: SmartCache.SmartCacheManager, deviceId: string,
    discovery: Operations.Discovery, fetch: string -> Response, reply: Reply, now: int)
    returns (r: Handled<DeleteAnswer>, result: Crud.FastOutcome)
    requires sc.Valid()
    modifies c, sc
    ensures sc.Valid() && sc.discovery == old(sc.discovery) && c.ttl == old(c.ttl)
    ensures DeleteAnswered(result, deviceId, r, old(sc.deviceData), sc.deviceData, now)
  {
    var written;
    result, written := c.DeleteDeviceFast(deviceId, discovery, fetch, reply, now);
    if result.Failed? {
      return DeleteFailure(deviceId, result.error), result;
    }
    r := PatchAfterDelete(sc, deviceId, result, now);
  }

  /** The successful tail of `delete_device_optimized`: the cluster's cached
      device list is patched when the cluster is known. */
  method PatchAfterDelete(sc: SmartCache.SmartCacheManager, deviceId: string, result: Crud.FastOutcome, now: int)
    returns (r: Handled<DeleteAnswer>)
    requires sc.Valid() && result.Done?
    modifies sc
    ensures sc.Valid() && sc.discovery == old(sc.discovery)
    ensures result.clusterId == "" ==> r == Answer(Deleted(result.device, "", None)) && sc.deviceData == old(sc.deviceData)
    ensures result.clusterId != "" ==>
      var after := SmartCache.AfterOperation(old(sc.deviceData), "DELETE", result.clusterId, Some(deviceId), None, "", now);
      && sc.deviceData == after.0
      && r == Answer(Deleted(result.device, result.clusterId, Some(after.1)))
  {
    if result.clusterId != "" {
      var update := SmartCache.UpdateCacheAfterDelete(sc, result.clusterId, deviceId, now);
      return Answer(Deleted(result.device, result.clusterId, Some(update)));
    }
    return Answer(Deleted(result.device, result.clusterId, None));
  }

  /** `update_device_optimized`, with the 401 and the 404 raised as such and
      the cache hook given the device id it needs. */
  method UpdateDeviceOptimized(
    c: Crud.FastCrudManager, sc: SmartCache.SmartCacheManager, auth: map<string, string>, deviceId: string,
    updates: Crud.FastUpdates, stamp: string,
    discovery: Operations.Discovery, fetch: string -> Response, reply: Reply, now: int)
    returns (r: Handled<UpdateAnswer>, outcome: Option<Crud.FastOutcome>)
    requires sc.Valid()
    modifies c, sc
    ensures sc.Valid() && sc.discovery == old(sc.discovery) && c.ttl == old(c.ttl)
    ensures outcome.None? <==> |auth| == 0
    ensures outcome.None? ==>
      (&& r == Raise(HttpException(401, "Authentication required"))
       && c.data == old(c.data) && c.timestamp == old(c.timestamp)
       && sc.deviceData == old(sc.deviceData))
    ensures outcome.Some? && outcome.value.Failed? ==>
      r == UpdateReply(outcome.value, None) && sc.deviceData == old(sc.deviceData)
    ensures outcome.Some? && outcome.value.Done? && (outcome.value.clusterId == "" || !SmartCache.Truthy(outcome.value.device)) ==>
      r == UpdateReply(outcome.value, None) && sc.deviceData == old(sc.deviceData)
    ensures outcome.Some? && outcome.value.Done? && outcome.value.clusterId != "" && SmartCache.Truthy(outcome.value.device) ==>
      var after := SmartCache.AfterOperation(
        old(sc.deviceData), "UPDATE", outcome.value.clusterId, Some(deviceId), Some(outcome.value.device), stamp, now);
      && sc.deviceData == after.0
      && r == UpdateReply(outcome.value, Some(after.1))
  {
    var authData := GetAuthData(auth);
    if authData.Raise? {
      return Raise(authData.exception), None;
    }
    var result, written := c.UpdateDeviceFast(deviceId, updates, stamp, discovery, fetch, reply, now);
    outcome := Some(result);
    if result.Failed? {
      return UpdateReply(result, None), outcome;
    }
    if result.clusterId != "" && SmartCache.Truthy(result.device) {
      var update := SmartCache.UpdateCacheAfterUpdate(sc, result.clusterId, deviceId, result.device, stamp, now);
      return UpdateReply(result, Some(update)), outcome;
    }
    return UpdateReply(result, None), outcome;
  }
}
