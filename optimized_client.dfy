/** The high-performance device client: device documents read into typed
    devices, keeping only those with a full six-entry location, and the
    client's own cache of discovered clusters keyed by cluster id. */
module DeviceClient {
  import opened Wire
  import opened Dicts

  datatype DeviceLocation = DeviceLocation(
    customer: string, site: string, area: string, sensor: string, placement: string, configuration: string)

  datatype ParsedDevice = ParsedDevice(id: string, location: DeviceLocation, status: string, guid: Option<string>)

  datatype DeviceCluster = DeviceCluster(id: string, name: string, recordType: string, devices: seq<ParsedDevice>)

  const DefaultDevEui: string := "00-00-00-00-00-00-00-00"

  /** Is the location complete enough to be read as six named fields? */
  predicate FullLocation(d: Device) {
    |LocationOf(d)| >= 6
  }

  /** One device read into its typed form; positions 0 to 5 of the
      location become customer, site, area, sensor, placement and
      configuration. */
  function ParseDevice(d: Device): (p: ParsedDevice)
    requires FullLocation(d)
    ensures var l := LocationOf(d);
      p.location == DeviceLocation(l[0], l[1], l[2], l[3], l[4], l[5])
    ensures p.id == StrOr(d, "id", DefaultDevEui) && p.status == StrOr(d, "status", "pending")
  {
    var l := LocationOf(d);
    ParsedDevice(
      StrOr(d, "id", DefaultDevEui),
      DeviceLocation(l[0], l[1], l[2], l[3], l[4], l[5]),
      StrOr(d, "status", "pending"),
      if "guid" in d.fields && d.fields["guid"].Str? then Some(d.fields["guid"].s) else None)
  }

  /** The devices with a full location, read in order; the others dropped. */
  function Parsed(ds: seq<Device>): (r: seq<ParsedDevice>)
    ensures |r| <= |ds|
  {
    if ds == [] then []
    else
      var init := Parsed(ds[..|ds| - 1]);
      var last := ds[|ds| - 1];
      if FullLocation(last) then init + [ParseDevice(last)] else init
  }

  /** How many devices have a full location. */
  function CountFull(ds: seq<Device>): nat {
    if ds == [] then 0 else CountFull(ds[..|ds| - 1]) + (if FullLocation(ds[|ds| - 1]) then 1 else 0)
  }

  /** Exactly the devices with a full location survive, and nothing else. */
  lemma {:induction false} ParsedKeepsExactlyFull(ds: seq<Device>)
    ensures |Parsed(ds)| == CountFull(ds)
    ensures (forall i :: 0 <= i < |ds| ==> FullLocation(ds[i])) ==> |Parsed(ds)| == |ds|
  {
    if ds != [] {
      var init := ds[..|ds| - 1];
      assert forall i :: 0 <= i < |init| ==> init[i] == ds[i];
      ParsedKeepsExactlyFull(init);
    }
  }

  /** Parsing a concatenation parses each part in turn: order is kept. */
  lemma {:induction false} ParsedAppend(a: seq<Device>, b: seq<Device>)
    ensures Parsed(a + b) == Parsed(a) + Parsed(b)
    decreases |b|
  {
    if b == [] {
      assert a + b == a;
    } else {
      var b' := b[..|b| - 1];
      assert (a + b)[..|a + b| - 1] == a + b';
      assert (a + b)[|a + b| - 1] == b[|b| - 1];
      ParsedAppend(a, b');
    }
  }

  /** `_parse_devices`: the loop over the document's devices. */
  method ParseDevices(doc: ClusterDoc) returns (devices: seq<ParsedDevice>)
    ensures devices == Parsed(DevicesOf(doc))
  {
    var ds := DevicesOf(doc);
    devices := [];
    var i := 0;
    while i < |ds|
      invariant 0 <= i <= |ds|
      invariant devices == Parsed(ds[..i])
    {
      assert ds[..i + 1][..i] == ds[..i];
      if FullLocation(ds[i]) {
        devices := devices + [ParseDevice(ds[i])];
      }
      i := i + 1;
    }
    assert ds[..i] == ds;
  }

  /** One discovered cluster, as `discover_clusters` builds it. */
  function ClusterOf(doc: ClusterDoc): (c: DeviceCluster)
    ensures c.id == doc.id && c.devices == Parsed(DevicesOf(doc))
    ensures doc.name.Some? ==> c.name == doc.name.value
    ensures doc.name.None? ==> c.name == "Unknown"
    ensures doc.recType.Some? ==> c.recordType == doc.recType.value
    ensures doc.recType.None? ==> c.recordType == "unknown"
  {
    DeviceCluster(
      doc.id,
      if doc.name.Some? then doc.name.value else "Unknown",
      if doc.recType.Some? then doc.recType.value else "unknown",
      Parsed(DevicesOf(doc)))
  }

  /** One cluster per document, in order. */
  function ClustersOf(objs: seq<ClusterDoc>): (r: seq<DeviceCluster>)
    ensures |r| == |objs|
  {
    if objs == [] then [] else ClustersOf(objs[..|objs| - 1]) + [ClusterOf(objs[|objs| - 1])]
  }

  /** The i-th discovered cluster is the one read from the i-th document. */
  lemma {:induction false} ClustersOfPointwise(objs: seq<ClusterDoc>, i: nat)
    requires i < |objs|
    ensures ClustersOf(objs)[i] == ClusterOf(objs[i])
  {
    if i < |objs| - 1 {
      ClustersOfPointwise(objs[..|objs| - 1], i);
    }
  }

  /** The cache after storing each cluster under its id, in order. */
  function Stored(cache: Dict<DeviceCluster>, clusters: seq<DeviceCluster>): (r: Dict<DeviceCluster>)
    requires DistinctKeys(cache)
    ensures DistinctKeys(r)
  {
    if clusters == [] then cache
    else
      var prev := Stored(cache, clusters[..|clusters| - 1]);
      var last := clusters[|clusters| - 1];
      PutThenLookup(prev, last.id, last, last.id);
      Put(prev, last.id, last)
  }

  /** A cluster is found under its id unless a later one with the same id
      replaced it. */
  lemma {:induction false} LaterClusterOverwrites(cache: Dict<DeviceCluster>, clusters: seq<DeviceCluster>, i: nat)
    requires DistinctKeys(cache) && i < |clusters|
    requires forall j :: i < j < |clusters| ==> clusters[j].id != clusters[i].id
    ensures Lookup(Stored(cache, clusters), clusters[i].id) == Some(clusters[i])
  {
    var init := clusters[..|clusters| - 1];
    var last := clusters[|clusters| - 1];
    var prev := Stored(cache, init);
    if i == |clusters| - 1 {
      PutThenLookup(prev, last.id, last, last.id);
    } else {
      assert init[i] == clusters[i];
      LaterClusterOverwrites(cache, init, i);
      PutThenLookup(prev, last.id, last, clusters[i].id);
    }
  }

  /** An id that no discovered cluster carries keeps its earlier entry. */
  lemma {:induction false} OtherIdsKept(cache: Dict<DeviceCluster>, clusters: seq<DeviceCluster>, id: string)
    requires DistinctKeys(cache)
    requires forall j :: 0 <= j < |clusters| ==> clusters[j].id != id
    ensures Lookup(Stored(cache, clusters), id) == Lookup(cache, id)
  {
    if clusters != [] {
      var init := clusters[..|clusters| - 1];
      var last := clusters[|clusters| - 1];
      OtherIdsKept(cache, init, id);
      PutThenLookup(Stored(cache, init), last.id, last, id);
    }
  }

  /** Storing one more cluster is one more `Put`. */
  lemma StoredStep(cache: Dict<DeviceCluster>, clusters: seq<DeviceCluster>, c: DeviceCluster)
    requires DistinctKeys(cache)
    ensures Stored(cache, clusters + [c]) == Put(Stored(cache, clusters), c.id, c)
  {
    assert (clusters + [c])[..|clusters|] == clusters;
  }

  class OptimizedDeviceClient {
    /** `_cluster_cache`: discovered clusters keyed by id, in insertion
        order. */
    var clusterCache: Dict<DeviceCluster>

    predicate Valid()
      reads this
    {
      DistinctKeys(clusterCache)
    }

    constructor()
      ensures Valid() && clusterCache == []
    {
      clusterCache := [];
    }

    /** `discover_clusters`, given the `objs` of the wildcard answer: one
        cluster per document, each stored in the cache under its id. */
    method DiscoverClusters(objs: seq<ClusterDoc>) returns (clusters: seq<DeviceCluster>)
      requires Valid()
      modifies this
      ensures Valid()
      ensures clusters == ClustersOf(objs)
      ensures clusterCache == Stored(old(clusterCache), clusters)
    {
      ghost var start := clusterCache;
      clusters := [];
      var i := 0;
      while i < |objs|
        invariant 0 <= i <= |objs|
        invariant DistinctKeys(start)
        invariant clusters == ClustersOf(objs[..i])
        invariant clusterCache == Stored(start, clusters)
      {
        var devices := ParseDevices(objs[i]);
        var cluster := DeviceCluster(
          objs[i].id,
          if objs[i].name.Some? then objs[i].name.value else "Unknown",
          if objs[i].recType.Some? then objs[i].recType.value else "unknown",
          devices);
        assert objs[..i + 1][..i] == objs[..i];
        StoredStep(start, clusters, cluster);
        clusterCache := Put(clusterCache, cluster.id, cluster);
        clusters := clusters + [cluster];
        i := i + 1;
      }
      assert objs[..i] == objs;
    }
  }
}
