/** The JSON documents exchanged with the device store, in typed form.

    A device is a JSON object. Its `meta` member, when present, is an object of
    its own that usually holds the positional `location` list; every other
    member is kept in `fields`. A cluster document groups the devices of one
    record type under `data.devices`. */
module Wire {

  datatype Option<T> = None | Some(value: T)

  /** The outcome of an operation that reports failure with a message. */
  datatype Result<T> = Ok(value: T) | Err(message: string)

  /** The JSON values a device member can hold. */
  datatype Value =
    | Str(s: string)
    | Strs(items: seq<string>)
    | Num(n: int)
    | Bool(b: bool)
    | Null
    | Obj(members: map<string, Value>)

  /** Top-level members of a device other than `meta`. */
  type Fields = m: map<string, Value> | "meta" !in m witness map[]

  datatype Device = Device(fields: Fields, meta: Option<map<string, Value>>)

  datatype ClusterData = ClusterData(devices: Option<seq<Device>>)

  /** A cluster document: `_id`, `recType`, `name` and `data`. */
  datatype ClusterDoc = ClusterDoc(
    id: string,
    recType: Option<string>,
    name: Option<string>,
    data: Option<ClusterData>)

  /** One entry of the discovery cluster map, keyed by the cluster's `_id`. */
  datatype ClusterInfo = ClusterInfo(
    clusterId: string,
    clusterName: string,
    recType: Option<string>,
    deviceType: string,
    deviceCount: nat)

  /** The outcome of one HTTP GET of cluster documents: a status and the
      `objs` list of the body, or an exception raised by the transport. */
  datatype Response = Response(status: int, objs: seq<ClusterDoc>) | Raised(error: string)

  /** The outcome of one HTTP PUT of a cluster document. */
  datatype Reply = Reply(code: int) | PutRaised(error: string)

  const TrapRecType: string := "io.microshare.trap.packed"
  const GatewayRecType: string := "io.microshare.gateway.health.packed"

  /** Python's `device.get(key) == value` for a string `value`. */
  predicate KeyIs(d: Device, key: string, value: string) {
    key in d.fields && d.fields[key] == Str(value)
  }

  /** `device.get(key, default)` for a member expected to hold a string;
      any other kind of value reads as the default. */
  function StrOr(d: Device, key: string, default: string): string {
    if key in d.fields && d.fields[key].Str? then d.fields[key].s else default
  }

  /** `device.get('meta', {}).get('location', [])`. */
  function LocationOf(d: Device): seq<string> {
    if d.meta.Some? && "location" in d.meta.value && d.meta.value["location"].Strs?
    then d.meta.value["location"].items
    else []
  }

  /** `cluster.get('data', {}).get('devices', [])`. */
  function DevicesOf(doc: ClusterDoc): seq<Device> {
    if doc.data.Some? && doc.data.value.devices.Some? then doc.data.value.devices.value else []
  }

  /** Does the document carry a real `data.devices` list, so that changing
      the list obtained from it changes the document? */
  predicate HasDeviceList(doc: ClusterDoc) {
    doc.data.Some? && doc.data.value.devices.Some?
  }

  /** The document with its `data.devices` list replaced. */
  function WithDevices(doc: ClusterDoc, ds: seq<Device>): (r: ClusterDoc)
    requires HasDeviceList(doc)
    ensures HasDeviceList(r) && DevicesOf(r) == ds
    ensures r.id == doc.id && r.recType == doc.recType && r.name == doc.name
  {
    doc.(data := Some(ClusterData(Some(ds))))
  }

  /** Position of the first device whose member `key` equals `value`, or -1:
      the `for i, device in enumerate(devices): if device.get(key) == value`
      search shared by every mutation path. */
  function FirstMatch(ds: seq<Device>, key: string, value: string): (r: int)
    ensures -1 <= r < |ds|
    ensures r >= 0 ==> KeyIs(ds[r], key, value)
    ensures forall j :: 0 <= j < |ds| && (r < 0 || j < r) ==> !KeyIs(ds[j], key, value)
  {
    if ds == [] then -1
    else if KeyIs(ds[0], key, value) then 0
    else
      var r := FirstMatch(ds[1..], key, value);
      if r < 0 then -1 else r + 1
  }

  /** The first matching device taken out, the others in their order. */
  function RemoveAt(ds: seq<Device>, i: nat): (r: seq<Device>)
    requires i < |ds|
    ensures |r| == |ds| - 1
    ensures forall j :: 0 <= j < i ==> r[j] == ds[j]
    ensures forall j :: i <= j < |r| ==> r[j] == ds[j + 1]
  {
    ds[..i] + ds[i + 1..]
  }
}
