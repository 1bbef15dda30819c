/** The device client of src/microshare_client/client.py: cache keys, the
    classification of every HTTP answer into a value or an exception, the
    read-modify-write of a cluster's device list keyed by `id`, and the
    module-level cluster cache that the cached operations fill and
    invalidate.

    The answers of the remote store are inputs: the GET of a cluster or of
    the wildcard listing is a `Response`, the PUT of a document a `Reply`,
    and the time a cache read or write happens is `now`. */
module MicroshareClient {
  import opened Wire
  import opened Dicts
  import opened Strings
  import opened Enums
  import opened Errors
  import opened TtlCache

  /** What a client call comes to: a value, one of the library's exceptions,
      or a built-in Python exception (IndexError, KeyError, RuntimeError)
      with its text. */
  datatype Outcome<T> = Success(value: T) | Failure(error: ClientError) | Crash(message: string)

  /** The same exception, passed on by a caller expecting another type. */
  function Propagated<T, U>(o: Outcome<T>): (r: Outcome<U>)
    requires !o.Success?
    ensures r.Failure? <==> o.Failure?
    ensures r.Failure? ==> r.error == o.error
    ensures r.Crash? ==> r.message == o.message
  {
    if o.Failure? then Failure(o.error) else Crash(o.message)
  }

  // ---------------------------------------------------------------------
  // Cache keys

  /** A positional argument of `_get_cache_key`. */
  datatype Arg = StrArg(s: string) | TypeArg(t: DeviceType) | IntArg(n: int)

  /** A DeviceType is written as its value, anything else as `str(arg)`. */
  function Render(a: Arg): string {
    match a
    case StrArg(s) => s
    case TypeArg(t) => RecordType(t)
    case IntArg(n) => IntToString(n)
  }

  /** Python's `<` on strings: code point by code point, a proper prefix
      before any longer string. */
  predicate Below(a: string, b: string) {
    if a == [] then b != []
    else if b == [] then false
    else a[0] < b[0] || (a[0] == b[0] && Below(a[1..], b[1..]))
  }

  lemma {:induction false} BelowIrreflexive(a: string)
    ensures !Below(a, a)
  {
    if a != [] {
      BelowIrreflexive(a[1..]);
    }
  }

  lemma {:induction false} BelowTransitive(a: string, b: string, c: string)
    requires Below(a, b) && Below(b, c)
    ensures Below(a, c)
  {
    if a != [] && a[0] == b[0] && b[0] == c[0] {
      BelowTransitive(a[1..], b[1..], c[1..]);
    }
  }

  lemma {:induction false} BelowTotal(a: string, b: string)
    requires a != b
    ensures Below(a, b) || Below(b, a)
  {
    if a != [] && b != [] && a[0] == b[0] {
      assert a == [a[0]] + a[1..] && b == [b[0]] + b[1..];
      BelowTotal(a[1..], b[1..]);
    }
  }

  /** Keyword arguments in strictly increasing order of their names. */
  predicate SortedByName(kws: Dict<string>) {
    forall i, j :: 0 <= i < j < |kws| ==> Below(kws[i].0, kws[j].0)
  }

  /** One keyword argument put in its place among sorted ones. */
  function Insert(kv: (string, string), s: Dict<string>): (r: Dict<string>)
    ensures multiset(r) == multiset(s) + multiset{kv}
    ensures |r| == |s| + 1
  {
    if s == [] then [kv]
    else if Below(kv.0, s[0].0) then [kv] + s
    else
      assert s == [s[0]] + s[1..];
      [s[0]] + Insert(kv, s[1..])
  }

  /** `sorted(kwargs.items())`. */
  function SortByName(kws: Dict<string>): (r: Dict<string>)
    ensures multiset(r) == multiset(kws)
    ensures |r| == |kws|
  {
    if kws == [] then []
    else
      assert kws == [kws[0]] + kws[1..];
      Insert(kws[0], SortByName(kws[1..]))
  }

  lemma {:induction false} InsertSorted(kv: (string, string), s: Dict<string>)
    requires SortedByName(s)
    requires forall i :: 0 <= i < |s| ==> s[i].0 != kv.0
    ensures SortedByName(Insert(kv, s))
  {
    if s == [] {
    } else if Below(kv.0, s[0].0) {
      var r := [kv] + s;
      forall i, j | 0 <= i < j < |r| ensures Below(r[i].0, r[j].0) {
        if i == 0 && j > 1 {
          BelowTransitive(kv.0, s[0].0, s[j - 1].0);
        }
      }
    } else {
      BelowTotal(kv.0, s[0].0);
      var t := Insert(kv, s[1..]);
      InsertSorted(kv, s[1..]);
      forall j | 0 <= j < |t| ensures Below(s[0].0, t[j].0) {
        assert t[j] in multiset(t);
        if t[j] != kv {
          assert t[j] in multiset(s[1..]);
          var m :| 0 <= m < |s[1..]| && s[1..][m] == t[j];
          assert s[m + 1] == t[j];
        }
      }
    }
  }

  lemma {:induction false} SortByNameSorted(kws: Dict<string>)
    requires DistinctKeys(kws)
    ensures SortedByName(SortByName(kws))
  {
    if kws != [] {
      var tail := kws[1..];
      var s := SortByName(tail);
      SortByNameSorted(tail);
      forall i | 0 <= i < |s| ensures s[i].0 != kws[0].0 {
        assert s[i] in multiset(tail);
        var m :| 0 <= m < |tail| && tail[m] == s[i];
        assert kws[m + 1] == s[i];
      }
      InsertSorted(kws[0], s);
    }
  }

  /** The head of a sorted sequence comes before every other element. */
  lemma SortedHeadIsLeast(a: Dict<string>, x: (string, string))
    requires SortedByName(a) && x in a && x != a[0]
    ensures Below(a[0].0, x.0)
  {
    var i :| 0 <= i < |a| && a[i] == x;
  }

  lemma TailMultiset(a: Dict<string>)
    requires a != []
    ensures multiset(a[1..]) == multiset(a) - multiset{a[0]}
  {
    assert a == [a[0]] + a[1..];
  }

  /** Two sorted arrangements of the same arguments are the same sequence. */
  lemma {:induction false} SortedUnique(a: Dict<string>, b: Dict<string>)
    requires SortedByName(a) && SortedByName(b) && multiset(a) == multiset(b)
    ensures a == b
  {
    assert |a| == |multiset(a)| == |multiset(b)| == |b|;
    if a != [] {
      assert a[0] in multiset(b) && b[0] in multiset(a);
      if a[0] != b[0] {
        SortedHeadIsLeast(b, a[0]);
        SortedHeadIsLeast(a, b[0]);
        BelowTransitive(a[0].0, b[0].0, a[0].0);
        BelowIrreflexive(a[0].0);
        assert false;
      }
      TailMultiset(a);
      TailMultiset(b);
      SortedUnique(a[1..], b[1..]);
      assert a == [a[0]] + a[1..] && b == [b[0]] + b[1..];
    }
  }

  function Rendered(args: seq<Arg>): (parts: seq<string>)
    ensures |parts| == |args|
  {
    seq(|args|, i requires 0 <= i < |args| => Render(args[i]))
  }

  function Labelled(kws: Dict<string>): (parts: seq<string>)
    ensures |parts| == |kws|
  {
    seq(|kws|, i requires 0 <= i < |kws| => kws[i].0 + ":" + kws[i].1)
  }

  /** `_get_cache_key(*args, **kwargs)`: the rendered positional arguments,
      then `name:value` for each keyword argument in order of name, all
      joined with ':'. */
  function CacheKey(args: seq<Arg>, kwargs: Dict<string>): (key: string)
    ensures args == [] && kwargs == [] ==> key == ""
    ensures args != [] ==> Render(args[0]) <= key
    ensures args != [] && |args| + |kwargs| > 1 ==> |Render(args[0])| < |key| && key[|Render(args[0])|] == ':'
  {
    var parts := Rendered(args) + Labelled(SortByName(kwargs));
    if parts == [] then Join(":", parts)
    else
      JoinStartsWithHead(":", parts);
      Join(":", parts)
  }

  /** The key does not depend on the order the keyword arguments were
      passed in. */
  lemma KeyIgnoresKeywordOrder(args: seq<Arg>, kw1: Dict<string>, kw2: Dict<string>)
    requires DistinctKeys(kw1) && DistinctKeys(kw2) && multiset(kw1) == multiset(kw2)
    ensures CacheKey(args, kw1) == CacheKey(args, kw2)
  {
    SortByNameSorted(kw1);
    SortByNameSorted(kw2);
    SortedUnique(SortByName(kw1), SortByName(kw2));
  }

  /** A device type gives the same key as its value written out. */
  lemma TypeArgIsItsValue(t: DeviceType, args: seq<Arg>, kwargs: Dict<string>)
    ensures CacheKey([TypeArg(t)] + args, kwargs) == CacheKey([StrArg(RecordType(t))] + args, kwargs)
  {
    assert Rendered([TypeArg(t)] + args) == Rendered([StrArg(RecordType(t))] + args);
  }

  /** The key of one cluster's document. */
  function ClusterKey(clusterId: string, t: DeviceType): (key: string)
    ensures key == "cluster:" + clusterId + ":" + RecordType(t)
  {
    var parts := Rendered([StrArg("cluster"), StrArg(clusterId), StrArg(RecordType(t))]);
    assert parts == ["cluster", clusterId, RecordType(t)];
    assert Labelled(SortByName([])) == [];
    assert parts + [] == parts;
    assert parts[1..] == [clusterId, RecordType(t)];
    assert parts[1..][1..] == [RecordType(t)];
    assert Join(":", parts[1..]) == clusterId + ":" + RecordType(t);
    assert Join(":", parts) == "cluster" + ":" + (clusterId + ":" + RecordType(t));
    CacheKey([StrArg("cluster"), StrArg(clusterId), StrArg(RecordType(t))], [])
  }

  /** The key of the wildcard listing. */
  function AllClustersKey(): (key: string)
    ensures key == "clusters:scope:all"
  {
    var kws := [("scope", "all")];
    assert SortByName(kws) == kws;
    var parts := Rendered([StrArg("clusters")]) + Labelled(kws);
    assert parts == ["clusters", "scope" + ":" + "all"];
    assert parts[1..] == ["scope" + ":" + "all"];
    assert Join(":", parts) == "clusters" + ":" + ("scope" + ":" + "all");
    CacheKey([StrArg("clusters")], kws)
  }

  /** No cluster key is the listing key. */
  lemma ClusterKeyIsNotAllKey(clusterId: string, t: DeviceType)
    ensures ClusterKey(clusterId, t) != AllClustersKey()
  {
    assert ClusterKey(clusterId, t)[7] == ':';
    assert AllClustersKey()[7] == 's';
  }

  /** Different clusters have different keys: the record type, which holds
      no ':', can be read back from the end of the key, and the cluster id
      from the rest. */
  lemma ClusterKeyInjective(c1: string, t1: DeviceType, c2: string, t2: DeviceType)
    requires ClusterKey(c1, t1) == ClusterKey(c2, t2)
    ensures c1 == c2 && t1 == t2
  {
    if t1 != t2 {
      if t1 == Trap {
        TrapKeyIsNotGatewayKey(c1, c2);
      } else {
        TrapKeyIsNotGatewayKey(c2, c1);
      }
    } else {
      var k := ClusterKey(c1, t1);
      assert |c1| == |c2|;
      assert c1 == k[8..8 + |c1|] == c2;
    }
  }

  /** The record types differ 25 characters from the end, where a trap key
      has the 'i' of "io." and a gateway key the 'a' of "share". */
  lemma TrapKeyIsNotGatewayKey(c1: string, c2: string)
    ensures ClusterKey(c1, Trap) != ClusterKey(c2, Gateway)
  {
    var p1, p2 := "cluster:" + c1 + ":", "cluster:" + c2 + ":";
    if |p1| + 25 == |p2| + 35 {
      assert (p1 + TrapRecType)[|p1|] == 'i';
      assert (p2 + GatewayRecType)[|p2| + 10] == 'a';
    }
  }

  // ---------------------------------------------------------------------
  // Answers of the store

  /** `_make_request` once the store has answered: 401 raises an
      AuthenticationError, any other status from 400 up raises a
      MicroshareAPIError carrying that status, and the rest is returned. */
  function Checked(status: int): (e: Option<ClientError>)
    ensures e.None? <==> status < 400
    ensures e.Some? ==> e.value.ApiError? && e.value.statusCode == status && Consistent(e.value)
    ensures e.Some? ==> (e.value.kind == Authentication <==> status == 401)
  {
    if status == 401 then Some(AuthenticationError("Access token expired or invalid"))
    else if status >= 400 then Some(MicroshareApiError("API request failed: " + IntToString(status), status))
    else None
  }

  /** A PUT answer seen as an answer without documents. */
  function AsResponse(reply: Reply): Response {
    match reply
    case Reply(code) => Response(code, [])
    case PutRaised(e) => Raised(e)
  }

  /** Python's truth value of an optional string: present and non-empty. */
  predicate Truthy(s: Option<string>) {
    s.Some? && s.value != ""
  }

  const NoSession: string := "Client session not initialized"

  // ---------------------------------------------------------------------
  // The edits of a fetched document

  /** `add_device_to_cluster`'s edit: `data` and `data.devices` are created
      when missing, then the device goes last. */
  function WithAdded(doc: ClusterDoc, device: Device): (r: ClusterDoc)
    ensures HasDeviceList(r) && DevicesOf(r) == DevicesOf(doc) + [device]
    ensures r.id == doc.id && r.recType == doc.recType && r.name == doc.name
  {
    doc.(data := Some(ClusterData(Some(DevicesOf(doc) + [device]))))
  }

  /** `[d for d in devices if d.get('id') != device_id]`. */
  function Without(ds: seq<Device>, id: string): (r: seq<Device>)
    ensures |r| <= |ds|
  {
    if ds == [] then []
    else
      var last := ds[|ds| - 1];
      Without(ds[..|ds| - 1], id) + (if KeyIs(last, "id", id) then [] else [last])
  }

  /** Filtering a concatenation filters each part, so the kept devices keep
      their order. */
  lemma {:induction false} WithoutAppend(a: seq<Device>, b: seq<Device>, id: string)
    ensures Without(a + b, id) == Without(a, id) + Without(b, id)
    decreases |b|
  {
    if b == [] {
      assert a + b == a;
    } else {
      var b' := b[..|b| - 1];
      assert (a + b)[..|a + b| - 1] == a + b';
      assert (a + b)[|a + b| - 1] == b[|b| - 1];
      WithoutAppend(a, b', id);
    }
  }

  /** Exactly the devices carrying the id are gone: none of them is kept,
      every other device is, and the length is unchanged exactly when no
      device carries the id. */
  lemma {:induction false} WithoutDropsExactlyMatches(ds: seq<Device>, id: string)
    ensures forall d :: d in Without(ds, id) ==> d in ds && !KeyIs(d, "id", id)
    ensures forall d :: d in ds && !KeyIs(d, "id", id) ==> d in Without(ds, id)
    ensures |Without(ds, id)| == |ds| <==> FirstMatch(ds, "id", id) < 0
  {
    if ds != [] {
      var init := ds[..|ds| - 1];
      var last := ds[|ds| - 1];
      WithoutDropsExactlyMatches(init, id);
      assert ds == init + [last];
      forall d | d in ds && !KeyIs(d, "id", id) ensures d in Without(ds, id) {
        if d != last {
          assert d in init;
        }
      }
      if FirstMatch(init, "id", id) >= 0 {
        assert KeyIs(ds[FirstMatch(init, "id", id)], "id", id);
      }
      if KeyIs(last, "id", id) {
        assert FirstMatch(ds, "id", id) >= 0;
      } else if FirstMatch(init, "id", id) < 0 {
        assert forall j :: 0 <= j < |ds| ==> !KeyIs(ds[j], "id", id) by {
          forall j | 0 <= j < |ds| ensures !KeyIs(ds[j], "id", id) {
            if j < |init| {
              assert ds[j] == init[j];
            }
          }
        }
      }
    }
  }

  /** `update_device_in_cluster`'s edit of the matching device: `location`
      goes into `meta` when the device has one; every other key, `status`
      included, becomes a top-level member. */
  function Updated(d: Device, updates: Fields): (r: Device)
    ensures "location" in updates && d.meta.Some? ==>
      r.meta.Some? && "location" in r.meta.value && r.meta.value["location"] == updates["location"]
      && forall k :: k in d.meta.value && k != "location" ==> k in r.meta.value && r.meta.value[k] == d.meta.value[k]
    ensures !("location" in updates && d.meta.Some?) ==> r.meta == d.meta
    ensures forall k :: k in updates && !(k == "location" && d.meta.Some?) ==> k in r.fields && r.fields[k] == updates[k]
    ensures forall k :: k in d.fields && k !in updates ==> k in r.fields && r.fields[k] == d.fields[k]
    ensures forall k :: k in r.fields ==> k in d.fields || k in updates
  {
    if "location" in updates && d.meta.Some? then
      Device(d.fields + (updates - {"location"}), Some(d.meta.value["location" := updates["location"]]))
    else
      Device(d.fields + updates, d.meta)
  }

  /** Applying the same updates twice changes nothing more. */
  lemma UpdatedIdempotent(d: Device, updates: Fields)
    ensures Updated(Updated(d, updates), updates) == Updated(d, updates)
  {
    var once := Updated(d, updates);
    var twice := Updated(once, updates);
    assert twice.fields == once.fields;
    if "location" in updates && d.meta.Some? {
      assert twice.meta.value == once.meta.value;
    }
  }

  /** The document after the update: only the first device whose `id`
      matches is edited; None when no device matches. */
  function UpdatedDoc(doc: ClusterDoc, deviceId: string, updates: Fields): (r: Option<ClusterDoc>)
    ensures r.None? <==> FirstMatch(DevicesOf(doc), "id", deviceId) < 0
  {
    var ds := DevicesOf(doc);
    var i := FirstMatch(ds, "id", deviceId);
    if i < 0 then None else Some(WithDevices(doc, ds[i := Updated(ds[i], updates)]))
  }

  /** The edited document holds the same devices except the first match,
      which is the updated one; the others, earlier matches excluded, are
      untouched. */
  lemma UpdateTouchesOnlyFirstMatch(doc: ClusterDoc, deviceId: string, updates: Fields)
    requires UpdatedDoc(doc, deviceId, updates).Some?
    ensures var ds := DevicesOf(doc);
      var i := FirstMatch(ds, "id", deviceId);
      var ds' := DevicesOf(UpdatedDoc(doc, deviceId, updates).value);
      && |ds'| == |ds|
      && ds'[i] == Updated(ds[i], updates)
      && (forall j :: 0 <= j < |ds| && j != i ==> ds'[j] == ds[j])
      && (forall j :: 0 <= j < i ==> !KeyIs(ds'[j], "id", deviceId))
  {
  }

  /** The message of the error an unmatched update or remove raises. */
  function NotFoundMessage(deviceId: string, clusterId: string): string {
    "Device " + deviceId + " not found in cluster " + clusterId
  }

  class MicroshareDeviceClient {
    /** Whether `__aenter__` has opened the HTTP session. */
    var sessionOpen: bool
    /** `_token`. */
    var token: Option<string>
    /** The module-level `cluster_cache`, shared by every client. */
    const cache: SimpleCache<seq<ClusterDoc>>

    constructor(cache: SimpleCache<seq<ClusterDoc>>)
      ensures !sessionOpen && token.None? && this.cache == cache
    {
      sessionOpen := false;
      token := None;
      this.cache := cache;
    }

    /** `__aenter__`. */
    method Enter()
      modifies this
      ensures sessionOpen && token == old(token)
    {
      sessionOpen := true;
    }

    /** `authenticate`, given the token the auth server answered with or the
      text of the HTTP error it raised. */
    method Authenticate(answer: Result<string>) returns (r: Outcome<string>)
      modifies this
      ensures !old(sessionOpen) ==> r == Crash("Client session not initialized. Use async context manager.") && token == old(token)
      ensures old(sessionOpen) && answer.Ok? ==> r == Success(answer.value) && token == Some(answer.value)
      ensures old(sessionOpen) && answer.Err? ==>
        r == Failure(AuthenticationError("Authentication failed: " + answer.message)) && token == old(token)
      ensures sessionOpen == old(sessionOpen)
    {
      if !sessionOpen {
        return Crash("Client session not initialized. Use async context manager.");
      }
      if answer.Err? {
        return Failure(AuthenticationError("Authentication failed: " + answer.message));
      }
      token := Some(answer.value);
      r := Success(answer.value);
    }

    /** `_make_request`: no session is a RuntimeError, no token an
      AuthenticationError (both before anything is sent); a transport error
      becomes a MicroshareAPIError with status 500; an answer is classified
      by `Checked`. On success, the answer's documents. */
    function Request(resp: Response): (r: Outcome<seq<ClusterDoc>>)
      reads this
      ensures !sessionOpen ==> r == Crash(NoSession)
      ensures sessionOpen && !Truthy(token) ==> r == Failure(AuthenticationError("No access token available"))
      ensures r.Success? ==> sessionOpen && Truthy(token) && resp.Response? && resp.status < 400 && r.value == resp.objs
      ensures sessionOpen && Truthy(token) && resp.Response? ==>
        (r.Success? <==> resp.status < 400) && (r.Failure? ==> r.error.ApiError? && r.error.statusCode == resp.status)
      ensures sessionOpen && Truthy(token) && resp.Raised? ==> r.Failure? && r.error.ApiError? && r.error.statusCode == 500
    {
      if !sessionOpen then Crash(NoSession)
      else if !Truthy(token) then Failure(AuthenticationError("No access token available"))
      else match resp
        case Raised(e) => Failure(MicroshareApiErrorDefault("HTTP request failed: " + e))
        case Response(status, objs) =>
          var e := Checked(status);
          if e.Some? then Failure(e.value) else Success(objs)
    }

    /** `get_specific_cluster` followed by `['objs'][0]`: an empty `objs`
      is an IndexError. */
    function FetchCluster(resp: Response): (r: Outcome<ClusterDoc>)
      reads this
      ensures r.Success? <==> Request(resp).Success? && |resp.objs| > 0
      ensures r.Success? ==> r.value == resp.objs[0]
      ensures Request(resp).Success? && resp.objs == [] ==> r == Crash("list index out of range")
      ensures !Request(resp).Success? ==> r == Propagated(Request(resp))
    {
      var got := Request(resp);
      if !got.Success? then Propagated(got)
      else if got.value == [] then Crash("list index out of range")
      else Success(got.value[0])
    }

    /** The PUT of an edited document: on an accepted answer, the document
      that was written. */
    function Written(doc: ClusterDoc, put: Reply): (r: Outcome<ClusterDoc>)
      reads this
      ensures r.Success? <==> Request(AsResponse(put)).Success?
      ensures r.Success? ==> r.value == doc
    {
      var sent := Request(AsResponse(put));
      if sent.Success? then Success(doc) else Propagated(sent)
    }

    /** `add_device_to_cluster`. */
    function AddDeviceToCluster(device: Device, fetched: Response, put: Reply): (r: Outcome<ClusterDoc>)
      reads this
      ensures !FetchCluster(fetched).Success? ==> r == Propagated(FetchCluster(fetched))
      ensures r.Success? ==>
        FetchCluster(fetched).Success? && r.value == WithAdded(FetchCluster(fetched).value, device)
      ensures FetchCluster(fetched).Success? ==> (r.Success? <==> Request(AsResponse(put)).Success?)
    {
      var f := FetchCluster(fetched);
      if !f.Success? then Propagated(f) else Written(WithAdded(f.value, device), put)
    }

    /** `remove_device_from_cluster`: a document without `data` is a
      KeyError; a list that loses nothing raises before the PUT. */
    function RemoveDeviceFromCluster(clusterId: string, deviceId: string, fetched: Response, put: Reply): (r: Outcome<ClusterDoc>)
      reads this
      ensures !FetchCluster(fetched).Success? ==> r == Propagated(FetchCluster(fetched))
      ensures var f := FetchCluster(fetched);
        f.Success? && f.value.data.Some? && FirstMatch(DevicesOf(f.value), "id", deviceId) < 0 ==>
          r == Failure(MicroshareApiErrorDefault(NotFoundMessage(deviceId, clusterId)))
      ensures r.Success? ==>
        && FetchCluster(fetched).Success?
        && FirstMatch(DevicesOf(FetchCluster(fetched).value), "id", deviceId) >= 0
        && HasDeviceList(r.value)
        && DevicesOf(r.value) == Without(DevicesOf(FetchCluster(fetched).value), deviceId)
    {
      var f := FetchCluster(fetched);
      if !f.Success? then Propagated(f)
      else if f.value.data.None? then Crash("'data'")
      else
        var ds := DevicesOf(f.value);
        var kept := Without(ds, deviceId);
        WithoutDropsExactlyMatches(ds, deviceId);
        if |kept| == |ds| then Failure(MicroshareApiErrorDefault(NotFoundMessage(deviceId, clusterId)))
        else Written(f.value.(data := Some(ClusterData(Some(kept)))), put)
    }

    /** `update_device_in_cluster`: the loop stops at the first device whose
      `id` matches; with no match it raises before the PUT. */
    method UpdateDeviceInCluster(clusterId: string, deviceId: string, updates: Fields, fetched: Response, put: Reply)
      returns (r: Outcome<ClusterDoc>)
      ensures !FetchCluster(fetched).Success? ==> r == Propagated(FetchCluster(fetched))
      ensures FetchCluster(fetched).Success? && UpdatedDoc(FetchCluster(fetched).value, deviceId, updates).None? ==>
        r == Failure(MicroshareApiErrorDefault(NotFoundMessage(deviceId, clusterId)))
      ensures FetchCluster(fetched).Success? && UpdatedDoc(FetchCluster(fetched).value, deviceId, updates).Some? ==>
        r == Written(UpdatedDoc(FetchCluster(fetched).value, deviceId, updates).value, put)
    {
      var f := FetchCluster(fetched);
      if !f.Success? {
        return Propagated(f);
      }
      var doc := f.value;
      var devices := DevicesOf(doc);
      ghost var first := FirstMatch(devices, "id", deviceId);
      var i := 0;
      while i < |devices|
        invariant 0 <= i <= |devices|
        invariant first < 0 || first >= i
      {
        if KeyIs(devices[i], "id", deviceId) {
          assert i == first;
          var edited := WithDevices(doc, devices[i := Updated(devices[i], updates)]);
          r := Written(edited, put);
          return;
        }
        i := i + 1;
      }
      r := Failure(MicroshareApiErrorDefault(NotFoundMessage(deviceId, clusterId)));
    }

    /** `invalidate_cluster_cache`: one cluster's key when both a non-empty
      cluster id and a device type are given, every key otherwise; the
      listing key goes in both cases. */
    method InvalidateClusterCache(clusterId: Option<string>, t: Option<DeviceType>)
      modifies cache
      ensures cache.entries == AfterInvalidate(old(cache.entries), clusterId, t)
    {
      if Truthy(clusterId) && t.Some? {
        cache.Delete(ClusterKey(clusterId.value, t.value));
      } else {
        cache.Clear();
      }
      cache.Delete(AllClustersKey());
    }

    /** `list_all_clusters_cached`: a live cached listing is returned as it
      is; otherwise the wildcard answer is requested and, when it is a
      success, stored under the listing key with the given TTL. */
    method ListAllClustersCached(wildcard: Response, now: int, ttl: int := 300) returns (r: Outcome<seq<ClusterDoc>>)
      modifies cache
      ensures var (after, hit) := GetResult(old(cache.entries), AllClustersKey(), now);
        && (hit.Some? ==> r == Success(hit.value) && cache.entries == after)
        && (hit.None? ==> r == Request(wildcard))
        && (hit.None? && r.Success? ==> cache.entries == after[AllClustersKey() := CacheEntry(r.value, now, ttl)])
        && (hit.None? && !r.Success? ==> cache.entries == after)
    {
      var cached := cache.Get(AllClustersKey(), now);
      if cached.Some? {
        return Success(cached.value);
      }
      r := Request(wildcard);
      if r.Success? {
        cache.Set(AllClustersKey(), r.value, now, ttl);
      }
    }

    /** `add_device_to_cluster_cached`: invalidation follows only a
      successful add. */
    method AddDeviceToClusterCached(clusterId: string, t: DeviceType, device: Device, fetched: Response, put: Reply)
      returns (r: Outcome<ClusterDoc>)
      modifies cache
      ensures r == AddDeviceToCluster(device, fetched, put)
      ensures r.Success? ==> cache.entries == AfterInvalidate(old(cache.entries), Some(clusterId), Some(t))
      ensures !r.Success? ==> cache.entries == old(cache.entries)
    {
      r := AddDeviceToCluster(device, fetched, put);
      if r.Success? {
        InvalidateClusterCache(Some(clusterId), Some(t));
      }
    }

    /** `update_device_in_cluster_cached`. */
    method UpdateDeviceInClusterCached(
      clusterId: string, t: DeviceType, deviceId: string, updates: Fields, fetched: Response, put: Reply)
      returns (r: Outcome<ClusterDoc>)
      modifies cache
      ensures FetchCluster(fetched).Success? && UpdatedDoc(FetchCluster(fetched).value, deviceId, updates).Some? ==>
        r == Written(UpdatedDoc(FetchCluster(fetched).value, deviceId, updates).value, put)
      ensures !FetchCluster(fetched).Success? ==> r == Propagated(FetchCluster(fetched))
      ensures FetchCluster(fetched).Success? && UpdatedDoc(FetchCluster(fetched).value, deviceId, updates).None? ==>
        r == Failure(MicroshareApiErrorDefault(NotFoundMessage(deviceId, clusterId)))
      ensures r.Success? ==> cache.entries == AfterInvalidate(old(cache.entries), Some(clusterId), Some(t))
      ensures !r.Success? ==> cache.entries == old(cache.entries)
    {
      r := UpdateDeviceInCluster(clusterId, deviceId, updates, fetched, put);
      if r.Success? {
        InvalidateClusterCache(Some(clusterId), Some(t));
      }
    }

    /** `remove_device_from_cluster_cached`. */
    method RemoveDeviceFromClusterCached(clusterId: string, t: DeviceType, deviceId: string, fetched: Response, put: Reply)
      returns (r: Outcome<ClusterDoc>)
      modifies cache
      ensures r == RemoveDeviceFromCluster(clusterId, deviceId, fetched, put)
      ensures r.Success? ==> cache.entries == AfterInvalidate(old(cache.entries), Some(clusterId), Some(t))
      ensures !r.Success? ==> cache.entries == old(cache.entries)
    {
      r := RemoveDeviceFromCluster(clusterId, deviceId, fetched, put);
      if r.Success? {
        InvalidateClusterCache(Some(clusterId), Some(t));
      }
    }
  }

  /** The cache after `invalidate_cluster_cache`. */
  function AfterInvalidate<V>(entries: map<string, CacheEntry<V>>, clusterId: Option<string>, t: Option<DeviceType>)
    : (r: map<string, CacheEntry<V>>)
    ensures AllClustersKey() !in r
    ensures r.Keys <= entries.Keys
    ensures Truthy(clusterId) && t.Some? ==> ClusterKey(clusterId.value, t.value) !in r
    ensures Truthy(clusterId) && t.Some? ==> forall k :: k in entries && k != ClusterKey(clusterId.value, t.value) && k != AllClustersKey() ==>
      k in r && r[k] == entries[k]
    ensures !(Truthy(clusterId) && t.Some?) ==> r == map[]
  {
    if Truthy(clusterId) && t.Some? then entries - {ClusterKey(clusterId.value, t.value)} - {AllClustersKey()}
    else map[]
  }

  /** Invalidating one cluster keeps every other cluster's cached document. */
  lemma OtherClustersSurvive<V>(entries: map<string, CacheEntry<V>>, c: string, t: DeviceType, c2: string, t2: DeviceType)
    requires c != "" && (c2 != c || t2 != t)
    requires ClusterKey(c2, t2) in entries
    ensures var r := AfterInvalidate(entries, Some(c), Some(t));
      ClusterKey(c2, t2) in r && r[ClusterKey(c2, t2)] == entries[ClusterKey(c2, t2)]
  {
    if ClusterKey(c2, t2) == ClusterKey(c, t) {
      ClusterKeyInjective(c2, t2, c, t);
    }
    ClusterKeyIsNotAllKey(c2, t2);
  }

  /** After any invalidation the next cached listing misses and asks the
      store again. */
  lemma ListingMissesAfterInvalidate<V>(entries: map<string, CacheEntry<V>>, clusterId: Option<string>, t: Option<DeviceType>, now: int)
    ensures GetResult(AfterInvalidate(entries, clusterId, t), AllClustersKey(), now).1.None?
  {
  }

  /** A device added to a document that did not hold its id is removed again
      by a remove of that id, which gives back the original list. */
  lemma AddThenRemoveRestores(doc: ClusterDoc, device: Device, id: string)
    requires KeyIs(device, "id", id)
    requires forall j :: 0 <= j < |DevicesOf(doc)| ==> !KeyIs(DevicesOf(doc)[j], "id", id)
    ensures Without(DevicesOf(WithAdded(doc, device)), id) == DevicesOf(doc)
  {
    var ds := DevicesOf(doc);
    WithoutAppend(ds, [device], id);
    assert Without([device], id) == [] by {
      assert [device][..0] == [];
    }
    WithoutKeepsAll(ds, id);
  }

  /** A list holding no device with the id is kept whole. */
  lemma {:induction false} WithoutKeepsAll(ds: seq<Device>, id: string)
    requires forall j :: 0 <= j < |ds| ==> !KeyIs(ds[j], "id", id)
    ensures Without(ds, id) == ds
  {
    if ds != [] {
      WithoutKeepsAll(ds[..|ds| - 1], id);
      assert ds == ds[..|ds| - 1] + [ds[|ds| - 1]];
    }
  }
}
