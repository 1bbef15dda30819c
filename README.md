# Cluster-mapping cache and surgical device-list edits, in Dafny

The Microshare/ERP integration keeps rodent traps and gateways in a remote
store that groups devices into clusters, one cluster document per record
type. Listing the clusters that exist takes one slow wildcard discovery call.
Reading or writing a known cluster takes one direct GET or PUT of the whole
document. So every create, update or delete of a device follows the same
steps:

1. choose the cluster from a cache;
2. read the document;
3. change its `devices` list in memory;
4. write the document back;
5. then patch the local cache surgically, or clear it.

This project models that layer and proves what it promises. It covers:

- the TTL caches (`SimpleCache` of the client library, the discovery cache
  of the device operations, the class-level cluster cache of the fast CRUD
  manager, and `SmartCacheManager`);
- the choice of a target cluster;
- the in-document append, field merge and removal keyed by `guid`,
  `deviceId` or `id`, each kept distinct as in the program;
- the decoding of the positional location list;
- the fast reject of test-looking guids;
- the client's cache keys and invalidation;
- the cached device routes (filters, enrichment, find by id);
- the `DeviceType` enumeration and the exception classes;
- the ERP location parsing and reference matching;
- the device parser of the high-performance client;
- the six-field layout of the field mapper.

Network results are inputs: a `Response` (status and documents, or a raised
error) for a GET and a `Reply` for a PUT. Time is an explicit `now`. Generated
uuids and timestamps are opaque string parameters.

Modules:

- **Building blocks:**
  - `Wire`: the JSON shapes of devices and cluster documents;
  - `Dicts`: insertion-ordered dictionaries;
  - `Strings`: Python's `lower`, `strip`, `in`, `split` and `join`.
- **Caches:**
  - `TtlCache`: src/microshare_client/cache.py and its copy;
  - `OpsCache`: the cache of api/devices/operations.py;
  - `SmartCache`: api/devices/enhanced_cache_manager.py.
- **Device layer:**
  - `Operations`: api/devices/operations.py;
  - `Crud`: api/devices/crud.py;
  - `Routes`: api/devices/routes.py;
  - `DeviceClient`: api/devices/client.py.
- **Client library:**
  - `MicroshareClient`: src/microshare_client/client.py;
  - `DeviceCrud`: services/integration-api/routes/device_crud.py;
  - `Enums` and `Errors`: enums.py and exceptions.py.
- **ERP side:**
  - `Erp`: erp_discovery.py and erp_sync.py;
  - `FieldMapping`: field_mapping.py.

Some modules have second copies:

- services/integration-api/src/microshare_client/cache.py, exceptions.py and
  services/integration-api/src/erp_adapter/field_mapping.py are line-for-line
  copies of the files under src/. The table cites the src/ copies.
- `parse_erp_location` and `find_matching_microshare_device` in
  services/integration-api/routes/erp_sync.py (lines 75-118) behave exactly
  like those in erp_discovery.py. The only difference is an unused
  `description` local. The table cites erp_discovery.py.

Code that mutates state is modelled as classes with `modifies` clauses:
`SmartCacheManager`, `SimpleCache`, `ExpiringCache`, `FastCrudManager`,
`OptimizedDeviceClient` and `MicroshareDeviceClient`. Each loop is a method
proved against a recursive specification function. Pure code is modelled as
functions with lemmas.

## Model

| member | source | states |
|---|---|---|
| SmartCache.SmartCacheManager.constructor | api/devices/enhanced_cache_manager.py:31-42 | both caches start empty with TTLs 60 and 300 |
| SmartCache.SmartCacheManager.IsDiscoveryCacheValid | api/devices/enhanced_cache_manager.py:44-48 | valid iff the cluster map is non-empty and `now - timestamp < 60` |
| SmartCache.SmartCacheManager.UpdateDiscoveryCache | api/devices/enhanced_cache_manager.py:50-53 | stores the map and restamps it; the document cache is unchanged |
| SmartCache.SmartCacheManager.GetDiscoveryCache | api/devices/enhanced_cache_manager.py:55-67 | a hit exactly when the cache is valid, with the stored map and its age |
| SmartCache.Merged | api/devices/enhanced_cache_manager.py:89-104 | keys of the given `meta` are merged into the device's meta, other given keys overwrite, unmentioned keys are kept, `lastModified` is the stamp |
| SmartCache.AfterUpdate | api/devices/enhanced_cache_manager.py:69-110 | true iff the cluster is cached and holds the `deviceId`; then only the first match changes (to `Merged`) and only that cluster's entry and timestamp; otherwise nothing changes |
| SmartCache.SmartCacheManager.UpdateDeviceInCache | api/devices/enhanced_cache_manager.py:69-110 | the state and result are exactly `AfterUpdate`; the discovery cache is untouched |
| SmartCache.AfterAdd | api/devices/enhanced_cache_manager.py:112-131 | on a cached cluster the device is appended at the end and only that cluster is restamped; an uncached cluster gives false and no change |
| SmartCache.SmartCacheManager.AddDeviceToCache | api/devices/enhanced_cache_manager.py:112-131 | the state and result are exactly `AfterAdd` |
| SmartCache.AfterRemove | api/devices/enhanced_cache_manager.py:133-154 | removes and returns the first device with the `deviceId`, the rest kept in order; no match gives None and no change |
| SmartCache.SmartCacheManager.RemoveDeviceFromCache | api/devices/enhanced_cache_manager.py:133-154 | the state and result are exactly `AfterRemove` |
| SmartCache.RemoveKeepsTheRest | api/devices/enhanced_cache_manager.py:145-150 | a removal loses exactly the removed device (multiset equation) |
| SmartCache.AddThenRemoveRestores | api/devices/enhanced_cache_manager.py:112-154 | removing a device just added under a fresh `deviceId` returns that device and restores the list |
| SmartCache.SmartCacheManager.CacheClusterData | api/devices/enhanced_cache_manager.py:156-160 | stores the document and stamps only that cluster |
| SmartCache.SmartCacheManager.GetCachedClusterData | api/devices/enhanced_cache_manager.py:162-177 | data iff the cluster is cached and `now - last_update < 300`, a missing timestamp counting as 0 |
| SmartCache.TargetRecType | api/devices/enhanced_cache_manager.py:187-192 | the trap type iff 'rodent_sensor', the gateway type for 'gateway', none otherwise |
| SmartCache.FirstWithRecType | api/devices/enhanced_cache_manager.py:194-199 | the first map entry with that rec_type, none before it |
| SmartCache.ClusterForDeviceType | api/devices/enhanced_cache_manager.py:179-201 | None when discovery is invalid or the type is unknown; otherwise the first cluster whose rec_type matches |
| SmartCache.SmartCacheManager.GetClusterForDeviceType | api/devices/enhanced_cache_manager.py:179-201 | returns `ClusterForDeviceType` of the current state |
| SmartCache.Invalidated | api/devices/enhanced_cache_manager.py:203-208 | only that cluster's document and timestamp go; every other entry is kept |
| SmartCache.SmartCacheManager.InvalidateClusterCache | api/devices/enhanced_cache_manager.py:203-208 | the document cache becomes `Invalidated`; the discovery cache is unchanged |
| SmartCache.SmartCacheManager.ClearAllCache | api/devices/enhanced_cache_manager.py:210-225 | both caches are reset to empty with TTLs 60 and 300 |
| SmartCache.StatusOf | api/devices/enhanced_cache_manager.py:227-260 | reports discovery validity as `age < ttl`, counts, per-cluster ages, validity and device counts, and the performance tier |
| SmartCache.SmartCacheManager.GetCacheStatus | api/devices/enhanced_cache_manager.py:227-260 | the status of the current state, with TTLs 60 and 300 |
| SmartCache.StatusDisagreesOnEmptyMap | api/devices/enhanced_cache_manager.py:44-48 | a fresh empty map is reported valid by the status but is not valid for lookups |
| SmartCache.AfterOperation | api/devices/enhanced_cache_manager.py:262-283 | CREATE with data adds; UPDATE with id and data updates; DELETE with id removes (success iff a device was removed); any call that none of the three guards admits, including CREATE without data, UPDATE without id or data and DELETE without id, invalidates the cluster and succeeds |
| SmartCache.SmartCacheManager.UpdateAfterOperation | api/devices/enhanced_cache_manager.py:262-283 | the state and result are exactly `AfterOperation` |
| SmartCache.UpdateCacheAfterCreate | api/devices/enhanced_cache_manager.py:289-291 | the CREATE dispatch on a given manager |
| SmartCache.UpdateCacheAfterUpdate | api/devices/enhanced_cache_manager.py:293-295 | the UPDATE dispatch with three arguments |
| SmartCache.UpdateCacheAfterDelete | api/devices/enhanced_cache_manager.py:297-299 | the DELETE dispatch |
| OpsCache.ExpiringCache.constructor | api/devices/operations.py:64-66 | empty, with the given TTL (default 300) |
| OpsCache.ExpiringCache.Get | api/devices/operations.py:68-74 | returns the value iff it is stored and `now - timestamp < ttl`; a stale entry is deleted on read |
| OpsCache.ExpiringCache.Set | api/devices/operations.py:76-77 | overwrites and restamps |
| OpsCache.ExpiringCache.Clear | api/devices/operations.py:79-80 | empties the cache |
| OpsCache.CountFresh | api/devices/operations.py:82-100 | the count is all the entries iff all are fresh, and zero iff none is |
| OpsCache.ExpiringCache.GetStats | api/devices/operations.py:82-100 | the valid and expired counts add up to the number of entries; valid is the fresh count |
| OpsCache.SetThenGetFresh | api/devices/operations.py:68-77 | a value set at `t` is the stored entry for its key and is fresh exactly while `now < t + ttl`; every other key reads as before |
| OpsCache.BoundaryDiffers | api/devices/operations.py:71 | at age exactly `ttl` this cache misses while the client library's cache still hits |
| Operations.DiscoveryKey | api/devices/operations.py:128 | the key is 'discovery:', the API base, ':' and a prefix of the token of length min(16, len(token)) |
| Operations.DiscoveryKeySharedByPrefix | api/devices/operations.py:128 | two tokens with the same 16-character prefix share the cached discovery |
| Operations.DeviceTypeOf | api/devices/operations.py:167-173 | 'rodent_sensor' iff the trap type, 'gateway' iff the gateway type, otherwise 'unknown' |
| Operations.InfoOf | api/devices/operations.py:160-181 | the entry carries the id, name (default 'Unknown'), rec_type, device type and device count |
| Operations.ClusterMapOf | api/devices/operations.py:156-182 | the map has distinct keys and no more entries than clusters |
| Operations.ClusterMapCoversIds | api/devices/operations.py:175 | every discovered cluster has an entry under its `_id` |
| Operations.ClusterMapKeysMatchIds | api/devices/operations.py:175-176 | every entry is keyed by its own cluster id |
| Operations.LastClusterWins | api/devices/operations.py:175 | a later cluster with the same id overwrites the earlier entry |
| Operations.ClusterMapInOrder | api/devices/operations.py:156-182 | with distinct ids the map holds each cluster at its own position |
| Operations.BuildClusterMap | api/devices/operations.py:156-182 | the loop returns `ClusterMapOf` and the summed device counts |
| Operations.FreshSnapshot | api/devices/operations.py:131-133 | a snapshot iff one is stored under the key and younger than the TTL; it is the stored one |
| Operations.DiscoveryOf | api/devices/operations.py:124-209 | a cache hit iff a fresh snapshot is stored, with its map and counts; otherwise discovered iff the wildcard answered 200, with `ClusterMapOf` and the summed device counts; the HTTP and exception failure texts |
| Operations.EntriesAfterDiscovery | api/devices/operations.py:124-209 | keys stay distinct; a hit changes nothing; a fresh 200 stores the new snapshot stamped `now`; a failure leaves no entry under the key; other keys are untouched |
| Operations.WildcardDiscoveryWithCache | api/devices/operations.py:124-209 | the result is `DiscoveryOf` the cache before the call and the cache after it is `EntriesAfterDiscovery` |
| Operations.Decode | api/devices/operations.py:244-278 | gateways are ERP-ready iff the location has at least 4 entries (placement 'Infrastructure'), other devices iff at least 6 (defaults 'Internal'/'Bait/Lured'); missing positions 0-3 are '' |
| Operations.DecodeAll | api/devices/operations.py:244-278 | one output per device |
| Operations.DecodeAllPointwise | api/devices/operations.py:244-278 | output i is the decoding of device i: order kept, nothing dropped |
| Operations.DecodeDevices | api/devices/operations.py:244-278 | the loop yields `DecodeAll` and the count of ERP-ready devices |
| Operations.CountReady | api/devices/operations.py:244-278 | the ERP-ready count never exceeds the number of devices |
| Operations.DecodeStep | api/devices/operations.py:244-278 | one more loop step decodes one more device and adds one to the count iff it is ERP-ready |
| Operations.ClusterDevicesOf | api/devices/operations.py:212-302 | fetched iff the GET answered 200 with documents; otherwise the HTTP, empty-response or exception failure |
| Operations.GetClusterDevices | api/devices/operations.py:212-302 | returns `ClusterDevicesOf` |
| Operations.CreatedGuidIsNotTest | api/devices/operations.py:391-398 | a guid the create path hands out ('erp-device-' + uuid) passes the fast reject |
| Operations.TestGuidIgnoresCase | api/devices/operations.py:396-397 | two guids equal up to case are rejected alike, and a guid is rejected iff its lower-cased form is |
| Operations.NoOccurrenceOfForeignChar | api/devices/operations.py:396-397 | a marker word holding a character a generated guid never has cannot occur in such a guid |
| Operations.FirstGuid | api/devices/operations.py:426-428 | the first decoded device with the guid, none before it |
| Operations.SearchOne | api/devices/operations.py:419-437 | a hit iff the cluster's GET succeeded and a device has the guid; the hit is the first such device |
| Operations.SearchCluster | api/devices/operations.py:419-437 | the loop returns `SearchOne` |
| Operations.FirstHit | api/devices/operations.py:445-461 | the first cluster in map order whose search hits, none before it |
| Operations.SearchClusters | api/devices/operations.py:439-461 | not found iff no cluster hits; otherwise the first hit in map order |
| Operations.FindResult | api/devices/operations.py:377-469 | a test-looking guid is rejected before discovery; a failed discovery is 'Discovery failed: …'; otherwise found iff some cluster hits (`FirstHit`), the hit being that cluster's `SearchOne`, carrying the guid; else the not-found error |
| Operations.EntriesAfterFind | api/devices/operations.py:377-469 | keys stay distinct; a test-looking guid leaves the cache unchanged |
| Operations.FindDeviceByGuid | api/devices/operations.py:377-469 | the result is `FindResult` of the cache before the call; the cache after it is unchanged for a test-looking guid and `EntriesAfterDiscovery` otherwise |
| Operations.StartLocation | api/devices/operations.py:500 | the device's own location when it has one |
| Operations.SetAt | api/devices/operations.py:502-508 | an assignment past the end is the IndexError; otherwise it writes that position only |
| Operations.WithLocation | api/devices/operations.py:509-512 | stores the location under `meta`, keeping the other meta keys |
| Operations.Relocated | api/devices/operations.py:498-512 | fails exactly when a named identifying entry lies past the end; otherwise only the location changes |
| Operations.Identified | api/devices/operations.py:498-508 | writes positions 0-3 from customer, site, area and erp_reference |
| Operations.Placed | api/devices/operations.py:514-518 | placement and configuration are written only when the location is longer than 4 or 5; nothing else changes |
| Operations.EditByGuid | api/devices/operations.py:496-524 | the location becomes the expected one, status is set only if given, `lastModified` is stamped, and other keys are kept |
| Operations.EditedLocation | api/devices/operations.py:498-518 | the two location steps compose to the expected location |
| Operations.EditKeepsGuid | api/devices/operations.py:496-524 | the edit keeps the guid it searched by |
| Operations.UpdatedList | api/devices/operations.py:496-534 | only the first device with the guid changes; no match is the 'Failed to locate' failure |
| Operations.UpdateInList | api/devices/operations.py:496-534 | the loop returns `UpdatedList` |
| Operations.UpdateDeviceByGuid | api/devices/operations.py:471-565 | the PUT writes the found document with its list replaced by `UpdatedList`; success iff that edit succeeds and the PUT is accepted, answering the edited device (with the guid and stamp) and the cluster id and clearing the cache; a failed find or edit writes nothing; refusals give the HTTP or exception text and leave the cache as the find left it |
| Operations.RemoveFromList | api/devices/operations.py:592-595 | pops the first device with the guid and keeps the rest in order |
| Operations.DeleteDeviceByGuid | api/devices/operations.py:567-633 | the PUT writes the found document with the first device with the guid removed (`RemoveAt` at `FirstMatch`); success iff the PUT is accepted, answering the removed device and the cluster id and clearing the cache; otherwise the cache is as the find left it |
| Operations.LocationArray | api/devices/operations.py:640-658 | a gateway gets four entries, any other type those four plus placement and configuration |
| Operations.CreateRecType | api/devices/operations.py:640-658 | the gateway type iff 'gateway', else the trap type |
| Operations.NewDevice | api/devices/operations.py:697-704 | carries the id, status, location array and a guid starting 'erp-device-' |
| Operations.CreatedDeviceDecodes | api/devices/operations.py:697-704 | a created device lists back with its own four identifying fields, ERP-ready |
| Operations.FirstOfRecType | api/devices/operations.py:672-676 | the first map entry of the record type |
| Operations.CreateDevice | api/devices/operations.py:635-734 | the target is the first cluster of the record type in the discovered map (`FirstOfRecType`); the PUT writes its fetched list plus the new device at the end; success iff the PUT is accepted, answering the new device and that cluster's id and clearing the cache; discovery, no-cluster, fetch and PUT failures give their texts and leave the cache as discovery left it |
| Crud.TargetRecTypeFor | api/devices/crud.py:83-84 | the trap type iff device_type is absent or 'rodent_sensor', the gateway type otherwise |
| Crud.FastCrudManager.constructor | api/devices/crud.py:49-53 | empty map, timestamp 0, TTL 60 |
| Crud.TargetFrom | api/devices/crud.py:69-127 | the chosen cluster has the target record type; found iff the cache or the discovered map has one; a cache hit comes from the cache, otherwise from the discovered map |
| Crud.FastCrudManager.GetTargetCluster | api/devices/crud.py:69-127 | a non-empty cache answers with its first matching cluster, ignoring age; otherwise the discovery result replaces the cache; no match gives 'No suitable cluster found' |
| Crud.DirectClusterGet | api/devices/crud.py:130-163 | succeeds iff 200 with non-empty `objs`, giving `objs[0]`; the failure texts |
| Crud.DirectClusterPut | api/devices/crud.py:166-188 | true iff the status is 200 or 201 |
| Crud.NewFastDevice | api/devices/crud.py:234-249 | a four-entry location, placement and configuration as `meta` keys, `deviceId` from `device_id` |
| Crud.FastUpdateKeepsPlacement | api/devices/crud.py:331-349 | an update of identifying entries only keeps the stored placement |
| Crud.FastCrudManager.CreateDeviceFast | api/devices/crud.py:191-279 | the target is `TargetFrom` the cache before the call, and the cache is refilled exactly as `get_target_cluster_from_cache` does; the PUT writes the target's fetched document with the new device appended; success iff the PUT is accepted, answering the new device and the target's id; each failure has its text |
| Crud.EditFast | api/devices/crud.py:328-351 | location entries 0-3 as in the guid update; placement and configuration as meta keys; a device without meta fails on those; `lastModified` stamped |
| Crud.FirstStop | api/devices/crud.py:313-329 | the first cluster in map order whose GET succeeds and holds the `deviceId` |
| Crud.FindDevice | api/devices/crud.py:328-329 | the loop finds the first device with the `deviceId` |
| Crud.StopsHere | api/devices/crud.py:318-328 | the scan stops at a cluster iff its GET succeeds and its document lacks the device list or holds the `deviceId` |
| Crud.ScanClusters | api/devices/crud.py:313-329 | the outer loop stops at `FirstStop` |
| Crud.FastCrudManager.EnsureClusters | api/devices/crud.py:295-310 | discovery runs only when the map is empty; success stores the map and time; failure leaves the cache unchanged |
| Crud.FastCrudManager.UpdateDeviceFast | api/devices/crud.py:282-386 | an empty cache is refilled from a successful discovery and stamped `now` (a failed one leaves it), a non-empty one is kept, and the scan runs over that map; in the first cluster where the scan stops, a readable list whose first matching device edits without error is always written with that device replaced by its edit; success iff the PUT is accepted, answering the edited device and that cluster's id; not found, a missing list, an edit error and a refused PUT each have their text |
| Crud.FastCrudManager.DeleteDeviceFast | api/devices/crud.py:389-482 | an empty cache is refilled from a successful discovery and stamped `now` (a failed one leaves it), a non-empty one is kept, and the scan runs over that map; in the first cluster where the scan stops, a readable list is always written with its first matching device removed; success iff the PUT is accepted, answering the removed device and that cluster's id; not found gives 'Device … not found in any cached cluster'; a refused PUT is a failure |
| Crud.NotFoundMessages | api/devices/crud.py:377-468 | both not-found texts contain 'not found' |
| Crud.FastCrudManager.ClearClusterCache | api/devices/crud.py:485-491 | empty map, timestamp 0, TTL 60 |
| Routes.GetAuthData | api/devices/routes.py:41-50 | missing auth raises 401; api_base defaults to 'https://dapi.microshare.io' and the token to '' |
| Routes.Gathered | api/devices/routes.py:71-83 | the ERP-ready count never exceeds the number of devices |
| Routes.CollectDevices | api/devices/routes.py:71-83 | the loop returns `Gathered`: each fetched cluster's devices in map order |
| Routes.ClustersInfo | api/devices/routes.py:101 | one count per map key, the number of listed devices carrying that id |
| Routes.ListingOf | api/devices/routes.py:97-113 | `total_count` is the number of devices; `clusters_discovered` is the map size |
| Routes.BackfilledType | api/devices/routes.py:88-95 | a missing type is 'gateway' iff the cluster name contains 'gateway' in any case, else 'rodent_sensor' |
| Routes.BackfillIgnoresCase | api/devices/routes.py:91-92 | the back-fill does not depend on the case of the name |
| Routes.ReadyCountMatches | api/devices/routes.py:81-83 | the ERP-ready count is the number of ready devices listed |
| Routes.GatheredFromMap | api/devices/routes.py:71-83 | every listed device names a cluster of the map |
| Routes.ListingCountsAddUp | api/devices/routes.py:97-101 | for a map keyed by id the per-cluster counts add up to `total_count` |
| Routes.DiscoveredListingCountsAddUp | api/devices/routes.py:118-146 | the same for the map a discovery builds |
| Routes.GatheredStep | api/devices/routes.py:71-83 | one more cluster adds its fetched devices, or nothing when its fetch failed |
| Routes.FetchedCarryClusterId | api/devices/routes.py:71-83 | every device a fetch lists carries the cluster's own id |
| Routes.KeyedIdsAreKeys | api/devices/routes.py:101 | in a map keyed by id the set of cluster ids is the key set |
| Routes.SumCountsAddOne | api/devices/routes.py:101 | one more listed device adds the number of map entries with its cluster id to the count sum |
| Routes.CountsCoverDevices | api/devices/routes.py:97-101 | when every device names a key of a map with distinct keys, the per-cluster counts sum to the number of devices |
| Routes.NotFoundAbsent | api/devices/routes.py:399 | a text with no 'n' where 'not found' could start is not taken for a not-found |
| Routes.OptimizedGetDevices | api/devices/routes.py:57-168 | a non-empty cache is listed whatever its age; an empty cache is filled by a successful discovery; a failed discovery gives an empty failure |
| Routes.CatchAll | api/devices/routes.py:346-419 | the catch-all raises 500 with the prefix and message |
| Routes.DeleteFailure | api/devices/routes.py:396-412 | a failure whose text contains 'not found' in any case is success; any other failure raises 404 |
| Routes.DeleteFailureAsWritten | api/devices/routes.py:396-419 | the same answers, but the 404 is caught and re-raised as 500 |
| Routes.DeleteFailureAsWrittenHides404 | api/devices/routes.py:408-419 | every failure that is not a not-found reaches the client as 500, not 404 |
| Routes.RefusedDeletePutIs500 | api/devices/routes.py:408-419 | a refused PUT after deletion gives 500 |
| Routes.UpdateReplyAsWritten | api/devices/routes.py:317-347 | a successful update with a cluster and device raises 500 (the two-argument cache call) |
| Routes.UpdateReply | api/devices/routes.py:317-344 | corrected: success answers with the device and cache outcome; failure raises 404 |
| Routes.SuccessfulUpdateReportedAsFailure | api/devices/routes.py:322 | every accepted update with a cluster id and a non-empty device is reported as 500 as written, and answered by the corrected reply |
| Routes.AcceptedUpdateIs500 | api/devices/routes.py:322 | a concrete accepted update that the handler reports as 500 |
| Routes.DeleteDeviceOptimized | api/devices/routes.py:350-419 | missing auth is 401; a fast delete's outcome is answered as `DeleteAnswered` states, with the cache patched only after success |
| Routes.DeleteAuthorized | api/devices/routes.py:362-412 | the part after authentication answers as `DeleteAnswered` |
| Routes.PatchAfterDelete | api/devices/routes.py:375-394 | with a cluster id the cached cluster loses the device (DELETE dispatch); without one nothing is patched |
| Routes.UpdateDeviceOptimized | api/devices/routes.py:291-347 | missing auth is 401; a failure is 404; a success patches the cache with the UPDATE dispatch |
| TtlCache.ExpiryIsStrict | src/microshare_client/cache.py:15-17 | an entry aged exactly `ttl` is live; one second older it is expired |
| TtlCache.GetResult | src/microshare_client/cache.py:23-29 | returns the data iff the entry exists and has not expired; an expired entry is removed on read |
| TtlCache.SimpleCache.Get | src/microshare_client/cache.py:23-29 | the state and result are exactly `GetResult` |
| TtlCache.SimpleCache.constructor | src/microshare_client/cache.py:20-21 | the cache starts empty |
| TtlCache.SimpleCache.Set | src/microshare_client/cache.py:31-32 | overwrites the key with a fresh timestamp and ttl |
| TtlCache.SetThenGet | src/microshare_client/cache.py:23-32 | a value set reads back until it expires |
| TtlCache.SetThenGetExpired | src/microshare_client/cache.py:23-32 | after expiry the read misses and deletes the entry |
| TtlCache.SimpleCache.Delete | src/microshare_client/cache.py:34-35 | removes only that key; an absent key is a no-op |
| TtlCache.SimpleCache.Clear | src/microshare_client/cache.py:37-38 | empties the cache |
| TtlCache.ExpiredKeys | src/microshare_client/cache.py:40-44 | exactly the keys whose entries are expired |
| TtlCache.Pruned | src/microshare_client/cache.py:40-44 | exactly the live entries, unchanged |
| TtlCache.SimpleCache.CleanupExpired | src/microshare_client/cache.py:40-44 | removes exactly the expired entries and returns their number |
| TtlCache.CleanupIsExact | src/microshare_client/cache.py:40-44 | no expired entry remains, no live one goes, and the counts add up |
| MicroshareClient.SortByName | src/microshare_client/client.py:39 | `sorted(kwargs.items())` is a permutation of the arguments |
| MicroshareClient.SortByNameSorted | src/microshare_client/client.py:39 | the result is sorted by name |
| MicroshareClient.SortedUnique | src/microshare_client/client.py:39 | two sorted permutations are equal |
| MicroshareClient.CacheKey | src/microshare_client/client.py:30-41 | no arguments give the empty key; the key starts with the first positional argument, followed by ':' when more parts come |
| MicroshareClient.KeyIgnoresKeywordOrder | src/microshare_client/client.py:30-42 | the key does not depend on the order of the keyword arguments |
| MicroshareClient.TypeArgIsItsValue | src/microshare_client/client.py:34-35 | a DeviceType argument gives the same key as its value |
| MicroshareClient.ClusterKey | src/microshare_client/client.py:207 | 'cluster:' + id + ':' + record type |
| MicroshareClient.AllClustersKey | src/microshare_client/client.py:214-219 | 'clusters:scope:all' |
| MicroshareClient.ClusterKeyIsNotAllKey | src/microshare_client/client.py:207-215 | no cluster key is the listing key |
| MicroshareClient.ClusterKeyInjective | src/microshare_client/client.py:207 | equal cluster keys mean the same cluster and type |
| MicroshareClient.Checked | src/microshare_client/client.py:96-104 | 401 is an AuthenticationError, any other status ≥ 400 a MicroshareAPIError carrying it, below 400 no error |
| MicroshareClient.MicroshareDeviceClient.constructor | src/microshare_client/client.py:15-20 | no session, no token, the shared cache |
| MicroshareClient.MicroshareDeviceClient.Enter | src/microshare_client/client.py:22-24 | opens the session and keeps the token |
| MicroshareClient.MicroshareDeviceClient.Authenticate | src/microshare_client/client.py:44-72 | no session is a RuntimeError; success stores the token; an HTTP error becomes AuthenticationError('Authentication failed: …') |
| MicroshareClient.MicroshareDeviceClient.Request | src/microshare_client/client.py:84-107 | no session is a RuntimeError; no token is AuthenticationError; an HTTP error is a 500 MicroshareAPIError; otherwise classified by `Checked` |
| MicroshareClient.MicroshareDeviceClient.FetchCluster | src/microshare_client/client.py:124-136 | the first document of a successful GET; empty `objs` is the IndexError; errors propagate |
| MicroshareClient.MicroshareDeviceClient.Written | src/microshare_client/client.py:146-149 | the PUT succeeds iff the request does |
| MicroshareClient.WithAdded | src/microshare_client/client.py:139-144 | creates a missing `data`/`devices`, then appends the device as the last element |
| MicroshareClient.MicroshareDeviceClient.AddDeviceToCluster | src/microshare_client/client.py:132-149 | the written document has the device appended; errors propagate |
| MicroshareClient.Without | src/microshare_client/client.py:192 | keeps no more devices than it was given |
| MicroshareClient.WithoutAppend | src/microshare_client/client.py:192 | the filter keeps the order of the devices it keeps |
| MicroshareClient.WithoutDropsExactlyMatches | src/microshare_client/client.py:192-195 | exactly the devices with the id are dropped; the length is unchanged iff none had it |
| MicroshareClient.WithoutKeepsAll | src/microshare_client/client.py:192-195 | a list without the id is kept whole |
| MicroshareClient.MicroshareDeviceClient.RemoveDeviceFromCluster | src/microshare_client/client.py:182-200 | every device with the id is removed; if none was, the not-found error is raised before any PUT; a document without `data` is a KeyError |
| MicroshareClient.AddThenRemoveRestores | src/microshare_client/client.py:139-192 | removing the id of a device just added restores the list |
| MicroshareClient.Updated | src/microshare_client/client.py:164-170 | 'location' replaces `meta.location` when meta exists; other keys overwrite top-level fields; unmentioned keys are kept |
| MicroshareClient.UpdatedIdempotent | src/microshare_client/client.py:164-170 | applying the same updates twice changes nothing more |
| MicroshareClient.UpdatedDoc | src/microshare_client/client.py:158-175 | none iff no device has the id |
| MicroshareClient.UpdateTouchesOnlyFirstMatch | src/microshare_client/client.py:161-172 | only the first device with the id changes |
| MicroshareClient.MicroshareDeviceClient.UpdateDeviceInCluster | src/microshare_client/client.py:151-180 | the loop edits the first match; no match raises the not-found error before any PUT |
| MicroshareClient.AfterInvalidate | src/microshare_client/client.py:204-215 | with a cluster id and type only that key goes, otherwise everything goes; the listing key always goes |
| MicroshareClient.MicroshareDeviceClient.InvalidateClusterCache | src/microshare_client/client.py:204-215 | the cache becomes `AfterInvalidate` |
| MicroshareClient.OtherClustersSurvive | src/microshare_client/client.py:206-208 | a targeted invalidation keeps every other cluster's entry |
| MicroshareClient.ListingMissesAfterInvalidate | src/microshare_client/client.py:214-224 | after any invalidation the next cached listing misses |
| MicroshareClient.MicroshareDeviceClient.ListAllClustersCached | src/microshare_client/client.py:217-231 | a hit returns the cached value with no request; a miss fetches and stores the result with the given ttl |
| MicroshareClient.MicroshareDeviceClient.AddDeviceToClusterCached | src/microshare_client/client.py:235-239 | invalidates only after the add succeeds; on an error the cache is untouched |
| MicroshareClient.MicroshareDeviceClient.UpdateDeviceInClusterCached | src/microshare_client/client.py:241-245 | the same for the update |
| MicroshareClient.MicroshareDeviceClient.RemoveDeviceFromClusterCached | src/microshare_client/client.py:247-251 | the same for the removal |
| DeviceCrud.Refused | services/integration-api/routes/device_crud.py:122-125 | a MicroshareAPIError keeps its status and message; anything else is a 500 naming the action |
| DeviceCrud.Slot | services/integration-api/routes/device_crud.py:101-106 | `location[i]` iff it exists, else None |
| DeviceCrud.EnrichedReadsLocation | services/integration-api/routes/device_crud.py:96-107 | customer..configuration are location[0..5] when present, None otherwise |
| DeviceCrud.ListingShown | services/integration-api/routes/device_crud.py:80-94 | soundness: every listed device passes the type, customer and site filters |
| DeviceCrud.ListingComplete | services/integration-api/routes/device_crud.py:80-109 | completeness: every device of a kept cluster that passes the filters is listed |
| DeviceCrud.CollectFromCluster | services/integration-api/routes/device_crud.py:87-109 | the inner loop appends exactly the passing devices, enriched, in order |
| DeviceCrud.FromClusterShown | services/integration-api/routes/device_crud.py:87-107 | every device listed from a kept cluster passes the filters and carries that cluster's id |
| DeviceCrud.FromClusterComplete | services/integration-api/routes/device_crud.py:87-107 | every device of the cluster that passes the filters is listed, enriched |
| DeviceCrud.CollectDevices | services/integration-api/routes/device_crud.py:79-109 | the loops produce `Listing` |
| DeviceCrud.ListAllDevicesCached | services/integration-api/routes/device_crud.py:68-125 | the cached or fetched clusters are listed; `total_count` is the number of devices; client errors are mapped; a cache hit leaves the cache unchanged, a miss stores a successful wildcard answer under the listing key with the given TTL |
| DeviceCrud.HolderOf | services/integration-api/routes/device_crud.py:137-141 | the first cluster holding a device with the id |
| DeviceCrud.FindDeviceById | services/integration-api/routes/device_crud.py:137-157 | the first device with the id in cluster order, then device order; otherwise 404 |
| DeviceCrud.FoundIsListed | services/integration-api/routes/device_crud.py:137-157 | the found device is one the unfiltered listing shows |
| DeviceCrud.FindDeviceByIdRoute | services/integration-api/routes/device_crud.py:128-164 | the 404 passes through; client errors are mapped; the cache afterwards is as for the listing: unchanged on a hit, the wildcard answer stored on a successful miss |
| DeviceCrud.Stripped | services/integration-api/routes/device_crud.py:206 | exactly the fields that are not None |
| DeviceCrud.StrippedUpdateEffect | services/integration-api/routes/device_crud.py:206-209 | an empty update changes nothing; a given location or status is applied; other keys are kept |
| DeviceCrud.UpdateDeviceRoute | services/integration-api/routes/device_crud.py:197-224 | success iff the fetch succeeds, the device is in the cluster and the PUT is accepted, answering with the updates applied and invalidating; an unmatched device is the client's 500 error; a failed fetch or PUT is mapped; any error leaves the cache |
| DeviceCrud.ClearDeviceCache | services/integration-api/routes/device_crud.py:258-280 | a targeted clear only when both a cluster id and a type are given, otherwise all entries |
| Enums.RecordType | src/microshare_client/enums.py:33-35 | the trap record type exactly for TRAP and the gateway record type exactly for GATEWAY |
| Enums.FromRecType | src/microshare_client/enums.py:14-19 | the member whose value equals the input, else None |
| Enums.RecTypeRoundTrip | src/microshare_client/enums.py:14-35 | `from_rec_type(t.get_record_type()) == t` for every member |
| Enums.FromString | src/microshare_client/enums.py:22-31 | the trap words give TRAP, the gateway words GATEWAY, anything else None, after lower and strip |
| Enums.FirstWithRecordType | src/microshare_client/enums.py:16-19 | a member found has that record type; none means no member has it |
| Enums.WordListsDisjoint | src/microshare_client/enums.py:26-29 | no word names both types, so the order of the two tests does not matter |
| Enums.FromStringIgnoresPadding | src/microshare_client/enums.py:24 | surrounding whitespace does not change the result |
| Enums.FromStringIgnoresCase | src/microshare_client/enums.py:24 | the case does not change the result |
| Enums.WordsNameTheirType | src/microshare_client/enums.py:26-29 | each listed word, in any case, names its own type |
| Enums.DisplayName | src/microshare_client/enums.py:37-43 | 'Trap/Motion Sensor' for TRAP and 'Gateway' for GATEWAY |
| Enums.PlacementValues | src/microshare_client/enums.py:51-54 | the values of `PlacementMembers` position by position, in declaration order, covering every member, no two alike |
| Enums.ConfigurationValues | src/microshare_client/enums.py:65-68 | the values of `ConfigurationMembers` position by position, in declaration order, covering every member, no two alike |
| Enums.StatusValues | src/microshare_client/enums.py:78-81 | the values of `StatusMembers` position by position, in declaration order, covering every member, no two alike |
| Enums.DefaultsAreValid | src/microshare_client/enums.py:48-81 | the defaults 'Internal', 'Bait/Lured' and 'pending' are valid values |
| Errors.MicroshareApiError | src/microshare_client/exceptions.py:8-11 | keeps the given message and status |
| Errors.MicroshareApiErrorDefault | src/microshare_client/exceptions.py:8 | an API error with the given message and the default status 500, consistent with its class |
| Errors.AuthenticationError | src/microshare_client/exceptions.py:16-17 | status 401 |
| Errors.DeviceNotFoundError | src/microshare_client/exceptions.py:22-24 | status 404, 'Device {d} not found in cluster {c}' |
| Errors.ClusterNotFoundError | src/microshare_client/exceptions.py:29-31 | status 404, 'Cluster {c} not found' |
| Errors.ClusterNotFoundNamesCluster | src/microshare_client/exceptions.py:29-31 | the message gives the cluster back |
| Errors.InvalidDeviceDataError | src/microshare_client/exceptions.py:36-37 | status 400, prefix 'Invalid device data: ' |
| Errors.InvalidDataKeepsDetail | src/microshare_client/exceptions.py:36-37 | the message gives the detail back |
| Erp.ParseErpLocation | services/integration-api/routes/erp_discovery.py:75-106 | split at the first ' - ' with both parts trimmed; 'Golden Crust' normalised; no separator gives the defaults and area = name; placement 'Internal', configuration 'Bait/Lured' |
| Erp.ParseReadsComposedName | services/integration-api/routes/erp_discovery.py:82-93 | a name written as prefix + ' - ' + area reads back as that area and prefix |
| Erp.SplitComposedName | services/integration-api/routes/erp_discovery.py:82-84 | `split(' - ', 1)` of a composed name gives back its prefix and area |
| Erp.ParseOfSplitName | services/integration-api/routes/erp_discovery.py:82-93 | a split name yields that prefix as the customer and site and that area as the area |
| Erp.LocationArray | services/integration-api/routes/erp_discovery.py:217-224 | six entries with the ERP reference at position 3 |
| Erp.LocationArrayIsSixFieldFormat | services/integration-api/routes/erp_discovery.py:217-224 | the route's six-entry list is the field mapper's layout |
| Erp.FindMatchingDevice | services/integration-api/routes/erp_discovery.py:108-116 | the first device whose location has more than 3 entries and location[3] equals the reference, else None |
| Erp.FirstWithReference | services/integration-api/routes/erp_discovery.py:110-115 | the first index whose device has the reference, none before it; -1 when no device has it |
| Erp.LaidOutDeviceIsFound | services/integration-api/routes/erp_discovery.py:108-116 | a device laid out from a point is found by its reference |
| Erp.Tagged | services/integration-api/routes/erp_discovery.py:197-200 | the device carries its cluster id, with its location unchanged |
| Erp.TaggedDevices | services/integration-api/routes/erp_discovery.py:197-200 | one tagged device per device of the cluster, position by position |
| Erp.TagDevices | services/integration-api/routes/erp_discovery.py:196-201 | the inner loop tags every device of the cluster in order |
| Erp.AllDevices | services/integration-api/routes/erp_discovery.py:193-201 | every listed device carries the id of one of the clusters |
| Erp.FlattenClusters | services/integration-api/routes/erp_discovery.py:195-201 | the outer loop concatenates the tagged devices of all clusters |
| Erp.RowOf | services/integration-api/routes/erp_discovery.py:206-229 | a missing default_code or name is a KeyError; the status is 'mapped' iff a device matched |
| Erp.RowsOf | services/integration-api/routes/erp_discovery.py:206-231 | a successful mapping has one row per inspection point, row i being point i's row; the mapping fails iff some point's row fails |
| Erp.RowsErrStays | services/integration-api/routes/erp_discovery.py:206-231 | once a prefix of the points raises, the whole mapping raises the same error |
| Erp.MappedCount | services/integration-api/routes/erp_discovery.py:233 | the mapped count never exceeds the number of rows |
| Erp.MapPoints | services/integration-api/routes/erp_discovery.py:206-231 | one row per point, stopping at the first KeyError |
| Erp.DiscoverMapping | services/integration-api/routes/erp_discovery.py:182-246 | the rows are those of all the flattened devices; the counts add up |
| Erp.UnmappedCountMatches | services/integration-api/routes/erp_discovery.py:233-259 | mapped + unmapped equals total, and the unmapped count is the length of the unmapped list |
| Erp.SummaryOf | services/integration-api/routes/erp_discovery.py:233-243 | total, mapped and unmapped counts add up |
| Erp.Unmapped | services/integration-api/routes/erp_discovery.py:259 | exactly the rows whose status is 'unmapped' |
| DeviceClient.ParseDevice | api/devices/client.py:125-139 | positions 0..5 map to customer..configuration; id defaults to '00-00-00-00-00-00-00-00' and status to 'pending' |
| DeviceClient.Parsed | api/devices/client.py:119-140 | never more devices than were read |
| DeviceClient.ParsedKeepsExactlyFull | api/devices/client.py:119-140 | exactly the devices with at least 6 location entries survive |
| DeviceClient.ParsedAppend | api/devices/client.py:119-140 | order is kept |
| DeviceClient.ParseDevices | api/devices/client.py:115-140 | the loop returns `Parsed` |
| DeviceClient.ClusterOf | api/devices/client.py:61-66 | the cluster has the document's id and parsed devices, its name or 'Unknown', its recType or 'unknown' |
| DeviceClient.ClustersOf | api/devices/client.py:60-67 | one cluster per document |
| DeviceClient.Stored | api/devices/client.py:68 | storing clusters keeps the cache's keys distinct |
| DeviceClient.StoredStep | api/devices/client.py:68 | one more cluster is one more store under its id |
| DeviceClient.ClustersOfPointwise | api/devices/client.py:60-67 | the i-th cluster comes from the i-th document |
| DeviceClient.LaterClusterOverwrites | api/devices/client.py:68 | a cluster is found under its id unless a later one with the same id replaced it |
| DeviceClient.OtherIdsKept | api/devices/client.py:68 | ids no discovered cluster carries keep their entries |
| DeviceClient.OptimizedDeviceClient.DiscoverClusters | api/devices/client.py:59-71 | returns one cluster per document and stores each under its id in order |
| DeviceClient.OptimizedDeviceClient.constructor | api/devices/client.py:18-22 | the cluster cache starts empty |
| FieldMapping.MapToSixFieldFormat | src/erp_adapter/field_mapping.py:17-26 | exactly 6 entries; each is the named field or its default ('', '', '', '', 'Internal', 'Bait/Lured') |
| FieldMapping.LayoutRoundTrip | src/erp_adapter/field_mapping.py:17-26 | naming a location's entries and laying them out again gives it back |
| FieldMapping.EmptyDataGivesDefaults | src/erp_adapter/field_mapping.py:20-25 | with no data, four empty entries, then 'Internal' and 'Bait/Lured' |
| FieldMapping.NoFieldsGivesDefaults | src/erp_adapter/field_mapping.py:20-25 | data naming none of the six fields gives exactly the defaults |
| FieldMapping.OtherKeysIgnored | src/erp_adapter/field_mapping.py:20-25 | keys other than the six names have no effect |
| FieldMapping.GivenFieldOverrides | services/integration-api/src/erp_adapter/field_mapping.py:20-25 | a given field overrides its default in place and nowhere else |

## Left out

- HTTP transport, timeouts and the remote endpoints. A GET is a `Response` input and a PUT a `Reply` input. The PUT's response body is not modelled: the client's write operations return the written document instead.
- `asyncio.gather` fan-out. It is modelled as the settled per-cluster results in map order; the concurrency itself, the lost-update race and cache data races are not modelled.
- Clocks, uuids and ISO timestamps. They are parameters: `now`, `uuid` and `stamp`.
- Token expiry (`_token_expires`), `user_info` in `AuthData`, and authentication against the auth server. `Authenticate` takes the server's answer as input.
- Request validation by pydantic: the 4-6 entry length bound on locations and non-string ids or statuses. Typed inputs replace it.
- The CSV import, export and template, and the create handler's response wrapping.
- `get_all_devices`, and the device-type back-fill loop of `optimized_get_devices`. The loop runs on the cache path (api/devices/routes.py:86-95); the discovery path has none. Decoding always sets `device_type`, so the loop never changes a device. `BackfilledType` models the rule it applies.
- The `list_clusters_cached` and `get_cluster_cached` routes, whose only extra is timing metadata. The add and remove routes are thin wrappers around the modelled client calls and `Refused`.
- `get_display_name`'s 'Unknown Device' branch, which no member of the two-member enumeration reaches.
- The `mapping_coverage` percentage, which is float formatting.
- The mapping route writes `cluster_id`, `cluster_name` and `device_type` into the cached response's own device dicts. The model tags copies and does not model that aliasing.
- The module-level `cluster_cache` is one shared `SimpleCache` object that the client holds by reference.
- MicroshareClient.Updated: the updates have type `Fields`, which excludes a "meta" key; a "meta" update is not modelled. The source's per-key loop is modelled as one merge.
- MicroshareClient.MicroshareDeviceClient.RemoveDeviceFromCluster: an unmatched update or removal raises a plain MicroshareAPIError (status 500), not DeviceNotFoundError (404), as in the source. The route therefore answers 500.
- Locations holding a non-string entry. `LocationOf` reads such a location as empty, where the source would index into it (services/integration-api/routes/erp_discovery.py:112-113, api/devices/client.py:121-123, services/integration-api/routes/device_crud.py:101-106).
- Cluster document members other than `_id`, `recType`, `name` and `data.devices`. `ClusterDoc` drops them, so the model does not show that a PUT writes them back unchanged.
- Null or non-string values in a fast update. `FastUpdates` has `Option<string>` members, so it cannot carry them (api/devices/routes.py:293, api/devices/crud.py:331-349).
- Full Unicode case folding. `LowerChar` lowers only ASCII capitals and the Kelvin sign; every comparison the model makes after lowering is against ASCII words, where the two agree.

## Findings

| source | as written | input that shows it | evidently intended | confidence | as-written member | corrected member |
|---|---|---|---|---|---|---|
| api/devices/routes.py:396-419 | the 404 for a failed delete is raised inside `try` and caught by `except Exception`, which re-raises it as 500 | a fast delete whose PUT is refused ('Failed to update cluster after deletion') | a failed delete that is not a not-found answers 404 | not executed | Routes.DeleteFailureAsWritten, Routes.RefusedDeletePutIs500 | Routes.DeleteFailure, Routes.DeleteDeviceOptimized |
| api/devices/routes.py:322 | `update_cache_after_update(cluster_id, device)` passes two arguments to a three-parameter function; the TypeError makes the handler answer 500 after a successful PUT | any accepted update, e.g. device `{"deviceId": "d1"}` in cluster `c1` | the cache is patched with `(cluster_id, device_id, device)` and the update answers success | not executed | Routes.UpdateReplyAsWritten, Routes.AcceptedUpdateIs500 | Routes.UpdateReply, Routes.UpdateDeviceOptimized |
