/** The client library's exceptions as values: every API error carries a
    message and an HTTP status, fixed by the kind of error where the kind
    fixes one; a cache error carries only its message. */
module Errors {
  import opened Wire

  datatype ApiKind = General | Authentication | DeviceNotFound | ClusterNotFound | InvalidDeviceData

  datatype ClientError =
    | ApiError(kind: ApiKind, message: string, statusCode: int)
    | CacheError(message: string)

  /** The status a kind always carries; a general error carries the one it
      was given. */
  function FixedStatus(kind: ApiKind): Option<int> {
    match kind
    case General => None
    case Authentication => Some(401)
    case DeviceNotFound => Some(404)
    case ClusterNotFound => Some(404)
    case InvalidDeviceData => Some(400)
  }

  /** An error whose status agrees with its kind. */
  predicate Consistent(e: ClientError) {
    e.ApiError? ==> FixedStatus(e.kind).Some? ==> e.statusCode == FixedStatus(e.kind).value
  }

  /** `MicroshareAPIError(message, status_code)`. */
  function MicroshareApiError(message: string, statusCode: int): (e: ClientError)
    ensures e.ApiError? && e.message == message && e.statusCode == statusCode
    ensures Consistent(e)
  {
    ApiError(General, message, statusCode)
  }

  /** `MicroshareAPIError(message)`: status 500 when none is given. */
  function MicroshareApiErrorDefault(message: string): (e: ClientError)
    ensures e.ApiError? && e.message == message && e.statusCode == 500
    ensures Consistent(e)
  {
    MicroshareApiError(message, 500)
  }

  /** `AuthenticationError(message)`. */
  function AuthenticationError(message: string): (e: ClientError)
    ensures e.ApiError? && e.message == message && e.statusCode == 401
    ensures Consistent(e)
  {
    ApiError(Authentication, message, 401)
  }

  /** `DeviceNotFoundError(device_id, cluster_id)`. */
  function DeviceNotFoundError(deviceId: string, clusterId: string): (e: ClientError)
    ensures e.ApiError? && e.statusCode == 404 && Consistent(e)
    ensures e.message == "Device " + deviceId + " not found in cluster " + clusterId
  {
    ApiError(DeviceNotFound, "Device " + deviceId + " not found in cluster " + clusterId, 404)
  }

  /** `ClusterNotFoundError(cluster_id)`. */
  function ClusterNotFoundError(clusterId: string): (e: ClientError)
    ensures e.ApiError? && e.statusCode == 404 && Consistent(e)
    ensures e.message == "Cluster " + clusterId + " not found"
  {
    ApiError(ClusterNotFound, "Cluster " + clusterId + " not found", 404)
  }

  /** `InvalidDeviceDataError(message)`. */
  function InvalidDeviceDataError(message: string): (e: ClientError)
    ensures e.ApiError? && e.statusCode == 400 && Consistent(e)
    ensures e.message == "Invalid device data: " + message
  {
    ApiError(InvalidDeviceData, "Invalid device data: " + message, 400)
  }

  /** `str(e)`: the message the exception was raised with. */
  function Text(e: ClientError): string {
    e.message
  }

  /** The message of a cluster-not-found error gives the cluster back. */
  lemma ClusterNotFoundNamesCluster(c1: string, c2: string)
    requires Text(ClusterNotFoundError(c1)) == Text(ClusterNotFoundError(c2))
    ensures c1 == c2
  {
    var m1, m2 := Text(ClusterNotFoundError(c1)), Text(ClusterNotFoundError(c2));
    assert |c1| == |c2|;
    forall i | 0 <= i < |c1| ensures c1[i] == c2[i] {
      assert m1[8 + i] == c1[i] && m2[8 + i] == c2[i];
    }
  }

  /** An invalid-data message gives back the detail it was built from. */
  lemma InvalidDataKeepsDetail(m: string)
    ensures Text(InvalidDeviceDataError(m))[21..] == m
  {
  }
}
