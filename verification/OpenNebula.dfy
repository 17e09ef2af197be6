/** What the OpenNebula client reports (`internal/pkg/opennebula/errors.go`, `types.go`). */
module OpenNebula {
  import opened Text

  datatype ErrorClass = Unknown | NotFound | Auth | Quota | Policy | Retryable | Terminal

  function ClassName(kind: ErrorClass): string {
    match kind
    case Unknown => "unknown"
    case NotFound => "not_found"
    case Auth => "auth"
    case Quota => "quota"
    case Policy => "policy"
    case Retryable => "retryable"
    case Terminal => "terminal"
  }

  predicate IsRetryableClass(kind: ErrorClass) {
    kind.Retryable? || kind.Quota? || kind.Unknown?
  }

  datatype ImageRef = ImageRef(id: int, name: string, datastore: string, sizeMiB: int)

  datatype ImageInfo = ImageInfo(id: int, name: string, datastore: string, sizeMiB: int, source: string, state: string)

  datatype CreateImageRequest = CreateImageRequest(
    datastoreId: int,
    name: string,
    sourceURL: string,
    sourcePath: string,
    driver: string,
    format: string)

  datatype HostInfo = HostInfo(
    id: int,
    name: string,
    clusterId: int,
    clusterName: string,
    hypervisor: string,
    tags: seq<string>,
    enabled: bool,
    schedulable: bool,
    cpuTotal: int,
    cpuUsed: int,
    memoryTotalMiB: int,
    memoryUsedMiB: int,
    runningVMs: int)
  {
    predicate HasTag(tag: string) {
      tag in tags
    }
  }

  // ---------------------------------------------------------------- datastores

  datatype DatastoreRef = DatastoreRef(id: int, name: string, cephBacked: bool, capabilities: seq<string>)

  /** What the client makes of a datastore's drivers (`normalizeDatastoreRef` in `goca.go`). */
  function NormalizeDatastoreRef(id: int, name: string, dsMad: string, tmMad: string): DatastoreRef {
    var ds, tm := Lower(TrimSpace(dsMad)), Lower(TrimSpace(tmMad));
    var cephBacked := Contains(ds, "ceph") || Contains(tm, "ceph");
    DatastoreRef(id, name, cephBacked,
                 ["root-disk"]
                 + (if cephBacked then ["ceph-backed"] else [])
                 + (if Contains(ds, "cephfs") then ["cephfs-capable"] else [])
                 + (if cephBacked && !Contains(ds, "cephfs") then ["ceph-rbd-compatible"] else [])
                 + (if !cephBacked then ["local-root"] else []))
  }
}
