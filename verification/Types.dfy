/** The objects of the two stores: the custom resource with its status, the shares of the cloud,
    and the volume objects of the cluster. */
module Types {
  import opened Conditions

  datatype Option<+T> = None | Some(value: T)

  datatype Policy = Retain | Delete

  /** A parsed resource.Quantity, or what keeps it from being one. */
  datatype PvcSize = Unset | Bytes(n: nat) | Malformed

  /** Size is in GiB. An empty string stands for an unset optional field, as in the source. */
  datatype Spec = Spec(fsName: string, size: nat, policy: Policy, paused: bool, shareType: string, zone: string,
                       vpc: string, subnet: string, sg: string, cryptKey: string, tags: map<string, string>,
                       pvcName: string, pvcSize: PvcSize, storageClass: string)

  /** A file-system id is a positive number; 0 stands for the empty string. */
  const NO_FS: nat := 0

  datatype Status = Status(fsId: nat, exportPath: string, size: nat, sg: string, tags: map<string, string>,
                           observedGeneration: nat, conditions: seq<Condition>)

  /** The SfsTurboInstance object. `deleted` is a set deletionTimestamp. */
  datatype Cr = Cr(ns: string, name: string, generation: nat, finalizer: bool, deleted: bool, spec: Spec,
                   status: Status)

  /** A copy of the object together with the resourceVersion it was read at. */
  datatype Snap = Snap(cr: Cr, rv: nat)

  /** What ShowShare reports. Size is 0 when the reported text does not parse. */
  datatype ShareInfo = ShareInfo(status: string, subStatus: string, exportLocation: string, size: nat, zone: string,
                                 shareType: string, vpc: string, subnet: string, cryptKey: string, sg: string)

  /** A share in the cloud: what it reports, the operations in progress (0 and "" for none), its tags,
      and whether an accepted DeleteShare is in progress. */
  datatype Share = Share(name: string, info: ShareInfo, target: nat, sgTarget: string, tags: map<string, string>,
                         dying: bool)

  predicate IsAvailable(status: string) { status == "200" }

  predicate IsErrored(status: string) { status == "303" || status == "308" || status == "400" }

  const SG_CHANGING := "132"

  predicate IsSgChangeInFlight(subStatus: string) { subStatus == SG_CHANGING }

  datatype ClaimRef = ClaimRef(ns: string, name: string, uid: nat)

  datatype Phase = Pending | Available | Bound | Released | FailedPhase

  datatype PV = PV(phase: Phase, managedBy: string, ownedBy: (string, string), claimRef: Option<ClaimRef>,
                   volumeHandle: nat, exportLocation: string, storageClass: string, capacity: nat, terminating: bool)

  datatype PVC = PVC(managedBy: string, ownedBy: (string, string), volumeName: string, storageClass: string,
                     request: nat, terminating: bool)

  const MANAGED_BY := "huawei-sfs-operator"

  const DEFAULT_STORAGE_CLASS := "csi-sfsturbo-perinstance"

  function StorageClassOf(spec: Spec): string {
    if spec.storageClass == "" then DEFAULT_STORAGE_CLASS else spec.storageClass
  }

  /** The storage request in bytes: spec.pvcSize, or spec.size GiB when that is unset. */
  function CapacityOf(spec: Spec): Option<nat> {
    match spec.pvcSize
    case Unset => Some(spec.size * 1024 * 1024 * 1024)
    case Bytes(n) => Some(n)
    case Malformed => None
  }

  function BuildPV(cr: Cr, capacity: nat): PV {
    PV(Pending, MANAGED_BY, (cr.ns, cr.name), Some(ClaimRef(cr.ns, cr.spec.pvcName, 0)), cr.status.fsId,
       cr.status.exportPath, StorageClassOf(cr.spec), capacity, false)
  }

  function BuildPVC(cr: Cr, capacity: nat): PVC {
    PVC(MANAGED_BY, (cr.ns, cr.name), cr.spec.pvcName, StorageClassOf(cr.spec), capacity, false)
  }
}
