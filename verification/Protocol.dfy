/** The reconcile protocol as a step system. A pass is a sequence of API calls; between two calls the
    worker only computes, so one step of the system is one call together with its reply. Users, the
    cloud, other controllers and crashes act between any two calls. */
module Protocol {
  import opened Errors
  import opened Conditions
  import opened Types
  import opened Poll

  /** Why a status is written: the branch that the write ends or continues. A failure note carries
      the error that the pass then returns. */
  datatype Why = PausedNote | CreatedNote | FailureNote(err: GoErr) | RetainNote | GoneNote | DeleteMarked | RecreateNote
               | ExpandMarked | ExpandWait | SgMarked | SgWait | Settled | ErroredNote

  /** One call to the Kubernetes API or to the cloud, with the in-memory object it is made from. */
  datatype Call =
    | ReadCr
    | AddFinalizer(snap: Snap)
    | RemoveFinalizer(snap: Snap)
    | UpdateStatus(snap: Snap, why: Why)
    | CreateShare(snap: Snap)
    | ListShares(snap: Snap, taken: GoErr)
    | ShowShare(snap: Snap)
    | DeleteShare(snap: Snap)
    | ExpandShare(snap: Snap, info: ShareInfo)
    | ChangeSg(snap: Snap, info: ShareInfo)
    | ShowTags(snap: Snap, info: ShareInfo)
    | AddTag(snap: Snap, info: ShareInfo, live: map<string, string>, key: string)
    | DeleteTag(snap: Snap, info: ShareInfo, live: map<string, string>, key: string)
    | GetPv(snap: Snap)
    | CreatePv(snap: Snap)
    | UpdatePv(snap: Snap, pv: PV)
    | DeletePv(snap: Snap)
    | GetPvc(snap: Snap)
    | CreatePvc(snap: Snap)
    | DeletePvc(snap: Snap)

  datatype Listed = Listed(id: nat, name: string)

  datatype Reply =
    | Done
    | Got(snap: Snap)
    | Minted(id: nat)
    | Shares(list: seq<Listed>)
    | Info(info: ShareInfo)
    | Tags(tags: map<string, string>)
    | PvIs(pv: PV)
    | PvcIs(pvc: PVC)
    | Failure(err: GoErr)

  datatype Requeue = NoRequeue | Immediately | AfterProvisioning | AfterDeleting

  /** ctrl.Result with the returned error. */
  datatype Result = Result(requeue: Requeue, err: Option<GoErr>)

  /** Where the worker is: between passes, or holding the reply to its last call. */
  datatype Pc = Idle | At(call: Call, reply: Reply)

  // ================================================================ control flow of a pass

  function Note(s: Snap, es: seq<Entry>): Snap {
    s.(cr := Noted(s.cr, es))
  }

  /** The object in memory when a call has replied: a successful read or status write replaces it. */
  function Held(c: Call, r: Reply): Snap
    requires !c.ReadCr? || r.Got?
  {
    if r.Got? then r.snap else c.snap
  }

  /** A status write follows, after the updates `sets` are made on `s`. */
  ghost predicate Writes(s: Snap, sets: seq<CondSet>, why: Why, c: Call, es: seq<Entry>) {
    Told(es, sets, s.cr.generation) && c == UpdateStatus(Note(s, es), why)
  }

  ghost predicate FailWrite(s: Snap, reason: Reason, err: GoErr, c: Call, es: seq<Entry>) {
    Writes(s, [CondSet(Failed, True, reason, ErrText(err))], FailureNote(err), c, es)
  }

  /** After the read: the branches of Reconcile and the head of reconcileDelete. */
  ghost predicate FollowsRead(s: Snap, c: Call, es: seq<Entry>) {
    if s.cr.deleted then
      && s.cr.finalizer
      && if s.cr.status.fsId == NO_FS then c == RemoveFinalizer(s) && es == []
         else if s.cr.spec.policy != Delete then
           Writes(s, [CondSet(Deleting, False, RetainPolicyApplied, Fixed)], RetainNote, c, es)
         else c == ShowShare(s) && es == []
    else if !s.cr.finalizer then c == AddFinalizer(s) && es == []
    else if s.cr.spec.paused then
      Writes(s, [CondSet(Provisioning, False, ReconcilePaused, Fixed)], PausedNote, c, es)
    else if s.cr.status.fsId == NO_FS then c == CreateShare(s) && es == []
    else c == ShowShare(s) && es == []
  }

  function CreatedSets(): seq<CondSet> {
    [ CondSet(Provisioning, True, FsCreatePending, Fixed), CondSet(Failed, False, FsCreatePending, Fixed) ]
  }

  function WithFs(s: Snap, id: nat): Snap {
    s.(cr := s.cr.(status := s.cr.status.(fsId := id, observedGeneration := s.cr.generation)))
  }

  ghost predicate FollowsCreate(s: Snap, r: Reply, c: Call, es: seq<Entry>) {
    match r
    case Minted(id) => Writes(WithFs(s, id), CreatedSets(), CreatedNote, c, es)
    case Failure(e) =>
      if IsNameAlreadyExists(e) then c == ListShares(s, e) && es == []
      else FailWrite(s, FsCreateFailed, Cooked(OpCreate, e), c, es)
    case _ => false
  }

  /** The id of the first share of the name, or NO_FS. */
  function FirstNamed(list: seq<Listed>, name: string): nat {
    if list == [] then NO_FS else if list[0].name == name then list[0].id else FirstNamed(list[1..], name)
  }

  ghost predicate FollowsList(s: Snap, taken: GoErr, r: Reply, c: Call, es: seq<Entry>) {
    if r.Shares? && FirstNamed(r.list, s.cr.spec.fsName) != NO_FS then
      Writes(WithFs(s, FirstNamed(r.list, s.cr.spec.fsName)), CreatedSets(), CreatedNote, c, es)
    else (r.Shares? || r.Failure?) && FailWrite(s, FsCreateFailed, Cooked(OpCollision, taken), c, es)
  }

  ghost predicate FollowsDeleteGet(s: Snap, r: Reply, c: Call, es: seq<Entry>) {
    match r
    case Failure(e) =>
      if IsFsNotFound(Cooked(OpShow, e)) then Writes(s, [CondSet(Deleting, False, FsDeleted, Fixed)], GoneNote, c, es)
      else FailWrite(s, HuaweiAPIError, Cooked(OpShow, e), c, es)
    case Info(_) =>
      && !HasTrue(s.cr.status.conditions, Deleting)
      && es == []
      && c == if s.cr.spec.pvcName != "" then GetPvc(s) else DeleteShare(s)
    case _ => false
  }

  function DeletePendingSets(): seq<CondSet> {
    [ CondSet(Deleting, True, FsDeletePending, Fixed), CondSet(Ready, False, FsDeletePending, Fixed) ]
  }

  /** cascadeDeletePVPVC: the claim first, then the volume; any failure ends the cascade and the
      share is deleted all the same. */
  ghost predicate FollowsCascade(last: Call, r: Reply, c: Call, es: seq<Entry>)
    requires last.GetPvc? || last.DeletePvc? || last.GetPv? || last.DeletePv?
  {
    var s := last.snap;
    && es == []
    && match last
       case GetPvc(_) =>
         c == if r.PvcIs? && !r.pvc.terminating then DeletePvc(s)
              else if r.PvcIs? || (r.Failure? && IsApiNotFound(r.err)) then GetPv(s)
              else DeleteShare(s)
       case DeletePvc(_) => c == if r.Done? || (r.Failure? && IsApiNotFound(r.err)) then GetPv(s) else DeleteShare(s)
       case GetPv(_) => c == if r.PvIs? && !r.pv.terminating then DeletePv(s) else DeleteShare(s)
       case _ => c == DeleteShare(s)
  }

  function RecreateCr(cr: Cr): Cr {
    cr.(status := cr.status.(fsId := NO_FS, exportPath := ""))
  }

  ghost predicate FollowsPoll(s: Snap, r: Reply, c: Call, es: seq<Entry>) {
    match r
    case Failure(e) =>
      if IsFsNotFound(Cooked(OpShow, e)) then
        Writes(s.(cr := RecreateCr(s.cr)), [CondSet(Ready, False, HuaweiAPIError, Fixed)], RecreateNote, c, es)
      else FailWrite(s, HuaweiAPIError, Cooked(OpShow, e), c, es)
    case Info(info) =>
      if IsAvailable(info.status) then FollowsAvailable(s, info, c, es)
      else
        && IsErrored(info.status)
        && Writes(s, [ CondSet(Failed, True, FsCreateFailed, About(info.status)),
                       CondSet(Provisioning, False, FsCreateFailed, Fixed) ], ErroredNote, c, es)
    case _ => false
  }

  ghost predicate FollowsAvailable(s: Snap, info: ShareInfo, c: Call, es: seq<Entry>) {
    var cr := s.cr;
    var seen := s.(cr := Observed(cr, info));
    if Grows(cr.spec, info) then
      if HasTrue(cr.status.conditions, Expanding) then Writes(seen, ReadySets(info), ExpandWait, c, es)
      else Told(es, ReadySets(info), cr.generation) && c == ExpandShare(Note(seen, es), info)
    else if SgDrifts(cr.spec, info) then
      if IsSgChangeInFlight(info.subStatus) then
        Writes(s.(cr := ObservedSg(cr, info)), SizedSets(cr, info) + [SgPendingSet(info.subStatus)], SgWait, c, es)
      else Told(es, SizedSets(cr, info), cr.generation) && c == ChangeSg(Note(seen, es), info)
    else
      var s1 := Note(s.(cr := ObservedSg(cr, info)), es);
      && Told(es, SizedSets(cr, info) + SgDoneSets(cr, info), cr.generation)
      && c == if IsSgChangeInFlight(info.subStatus) then UpdateStatus(s1, Settled) else ShowTags(s1, info)
  }

  function SgPendingSet(text: string): CondSet {
    CondSet(UpdatingSecurityGroup, True, SgUpdatePending, About(text))
  }

  ghost predicate FollowsExpand(s: Snap, info: ShareInfo, r: Reply, c: Call, es: seq<Entry>) {
    match r
    case Done =>
      Writes(s, [CondSet(Expanding, True, FsExpandPending, Sizes(info.size, s.cr.spec.size))], ExpandMarked, c, es)
    case Failure(e) => FailWrite(s, HuaweiAPIError, Cooked(OpExpand, e), c, es)
    case _ => false
  }

  ghost predicate FollowsSg(s: Snap, info: ShareInfo, r: Reply, c: Call, es: seq<Entry>) {
    match r
    case Done =>
      Writes(s.(cr := s.cr.(status := s.cr.status.(sg := info.sg))), [SgPendingSet(s.cr.spec.sg)], SgMarked, c, es)
    case Failure(e) =>
      Writes(s, [CondSet(UpdatingSecurityGroup, False, SgUpdateFailed, ErrText(Cooked(OpChangeSg, e)))],
             FailureNote(Cooked(OpChangeSg, e)), c, es)
    case _ => false
  }

  /** Desired tags that the live set lacks or has with another value. */
  function Missing(live: map<string, string>, desired: map<string, string>): set<string> {
    set k | k in desired && (k !in live || live[k] != desired[k])
  }

  function Extra(live: map<string, string>, desired: map<string, string>): set<string> {
    live.Keys - desired.Keys
  }

  /** The tag loops: additions in any order until none is missing, then deletions in any order. */
  ghost predicate FollowsTags(s: Snap, info: ShareInfo, live: map<string, string>, changed: bool, c: Call,
                              es: seq<Entry>) {
    var desired := s.cr.spec.tags;
    if Missing(live, desired) != {} then
      es == [] && c.AddTag? && c == AddTag(s, info, live, c.key) && c.key in Missing(live, desired)
    else if Extra(live, desired) != {} then
      es == [] && c.DeleteTag? && c == DeleteTag(s, info, live, c.key) && c.key in Extra(live, desired)
    else EndsTags(s, Aligned(live, changed), c, es)
  }

  ghost predicate EndsTags(s: Snap, o: TagOutcome, c: Call, es: seq<Entry>) {
    Writes(s.(cr := TaggedCr(s.cr, o)), TagSets(o), Settled, c, es)
  }

  ghost predicate FollowsTagCall(last: Call, r: Reply, c: Call, es: seq<Entry>)
    requires last.ShowTags? || last.AddTag? || last.DeleteTag?
  {
    var s := last.snap;
    match last
    case ShowTags(_, info) =>
      (match r
       case Tags(live) => FollowsTags(s, info, live, false, c, es)
       case Failure(e) => EndsTags(s, TagFailed(Wrap(OpTags, Cooked(OpShowTags, e))), c, es)
       case _ => false)
    case AddTag(_, info, live, k) =>
      (match r
       case Done => k in s.cr.spec.tags && FollowsTags(s, info, live[k := s.cr.spec.tags[k]], true, c, es)
       case Failure(e) => EndsTags(s, TagFailed(Wrap(OpTags, Cooked(OpAddTag, e))), c, es)
       case _ => false)
    case DeleteTag(_, info, live, k) =>
      if r.Done? || (r.Failure? && IsNotFound(r.err)) then FollowsTags(s, info, live - {k}, true, c, es)
      else r.Failure? && EndsTags(s, TagFailed(Wrap(OpTags, Cooked(OpDeleteTag, r.err))), c, es)
  }

  /** The volume pair is looked after, once the status is written. */
  predicate WantsPv(cr: Cr) {
    cr.spec.pvcName != "" && cr.status.fsId != NO_FS && cr.status.exportPath != "" && CapacityOf(cr.spec).Some?
  }

  /** A volume left behind by an earlier deployment, which the operator labelled. */
  predicate StaleClaim(pv: PV) {
    pv.phase == Released && pv.managedBy == MANAGED_BY && pv.claimRef.Some?
  }

  ghost predicate FollowsEnsure(last: Call, r: Reply, c: Call, es: seq<Entry>)
    requires last.GetPv? || last.CreatePv? || last.UpdatePv? || last.GetPvc?
  {
    var s := last.snap;
    && es == []
    && match last
       case GetPv(_) =>
         if r.PvIs? then c == if StaleClaim(r.pv) then UpdatePv(s, r.pv) else GetPvc(s)
         else r.Failure? && IsApiNotFound(r.err) && c == CreatePv(s)
       case GetPvc(_) => r.Failure? && IsApiNotFound(r.err) && c == CreatePvc(s)
       case _ => r.Done? && c == GetPvc(s)
  }

  /** patchStatus reported no error: the write was accepted, or the object is gone. */
  predicate PatchOk(r: Reply) {
    r.Got? || (r.Failure? && IsApiNotFound(r.err))
  }

  ghost predicate FollowsWrite(last: Call, r: Reply, c: Call, es: seq<Entry>)
    requires last.UpdateStatus?
  {
    var s := Held(last, r);
    && PatchOk(r) && es == []
    && match last.why
       case RetainNote => c == RemoveFinalizer(s)
       case GoneNote => c == RemoveFinalizer(s)
       case Settled => WantsPv(s.cr) && c == GetPv(s)
       case _ => false
  }

  /** Call `c` may be the next call of the pass, made after the condition updates `es`. */
  ghost predicate Follows(pc: Pc, c: Call, es: seq<Entry>) {
    match pc
    case Idle => c.ReadCr? && es == []
    case At(last, r) =>
      match last
      case ReadCr => r.Got? && FollowsRead(r.snap, c, es)
      case CreateShare(s) => FollowsCreate(s, r, c, es)
      case ListShares(s, taken) => FollowsList(s, taken, r, c, es)
      case ShowShare(s) => if s.cr.deleted then FollowsDeleteGet(s, r, c, es) else FollowsPoll(s, r, c, es)
      case DeleteShare(s) =>
        if r.Done? then Writes(s, DeletePendingSets(), DeleteMarked, c, es)
        else r.Failure? && FailWrite(s, FsDeleteFailed, Cooked(OpDelete, r.err), c, es)
      case ExpandShare(s, info) => FollowsExpand(s, info, r, c, es)
      case ChangeSg(s, info) => FollowsSg(s, info, r, c, es)
      case ShowTags(_, _) => FollowsTagCall(last, r, c, es)
      case AddTag(_, _, _, _) => FollowsTagCall(last, r, c, es)
      case DeleteTag(_, _, _, _) => FollowsTagCall(last, r, c, es)
      case UpdateStatus(_, _) => FollowsWrite(last, r, c, es)
      case GetPv(s) => if s.cr.deleted then FollowsCascade(last, r, c, es) else FollowsEnsure(last, r, c, es)
      case GetPvc(s) => if s.cr.deleted then FollowsCascade(last, r, c, es) else FollowsEnsure(last, r, c, es)
      case DeletePv(_) => FollowsCascade(last, r, c, es)
      case DeletePvc(_) => FollowsCascade(last, r, c, es)
      case CreatePv(_) => FollowsEnsure(last, r, c, es)
      case UpdatePv(_, _) => FollowsEnsure(last, r, c, es)
      case _ => false
  }

  function ErrOf(r: Reply): Option<GoErr> {
    if r.Failure? then Some(r.err) else None
  }

  /** The result of a pass that ends with a status write and otherwise asks for `q`. */
  function PatchThen(r: Reply, q: Requeue): Option<Result> {
    Some(if PatchOk(r) then Result(q, None) else Result(NoRequeue, ErrOf(r)))
  }

  function EndsWrite(why: Why, r: Reply, cr: Cr): Option<Result> {
    match why
    case PausedNote => PatchThen(r, NoRequeue)
    case ErroredNote => PatchThen(r, NoRequeue)
    case CreatedNote => PatchThen(r, AfterProvisioning)
    case ExpandMarked => PatchThen(r, AfterProvisioning)
    case ExpandWait => PatchThen(r, AfterProvisioning)
    case SgMarked => PatchThen(r, AfterProvisioning)
    case SgWait => PatchThen(r, AfterProvisioning)
    case DeleteMarked => PatchThen(r, AfterDeleting)
    case FailureNote(e) => Some(Result(NoRequeue, Some(e)))
    case RecreateNote => Some(Result(Immediately, if PatchOk(r) then None else ErrOf(r)))
    case RetainNote => if PatchOk(r) then None else PatchThen(r, NoRequeue)
    case GoneNote => if PatchOk(r) then None else PatchThen(r, NoRequeue)
    case Settled =>
      if !PatchOk(r) then PatchThen(r, NoRequeue)
      else if cr.spec.pvcName == "" then Some(Result(NoRequeue, None))
      else if WantsPv(cr) then None
      else EnsureFailed(if cr.status.fsId == NO_FS || cr.status.exportPath == "" then Wrap(OpNoStatus, Plain)
                        else Wrap(OpPvcSize, Plain))
  }

  function EnsureFailed(e: GoErr): Option<Result> {
    Some(Result(AfterProvisioning, Some(e)))
  }

  /** Where the volume part of a pass ends. */
  function EndsEnsure(last: Call, r: Reply): Option<Result>
    requires last.GetPv? || last.CreatePv? || last.UpdatePv? || last.GetPvc? || last.CreatePvc?
  {
    match last
    case GetPv(_) => if r.Failure? && !IsApiNotFound(r.err) then EnsureFailed(r.err) else None
    case CreatePv(_) => if r.Failure? then EnsureFailed(r.err) else None
    case UpdatePv(_, _) => if r.Failure? then EnsureFailed(Wrap(OpClaimRef, r.err)) else None
    case GetPvc(_) =>
      if r.PvcIs? then Some(Result(NoRequeue, None))
      else if r.Failure? && !IsApiNotFound(r.err) then EnsureFailed(r.err)
      else None
    case CreatePvc(_) => if r.Failure? then EnsureFailed(r.err) else Some(Result(NoRequeue, None))
  }

  /** The pass ends here, with this result. */
  function Ending(pc: Pc): Option<Result> {
    match pc
    case Idle => None
    case At(last, r) =>
      match last
      case ReadCr =>
        if r.Failure? then Some(Result(NoRequeue, if IsApiNotFound(r.err) then None else Some(r.err)))
        else if r.Got? && r.snap.cr.deleted && !r.snap.cr.finalizer then Some(Result(NoRequeue, None))
        else None
      case AddFinalizer(_) =>
        Some(if r.Failure? then Result(NoRequeue, Some(r.err)) else Result(Immediately, None))
      case RemoveFinalizer(_) =>
        Some(Result(NoRequeue, if r.Failure? && !IsApiNotFound(r.err) then Some(r.err) else None))
      case ShowShare(s) =>
        if !r.Info? then None
        else if s.cr.deleted then
          if HasTrue(s.cr.status.conditions, Deleting) then Some(Result(AfterDeleting, None)) else None
        else if IsAvailable(r.info.status) || IsErrored(r.info.status) then None
        else Some(Result(AfterProvisioning, None))
      case UpdateStatus(_, why) => EndsWrite(why, r, Held(last, r).cr)
      case GetPv(s) => if s.cr.deleted then None else EndsEnsure(last, r)
      case GetPvc(s) => if s.cr.deleted then None else EndsEnsure(last, r)
      case CreatePv(_) => EndsEnsure(last, r)
      case UpdatePv(_, _) => EndsEnsure(last, r)
      case CreatePvc(_) => EndsEnsure(last, r)
      case _ => None
  }

  // ================================================================ the world

  /** Counters and records for the statements about whole runs; no step depends on them. */
  datatype Log = Log(
    issued: seq<Call>,     // every mutating call made, whatever became of it
    pass: seq<Call>,       // the cloud's part of that, in the current pass
    seen: Option<ShareInfo>,   // what ShowShare answered in the current pass
    listed: Option<map<string, string>>,   // and what ShowTags answered
    minted: set<nat>,      // shares created by this resource's CreateShare calls
    mints: nat,
    destroyed: nat,        // of those, removed by somebody else
    finished: nat,         // of those, removed by an accepted DeleteShare
    cleared: nat,          // persisted writes that cleared status.fsId
    dels: nat, delMarks: nat, delLost: nat, retained: nat,
    exps: nat, expMarks: nat, expLost: nat,   // since the last change of spec.size
    tagOk: nat, tagBad: nat)

  /** The versions of the resource (the resourceVersion is the index), whether it has been removed, how
      far the informer's cache has come, the cloud, the volume objects, and the one worker. */
  datatype World = World(fsName: string, hist: seq<Cr>, gone: bool, cache: nat, cloud: map<nat, Share>, nextId: nat,
                         pvs: map<string, PV>, pvcs: map<(string, string), PVC>, pc: Pc, log: Log)

  function Current(w: World): Cr
    requires w.hist != []
  {
    w.hist[|w.hist| - 1]
  }

  /** A write that changes nothing does not make a new version. */
  function Commit(w: World, cr: Cr): World
    requires w.hist != []
  {
    if cr == Current(w) then w else w.(hist := w.hist + [cr])
  }

  function NewShare(spec: Spec): Share {
    Share(spec.fsName,
          ShareInfo("100", "", "", spec.size, spec.zone, spec.shareType, spec.vpc, spec.subnet, spec.cryptKey,
                    if spec.sg == "" then "auto" else spec.sg),
          0, "", spec.tags, false)
  }

  predicate NameTaken(cloud: map<nat, Share>, name: string) {
    exists id | id in cloud :: cloud[id].name == name
  }

  /** The store accepts the call: what a write needs, and what a read needs to find something. */
  predicate Accepts(w: World, c: Call)
    requires w.hist != []
  {
    match c
    case ReadCr => true
    case AddFinalizer(s) => !w.gone && s.rv == |w.hist| - 1
    case RemoveFinalizer(s) => !w.gone && s.rv == |w.hist| - 1
    case UpdateStatus(s, _) => !w.gone && s.rv == |w.hist| - 1
    case CreateShare(s) => !NameTaken(w.cloud, s.cr.spec.fsName)
    case ListShares(_, _) => true
    case ExpandShare(s, _) =>
      s.cr.status.fsId in w.cloud && s.cr.spec.size > w.cloud[s.cr.status.fsId].info.size
    case GetPv(s) => s.cr.spec.pvcName in w.pvs
    case CreatePv(s) => s.cr.spec.pvcName !in w.pvs && CapacityOf(s.cr.spec).Some?
    case UpdatePv(s, pv) => s.cr.spec.pvcName in w.pvs && w.pvs[s.cr.spec.pvcName] == pv
    case DeletePv(s) => s.cr.spec.pvcName in w.pvs
    case GetPvc(s) => (s.cr.ns, s.cr.spec.pvcName) in w.pvcs
    case CreatePvc(s) => (s.cr.ns, s.cr.spec.pvcName) !in w.pvcs && CapacityOf(s.cr.spec).Some?
    case DeletePvc(s) => (s.cr.ns, s.cr.spec.pvcName) in w.pvcs
    case _ => c.snap.cr.status.fsId in w.cloud
  }

  function SetShare(w: World, id: nat, s: Share): World {
    w.(cloud := w.cloud[id := s])
  }

  /** The effect of an accepted call on the stores. */
  function Effect(w: World, c: Call): World
    requires w.hist != [] && Accepts(w, c)
  {
    match c
    case AddFinalizer(_) => Commit(w, Current(w).(finalizer := true))
    case RemoveFinalizer(_) =>
      Commit(w, Current(w).(finalizer := false)).(gone := Current(w).deleted)
    case UpdateStatus(s, _) => Commit(w, Current(w).(status := s.cr.status))
    case CreateShare(s) => SetShare(w, w.nextId, NewShare(s.cr.spec)).(nextId := w.nextId + 1)
    case DeleteShare(s) => SetShare(w, s.cr.status.fsId, w.cloud[s.cr.status.fsId].(dying := true))
    case ExpandShare(s, _) =>
      var sh := w.cloud[s.cr.status.fsId];
      SetShare(w, s.cr.status.fsId, sh.(target := s.cr.spec.size, info := sh.info.(status := "121")))
    case ChangeSg(s, _) =>
      var sh := w.cloud[s.cr.status.fsId];
      SetShare(w, s.cr.status.fsId, sh.(sgTarget := s.cr.spec.sg, info := sh.info.(subStatus := SG_CHANGING)))
    case AddTag(s, _, _, k) =>
      var sh := w.cloud[s.cr.status.fsId];
      SetShare(w, s.cr.status.fsId, sh.(tags := if k in s.cr.spec.tags then sh.tags[k := s.cr.spec.tags[k]] else sh.tags))
    case DeleteTag(s, _, _, k) =>
      var sh := w.cloud[s.cr.status.fsId];
      SetShare(w, s.cr.status.fsId, sh.(tags := sh.tags - {k}))
    case CreatePv(s) => w.(pvs := w.pvs[s.cr.spec.pvcName := BuildPV(s.cr, CapacityOf(s.cr.spec).value)])
    case UpdatePv(s, pv) => w.(pvs := w.pvs[s.cr.spec.pvcName := pv.(claimRef := None)])
    case DeletePv(s) => w.(pvs := w.pvs[s.cr.spec.pvcName := w.pvs[s.cr.spec.pvcName].(terminating := true)])
    case CreatePvc(s) =>
      w.(pvcs := w.pvcs[(s.cr.ns, s.cr.spec.pvcName) := BuildPVC(s.cr, CapacityOf(s.cr.spec).value)])
    case DeletePvc(s) =>
      var key := (s.cr.ns, s.cr.spec.pvcName);
      w.(pvcs := w.pvcs[key := w.pvcs[key].(terminating := true)])
    case _ => w
  }

  /** How a call goes: answered; applied but the answer lost; or refused without effect. */
  datatype Outcome = Answered(reply: Reply) | LostReply | Refused(err: GoErr)

  function ReplyOf(o: Outcome): Reply {
    match o
    case Answered(r) => r
    case LostReply => Failure(Plain)
    case Refused(e) => Failure(e)
  }

  predicate Mutates(c: Call) {
    !(c.ReadCr? || c.ListShares? || c.ShowShare? || c.ShowTags? || c.GetPv? || c.GetPvc?)
  }

  predicate MutatesCloud(c: Call) {
    c.CreateShare? || c.DeleteShare? || c.ExpandShare? || c.ChangeSg? || c.AddTag? || c.DeleteTag?
  }

  predicate ListsCloud(l: seq<Listed>, cloud: map<nat, Share>) {
    && (forall i | 0 <= i < |l| :: l[i].id in cloud && l[i].name == cloud[l[i].id].name)
    && (forall id | id in cloud :: Listed(id, cloud[id].name) in l)
  }

  /** The reply fits the call: reads report what is stored. A read of the resource may be stale, but
      the informer's cache never goes back. */
  predicate Fits(w: World, c: Call, r: Reply)
    requires w.hist != [] && Accepts(w, c)
  {
    match c
    case ReadCr => r.Got? && w.cache <= r.snap.rv < |w.hist| && r.snap.cr == w.hist[r.snap.rv]
    case UpdateStatus(_, _) => r.Got? && r.snap == Snap(Current(Effect(w, c)), |Effect(w, c).hist| - 1)
    case CreateShare(_) => r == Minted(w.nextId)
    case ListShares(_, _) => r.Shares? && ListsCloud(r.list, w.cloud)
    case ShowShare(s) =>
      && r.Info?
      && (r.info == w.cloud[s.cr.status.fsId].info || r.info == w.cloud[s.cr.status.fsId].info.(size := 0))
    case ShowTags(s, _) => r == Tags(w.cloud[s.cr.status.fsId].tags)
    case GetPv(s) => r == PvIs(w.pvs[s.cr.spec.pvcName])
    case GetPvc(s) => r == PvcIs(w.pvcs[(s.cr.ns, s.cr.spec.pvcName)])
    case _ => r == Done
  }

  /** An error only says what is the case: not found, name taken, object gone. */
  predicate Truthful(w: World, c: Call, e: GoErr)
    requires w.hist != []
  {
    match c
    case CreateShare(s) => IsNameAlreadyExists(e) ==> NameTaken(w.cloud, s.cr.spec.fsName)
    case ShowShare(s) => IsFsNotFound(Cooked(OpShow, e)) ==> s.cr.status.fsId !in w.cloud
    case DeleteTag(s, _, _, k) =>
      IsNotFound(e) ==> s.cr.status.fsId !in w.cloud || k !in w.cloud[s.cr.status.fsId].tags
    case GetPv(s) => IsApiNotFound(e) ==> s.cr.spec.pvcName !in w.pvs
    case DeletePv(s) => IsApiNotFound(e) ==> s.cr.spec.pvcName !in w.pvs
    case GetPvc(s) => IsApiNotFound(e) ==> (s.cr.ns, s.cr.spec.pvcName) !in w.pvcs
    case DeletePvc(s) => IsApiNotFound(e) ==> (s.cr.ns, s.cr.spec.pvcName) !in w.pvcs
    case ReadCr => IsApiNotFound(e) ==> w.gone
    case AddFinalizer(_) => IsApiNotFound(e) ==> w.gone
    case RemoveFinalizer(_) => IsApiNotFound(e) ==> w.gone
    case UpdateStatus(_, _) => IsApiNotFound(e) ==> w.gone
    case _ => true
  }

  predicate Possible(w: World, c: Call, o: Outcome)
    requires w.hist != []
  {
    match o
    case Answered(r) => Accepts(w, c) && Fits(w, c, r)
    case LostReply => Accepts(w, c) && Mutates(c)
    case Refused(e) => Truthful(w, c, e)
  }

  /** A DeleteShare (an ExpandShare) was accepted and its marker is not yet written. */
  predicate DelPending(pc: Pc) { pc.At? && pc.call.DeleteShare? && pc.reply.Done? }

  predicate ExpPending(pc: Pc) { pc.At? && pc.call.ExpandShare? && pc.reply.Done? }

  predicate Clears(w: World, c: Call)
    requires w.hist != []
  {
    c.UpdateStatus? && c.snap.cr.status.fsId == NO_FS && Current(w).status.fsId != NO_FS
  }

  function One(b: bool): nat { if b then 1 else 0 }

  function Tally(w: World, c: Call, o: Outcome): Log
    requires w.hist != []
  {
    var l := w.log;
    var applied := !o.Refused?;
    var mint := c.CreateShare? && applied;
    var del := c.DeleteShare? && applied;
    var delMark := c.UpdateStatus? && c.why.DeleteMarked?;
    var exp := c.ExpandShare? && applied;
    var expMark := c.UpdateStatus? && c.why.ExpandMarked?;
    var tag := c.AddTag? || c.DeleteTag?;
    l.(issued := if Mutates(c) then l.issued + [c] else l.issued,
       pass := if c.ReadCr? then [] else if MutatesCloud(c) then l.pass + [c] else l.pass,
       seen := if c.ReadCr? then None else if c.ShowShare? && o.Answered? && o.reply.Info? then Some(o.reply.info) else l.seen,
       listed := if c.ReadCr? then None else if c.ShowTags? && o.Answered? && o.reply.Tags? then Some(o.reply.tags) else l.listed,
       minted := if mint then l.minted + {w.nextId} else l.minted,
       mints := l.mints + One(mint),
       cleared := l.cleared + One(applied && Clears(w, c)),
       dels := l.dels + One(del),
       delMarks := l.delMarks + One(delMark && applied),
       delLost := l.delLost + One((del && o.LostReply?) || (delMark && !applied)),
       retained := l.retained + One(c.UpdateStatus? && c.why.RetainNote? && applied),
       exps := l.exps + One(exp),
       expMarks := l.expMarks + One(expMark && applied),
       expLost := l.expLost + One((exp && o.LostReply?) || (expMark && !applied)),
       tagOk := l.tagOk + One(tag && o.Answered?),
       tagBad := l.tagBad + One(tag && !o.Answered?))
  }

  function Perform(w: World, c: Call, o: Outcome): World
    requires w.hist != [] && Possible(w, c, o)
  {
    var w1 := if o.Refused? then w else Effect(w, c);
    var w2 := if c.ReadCr? && o.Answered? then w1.(cache := o.reply.snap.rv) else w1;
    w2.(pc := At(c, ReplyOf(o)), log := Tally(w, c, o))
  }

  // ================================================================ everybody else

  /** What happens around the worker. */
  datatype EnvAct =
    | EditSpec(spec: Spec)                  // a user; the file-system name stays
    | DeleteCr                              // a user deletes the resource
    | StripFinalizer                        // a user removes the finalizer by hand
    | CloudWork(id: nat, share: Share)      // the cloud reports progress on a share
    | FinishDelete(id: nat)                 // an accepted DeleteShare completes
    | Destroy(id: nat)                      // somebody removes a share
    | EditTags(id: nat, tags: map<string, string>)
    | Foreign(share: Share)                 // another share appears, under another name
    | Objects(pvs: map<string, PV>, pvcs: map<(string, string), PVC>)
    | Crash                                 // the operator restarts

  /** Only an accepted ExpandShare changes a size, and only to its target; tags do not change by
      themselves. */
  predicate CloudMay(s: Share, t: Share) {
    && t.name == s.name && t.tags == s.tags && t.dying == s.dying
    && (t.info.size == s.info.size || (s.target > s.info.size && t.info.size == s.target))
    && (t.target == s.target || t.target == 0)
  }

  predicate EnvMay(w: World, a: EnvAct)
    requires w.hist != []
  {
    match a
    case EditSpec(spec) => !w.gone && spec.fsName == w.fsName
    case DeleteCr => !w.gone && !Current(w).deleted
    case StripFinalizer => !w.gone && Current(w).finalizer
    case CloudWork(id, t) => id in w.cloud && CloudMay(w.cloud[id], t)
    case FinishDelete(id) => id in w.cloud && w.cloud[id].dying
    case Destroy(id) => id in w.cloud
    case EditTags(id, _) => id in w.cloud
    case Foreign(s) => s.name != w.fsName && !NameTaken(w.cloud, s.name)
    case Objects(_, _) => true
    case Crash => true
  }

  function WithoutShare(w: World, id: nat): World {
    w.(cloud := w.cloud - {id})
  }

  function EnvStep(w: World, a: EnvAct): World
    requires w.hist != [] && EnvMay(w, a)
  {
    match a
    case EditSpec(spec) =>
      var cr := Current(w);
      if spec == cr.spec then w
      else
        w.(hist := w.hist + [cr.(spec := spec, generation := cr.generation + 1)],
           log := if spec.size == cr.spec.size then w.log else w.log.(exps := 0, expMarks := 0, expLost := 0))
    case DeleteCr =>
      w.(hist := w.hist + [Current(w).(deleted := true)], gone := !Current(w).finalizer)
    case StripFinalizer =>
      w.(hist := w.hist + [Current(w).(finalizer := false)], gone := Current(w).deleted)
    case CloudWork(id, t) => SetShare(w, id, t)
    case FinishDelete(id) =>
      WithoutShare(w, id).(log := w.log.(finished := w.log.finished + One(w.cloud[id].name == w.fsName)))
    case Destroy(id) =>
      WithoutShare(w, id).(log := w.log.(destroyed := w.log.destroyed + One(w.cloud[id].name == w.fsName)))
    case EditTags(id, tags) => SetShare(w, id, w.cloud[id].(tags := tags))
    case Foreign(s) => SetShare(w, w.nextId, s).(nextId := w.nextId + 1)
    case Objects(pvs, pvcs) => w.(pvs := pvs, pvcs := pvcs)
    case Crash =>
      w.(pc := Idle, log := w.log.(delLost := w.log.delLost + One(DelPending(w.pc)),
                                   expLost := w.log.expLost + One(ExpPending(w.pc))))
  }

  // ================================================================ steps and runs

  datatype Act = Do(call: Call, outcome: Outcome) | End(result: Result) | Env(act: EnvAct)

  /** `es` are the condition updates that the worker makes before a call. */
  ghost predicate May(w: World, a: Act, es: seq<Entry>) {
    && w.hist != []
    && match a
       case Do(c, o) => Follows(w.pc, c, es) && Possible(w, c, o)
       case End(res) => Ending(w.pc) == Some(res)
       case Env(e) => EnvMay(w, e)
  }

  ghost function Next(w: World, a: Act): World
    requires exists es :: May(w, a, es)
  {
    match a
    case Do(c, o) => Perform(w, c, o)
    case End(_) => w.(pc := Idle)
    case Env(e) => EnvStep(w, e)
  }

  ghost predicate Step(w: World, a: Act, w': World) {
    exists es :: May(w, a, es) && w' == Next(w, a)
  }

  /** A run: the worlds passed through and the steps between them. */
  datatype Run = Run(worlds: seq<World>, acts: seq<Act>)

  ghost predicate IsRun(r: Run) {
    && |r.worlds| == |r.acts| + 1
    && forall i | 0 <= i < |r.acts| :: Step(r.worlds[i], r.acts[i], r.worlds[i + 1])
  }

  /** A new resource: never reconciled, and no share of its name exists. */
  ghost predicate Initial(w: World) {
    && w.pc == Idle && !w.gone && |w.hist| == 1 && w.cache == 0
    && w.hist[0].spec.fsName == w.fsName && !w.hist[0].deleted
    && w.hist[0].status.fsId == NO_FS && w.hist[0].status.conditions == []
    && w.nextId > 0 && (forall id | id in w.cloud :: 0 < id < w.nextId)
    && !NameTaken(w.cloud, w.fsName)
    && (forall a, b | a in w.cloud && b in w.cloud && w.cloud[a].name == w.cloud[b].name :: a == b)
    && w.log == Log([], [], None, None, {}, 0, 0, 0, 0, 0, 0, 0, 0, 0, 0, 0, 0, 0)
  }
}
