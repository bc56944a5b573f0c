/** What the protocol allows after each reply, and where it lets a pass end. */
module Branches {
  import opened Errors
  import opened Conditions
  import opened Types
  import opened Poll
  import opened Protocol
  import opened PollEnds

  /** The kind of answer a call can get. */
  predicate Kind(c: Call, r: Reply) {
    r.Failure? ||
    match c
    case ReadCr => r.Got?
    case UpdateStatus(_, _) => r.Got?
    case CreateShare(_) => r.Minted?
    case ListShares(_, _) => r.Shares?
    case ShowShare(_) => r.Info?
    case ShowTags(_, _) => r.Tags?
    case GetPv(_) => r.PvIs?
    case GetPvc(_) => r.PvcIs?
    case _ => r.Done?
  }

  lemma PossibleKind(w: World, c: Call, o: Outcome)
    requires w.hist != [] && Possible(w, c, o)
    ensures Kind(c, ReplyOf(o))
  {
    hide Accepts, Truthful, Effect, ListsCloud;
  }

  // ---------------------------------------------------------------- writes and deletion

  lemma FailureEnds(pc: Pc, e: GoErr)
    requires pc.At? && pc.call.UpdateStatus? && pc.call.why == FailureNote(e)
    ensures Ending(pc) == Some(Result(NoRequeue, Some(e)))
  {
  }

  lemma RemoveEnds(s: Snap, r: Reply)
    ensures Ending(At(RemoveFinalizer(s), r)) ==
            Some(Result(NoRequeue, if r.Failure? && !IsApiNotFound(r.err) then Some(r.err) else None))
  {
  }

  /** How a status write of kind `why` ends the pass, and what a successful note of a deletion allows. */
  lemma NoteEnds(pc: Pc, why: Why)
    requires pc.At? && pc.call.UpdateStatus? && pc.call.why == why
    ensures why.DeleteMarked? ==> Ending(pc) == PatchThen(pc.reply, AfterDeleting)
    ensures (why.RetainNote? || why.GoneNote?) && !PatchOk(pc.reply) ==> Ending(pc) == PatchThen(pc.reply, NoRequeue)
    ensures (why.RetainNote? || why.GoneNote?) && PatchOk(pc.reply) ==> Follows(pc, RemoveFinalizer(Held(pc.call, pc.reply)), [])
  {
  }

  lemma ShowThenDelete(s: Snap, info: ShareInfo)
    requires s.cr.deleted && !HasTrue(s.cr.status.conditions, Deleting)
    ensures Follows(At(ShowShare(s), Info(info)), if s.cr.spec.pvcName != "" then GetPvc(s) else DeleteShare(s), [])
  {
  }

  lemma DeleteNext(s: Snap, r: Reply)
    requires r.Done? || r.Failure?
    ensures r.Done? ==> forall c, es | Writes(s, DeletePendingSets(), DeleteMarked, c, es) :: Follows(At(DeleteShare(s), r), c, es)
    ensures r.Failure? ==>
              forall c, es | FailWrite(s, FsDeleteFailed, Cooked(OpDelete, r.err), c, es) :: Follows(At(DeleteShare(s), r), c, es)
  {
  }

  lemma CreateNext(s: Snap, r: Reply)
    requires r.Minted? || r.Failure?
    ensures r.Minted? ==>
              forall c, es | Writes(WithFs(s, r.id), CreatedSets(), CreatedNote, c, es) :: Follows(At(CreateShare(s), r), c, es)
    ensures r.Failure? && IsNameAlreadyExists(r.err) ==> Follows(At(CreateShare(s), r), ListShares(s, r.err), [])
    ensures r.Failure? && !IsNameAlreadyExists(r.err) ==>
              forall c, es | FailWrite(s, FsCreateFailed, Cooked(OpCreate, r.err), c, es) :: Follows(At(CreateShare(s), r), c, es)
  {
  }

  lemma ListNext(s: Snap, taken: GoErr, r: Reply)
    requires r.Shares? || r.Failure?
    ensures var pc, id := At(ListShares(s, taken), r), if r.Shares? then FirstNamed(r.list, s.cr.spec.fsName) else NO_FS;
            && (id != NO_FS ==> forall c, es | Writes(WithFs(s, id), CreatedSets(), CreatedNote, c, es) :: Follows(pc, c, es))
            && (id == NO_FS ==> forall c, es | FailWrite(s, FsCreateFailed, Cooked(OpCollision, taken), c, es) :: Follows(pc, c, es))
  {
  }

  /** How a status write that is the last thing of its pass ends it. */
  lemma LastWrite(pc: Pc)
    requires pc.At? && pc.call.UpdateStatus? && Kind(pc.call, pc.reply)
    ensures var why, r := pc.call.why, pc.reply;
            && (why.CreatedNote? || why.ExpandMarked? || why.ExpandWait? || why.SgMarked? || why.SgWait? ==>
                  Ending(pc) == PatchThen(r, AfterProvisioning))
            && (why.PausedNote? || why.ErroredNote? ==> Ending(pc) == PatchThen(r, NoRequeue))
            && (why.RecreateNote? ==> Ending(pc) == Some(Result(Immediately, if PatchOk(r) then None else ErrOf(r))))
            && (why.Settled? && !PatchOk(r) ==> Ending(pc) == PatchThen(r, NoRequeue))
  {
  }

  function PausedSets(): seq<CondSet> { [CondSet(Provisioning, False, ReconcilePaused, Fixed)] }

  lemma ReadNext(s: Snap)
    requires !s.cr.deleted
    ensures var pc := At(ReadCr, Got(s));
            if !s.cr.finalizer then Follows(pc, AddFinalizer(s), [])
            else if s.cr.spec.paused then forall c, es | Writes(s, PausedSets(), PausedNote, c, es) :: Follows(pc, c, es)
            else Follows(pc, if s.cr.status.fsId == NO_FS then CreateShare(s) else ShowShare(s), [])
  {
    hide Writes;
  }

  lemma AddEnds(s: Snap, r: Reply)
    ensures Ending(At(AddFinalizer(s), r)) == Some(if r.Failure? then Result(NoRequeue, Some(r.err)) else Result(Immediately, None))
  {
  }

  // ---------------------------------------------------------------- the poll

  lemma PollOther(s: Snap, r: Reply)
    requires !s.cr.deleted
    ensures var pc := At(ShowShare(s), r);
            && (r.Info? && !IsAvailable(r.info.status) && IsErrored(r.info.status) ==>
                  forall c, es | Writes(s, ErroredSets(r.info), ErroredNote, c, es) :: Follows(pc, c, es))
            && (r.Info? && !IsAvailable(r.info.status) && !IsErrored(r.info.status) ==>
                  Ending(pc) == Some(Result(AfterProvisioning, None)))
            && (r.Failure? && IsFsNotFound(Cooked(OpShow, r.err)) ==>
                  forall c, es | Writes(s.(cr := RecreateCr(s.cr)), RecreateSets(), RecreateNote, c, es) :: Follows(pc, c, es))
            && (r.Failure? && !IsFsNotFound(Cooked(OpShow, r.err)) ==>
                  forall c, es | FailWrite(s, HuaweiAPIError, Cooked(OpShow, r.err), c, es) :: Follows(pc, c, es))
  {
    hide Writes, FailWrite, IsFsNotFound, FollowsAvailable;
  }

  lemma GrowNext(s: Snap, info: ShareInfo)
    requires !s.cr.deleted && IsAvailable(info.status) && Grows(s.cr.spec, info)
    ensures var pc, seen := At(ShowShare(s), Info(info)), s.(cr := Observed(s.cr, info));
            if HasTrue(s.cr.status.conditions, Expanding) then
              forall c, es | Writes(seen, ReadySets(info), ExpandWait, c, es) :: Follows(pc, c, es)
            else forall es | Told(es, ReadySets(info), s.cr.generation) :: Follows(pc, ExpandShare(Note(seen, es), info), es)
  {
    hide Writes, HasTrue, ReadySets, Told;
  }

  lemma ExpandNext(s: Snap, info: ShareInfo, r: Reply)
    requires r.Done? || r.Failure?
    ensures var pc := At(ExpandShare(s, info), r);
            if r.Done? then
              forall c, es | Writes(s, [CondSet(Expanding, True, FsExpandPending, Sizes(info.size, s.cr.spec.size))], ExpandMarked, c, es) ::
                Follows(pc, c, es)
            else forall c, es | FailWrite(s, HuaweiAPIError, Cooked(OpExpand, r.err), c, es) :: Follows(pc, c, es)
  {
    hide Writes, FailWrite;
  }

  lemma RegroupNext(s: Snap, info: ShareInfo)
    requires !s.cr.deleted && IsAvailable(info.status) && !Grows(s.cr.spec, info) && SgDrifts(s.cr.spec, info)
    ensures var pc, seen := At(ShowShare(s), Info(info)), s.(cr := Observed(s.cr, info));
            if IsSgChangeInFlight(info.subStatus) then
              forall c, es | Writes(s.(cr := ObservedSg(s.cr, info)), SizedSets(s.cr, info) + [SgPendingSet(info.subStatus)], SgWait, c, es) ::
                Follows(pc, c, es)
            else forall es | Told(es, SizedSets(s.cr, info), s.cr.generation) :: Follows(pc, ChangeSg(Note(seen, es), info), es)
  {
    hide Writes, SizedSets, Told;
  }

  lemma ChangeNext(s: Snap, info: ShareInfo, r: Reply)
    requires r.Done? || r.Failure?
    ensures var pc := At(ChangeSg(s, info), r);
            if r.Done? then
              forall c, es | Writes(s.(cr := s.cr.(status := s.cr.status.(sg := info.sg))), [SgPendingSet(s.cr.spec.sg)], SgMarked, c, es) ::
                Follows(pc, c, es)
            else
              forall c, es | Writes(s, SgFailedSets(Cooked(OpChangeSg, r.err)), FailureNote(Cooked(OpChangeSg, r.err)), c, es) ::
                Follows(pc, c, es)
  {
    hide Writes;
  }

  lemma CompleteNext(s: Snap, info: ShareInfo, es: seq<Entry>)
    requires !s.cr.deleted && IsAvailable(info.status) && !Grows(s.cr.spec, info) && !SgDrifts(s.cr.spec, info)
    requires Told(es, SizedSets(s.cr, info) + SgDoneSets(s.cr, info), s.cr.generation)
    ensures var s1 := Note(s.(cr := ObservedSg(s.cr, info)), es);
            Follows(At(ShowShare(s), Info(info)), if IsSgChangeInFlight(info.subStatus) then UpdateStatus(s1, Settled) else ShowTags(s1, info), es)
  {
    hide SizedSets, SgDoneSets, Told;
  }

  // ---------------------------------------------------------------- volumes

  /** The pass has written its status and may look after the volumes. */
  ghost predicate StatusStored(pc: Pc, s: Snap) {
    pc.At? && pc.call.UpdateStatus? && pc.call.why.Settled? && PatchOk(pc.reply) && Held(pc.call, pc.reply) == s
  }

  lemma StoredNext(pc: Pc, s: Snap)
    requires StatusStored(pc, s)
    ensures WantsPv(s.cr) ==> Follows(pc, GetPv(s), [])
    ensures s.cr.spec.pvcName == "" ==> Ending(pc) == Some(Result(NoRequeue, None))
    ensures s.cr.spec.pvcName != "" && (s.cr.status.fsId == NO_FS || s.cr.status.exportPath == "") ==>
              Ending(pc) == EnsureFailed(Wrap(OpNoStatus, Plain))
    ensures s.cr.spec.pvcName != "" && s.cr.status.fsId != NO_FS && s.cr.status.exportPath != "" && CapacityOf(s.cr.spec) == None ==>
              Ending(pc) == EnsureFailed(Wrap(OpPvcSize, Plain))
  {
  }

  /** How the volume part ends, by the error it returns. */
  function EnsureEnding(err: Option<GoErr>): Option<Result> {
    if err.Some? then EnsureFailed(err.value) else Some(Result(NoRequeue, None))
  }

  /** What the protocol allows after a call on a volume or a claim. */
  lemma AfterGetPv(s: Snap, r: Reply)
    requires !s.cr.deleted
    ensures var pc := At(GetPv(s), r);
            && (r.PvIs? ==> Follows(pc, if StaleClaim(r.pv) then UpdatePv(s, r.pv) else GetPvc(s), []))
            && (r.Failure? && IsApiNotFound(r.err) ==> Follows(pc, CreatePv(s), []))
            && (r.Failure? && !IsApiNotFound(r.err) ==> Ending(pc) == EnsureFailed(r.err))
  {
  }

  lemma AfterCreatePv(s: Snap, r: Reply)
    ensures r.Done? ==> Follows(At(CreatePv(s), r), GetPvc(s), [])
    ensures r.Failure? ==> Ending(At(CreatePv(s), r)) == EnsureFailed(r.err)
  {
  }

  lemma AfterUpdatePv(s: Snap, pv: PV, r: Reply)
    ensures r.Done? ==> Follows(At(UpdatePv(s, pv), r), GetPvc(s), [])
    ensures r.Failure? ==> Ending(At(UpdatePv(s, pv), r)) == EnsureFailed(Wrap(OpClaimRef, r.err))
  {
  }

  lemma AfterGetPvc(s: Snap, r: Reply)
    requires !s.cr.deleted
    ensures var pc := At(GetPvc(s), r);
            && (r.PvcIs? ==> Ending(pc) == EnsureEnding(None))
            && (r.Failure? && IsApiNotFound(r.err) ==> Follows(pc, CreatePvc(s), []))
            && (r.Failure? && !IsApiNotFound(r.err) ==> Ending(pc) == EnsureFailed(r.err))
  {
  }

  lemma AfterCreatePvc(s: Snap, r: Reply)
    ensures Ending(At(CreatePvc(s), r)) == EnsureEnding(ErrOf(r))
  {
  }

  /** And in the cascade of a deletion. */
  lemma CascadeNext(last: Call, r: Reply, c: Call)
    requires last.GetPvc? || last.DeletePvc? || last.GetPv? || last.DeletePv?
    requires last.snap.cr.deleted && FollowsCascade(last, r, c, [])
    ensures Follows(At(last, r), c, [])
  {
    hide FollowsCascade;
  }
}
