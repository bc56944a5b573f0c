/** What the answer of a pass means: why a pass asks to be run again, reports an error, or ends the work. */
module Results {
  import opened Errors
  import opened Types
  import opened Protocol
  import opened Safety
  import opened Guarantees
  import opened Branches

  /** The API says that the resource does not exist. */
  predicate SaidGone(r: Reply) { r.Failure? && Innermost(r.err) == ApiNotFound }

  /** A status write that went through, or that had nothing to write to any more. */
  predicate Stored(r: Reply) { r.Got? || SaidGone(r) }

  predicate NotesOneOf(last: Call, whys: set<Why>) { last.UpdateStatus? && last.why in whys }

  /** The object after a call that may have replaced it. */
  function Kept(last: Call, r: Reply): Cr
    requires !last.ReadCr?
  {
    if r.Got? then r.snap.cr else last.snap.cr
  }

  // ---------------------------------------------------------------- the six answers

  /** There is nothing left to do. */
  predicate IsDone(last: Call, r: Reply) {
    || (last.ReadCr? && (SaidGone(r) || (r.Got? && r.snap.cr.deleted && !r.snap.cr.finalizer)))
    || (last.RemoveFinalizer? && (r.Done? || SaidGone(r)))
    || (NotesOneOf(last, {PausedNote, ErroredNote}) && Stored(r))
    || (NotesOneOf(last, {Settled}) && Stored(r) && Kept(last, r).spec.pvcName == "")
    || (last.GetPvc? && !last.snap.cr.deleted && r.PvcIs?)
    || (last.CreatePvc? && r.Done?)
  }

  /** A deletion is under way. */
  predicate IsDeleting(last: Call, r: Reply) {
    || (last.ShowShare? && last.snap.cr.deleted && r.Info?)
    || (NotesOneOf(last, {DeleteMarked}) && Stored(r))
  }

  /** The share is being made, or changed, or is in a state of its own. */
  predicate IsProvisioning(last: Call, r: Reply) {
    || (NotesOneOf(last, {CreatedNote, ExpandMarked, ExpandWait, SgMarked, SgWait}) && Stored(r))
    || (last.ShowShare? && !last.snap.cr.deleted && r.Info? && r.info.status !in {"200", "303", "308", "400"})
  }

  /** The next pass has a step to take at once. */
  predicate IsImmediate(last: Call, r: Reply) {
    (last.AddFinalizer? && r.Done?) || NotesOneOf(last, {RecreateNote})
  }

  /** The status is stored and the volumes are not as they should be, for this error. */
  predicate IsVolumeError(last: Call, r: Reply, e: GoErr) {
    || ((last.GetPv? || last.CreatePv? || last.GetPvc? || last.CreatePvc?) && r == Failure(e))
    || (last.UpdatePv? && r.Failure? && e == Wrap(OpClaimRef, r.err))
    || (NotesOneOf(last, {Settled}) && Stored(r) && Kept(last, r).spec.pvcName != "" &&
        if Kept(last, r).status.fsId == 0 || Kept(last, r).status.exportPath == "" then e == Wrap(OpNoStatus, Plain)
        else Kept(last, r).spec.pvcSize.Malformed? && e == Wrap(OpPvcSize, Plain))
  }

  /** A call to the cloud failed with this error, or one to the API did. */
  predicate IsError(last: Call, r: Reply, e: GoErr) {
    || (last.UpdateStatus? && last.why == FailureNote(e))
    || (r == Failure(e) && last.AddFinalizer?)
    || (r == Failure(e) && Innermost(e) != ApiNotFound &&
        (last.ReadCr? || last.RemoveFinalizer? || (last.UpdateStatus? && !last.why.FailureNote? && !last.why.RecreateNote?)))
  }

  lemma Endings(last: Call, r: Reply, res: Result)
    requires Kind(last, r) && Ending(At(last, r)) == Some(res)
    ensures res == Result(NoRequeue, None) <==> IsDone(last, r)
    ensures res.requeue == AfterDeleting <==> IsDeleting(last, r)
    ensures res == Result(AfterProvisioning, None) <==> IsProvisioning(last, r)
    ensures res.requeue == Immediately <==> IsImmediate(last, r)
    ensures forall e :: res == Result(AfterProvisioning, Some(e)) <==> IsVolumeError(last, r, e)
    ensures forall e :: res == Result(NoRequeue, Some(e)) <==> IsError(last, r, e)
    ensures res.requeue == AfterDeleting ==> res.err == None
    ensures res.requeue == Immediately ==> res.err == if last.UpdateStatus? && !Stored(r) then Some(r.err) else None
  {
    if r.Failure? { InnermostDecides(r.err); }
  }

  // ---------------------------------------------------------------- over runs

  /** The reply in hand is of the kind that its call gets; and when it says that the resource is gone, or
      that the finalizer of a deleted resource was removed, the resource is gone. */
  ghost predicate Heard(w: World) {
    w.pc.At? ==>
      && Kind(w.pc.call, w.pc.reply)
      && ((w.pc.call.ReadCr? || w.pc.call.RemoveFinalizer?) && SaidGone(w.pc.reply) ==> w.gone)
      && (w.pc.call.RemoveFinalizer? && w.pc.reply.Done? ==> w.gone)
  }

  lemma HeardCall(w: World, c: Call, o: Outcome)
    requires w.hist != [] && Possible(w, c, o)
    requires c.RemoveFinalizer? ==> Current(w).deleted
    ensures Heard(Perform(w, c, o))
  {
    hide Kind;
    PossibleKind(w, c, o);
    if o.Refused? { InnermostDecides(o.err); }
  }

  lemma HeardEnv(w: World, e: EnvAct)
    requires Heard(w) && w.hist != [] && EnvMay(w, e)
    ensures Heard(EnvStep(w, e))
  {
    hide Kind;
  }

  /** Deletion is final: a call made from a deleted version is made on a deleted resource. */
  lemma DeletedStays(w: World, c: Call)
    requires VersionsOk(w) && CallOk(w, c) && !c.ReadCr? && c.snap.cr.deleted
    ensures w.hist != [] && Current(w).deleted
  {
    hide Guard;
  }

  lemma HeardStep(w: World, a: Act, v: World)
    requires Inv(w) && Heard(w) && Step(w, a, v)
    ensures Heard(v)
  {
    hide Inv, Heard, Follows, Possible, EnvMay, Perform, Ending, VersionsOk, PcOk, CallOk;
    var es :| May(w, a, es) && v == Next(w, a);
    match a
    case Do(c, o) =>
      InvParts(w);
      FollowsOk(w, c, es);
      if c.RemoveFinalizer? {
        RemovesDeleted(w, c);
      }
      HeardCall(w, c, o);
    case End(_) => HeardIdle(v);
    case Env(e) => HeardEnv(w, e);
  }

  lemma HeardIdle(w: World)
    requires w.pc.Idle?
    ensures Heard(w)
  {
  }

  lemma RemovesDeleted(w: World, c: Call)
    requires VersionsOk(w) && CallOk(w, c) && c.RemoveFinalizer?
    ensures w.hist != [] && Current(w).deleted
  {
    DeletedStays(w, c);
  }

  lemma {:induction false} EveryReplyIsHeard(r: Run, i: nat)
    requires IsRun(r) && Initial(r.worlds[0]) && i < |r.worlds|
    ensures Heard(r.worlds[i])
  {
    hide Inv, Heard, Step;
    if i == 0 {
      HeardIdle(r.worlds[0]);
    } else {
      EveryReplyIsHeard(r, i - 1);
      RunKeeps(r, i - 1);
      HeardStep(r.worlds[i - 1], r.acts[i - 1], r.worlds[i]);
    }
  }

  /** Every answer of every pass of every run, by what the last call was and what came of it. */
  lemma AnswersExactly(w: World, res: Result, v: World)
    requires Reachable(w) && Step(w, End(res), v)
    ensures w.pc.At?
    ensures var last, r := w.pc.call, w.pc.reply;
            && (res == Result(NoRequeue, None) <==> IsDone(last, r))
            && (res.requeue == AfterDeleting <==> IsDeleting(last, r))
            && (res == Result(AfterProvisioning, None) <==> IsProvisioning(last, r))
            && (res.requeue == Immediately <==> IsImmediate(last, r))
            && (forall e :: res == Result(AfterProvisioning, Some(e)) <==> IsVolumeError(last, r, e))
            && (forall e :: res == Result(NoRequeue, Some(e)) <==> IsError(last, r, e))
  {
    hide Heard, Kind, Ending, IsDone, IsDeleting, IsProvisioning, IsImmediate, IsVolumeError, IsError;
    EndingOf(w, res, v);
    var run: Run, i: nat :| ReachedIn(w, run, i);
    EveryReplyIsHeard(run, i);
    assert Kind(w.pc.call, w.pc.reply) by { HeardKind(w); }
    Endings(w.pc.call, w.pc.reply, res);
  }

  lemma HeardKind(w: World)
    requires Heard(w) && w.pc.At?
    ensures Kind(w.pc.call, w.pc.reply)
  {
  }

  lemma EndingOf(w: World, res: Result, v: World)
    requires Step(w, End(res), v)
    ensures w.pc.At? && Ending(w.pc) == Some(res)
  {
    hide EndsWrite, EndsEnsure;
  }

  /** A pass that read a deleted resource with the finalizer, and ends without a requeue and without an
      error, leaves the resource gone. So as long as the finalizer holds a deleted resource back, every
      pass over it is followed by another one. */
  lemma DeletionIsNotForgotten(w: World, v: World)
    requires Reachable(w) && Step(w, End(Result(NoRequeue, None)), v)
    requires w.cache < |w.hist| && w.hist[w.cache].deleted && w.hist[w.cache].finalizer
    ensures w.gone && v.gone
  {
    hide Inv, Ending, IsDone, IsDeleting, IsProvisioning, IsImmediate, IsVolumeError, IsError, Heard, Kind;
    AnswersExactly(w, Result(NoRequeue, None), v);
    ReachableInv(w);
    InvParts(w);
    var run: Run, i: nat :| ReachedIn(w, run, i);
    EveryReplyIsHeard(run, i);
    DoneMeansGone(w);
    assert v.gone by { EndStep(w, Result(NoRequeue, None), v); }
  }

  lemma EndStep(w: World, res: Result, v: World)
    requires Step(w, End(res), v)
    ensures v == w.(pc := Idle)
  {
    hide Ending;
  }

  lemma DoneMeansGone(w: World)
    requires VersionsOk(w) && PcOk(w) && Heard(w) && w.pc.At? && IsDone(w.pc.call, w.pc.reply)
    requires w.hist[w.cache].deleted && w.hist[w.cache].finalizer
    ensures w.gone
  {
    hide Kind;
  }
}
