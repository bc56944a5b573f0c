/** What a pass decides on what it was told, on plain values; in which order its calls come; and what
    each note that it writes says. */
module Decisions {
  import opened Errors
  import opened Conditions
  import opened Types
  import opened Poll
  import opened Protocol
  import opened Safety
  import opened Passes

  // ---------------------------------------------------------------- decisions

  predicate Notes(c: Call, why: Why) { c.UpdateStatus? && c.why == why }

  /** After a report on the share of a living resource: an available share that is to grow is expanded,
      or waited for if the marker is set; else one in another group than wanted is moved, or waited for
      while it is being moved; else the tags are listed, unless the group is being changed, and then the
      status is written at once. A share in one of the three error states is noted. */
  lemma AfterReport(s: Snap, info: ShareInfo, c: Call, es: seq<Entry>)
    requires !s.cr.deleted && Follows(At(ShowShare(s), Info(info)), c, es)
    ensures var grow, regroup := info.size > 0 && s.cr.spec.size > info.size, s.cr.spec.sg != "" && s.cr.spec.sg != info.sg;
            var marked, ready := HasTrue(s.cr.status.conditions, Expanding), info.status == "200";
            && (c.ExpandShare? <==> ready && grow && !marked)
            && (Notes(c, ExpandWait) <==> ready && grow && marked)
            && (c.ChangeSg? <==> ready && !grow && regroup && info.subStatus != "132")
            && (Notes(c, SgWait) <==> ready && !grow && regroup && info.subStatus == "132")
            && (c.ShowTags? <==> ready && !grow && !regroup && info.subStatus != "132")
            && (Notes(c, Settled) <==> ready && !grow && !regroup && info.subStatus == "132")
            && (Notes(c, ErroredNote) <==> info.status in {"303", "308", "400"})
            && (ready || info.status in {"303", "308", "400"})
  {
    hide HasTrue, Told, SizedSets, SgDoneSets, ReadySets, Replay;
  }

  /** A tag that is not there any more counts as deleted: the pass goes on with the next tag, or writes
      the status with the tags as they are then. */
  lemma AfterDeletedTag(s: Snap, info: ShareInfo, live: map<string, string>, k: string, e: GoErr, c: Call, es: seq<Entry>)
    requires HttpCode(e) == 404 && Follows(At(DeleteTag(s, info, live, k), Failure(e)), c, es)
    ensures (IsTagCall(c) && c.live == live - {k}) || (Notes(c, Settled) && c.snap.cr.status.tags == live - {k})
  {
    hide Missing, Extra, Told, Replay;
  }

  /** After the read: a deleted resource loses its finalizer at once when it never had a share, after a note
      when its share is retained, and is asked about otherwise; a living one gets the finalizer first, then
      a pause holds everything back, and then the share is created or asked about. */
  lemma AfterRead(s: Snap, c: Call, es: seq<Entry>)
    requires Follows(At(ReadCr, Got(s)), c, es)
    ensures var deleted, ready, recorded := s.cr.deleted, s.cr.finalizer, s.cr.status.fsId != 0;
            && (c.RemoveFinalizer? <==> deleted && ready && !recorded)
            && (Notes(c, RetainNote) <==> deleted && ready && recorded && s.cr.spec.policy == Retain)
            && (c.ShowShare? <==> ready && recorded && if deleted then s.cr.spec.policy == Delete else !s.cr.spec.paused)
            && (c.AddFinalizer? <==> !deleted && !ready)
            && (Notes(c, PausedNote) <==> !deleted && ready && s.cr.spec.paused)
            && (c.CreateShare? <==> !deleted && ready && !s.cr.spec.paused && !recorded)
            && c.snap.rv == s.rv
  {
    hide Told, Replay;
  }

  /** The error says that the share does not exist: HTTP 404 at the end of the chain, or the sentinel. */
  predicate SaysMissing(e: GoErr) {
    Innermost(e) == FsNotFound || (Innermost(e).Service? && Innermost(e).code == 404)
  }

  /** After the question whether the share is there: when it is not, a deletion goes on to its end and a
      living resource to a new creation; a deletion that is not marked as issued asks for the claim first,
      if one is named, and else for the removal of the share. */
  lemma AfterShow(s: Snap, r: Reply, c: Call, es: seq<Entry>)
    requires Follows(At(ShowShare(s), r), c, es)
    ensures Notes(c, GoneNote) <==> s.cr.deleted && r.Failure? && SaysMissing(r.err)
    ensures Notes(c, RecreateNote) <==> !s.cr.deleted && r.Failure? && SaysMissing(r.err)
    ensures c.GetPvc? <==> s.cr.deleted && r.Info? && s.cr.spec.pvcName != ""
    ensures c.DeleteShare? <==> s.cr.deleted && r.Info? && s.cr.spec.pvcName == ""
    ensures s.cr.deleted && r.Info? ==> !HasTrue(s.cr.status.conditions, Deleting)
  {
    hide Told, Replay, HasTrue, FollowsAvailable;
    if r.Failure? { InnermostDecides(r.err); CookedNotFound(OpShow, r.err); }
    if !s.cr.deleted && r.Info? && r.info.status == "200" { AvailableGoesOn(s, r.info, c, es); }
  }

  lemma AvailableGoesOn(s: Snap, info: ShareInfo, c: Call, es: seq<Entry>)
    requires FollowsAvailable(s, info, c, es)
    ensures !c.GetPvc? && !c.DeleteShare? && !Notes(c, GoneNote) && !Notes(c, RecreateNote)
  {
    hide Told, Replay, HasTrue;
  }

  /** The API says that the object does not exist. */
  predicate SaysAbsent(r: Reply) { r.Failure? && Innermost(r.err) == ApiNotFound }

  /** In a deletion the claim goes first, then the volume, unless they are going already; whatever happens
      to them, the share goes next. */
  lemma AfterCascade(last: Call, r: Reply, c: Call, es: seq<Entry>)
    requires last.GetPvc? || last.DeletePvc? || last.GetPv? || last.DeletePv?
    requires last.snap.cr.deleted && Follows(At(last, r), c, es)
    ensures c.DeletePvc? <==> last.GetPvc? && r.PvcIs? && !r.pvc.terminating
    ensures c.GetPv? <==> (last.GetPvc? && ((r.PvcIs? && r.pvc.terminating) || SaysAbsent(r))) ||
                          (last.DeletePvc? && (r.Done? || SaysAbsent(r)))
    ensures c.DeletePv? <==> last.GetPv? && r.PvIs? && !r.pv.terminating
    ensures c.DeletePvc? || c.GetPv? || c.DeletePv? || c.DeleteShare?
    ensures c.snap == last.snap
  {
    if r.Failure? { InnermostDecides(r.err); }
  }

  /** For a living resource a missing volume and then a missing claim are created; a volume that is there
      is changed only when it is released, carries the operator's label and has a claim. */
  lemma AfterVolume(last: Call, r: Reply, c: Call, es: seq<Entry>)
    requires OfVolumes(last) && !last.snap.cr.deleted && Follows(At(last, r), c, es)
    ensures c.CreatePv? <==> last.GetPv? && SaysAbsent(r)
    ensures c.UpdatePv? <==> && last.GetPv? && r.PvIs? && r.pv.phase == Released
                             && r.pv.managedBy == "huawei-sfs-operator" && r.pv.claimRef.Some?
    ensures c.CreatePvc? <==> last.GetPvc? && SaysAbsent(r)
    ensures c.CreatePv? || c.UpdatePv? || c.CreatePvc? || (c.GetPvc? && (last.GetPv? || r.Done?))
    ensures c.snap == last.snap
  {
    if r.Failure? { InnermostDecides(r.err); }
  }

  /** After a status write the pass goes on in two cases: a deletion that is at its end, and a poll that is
      at its end and has what a volume needs. */
  lemma AfterWrite(s: Snap, why: Why, r: Reply, c: Call, es: seq<Entry>)
    requires Follows(At(UpdateStatus(s, why), r), c, es)
    ensures r.Got? || SaysAbsent(r)
    ensures c.snap == if r.Got? then r.snap else s
    ensures c.RemoveFinalizer? <==> why in {RetainNote, GoneNote}
    ensures c.GetPv? <==> why == Settled
    ensures c.GetPv? ==> && c.snap.cr.spec.pvcName != "" && !c.snap.cr.spec.pvcSize.Malformed?
                         && c.snap.cr.status.fsId != 0 && c.snap.cr.status.exportPath != ""
  {
    if r.Failure? { InnermostDecides(r.err); }
  }

  /** A change of the share that was accepted is marked as such at once; one that failed is noted as failed. */
  lemma AfterChange(last: Call, r: Reply, c: Call, es: seq<Entry>)
    requires last.DeleteShare? || last.ExpandShare? || last.ChangeSg?
    requires Follows(At(last, r), c, es)
    ensures c.UpdateStatus? && (r.Done? <==> !c.why.FailureNote?) && (r.Failure? <==> c.why.FailureNote?)
    ensures r.Done? ==> c.why == if last.DeleteShare? then DeleteMarked else if last.ExpandShare? then ExpandMarked else SgMarked
  {
    hide Told, Replay;
  }

  /** The error that a failed call to the cloud leaves in the status and in the answer: the call's own, with
      a 404 replaced by the sentinel; after a search for a taken name, that of the creation. */
  lemma FailureCarries(last: Call, r: Reply, c: Call, es: seq<Entry>)
    requires last.CreateShare? || last.ListShares? || last.ShowShare? || last.DeleteShare? || last.ExpandShare? ||
             last.ChangeSg?
    requires Follows(At(last, r), c, es) && c.UpdateStatus? && c.why.FailureNote?
    ensures r.Failure? || last.ListShares?
    ensures var op := match last
                      case CreateShare(_) => OpCreate
                      case ListShares(_, _) => OpCollision
                      case ShowShare(_) => OpShow
                      case DeleteShare(_) => OpDelete
                      case ExpandShare(_, _) => OpExpand
                      case _ => OpChangeSg;
            var e := if last.ListShares? then last.taken else r.err;
            c.why.err == Wrap(op, if Innermost(e).Service? && Innermost(e).code == 404 then Wrap(OpMissing, FsNotFound) else e)
  {
    hide Told, Replay, HasTrue, FollowsAvailable, IsNameAlreadyExists;
    if r.Failure? { InnermostDecides(r.err); }
    if last.ListShares? { InnermostDecides(last.taken); }
    if last.ShowShare? && r.Info? && r.info.status == "200" && !last.snap.cr.deleted {
      AvailableFails(last.snap, r.info, c, es);
    }
  }

  lemma AvailableFails(s: Snap, info: ShareInfo, c: Call, es: seq<Entry>)
    requires FollowsAvailable(s, info, c, es)
    ensures c.UpdateStatus? ==> !c.why.FailureNote?
  {
    hide Told, Replay, HasTrue;
  }

  /** A name that is taken makes the pass look for the share of that name; every other failure ends the
      creation. */
  lemma AfterCreate(s: Snap, r: Reply, c: Call, es: seq<Entry>)
    requires Follows(At(CreateShare(s), r), c, es)
    ensures c.ListShares? <==> r.Failure? && IsNameAlreadyExists(r.err)
    ensures r.Minted? ==> Notes(c, CreatedNote) && c.snap.cr.status.fsId == r.id
    ensures r.Failure? && !c.ListShares? ==> Notes(c, FailureNote(Wrap(OpCreate, Classify(r.err))))
  {
    hide IsNameAlreadyExists, Told, Replay;
  }

  // ---------------------------------------------------------------- the order of the calls

  /** How far into a pass a call belongs. */
  function Stage(c: Call): nat {
    match c
    case ReadCr => 0
    case CreateShare(_) => 1
    case ShowShare(_) => 1
    case ListShares(_, _) => 2
    case GetPvc(s) => if s.cr.deleted then 2 else 12
    case DeletePvc(_) => 3
    case GetPv(s) => if s.cr.deleted then 4 else 10
    case DeletePv(_) => 5
    case DeleteShare(_) => 6
    case ExpandShare(_, _) => 6
    case ChangeSg(_, _) => 6
    case ShowTags(_, _) => 6
    case AddTag(_, _, _, _) => 7
    case DeleteTag(_, _, _, _) => 8
    case UpdateStatus(_, _) => 9
    case AddFinalizer(_) => 10
    case CreatePv(_) => 11
    case UpdatePv(_, _) => 11
    case CreatePvc(_) => 13
    case RemoveFinalizer(_) => 14
  }

  ghost predicate Climbs(last: Call, c: Call) {
    Stage(last) < Stage(c) || (Stage(last) == Stage(c) && IsTagCall(last) && IsTagCall(c))
  }

  lemma ClimbsShown(s: Snap, r: Reply, c: Call, es: seq<Entry>)
    requires Follows(At(ShowShare(s), r), c, es)
    ensures Climbs(ShowShare(s), c)
  {
    hide HasTrue, Told, Replay;
  }

  lemma ClimbsTags(last: Call, r: Reply, c: Call, es: seq<Entry>)
    requires (last.ShowTags? || IsTagCall(last)) && FollowsTagCall(last, r, c, es)
    requires last.DeleteTag? ==> Missing(last.live, last.snap.cr.spec.tags) == {} && last.key !in last.snap.cr.spec.tags
    ensures Climbs(last, c)
  {
    hide Told, Replay, Missing, Extra;
    if last.DeleteTag? { MissingAfterDelete(last.live, last.key, last.snap.cr.spec.tags); }
  }

  lemma ClimbsCascade(last: Call, r: Reply, c: Call, es: seq<Entry>)
    requires last.GetPvc? || last.DeletePvc? || last.GetPv? || last.DeletePv?
    requires last.snap.cr.deleted && FollowsCascade(last, r, c, es)
    ensures Climbs(last, c)
  {
  }

  lemma ClimbsEnsure(last: Call, r: Reply, c: Call, es: seq<Entry>)
    requires last.GetPv? || last.CreatePv? || last.UpdatePv? || last.GetPvc?
    requires !last.snap.cr.deleted && FollowsEnsure(last, r, c, es)
    ensures Climbs(last, c)
  {
    hide StaleClaim;
  }

  lemma ClimbsVolumes(last: Call, r: Reply, c: Call, es: seq<Entry>)
    requires OfVolumes(last) || last.DeletePv? || last.DeletePvc?
    requires last.CreatePv? || last.UpdatePv? || last.CreatePvc? ==> !last.snap.cr.deleted
    requires last.DeletePv? || last.DeletePvc? ==> last.snap.cr.deleted
    requires Follows(At(last, r), c, es)
    ensures Climbs(last, c)
  {
    hide FollowsCascade, FollowsEnsure, Climbs;
    if last.snap.cr.deleted { ClimbsCascade(last, r, c, es); } else { ClimbsEnsure(last, r, c, es); }
  }

  lemma ClimbsWrite(last: Call, r: Reply, c: Call, es: seq<Entry>)
    requires last.UpdateStatus? && FollowsWrite(last, r, c, es)
    requires SettledBefore(last) ==> !Held(last, r).cr.deleted
    ensures Climbs(last, c)
  {
  }

  lemma ClimbsOther(last: Call, r: Reply, c: Call, es: seq<Entry>)
    requires last.ReadCr? || last.CreateShare? || last.ListShares? || last.DeleteShare? || last.ExpandShare? || last.ChangeSg?
    requires Follows(At(last, r), c, es)
    ensures Climbs(last, c)
  {
    hide HasTrue, Told, Replay;
  }

  /** Within a pass every call belongs further in than the one before, except from tag to tag. */
  lemma NextClimbs(w: World, c: Call, es: seq<Entry>)
    requires PassOk(w) && PcOk(w) && w.pc.At? && Follows(w.pc, c, es)
    ensures Climbs(w.pc.call, c)
  {
    hide CallOk, ReplyOk, Climbs, FollowsRead, FollowsCreate, FollowsList, FollowsDeleteGet, FollowsPoll, FollowsExpand, FollowsSg,
         FollowsTagCall, FollowsCascade, FollowsEnsure, FollowsWrite, OneClass, Informed, TagRun, Precedes;
    var last, r := w.pc.call, w.pc.reply;
    VolumePhase(w, last);
    FollowsPrecedes(w, c, es);
    if last.ShowShare? { ClimbsShown(last.snap, r, c, es); }
    else if last.ShowTags? || IsTagCall(last) { ClimbsTags(last, r, c, es); }
    else if OfVolumes(last) || last.DeletePv? || last.DeletePvc? { ClimbsVolumes(last, r, c, es); }
    else if last.UpdateStatus? {
      if SettledBefore(last) { SettledIsAlive(w, last, r); }
      ClimbsWrite(last, r, c, es);
    }
    else if !last.AddFinalizer? && !last.RemoveFinalizer? { ClimbsOther(last, r, c, es); }
  }

  /** No read of the resource in between: the two acts belong to one pass. */
  ghost predicate OnePass(r: Run, i: nat, j: nat) {
    && i < j < |r.acts| && r.acts[i].Do? && r.acts[j].Do?
    && forall k | i < k <= j :: !(r.acts[k].Do? && r.acts[k].call.ReadCr?)
  }

  lemma StagePerforms(w: World, c: Call, o: Outcome)
    requires w.hist != [] && Possible(w, c, o)
    ensures Perform(w, c, o).pc == At(c, ReplyOf(o))
  {
    hide Possible, Effect, Tally;
  }

  lemma StageStep(w: World, a: Act, v: World, from: Call)
    requires PassOk(w) && PcOk(w) && Step(w, a, v)
    requires w.pc.At? ==> w.pc.call == from || Climbs(from, w.pc.call)
    requires a.Do? ==> !a.call.ReadCr?
    ensures v.pc.At? ==> v.pc.call == from || Climbs(from, v.pc.call)
    ensures a.Do? ==> v.pc.At? && v.pc.call == a.call && Climbs(from, a.call)
  {
    hide PassOk, PcOk, Follows, Possible, EnvMay, Perform, Climbs;
    var es :| May(w, a, es) && v == Next(w, a);
    match a
    case Do(c, o) =>
      StagePerforms(w, c, o);
      if w.pc.Idle? { FirstIsRead(w.pc, c, es); }
      NextClimbs(w, c, es);
      ClimbsOn(from, w.pc.call, c);
    case End(_) =>
    case Env(e) => StageEnv(w, e);
  }

  lemma StageEnv(w: World, e: EnvAct)
    requires w.hist != [] && EnvMay(w, e)
    ensures EnvStep(w, e).pc == w.pc || EnvStep(w, e).pc == Idle
  {
  }

  lemma ClimbsOn(a: Call, b: Call, c: Call)
    requires (b == a || Climbs(a, b)) && Climbs(b, c)
    ensures Climbs(a, c)
  {
  }

  lemma {:induction false} StageHeld(r: Run, i: nat, j: nat)
    requires IsRun(r) && Initial(r.worlds[0]) && i < j < |r.worlds| && r.acts[i].Do?
    requires forall k | i < k < j :: !(r.acts[k].Do? && r.acts[k].call.ReadCr?)
    ensures var w, from := r.worlds[j], r.acts[i].call;
            w.pc.At? ==> w.pc.call == from || Climbs(from, w.pc.call)
  {
    hide Step, PassOk, PcOk, Climbs, Inv;
    EveryPassIsOk(r, j - 1);
    RunKeeps(r, j - 1);
    InvParts(r.worlds[j - 1]);
    if i == j - 1 {
      StageFirst(r.worlds[i], r.acts[i], r.worlds[j]);
    } else {
      StageHeld(r, i, j - 1);
      StageStep(r.worlds[j - 1], r.acts[j - 1], r.worlds[j], r.acts[i].call);
    }
  }

  lemma StageFirst(w: World, a: Act, v: World)
    requires Step(w, a, v) && a.Do?
    ensures v.pc.At? && v.pc.call == a.call
  {
    hide Follows, Possible, Perform;
    var es :| May(w, a, es) && v == Next(w, a);
    StagePerforms(w, a.call, a.outcome);
  }

  /** In every pass of every run, whatever fails: each call belongs further into a pass than all calls
      before it, except that additions and deletions of tags may repeat. So a pass makes each other call
      at most once. */
  lemma CallsClimb(r: Run, i: nat, j: nat)
    requires IsRun(r) && Initial(r.worlds[0]) && OnePass(r, i, j)
    ensures Climbs(r.acts[i].call, r.acts[j].call)
  {
    hide Step, PassOk, PcOk, Climbs, Inv;
    StageHeld(r, i, j);
    EveryPassIsOk(r, j);
    RunKeeps(r, j);
    InvParts(r.worlds[j]);
    StageStep(r.worlds[j], r.acts[j], r.worlds[j + 1], r.acts[i].call);
  }

  /** A deletion asks for the claim before the volume, and for both before the share; the finalizer goes
      last of all, after the status is written. */
  lemma ClaimThenVolumeThenShare(r: Run, i: nat, j: nat)
    requires IsRun(r) && Initial(r.worlds[0]) && OnePass(r, i, j)
    ensures r.acts[i].call.DeletePv? ==> !r.acts[j].call.DeletePvc?
    ensures r.acts[i].call.DeleteShare? ==> !r.acts[j].call.DeletePvc? && !r.acts[j].call.DeletePv?
    ensures !r.acts[i].call.RemoveFinalizer?
    ensures r.acts[i].call.UpdateStatus? ==> !MutatesCloud(r.acts[j].call) && !r.acts[j].call.UpdateStatus?
  {
    CallsClimb(r, i, j);
  }

  // ---------------------------------------------------------------- what the notes say

  /** What each note that is not made by a poll says in the list, and that it changes nothing else. */
  ghost predicate NoteSays(s: Cr, cr: Cr, last: Call, why: Why)
  {
    var cs, gen := cr.status.conditions, s.generation;
    match why
    case PausedNote =>
      Says(cs, CondSet(Provisioning, False, ReconcilePaused, Fixed), gen) && cr == s.(status := s.status.(conditions := cs))
    case CreatedNote =>
      && Says(cs, CondSet(Provisioning, True, FsCreatePending, Fixed), gen)
      && Says(cs, CondSet(Failed, False, FsCreatePending, Fixed), gen)
      && cr == s.(status := s.status.(conditions := cs, fsId := cr.status.fsId, observedGeneration := gen))
    case RetainNote =>
      Says(cs, CondSet(Deleting, False, RetainPolicyApplied, Fixed), gen) && cr == s.(status := s.status.(conditions := cs))
    case GoneNote =>
      Says(cs, CondSet(Deleting, False, FsDeleted, Fixed), gen) && cr == s.(status := s.status.(conditions := cs))
    case DeleteMarked =>
      && Says(cs, CondSet(Deleting, True, FsDeletePending, Fixed), gen)
      && Says(cs, CondSet(Ready, False, FsDeletePending, Fixed), gen)
      && cr == s.(status := s.status.(conditions := cs))
    case FailureNote(e) =>
      && (if last.ChangeSg? then Says(cs, CondSet(UpdatingSecurityGroup, False, SgUpdateFailed, ErrText(e)), gen)
          else Says(cs, CondSet(Failed, True, if last.CreateShare? || last.ListShares? then FsCreateFailed
                                              else if last.DeleteShare? then FsDeleteFailed else HuaweiAPIError, ErrText(e)), gen))
      && cr == s.(status := s.status.(conditions := cs))
    case RecreateNote =>
      && Says(cs, CondSet(Ready, False, HuaweiAPIError, Fixed), gen)
      && cr == s.(status := s.status.(conditions := cs, fsId := 0, exportPath := ""))
    case ErroredNote =>
      && (exists status :: Says(cs, CondSet(Failed, True, FsCreateFailed, About(status)), gen) && status in {"303", "308", "400"})
      && Says(cs, CondSet(Provisioning, False, FsCreateFailed, Fixed), gen)
      && cr == s.(status := s.status.(conditions := cs))
    case _ => true
  }

  /** The object in memory when the pass holds the reply to `last`. */
  function InMemory(last: Call, r: Reply): Cr
    requires last.ReadCr? ==> r.Got?
  {
    if last.ReadCr? then r.snap.cr else last.snap.cr
  }

  lemma OneNote(s: Snap, sets: seq<CondSet>, why: Why, c: Call, es: seq<Entry>, k: nat)
    requires UniqueTypes(s.cr.status.conditions) && Writes(s, sets, why, c, es)
    requires k < |sets| && LastSay(sets, sets[k].ctype) == Some(sets[k])
    ensures Says(c.snap.cr.status.conditions, sets[k], s.cr.generation)
  {
    hide Replay, Says, HasTrue, Told, LastSay, Keeps;
    Spoken(s.cr.status.conditions, sets, s.cr.generation, es, sets[k].ctype);
  }

  lemma SayFirst(x: CondSet, y: CondSet)
    ensures LastSay([x], x.ctype) == Some(x)
    ensures x.ctype != y.ctype ==> LastSay([x, y], x.ctype) == Some(x)
    ensures LastSay([x, y], y.ctype) == Some(y)
  {
    assert [x, y][..1] == [x];
  }

  /** One condition, and nothing else. */
  lemma OneSaid(s: Snap, x: CondSet, why: Why, c: Call, es: seq<Entry>)
    requires UniqueTypes(s.cr.status.conditions) && Writes(s, [x], why, c, es)
    ensures Says(c.snap.cr.status.conditions, x, s.cr.generation)
    ensures c.snap.cr == s.cr.(status := s.cr.status.(conditions := c.snap.cr.status.conditions))
  {
    hide Replay, Says, Told, LastSay;
    SayFirst(x, x);
    assert Told(es, [x], s.cr.generation);
    OneNote(s, [x], why, c, es, 0);
  }

  /** Two conditions. */
  lemma TwoSaid(s: Snap, x: CondSet, y: CondSet, why: Why, c: Call, es: seq<Entry>)
    requires UniqueTypes(s.cr.status.conditions) && Writes(s, [x, y], why, c, es) && x.ctype != y.ctype
    ensures Says(c.snap.cr.status.conditions, x, s.cr.generation)
    ensures Says(c.snap.cr.status.conditions, y, s.cr.generation)
    ensures c.snap.cr == s.cr.(status := s.cr.status.(conditions := c.snap.cr.status.conditions))
  {
    hide Replay, Says, Told, LastSay;
    SayFirst(x, y);
    OneNote(s, [x, y], why, c, es, 0);
    OneNote(s, [x, y], why, c, es, 1);
  }

  lemma ReadNote(s: Snap, c: Call, es: seq<Entry>)
    requires UniqueTypes(s.cr.status.conditions) && FollowsRead(s, c, es) && c.UpdateStatus?
    ensures NoteSays(s.cr, c.snap.cr, ReadCr, c.why)
  {
    hide Replay, Says, Told, Writes;
    if s.cr.deleted {
      OneSaid(s, CondSet(Deleting, False, RetainPolicyApplied, Fixed), RetainNote, c, es);
    } else {
      OneSaid(s, CondSet(Provisioning, False, ReconcilePaused, Fixed), PausedNote, c, es);
    }
    NoteWhy(c, es);
  }

  lemma NoteWhy(c: Call, es: seq<Entry>)
    ensures forall s, sets, why | Writes(s, sets, why, c, es) :: c.UpdateStatus? && c.why == why
  {
  }

  lemma FailSaid(s: Snap, reason: Reason, e: GoErr, c: Call, es: seq<Entry>)
    requires UniqueTypes(s.cr.status.conditions) && FailWrite(s, reason, e, c, es)
    ensures c.UpdateStatus? && c.why == FailureNote(e)
    ensures Says(c.snap.cr.status.conditions, CondSet(Failed, True, reason, ErrText(e)), s.cr.generation)
    ensures c.snap.cr == s.cr.(status := s.cr.status.(conditions := c.snap.cr.status.conditions))
  {
    hide Replay, Says, Told, Writes;
    OneSaid(s, CondSet(Failed, True, reason, ErrText(e)), FailureNote(e), c, es);
    NoteWhy(c, es);
  }

  lemma CreateNote(last: Call, r: Reply, c: Call, es: seq<Entry>)
    requires (last.CreateShare? || last.ListShares?) && UniqueTypes(last.snap.cr.status.conditions)
    requires Follows(At(last, r), c, es) && c.UpdateStatus?
    ensures NoteSays(last.snap.cr, c.snap.cr, last, c.why)
  {
    hide Replay, Says, Told, Writes, FailWrite, IsNameAlreadyExists;
    var s := last.snap;
    var id := if last.CreateShare? then (if r.Minted? then r.id else NO_FS)
              else if r.Shares? then FirstNamed(r.list, s.cr.spec.fsName) else NO_FS;
    if (last.CreateShare? && r.Minted?) || (last.ListShares? && id != NO_FS) {
      TwoSaid(WithFs(s, id), CondSet(Provisioning, True, FsCreatePending, Fixed), CondSet(Failed, False, FsCreatePending, Fixed),
              CreatedNote, c, es);
    } else if last.CreateShare? {
      FailSaid(s, FsCreateFailed, Cooked(OpCreate, r.err), c, es);
    } else {
      FailSaid(s, FsCreateFailed, Cooked(OpCollision, last.taken), c, es);
    }
    NoteWhy(c, es);
  }

  lemma ShowNote(s: Snap, r: Reply, c: Call, es: seq<Entry>)
    requires UniqueTypes(s.cr.status.conditions) && Follows(At(ShowShare(s), r), c, es) && c.UpdateStatus?
    requires !(r.Info? && r.info.status == "200")
    ensures NoteSays(s.cr, c.snap.cr, ShowShare(s), c.why)
  {
    hide Replay, Says, Told, Writes, FailWrite, IsFsNotFound, HasTrue, FollowsAvailable;
    NoteWhy(c, es);
    if r.Info? {
      TwoSaid(s, CondSet(Failed, True, FsCreateFailed, About(r.info.status)), CondSet(Provisioning, False, FsCreateFailed, Fixed),
              ErroredNote, c, es);
    } else if !IsFsNotFound(Cooked(OpShow, r.err)) {
      FailSaid(s, HuaweiAPIError, Cooked(OpShow, r.err), c, es);
    } else if s.cr.deleted {
      OneSaid(s, CondSet(Deleting, False, FsDeleted, Fixed), GoneNote, c, es);
    } else {
      OneSaid(s.(cr := RecreateCr(s.cr)), CondSet(Ready, False, HuaweiAPIError, Fixed), RecreateNote, c, es);
    }
  }

  lemma ChangeNote(last: Call, r: Reply, c: Call, es: seq<Entry>)
    requires (last.DeleteShare? || last.ExpandShare? || last.ChangeSg?) && UniqueTypes(last.snap.cr.status.conditions)
    requires Follows(At(last, r), c, es) && c.UpdateStatus?
    ensures NoteSays(last.snap.cr, c.snap.cr, last, c.why)
  {
    hide Replay, Says, Told, Writes, FailWrite;
    NoteWhy(c, es);
    var s := last.snap;
    if r.Done? {
      if last.DeleteShare? {
        TwoSaid(s, CondSet(Deleting, True, FsDeletePending, Fixed), CondSet(Ready, False, FsDeletePending, Fixed), DeleteMarked, c, es);
      }
    } else if last.DeleteShare? {
      FailSaid(s, FsDeleteFailed, Cooked(OpDelete, r.err), c, es);
    } else if last.ExpandShare? {
      FailSaid(s, HuaweiAPIError, Cooked(OpExpand, r.err), c, es);
    } else {
      OneSaid(s, CondSet(UpdatingSecurityGroup, False, SgUpdateFailed, ErrText(Cooked(OpChangeSg, r.err))),
              FailureNote(Cooked(OpChangeSg, r.err)), c, es);
    }
  }

  /** In every run, every status write says these values on the object that its pass held: after a pause,
      a creation or an adoption, a deletion, a share that is gone or in an error state, and after every
      call that failed. What a poll of an available share writes is in `PollEnds.Leaves`. */
  lemma NoteValues(w: World, c: Call, es: seq<Entry>)
    requires Inv(w) && Follows(w.pc, c, es) && c.UpdateStatus?
    requires !(w.pc.At? && w.pc.call.ShowShare? && w.pc.reply.Info? && w.pc.reply.info.status == "200")
    ensures w.pc.At? && (w.pc.call.ReadCr? ==> w.pc.reply.Got?)
    ensures NoteSays(InMemory(w.pc.call, w.pc.reply), c.snap.cr, w.pc.call, c.why)
  {
    hide Inv, Follows, NoteSays, CallOk, ReplyOk, VersionsOk;
    InvParts(w);
    Unidle(w.pc, c, es);
    var last, r := w.pc.call, w.pc.reply;
    HeldIsMap(w);
    match last
    case ReadCr => ReadFollows(r, c, es); ReadNote(r.snap, c, es);
    case CreateShare(_) => CreateNote(last, r, c, es);
    case ListShares(_, _) => CreateNote(last, r, c, es);
    case ShowShare(s) => ShowNote(s, r, c, es);
    case DeleteShare(_) => ChangeNote(last, r, c, es);
    case ExpandShare(_, _) => ChangeNote(last, r, c, es);
    case ChangeSg(_, _) => ChangeNote(last, r, c, es);
    case _ => SettledSays(last, r, c, es);
  }

  lemma Unidle(pc: Pc, c: Call, es: seq<Entry>)
    requires Follows(pc, c, es) && !c.ReadCr?
    ensures pc.At? && (pc.call.ReadCr? ==> pc.reply.Got?)
  {
  }

  lemma HeldIsMap(w: World)
    requires VersionsOk(w) && PcOk(w) && w.pc.At? && (w.pc.call.ReadCr? ==> w.pc.reply.Got?)
    ensures UniqueTypes(InMemory(w.pc.call, w.pc.reply).status.conditions)
  {
    hide Guard;
  }

  lemma ReadFollows(r: Reply, c: Call, es: seq<Entry>)
    requires Follows(At(ReadCr, r), c, es)
    ensures r.Got? && FollowsRead(r.snap, c, es)
  {
    hide FollowsRead;
  }

  lemma SettledSays(last: Call, r: Reply, c: Call, es: seq<Entry>)
    requires Follows(At(last, r), c, es) && c.UpdateStatus?
    requires !last.ReadCr? && !last.CreateShare? && !last.ListShares? && !last.ShowShare? && !last.DeleteShare?
    requires !last.ExpandShare? && !last.ChangeSg?
    ensures c.why == Settled && NoteSays(last.snap.cr, c.snap.cr, last, c.why)
  {
    hide Told, Replay, Missing, Extra;
  }
}
