/** The deletion marker tells the truth, so deletion always comes to its end. */
module Deletion {
  import opened Errors
  import opened Conditions
  import opened Types
  import opened Poll
  import opened Protocol
  import opened Safety
  import opened Guarantees
  import opened Markers
  import opened Passes
  import opened Calm

  // ================================================================ the marker is true

  /** No share has the id, or an accepted DeleteShare is in progress on the one that has it. */
  ghost predicate Doomed(w: World, id: nat) {
    id == NO_FS || (id in w.log.minted && (id in w.cloud ==> w.cloud[id].dying))
  }

  ghost predicate MarkTrue(w: World) {
    && w.hist != []
    && (MarkedDeleting(w) ==> Current(w).deleted && Doomed(w, Current(w).status.fsId))
    && (DelPending(w.pc) ==> w.pc.call.snap.cr.deleted && Doomed(w, w.pc.call.snap.cr.status.fsId))
  }

  lemma DoomedEnv(w: World, e: EnvAct, id: nat)
    requires CloudOk(w) && w.hist != [] && EnvMay(w, e) && Doomed(w, id)
    ensures Doomed(EnvStep(w, e), id)
  {
  }

  lemma MarkEnv(w: World, e: EnvAct)
    requires CloudOk(w) && w.hist != [] && EnvMay(w, e) && MarkTrue(w)
    ensures MarkTrue(EnvStep(w, e))
  {
    hide Doomed, HasTrue, CloudOk;
    if MarkedDeleting(w) { DoomedEnv(w, e, Current(w).status.fsId); }
    if DelPending(w.pc) { DoomedEnv(w, e, w.pc.call.snap.cr.status.fsId); }
  }

  lemma DoomedCall(w: World, c: Call, o: Outcome, id: nat)
    requires CloudOk(w) && w.hist != [] && Possible(w, c, o) && Doomed(w, id)
    ensures Doomed(Perform(w, c, o), id)
  {
    hide Truthful, Fits, CapacityOf, BuildPV, BuildPVC, ListsCloud;
  }

  /** Calls that do not write the status: a deletion that is accepted dooms its share. */
  lemma MarkCall(w: World, c: Call, o: Outcome)
    requires CloudOk(w) && CallOk(w, c) && MarkTrue(w) && !c.UpdateStatus? && Possible(w, c, o)
    ensures MarkTrue(Perform(w, c, o))
  {
    hide Doomed, HasTrue, CloudOk, CallOk, Perform, Possible;
    MarkerTally(w, c, o);
    CurrentKept(w, c, o);
    if MarkedDeleting(w) { DoomedCall(w, c, o, Current(w).status.fsId); }
    if c.DeleteShare? && !o.Refused? { NowDoomed(w, c.snap, o); }
  }

  lemma NowDoomed(w: World, s: Snap, o: Outcome)
    requires CallOk(w, DeleteShare(s)) && w.hist != [] && Possible(w, DeleteShare(s), o) && !o.Refused?
    ensures Doomed(Perform(w, DeleteShare(s), o), s.cr.status.fsId) && s.cr.deleted
  {
  }

  /** What a status write says about the marker. */
  lemma WriteMark(w: World, c: Call, es: seq<Entry>)
    requires VersionsOk(w) && PcOk(w) && CallOk(w, c) && MarkTrue(w) && c.UpdateStatus? && Follows(w.pc, c, es)
    requires c.snap.rv == |w.hist| - 1
    ensures HasTrue(c.snap.cr.status.conditions, Deleting) ==> c.snap.cr.deleted && Doomed(w, c.snap.cr.status.fsId)
  {
    hide CallOk, Follows, PcOk, HasTrue;
    WriteDeleting(w, c);
    if c.why.DeleteMarked? {
      PendingGoesOn(w.pc, c, es);
      SameTarget(w.pc, c, es);
    } else if c.why.RetainNote? {
      RetainUnmarks(w, c, es);
    } else if !NotesDeleting(c) {
      MarkUnchanged(w, c);
    }
  }

  lemma SameTarget(pc: Pc, c: Call, es: seq<Entry>)
    requires DelPending(pc) && Follows(pc, c, es)
    ensures !c.ReadCr? && c.snap.cr.status.fsId == pc.call.snap.cr.status.fsId
    ensures c.snap.cr.deleted == pc.call.snap.cr.deleted
  {
  }

  lemma RetainUnmarks(w: World, c: Call, es: seq<Entry>)
    requires VersionsOk(w) && PcOk(w) && CallOk(w, c) && Follows(w.pc, c, es) && c.UpdateStatus? && c.why.RetainNote?
    ensures !HasTrue(c.snap.cr.status.conditions, Deleting)
  {
    hide FollowsPoll, FollowsDeleteGet, FollowsTagCall, FollowsExpand, FollowsSg, FollowsCreate, FollowsList,
         Guard, Replay, HasTrue;
    FollowsPrecedes(w, c, es);
    var s := w.pc.reply.snap;
    Marks(s.cr.status.conditions, [CondSet(Deleting, False, RetainPolicyApplied, Fixed)], s.cr.generation, es, Deleting);
    var sets := [CondSet(Deleting, False, RetainPolicyApplied, Fixed)];
    assert sets[0].ctype == Deleting && Silent(sets[1..], Deleting);
  }

  lemma MarkUnchanged(w: World, c: Call)
    requires CallOk(w, c) && c.UpdateStatus? && !NotesDeleting(c) && w.hist != [] && c.snap.rv == |w.hist| - 1
    ensures c.snap.cr.deleted == Current(w).deleted
    ensures HasTrue(c.snap.cr.status.conditions, Deleting) <==> MarkedDeleting(w)
  {
  }

  lemma MarkWrite(w: World, c: Call, o: Outcome, es: seq<Entry>)
    requires VersionsOk(w) && CloudOk(w) && PcOk(w) && CallOk(w, c) && MarkTrue(w) && c.UpdateStatus?
    requires Possible(w, c, o) && Follows(w.pc, c, es)
    ensures MarkTrue(Perform(w, c, o))
  {
    hide CallOk, CloudOk, Follows, Perform, Possible, PcOk, HasTrue;
    var v := Perform(w, c, o);
    if o.Refused? {
      QuietShape(w, c, o);
      if MarkedDeleting(w) { DoomedCall(w, c, o, Current(w).status.fsId); }
    } else {
      WriteShape(w, c, o);
      WriteGround(w, c);
      WriteMark(w, c, es);
      if MarkedDeleting(v) { DoomedCall(w, c, o, c.snap.cr.status.fsId); }
    }
  }

  lemma MarkStep(w: World, a: Act, v: World)
    requires Inv(w) && MarkTrue(w) && Step(w, a, v)
    ensures MarkTrue(v)
  {
    hide Inv, MarkTrue, CallOk, Follows, Possible, EnvMay;
    InvParts(w);
    var es :| May(w, a, es) && v == Next(w, a);
    match a
    case Do(c, o) =>
      FollowsOk(w, c, es);
      if c.UpdateStatus? { MarkWrite(w, c, o, es); } else { MarkCall(w, c, o); }
    case End(_) => MarkEnd(w, v);
    case Env(e) => MarkEnv(w, e);
  }

  lemma MarkEnd(w: World, v: World)
    requires MarkTrue(w) && v == w.(pc := Idle)
    ensures MarkTrue(v)
  {
    hide HasTrue;
  }

  /** In every run: when the status says that deletion is in flight, it is, or is over. */
  lemma {:induction false} MarkerIsTrue(r: Run, i: nat)
    requires IsRun(r) && Initial(r.worlds[0]) && i < |r.worlds|
    ensures MarkTrue(r.worlds[i])
  {
    hide Inv, Step;
    if i > 0 {
      MarkerIsTrue(r, i - 1);
      RunKeeps(r, i - 1);
      MarkStep(r.worlds[i - 1], r.acts[i - 1], r.worlds[i]);
    }
  }

  // ================================================================ deletion ends

  /** The resource is marked for deletion and held by the finalizer. */
  ghost predicate Leaving(w: World) {
    Inv(w) && w.hist != [] && !w.gone && w.pc == Idle && Current(w).deleted && Current(w).finalizer
  }

  /** What the next pass has to do. */
  datatype Way = Releases | Awaits | IssuesDelete

  ghost function WayOf(w: World): Way
    requires w.hist != []
  {
    var h := Current(w);
    if h.status.fsId == NO_FS || h.spec.policy != Delete || h.status.fsId !in w.cloud then Releases
    else if MarkedDeleting(w) then Awaits
    else IssuesDelete
  }

  predicate Doing(w: World, v: World)
    requires w.hist != []
  {
    v.hist == w.hist && v.gone == w.gone && v.fsName == w.fsName
  }

  predicate VolumesSame(w: World, v: World) {
    v.pvs == w.pvs && v.pvcs == w.pvcs
  }

  /** The claim that the resource names is being deleted, if it names one that exists. */
  function ClaimsAfter(w: World): map<(string, string), PVC>
    requires w.hist != []
  {
    var key := (Current(w).ns, Current(w).spec.pvcName);
    if Current(w).spec.pvcName != "" && key in w.pvcs then w.pvcs[key := w.pvcs[key].(terminating := true)] else w.pvcs
  }

  /** And the volume of that name. */
  function VolumesAfter(w: World): map<string, PV>
    requires w.hist != []
  {
    var name := Current(w).spec.pvcName;
    if name != "" && name in w.pvs then w.pvs[name := w.pvs[name].(terminating := true)] else w.pvs
  }

  function Dying(w: World): map<nat, Share>
    requires w.hist != [] && Current(w).status.fsId in w.cloud
  {
    w.cloud[Current(w).status.fsId := w.cloud[Current(w).status.fsId].(dying := true)]
  }

  ghost predicate Marked(w: World, v: World)
    requires w.hist != [] && Current(w).status.fsId in w.cloud
  {
    && v.hist != [] && !v.gone && v.cloud == Dying(w)
    && Current(v) == Current(w).(status := Current(v).status) && Current(v).status.fsId == Current(w).status.fsId
    && MarkedDeleting(v)
    && Says(Current(v).status.conditions, CondSet(Deleting, True, FsDeletePending, Fixed), Current(v).generation)
    && Says(Current(v).status.conditions, CondSet(Ready, False, FsDeletePending, Fixed), Current(v).generation)
    && v.pvs == VolumesAfter(w) && v.pvcs == ClaimsAfter(w)
  }

  /** How far a calm pass that began in `w` has come in `v`. */
  ghost predicate MidLeave(w: World, v: World)
    requires w.hist != []
  {
    v.pc.At? &&
    var r := v.pc.reply;
    match v.pc.call
    case ReadCr => Same(w, v) && r == Got(AsRead(w))
    case RemoveFinalizer(_) => WayOf(w).Releases? && v.gone && v.cloud == w.cloud && VolumesSame(w, v) && r.Done?
    case UpdateStatus(s, why) =>
      && v.hist != [] && r == Got(AsRead(v))
      && (match why
          case RetainNote => WayOf(w).Releases? && !v.gone && Current(v).deleted && v.cloud == w.cloud && VolumesSame(w, v)
          case GoneNote => WayOf(w).Releases? && !v.gone && Current(v).deleted && v.cloud == w.cloud && VolumesSame(w, v)
          case DeleteMarked => WayOf(w).IssuesDelete? && Marked(w, v)
          case _ => false)
    case ShowShare(s) =>
      && s == AsRead(w) && s.cr.status.fsId != NO_FS && s.cr.spec.policy == Delete && Same(w, v)
      && if s.cr.status.fsId in w.cloud then r.Info? else r.Failure? && HttpCode(r.err) == 404
    case DeleteShare(s) =>
      && OnCascade(w, v, s) && v.cloud == Dying(w) && r.Done? && v.pvs == VolumesAfter(w) && v.pvcs == ClaimsAfter(w)
    case GetPvc(s) =>
      && OnCascade(w, v, s) && v.cloud == w.cloud && s.cr.spec.pvcName != "" && VolumesSame(w, v)
      && var key := (s.cr.ns, s.cr.spec.pvcName);
         if key in w.pvcs then r == PvcIs(w.pvcs[key]) else r.Failure? && IsApiNotFound(r.err)
    case DeletePvc(s) =>
      && OnCascade(w, v, s) && v.cloud == w.cloud && s.cr.spec.pvcName != ""
      && v.pvs == w.pvs && v.pvcs == ClaimsAfter(w) && r.Done?
    case GetPv(s) =>
      && OnCascade(w, v, s) && v.cloud == w.cloud && s.cr.spec.pvcName != "" && v.pvs == w.pvs && v.pvcs == ClaimsAfter(w)
      && var name := s.cr.spec.pvcName;
         if name in w.pvs then r == PvIs(w.pvs[name]) else r.Failure? && IsApiNotFound(r.err)
    case DeletePv(s) =>
      && OnCascade(w, v, s) && v.cloud == w.cloud && s.cr.spec.pvcName != ""
      && v.pvs == VolumesAfter(w) && v.pvcs == ClaimsAfter(w) && r.Done?
    case _ => false
  }

  ghost predicate OnCascade(w: World, v: World, s: Snap)
    requires w.hist != []
  {
    s == AsRead(w) && WayOf(w).IssuesDelete? && Doing(w, v)
  }

  /** Everything that a calm pass leaves behind: the resource released and nothing else touched; or
      nothing touched at all; or the deletion of the share accepted and marked, with the claim and the
      volume being deleted, and no other object touched. */
  ghost predicate LeaveEffect(w: World, v: World)
    requires w.hist != []
  {
    match WayOf(w)
    case Releases => v.gone && v.cloud == w.cloud && VolumesSame(w, v)
    case Awaits => Doing(w, v) && v.cloud == w.cloud && VolumesSame(w, v)
    case IssuesDelete => Marked(w, v)
  }

  lemma LeaveStart(w0: World, c: Call, o: Outcome, es: seq<Entry>, v: World)
    requires Leaving(w0) && Calls(w0, c, o, es, v)
    ensures MidLeave(w0, v)
  {
    hide Inv, Tally, HasTrue;
  }

  /** A deletion note from the version read. */
  lemma NoteLands(w0: World, w: World, c: Call, o: Outcome, v: World)
    requires Leaving(w0) && Doing(w0, w) && c.UpdateStatus? && Possible(w, c, o) && Honest(w, c, o)
    requires v == Perform(w, c, o)
    requires c.snap.rv == |w0.hist| - 1 && c.snap.cr.(status := Current(w0).status) == Current(w0)
    ensures v.hist != [] && v.pc == At(c, Got(AsRead(v))) && Current(v) == c.snap.cr && !v.gone && v.cloud == w.cloud
    ensures VolumesSame(w, v)
  {
    hide Perform, Tally, Inv, HasTrue;
    CalmShape(w, c, o);
  }

  lemma ReleaseLands(w: World, s: Snap, o: Outcome, v: World)
    requires w.hist != [] && !w.gone && s == AsRead(w) && Current(w).deleted
    requires var c := RemoveFinalizer(s); Possible(w, c, o) && Honest(w, c, o) && v == Perform(w, c, o)
    ensures v.gone && v.cloud == w.cloud && v.pc == At(RemoveFinalizer(s), Done) && VolumesSame(w, v)
  {
    hide Perform, Tally;
    CalmShape(w, RemoveFinalizer(s), o);
  }

  lemma LeaveRead(w0: World, w: World, c: Call, o: Outcome, es: seq<Entry>, v: World)
    requires Leaving(w0) && MidLeave(w0, w) && Calls(w, c, o, es, v) && w.pc.call.ReadCr?
    ensures MidLeave(w0, v)
  {
    hide Perform, Inv, Possible, Honest, HasTrue, Replay;
    match c
    case RemoveFinalizer(s) => ReleaseLands(w, s, o, v);
    case UpdateStatus(_, _) => NoteLands(w0, w, c, o, v);
    case _ => LeaveShow(w0, w, c, o, v);
  }

  lemma LeaveShow(w0: World, w: World, c: Call, o: Outcome, v: World)
    requires Leaving(w0) && Same(w0, w) && c == ShowShare(AsRead(w0)) && Possible(w, c, o) && Honest(w, c, o)
    requires v == Perform(w, c, o)
    requires Current(w0).status.fsId != NO_FS && Current(w0).spec.policy == Delete
    ensures MidLeave(w0, v)
  {
    hide Perform, Tally, Inv, HasTrue;
    CalmShape(w, c, o);
  }

  lemma LeaveShown(w0: World, w: World, c: Call, o: Outcome, es: seq<Entry>, v: World)
    requires Leaving(w0) && MidLeave(w0, w) && Calls(w, c, o, es, v) && w.pc.call.ShowShare?
    ensures MidLeave(w0, v)
  {
    hide Perform, Inv, Possible, Honest, HasTrue, Replay;
    if w.pc.reply.Failure? {
      CookedNotFound(OpShow, w.pc.reply.err);
      NoteLands(w0, w, c, o, v);
    } else {
      LeaveOn(w0, w, c, o, v);
    }
  }

  /** A call of the cascade, or the deletion itself, from the stores as they are then. */
  lemma LeaveOn(w0: World, w: World, c: Call, o: Outcome, v: World)
    requires Leaving(w0) && WayOf(w0).IssuesDelete? && Doing(w0, w) && w.cloud == w0.cloud
    requires Possible(w, c, o) && Honest(w, c, o) && v == Perform(w, c, o)
    requires (c.GetPvc? || c.DeletePvc? || c.GetPv? || c.DeletePv? || c.DeleteShare?) && c.snap == AsRead(w0)
    requires !c.DeleteShare? ==> Current(w0).spec.pvcName != ""
    requires c.GetPvc? ==> VolumesSame(w0, w)
    requires c.DeletePvc? ==> VolumesSame(w0, w) && (Current(w0).ns, Current(w0).spec.pvcName) in w0.pvcs
    requires c.GetPv? ==> w.pvs == w0.pvs && w.pvcs == ClaimsAfter(w0)
    requires c.DeletePv? ==> w.pvs == w0.pvs && w.pvcs == ClaimsAfter(w0) && Current(w0).spec.pvcName in w0.pvs
    requires c.DeleteShare? ==> w.pvs == VolumesAfter(w0) && w.pvcs == ClaimsAfter(w0)
    ensures MidLeave(w0, v)
  {
    hide Perform, Tally, Inv, HasTrue;
    CalmShape(w, c, o);
  }

  lemma LeaveCascade(w0: World, w: World, c: Call, o: Outcome, es: seq<Entry>, v: World)
    requires Leaving(w0) && MidLeave(w0, w) && Calls(w, c, o, es, v)
    requires w.pc.call.GetPvc? || w.pc.call.DeletePvc? || w.pc.call.GetPv? || w.pc.call.DeletePv?
    ensures MidLeave(w0, v)
  {
    hide Perform, Inv, Possible, Honest, HasTrue, Replay;
    Unchanged(w0);
    LeaveOn(w0, w, c, o, v);
  }

  /** What is being deleted already, or is not there, stays as it is. */
  lemma Unchanged(w: World)
    requires w.hist != []
    ensures var key := (Current(w).ns, Current(w).spec.pvcName);
            key !in w.pvcs || w.pvcs[key].terminating ==> ClaimsAfter(w) == w.pvcs
    ensures var name := Current(w).spec.pvcName;
            name !in w.pvs || w.pvs[name].terminating ==> VolumesAfter(w) == w.pvs
  {
    var key := (Current(w).ns, Current(w).spec.pvcName);
    if key in w.pvcs && w.pvcs[key].terminating { assert w.pvcs[key].(terminating := true) == w.pvcs[key]; }
    var name := Current(w).spec.pvcName;
    if name in w.pvs && w.pvs[name].terminating { assert w.pvs[name].(terminating := true) == w.pvs[name]; }
  }

  lemma LeaveDeleted(w0: World, w: World, c: Call, o: Outcome, es: seq<Entry>, v: World)
    requires Leaving(w0) && MidLeave(w0, w) && Calls(w, c, o, es, v) && w.pc.call.DeleteShare?
    ensures MidLeave(w0, v)
  {
    hide Perform, Inv, Possible, Honest, HasTrue, Replay;
    SpecName(w0);
    var s := w.pc.call.snap;
    DeletingSaid(s, c, es);
    NoteLands(w0, w, c, o, v);
  }

  lemma DeletingSaid(s: Snap, c: Call, es: seq<Entry>)
    requires UniqueTypes(s.cr.status.conditions) && Writes(s, DeletePendingSets(), DeleteMarked, c, es)
    ensures var cs, gen := c.snap.cr.status.conditions, s.cr.generation;
            && Says(cs, CondSet(Deleting, True, FsDeletePending, Fixed), gen) && HasTrue(cs, Deleting)
            && Says(cs, CondSet(Ready, False, FsDeletePending, Fixed), gen)
  {
    hide Replay, Says, HasTrue, Told;
    Spoken(s.cr.status.conditions, DeletePendingSets(), s.cr.generation, es, Deleting);
    Spoken(s.cr.status.conditions, DeletePendingSets(), s.cr.generation, es, Ready);
    assert DeletePendingSets() == [ CondSet(Deleting, True, FsDeletePending, Fixed) ] + [ CondSet(Ready, False, FsDeletePending, Fixed) ];
  }

  lemma LeaveNoted(w0: World, w: World, c: Call, o: Outcome, es: seq<Entry>, v: World)
    requires Leaving(w0) && MidLeave(w0, w) && Calls(w, c, o, es, v) && w.pc.call.UpdateStatus?
    ensures MidLeave(w0, v)
  {
    hide Perform, Inv, Possible, Honest, HasTrue, Replay;
    ReleaseLands(w, c.snap, o, v);
  }

  lemma LeaveKeeps(w0: World, w: World, c: Call, o: Outcome, es: seq<Entry>, v: World)
    requires Leaving(w0) && MidLeave(w0, w) && Calls(w, c, o, es, v)
    ensures MidLeave(w0, v)
  {
    hide Inv, Follows, Possible, Honest, Perform, HasTrue;
    var last := w.pc.call;
    match last
    case ReadCr => LeaveRead(w0, w, c, o, es, v);
    case ShowShare(_) => LeaveShown(w0, w, c, o, es, v);
    case DeleteShare(_) => LeaveDeleted(w0, w, c, o, es, v);
    case UpdateStatus(_, _) => LeaveNoted(w0, w, c, o, es, v);
    case RemoveFinalizer(_) => NothingFollows(w.pc, c, es);
    case _ => LeaveCascade(w0, w, c, o, es, v);
  }

  lemma NothingFollows(pc: Pc, c: Call, es: seq<Entry>)
    requires pc.At? && pc.call.RemoveFinalizer?
    ensures !Follows(pc, c, es)
  {
  }

  lemma LeaveEnds(w0: World, w: World, v: World)
    requires Leaving(w0) && MidLeave(w0, w) && Ending(w.pc).Some? && v == w.(pc := Idle)
    ensures LeaveEffect(w0, v)
  {
    hide Inv, HasTrue;
  }

  lemma {:induction false} PassLeaves(r: Run, i: nat)
    requires CalmPass(r) && Leaving(r.worlds[0]) && 0 < i < |r.acts|
    ensures MidLeave(r.worlds[0], r.worlds[i])
  {
    hide Inv, MidLeave, Follows, Possible, Honest, Perform;
    var w0, w, v, a := r.worlds[0], r.worlds[i - 1], r.worlds[i], r.acts[i - 1];
    assert CalmStep(w, a, v) && v.pc.At?;
    var es :| May(w, a, es) && v == Next(w, a);
    assert a.Do?;
    assert Calls(w, a.call, a.outcome, es, v);
    if i == 1 {
      LeaveStart(w0, a.call, a.outcome, es, v);
    } else {
      PassLeaves(r, i - 1);
      LeaveKeeps(w0, w, a.call, a.outcome, es, v);
    }
  }

  lemma LeavePassEffect(r: Run)
    requires CalmPass(r) && Leaving(r.worlds[0])
    ensures LeaveEffect(r.worlds[0], r.worlds[|r.acts|]) && Inv(r.worlds[|r.acts|])
  {
    hide Inv, MidLeave, LeaveEffect, Follows, Possible, Honest, Perform;
    var n := |r.acts|;
    PassKeepsInv(r, n);
    var w, v, a := r.worlds[n - 1], r.worlds[n], r.acts[n - 1];
    assert CalmStep(w, a, v);
    var es :| May(w, a, es) && v == Next(w, a);
    if n == 1 {
      NoEnd(w, a, es, v);
    }
    PassLeaves(r, n - 1);
    LastIsEnd(w, a, es, v);
    LeaveEnds(r.worlds[0], w, v);
  }

  /** The cloud completes the deletion of the recorded share, if one was accepted. */
  ghost predicate Completes(m: World, v: World) {
    && m.hist != []
    && var id := Current(m).status.fsId;
       if id in m.cloud && m.cloud[id].dying then v == EnvStep(m, FinishDelete(id)) else v == m
  }

  /** One calm pass, and then the cloud completes what was accepted. */
  ghost predicate LeaveRound(w: World, v: World) {
    exists r: Run :: CalmPass(r) && r.worlds[0] == w && Completes(r.worlds[|r.acts|], v)
  }

  lemma CompletesKeeps(m: World, v: World)
    requires Inv(m) && Completes(m, v)
    ensures Inv(v) && v.hist == m.hist && v.gone == m.gone && v.pc == m.pc
    ensures var id := Current(m).status.fsId; id in v.cloud ==> id in m.cloud && !m.cloud[id].dying
  {
    hide Inv;
    var id := Current(m).status.fsId;
    if id in m.cloud && m.cloud[id].dying { EnvKeeps(m, FinishDelete(id)); }
  }

  lemma Released(w: World, v: World)
    requires Leaving(w) && WayOf(w).Releases? && LeaveRound(w, v)
    ensures v.gone
  {
    hide Inv, CalmStep, HasTrue, Completes, Leaving;
    var r: Run :| CalmPass(r) && r.worlds[0] == w && Completes(r.worlds[|r.acts|], v);
    LeavePassEffect(r);
    CompletesKeeps(r.worlds[|r.acts|], v);
  }

  lemma NextReleases(w: World, m: World, v: World)
    requires Leaving(w) && MarkTrue(w) && !WayOf(w).Releases? && LeaveEffect(w, m) && m.pc == Idle && Inv(m)
    requires Completes(m, v)
    ensures Leaving(v) && WayOf(v).Releases? && Current(w).status.fsId !in v.cloud
  {
    hide Inv, HasTrue;
    CompletesKeeps(m, v);
  }

  /** Deletion ends: from any state of any run in which the resource is marked for deletion and holds the
      finalizer, one calm pass removes it, or one more does once the cloud has completed the deletion;
      under policy Delete the recorded share is gone by then. */
  lemma DeletionCompletes(w: World, v: World)
    requires Reachable(w) && Leaving(w) && LeaveRound(w, v)
    ensures if WayOf(w).Releases? then v.gone
            else Leaving(v) && Current(w).status.fsId !in v.cloud && forall u | LeaveRound(v, u) :: u.gone
  {
    hide Inv, CalmPass, HasTrue, Completes, LeaveEffect, MarkTrue, WayOf, LeaveRound;
    if WayOf(w).Releases? {
      Released(w, v);
    } else {
      var q: Run, i: nat :| ReachedIn(w, q, i);
      MarkerIsTrue(q, i);
      OneRound(w, v);
      forall u | LeaveRound(v, u) ensures u.gone { Released(v, u); }
    }
  }

  lemma OneRound(w: World, v: World)
    requires Leaving(w) && MarkTrue(w) && !WayOf(w).Releases? && LeaveRound(w, v)
    ensures Leaving(v) && WayOf(v).Releases? && Current(w).status.fsId !in v.cloud
  {
    hide Inv, HasTrue, Completes, Leaving, LeaveEffect, MarkTrue, WayOf, CalmStep;
    var r: Run :| CalmPass(r) && r.worlds[0] == w && Completes(r.worlds[|r.acts|], v);
    LeavePassEffect(r);
    NextReleases(w, r.worlds[|r.acts|], v);
  }
}
