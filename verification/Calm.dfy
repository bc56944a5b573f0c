/** One pass in which nothing goes wrong and nobody interferes: every call that the store can accept
    is accepted and answered exactly, and a read returns the current version. */
module Calm {
  import opened Errors
  import opened Conditions
  import opened Types
  import opened Poll
  import opened Protocol
  import opened Safety
  import opened Passes
  import opened PollEnds
  import opened PollRuns
  import opened Tags

  // ---------------------------------------------------------------- calm passes

  ghost predicate Honest(w: World, c: Call, o: Outcome)
    requires w.hist != []
  {
    match o
    case Answered(r) =>
      && Accepts(w, c) && Fits(w, c, r)
      && (c.ReadCr? ==> r.snap.rv == |w.hist| - 1)
      && (c.ShowShare? ==> r == Info(w.cloud[c.snap.cr.status.fsId].info))
    case LostReply => false
    case Refused(e) =>
      && !Accepts(w, c) && Truthful(w, c, e)
      && (c.CreateShare? ==> IsNameAlreadyExists(e))
      && (c.ShowShare? ==> HttpCode(e) == 404)
      && (c.GetPv? || c.GetPvc? ==> IsApiNotFound(e))
  }

  ghost predicate CalmStep(w: World, a: Act, v: World) {
    Step(w, a, v) && (a.Do? ==> w.hist != [] && Honest(w, a.call, a.outcome)) && !a.Env?
  }

  /** A whole pass, from its read to its result. */
  ghost predicate CalmPass(r: Run) {
    && |r.worlds| == |r.acts| + 1 && |r.acts| > 0
    && (forall i | 0 <= i < |r.acts| :: CalmStep(r.worlds[i], r.acts[i], r.worlds[i + 1]))
    && r.worlds[0].pc == Idle && r.worlds[|r.acts|].pc == Idle
    && (forall i | 0 < i < |r.acts| :: r.worlds[i].pc.At?)
  }

  // ---------------------------------------------------------------- what a pass does

  /** A resource the operator can work on: not deleted, not paused, with a claim size that parses, and
      with a share, if any, that reports its size and is not in an error state. */
  ghost predicate Workable(w: World) {
    && Inv(w) && w.hist != [] && !w.gone && w.pc == Idle
    && !Current(w).deleted && !Current(w).spec.paused
    && Current(w).spec.size > 0 && !Current(w).spec.pvcSize.Malformed?
    && (forall id | id in w.cloud && w.cloud[id].name == w.fsName ::
          w.cloud[id].info.size > 0 && w.cloud[id].info.status !in {"303", "308", "400"})
  }

  /** What the next pass has to do, by how far the resource has come. */
  datatype Branch = AddsFinalizer | Recreates | Creates | Waits | Expands | Regroups | Completes

  function BranchOf(w: World): (b: Branch)
    requires w.hist != []
  {
    var h := Current(w);
    var id := h.status.fsId;
    if !h.finalizer then AddsFinalizer
    else if id == NO_FS then Creates
    else if id !in w.cloud then Recreates
    else
      var info := w.cloud[id].info;
      if info.status != "200" then Waits
      else if info.size > 0 && h.spec.size > info.size then Expands
      else if h.spec.sg != "" && h.spec.sg != info.sg then Regroups
      else Completes
  }

  predicate GroupChanging(w: World)
    requires w.hist != [] && Current(w).status.fsId in w.cloud
  {
    w.cloud[Current(w).status.fsId].info.subStatus == "132"
  }

  /** The cloud after the pass. */
  function CloudAfter(w: World): map<nat, Share>
    requires w.hist != []
  {
    var h := Current(w);
    var id := h.status.fsId;
    match BranchOf(w)
    case Creates => if NameTaken(w.cloud, w.fsName) then w.cloud else w.cloud[w.nextId := NewShare(h.spec)]
    case Expands =>
      if HasTrue(h.status.conditions, Expanding) then w.cloud
      else w.cloud[id := w.cloud[id].(target := h.spec.size, info := w.cloud[id].info.(status := "121"))]
    case Regroups =>
      if GroupChanging(w) then w.cloud
      else w.cloud[id := w.cloud[id].(sgTarget := h.spec.sg, info := w.cloud[id].info.(subStatus := "132"))]
    case Completes => if GroupChanging(w) then w.cloud else Tagged(w, h.spec.tags)
    case _ => w.cloud
  }

  function Tagged(w: World, tags: map<string, string>): map<nat, Share>
    requires w.hist != [] && Current(w).status.fsId in w.cloud
  {
    w.cloud[Current(w).status.fsId := w.cloud[Current(w).status.fsId].(tags := tags)]
  }

  /** How the poll of the pass ends. */
  function EndOf(w: World): PollEnd
    requires w.hist != [] && !BranchOf(w).AddsFinalizer? && !BranchOf(w).Creates? && !BranchOf(w).Waits?
  {
    var h := Current(w);
    if BranchOf(w).Recreates? then Recreated
    else
      var info := w.cloud[h.status.fsId].info;
      if BranchOf(w).Expands? then
        if HasTrue(h.status.conditions, Expanding) then GrowWaits(info) else GrowMarked(info)
      else if BranchOf(w).Regroups? then
        if GroupChanging(w) then GroupWaits(info) else GroupMarked(info)
      else Full(info, if GroupChanging(w) then Skipped else Aligned(h.spec.tags, w.cloud[h.status.fsId].tags != h.spec.tags))
  }

  /** The object after the pass: as it was, with the finalizer, with the id of the share that bears the
      name, or as the declared end of the poll leaves it. */
  ghost predicate Rewritten(w: World, cr: Cr)
    requires w.hist != []
  {
    var h := Current(w);
    match BranchOf(w)
    case AddsFinalizer => cr == h.(finalizer := true)
    case Waits => cr == h
    case Creates =>
      && cr.status.fsId in CloudAfter(w) && CloudAfter(w)[cr.status.fsId].name == w.fsName
      && exists es :: CreatedAt(h, cr, es)
    case _ => exists es :: Ended(h, EndOf(w), cr, es)
  }

  ghost predicate CreatedAt(h: Cr, cr: Cr, es: seq<Entry>) {
    && Told(es, [ CondSet(Provisioning, True, FsCreatePending, Fixed), CondSet(Failed, False, FsCreatePending, Fixed) ],
            h.generation)
    && cr == Noted(h.(status := h.status.(fsId := cr.status.fsId, observedGeneration := h.generation)), es)
  }

  predicate HasVolumes(w: World)
    requires w.hist != []
  {
    var cr := Current(w);
    cr.spec.pvcName != "" ==> cr.spec.pvcName in w.pvs && (cr.ns, cr.spec.pvcName) in w.pvcs
  }

  /** The volume that the object names is created; one that is there loses its claim when it is released,
      carries the operator's label and has a claim. */
  function PvsAfter(w: World, cr: Cr): map<string, PV>
    requires !cr.spec.pvcSize.Malformed?
  {
    var name := cr.spec.pvcName;
    if name !in w.pvs then w.pvs[name := BuildPV(cr, CapacityOf(cr.spec).value)]
    else if w.pvs[name].phase == Released && w.pvs[name].managedBy == "huawei-sfs-operator" && w.pvs[name].claimRef.Some? then
      w.pvs[name := w.pvs[name].(claimRef := None)]
    else w.pvs
  }

  function PvcsAfter(w: World, cr: Cr): map<(string, string), PVC>
    requires !cr.spec.pvcSize.Malformed?
  {
    var key := (cr.ns, cr.spec.pvcName);
    if key in w.pvcs then w.pvcs else w.pvcs[key := BuildPVC(cr, CapacityOf(cr.spec).value)]
  }

  /** The pass runs to its end on a resource that names a claim, and the share has an export location. */
  predicate ReachesVolumes(w: World)
    requires w.hist != []
  {
    && BranchOf(w).Completes? && Current(w).spec.pvcName != ""
    && w.cloud[Current(w).status.fsId].info.exportLocation != "" && !Current(w).spec.pvcSize.Malformed?
  }

  /** Everything that a calm pass from `w` leaves behind. */
  ghost predicate PassEffect(w: World, v: World)
    requires w.hist != []
  {
    && v.hist != [] && !v.gone && v.fsName == w.fsName
    && v.cloud == CloudAfter(w)
    && Rewritten(w, Current(v))
    && if ReachesVolumes(w) then
         v.pvs == PvsAfter(w, Current(v)) && v.pvcs == PvcsAfter(w, Current(v))
       else v.pvs == w.pvs && v.pvcs == w.pvcs
  }

  // ---------------------------------------------------------------- inside a pass

  predicate Same(w: World, v: World) {
    v == w.(cache := v.cache, pc := v.pc, log := v.log)
  }

  predicate CloudBecame(w: World, v: World, cloud: map<nat, Share>) {
    v == w.(cloud := cloud, nextId := v.nextId, cache := v.cache, pc := v.pc, log := v.log)
  }

  predicate StatusWritten(w: World, v: World)
    requires w.hist != []
  {
    && v == w.(hist := v.hist, cloud := CloudAfter(w), nextId := v.nextId, pvs := v.pvs, pvcs := v.pvcs,
               cache := v.cache, pc := v.pc, log := v.log)
    && v.hist != []
  }

  function AsRead(w: World): Snap
    requires w.hist != []
  {
    Snap(Current(w), |w.hist| - 1)
  }

  /** The object in memory, up to its status. */
  predicate StillAsRead(w: World, s: Snap)
    requires w.hist != []
  {
    && s.rv == |w.hist| - 1 && s.cr.(status := Current(w).status) == Current(w)
    && s.cr.status.fsId == Current(w).status.fsId
  }

  /** The poll has decided: the branch is known and the object holds what was observed. */
  predicate Polled(w: World, s: Snap, info: ShareInfo)
    requires w.hist != []
  {
    && StillAsRead(w, s) && Current(w).finalizer && s.cr.status.fsId in w.cloud
    && info == w.cloud[s.cr.status.fsId].info
  }

  predicate Completing(w: World, v: World, s: Snap, info: ShareInfo, live: map<string, string>)
    requires w.hist != []
  {
    && Polled(w, s, info) && BranchOf(w).Completes? && !GroupChanging(w)
    && CloudBecame(w, v, Tagged(w, live))
  }

  ghost predicate Noting(w: World, v: World, why: Why)
    requires w.hist != []
  {
    && StatusWritten(w, v) && Rewritten(w, Current(v)) && v.pvs == w.pvs && v.pvcs == w.pvcs
    && (match BranchOf(w)
        case Creates => why == CreatedNote
        case AddsFinalizer => false
        case Waits => false
        case _ => why == EndWhy(EndOf(w)))
  }

  ghost predicate OnVolumes(w: World, v: World, s: Snap)
    requires w.hist != []
  {
    StatusWritten(w, v) && Rewritten(w, Current(v)) && BranchOf(w).Completes? && s.cr == Current(v) && WantsPv(s.cr)
  }

  /** How far the pass that began in `w` has come in `v`. */
  ghost predicate Mid(w: World, v: World)
    requires w.hist != []
  {
    v.pc.At? &&
    var h, r := Current(w), v.pc.reply;
    match v.pc.call
    case ReadCr => Same(w, v) && r == Got(AsRead(w))
    case AddFinalizer(_) => StatusWritten(w, v) && v.pvs == w.pvs && v.pvcs == w.pvcs && BranchOf(w).AddsFinalizer? &&
                            Current(v) == h.(finalizer := true)
    case CreateShare(s) =>
      && s == AsRead(w) && BranchOf(w).Creates?
      && if NameTaken(w.cloud, w.fsName) then Same(w, v) && r.Failure? && IsNameAlreadyExists(r.err)
         else r == Minted(w.nextId) && CloudBecame(w, v, CloudAfter(w))
    case ListShares(s, _) =>
      && s == AsRead(w) && BranchOf(w).Creates? && NameTaken(w.cloud, w.fsName) && Same(w, v)
      && r.Shares? && ListsCloud(r.list, w.cloud)
    case ShowShare(s) =>
      && s == AsRead(w) && h.finalizer && s.cr.status.fsId != NO_FS && Same(w, v)
      && if s.cr.status.fsId in w.cloud then r == Info(w.cloud[s.cr.status.fsId].info)
         else r.Failure? && HttpCode(r.err) == 404
    case ExpandShare(s, info) =>
      && Polled(w, s, info) && BranchOf(w).Expands? && PollHalf(h, v.pc.call)
      && r.Done? && CloudBecame(w, v, CloudAfter(w))
    case ChangeSg(s, info) =>
      && Polled(w, s, info) && BranchOf(w).Regroups? && PollHalf(h, v.pc.call)
      && r.Done? && CloudBecame(w, v, CloudAfter(w))
    case ShowTags(s, info) =>
      && Polled(w, s, info) && r == Tags(w.cloud[h.status.fsId].tags)
      && Completing(w, v, s, info, w.cloud[h.status.fsId].tags) && PollHalf(h, v.pc.call)
    case AddTag(s, info, live, k) =>
      && r.Done? && k in s.cr.spec.tags && Completing(w, v, s, info, live[k := s.cr.spec.tags[k]])
      && w.cloud[h.status.fsId].tags != h.spec.tags && PollHalf(h, v.pc.call)
    case DeleteTag(s, info, live, k) =>
      && r.Done? && Completing(w, v, s, info, live - {k})
      && w.cloud[h.status.fsId].tags != h.spec.tags && PollHalf(h, v.pc.call)
    case UpdateStatus(s, why) => v.hist != [] && r == Got(AsRead(v)) && Noting(w, v, why)
    case GetPv(s) =>
      && OnVolumes(w, v, s) && v.pvs == w.pvs && v.pvcs == w.pvcs
      && if s.cr.spec.pvcName in w.pvs then r == PvIs(w.pvs[s.cr.spec.pvcName]) else r.Failure? && IsApiNotFound(r.err)
    case CreatePv(s) => r.Done? && OnVolumes(w, v, s) && v.pvs == PvsAfter(w, s.cr) && v.pvcs == w.pvcs
    case UpdatePv(s, _) => r.Done? && OnVolumes(w, v, s) && v.pvs == PvsAfter(w, s.cr) && v.pvcs == w.pvcs
    case GetPvc(s) =>
      && OnVolumes(w, v, s) && v.pvs == PvsAfter(w, s.cr) && v.pvcs == w.pvcs
      && if (s.cr.ns, s.cr.spec.pvcName) in w.pvcs then r.PvcIs? else r.Failure? && IsApiNotFound(r.err)
    case CreatePvc(s) => r.Done? && OnVolumes(w, v, s) && v.pvs == PvsAfter(w, s.cr) && v.pvcs == PvcsAfter(w, s.cr)
    case _ => false
  }

  /** What an honest call does, without the bookkeeping. */
  lemma CalmShape(w: World, c: Call, o: Outcome)
    requires w.hist != [] && Possible(w, c, o) && Honest(w, c, o)
    ensures var v := Perform(w, c, o);
            && v.pc == At(c, ReplyOf(o))
            && v == (if Accepts(w, c) then Effect(w, c) else w).(cache := v.cache, pc := v.pc, log := v.log)
            && (Accepts(w, c) ==> o.Answered? && Fits(w, c, o.reply)) && (!Accepts(w, c) ==> o.Refused?)
  {
    hide Effect, Accepts, Fits, Truthful, Tally;
  }

  /** Everything known of one honest call. */
  ghost predicate Calls(w: World, c: Call, o: Outcome, es: seq<Entry>, v: World) {
    && w.hist != [] && Follows(w.pc, c, es) && Possible(w, c, o) && Honest(w, c, o)
    && v == Perform(w, c, o)
  }

  lemma FromRead(w0: World, w: World, c: Call, o: Outcome, es: seq<Entry>, v: World)
    requires Workable(w0) && Mid(w0, w) && Calls(w, c, o, es, v) && w.pc.call.ReadCr?
    ensures Mid(w0, v)
  {
    hide Perform, Tally, Inv, CapacityOf;
    CalmShape(w, c, o);
    SpecName(w0);
  }

  lemma SpecName(w: World)
    requires Inv(w) && w.hist != []
    ensures Current(w).spec.fsName == w.fsName && UniqueTypes(Current(w).status.conditions)
    ensures var id := Current(w).status.fsId; id in w.cloud ==> w.cloud[id].name == w.fsName
    ensures forall a, b | a in w.cloud && b in w.cloud && w.cloud[a].name == w.cloud[b].name :: a == b
    ensures forall id | id in w.cloud :: 0 < id < w.nextId
    ensures w.nextId > 0
  {
  }

  /** A status write from the version read. */
  lemma WriteLands(w0: World, w: World, c: Call, o: Outcome, v: World)
    requires Workable(w0) && CloudBecame(w0, w, CloudAfter(w0)) && c.UpdateStatus?
    requires w.hist != [] && Possible(w, c, o) && Honest(w, c, o) && v == Perform(w, c, o)
    requires c.snap.rv == |w0.hist| - 1 && c.snap.cr.(status := Current(w0).status) == Current(w0)
    ensures v.hist != [] && v.pc == At(c, Got(AsRead(v))) && StatusWritten(w0, v) && v.pvs == w0.pvs
    ensures v.pvcs == w0.pvcs
    ensures Current(v) == c.snap.cr
  {
    hide Perform, Tally, Inv, CapacityOf, CloudAfter;
    CalmShape(w, c, o);
  }

  lemma CreatedLands(w0: World, w: World, id: nat, c: Call, o: Outcome, es: seq<Entry>, v: World)
    requires Workable(w0) && CloudBecame(w0, w, CloudAfter(w0)) && BranchOf(w0).Creates?
    requires w.hist != [] && Possible(w, c, o) && Honest(w, c, o) && v == Perform(w, c, o)
    requires id in CloudAfter(w0) && CloudAfter(w0)[id].name == w0.fsName
    requires Writes(WithFs(AsRead(w0), id), CreatedSets(), CreatedNote, c, es)
    ensures Mid(w0, v)
  {
    hide Perform, Inv, CapacityOf, Replay, CloudAfter, Possible, Honest, HasTrue;
    SpecName(w0);
    WriteLands(w0, w, c, o, v);
    assert CreatedAt(Current(w0), Current(v), es);
  }

  lemma FromCreate(w0: World, w: World, c: Call, o: Outcome, es: seq<Entry>, v: World)
    requires Workable(w0) && Mid(w0, w) && Calls(w, c, o, es, v) && w.pc.call.CreateShare?
    ensures Mid(w0, v)
  {
    hide Perform, Tally, Inv, CapacityOf, Replay;
    SpecName(w0);
    if c.UpdateStatus? {
      CreatedLands(w0, w, w.pc.reply.id, c, o, es, v);
    } else {
      CalmShape(w, c, o);
    }
  }

  lemma FromList(w0: World, w: World, c: Call, o: Outcome, es: seq<Entry>, v: World)
    requires Workable(w0) && Mid(w0, w) && Calls(w, c, o, es, v) && w.pc.call.ListShares?
    ensures Mid(w0, v)
  {
    hide Perform, Inv, CapacityOf, Replay, Possible, Honest, Writes, FailWrite;
    SpecName(w0);
    var list := w.pc.reply.list;
    var id :| id in w0.cloud && w0.cloud[id].name == w0.fsName;
    assert Listed(id, w0.fsName) in list;
    FirstNamedIs(list, w0.fsName, w0.cloud);
    CreatedLands(w0, w, FirstNamed(list, w0.fsName), c, o, es, v);
  }

  lemma {:induction false} FirstNamedIs(list: seq<Listed>, name: string, cloud: map<nat, Share>)
    requires exists id :: Listed(id, name) in list
    requires forall i | 0 <= i < |list| :: list[i].id in cloud && list[i].name == cloud[list[i].id].name
    requires NO_FS !in cloud
    ensures var id := FirstNamed(list, name); id in cloud && cloud[id].name == name
  {
    if list[0].name != name {
      FirstNamedIs(list[1..], name, cloud);
    }
  }

  lemma FromShow(w0: World, w: World, c: Call, o: Outcome, es: seq<Entry>, v: World)
    requires Workable(w0) && Mid(w0, w) && Calls(w, c, o, es, v) && w.pc.call.ShowShare?
    ensures Mid(w0, v)
  {
    hide Perform, Inv, CapacityOf, Possible, Honest, FollowsAvailable, Ended, HasTrue;
    SpecName(w0);
    var s, r := w.pc.call.snap, w.pc.reply;
    if s.cr.status.fsId in w0.cloud {
      if c.UpdateStatus? { FromAvailableWrite(w0, w, s, r.info, c, o, es, v); } else { FromAvailable(w0, w, s, r.info, c, o, es, v); }
    } else {
      CookedNotFound(OpShow, r.err);
      var end := PollToEnd(s, r, c, es);
      assert end == EndOf(w0);
      PollLands(w0, w, c, o, es, v);
    }
  }

  /** A status write of the poll, from the branch it belongs to. */
  lemma PollLands(w0: World, w: World, c: Call, o: Outcome, es: seq<Entry>, v: World)
    requires Workable(w0) && CloudBecame(w0, w, CloudAfter(w0)) && c.UpdateStatus?
    requires w.hist != [] && Possible(w, c, o) && Honest(w, c, o) && v == Perform(w, c, o)
    requires !BranchOf(w0).AddsFinalizer? && !BranchOf(w0).Creates? && !BranchOf(w0).Waits?
    requires c.snap.rv == |w0.hist| - 1 && c.why == EndWhy(EndOf(w0)) && Ended(Current(w0), EndOf(w0), c.snap.cr, es)
    ensures Mid(w0, v)
  {
    hide Perform, Inv, CapacityOf, Possible, Honest, CloudAfter, Ended, HasTrue, EndOf, BranchOf, EndWhy;
    EndKeeps(Current(w0), EndOf(w0), c.snap.cr, es);
    WriteLands(w0, w, c, o, v);
    RewrittenBy(w0, Current(v), es);
  }

  lemma RewrittenBy(w0: World, cr: Cr, es: seq<Entry>)
    requires w0.hist != [] && !BranchOf(w0).AddsFinalizer? && !BranchOf(w0).Creates? && !BranchOf(w0).Waits?
    requires Ended(Current(w0), EndOf(w0), cr, es)
    ensures Rewritten(w0, cr)
  {
    hide Ended, EndOf, BranchOf, CloudAfter;
  }

  lemma FromAvailableWrite(w0: World, w: World, s: Snap, info: ShareInfo, c: Call, o: Outcome, es: seq<Entry>, v: World)
    requires Workable(w0) && Mid(w0, w) && Calls(w, c, o, es, v) && w.pc == At(ShowShare(s), Info(info))
    requires c.UpdateStatus?
    ensures Mid(w0, v)
  {
    hide Perform, Inv, CapacityOf, Possible, Honest, Replay, FollowsAvailable, Ended, HasTrue;
    SpecName(w0);
    var end := PollToWrite(s, info, c, es);
    assert end == EndOf(w0);
    PollLands(w0, w, c, o, es, v);
  }

  lemma FromAvailable(w0: World, w: World, s: Snap, info: ShareInfo, c: Call, o: Outcome, es: seq<Entry>, v: World)
    requires Workable(w0) && Mid(w0, w) && Calls(w, c, o, es, v) && w.pc == At(ShowShare(s), Info(info))
    requires !c.UpdateStatus?
    ensures Mid(w0, v)
  {
    hide Perform, Inv, CapacityOf, Possible, Honest, Replay, FollowsAvailable, Half, HasTrue, MidFits;
    SpecName(w0);
    PollToCall(s, info, c, es);
    NotTag(s, info, c, es);
    CallMade(w0, w, info, c, o, es, v);
  }

  /** The call that the poll decides for: an expansion, a change of the group, or the listing of the tags. */
  lemma CallMade(w0: World, w: World, info: ShareInfo, c: Call, o: Outcome, es: seq<Entry>, v: World)
    requires Workable(w0) && Same(w0, w) && Current(w0).finalizer && Current(w0).status.fsId != NO_FS
    requires Current(w0).status.fsId in w0.cloud && info == w0.cloud[Current(w0).status.fsId].info
    requires IsMid(c) && !IsTagCall(c) && c.info == info && c.snap.rv == |w0.hist| - 1
    requires MidFits(Current(w0), c) && Half(Current(w0), c, es)
    requires w.hist != [] && Possible(w, c, o) && Honest(w, c, o) && v == Perform(w, c, o)
    ensures Mid(w0, v)
  {
    hide Perform, Inv, Possible, Honest, Half, HasTrue;
    MidStatus(Current(w0), c, es);
    CallLands(w, c, o, v);
  }

  lemma NotTag(s: Snap, info: ShareInfo, c: Call, es: seq<Entry>)
    requires FollowsAvailable(s, info, c, es)
    ensures !IsTagCall(c)
  {
    hide HasTrue, Told;
  }

  lemma CallLands(w: World, c: Call, o: Outcome, v: World)
    requires w.hist != [] && Possible(w, c, o) && Honest(w, c, o) && v == Perform(w, c, o)
    requires c.ExpandShare? || c.ChangeSg? || c.ShowTags? || IsTagCall(c)
    requires c.snap.cr.status.fsId in w.cloud
    requires c.ExpandShare? ==> c.snap.cr.spec.size > w.cloud[c.snap.cr.status.fsId].info.size
    requires c.AddTag? ==> c.key in c.snap.cr.spec.tags
    ensures var id := c.snap.cr.status.fsId;
            var sh := w.cloud[id];
            && v.pc.At? && v.pc.call == c && CloudBecame(w, v, v.cloud)
            && v.pc.reply == (if c.ShowTags? then Tags(sh.tags) else Done)
            && v.cloud == (match c
                           case ExpandShare(s, _) => w.cloud[id := sh.(target := s.cr.spec.size, info := sh.info.(status := "121"))]
                           case ChangeSg(s, _) => w.cloud[id := sh.(sgTarget := s.cr.spec.sg, info := sh.info.(subStatus := SG_CHANGING))]
                           case AddTag(s, _, _, k) => w.cloud[id := sh.(tags := sh.tags[k := s.cr.spec.tags[k]])]
                           case DeleteTag(_, _, _, k) => w.cloud[id := sh.(tags := sh.tags - {k})]
                           case _ => w.cloud)
  {
    hide Perform, Tally;
    CalmShape(w, c, o);
  }

  lemma FromChange(w0: World, w: World, c: Call, o: Outcome, es: seq<Entry>, v: World)
    requires Workable(w0) && Mid(w0, w) && Calls(w, c, o, es, v) && (w.pc.call.ExpandShare? || w.pc.call.ChangeSg?)
    ensures Mid(w0, v)
  {
    hide Perform, Inv, CapacityOf, Possible, Honest, Replay, CloudAfter, HasTrue, PollHalf, Ended,
         FollowsExpand, FollowsSg;
    var end := LastChange(Current(w0), w.pc.call, w.pc.reply, c, es);
    ChangeWhy(w.pc.call, w.pc.reply, c, es);
    ChangeHalf(Current(w0), w.pc.call);
    assert end == EndOf(w0);
    var es' :| Ended(Current(w0), end, c.snap.cr, es');
    PollLands(w0, w, c, o, es', v);
  }

  lemma ChangeWhy(last: Call, r: Reply, c: Call, es: seq<Entry>)
    requires (last.ExpandShare? || last.ChangeSg?) && r.Done? && Follows(At(last, r), c, es)
    ensures c.UpdateStatus? && c.why == (if last.ExpandShare? then ExpandMarked else SgMarked)
  {
  }

  lemma ChangeHalf(h: Cr, last: Call)
    requires IsMid(last) && PollHalf(h, last)
    ensures MidFits(h, last)
  {
    hide MidFits, Half;
  }

  lemma FromTags(w0: World, w: World, c: Call, o: Outcome, es: seq<Entry>, v: World)
    requires Workable(w0) && Mid(w0, w) && Calls(w, c, o, es, v) && (w.pc.call.ShowTags? || IsTagCall(w.pc.call))
    ensures Mid(w0, v)
  {
    hide Perform, Inv, CapacityOf, Possible, Honest, Writes, FollowsTags, BranchOf, HasTrue, PollHalf;
    var last := w.pc.call;
    var live := if last.ShowTags? then w.pc.reply.tags
                else if last.AddTag? then last.live[last.key := last.snap.cr.spec.tags[last.key]]
                else last.live - {last.key};
    TagsGoOn(w0, w, last, live, !last.ShowTags?, c, o, es, v);
  }

  lemma TagsGoOn(w0: World, w: World, last: Call, live: map<string, string>, changed: bool, c: Call, o: Outcome, es: seq<Entry>, v: World)
    requires Workable(w0) && (last.ShowTags? || IsTagCall(last)) && Completing(w0, w, last.snap, last.info, live)
    requires FollowsTags(last.snap, last.info, live, changed, c, es) && PollHalf(Current(w0), last)
    requires var was := w0.cloud[Current(w0).status.fsId].tags; if changed then was != Current(w0).spec.tags else was == live
    requires w.hist != [] && Possible(w, c, o) && Honest(w, c, o) && v == Perform(w, c, o)
    ensures Mid(w0, v)
  {
    hide Perform, Inv, CapacityOf, Possible, Honest, BranchOf, HasTrue, Missing, Extra, Half, MidFits, Ended,
         EndsTags, CloudBecame;
    var desired := last.snap.cr.spec.tags;
    var es1 :| Half(Current(w0), last, es1);
    if c.UpdateStatus? {
      NothingMissing(live, desired);
      FullFromHalf(Current(w0), last, es1, Aligned(live, changed), c, es);
      TagsWritten(Current(w0), last, Aligned(live, changed), c, es);
      TagsLand(w0, w, last, changed, c, o, es1 + es, v);
    } else {
      TagIs(last.snap, last.info, live, changed, c, es);
      KeyWanted(live, desired, c.key);
      SameHalf(Current(w0), last, es1, c);
      TagLands(w0, w, c, o, v);
    }
  }

  lemma TagLands(w0: World, w: World, c: Call, o: Outcome, v: World)
    requires Workable(w0) && IsTagCall(c) && Completing(w0, w, c.snap, c.info, c.live) && PollHalf(Current(w0), c)
    requires w0.cloud[Current(w0).status.fsId].tags != Current(w0).spec.tags
    requires c.AddTag? ==> c.key in c.snap.cr.spec.tags
    requires w.hist != [] && Possible(w, c, o) && Honest(w, c, o) && v == Perform(w, c, o)
    ensures Mid(w0, v)
  {
    hide Perform, Inv, CapacityOf, Possible, Honest, BranchOf, HasTrue, PollHalf;
    CallLands(w, c, o, v);
  }

  lemma TagIs(s: Snap, info: ShareInfo, live: map<string, string>, changed: bool, c: Call, es: seq<Entry>)
    requires FollowsTags(s, info, live, changed, c, es) && !c.UpdateStatus?
    ensures IsTagCall(c) && c.snap == s && c.info == info && c.live == live
    ensures c.key in if c.AddTag? then Missing(live, s.cr.spec.tags) else Extra(live, s.cr.spec.tags)
  {
    hide Missing, Extra;
  }

  lemma TagsLand(w0: World, w: World, last: Call, changed: bool, c: Call, o: Outcome, es: seq<Entry>, v: World)
    requires Workable(w0) && (last.ShowTags? || IsTagCall(last))
    requires Completing(w0, w, last.snap, last.info, Current(w0).spec.tags)
    requires changed <==> w0.cloud[Current(w0).status.fsId].tags != Current(w0).spec.tags
    requires c.UpdateStatus? && c.why == Settled && c.snap.rv == last.snap.rv
    requires Ended(Current(w0), Full(last.info, Aligned(Current(w0).spec.tags, changed)), c.snap.cr, es)
    requires w.hist != [] && Possible(w, c, o) && Honest(w, c, o) && v == Perform(w, c, o)
    ensures Mid(w0, v)
  {
    hide Perform, Inv, CapacityOf, Possible, Honest, HasTrue, Ended;
    PollLands(w0, w, c, o, es, v);
  }

  lemma KeyWanted(live: map<string, string>, desired: map<string, string>, k: string)
    ensures k in Missing(live, desired) ==> k in desired
    ensures live == desired ==> Missing(live, desired) == {} && Extra(live, desired) == {}
  {
  }

  lemma FromWrite(w0: World, w: World, c: Call, o: Outcome, es: seq<Entry>, v: World)
    requires Workable(w0) && Mid(w0, w) && Calls(w, c, o, es, v) && w.pc.call.UpdateStatus?
    ensures Mid(w0, v)
  {
    hide Perform, Tally, Inv, CapacityOf, BranchOf, CloudAfter, Rewritten, HasTrue;
    assert c.GetPv?;
    CalmShape(w, c, o);
  }

  lemma FromVolume(w0: World, w: World, c: Call, o: Outcome, es: seq<Entry>, v: World)
    requires Workable(w0) && Mid(w0, w) && Calls(w, c, o, es, v) && OfVolumes(w.pc.call)
    ensures Mid(w0, v)
  {
    hide Perform, Inv, BranchOf, CloudAfter, Rewritten, HasTrue, Possible, Honest, WantsPv, PvsAfter, StaleClaim, PvcsAfter,
         StatusWritten;
    StaysAlive(w0, w);
    if w.pc.call.GetPv? {
      FromGetPv(w0, w, c, o, es, v);
    } else if c.GetPvc? {
      ClaimRead(w0, w, c, o, v);
    } else {
      VolumeMade(w0, w, c, o, v);
    }
  }

  lemma FromGetPv(w0: World, w: World, c: Call, o: Outcome, es: seq<Entry>, v: World)
    requires Workable(w0) && Mid(w0, w) && Calls(w, c, o, es, v) && w.pc.call.GetPv? && !w.pc.call.snap.cr.deleted
    ensures Mid(w0, v)
  {
    hide Perform, Inv, BranchOf, CloudAfter, Rewritten, HasTrue, Possible, Honest, WantsPv, PvsAfter, StaleClaim, PvcsAfter,
         StatusWritten;
    if c.GetPvc? {
      NothingStale(w0, c.snap.cr);
      ClaimRead(w0, w, c, o, v);
    } else {
      VolumeMade(w0, w, c, o, v);
    }
  }

  lemma NothingStale(w: World, cr: Cr)
    requires WantsPv(cr)
    ensures cr.spec.pvcName in w.pvs && !StaleClaim(w.pvs[cr.spec.pvcName]) ==> PvsAfter(w, cr) == w.pvs
  {
  }

  lemma ClaimRead(w0: World, w: World, c: Call, o: Outcome, v: World)
    requires w0.hist != [] && w.hist != [] && c.GetPvc? && OnVolumes(w0, w, c.snap)
    requires w.pvs == PvsAfter(w0, c.snap.cr) && w.pvcs == w0.pvcs
    requires Possible(w, c, o) && Honest(w, c, o) && v == Perform(w, c, o)
    ensures Mid(w0, v)
  {
    hide Perform, Tally, BranchOf, CloudAfter, Rewritten, HasTrue, WantsPv, PvsAfter;
    CalmShape(w, c, o);
  }

  lemma VolumeMade(w0: World, w: World, c: Call, o: Outcome, v: World)
    requires w0.hist != [] && w.hist != [] && (c.CreatePv? || c.UpdatePv? || c.CreatePvc?) && OnVolumes(w0, w, c.snap)
    requires var name := c.snap.cr.spec.pvcName;
             && (c.CreatePv? ==> name !in w.pvs && w.pvs == w0.pvs)
             && (c.UpdatePv? ==> name in w.pvs && w.pvs[name] == c.pv && StaleClaim(c.pv) && w.pvs == w0.pvs)
             && (c.CreatePvc? ==> (c.snap.cr.ns, name) !in w.pvcs && w.pvs == PvsAfter(w0, c.snap.cr))
             && w.pvcs == w0.pvcs
    requires Possible(w, c, o) && Honest(w, c, o) && v == Perform(w, c, o)
    ensures Mid(w0, v)
  {
    hide Perform, Tally, BranchOf, CloudAfter, Rewritten, HasTrue, BuildPV, BuildPVC;
    CalmShape(w, c, o);
  }

  lemma StaysAlive(w0: World, w: World)
    requires Workable(w0) && Mid(w0, w) && OfVolumes(w.pc.call)
    ensures !w.pc.call.snap.cr.deleted
  {
    hide Inv, BranchOf, CloudAfter, HasTrue, Rewritten, PvsAfter, PvcsAfter, WantsPv;
    RewrittenKeeps(w0, Current(w));
  }

  /** Only the status changes, and the finalizer. */
  lemma RewrittenKeeps(w: World, cr: Cr)
    requires w.hist != [] && Rewritten(w, cr)
    ensures cr == Current(w).(finalizer := true, status := cr.status)
    ensures !BranchOf(w).Creates? ==>
              cr.status.fsId == if BranchOf(w).Recreates? then NO_FS else Current(w).status.fsId
    ensures BranchOf(w).Completes? ==> cr.status.exportPath == w.cloud[Current(w).status.fsId].info.exportLocation
  {
    hide Ended, CloudAfter, HasTrue;
    match BranchOf(w)
    case AddsFinalizer =>
    case Waits =>
    case Creates =>
    case _ =>
      var es :| Ended(Current(w), EndOf(w), cr, es);
      EndKeeps(Current(w), EndOf(w), cr, es);
  }

  lemma MidKeeps(w0: World, w: World, c: Call, o: Outcome, es: seq<Entry>, v: World)
    requires Workable(w0) && Mid(w0, w) && Calls(w, c, o, es, v)
    ensures Mid(w0, v)
  {
    hide Inv, CapacityOf, Mid, Calls;
    MidCalls(w0, w, c, o, es, v);
    var last := w.pc.call;
    if last.ReadCr? { FromRead(w0, w, c, o, es, v); }
    else if last.CreateShare? { FromCreate(w0, w, c, o, es, v); }
    else if last.ListShares? { FromList(w0, w, c, o, es, v); }
    else if last.ShowShare? { FromShow(w0, w, c, o, es, v); }
    else if last.ExpandShare? || last.ChangeSg? { FromChange(w0, w, c, o, es, v); }
    else if last.ShowTags? || IsTagCall(last) { FromTags(w0, w, c, o, es, v); }
    else if last.UpdateStatus? { FromWrite(w0, w, c, o, es, v); }
    else { FromVolume(w0, w, c, o, es, v); }
  }

  lemma MidCalls(w0: World, w: World, c: Call, o: Outcome, es: seq<Entry>, v: World)
    requires w0.hist != [] && Mid(w0, w) && Calls(w, c, o, es, v)
    ensures w.pc.At?
    ensures var last := w.pc.call;
            last.ReadCr? || last.CreateShare? || last.ListShares? || last.ShowShare? || last.ExpandShare? || last.ChangeSg? ||
            last.ShowTags? || IsTagCall(last) || last.UpdateStatus? || OfVolumes(last)
  {
  }

  lemma MidStarts(w0: World, c: Call, o: Outcome, es: seq<Entry>, v: World)
    requires Workable(w0) && Calls(w0, c, o, es, v)
    ensures Mid(w0, v)
  {
    hide Inv, CapacityOf, Tally;
  }

  lemma MidEnds(w0: World, w: World, v: World)
    requires Workable(w0) && Mid(w0, w) && Ending(w.pc).Some? && v == w.(pc := Idle)
    ensures PassEffect(w0, v)
  {
    hide Inv, HasTrue;
    var c := w.pc.call;
    if OfVolumes(c) {
      StaysAlive(w0, w);
      VolumesEnd(w0, w, v);
    } else if c.UpdateStatus? {
      WriteEnds(w0, w, v);
    }
  }

  lemma WriteEnds(w0: World, w: World, v: World)
    requires Workable(w0) && Mid(w0, w) && w.pc.call.UpdateStatus? && Ending(w.pc).Some? && v == w.(pc := Idle)
    ensures PassEffect(w0, v)
  {
    hide Inv, HasTrue, CloudAfter, BranchOf;
    if BranchOf(w0).Completes? { BranchHas(w0); }
  }

  lemma BranchHas(w0: World)
    requires w0.hist != [] && BranchOf(w0).Completes?
    ensures Current(w0).status.fsId in w0.cloud && Current(w0).status.fsId != NO_FS
  {
  }

  lemma VolumesEnd(w0: World, w: World, v: World)
    requires Workable(w0) && Mid(w0, w) && OfVolumes(w.pc.call) && Ending(w.pc).Some? && v == w.(pc := Idle)
    requires !w.pc.call.snap.cr.deleted
    ensures PassEffect(w0, v)
  {
    hide Inv, HasTrue, CloudAfter, BranchOf, Rewritten;
    BranchHas(w0);
    RewrittenKeeps(w0, Current(w));
  }

  /** A pass is in its middle from its first call to its last. */
  lemma {:induction false} PassIsMid(r: Run, i: nat)
    requires CalmPass(r) && Workable(r.worlds[0]) && 0 < i < |r.acts|
    ensures Mid(r.worlds[0], r.worlds[i])
  {
    hide Workable, Mid, Follows, Possible, Honest, Perform;
    var w0, w, v, a := r.worlds[0], r.worlds[i - 1], r.worlds[i], r.acts[i - 1];
    assert CalmStep(w, a, v);
    assert v.pc.At?;
    var es :| May(w, a, es) && v == Next(w, a);
    assert a.Do?;
    assert Calls(w, a.call, a.outcome, es, v);
    if i == 1 {
      MidStarts(w0, a.call, a.outcome, es, v);
    } else {
      PassIsMid(r, i - 1);
      MidKeeps(w0, w, a.call, a.outcome, es, v);
    }
  }

  lemma {:induction false} PassKeepsInv(r: Run, i: nat)
    requires CalmPass(r) && Inv(r.worlds[0]) && i < |r.worlds|
    ensures Inv(r.worlds[i])
  {
    hide Inv, Step;
    if i > 0 {
      PassKeepsInv(r, i - 1);
      assert CalmStep(r.worlds[i - 1], r.acts[i - 1], r.worlds[i]);
      StepKeeps(r.worlds[i - 1], r.acts[i - 1], r.worlds[i]);
    }
  }

  /** A calm pass on a workable resource has exactly the declared effect, whichever way its clock, the
      order of its tag calls and the order of a listing go. */
  lemma CalmPassEffect(r: Run)
    requires CalmPass(r) && Workable(r.worlds[0])
    ensures PassEffect(r.worlds[0], r.worlds[|r.acts|]) && Inv(r.worlds[|r.acts|])
  {
    hide Inv, Mid, PassEffect, Follows, Possible, Honest, Perform, CapacityOf;
    var n := |r.acts|;
    PassKeepsInv(r, n);
    var w, v, a := r.worlds[n - 1], r.worlds[n], r.acts[n - 1];
    assert CalmStep(w, a, v);
    var es :| May(w, a, es) && v == Next(w, a);
    if n == 1 {
      NoEnd(w, a, es, v);
    }
    PassIsMid(r, n - 1);
    LastIsEnd(w, a, es, v);
    MidEnds(r.worlds[0], w, v);
  }

  /** A calm pass on a resource with the finalizer and no id: if no share has the name, exactly one is
      created, as the spec says in everything that a poll compares afterwards, and recorded; if one has
      it, the cloud stays as it is and that share is recorded. */
  lemma CreatesOrAdopts(r: Run)
    requires CalmPass(r) && Workable(r.worlds[0])
    requires Current(r.worlds[0]).finalizer && Current(r.worlds[0]).status.fsId == 0
    ensures var w, v, spec := r.worlds[0], r.worlds[|r.acts|], Current(r.worlds[0]).spec;
            && v.hist != []
            && var id := Current(v).status.fsId;
               && id in v.cloud && v.cloud[id].name == spec.fsName
               && ((exists a | a in w.cloud :: w.cloud[a].name == spec.fsName) ==> v.cloud == w.cloud)
               && (!(exists a | a in w.cloud :: w.cloud[a].name == spec.fsName) ==>
                     && id !in w.cloud && v.cloud - {id} == w.cloud
                     && var share := v.cloud[id];
                        && share.tags == spec.tags && share.info.size == spec.size && share.info.zone == spec.zone
                        && share.info.shareType == spec.shareType && share.info.vpc == spec.vpc
                        && share.info.subnet == spec.subnet && share.info.cryptKey == spec.cryptKey
                        && (spec.sg != "" ==> share.info.sg == spec.sg))
  {
    hide Inv;
    var w, v := r.worlds[0], r.worlds[|r.acts|];
    CalmPassEffect(r);
    SpecName(w);
    InvParts(w);
    if !NameTaken(w.cloud, w.fsName) {
      assert w.nextId !in w.cloud;
      assert v.cloud - {w.nextId} == w.cloud;
    }
  }

  lemma NoEnd(w: World, a: Act, es: seq<Entry>, v: World)
    requires w.pc == Idle && !a.Env? && May(w, a, es) && v == Next(w, a)
    ensures v.pc.At?
  {
  }

  lemma LastIsEnd(w: World, a: Act, es: seq<Entry>, v: World)
    requires v.pc == Idle && !a.Env? && May(w, a, es) && v == Next(w, a)
    ensures Ending(w.pc).Some? && v == w.(pc := Idle)
  {
    hide Possible, Follows, Effect, Tally;
  }
}
