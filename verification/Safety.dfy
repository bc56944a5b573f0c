/** What every step of every run keeps. */
module Safety {
  import opened Errors
  import opened Conditions
  import opened Types
  import opened Poll
  import opened Protocol

  // ================================================================ the invariant

  ghost predicate SawDeletion(w: World) {
    w.cache < |w.hist| && w.hist[w.cache].deleted
  }

  /** The resource's versions: deletion is final, the names stay, conditions are a map. */
  ghost predicate VersionsOk(w: World) {
    && w.cache < |w.hist|
    && (forall i | 0 <= i < |w.hist| ::
          && w.hist[i].spec.fsName == w.fsName
          && UniqueTypes(w.hist[i].status.conditions)
          && (w.hist[i].status.fsId != NO_FS ==> w.hist[i].status.fsId in w.log.minted))
    && (forall i, j | 0 <= i <= j < |w.hist| :: w.hist[i].deleted ==> w.hist[j].deleted)
  }

  /** The cloud: ids are not reused, names are unique, and our name means our share. */
  ghost predicate CloudOk(w: World) {
    && w.nextId > 0
    && (forall id | id in w.cloud :: 0 < id < w.nextId)
    && (forall id | id in w.log.minted :: 0 < id < w.nextId)
    && (forall a, b | a in w.cloud && b in w.cloud && w.cloud[a].name == w.cloud[b].name :: a == b)
    && (forall id | id in w.cloud :: w.cloud[id].name == w.fsName <==> id in w.log.minted)
  }

  ghost predicate HasDelete(cs: seq<Call>) {
    exists i | 0 <= i < |cs| :: cs[i].DeleteShare?
  }

  /** Every share ever created is accounted for. */
  ghost predicate CountOk(w: World) {
    && w.log.mints == w.log.destroyed + w.log.finished + One(NameTaken(w.cloud, w.fsName))
    && w.log.mints <= 1 + w.log.destroyed
    && (w.log.finished > 0 ==> SawDeletion(w) && HasDelete(w.log.issued))
    && (forall id | id in w.cloud && id in w.log.minted && w.cloud[id].dying :: SawDeletion(w) && HasDelete(w.log.issued))
  }

  /** An id that the status held and no longer holds belongs to no share. */
  ghost predicate DroppedOk(w: World) {
    && w.hist != []
    && (forall i | 0 <= i < |w.hist| ::
          var id := w.hist[i].status.fsId;
          id != NO_FS && id != Current(w).status.fsId ==> id !in w.cloud)
    && (w.log.cleared == 0 ==>
          forall i | 0 <= i < |w.hist| :: w.hist[i].status.fsId != NO_FS ==> w.hist[i].status.fsId == Current(w).status.fsId)
  }

  ghost predicate Submitted(w: World, size: nat) {
    exists i | 0 <= i < |w.hist| :: w.hist[i].spec.size == size
  }

  /** Our share has, and grows to, sizes that were asked for. */
  ghost predicate SizeOk(w: World) {
    forall id | id in w.cloud && id in w.log.minted ::
      && Submitted(w, w.cloud[id].info.size)
      && (w.cloud[id].target == 0 || Submitted(w, w.cloud[id].target))
  }

  ghost predicate AllAtLeast(w: World, size: int) {
    forall id | id in w.cloud && id in w.log.minted :: w.cloud[id].info.size >= size
  }

  /** No share has the id, and none will. */
  ghost predicate Dead(w: World, id: nat) {
    id == NO_FS || (id in w.log.minted && id !in w.cloud)
  }

  // ---------------------------------------------------------------- what a call in a pass rests on

  /** The guard that the pass has passed before call `c`, in terms of the object in memory `s` and the
      version `h` that it was read at. */
  ghost predicate Guard(c: Call, h: Cr)
    requires !c.ReadCr?
  {
    var s := c.snap.cr;
    match c
    case AddFinalizer(_) => !s.deleted
    case CreateShare(_) => !s.deleted && s.status.fsId == NO_FS
    case ListShares(_, _) => !s.deleted && s.status.fsId == NO_FS
    case ShowShare(_) => s == h && s.status.fsId != NO_FS && (s.deleted ==> s.spec.policy == Delete)
    case GetPv(_) => s.status.fsId != NO_FS && (s.deleted ==> DeleteGuard(s))
    case GetPvc(_) => s.status.fsId != NO_FS && (s.deleted ==> DeleteGuard(s))
    case DeleteShare(_) => s.deleted && DeleteGuard(s)
    case DeletePv(_) => s.deleted && DeleteGuard(s)
    case DeletePvc(_) => s.deleted && DeleteGuard(s)
    case ExpandShare(_, info) =>
      && !s.deleted && s.status.fsId != NO_FS
      && 0 < info.size < s.spec.size && !HasTrue(h.status.conditions, Expanding)
    case ChangeSg(_, info) => !s.deleted && s.status.fsId != NO_FS && info.subStatus != "132"
    case ShowTags(_, info) => !s.deleted && s.status.fsId != NO_FS && info.subStatus != "132"
    case AddTag(_, info, _, _) => !s.deleted && s.status.fsId != NO_FS && info.subStatus != "132"
    case DeleteTag(_, info, _, _) => !s.deleted && s.status.fsId != NO_FS && info.subStatus != "132"
    case RemoveFinalizer(_) => s.deleted
    case UpdateStatus(_, why) =>
      (match why
       case CreatedNote => !s.deleted && h.status.fsId == NO_FS && s.status.fsId != NO_FS
       case RecreateNote => !s.deleted && s.status.fsId == NO_FS
       case RetainNote => s.deleted && s.spec.policy != Delete
       case GoneNote => s.deleted && s.spec.policy == Delete && s.status.fsId != NO_FS
       case DeleteMarked =>
         && s.deleted && s.spec.policy == Delete && s.status.fsId != NO_FS
         && HasTrue(s.status.conditions, Deleting)
       case ExpandMarked => !s.deleted && HasTrue(s.status.conditions, Expanding)
       case FailureNote(_) => true
       case _ => !s.deleted)
    case _ => !s.deleted && s.status.fsId != NO_FS
  }

  ghost predicate DeleteGuard(s: Cr) {
    s.spec.policy == Delete && s.status.fsId != NO_FS && !HasTrue(s.status.conditions, Deleting)
  }

  predicate NotesDeleting(c: Call) {
    c.UpdateStatus? && (c.why.DeleteMarked? || c.why.RetainNote? || c.why.GoneNote?)
  }

  predicate NotesFsId(c: Call) {
    c.UpdateStatus? && (c.why.CreatedNote? || c.why.RecreateNote?)
  }

  /** What holds of a call for ever after it was made: it was made from a version of the resource, and
      its guard held there. */
  ghost predicate Founded(w: World, c: Call)
    requires !c.ReadCr?
  {
    var s := c.snap;
    && s.rv < |w.hist|
    && var h := w.hist[s.rv];
    && s.cr.(status := h.status) == h
    && UniqueTypes(s.cr.status.conditions)
    && (s.cr.finalizer || c.AddFinalizer?)
    && (NotesFsId(c) || s.cr.status.fsId == h.status.fsId)
    && (NotesDeleting(c) || c.RemoveFinalizer? ||
        (HasTrue(s.cr.status.conditions, Deleting) <==> HasTrue(h.status.conditions, Deleting)))
    && ((c.UpdateStatus? && c.why.ExpandMarked?) ||
        (HasTrue(s.cr.status.conditions, Expanding) ==> HasTrue(h.status.conditions, Expanding)))
    && Guard(c, h)
  }

  /** The pass has not written the status yet, so it still holds the version it read. */
  predicate BeforeWrite(c: Call)
    requires !c.ReadCr?
  {
    !(c.RemoveFinalizer? || c.CreatePv? || c.UpdatePv? || c.CreatePvc? ||
      ((c.GetPv? || c.GetPvc?) && !c.snap.cr.deleted))
  }

  /** What holds of a call while its pass is under way. */
  ghost predicate CallOk(w: World, c: Call) {
    c.ReadCr? ||
    (var s := c.snap;
     && Founded(w, c)
     && w.cache <= s.rv && (BeforeWrite(c) ==> s.rv == w.cache)
     && (s.cr.status.fsId != NO_FS ==> s.cr.status.fsId in w.log.minted)
     && (HasTrue(w.hist[s.rv].status.conditions, Expanding) && !HasTrue(s.cr.status.conditions, Expanding) ==>
           AllAtLeast(w, s.cr.spec.size))
     && (c.RemoveFinalizer? && s.cr.spec.policy == Delete ==> Dead(w, s.cr.status.fsId))
     && (c.UpdateStatus? && c.why.GoneNote? ==> Dead(w, s.cr.status.fsId))
     && (c.UpdateStatus? && c.why.RecreateNote? ==> Dead(w, w.hist[s.rv].status.fsId)))
  }

  ghost predicate ReplyOk(w: World, c: Call, r: Reply) {
    match c
    case ReadCr => r.Got? ==> r.snap.rv == w.cache < |w.hist| && r.snap.cr == w.hist[w.cache]
    case UpdateStatus(s, _) =>
      r.Got? ==>
        && w.cache <= r.snap.rv < |w.hist| && r.snap.cr == w.hist[r.snap.rv]
        && r.snap.cr == s.cr
    case CreateShare(_) => r.Minted? ==> r.id in w.log.minted && r.id != NO_FS
    case ListShares(s, _) =>
      r.Shares? ==> FirstNamed(r.list, s.cr.spec.fsName) == NO_FS || FirstNamed(r.list, s.cr.spec.fsName) in w.log.minted
    case ShowShare(s) =>
      && (r.Info? && r.info.size > 0 ==> AllAtLeast(w, r.info.size))
      && (r.Failure? && IsFsNotFound(Cooked(OpShow, r.err)) ==> Dead(w, s.cr.status.fsId))
    case _ => true
  }

  ghost predicate PcOk(w: World) {
    w.pc.At? ==> CallOk(w, w.pc.call) && ReplyOk(w, w.pc.call, w.pc.reply)
  }

  ghost predicate IssuedOk(w: World) {
    forall i | 0 <= i < |w.log.issued| ::
      !w.log.issued[i].ReadCr? && Founded(w, w.log.issued[i]) &&
      (w.log.issued[i].DeleteShare? ==> w.log.issued[i].snap.cr.status.fsId in w.log.minted)
  }

  ghost predicate Inv(w: World) {
    && VersionsOk(w) && CloudOk(w) && CountOk(w) && DroppedOk(w) && SizeOk(w) && PcOk(w) && IssuedOk(w)
  }

  // ================================================================ the environment keeps it

  /** The versions only grow, ids do not come back, sizes do not fall. */
  ghost predicate Later(w: World, v: World) {
    && |w.hist| <= |v.hist| && (forall i | 0 <= i < |w.hist| :: v.hist[i] == w.hist[i])
    && w.log.minted <= v.log.minted
    && (forall id | id in w.log.minted && id in v.cloud :: id in w.cloud && w.cloud[id].info.size <= v.cloud[id].info.size)
  }

  lemma FoundedLater(w: World, v: World, c: Call)
    requires Later(w, v) && !c.ReadCr? && Founded(w, c)
    ensures Founded(v, c)
  {
    hide Guard;
  }

  lemma IssuedLater(w: World, v: World)
    requires Later(w, v) && IssuedOk(w) && v.log.issued == w.log.issued
    ensures IssuedOk(v)
  {
    hide Founded;
    forall i | 0 <= i < |v.log.issued| ensures Founded(v, v.log.issued[i]) {
      FoundedLater(w, v, w.log.issued[i]);
    }
  }

  /** A world in which nobody but the worker has created one of our shares since. */
  lemma PcLater(w: World, v: World)
    requires Later(w, v) && PcOk(w) && v.cache == w.cache && v.pc == w.pc && v.log.minted == w.log.minted
    ensures PcOk(v)
  {
    if v.pc.At? {
      var c, r := v.pc.call, v.pc.reply;
      forall n: int | AllAtLeast(w, n) ensures AllAtLeast(v, n) {
        AllAtLeastLater(w, v, n);
      }
      if !c.ReadCr? {
        FoundedLater(w, v, c);
      }
    }
  }

  lemma SizeVersionAdded(w: World, cr: Cr, v: World)
    requires SizeOk(w) && v.cloud == w.cloud && v.log.minted == w.log.minted && v.hist == w.hist + [cr]
    ensures SizeOk(v)
  {
    forall n: nat | Submitted(w, n) ensures Submitted(v, n) {
      var i :| 0 <= i < |w.hist| && w.hist[i].spec.size == n;
      assert v.hist[i].spec.size == n;
    }
  }

  lemma VersionAdded(w: World, cr: Cr, v: World)
    requires Inv(w) && cr.status == Current(w).status && cr.spec.fsName == w.fsName
    requires Current(w).deleted ==> cr.deleted
    requires v == w.(hist := w.hist + [cr], gone := v.gone, log := v.log)
    requires v.log == w.log.(exps := v.log.exps, expMarks := v.log.expMarks, expLost := v.log.expLost)
    ensures Inv(v)
  {
    hide PcOk, IssuedOk, SizeOk;
    IssuedLater(w, v);
    PcLater(w, v);
    SizeVersionAdded(w, cr, v);
  }

  lemma AllAtLeastLater(w: World, v: World, n: int)
    requires Later(w, v) && v.log.minted == w.log.minted && AllAtLeast(w, n)
    ensures AllAtLeast(v, n)
  {
  }

  /** A step of the cloud alone: only the cloud's own parts have to be looked at. */
  lemma CloudMoved(w: World, v: World)
    requires Inv(w) && Later(w, v)
    requires v == w.(cloud := v.cloud, nextId := v.nextId, log := v.log)
    requires v.log.minted == w.log.minted && v.log.issued == w.log.issued && v.log.cleared == w.log.cleared
    requires CloudOk(v) && CountOk(v) && SizeOk(v)
    ensures Inv(v)
  {
    hide PcOk, IssuedOk;
    IssuedLater(w, v);
    PcLater(w, v);
    forall i | 0 <= i < |v.hist| && v.hist[i].status.fsId != NO_FS && v.hist[i].status.fsId != Current(v).status.fsId
      ensures v.hist[i].status.fsId !in v.cloud
    {
      assert w.hist[i].status.fsId in w.log.minted;
    }
  }

  lemma NameTakenSame(w: World, v: World)
    requires forall id | id in w.cloud && w.cloud[id].name == w.fsName :: id in v.cloud && v.cloud[id].name == w.fsName
    requires forall id | id in v.cloud && v.cloud[id].name == w.fsName :: id in w.cloud && w.cloud[id].name == w.fsName
    ensures NameTaken(v.cloud, w.fsName) <==> NameTaken(w.cloud, w.fsName)
  {
  }

  /** A share replaced under its own name. */
  lemma CloudReplaced(w: World, id: nat, t: Share)
    requires CloudOk(w) && id in w.cloud && t.name == w.cloud[id].name
    ensures CloudOk(SetShare(w, id, t))
    ensures NameTaken(SetShare(w, id, t).cloud, w.fsName) <==> NameTaken(w.cloud, w.fsName)
  {
    NameTakenSame(w, SetShare(w, id, t));
  }

  lemma SizeReplaced(w: World, id: nat, t: Share)
    requires SizeOk(w) && id in w.cloud
    requires id in w.log.minted ==> Submitted(w, t.info.size) && (t.target == 0 || Submitted(w, t.target))
    ensures SizeOk(SetShare(w, id, t))
  {
    var v := SetShare(w, id, t);
    forall n: nat | Submitted(w, n) ensures Submitted(v, n) {
      var i :| 0 <= i < |w.hist| && w.hist[i].spec.size == n;
      assert v.hist[i].spec.size == n;
    }
  }

  lemma ShareChanged(w: World, id: nat, t: Share)
    requires Inv(w) && id in w.cloud
    requires t.name == w.cloud[id].name && t.dying == w.cloud[id].dying
    requires t.info.size == w.cloud[id].info.size || (w.cloud[id].target > w.cloud[id].info.size && t.info.size == w.cloud[id].target)
    requires t.target == w.cloud[id].target || t.target == 0
    ensures Inv(SetShare(w, id, t))
  {
    hide PcOk, IssuedOk, VersionsOk, DroppedOk, CloudOk, Submitted;
    CloudReplaced(w, id, t);
    SizeReplaced(w, id, t);
    CloudMoved(w, SetShare(w, id, t));
  }

  lemma SizeKept(w: World, v: World)
    requires SizeOk(w) && v.log.minted == w.log.minted && v.hist == w.hist
    requires forall id | id in v.cloud && id in w.log.minted :: id in w.cloud && v.cloud[id] == w.cloud[id]
    ensures SizeOk(v)
  {
    forall n: nat | Submitted(w, n) ensures Submitted(v, n) {
      var i :| 0 <= i < |w.hist| && w.hist[i].spec.size == n;
      assert v.hist[i].spec.size == n;
    }
  }

  lemma CloudShrunk(w: World, id: nat)
    requires CloudOk(w) && id in w.cloud
    ensures CloudOk(WithoutShare(w, id))
    ensures NameTaken(WithoutShare(w, id).cloud, w.fsName) <==> NameTaken(w.cloud, w.fsName) && w.cloud[id].name != w.fsName
  {
    var v := WithoutShare(w, id);
    if w.cloud[id].name != w.fsName {
      NameTakenSame(w, v);
    }
  }

  lemma ShareRemoved(w: World, id: nat, v: World)
    requires Inv(w) && id in w.cloud
    requires v == WithoutShare(w, id).(log := v.log)
    requires var own := One(w.cloud[id].name == w.fsName);
             || v.log == w.log.(destroyed := w.log.destroyed + own)
             || (v.log == w.log.(finished := w.log.finished + own) && w.cloud[id].dying)
    ensures Inv(v)
  {
    hide PcOk, IssuedOk, VersionsOk, DroppedOk, SizeOk;
    CloudShrunk(w, id);
    SizeKept(w, v);
    CloudMoved(w, v);
  }

  lemma CloudGrown(w: World, s: Share)
    requires CloudOk(w) && s.name != w.fsName && !NameTaken(w.cloud, s.name)
    ensures var v := SetShare(w, w.nextId, s).(nextId := w.nextId + 1);
            CloudOk(v) && (NameTaken(v.cloud, w.fsName) <==> NameTaken(w.cloud, w.fsName))
  {
    NameTakenSame(w, SetShare(w, w.nextId, s).(nextId := w.nextId + 1));
  }

  lemma ForeignAdded(w: World, s: Share)
    requires Inv(w) && s.name != w.fsName && !NameTaken(w.cloud, s.name)
    requires w.hist != []
    ensures Inv(EnvStep(w, Foreign(s)))
  {
    hide PcOk, IssuedOk, VersionsOk, DroppedOk, SizeOk;
    var v := EnvStep(w, Foreign(s));
    CloudGrown(w, s);
    SizeKept(w, v);
    CloudMoved(w, v);
  }

  lemma IdleOk(w: World)
    requires w.pc == Idle
    ensures PcOk(w)
  {
  }

  lemma ReadOk(w: World)
    ensures CallOk(w, ReadCr)
  {
  }

  /** A step that touches neither versions nor cloud. */
  lemma StoresKept(w: World, v: World)
    requires Inv(w)
    requires v == w.(pvs := v.pvs, pvcs := v.pvcs, pc := v.pc, log := v.log)
    requires v.log == w.log.(delLost := v.log.delLost, expLost := v.log.expLost)
    requires v.pc == w.pc || v.pc == Idle
    ensures Inv(v)
  {
    hide PcOk, IssuedOk;
    IssuedLater(w, v);
    SizeKept(w, v);
    if v.pc == w.pc { PcLater(w, v); } else { IdleOk(v); }
  }

  lemma EnvKeeps(w: World, e: EnvAct)
    requires w.hist != [] && Inv(w) && EnvMay(w, e)
    ensures Inv(EnvStep(w, e))
  {
    hide Inv;
    if e.EditSpec? || e.DeleteCr? || e.StripFinalizer? {
      EditKeeps(w, e);
    } else if e.Objects? || e.Crash? {
      StoresKept(w, EnvStep(w, e));
    } else if e.Foreign? {
      ForeignAdded(w, e.share);
    } else if e.FinishDelete? || e.Destroy? {
      ShareRemoved(w, e.id, EnvStep(w, e));
    } else if e.EditTags? {
      ShareChanged(w, e.id, w.cloud[e.id].(tags := e.tags));
    } else {
      ShareChanged(w, e.id, e.share);
    }
  }

  lemma EditKeeps(w: World, e: EnvAct)
    requires Inv(w) && EnvMay(w, e) && (e.EditSpec? || e.DeleteCr? || e.StripFinalizer?)
    ensures Inv(EnvStep(w, e))
  {
    hide PcOk, IssuedOk, CloudOk, SizeOk, DroppedOk, CountOk;
    var v := EnvStep(w, e);
    if v != w {
      VersionAdded(w, v.hist[|w.hist|], v);
    }
  }

  // ================================================================ the worker keeps it

  ghost predicate Silent(sets: seq<CondSet>, t: CondType) {
    forall x | x in sets :: x.ctype != t
  }

  ghost predicate NeverTrue(sets: seq<CondSet>, t: CondType) {
    forall x | x in sets :: x.ctype == t ==> x.status != True
  }

  /** What condition updates do to the markers. */
  lemma Marks(cs: seq<Condition>, sets: seq<CondSet>, gen: nat, es: seq<Entry>, t: CondType)
    requires UniqueTypes(cs) && Told(es, sets, gen)
    ensures UniqueTypes(Replay(cs, es))
    ensures Silent(sets, t) ==> (HasTrue(Replay(cs, es), t) <==> HasTrue(cs, t))
    ensures NeverTrue(sets, t) ==> (HasTrue(Replay(cs, es), t) ==> HasTrue(cs, t))
    ensures forall k | 0 <= k < |sets| && sets[k].ctype == t && Silent(sets[k + 1..], t) ::
              HasTrue(Replay(cs, es), t) <==> sets[k].status == True
  {
    ReplayHasTrue(cs, es, t);
    var l := LastOf(es, t);
    if l < |es| {
      assert es[l].say == sets[l] && sets[l] in sets;
    }
    forall k | 0 <= k < |sets| && sets[k].ctype == t && Silent(sets[k + 1..], t) ensures k == l {
      assert es[k].say == sets[k];
    }
  }

  lemma PollSets(cr: Cr, info: ShareInfo)
    ensures var sets := SizedSets(cr, info) + SgDoneSets(cr, info);
            && Silent(sets, Deleting) && NeverTrue(sets, Expanding)
            && Silent(SizedSets(cr, info), Deleting) && NeverTrue(SizedSets(cr, info), Expanding)
            && (!(info.size > 0 && cr.spec.size == info.size) ==>
                  Silent(sets, Expanding) && Silent(SizedSets(cr, info), Expanding))
  {
  }

  /** The object in memory, before the first status write of the pass: the version read, up to fields
      of the status that the markers do not depend on. */
  ghost predicate Unwritten(w: World, s: Snap) {
    && s.rv == w.cache < |w.hist|
    && s.cr.(status := w.hist[s.rv].status) == w.hist[s.rv]
    && s.cr.finalizer
    && UniqueTypes(s.cr.status.conditions)
    && (s.cr.status.fsId != NO_FS ==> s.cr.status.fsId in w.log.minted)
  }

  /** A status write from such an object rests on what it has to. */
  lemma WriteOk(w: World, s: Snap, sets: seq<CondSet>, why: Why, c: Call, es: seq<Entry>)
    requires Unwritten(w, s) && Writes(s, sets, why, c, es)
    requires var h := w.hist[s.rv];
             && (NotesFsId(c) || s.cr.status.fsId == h.status.fsId)
             && (HasTrue(s.cr.status.conditions, Deleting) <==> HasTrue(h.status.conditions, Deleting))
             && (HasTrue(s.cr.status.conditions, Expanding) ==> HasTrue(h.status.conditions, Expanding))
             && (NotesDeleting(c) || Silent(sets, Deleting))
             && (why.ExpandMarked? || NeverTrue(sets, Expanding))
             && Guard(c, h)
    requires HasTrue(w.hist[s.rv].status.conditions, Expanding) && !HasTrue(c.snap.cr.status.conditions, Expanding) ==>
               AllAtLeast(w, s.cr.spec.size)
    requires why.GoneNote? ==> Dead(w, s.cr.status.fsId)
    requires why.RecreateNote? ==> Dead(w, w.hist[s.rv].status.fsId)
    ensures CallOk(w, c)
  {
    Marks(s.cr.status.conditions, sets, s.cr.generation, es, Deleting);
    Marks(s.cr.status.conditions, sets, s.cr.generation, es, Expanding);
  }

  ghost predicate Before(w: World, last: Call, r: Reply) {
    CallOk(w, last) && ReplyOk(w, last, r)
  }

  lemma AfterRead(w: World, r: Reply, c: Call, es: seq<Entry>)
    requires VersionsOk(w) && Before(w, ReadCr, r) && r.Got? && FollowsRead(r.snap, c, es)
    ensures CallOk(w, c)
  {
    var s := r.snap;
    if c.UpdateStatus? {
      var sets := if s.cr.deleted then [CondSet(Deleting, False, RetainPolicyApplied, Fixed)]
                  else [CondSet(Provisioning, False, ReconcilePaused, Fixed)];
      Marks(s.cr.status.conditions, sets, s.cr.generation, es, Expanding);
      WriteOk(w, s, sets, c.why, c, es);
    }
  }

  lemma AfterCreated(w: World, last: Call, id: nat, c: Call, es: seq<Entry>)
    requires CallOk(w, last) && (last.CreateShare? || last.ListShares?)
    requires id != NO_FS && id in w.log.minted
    requires Writes(WithFs(last.snap, id), CreatedSets(), CreatedNote, c, es)
    ensures CallOk(w, c)
  {
    var s := last.snap;
    Marks(s.cr.status.conditions, CreatedSets(), s.cr.generation, es, Expanding);
    WriteOk(w, WithFs(s, id), CreatedSets(), CreatedNote, c, es);
  }

  lemma AfterCreate(w: World, s: Snap, r: Reply, c: Call, es: seq<Entry>)
    requires Before(w, CreateShare(s), r) && FollowsCreate(s, r, c, es)
    ensures CallOk(w, c)
  {
    if r.Minted? {
      AfterCreated(w, CreateShare(s), r.id, c, es);
    } else if c.UpdateStatus? {
      AfterFailure(w, s, FsCreateFailed, c.why.err, c, es);
    }
  }

  lemma AfterList(w: World, s: Snap, taken: GoErr, r: Reply, c: Call, es: seq<Entry>)
    requires Before(w, ListShares(s, taken), r) && FollowsList(s, taken, r, c, es)
    ensures CallOk(w, c)
  {
    if c.why.CreatedNote? {
      AfterCreated(w, ListShares(s, taken), FirstNamed(r.list, s.cr.spec.fsName), c, es);
    } else {
      AfterFailure(w, s, FsCreateFailed, c.why.err, c, es);
    }
  }

  lemma AfterFailure(w: World, s: Snap, reason: Reason, e: GoErr, c: Call, es: seq<Entry>)
    requires Unwritten(w, s) && FailWrite(s, reason, e, c, es)
    requires var h := w.hist[s.rv];
             && s.cr.status.fsId == h.status.fsId
             && (HasTrue(s.cr.status.conditions, Deleting) <==> HasTrue(h.status.conditions, Deleting))
             && (HasTrue(s.cr.status.conditions, Expanding) ==> HasTrue(h.status.conditions, Expanding))
             && (HasTrue(h.status.conditions, Expanding) && !HasTrue(s.cr.status.conditions, Expanding) ==>
                   AllAtLeast(w, s.cr.spec.size))
    ensures CallOk(w, c)
  {
    var sets := [CondSet(Failed, True, reason, ErrText(e))];
    Marks(s.cr.status.conditions, sets, s.cr.generation, es, Expanding);
    WriteOk(w, s, sets, c.why, c, es);
  }

  lemma AfterDeleteGet(w: World, s: Snap, r: Reply, c: Call, es: seq<Entry>)
    requires Before(w, ShowShare(s), r) && s.cr.deleted && FollowsDeleteGet(s, r, c, es)
    ensures CallOk(w, c)
  {
    if c.UpdateStatus? {
      if c.why.GoneNote? {
        var sets := [CondSet(Deleting, False, FsDeleted, Fixed)];
        Marks(s.cr.status.conditions, sets, s.cr.generation, es, Expanding);
        WriteOk(w, s, sets, c.why, c, es);
      } else {
        AfterFailure(w, s, HuaweiAPIError, c.why.err, c, es);
      }
    }
  }

  lemma AfterDelete(w: World, s: Snap, r: Reply, c: Call, es: seq<Entry>)
    requires CallOk(w, DeleteShare(s)) && Follows(At(DeleteShare(s), r), c, es)
    ensures CallOk(w, c)
  {
    if r.Done? {
      var sets := DeletePendingSets();
      Marks(s.cr.status.conditions, sets, s.cr.generation, es, Deleting);
      Marks(s.cr.status.conditions, sets, s.cr.generation, es, Expanding);
      assert Silent(sets[1..], Deleting);
      WriteOk(w, s, sets, DeleteMarked, c, es);
    } else {
      AfterFailure(w, s, FsDeleteFailed, c.why.err, c, es);
    }
  }

  /** Two calls with the same guard, made from the same object: in the cascade of a deletion, */
  lemma SameCascadeGround(w: World, last: Call, c: Call)
    requires CallOk(w, last) && (last.GetPv? || last.GetPvc? || last.DeletePv? || last.DeletePvc?)
    requires last.snap.cr.deleted && (c.GetPv? || c.DeletePv? || c.DeletePvc? || c.DeleteShare?) && c.snap == last.snap
    ensures CallOk(w, c)
  {
    hide HasTrue, AllAtLeast;
  }

  /** and on the volumes of a living resource. */
  lemma SameVolumeGround(w: World, last: Call, c: Call)
    requires CallOk(w, last) && (last.GetPv? || last.GetPvc? || last.CreatePv? || last.UpdatePv?)
    requires !last.snap.cr.deleted && (c.GetPvc? || c.CreatePv? || c.UpdatePv? || c.CreatePvc?) && c.snap == last.snap
    ensures CallOk(w, c)
  {
    hide HasTrue, AllAtLeast;
  }

  lemma AfterCascade(w: World, last: Call, r: Reply, c: Call, es: seq<Entry>)
    requires CallOk(w, last)
    requires last.DeletePv? || last.DeletePvc? || last.GetPv? || last.GetPvc?
    requires last.snap.cr.deleted && FollowsCascade(last, r, c, es)
    ensures CallOk(w, c)
  {
    hide CallOk;
    SameCascadeGround(w, last, c);
  }

  lemma AfterPollFailed(w: World, s: Snap, e: GoErr, c: Call, es: seq<Entry>)
    requires Before(w, ShowShare(s), Failure(e)) && !s.cr.deleted && FollowsPoll(s, Failure(e), c, es)
    ensures CallOk(w, c)
  {
    if c.why.RecreateNote? {
      var sets := [CondSet(Ready, False, HuaweiAPIError, Fixed)];
      Marks(s.cr.status.conditions, sets, s.cr.generation, es, Expanding);
      WriteOk(w, s.(cr := RecreateCr(s.cr)), sets, c.why, c, es);
    } else {
      AfterFailure(w, s, HuaweiAPIError, Cooked(OpShow, e), c, es);
    }
  }

  lemma AfterErrored(w: World, s: Snap, info: ShareInfo, c: Call, es: seq<Entry>)
    requires CallOk(w, ShowShare(s)) && !s.cr.deleted
    requires Writes(s, [ CondSet(Failed, True, FsCreateFailed, About(info.status)),
                         CondSet(Provisioning, False, FsCreateFailed, Fixed) ], ErroredNote, c, es)
    ensures CallOk(w, c)
  {
    var sets := [ CondSet(Failed, True, FsCreateFailed, About(info.status)),
                  CondSet(Provisioning, False, FsCreateFailed, Fixed) ];
    Marks(s.cr.status.conditions, sets, s.cr.generation, es, Expanding);
    WriteOk(w, s, sets, c.why, c, es);
  }

  lemma AfterPoll(w: World, s: Snap, r: Reply, c: Call, es: seq<Entry>)
    requires Before(w, ShowShare(s), r) && !s.cr.deleted && FollowsPoll(s, r, c, es)
    ensures CallOk(w, c)
  {
    hide CallOk, ReplyOk, FollowsAvailable;
    match r
    case Failure(e) => AfterPollFailed(w, s, e, c, es);
    case Info(info) =>
      if IsAvailable(info.status) {
        AfterAvailable(w, s, info, c, es);
      } else {
        AfterErrored(w, s, info, c, es);
      }
    case _ =>
  }

  lemma AfterAvailable(w: World, s: Snap, info: ShareInfo, c: Call, es: seq<Entry>)
    requires Before(w, ShowShare(s), Info(info)) && !s.cr.deleted
    requires FollowsAvailable(s, info, c, es)
    ensures CallOk(w, c)
  {
    hide CallOk, HasTrue, SizedSets, SgDoneSets, ReadySets;
    PollSets(s.cr, info);
    ReadyQuiet(info);
    if Grows(s.cr.spec, info) {
      AfterSized(w, s, info, s.(cr := Observed(s.cr, info)), ReadySets(info), c, es);
    } else if SgDrifts(s.cr.spec, info) {
      AfterDrift(w, s, info, c, es);
    } else {
      var sets := SizedSets(s.cr, info) + SgDoneSets(s.cr, info);
      AfterSized(w, s, info, s.(cr := ObservedSg(s.cr, info)), sets, c, es);
    }
  }

  lemma ReadyQuiet(info: ShareInfo)
    ensures Silent(ReadySets(info), Deleting) && Silent(ReadySets(info), Expanding)
  {
  }

  lemma AfterDrift(w: World, s: Snap, info: ShareInfo, c: Call, es: seq<Entry>)
    requires Before(w, ShowShare(s), Info(info)) && !s.cr.deleted
    requires FollowsAvailable(s, info, c, es) && !Grows(s.cr.spec, info) && SgDrifts(s.cr.spec, info)
    ensures CallOk(w, c)
  {
    hide CallOk, HasTrue, SizedSets, SgDoneSets, ReadySets;
    PollSets(s.cr, info);
    var sized := SizedSets(s.cr, info);
    if IsSgChangeInFlight(info.subStatus) {
      var sets := sized + [SgPendingSet(info.subStatus)];
      assert Silent(sets, Deleting) && NeverTrue(sets, Expanding);
      assert Silent(sized, Expanding) ==> Silent(sets, Expanding);
      AfterSized(w, s, info, s.(cr := ObservedSg(s.cr, info)), sets, c, es);
    } else {
      AfterSized(w, s, info, s.(cr := Observed(s.cr, info)), sized, c, es);
    }
  }

  /** The next call of a poll, with the observed fields and the condition updates `sets` on board. */
  lemma AfterSized(w: World, s: Snap, info: ShareInfo, s1: Snap, sets: seq<CondSet>, c: Call, es: seq<Entry>)
    requires CallOk(w, ShowShare(s)) && !s.cr.deleted
    requires info.size > 0 ==> AllAtLeast(w, info.size)
    requires s1 == s.(cr := s.cr.(status := s1.cr.status)) && s1.cr.status.conditions == s.cr.status.conditions
    requires s1.cr.status.fsId == s.cr.status.fsId
    requires Told(es, sets, s.cr.generation) && Silent(sets, Deleting) && NeverTrue(sets, Expanding)
    requires !(info.size > 0 && s.cr.spec.size == info.size) ==> Silent(sets, Expanding)
    requires !c.ReadCr? && c.snap == Note(s1, es)
    requires (c.UpdateStatus? && (c.why.ExpandWait? || c.why.SgWait? || c.why.Settled?)) ||
             (c.ExpandShare? && 0 < c.info.size < s.cr.spec.size && !HasTrue(s.cr.status.conditions, Expanding)) ||
             ((c.ChangeSg? || c.ShowTags?) && !IsSgChangeInFlight(c.info.subStatus))
    ensures CallOk(w, c)
  {
    Marks(s.cr.status.conditions, sets, s.cr.generation, es, Deleting);
    Marks(s.cr.status.conditions, sets, s.cr.generation, es, Expanding);
  }

  lemma AfterExpand(w: World, s: Snap, info: ShareInfo, r: Reply, c: Call, es: seq<Entry>)
    requires CallOk(w, ExpandShare(s, info)) && FollowsExpand(s, info, r, c, es)
    ensures CallOk(w, c)
  {
    if r.Done? {
      var sets := [CondSet(Expanding, True, FsExpandPending, Sizes(info.size, s.cr.spec.size))];
      Marks(s.cr.status.conditions, sets, s.cr.generation, es, Expanding);
      assert Silent(sets[1..], Expanding);
      WriteOk(w, s, sets, c.why, c, es);
    } else {
      AfterFailure(w, s, HuaweiAPIError, c.why.err, c, es);
    }
  }

  /** A status write that does not touch the markers. */
  lemma PlainWriteOk(w: World, last: Call, s: Snap, sets: seq<CondSet>, c: Call, es: seq<Entry>)
    requires CallOk(w, last) && (last.ChangeSg? || last.ShowTags? || last.AddTag? || last.DeleteTag?)
    requires s == last.snap.(cr := last.snap.cr.(status := s.cr.status))
    requires s.cr.status.conditions == last.snap.cr.status.conditions && s.cr.status.fsId == last.snap.cr.status.fsId
    requires Silent(sets, Deleting) && Silent(sets, Expanding)
    requires c.UpdateStatus? && Writes(s, sets, c.why, c, es)
    requires c.why.SgMarked? || c.why.FailureNote? || c.why.Settled?
    ensures CallOk(w, c)
  {
    Marks(s.cr.status.conditions, sets, s.cr.generation, es, Expanding);
    WriteOk(w, s, sets, c.why, c, es);
  }

  lemma AfterSg(w: World, s: Snap, info: ShareInfo, r: Reply, c: Call, es: seq<Entry>)
    requires CallOk(w, ChangeSg(s, info)) && FollowsSg(s, info, r, c, es)
    ensures CallOk(w, c)
  {
    if r.Done? {
      PlainWriteOk(w, ChangeSg(s, info), s.(cr := s.cr.(status := s.cr.status.(sg := info.sg))),
                   [SgPendingSet(s.cr.spec.sg)], c, es);
    } else {
      PlainWriteOk(w, ChangeSg(s, info), s,
                   [CondSet(UpdatingSecurityGroup, False, SgUpdateFailed, ErrText(Cooked(OpChangeSg, r.err)))], c, es);
    }
  }

  lemma NextTagOk(w: World, last: Call, c: Call)
    requires CallOk(w, last) && (last.ShowTags? || last.AddTag? || last.DeleteTag?)
    requires (c.AddTag? || c.DeleteTag?) && c.snap == last.snap && c.info == last.info
    ensures CallOk(w, c)
  {
  }

  lemma AfterTagCall(w: World, last: Call, r: Reply, c: Call, es: seq<Entry>)
    requires CallOk(w, last) && (last.ShowTags? || last.AddTag? || last.DeleteTag?) && FollowsTagCall(last, r, c, es)
    ensures CallOk(w, c)
  {
    hide CallOk, FollowsTags;
    if c.UpdateStatus? {
      var o := TagEnd(last, r, c, es);
      PlainWriteOk(w, last, last.snap.(cr := TaggedCr(last.snap.cr, o)), TagSets(o), c, es);
    } else {
      TagGoesOn(last, r, c, es);
      NextTagOk(w, last, c);
    }
  }

  lemma TagGoesOn(last: Call, r: Reply, c: Call, es: seq<Entry>)
    requires last.ShowTags? || last.AddTag? || last.DeleteTag?
    requires FollowsTagCall(last, r, c, es) && !c.UpdateStatus?
    ensures (c.AddTag? || c.DeleteTag?) && c.snap == last.snap && c.info == last.info
  {
  }

  /** The status write after the tags says how they ended. */
  lemma TagEnd(last: Call, r: Reply, c: Call, es: seq<Entry>) returns (o: TagOutcome)
    requires last.ShowTags? || last.AddTag? || last.DeleteTag?
    requires FollowsTagCall(last, r, c, es) && c.UpdateStatus?
    ensures EndsTags(last.snap, o, c, es)
  {
    match last
    case ShowTags(_, info) =>
      o := if r.Tags? then Aligned(r.tags, false) else TagFailed(Wrap(OpTags, Cooked(OpShowTags, r.err)));
    case AddTag(s, info, live, k) =>
      o := if r.Done? then Aligned(live[k := s.cr.spec.tags[k]], true)
           else TagFailed(Wrap(OpTags, Cooked(OpAddTag, r.err)));
    case DeleteTag(_, info, live, k) =>
      o := if r.Done? || IsNotFound(r.err) then Aligned(live - {k}, true)
           else TagFailed(Wrap(OpTags, Cooked(OpDeleteTag, r.err)));
  }

  lemma AfterWrite(w: World, last: Call, r: Reply, c: Call, es: seq<Entry>)
    requires VersionsOk(w) && Before(w, last, r) && last.UpdateStatus? && FollowsWrite(last, r, c, es)
    ensures CallOk(w, c)
  {
  }

  lemma AfterEnsure(w: World, last: Call, r: Reply, c: Call, es: seq<Entry>)
    requires CallOk(w, last) && (last.CreatePv? || last.UpdatePv? || last.GetPv? || last.GetPvc?)
    requires !last.snap.cr.deleted && FollowsEnsure(last, r, c, es)
    ensures CallOk(w, c)
  {
    hide CallOk;
    SameVolumeGround(w, last, c);
  }

  /** A call on the volume pair is made for an object in the right phase of its life. */
  lemma VolumePhase(w: World, c: Call)
    requires CallOk(w, c)
    ensures c.DeletePv? || c.DeletePvc? ==> c.snap.cr.deleted
    ensures c.CreatePv? || c.UpdatePv? || c.CreatePvc? ==> !c.snap.cr.deleted
  {
  }

  lemma FollowsOk(w: World, c: Call, es: seq<Entry>)
    requires VersionsOk(w) && PcOk(w) && Follows(w.pc, c, es)
    ensures CallOk(w, c)
  {
    hide CallOk, ReplyOk, FollowsPoll, FollowsRead, FollowsDeleteGet, FollowsTagCall, FollowsCascade,
         FollowsEnsure, FollowsWrite, FollowsExpand, FollowsSg, FollowsCreate, FollowsList;
    if w.pc.At? {
      var last, r := w.pc.call, w.pc.reply;
      VolumePhase(w, last);
      match last
      case ReadCr => AfterRead(w, r, c, es);
      case CreateShare(s) => AfterCreate(w, s, r, c, es);
      case ListShares(s, taken) => AfterList(w, s, taken, r, c, es);
      case ShowShare(s) => if s.cr.deleted { AfterDeleteGet(w, s, r, c, es); } else { AfterPoll(w, s, r, c, es); }
      case ExpandShare(s, info) => AfterExpand(w, s, info, r, c, es);
      case ChangeSg(s, info) => AfterSg(w, s, info, r, c, es);
      case ShowTags(_, _) => AfterTagCall(w, last, r, c, es);
      case AddTag(_, _, _, _) => AfterTagCall(w, last, r, c, es);
      case DeleteTag(_, _, _, _) => AfterTagCall(w, last, r, c, es);
      case DeleteShare(s) => AfterDelete(w, s, r, c, es);
      case DeletePv(_) => AfterCascade(w, last, r, c, es);
      case DeletePvc(_) => AfterCascade(w, last, r, c, es);
      case GetPv(s) => if s.cr.deleted { AfterCascade(w, last, r, c, es); } else { AfterEnsure(w, last, r, c, es); }
      case GetPvc(s) => if s.cr.deleted { AfterCascade(w, last, r, c, es); } else { AfterEnsure(w, last, r, c, es); }
      case CreatePv(_) => AfterEnsure(w, last, r, c, es);
      case UpdatePv(_, _) => AfterEnsure(w, last, r, c, es);
      case UpdateStatus(_, _) => AfterWrite(w, last, r, c, es);
      case _ =>
    } else {
      ReadOk(w);
    }
  }

  // ---------------------------------------------------------------- the effect of a call

  lemma StillOk(w: World, v: World, c: Call)
    requires Later(w, v) && CallOk(w, c) && v.cache == w.cache
    requires forall n: int | AllAtLeast(w, n) && (c.CreateShare? ==> n <= c.snap.cr.spec.size) :: AllAtLeast(v, n)
    ensures CallOk(v, c)
  {
    hide Guard;
    if !c.ReadCr? { FoundedLater(w, v, c); }
  }

  lemma IssuedGrows(w: World, v: World, c: Call)
    requires Later(w, v) && IssuedOk(w) && CallOk(w, c)
    requires v.log.issued == if Mutates(c) then w.log.issued + [c] else w.log.issued
    ensures IssuedOk(v)
    ensures HasDelete(w.log.issued) || c.DeleteShare? ==> HasDelete(v.log.issued)
  {
    hide Founded;
    var grown := v.(log := v.log.(issued := w.log.issued));
    IssuedLater(w, grown);
    forall i | 0 <= i < |v.log.issued| && v.log.issued[i] != c
      ensures !v.log.issued[i].ReadCr? && Founded(v, v.log.issued[i])
    {
      assert v.log.issued[i] == w.log.issued[i];
      FoundedSame(grown, v, v.log.issued[i]);
    }
    if Mutates(c) {
      FoundedLater(w, v, c);
      if c.DeleteShare? { DeleteTarget(w, c); }
      assert v.log.issued[|w.log.issued|] == c;
    }
    if HasDelete(w.log.issued) {
      var i :| 0 <= i < |w.log.issued| && w.log.issued[i].DeleteShare?;
      assert v.log.issued[i].DeleteShare?;
    }
  }

  lemma FoundedSame(w: World, v: World, c: Call)
    requires !c.ReadCr? && v.hist == w.hist && Founded(w, c)
    ensures Founded(v, c)
  {
    hide Guard;
  }

  lemma DeleteTarget(w: World, c: Call)
    requires CallOk(w, c) && c.DeleteShare?
    ensures c.snap.cr.status.fsId in w.log.minted && c.snap.cr.status.fsId != NO_FS && SawDeletion(w)
  {
  }

  /** Calls whose effect, if any, leaves versions and cloud alone. */
  predicate Elsewhere(c: Call) {
    !(c.AddFinalizer? || c.RemoveFinalizer? || c.UpdateStatus? || MutatesCloud(c))
  }

  lemma CountSame(w: World, v: World)
    requires CountOk(w) && v.cloud == w.cloud && v.fsName == w.fsName && v.log.minted == w.log.minted
    requires v.log.mints == w.log.mints && v.log.destroyed == w.log.destroyed && v.log.finished == w.log.finished
    requires SawDeletion(w) ==> SawDeletion(v)
    requires HasDelete(w.log.issued) ==> HasDelete(v.log.issued)
    ensures CountOk(v)
  {
  }

  /** The parts of the log that the invariant is about, when no share is created. */
  ghost predicate Logged(w: World, v: World, c: Call) {
    && v.log.issued == (if Mutates(c) then w.log.issued + [c] else w.log.issued)
    && v.log.minted == w.log.minted && v.log.mints == w.log.mints
    && v.log.destroyed == w.log.destroyed && v.log.finished == w.log.finished
  }

  lemma QuietShape(w: World, c: Call, o: Outcome)
    requires w.hist != [] && Possible(w, c, o) && !(c.ReadCr? && o.Answered?) && (o.Refused? || Elsewhere(c))
    ensures var v := Perform(w, c, o);
            && v == w.(pvs := v.pvs, pvcs := v.pvcs, pc := At(c, ReplyOf(o)), log := v.log)
            && Logged(w, v, c) && v.log.cleared == w.log.cleared
  {
  }

  /** No effect, or one on the volume objects only. */
  lemma QuietKeeps(w: World, c: Call, o: Outcome)
    requires Inv(w) && CallOk(w, c) && w.hist != [] && Possible(w, c, o) && !(c.ReadCr? && o.Answered?)
    requires o.Refused? || Elsewhere(c)
    ensures Inv(Perform(w, c, o))
  {
    hide PcOk, Inv, IssuedOk, CallOk, ReplyOk, Perform, Possible, HasDelete, CountOk, SizeOk;
    var v := Perform(w, c, o);
    InvParts(w);
    QuietShape(w, c, o);
    IssuedGrows(w, v, c);
    QuietReply(w, c, o);
    SizeKept(w, v);
    CountSame(w, v);
    StillOk(w, v, c);
    PartsInv(v, c);
  }

  lemma InvParts(w: World)
    requires Inv(w)
    ensures VersionsOk(w) && CloudOk(w) && CountOk(w) && DroppedOk(w) && SizeOk(w) && PcOk(w) && IssuedOk(w)
  {
  }

  lemma PartsInv(v: World, c: Call)
    requires VersionsOk(v) && CloudOk(v) && CountOk(v) && DroppedOk(v) && SizeOk(v) && IssuedOk(v)
    requires v.pc.At? && v.pc.call == c && CallOk(v, c) && ReplyOk(v, c, v.pc.reply)
    ensures Inv(v)
  {
  }

  lemma QuietReply(w: World, c: Call, o: Outcome)
    requires VersionsOk(w) && CloudOk(w) && CallOk(w, c) && Possible(w, c, o) && !(c.ReadCr? && o.Answered?)
    requires o.Refused? || Elsewhere(c)
    ensures ReplyOk(Perform(w, c, o), c, ReplyOf(o))
  {
    match c
    case ListShares(s, _) =>
      if o.Answered? { FirstNamedListed(o.reply.list, s.cr.spec.fsName); }
    case ShowShare(s) =>
    case _ =>
  }

  lemma {:induction false} FirstNamedListed(l: seq<Listed>, name: string)
    ensures var id := FirstNamed(l, name); id != NO_FS ==> Listed(id, name) in l
  {
    if l != [] && l[0].name != name {
      FirstNamedListed(l[1..], name);
      if FirstNamed(l, name) != NO_FS {
        assert Listed(FirstNamed(l, name), name) in l[1..];
      }
    }
  }

  lemma ReadKeeps(w: World, o: Outcome)
    requires Inv(w) && w.hist != [] && Possible(w, ReadCr, o) && o.Answered?
    ensures Inv(Perform(w, ReadCr, o))
  {
    hide PcOk, Inv, IssuedOk, HasDelete, CountOk, SizeOk;
    var v := Perform(w, ReadCr, o);
    InvParts(w);
    ReadOk(w);
    ReadOk(v);
    IssuedGrows(w, v, ReadCr);
    SizeKept(w, v);
    CountSame(w, v);
    PartsInv(v, ReadCr);
  }

  // ---------------------------------------------------------------- cloud calls

  /** What a call makes of the share it is about. */
  ghost predicate ShareCall(w: World, v: World, c: Call, t: Share)
    requires w.hist != [] && !c.ReadCr?
  {
    var id := c.snap.cr.status.fsId;
    && id in w.cloud && v == SetShare(w, id, t).(pc := v.pc, log := v.log)
    && t.name == w.cloud[id].name && t.info.size == w.cloud[id].info.size
    && (t.dying == w.cloud[id].dying || c.DeleteShare?)
    && (t.target == w.cloud[id].target || t.target == c.snap.cr.spec.size)
    && v.pc.At? && v.pc.call == c && Logged(w, v, c) && v.log.cleared == w.log.cleared
  }

  lemma ShareCallShape(w: World, c: Call, o: Outcome)
    requires w.hist != [] && Possible(w, c, o) && !o.Refused? && MutatesCloud(c) && !c.CreateShare?
    ensures var v := Perform(w, c, o);
            && c.snap.cr.status.fsId in v.cloud && v.pc == At(c, ReplyOf(o))
            && ShareCall(w, v, c, v.cloud[c.snap.cr.status.fsId])
  {
  }

  lemma ShareCallCounts(w: World, v: World, c: Call, t: Share)
    requires w.hist != [] && CloudOk(w) && CountOk(w) && CallOk(w, c) && !c.ReadCr? && ShareCall(w, v, c, t)
    requires HasDelete(w.log.issued) || c.DeleteShare? ==> HasDelete(v.log.issued)
    ensures CountOk(v) && CloudOk(v)
  {
    hide CallOk, HasDelete, CloudOk;
    if c.DeleteShare? { DeleteTarget(w, c); }
    CloudReplaced(w, c.snap.cr.status.fsId, t);
    CloudOkSame(SetShare(w, c.snap.cr.status.fsId, t), v);
  }

  lemma CloudOkSame(w: World, v: World)
    requires CloudOk(w) && v == w.(pc := v.pc, log := v.log) && v.log.minted == w.log.minted
    ensures CloudOk(v)
  {
  }

  lemma CallSubmits(w: World, c: Call)
    requires CallOk(w, c) && !c.ReadCr?
    ensures Submitted(w, c.snap.cr.spec.size)
  {
    hide Guard;
    assert w.hist[c.snap.rv].spec.size == c.snap.cr.spec.size;
  }

  lemma ShareCallSizes(w: World, v: World, c: Call, t: Share)
    requires w.hist != [] && SizeOk(w) && CallOk(w, c) && !c.ReadCr? && ShareCall(w, v, c, t)
    ensures SizeOk(v)
  {
    hide CallOk, Submitted;
    CallSubmits(w, c);
    SizeReplaced(w, c.snap.cr.status.fsId, t);
    SizeKept(SetShare(w, c.snap.cr.status.fsId, t), v);
  }

  lemma ShareCallKeeps(w: World, c: Call, o: Outcome)
    requires Inv(w) && CallOk(w, c) && w.hist != [] && Possible(w, c, o) && !o.Refused? && MutatesCloud(c)
    requires !c.CreateShare?
    ensures Inv(Perform(w, c, o))
  {
    hide PcOk, Inv, IssuedOk, CallOk, Perform, Possible, HasDelete, CountOk, CloudOk, SizeOk;
    var v := Perform(w, c, o);
    ShareCallShape(w, c, o);
    var t := v.cloud[c.snap.cr.status.fsId];
    InvParts(w);
    IssuedGrows(w, v, c);
    ShareCallCounts(w, v, c, t);
    ShareCallSizes(w, v, c, t);
    StillOk(w, v, c);
    PartsInv(v, c);
  }

  ghost predicate MintCall(w: World, v: World, s: Snap) {
    && v == SetShare(w, w.nextId, NewShare(s.cr.spec)).(nextId := w.nextId + 1, pc := v.pc, log := v.log)
    && v.log.issued == w.log.issued + [CreateShare(s)]
    && v.log.minted == w.log.minted + {w.nextId} && v.log.mints == w.log.mints + 1
    && v.log.destroyed == w.log.destroyed && v.log.finished == w.log.finished && v.log.cleared == w.log.cleared
    && v.pc.At? && v.pc.call == CreateShare(s) && (v.pc.reply.Minted? ==> v.pc.reply.id == w.nextId)
  }

  lemma MintFacts(w: World, s: Snap)
    requires VersionsOk(w) && CallOk(w, CreateShare(s))
    ensures !SawDeletion(w) && s.cr.spec.fsName == w.fsName
  {
    assert w.hist[s.rv].spec == s.cr.spec;
  }

  /** A share is created only when none of ours is left, and before any deletion was seen; so the
      number of creations stays within one plus the number of removals by others. */
  lemma MintCounts(w: World, v: World, s: Snap)
    requires VersionsOk(w) && CloudOk(w) && CountOk(w) && CallOk(w, CreateShare(s)) && MintCall(w, v, s)
    requires !NameTaken(w.cloud, s.cr.spec.fsName)
    requires HasDelete(w.log.issued) ==> HasDelete(v.log.issued)
    ensures CountOk(v) && CloudOk(v)
  {
    hide CallOk, VersionsOk, HasDelete;
    MintFacts(w, s);
    assert v.cloud[w.nextId].name == v.fsName;
  }

  lemma MintSizes(w: World, v: World, s: Snap)
    requires CloudOk(w) && SizeOk(w) && CallOk(w, CreateShare(s)) && MintCall(w, v, s)
    ensures SizeOk(v)
  {
    CallSubmits(w, CreateShare(s));
    forall n: nat | Submitted(w, n) ensures Submitted(v, n) {
      var i :| 0 <= i < |w.hist| && w.hist[i].spec.size == n;
      assert v.hist[i].spec.size == n;
    }
  }

  lemma MintShape(w: World, s: Snap, o: Outcome)
    requires w.hist != [] && Possible(w, CreateShare(s), o) && !o.Refused?
    ensures var v := Perform(w, CreateShare(s), o);
            MintCall(w, v, s) && v.pc.reply == ReplyOf(o) && !NameTaken(w.cloud, s.cr.spec.fsName)
  {
  }

  /** Ours are the shares from before and the new one. */
  lemma MintLater(w: World, v: World, s: Snap)
    requires CloudOk(w) && MintCall(w, v, s)
    ensures Later(w, v)
    ensures forall n: int | AllAtLeast(w, n) && n <= s.cr.spec.size :: AllAtLeast(v, n)
  {
  }

  lemma MintKeeps(w: World, s: Snap, o: Outcome)
    requires Inv(w) && CallOk(w, CreateShare(s)) && w.hist != [] && Possible(w, CreateShare(s), o) && !o.Refused?
    ensures Inv(Perform(w, CreateShare(s), o))
  {
    hide PcOk, Inv, IssuedOk, CallOk, HasDelete, CountOk, SizeOk, Perform, Possible, CloudOk, AllAtLeast, Later;
    var c := CreateShare(s);
    var v := Perform(w, c, o);
    InvParts(w);
    MintShape(w, s, o);
    MintLater(w, v, s);
    IssuedGrows(w, v, c);
    MintCounts(w, v, s);
    MintSizes(w, v, s);
    StillOk(w, v, c);
    assert ReplyOk(v, c, v.pc.reply) by { MintReply(w, v, s); }
    MintVersions(w, v, s);
    PartsInv(v, c);
  }

  lemma MintReply(w: World, v: World, s: Snap)
    requires CloudOk(w) && MintCall(w, v, s)
    ensures ReplyOk(v, CreateShare(s), v.pc.reply)
  {
  }

  lemma MintVersions(w: World, v: World, s: Snap)
    requires VersionsOk(w) && DroppedOk(w) && CloudOk(w) && MintCall(w, v, s)
    ensures VersionsOk(v) && DroppedOk(v)
  {
  }

  // ---------------------------------------------------------------- writes to the resource

  /** A write replaces the current version, or leaves it when nothing changes. */
  ghost predicate WriteCall(w: World, v: World, c: Call, cr: Cr)
    requires w.hist != [] && !c.ReadCr?
  {
    && c.snap.rv == |w.hist| - 1
    && v == Commit(w, cr).(gone := v.gone, pc := v.pc, log := v.log)
    && v.pc.At? && v.pc.call == c && Logged(w, v, c)
    && v.log.cleared == w.log.cleared + One(c.UpdateStatus? && cr.status.fsId == NO_FS && Current(w).status.fsId != NO_FS)
  }

  ghost function Written(c: Call, cur: Cr): Cr
    requires c.UpdateStatus? || c.AddFinalizer? || c.RemoveFinalizer?
  {
    if c.UpdateStatus? then cur.(status := c.snap.cr.status) else cur.(finalizer := c.AddFinalizer?)
  }

  predicate WritesCr(c: Call) { c.UpdateStatus? || c.AddFinalizer? || c.RemoveFinalizer? }

  lemma WriteShape(w: World, c: Call, o: Outcome)
    requires w.hist != [] && WritesCr(c) && Possible(w, c, o) && !o.Refused?
    ensures var v := Perform(w, c, o);
            && WriteCall(w, v, c, Written(c, Current(w))) && v.pc == At(c, ReplyOf(o))
            && (o.Answered? && c.UpdateStatus? ==> o.reply == Got(Snap(Current(v), |v.hist| - 1)))
  {
  }

  /** What a write puts in place of the current version. */
  lemma WriteGround(w: World, c: Call)
    requires w.hist != [] && CallOk(w, c) && WritesCr(c) && c.snap.rv == |w.hist| - 1
    ensures var cur, cr := Current(w), Written(c, Current(w));
            && (c.UpdateStatus? ==> cr == c.snap.cr)
            && (cr.status != cur.status ==>
                  && UniqueTypes(cr.status.conditions)
                  && (cr.status.fsId != NO_FS ==> cr.status.fsId in w.log.minted)
                  && (cr.status.fsId != cur.status.fsId ==>
                        Dead(w, cur.status.fsId) && (cur.status.fsId == NO_FS || cr.status.fsId == NO_FS)))
  {
    var s := c.snap;
    assert s.cr.(status := w.hist[s.rv].status) == w.hist[s.rv];
  }

  /** A new version keeps what holds of the versions, when it changes the id as it may. */
  lemma VersionWritten(w: World, v: World, cr: Cr)
    requires VersionsOk(w) && DroppedOk(w) && cr != Current(w)
    requires v.hist == w.hist + [cr] && v.cloud == w.cloud && v.cache == w.cache && v.fsName == w.fsName
    requires v.log.minted == w.log.minted && v.log.cleared >= w.log.cleared
    requires var cur := Current(w);
             && cr.spec.fsName == w.fsName && (cur.deleted ==> cr.deleted) && UniqueTypes(cr.status.conditions)
             && (cr.status.fsId != NO_FS ==> cr.status.fsId in w.log.minted)
             && (cr.status.fsId != cur.status.fsId && cur.status.fsId != NO_FS ==>
                   cr.status.fsId == NO_FS && cur.status.fsId !in w.cloud && v.log.cleared > 0)
    ensures VersionsOk(v) && DroppedOk(v)
  {
  }

  lemma WriteVersions(w: World, v: World, c: Call)
    requires VersionsOk(w) && DroppedOk(w) && CallOk(w, c) && WritesCr(c)
    requires WriteCall(w, v, c, Written(c, Current(w)))
    ensures VersionsOk(v) && DroppedOk(v)
    ensures c.UpdateStatus? ==> Current(v) == c.snap.cr
  {
    hide CallOk, VersionsOk, DroppedOk;
    var cr := Written(c, Current(w));
    WriteGround(w, c);
    CurrentOk(w);
    if cr == Current(w) {
      SameVersions(w, v);
    } else {
      VersionWritten(w, v, cr);
    }
  }

  lemma CurrentOk(w: World)
    requires w.hist != [] && VersionsOk(w)
    ensures var cr := Current(w);
            && cr.spec.fsName == w.fsName && UniqueTypes(cr.status.conditions)
            && (cr.status.fsId != NO_FS ==> cr.status.fsId in w.log.minted)
  {
  }

  lemma SameVersions(w: World, v: World)
    requires VersionsOk(w) && DroppedOk(w) && v.log.minted == w.log.minted && v.log.cleared >= w.log.cleared
    requires v.hist == w.hist && v.cloud == w.cloud && v.cache == w.cache && v.fsName == w.fsName
    ensures VersionsOk(v) && DroppedOk(v)
  {
  }

  lemma WriteSizes(w: World, v: World, c: Call)
    requires SizeOk(w) && w.hist != [] && WritesCr(c) && WriteCall(w, v, c, Written(c, Current(w)))
    ensures SizeOk(v)
  {
    var cr := Written(c, Current(w));
    if cr == Current(w) { SizeKept(w, v); } else { SizeVersionAdded(w, cr, v); }
  }

  lemma WriteReply(w: World, v: World, c: Call, o: Outcome)
    requires VersionsOk(w) && CallOk(w, c) && c.UpdateStatus? && WriteCall(w, v, c, Written(c, Current(w)))
    requires Current(v) == c.snap.cr && v.cache == w.cache
    requires ReplyOf(o).Got? ==> o.reply == Got(Snap(Current(v), |v.hist| - 1))
    ensures ReplyOk(v, c, ReplyOf(o))
  {
    hide Guard;
  }

  lemma WriteKeeps(w: World, c: Call, o: Outcome)
    requires Inv(w) && CallOk(w, c) && w.hist != [] && WritesCr(c) && Possible(w, c, o) && !o.Refused?
    ensures Inv(Perform(w, c, o))
  {
    hide PcOk, Inv, IssuedOk, CallOk, Perform, Possible, HasDelete, CountOk, SizeOk, VersionsOk, DroppedOk;
    var v := Perform(w, c, o);
    InvParts(w);
    WriteShape(w, c, o);
    IssuedGrows(w, v, c);
    WriteVersions(w, v, c);
    WriteSizes(w, v, c);
    CountSame(w, v);
    if c.UpdateStatus? { WriteReply(w, v, c, o); }
    StillOk(w, v, c);
    PartsInv(v, c);
  }

  lemma PerformKeeps(w: World, c: Call, o: Outcome)
    requires Inv(w) && CallOk(w, c) && w.hist != [] && Possible(w, c, o)
    ensures Inv(Perform(w, c, o))
  {
    hide Inv, CallOk, Perform, Possible;
    if o.Refused? {
      QuietKeeps(w, c, o);
    } else if c.ReadCr? {
      ReadAnswered(w, o);
      ReadKeeps(w, o);
    } else if WritesCr(c) {
      WriteKeeps(w, c, o);
    } else if c.CreateShare? {
      MintKeeps(w, c.snap, o);
    } else if MutatesCloud(c) {
      ShareCallKeeps(w, c, o);
    } else {
      QuietKeeps(w, c, o);
    }
  }

  lemma ReadAnswered(w: World, o: Outcome)
    requires w.hist != [] && Possible(w, ReadCr, o) && !o.Refused?
    ensures o.Answered?
  {
  }

  // ================================================================ all runs

  lemma StepKeeps(w: World, a: Act, v: World)
    requires Inv(w) && Step(w, a, v)
    ensures Inv(v)
  {
    hide Inv;
    InvParts(w);
    var es :| May(w, a, es) && v == Next(w, a);
    match a
    case Do(c, o) => FollowsOk(w, c, es); PerformKeeps(w, c, o);
    case End(_) => StoresKept(w, v);
    case Env(e) => EnvKeeps(w, e);
  }

  lemma InitialInv(w: World)
    requires Initial(w)
    ensures Inv(w)
  {
    assert Replay([], []) == [];
  }

  lemma {:induction false} RunKeeps(r: Run, i: nat)
    requires IsRun(r) && Initial(r.worlds[0]) && i < |r.worlds|
    ensures Inv(r.worlds[i])
  {
    if i == 0 {
      InitialInv(r.worlds[0]);
    } else {
      RunKeeps(r, i - 1);
      StepKeeps(r.worlds[i - 1], r.acts[i - 1], r.worlds[i]);
    }
  }
}