/** The guarantees over whole runs that follow from the invariant. A run may contain crashes, lost
    replies, conflicts, stale reads, spec edits, deletion and interference at every step. */
module Guarantees {
  import opened Types
  import opened Protocol
  import opened Safety

  ghost predicate Reachable(w: World) {
    exists r: Run, i: nat :: ReachedIn(w, r, i)
  }

  ghost predicate ReachedIn(w: World, r: Run, i: nat) {
    IsRun(r) && Initial(r.worlds[0]) && i < |r.worlds| && r.worlds[i] == w
  }

  lemma ReachableInv(w: World)
    requires Reachable(w)
    ensures Inv(w)
  {
    var r: Run, i: nat :| ReachedIn(w, r, i);
    RunKeeps(r, i);
  }

  // ---------------------------------------------------------------- creation

  /** At most one share per removal by others, and one more, is ever created for the resource; at most
      one of them is alive; and every id that the status or a worker holds is that of a share created
      under the resource's name. */
  lemma CrashSafeCreate(w: World)
    requires Reachable(w)
    ensures w.log.mints <= 1 + w.log.destroyed
    ensures forall a, b | a in w.cloud && b in w.cloud && a in w.log.minted && b in w.log.minted :: a == b
    ensures forall i | 0 <= i < |w.hist| && w.hist[i].status.fsId != NO_FS :: w.hist[i].status.fsId in w.log.minted
    ensures w.pc.At? && !w.pc.call.ReadCr? && w.pc.call.snap.cr.status.fsId != NO_FS ==>
              w.pc.call.snap.cr.status.fsId in w.log.minted
    ensures forall id | id in w.log.minted && id in w.cloud :: w.cloud[id].name == w.fsName
  {
    hide IssuedOk, SizeOk, DroppedOk;
    ReachableInv(w);
  }

  // ---------------------------------------------------------------- destruction

  /** The version of the resource that a call was made from. */
  ghost function Origin(w: World, c: Call): Cr
    requires !c.ReadCr? && c.snap.rv < |w.hist|
  {
    w.hist[c.snap.rv]
  }

  /** Every DeleteShare ever issued is about the share recorded in a version of the resource that was
      marked for deletion, held the finalizer and asked for the share to be deleted; and that share was
      created for the resource. */
  lemma DestructionIsAuthorised(w: World, i: nat)
    requires Reachable(w) && i < |w.log.issued| && w.log.issued[i].DeleteShare?
    ensures var c := w.log.issued[i];
            && c.snap.rv < |w.hist|
            && var h := Origin(w, c);
               h.deleted && h.finalizer && h.spec.policy == Delete
               && h.status.fsId == c.snap.cr.status.fsId && h.status.fsId in w.log.minted
  {
    ReachableInv(w);
    assert Founded(w, w.log.issued[i]);
  }

  /** When no version that is marked for deletion ever asks for it, no share of ours is ever removed
      by the operator: whatever is gone was removed by others. */
  lemma RetainedSharesSurvive(w: World)
    requires Reachable(w)
    requires forall i | 0 <= i < |w.hist| && w.hist[i].deleted :: w.hist[i].spec.policy == Retain
    ensures !HasDelete(w.log.issued) && w.log.finished == 0
    ensures w.log.mints == w.log.destroyed + One(NameTaken(w.cloud, w.fsName))
  {
    ReachableInv(w);
    forall i | 0 <= i < |w.log.issued| ensures !w.log.issued[i].DeleteShare? {
      if w.log.issued[i].DeleteShare? { DestructionIsAuthorised(w, i); }
    }
  }

  // ---------------------------------------------------------------- phases

  predicate Deletes(c: Call) {
    c.DeleteShare? || c.DeletePv? || c.DeletePvc? || c.RemoveFinalizer? || c.UpdateStatus?
  }

  lemma DeletionStep(w: World, a: Act, v: World)
    requires Inv(w) && Step(w, a, v) && SawDeletion(w)
    ensures SawDeletion(v)
    ensures v.log.issued == w.log.issued ||
            (a.Do? && v.log.issued == w.log.issued + [a.call] && Deletes(a.call))
  {
    hide Inv, SawDeletion, Follows, Possible, EnvMay;
    InvParts(w);
    var es :| May(w, a, es) && v == Next(w, a);
    match a
    case Do(c, o) =>
      FollowsOk(w, c, es);
      CacheMoves(w, c, o);
      if Mutates(c) { DeletionCall(w, c); }
    case End(_) => SameCache(w, v);
    case Env(e) => EnvCache(w, e);
  }

  lemma SameCache(w: World, v: World)
    requires SawDeletion(w) && v.cache == w.cache && v.hist == w.hist
    ensures SawDeletion(v)
  {
  }

  lemma EnvCache(w: World, e: EnvAct)
    requires w.hist != [] && EnvMay(w, e) && SawDeletion(w)
    ensures SawDeletion(EnvStep(w, e)) && EnvStep(w, e).log.issued == w.log.issued
  {
  }

  lemma CacheMoves(w: World, c: Call, o: Outcome)
    requires VersionsOk(w) && w.hist != [] && Possible(w, c, o) && SawDeletion(w)
    ensures SawDeletion(Perform(w, c, o))
    ensures Perform(w, c, o).log.issued == if Mutates(c) then w.log.issued + [c] else w.log.issued
  {
    HistGrows(w, c, o);
  }

  lemma HistGrows(w: World, c: Call, o: Outcome)
    requires w.hist != [] && Possible(w, c, o)
    ensures var v := Perform(w, c, o); |w.hist| <= |v.hist| && v.hist[..|w.hist|] == w.hist
  {
  }

  lemma DeletionCall(w: World, c: Call)
    requires VersionsOk(w) && CallOk(w, c) && SawDeletion(w) && Mutates(c)
    ensures Deletes(c)
  {
    assert w.hist[c.snap.rv].deleted;
  }

  /** Once a pass has read the resource as deleted, no later call creates, grows, re-tags or re-secures
      a share, or creates a volume object: only deletions and the closing writes are issued. */
  lemma {:induction false} PhasesNeverGoBack(r: Run, i: nat, j: nat)
    requires IsRun(r) && Initial(r.worlds[0]) && i <= j < |r.worlds| && SawDeletion(r.worlds[i])
    ensures var before, after := r.worlds[i].log.issued, r.worlds[j].log.issued;
            && SawDeletion(r.worlds[j])
            && |before| <= |after| && after[..|before|] == before
            && forall k | |before| <= k < |after| :: Deletes(after[k])
  {
    hide Inv, Step, SawDeletion, Deletes;
    if i < j {
      PhasesNeverGoBack(r, i, j - 1);
      RunKeeps(r, j - 1);
      DeletionStep(r.worlds[j - 1], r.acts[j - 1], r.worlds[j]);
    }
  }

  /** CreateShare is only ever issued from a version that holds the finalizer, is not deleted and
      records no share. */
  lemma CreateNeedsFinalizer(w: World, i: nat)
    requires Reachable(w) && i < |w.log.issued| && w.log.issued[i].CreateShare?
    ensures var c := w.log.issued[i];
            c.snap.rv < |w.hist| &&
            var h := Origin(w, c); h.finalizer && !h.deleted && h.status.fsId == NO_FS
  {
    ReachableInv(w);
    assert Founded(w, w.log.issued[i]);
  }

  // ---------------------------------------------------------------- sizes

  /** Every expansion asks for a size that was submitted and exceeds what the pass read; and a share of
      ours never has, nor is growing to, a size that was not submitted. */
  lemma SizesAreSubmitted(w: World, max: nat)
    requires Reachable(w)
    requires forall i | 0 <= i < |w.hist| :: w.hist[i].spec.size <= max
    ensures forall i | 0 <= i < |w.log.issued| && w.log.issued[i].ExpandShare? ::
              var c := w.log.issued[i]; c.info.size < c.snap.cr.spec.size && Submitted(w, c.snap.cr.spec.size)
    ensures forall id | id in w.cloud && id in w.log.minted ::
              Submitted(w, w.cloud[id].info.size) && w.cloud[id].info.size <= max && w.cloud[id].target <= max
  {
    hide PcOk, CountOk, DroppedOk, CloudOk;
    ReachableInv(w);
    forall i | 0 <= i < |w.log.issued| && w.log.issued[i].ExpandShare?
      ensures var c := w.log.issued[i]; c.info.size < c.snap.cr.spec.size && Submitted(w, c.snap.cr.spec.size)
    {
      var c := w.log.issued[i];
      assert Founded(w, c);
      assert w.hist[c.snap.rv].spec.size == c.snap.cr.spec.size;
    }
  }

  lemma SizeEffect(w: World, c: Call, id: nat)
    requires w.nextId !in w.cloud && w.hist != [] && Accepts(w, c) && id in w.cloud
    ensures id in Effect(w, c).cloud && Effect(w, c).cloud[id].info.size == w.cloud[id].info.size
  {
    hide CapacityOf, BuildPV, BuildPVC, NameTaken, NewShare;
  }

  lemma SizeCall(w: World, c: Call, o: Outcome, id: nat)
    requires CloudOk(w) && w.hist != [] && Possible(w, c, o) && id in w.cloud
    ensures id in Perform(w, c, o).cloud && Perform(w, c, o).cloud[id].info.size == w.cloud[id].info.size
  {
    hide Truthful, Tally, Effect, Accepts, Fits;
    if !o.Refused? { SizeEffect(w, c, id); }
  }

  lemma SizeEnv(w: World, e: EnvAct, id: nat)
    requires CloudOk(w) && w.hist != [] && EnvMay(w, e) && id in w.cloud && id in EnvStep(w, e).cloud
    ensures EnvStep(w, e).cloud[id].info.size >= w.cloud[id].info.size
  {
  }

  lemma SizeStep(w: World, a: Act, v: World, id: nat)
    requires CloudOk(w) && Step(w, a, v) && id in w.cloud && id in v.cloud
    ensures v.cloud[id].info.size >= w.cloud[id].info.size
  {
    hide CloudOk, Follows, Possible, EnvMay, Perform, EnvStep;
    var es :| May(w, a, es) && v == Next(w, a);
    match a
    case Do(c, o) => SizeCall(w, c, o, id);
    case End(_) =>
    case Env(e) => SizeEnv(w, e, id);
  }

  /** The size of a share never goes down while it exists. */
  lemma {:induction false} SizesNeverFall(r: Run, i: nat, j: nat, id: nat)
    requires IsRun(r) && Initial(r.worlds[0]) && i <= j < |r.worlds|
    requires forall k | i <= k <= j :: id in r.worlds[k].cloud
    ensures r.worlds[j].cloud[id].info.size >= r.worlds[i].cloud[id].info.size
  {
    hide Inv, Step;
    if i < j {
      SizesNeverFall(r, i, j - 1, id);
      RunKeeps(r, j - 1);
      InvParts(r.worlds[j - 1]);
      SizeStep(r.worlds[j - 1], r.acts[j - 1], r.worlds[j], id);
    }
  }

  // ---------------------------------------------------------------- volumes

  /** While the recorded id has never been cleared, every volume the operator ever asked for is backed
      by the share that the status records. */
  lemma VolumesPointAtTheShare(w: World, i: nat)
    requires Reachable(w) && w.log.cleared == 0 && i < |w.log.issued| && w.log.issued[i].CreatePv?
    ensures w.hist != [] && BuildPV(w.log.issued[i].snap.cr, 0).volumeHandle == Current(w).status.fsId != NO_FS
  {
    ReachableInv(w);
    var c := w.log.issued[i];
    assert Founded(w, c);
    assert w.hist[c.snap.rv].status.fsId == c.snap.cr.status.fsId;
  }
}
