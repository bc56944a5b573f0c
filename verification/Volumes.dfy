/** What the operator does to the volume objects of the cluster. */
module Volumes {
  import opened Conditions
  import opened Types
  import opened Protocol
  import opened Safety
  import opened Calm

  /** An update is only sent for a volume that was read as released, labelled and claimed. */
  lemma UpdateIsForStale(pc: Pc, c: Call, es: seq<Entry>)
    requires Follows(pc, c, es) && c.UpdatePv?
    ensures c.pv.phase == Released && c.pv.managedBy == "huawei-sfs-operator" && c.pv.claimRef.Some?
    ensures pc.At? && pc.call == GetPv(c.snap) && !c.snap.cr.deleted
  {
    hide HasTrue, Told, Missing, Extra;
  }

  lemma VolumeEffect(w: World, c: Call, o: Outcome, name: string)
    requires w.hist != [] && Possible(w, c, o)
    ensures var v := Perform(w, c, o);
            && (name !in w.pvs && name in v.pvs ==>
                  c.CreatePv? && name == c.snap.cr.spec.pvcName && CapacityOf(c.snap.cr.spec).Some?
                  && v.pvs[name] == BuildPV(c.snap.cr, CapacityOf(c.snap.cr.spec).value))
            && (name in w.pvs ==> name in v.pvs)
            && (name in w.pvs && v.pvs[name] != w.pvs[name] ==>
                  && (c.UpdatePv? || c.DeletePv?) && name == c.snap.cr.spec.pvcName
                  && (c.UpdatePv? ==> c.pv == w.pvs[name] && v.pvs[name] == w.pvs[name].(claimRef := None))
                  && (c.DeletePv? ==> v.pvs[name] == w.pvs[name].(terminating := true)))
  {
    hide Truthful, Fits, BuildPV, BuildPVC, CapacityOf, Tally;
  }

  /** In any state of any run, whatever call is made and however it goes: only the volume that the spec
      names is touched; it appears as the spec and the status describe it; an existing one is changed
      only by dropping the claim of a released volume with the operator's label, or by being deleted
      for a version that asks for deletion. It is never pointed at another share. */
  lemma VolumesTouched(w: World, c: Call, o: Outcome, es: seq<Entry>, name: string)
    requires Inv(w) && May(w, Do(c, o), es)
    ensures var v := Perform(w, c, o);
            && (name !in w.pvs && name in v.pvs ==>
                  c.CreatePv? && name == c.snap.cr.spec.pvcName && v.pvs[name].volumeHandle == c.snap.cr.status.fsId != NO_FS
                  && v.pvs[name].managedBy == "huawei-sfs-operator")
            && (name in w.pvs ==> name in v.pvs && v.pvs[name].volumeHandle == w.pvs[name].volumeHandle)
            && (name in w.pvs && v.pvs[name] != w.pvs[name] ==>
                  || (c.UpdatePv? && w.pvs[name].phase == Released && w.pvs[name].managedBy == "huawei-sfs-operator"
                      && w.pvs[name].claimRef.Some? && v.pvs[name] == w.pvs[name].(claimRef := None))
                  || (c.DeletePv? && c.snap.cr.deleted && c.snap.cr.spec.policy == Delete && name == c.snap.cr.spec.pvcName))
  {
    hide Inv, Follows, Possible, Perform, StaleClaim, Founded, ReplyOk;
    InvParts(w);
    FollowsOk(w, c, es);
    VolumeEffect(w, c, o, name);
    if c.UpdatePv? { UpdateIsForStale(w.pc, c, es); }
    if c.CreatePv? || c.DeletePv? { VolumeGuard(w, c); }
  }

  lemma VolumeGuard(w: World, c: Call)
    requires CallOk(w, c) && (c.CreatePv? || c.DeletePv? || c.DeletePvc?)
    ensures c.CreatePv? ==> c.snap.cr.status.fsId != NO_FS
    ensures c.DeletePv? || c.DeletePvc? ==> c.snap.cr.deleted && c.snap.cr.spec.policy == Delete
  {
  }

  lemma ClaimEffect(w: World, c: Call, o: Outcome, key: (string, string))
    requires w.hist != [] && Possible(w, c, o)
    ensures var v := Perform(w, c, o);
            && (key !in w.pvcs && key in v.pvcs ==>
                  && c.CreatePvc? && key == (c.snap.cr.ns, c.snap.cr.spec.pvcName)
                  && v.pvcs[key].volumeName == c.snap.cr.spec.pvcName && v.pvcs[key].managedBy == "huawei-sfs-operator")
            && (key in w.pvcs ==> key in v.pvcs)
            && (key in w.pvcs && v.pvcs[key] != w.pvcs[key] ==>
                  && c.DeletePvc? && key == (c.snap.cr.ns, c.snap.cr.spec.pvcName)
                  && v.pvcs[key] == w.pvcs[key].(terminating := true))
  {
    hide Truthful, Fits, BuildPV, CapacityOf, Tally;
  }

  /** The same for the claims: one appears only under the name the spec gives, in the resource's
      namespace, with the volume of that name; an existing one is only ever marked for deletion, and
      only for a version that is deleted and asks for the share to be deleted. */
  lemma ClaimsTouched(w: World, c: Call, o: Outcome, es: seq<Entry>, key: (string, string))
    requires Inv(w) && May(w, Do(c, o), es)
    ensures var v := Perform(w, c, o);
            && (key !in w.pvcs && key in v.pvcs ==>
                  && c.CreatePvc? && key == (c.snap.cr.ns, c.snap.cr.spec.pvcName)
                  && v.pvcs[key].volumeName == c.snap.cr.spec.pvcName && v.pvcs[key].managedBy == "huawei-sfs-operator")
            && (key in w.pvcs ==> key in v.pvcs)
            && (key in w.pvcs && v.pvcs[key] != w.pvcs[key] ==>
                  && c.DeletePvc? && key == (c.snap.cr.ns, c.snap.cr.spec.pvcName)
                  && c.snap.cr.deleted && c.snap.cr.spec.policy == Delete
                  && v.pvcs[key] == w.pvcs[key].(terminating := true))
  {
    hide Inv, Follows, Possible, Perform, Founded, ReplyOk;
    InvParts(w);
    FollowsOk(w, c, es);
    ClaimEffect(w, c, o, key);
    if c.DeletePvc? { VolumeGuard(w, c); }
  }

  /** What a calm pass that reaches the volumes does to them: it frees the named volume if that is
      released, labelled and claimed, leaves it alone if it is there otherwise, and touches no other
      volume and no claim but the named one. */
  lemma FreedExactly(r: Run, name: string)
    requires CalmPass(r) && Workable(r.worlds[0]) && ReachesVolumes(r.worlds[0])
    ensures var w, v, named := r.worlds[0], r.worlds[|r.acts|], Current(r.worlds[0]).spec.pvcName;
            && named in v.pvs && (Current(w).ns, named) in v.pvcs
            && (name in w.pvs ==> name in v.pvs)
            && (name in w.pvs && name == named && w.pvs[name].phase == Released
                && w.pvs[name].managedBy == "huawei-sfs-operator" && w.pvs[name].claimRef.Some? ==>
                  v.pvs[name] == w.pvs[name].(claimRef := None))
            && (name in w.pvs && !(name == named && w.pvs[name].phase == Released
                && w.pvs[name].managedBy == "huawei-sfs-operator" && w.pvs[name].claimRef.Some?) ==>
                  v.pvs[name] == w.pvs[name])
            && (name in v.pvs && name !in w.pvs ==> name == named)
            && (forall key | key in w.pvcs :: key in v.pvcs && v.pvcs[key] == w.pvcs[key])
            && (forall key | key in v.pvcs && key !in w.pvcs :: key == (Current(w).ns, named))
  {
    hide Inv, CloudAfter, Rewritten, CalmStep, BuildPV, BuildPVC;
    CalmPassEffect(r);
    RewrittenKeeps(r.worlds[0], Current(r.worlds[|r.acts|]));
  }

  /** A calm pass that reaches the volumes and finds neither object leaves a pair that points at each
      other and at the recorded share, with the operator's label, the wanted class and the wanted size:
      the claim size if one is given, and otherwise the size of the share in bytes. */
  lemma PairIsMutual(r: Run)
    requires CalmPass(r) && Workable(r.worlds[0]) && ReachesVolumes(r.worlds[0])
    requires var w, cr := r.worlds[0], Current(r.worlds[0]);
             cr.spec.pvcName !in w.pvs && (cr.ns, cr.spec.pvcName) !in w.pvcs
    ensures var v, cr := r.worlds[|r.acts|], Current(r.worlds[0]);
            var name, key := cr.spec.pvcName, (cr.ns, cr.spec.pvcName);
            && name in v.pvs && key in v.pvcs
            && var pv, pvc := v.pvs[name], v.pvcs[key];
               && pvc.volumeName == name && pv.claimRef == Some(ClaimRef(cr.ns, name, 0))
               && pv.volumeHandle == cr.status.fsId
               && pv.exportLocation == r.worlds[0].cloud[cr.status.fsId].info.exportLocation
               && pv.managedBy == "huawei-sfs-operator" && pvc.managedBy == "huawei-sfs-operator"
               && pv.ownedBy == (cr.ns, cr.name) && pvc.ownedBy == (cr.ns, cr.name)
               && pv.storageClass == (if cr.spec.storageClass == "" then "csi-sfsturbo-perinstance" else cr.spec.storageClass)
               && pvc.storageClass == pv.storageClass
               && pv.capacity == (if cr.spec.pvcSize.Bytes? then cr.spec.pvcSize.n else cr.spec.size * 1_073_741_824)
               && pvc.request == pv.capacity && !pv.terminating && !pvc.terminating
  {
    hide Inv, CloudAfter, Rewritten, CalmStep;
    CalmPassEffect(r);
    RewrittenKeeps(r.worlds[0], Current(r.worlds[|r.acts|]));
  }
}
