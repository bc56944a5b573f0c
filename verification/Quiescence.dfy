/** Once the live share is what the spec asks for and one pass has gone through, nothing moves any more. */
module Quiescence {
  import opened Conditions
  import opened Types
  import opened Poll
  import opened Protocol
  import opened Safety
  import opened Passes
  import opened PollEnds
  import opened Calm
  import opened Convergence

  predicate HasShare(w: World) {
    && w.hist != []
    && Current(w).finalizer && !Current(w).deleted && !Current(w).spec.paused
    && Current(w).status.fsId != NO_FS && Current(w).status.fsId in w.cloud
  }

  function Live(w: World): Share
    requires HasShare(w)
  {
    w.cloud[Current(w).status.fsId]
  }

  /** The live share matches the spec in every respect. */
  predicate Matched(w: World) {
    && HasShare(w)
    && var i := Live(w).info;
       && i.status == "200" && i.subStatus != "132"
       && (i.size > 0 ==> i.size == Current(w).spec.size) && !ImmutableDiffers(Current(w).spec, i)
       && (Current(w).spec.sg != "" ==> i.sg == Current(w).spec.sg) && Live(w).tags == Current(w).spec.tags
  }

  /** The status says so. */
  predicate Synced(w: World)
    requires HasShare(w)
  {
    var cr, i := Current(w), Live(w).info;
    var cs := cr.status.conditions;
    && cr.status.exportPath == i.exportLocation && cr.status.size == i.size && cr.status.sg == i.sg
    && cr.status.tags == Live(w).tags && cr.status.observedGeneration == cr.generation
    && Says(cs, CondSet(Ready, True, FsCreated, About(i.exportLocation)), cr.generation)
    && Says(cs, CondSet(Provisioning, False, FsCreated, Fixed), cr.generation)
    && Says(cs, CondSet(Failed, False, FsCreated, Fixed), cr.generation)
    && (HasTrue(cs, Expanding) ==> i.size == 0) && !HasTrue(cs, UpdatingSecurityGroup)
  }

  predicate VolumeQuiet(w: World)
    requires w.hist != []
  {
    && Current(w).spec.pvcName in w.pvs
    && var pv := w.pvs[Current(w).spec.pvcName];
       !(pv.phase == Released && pv.managedBy == "huawei-sfs-operator" && pv.claimRef.Some?)
  }

  /** The volume objects, if the operator looks after them, need nothing. */
  predicate VolumesQuiet(w: World)
    requires w.hist != []
  {
    WantsPv(Current(w)) ==> VolumeQuiet(w) && (Current(w).ns, Current(w).spec.pvcName) in w.pvcs
  }

  ghost predicate AtRest(w: World) {
    Inv(w) && w.pc == Idle && !w.gone && Matched(w) && Synced(w) && VolumesQuiet(w)
  }

  // ---------------------------------------------------------------- a pass at rest

  ghost predicate MidRest(w: World, v: World)
    requires HasShare(w)
  {
    && v.pc.At? && Same(w, v)
    && match v.pc.call
       case ReadCr => v.pc.reply == Got(AsRead(w))
       case ShowShare(s) => s == AsRead(w) && v.pc.reply == Info(Live(w).info)
       case ShowTags(s, i) => s == AsRead(w) && v.pc.reply == Tags(Live(w).tags)
       case UpdateStatus(s, why) => s == AsRead(w) && why.Settled? && v.pc.reply == Got(AsRead(w))
       case GetPv(s) => s == AsRead(w) && VolumeQuiet(w) && v.pc.reply == PvIs(w.pvs[Current(w).spec.pvcName]) && WantsPv(Current(w))
       case GetPvc(s) => s == AsRead(w) && v.pc.reply.PvcIs?
       case _ => false
  }

  /** The updates of a poll that finds everything as it was said change nothing. */
  lemma NothingToSay(w: World, es: seq<Entry>)
    requires Matched(w) && Synced(w)
    requires Told(es, SizedSets(Current(w), Live(w).info) + SgDoneSets(Current(w), Live(w).info), Current(w).generation)
    ensures Noted(ObservedSg(Current(w), Live(w).info), es) == Current(w)
  {
    var cr, i := Current(w), Live(w).info;
    var sets := SizedSets(cr, i) + SgDoneSets(cr, i);
    assert sets == ReadySets(i) by {
      assert ResizeSets(cr, i) == [] && DriftSets(cr.spec, i) == [] && SgDoneSets(cr, i) == [];
    }
    forall k | 0 <= k < |es| ensures Says(cr.status.conditions, es[k].say, es[k].generation) {
      assert es[k].say in ReadySets(i);
    }
    ReplayIdle(cr.status.conditions, es);
  }

  lemma RestFromShow(w: World, s: Snap, i: ShareInfo, c: Call, es: seq<Entry>)
    requires AtRest(w) && s == AsRead(w) && i == Live(w).info && FollowsPoll(s, Info(i), c, es)
    ensures c == ShowTags(s, i)
  {
    hide Inv, Synced, SizedSets, SgDoneSets, Replay;
    NothingToSay(w, es);
  }

  lemma RestFromTags(w: World, s: Snap, i: ShareInfo, c: Call, es: seq<Entry>)
    requires AtRest(w) && s == AsRead(w) && FollowsTags(s, i, Live(w).tags, false, c, es)
    ensures c == UpdateStatus(s, Settled)
  {
    hide Inv;
    var tags := Live(w).tags;
    assert Missing(tags, tags) == {} && Extra(tags, tags) == {};
    assert es == [];
  }

  lemma RestNext(w: World, v: World, c: Call, es: seq<Entry>)
    requires AtRest(w) && MidRest(w, v) && Follows(v.pc, c, es)
    ensures match c
            case ShowShare(s) => s == AsRead(w)
            case ShowTags(s, i) => s == AsRead(w) && i == Live(w).info
            case UpdateStatus(s, why) => s == AsRead(w) && why.Settled?
            case GetPv(s) => s == AsRead(w) && WantsPv(Current(w)) && VolumeQuiet(w)
            case GetPvc(s) => s == AsRead(w) && WantsPv(Current(w)) && VolumesQuiet(w)
            case _ => false
  {
    hide Inv, Synced, FollowsAvailable, FollowsTags, CapacityOf, HasTrue, ImmutableDiffers;
    var last, r := v.pc.call, v.pc.reply;
    if last.ShowShare? { RestFromShow(w, last.snap, r.info, c, es); }
    if last.ShowTags? { RestFromTags(w, last.snap, last.info, c, es); }
  }

  lemma RestCall(w: World, v: World, c: Call, o: Outcome, u: World)
    requires AtRest(w) && Same(w, v) && v.hist != [] && Possible(v, c, o) && Honest(v, c, o) && u == Perform(v, c, o)
    requires match c
             case ReadCr => true
             case ShowShare(s) => s == AsRead(w)
             case ShowTags(s, i) => s == AsRead(w) && i == Live(w).info
             case UpdateStatus(s, why) => s == AsRead(w) && why.Settled?
             case GetPv(s) => s == AsRead(w) && WantsPv(Current(w)) && VolumeQuiet(w)
             case GetPvc(s) => s == AsRead(w) && WantsPv(Current(w)) && VolumesQuiet(w)
             case _ => false
    ensures MidRest(w, u)
  {
    hide Inv, Synced, Perform, Tally, CapacityOf, StaleClaim;
    CalmShape(v, c, o);
  }

  lemma {:induction false} RestStays(r: Run, i: nat)
    requires CalmPass(r) && AtRest(r.worlds[0]) && 0 < i < |r.acts|
    ensures MidRest(r.worlds[0], r.worlds[i])
  {
    hide AtRest, MidRest, Follows, Possible, Honest, Perform;
    var w, v, u, a := r.worlds[0], r.worlds[i - 1], r.worlds[i], r.acts[i - 1];
    assert CalmStep(v, a, u) && u.pc.At?;
    var es :| May(v, a, es) && u == Next(v, a);
    assert a.Do?;
    if i == 1 {
      FirstIsRead(v.pc, a.call, es);
    } else {
      RestStays(r, i - 1);
      RestIsSame(w, v);
      RestNext(w, v, a.call, es);
    }
    RestCall(w, v, a.call, a.outcome, u);
  }

  lemma RestIsSame(w: World, v: World)
    requires AtRest(w) && MidRest(w, v)
    ensures Same(w, v)
  {
  }

  /** A calm pass over a resource at rest is the identity on every store at every step, transition
      times included, and its calls are reads and one status write that changes nothing. */
  lemma PassAtRest(r: Run, i: nat)
    requires CalmPass(r) && AtRest(r.worlds[0]) && i < |r.worlds|
    ensures Same(r.worlds[0], r.worlds[i])
    ensures i < |r.acts| && r.acts[i].Do? && Mutates(r.acts[i].call) ==> r.acts[i].call == UpdateStatus(AsRead(r.worlds[0]), Settled)
    ensures i == |r.acts| ==> AtRest(r.worlds[i])
  {
    hide Inv, Synced, MidRest, Possible, Honest, Perform;
    var n := |r.acts|;
    var w := r.worlds[0];
    if 0 < i < n { RestStays(r, i); RestIsSame(w, r.worlds[i]); }
    if i == n {
      LastStep(r);
      RestStays(r, n - 1);
      RestIsSame(w, r.worlds[n - 1]);
      PassKeepsInv(r, n);
      SameAtRest(w, r.worlds[n]);
    }
    if i < n {
      assert CalmStep(r.worlds[i], r.acts[i], r.worlds[i + 1]);
      var es :| May(r.worlds[i], r.acts[i], es) && r.worlds[i + 1] == Next(r.worlds[i], r.acts[i]);
      if r.acts[i].Do? {
        if i == 0 { FirstIsRead(w.pc, r.acts[i].call, es); } else { RestNext(w, r.worlds[i], r.acts[i].call, es); }
      }
    }
  }

  lemma SameAtRest(w: World, v: World)
    requires AtRest(w) && Same(w, v) && Inv(v) && v.pc == Idle
    ensures AtRest(v)
  {
    hide Inv;
  }

  lemma LastStep(r: Run)
    requires CalmPass(r)
    ensures var n := |r.acts|;
            && n > 1 && r.worlds[n] == r.worlds[n - 1].(pc := Idle)
  {
    hide Follows, Possible, Honest;
    var n := |r.acts|;
    var w, v, a := r.worlds[n - 1], r.worlds[n], r.acts[n - 1];
    assert CalmStep(w, a, v);
    var es :| May(w, a, es) && v == Next(w, a);
    if n == 1 { NoEnd(w, a, es, v); }
    LastIsEnd(w, a, es, v);
  }

  // ---------------------------------------------------------------- one pass brings it to rest

  /** The object as a full poll of the matching share leaves it. */
  ghost predicate Polished(w: World, cr: Cr)
    requires HasShare(w)
  {
    exists es :: Ended(Current(w), Full(Live(w).info, Aligned(Live(w).tags, false)), cr, es)
  }

  lemma PolishedIsSynced(w: World, v: World)
    requires Inv(w) && Matched(w) && v.hist != [] && v.cloud == w.cloud && Polished(w, Current(v))
    ensures Matched(v) && Synced(v)
  {
    hide Inv, FullSets, Replay, HasTrue, Says, Keeps, ImmutableDiffers;
    SpecName(w);
    var h, i := Current(w), Live(w).info;
    var end := Full(i, Aligned(Live(w).tags, false));
    var es :| Ended(h, end, Current(v), es);
    EndValues(h, end, Current(v), es);
    PollVerdict(h, i, end.tags, es);
  }

  lemma MatchedEffect(w: World, v: World)
    requires Workable(w) && Matched(w) && PassEffect(w, v)
    ensures v.hist != [] && v.cloud == w.cloud && !v.gone && Polished(w, Current(v)) && VolumesQuiet(v)
  {
    hide Inv, HasTrue, Ended, BuildPV, BuildPVC, PvsAfter, PvcsAfter;
    assert w.cloud[Current(w).status.fsId].(tags := Live(w).tags) == Live(w);
    RewrittenKeeps(w, Current(v));
    if WantsPv(Current(v)) { VolumesRest(w, v); }
  }

  lemma VolumesRest(w: World, v: World)
    requires w.hist != [] && v.hist != [] && WantsPv(Current(v))
    requires v.pvs == PvsAfter(w, Current(v)) && v.pvcs == PvcsAfter(w, Current(v))
    ensures VolumesQuiet(v)
  {
  }

  /** One calm pass over a share that matches the spec brings the resource to rest. */
  lemma OnePassBringsToRest(r: Run)
    requires CalmPass(r) && Workable(r.worlds[0]) && Matched(r.worlds[0])
    ensures AtRest(r.worlds[|r.acts|]) && r.worlds[|r.acts|].cloud == r.worlds[0].cloud
  {
    hide Inv, CapacityOf, Matched, PassEffect, CalmStep;
    CalmPassEffect(r);
    MatchedEffect(r.worlds[0], r.worlds[|r.acts|]);
    PolishedIsSynced(r.worlds[0], r.worlds[|r.acts|]);
  }

  /** A sequence of calm passes, each beginning where the one before ended. */
  ghost predicate PassAfterPass(ps: seq<Run>) {
    && (forall k | 0 <= k < |ps| :: CalmPass(ps[k]))
    && (forall k | 0 < k < |ps| :: ps[k].worlds[0] == ps[k - 1].worlds[|ps[k - 1].acts|])
  }

  /** Quiescence: when the live share matches the spec and one pass has gone through, every world of
      every later pass has the same stores as the world after that pass. */
  lemma {:induction false} Quiescent(ps: seq<Run>, k: nat, i: nat)
    requires PassAfterPass(ps) && 0 < k < |ps| && Workable(ps[0].worlds[0]) && Matched(ps[0].worlds[0])
    requires i < |ps[k].worlds|
    ensures Same(ps[0].worlds[|ps[0].acts|], ps[k].worlds[i])
    ensures AtRest(ps[k].worlds[|ps[k].acts|])
  {
    hide Inv, Workable, Matched, AtRest, CalmStep;
    if k == 1 {
      OnePassBringsToRest(ps[0]);
    } else {
      Quiescent(ps, k - 1, |ps[k - 1].acts|);
    }
    PassAtRest(ps[k], i);
    PassAtRest(ps[k], |ps[k].acts|);
  }

  /** What convergence ends in is what quiescence starts from, unless an immutable field differs. */
  lemma ReconciledMatches(w: World)
    requires Workable(w) && Reconciled(w) && InSize(w)
    requires !ImmutableDiffers(Current(w).spec, w.cloud[Current(w).status.fsId].info)
    ensures Matched(w)
  {
    hide Inv, CapacityOf, HasTrue;
    ReconciledIsRankZero(w);
  }
}
