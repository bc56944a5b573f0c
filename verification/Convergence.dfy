/** Where calm passes lead when the cloud finishes what it was asked to do. */
module Convergence {
  import opened Conditions
  import opened Types
  import opened Poll
  import opened Protocol
  import opened Safety
  import opened PollEnds
  import opened Calm

  // ---------------------------------------------------------------- rounds

  /** The size a share has once its expansion, if any, is done. */
  function Reach(s: Share): nat {
    if s.target > s.info.size then s.target else s.info.size
  }

  /** The cloud has completed the operations in progress on a share. */
  predicate SettledShare(s: Share, t: Share) {
    && CloudMay(s, t)
    && t.info.size == Reach(s) && t.target == 0
    && t.info.sg == (if s.info.subStatus == "132" && s.sgTarget != "" then s.sgTarget else s.info.sg)
    && t.info.subStatus != "132" && t.info.status == "200" && t.info.exportLocation != ""
  }

  ghost predicate Settles(w: World, v: World) {
    && w.hist != []
    && var id := Current(w).status.fsId;
       if id in w.cloud then id in v.cloud && SettledShare(w.cloud[id], v.cloud[id]) && v == SetShare(w, id, v.cloud[id])
       else v == w
  }

  /** One calm pass, and then the cloud settles. */
  ghost predicate Round(w: World, v: World) {
    exists r: Run :: CalmPass(r) && r.worlds[0] == w && Settles(r.worlds[|r.acts|], v)
  }

  ghost predicate Rounds(ws: seq<World>) {
    |ws| > 0 && forall i | 0 <= i < |ws| - 1 :: Round(ws[i], ws[i + 1])
  }

  // ---------------------------------------------------------------- the goal and the obstacle

  /** The live share is what the spec asks for, except that it may be larger. */
  predicate Reconciled(w: World)
    requires w.hist != []
  {
    var h := Current(w);
    var id := h.status.fsId;
    && h.finalizer && id != NO_FS && id in w.cloud
    && var i := w.cloud[id].info;
       && i.status == "200" && i.exportLocation != "" && i.size >= h.spec.size
       && (h.spec.sg != "" ==> i.sg == h.spec.sg) && i.subStatus != "132"
       && w.cloud[id].tags == h.spec.tags && HasVolumes(w)
  }

  /** The expansion marker is set, and the share is not going to reach the wanted size. */
  ghost predicate Stuck(w: World)
    requires w.hist != []
  {
    && HasTrue(Current(w).status.conditions, Expanding)
    && exists id | id in w.cloud :: w.cloud[id].name == w.fsName && Reach(w.cloud[id]) < Current(w).spec.size
  }

  /** No share of ours is, or is growing, beyond the wanted size. */
  ghost predicate InSize(w: World)
    requires w.hist != []
  {
    forall id | id in w.cloud && w.cloud[id].name == w.fsName :: Reach(w.cloud[id]) <= Current(w).spec.size
  }

  /** How far the resource is from the goal. */
  function Rank(w: World): nat
    requires w.hist != []
  {
    var h := Current(w);
    var id := h.status.fsId;
    if !h.finalizer then 8
    else if id == NO_FS then 6
    else if id !in w.cloud then 7
    else
      var i := w.cloud[id].info;
      if i.status != "200" || i.exportLocation == "" then 5
      else if i.size < h.spec.size then 4
      else if i.subStatus == "132" then 3
      else if h.spec.sg != "" && i.sg != h.spec.sg then 2
      else if w.cloud[id].tags != h.spec.tags || !HasVolumes(w) then 1
      else 0
  }

  // ---------------------------------------------------------------- one round

  lemma SettleKeepsInv(m: World, v: World)
    requires Inv(m) && Settles(m, v)
    ensures Inv(v)
  {
    hide Inv;
    var id := Current(m).status.fsId;
    if id in m.cloud {
      EnvKeeps(m, CloudWork(id, v.cloud[id]));
    }
  }

  /** What a round leaves of the object, as far as the way to the goal depends on it. */
  ghost predicate Carried(w: World, cr: Cr)
    requires w.hist != []
  {
    var h, b := Current(w), BranchOf(w);
    && cr == h.(finalizer := true, status := cr.status)
    && (match b
        case Creates => cr.status.fsId in CloudAfter(w) && CloudAfter(w)[cr.status.fsId].name == w.fsName
        case Recreates => cr.status.fsId == NO_FS
        case _ => cr.status.fsId == h.status.fsId)
    && (KeepsExpanding(w) ==> (HasTrue(cr.status.conditions, Expanding) <==> HasTrue(h.status.conditions, Expanding)))
  }

  ghost predicate KeepsExpanding(w: World)
    requires w.hist != []
  {
    match BranchOf(w)
    case Regroups => false
    case Completes => false
    case Expands => HasTrue(Current(w).status.conditions, Expanding)
    case _ => true
  }

  lemma ToldLeaves(cs: seq<Condition>, sets: seq<CondSet>, gen: nat, es: seq<Entry>, t: CondType)
    requires Told(es, sets, gen) && Silent(sets, t)
    ensures HasTrue(Replay(cs, es), t) <==> HasTrue(cs, t)
  {
    forall i | 0 <= i < |es| ensures es[i].say.ctype != t { assert es[i].say == sets[i] && sets[i] in sets; }
    ReplayLeaves(cs, es, t);
  }

  lemma EndSilent(h: Cr, end: PollEnd)
    requires end.Recreated? || end.GrowWaits?
    ensures Silent(EndSets(h, end), Expanding) && Silent(CreatedSets(), Expanding)
  {
  }

  lemma RewrittenCarries(w: World, cr: Cr)
    requires w.hist != [] && Rewritten(w, cr)
    ensures Carried(w, cr)
  {
    hide Ended, CloudAfter, HasTrue, Told, Replay, EndSets, BranchOf;
    RewrittenKeeps(w, cr);
    if KeepsExpanding(w) { ExpandingKept(w, cr); }
  }

  lemma ExpandingKept(w: World, cr: Cr)
    requires w.hist != [] && Rewritten(w, cr) && KeepsExpanding(w)
    ensures HasTrue(cr.status.conditions, Expanding) <==> HasTrue(Current(w).status.conditions, Expanding)
  {
    hide CloudAfter, HasTrue, Told, Replay, EndSets;
    var h := Current(w);
    if BranchOf(w).Creates? {
      var es :| CreatedAt(h, cr, es);
      EndSilent(h, Recreated);
      ToldLeaves(h.status.conditions, CreatedSets(), h.generation, es, Expanding);
    } else if BranchOf(w).Recreates? || BranchOf(w).Expands? {
      var es :| Ended(h, EndOf(w), cr, es);
      EndSilent(h, EndOf(w));
      KeepsConditions(h, EndOf(w));
      ToldLeaves(h.status.conditions, EndSets(h, EndOf(w)), h.generation, es, Expanding);
    }
  }

  /** What the share of the resource looks like after a round. */
  ghost predicate RoundEffect(w: World, v: World)
    requires w.hist != []
  {
    && v.hist != [] && !v.gone && v.fsName == w.fsName && v.pc == Idle
    && Carried(w, Current(v)) && HasVolumesAfter(w, v)
    && var id := Current(v).status.fsId;
       && v.cloud.Keys == CloudAfter(w).Keys
       && (forall a | a in v.cloud && a != id :: v.cloud[a] == CloudAfter(w)[a])
       && (id in v.cloud ==> SettledShare(CloudAfter(w)[id], v.cloud[id]))
  }

  ghost predicate HasVolumesAfter(w: World, v: World)
    requires w.hist != [] && v.hist != []
  {
    && (BranchOf(w).Completes? && w.cloud[Current(w).status.fsId].info.exportLocation != "" ==> HasVolumes(v))
  }

  lemma RoundHasEffect(w: World, v: World)
    requires Workable(w) && Round(w, v)
    ensures RoundEffect(w, v) && Inv(v)
  {
    hide Inv, CapacityOf, CloudAfter, Carried, BranchOf, SettledShare, PassEffect;
    var r: Run :| CalmPass(r) && r.worlds[0] == w && Settles(r.worlds[|r.acts|], v);
    var m := r.worlds[|r.acts|];
    CalmPassEffect(r);
    EffectCarries(w, m);
    SettleKeepsInv(m, v);
  }

  lemma EffectCarries(w: World, m: World)
    requires Workable(w) && PassEffect(w, m)
    ensures m.hist != [] && !m.gone && m.fsName == w.fsName && m.cloud == CloudAfter(w)
    ensures Carried(w, Current(m)) && HasVolumesAfter(w, m)
  {
    hide Inv, CloudAfter, Rewritten, Carried;
    RewrittenCarries(w, Current(m));
    RewrittenKeeps(w, Current(m));
    if BranchOf(w).Completes? { BranchHas(w); }
  }

  /** The shares of ours after a round are those after the pass, settled or not. */
  lemma OursAfter(w: World, v: World, a: nat)
    requires Workable(w) && RoundEffect(w, v) && Inv(v) && a in v.cloud && v.cloud[a].name == w.fsName
    ensures a in CloudAfter(w) && CloudAfter(w)[a].name == w.fsName
    ensures v.cloud[a].info.size == CloudAfter(w)[a].info.size || v.cloud[a].info.size == Reach(CloudAfter(w)[a])
    ensures Reach(v.cloud[a]) == Reach(CloudAfter(w)[a])
    ensures v.cloud[a].info.status in {"303", "308", "400"} ==> v.cloud[a] == CloudAfter(w)[a]
  {
    hide Inv, CloudAfter, Carried, BranchOf, CapacityOf;
  }

  /** The shares of ours after the pass: the ones before, or one that has just been created. */
  lemma OursBefore(w: World, a: nat)
    requires Workable(w) && a in CloudAfter(w) && CloudAfter(w)[a].name == w.fsName
    ensures CloudAfter(w)[a].info.size > 0 && CloudAfter(w)[a].info.status !in {"303", "308", "400"}
    ensures if a in w.cloud then w.cloud[a].name == w.fsName && CloudAfter(w)[a].info.size == w.cloud[a].info.size
            else BranchOf(w).Creates? && !NameTaken(w.cloud, w.fsName) && CloudAfter(w)[a] == NewShare(Current(w).spec)
  {
    hide Inv, CapacityOf;
    SpecName(w);
  }

  lemma RoundStaysWorkable(w: World, v: World)
    requires Workable(w) && RoundEffect(w, v) && Inv(v)
    ensures Workable(v) && Current(v).spec == Current(w).spec
  {
    hide Inv, CloudAfter, BranchOf, CapacityOf, SettledShare;
    forall a | a in v.cloud && v.cloud[a].name == v.fsName
      ensures v.cloud[a].info.size > 0 && v.cloud[a].info.status !in {"303", "308", "400"}
    {
      OursAfter(w, v, a);
      OursBefore(w, a);
    }
  }

  /** After a round that found or made a share, the share is available. */
  lemma Settled(w: World, v: World)
    requires Workable(w) && RoundEffect(w, v) && Current(v).status.fsId in v.cloud && Current(v).status.fsId != NO_FS
    ensures Rank(v) <= 4
  {
    hide Inv, CapacityOf, CloudAfter, BranchOf;
  }

  lemma EarlyFalls(w: World, v: World)
    requires Workable(w) && RoundEffect(w, v)
    requires var b := BranchOf(w); b.AddsFinalizer? || b.Recreates? || b.Creates? || b.Waits?
    ensures Rank(v) < Rank(w)
  {
    hide Inv, CapacityOf, SettledShare, IsAvailable, HasTrue;
    SpecName(w);
    if Current(v).status.fsId in v.cloud && Current(v).status.fsId != NO_FS { Settled(w, v); }
  }

  /** The share of a resource whose share is known is the same after the round. */
  lemma SameShare(w: World, v: World)
    requires Workable(w) && RoundEffect(w, v)
    requires (BranchOf(w).Expands? || BranchOf(w).Regroups? || BranchOf(w).Completes?)
    ensures var id := Current(w).status.fsId;
            && id in w.cloud && id in CloudAfter(w) && id in v.cloud && id != NO_FS && Current(v).status.fsId == id
            && Current(v).finalizer && Current(v).spec == Current(w).spec
            && w.cloud[id].info.status == "200" && w.cloud[id].info.size > 0
            && SettledShare(CloudAfter(w)[id], v.cloud[id])
  {
    hide Inv, CapacityOf, SettledShare, HasTrue;
    SpecName(w);
  }

  lemma ExpandsFalls(w: World, v: World)
    requires Workable(w) && RoundEffect(w, v) && !Stuck(w) && BranchOf(w).Expands?
    ensures Rank(v) < Rank(w)
  {
    hide Inv, CapacityOf, HasTrue, RoundEffect;
    SameShare(w, v);
    SpecName(w);
  }

  lemma RegroupsFalls(w: World, v: World)
    requires Workable(w) && RoundEffect(w, v) && BranchOf(w).Regroups?
    ensures Rank(v) < Rank(w)
  {
    hide Inv, CapacityOf, HasTrue, RoundEffect;
    SameShare(w, v);
  }

  lemma CompletesFalls(w: World, v: World)
    requires Workable(w) && RoundEffect(w, v) && BranchOf(w).Completes?
    ensures Rank(v) < Rank(w) || Rank(v) == Rank(w) == 0
  {
    hide Inv, CapacityOf, HasTrue, RoundEffect;
    SameShare(w, v);
    VolumesAfter(w, v);
  }

  lemma VolumesAfter(w: World, v: World)
    requires Workable(w) && RoundEffect(w, v)
    ensures HasVolumesAfter(w, v)
  {
    hide Inv, CapacityOf, HasTrue, CloudAfter, BranchOf;
  }

  /** Every round brings a resource that is not stuck closer, until nothing is left to do. */
  lemma RankFalls(w: World, v: World)
    requires Workable(w) && RoundEffect(w, v) && !Stuck(w)
    ensures Rank(v) < Rank(w) || Rank(v) == Rank(w) == 0
  {
    hide Inv, CapacityOf, RoundEffect, Stuck, Rank, BranchOf;
    match BranchOf(w)
    case Expands => ExpandsFalls(w, v);
    case Regroups => RegroupsFalls(w, v);
    case Completes => CompletesFalls(w, v);
    case _ => EarlyFalls(w, v);
  }

  lemma StuckStays(w: World, v: World)
    requires Workable(w) && RoundEffect(w, v) && Inv(v) && Stuck(w)
    ensures Stuck(v)
  {
    hide Inv, CapacityOf, HasTrue, SettledShare;
    SpecName(w);
    var a :| a in w.cloud && w.cloud[a].name == w.fsName && Reach(w.cloud[a]) < Current(w).spec.size;
    assert CloudAfter(w) == w.cloud;
    assert a in v.cloud;
    NameStays(w, v, a);
    OursAfter(w, v, a);
  }

  lemma NameStays(w: World, v: World, a: nat)
    requires Workable(w) && RoundEffect(w, v) && a in v.cloud
    ensures a in CloudAfter(w) && v.cloud[a].name == CloudAfter(w)[a].name
  {
    hide Inv, CloudAfter, Carried, BranchOf, CapacityOf;
  }

  lemma StuckIsNotNew(w: World, v: World)
    requires Workable(w) && RoundEffect(w, v) && Inv(v) && Stuck(v)
    ensures Stuck(w)
  {
    hide Inv, CapacityOf, HasTrue, SettledShare;
    SpecName(w);
    var a :| a in v.cloud && v.cloud[a].name == v.fsName && Reach(v.cloud[a]) < Current(v).spec.size;
    OursAfter(w, v, a);
    OursBefore(w, a);
  }

  lemma InSizeStays(w: World, v: World)
    requires Workable(w) && RoundEffect(w, v) && Inv(v) && InSize(w)
    ensures InSize(v)
  {
    hide Inv, CapacityOf, HasTrue, SettledShare;
    forall a | a in v.cloud && v.cloud[a].name == v.fsName ensures Reach(v.cloud[a]) <= Current(v).spec.size {
      OursAfter(w, v, a);
      OursBefore(w, a);
    }
  }

  lemma ReconciledIsRankZero(w: World)
    requires Workable(w)
    ensures Rank(w) == 0 <==> Reconciled(w)
    ensures Reconciled(w) ==> !Stuck(w)
    ensures Reconciled(w) && InSize(w) ==> w.cloud[Current(w).status.fsId].info.size == Current(w).spec.size
  {
    hide Inv, CapacityOf, HasTrue;
    SpecName(w);
  }

  lemma RoundFacts(w: World, v: World)
    requires Workable(w) && Round(w, v)
    ensures Workable(v) && Current(v).spec == Current(w).spec
    ensures Stuck(v) <==> Stuck(w)
    ensures !Stuck(w) ==> Rank(v) < Rank(w) || Rank(v) == Rank(w) == 0
    ensures InSize(w) ==> InSize(v)
  {
    hide Inv, CapacityOf, RoundEffect, Stuck, Rank, InSize, Round;
    RoundHasEffect(w, v);
    RoundStaysWorkable(w, v);
    if Stuck(w) { StuckStays(w, v); } else { RankFalls(w, v); }
    if Stuck(v) { StuckIsNotNew(w, v); }
    if InSize(w) { InSizeStays(w, v); }
  }

  lemma {:induction false} AfterRounds(ws: seq<World>, i: nat)
    requires Rounds(ws) && Workable(ws[0]) && i < |ws|
    ensures Workable(ws[i]) && Current(ws[i]).spec == Current(ws[0]).spec
    ensures Stuck(ws[i]) <==> Stuck(ws[0])
    ensures !Stuck(ws[0]) ==> Rank(ws[i]) == 0 || Rank(ws[i]) + i <= Rank(ws[0])
    ensures InSize(ws[0]) ==> InSize(ws[i])
  {
    hide Inv, CapacityOf, Stuck, Rank, InSize, Round;
    if i > 0 {
      AfterRounds(ws, i - 1);
      RoundFacts(ws[i - 1], ws[i]);
    }
  }

  /** From any workable state of any run, after at most eight rounds and for ever after, the live share
      is what the spec asks for, exactly when the resource was not stuck behind an expansion marker. If
      no share of ours was larger than wanted, its size is the wanted one as well. */
  lemma Converges(ws: seq<World>, i: nat)
    requires Rounds(ws) && Workable(ws[0]) && 8 <= i < |ws|
    ensures Workable(ws[i]) && Current(ws[i]).spec == Current(ws[0]).spec
    ensures Reconciled(ws[i]) <==> !Stuck(ws[0])
    ensures !Stuck(ws[0]) ==>
              var spec, id := Current(ws[0]).spec, Current(ws[i]).status.fsId;
              && id in ws[i].cloud && ws[i].cloud[id].name == spec.fsName
              && var share := ws[i].cloud[id];
                 && share.info.status == "200" && share.info.size >= spec.size && share.tags == spec.tags
                 && (spec.sg != "" ==> share.info.sg == spec.sg)
                 && (InSize(ws[0]) ==> share.info.size == spec.size)
  {
    hide Inv, CapacityOf, Stuck, Rank, InSize, Round, Reconciled;
    AfterRounds(ws, i);
    assert Rank(ws[0]) <= 8 by { RankBound(ws[0]); }
    ReconciledIsRankZero(ws[i]);
    if !Stuck(ws[0]) { ReconciledValues(ws[i]); }
  }

  lemma ReconciledValues(w: World)
    requires Workable(w) && Reconciled(w)
    ensures var spec, id := Current(w).spec, Current(w).status.fsId;
            && id in w.cloud && w.cloud[id].name == spec.fsName
            && var share := w.cloud[id];
               && share.info.status == "200" && share.info.size >= spec.size && share.tags == spec.tags
               && (spec.sg != "" ==> share.info.sg == spec.sg)
  {
    hide Inv, CapacityOf, HasTrue;
    SpecName(w);
  }

  lemma RankBound(w: World)
    requires w.hist != []
    ensures Rank(w) <= 8
  {
  }

  /** A share larger than wanted stays so: the operator refuses to shrink it, and goes on all the same. */
  lemma RefusedShrinkStays(w: World, v: World)
    requires Workable(w) && Round(w, v)
    requires Current(w).status.fsId in w.cloud && Current(w).finalizer
    requires w.cloud[Current(w).status.fsId].info.size > Current(w).spec.size
    ensures Current(v).status.fsId == Current(w).status.fsId && Current(v).status.fsId in v.cloud
    ensures v.cloud[Current(v).status.fsId].info.size > Current(v).spec.size && !Stuck(w)
  {
    hide Inv, CapacityOf, HasTrue, Round, CloudAfter, Stuck, Workable;
    RoundHasEffect(w, v);
    LargeStays(w);
  }

  lemma LargeStays(w: World)
    requires Workable(w) && Current(w).status.fsId in w.cloud && Current(w).finalizer
    requires w.cloud[Current(w).status.fsId].info.size > Current(w).spec.size
    ensures !BranchOf(w).Creates? && !BranchOf(w).Recreates? && !BranchOf(w).Expands? && !Stuck(w)
    ensures var id := Current(w).status.fsId;
            id in CloudAfter(w) && CloudAfter(w)[id].info.size == w.cloud[id].info.size
  {
    hide Inv, CapacityOf, HasTrue;
    SpecName(w);
  }
}
