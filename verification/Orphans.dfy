/** What can be left behind in the cloud when the finalizer is removed under policy Delete. */
module Orphans {
  import opened Conditions
  import opened Types
  import opened Protocol
  import opened Safety

  ghost predicate Recorded(w: World, id: nat) {
    exists i | 0 <= i < |w.hist| :: w.hist[i].status.fsId == id
  }

  /** A share of ours that no version of the resource ever recorded. */
  ghost predicate Unrecorded(w: World, id: nat) {
    id in w.log.minted && id in w.cloud && !Recorded(w, id)
  }

  lemma FinalizerGround(w: World, s: Snap)
    requires VersionsOk(w) && CallOk(w, RemoveFinalizer(s)) && Accepts(w, RemoveFinalizer(s))
    ensures Current(w).status.fsId == s.cr.status.fsId
    ensures s.cr.spec.policy == Delete ==> Dead(w, s.cr.status.fsId)
  {
  }

  /** When the operator removes the finalizer under policy Delete, one of our shares is left exactly
      when one exists whose id was never persisted: everything that was ever recorded is gone. */
  lemma OrphansAreUnrecorded(w: World, s: Snap, o: Outcome, es: seq<Entry>)
    requires Inv(w) && May(w, Do(RemoveFinalizer(s), o), es) && !o.Refused? && s.cr.spec.policy == Delete
    ensures var v := Perform(w, RemoveFinalizer(s), o);
            && (forall id | id in v.log.minted && id in v.cloud :: !Recorded(v, id))
            && (NameTaken(v.cloud, v.fsName) <==> exists id :: Unrecorded(v, id))
  {
    hide CallOk, IssuedOk, SizeOk, CountOk, PcOk, Follows;
    var v := Perform(w, RemoveFinalizer(s), o);
    FollowsOk(w, RemoveFinalizer(s), es);
    FinalizerGround(w, s);
    forall id | id in v.log.minted && id in v.cloud ensures !Recorded(v, id) {
      forall i | 0 <= i < |v.hist| ensures v.hist[i].status.fsId != id {
        assert i < |w.hist| ==> v.hist[i] == w.hist[i];
      }
    }
    if NameTaken(v.cloud, v.fsName) {
      var id :| id in v.cloud && v.cloud[id].name == v.fsName;
      assert Unrecorded(v, id);
    }
  }

  // ---------------------------------------------------------------- fresh reads

  /** The read of a pass returns the current version. */
  ghost predicate FreshAct(w: World, a: Act) {
    a.Do? && a.call.ReadCr? && a.outcome.Answered? && a.outcome.reply.Got? ==> a.outcome.reply.snap.rv == |w.hist| - 1
  }

  ghost predicate FreshRun(r: Run) {
    IsRun(r) && forall i | 0 <= i < |r.acts| :: FreshAct(r.worlds[i], r.acts[i])
  }

  ghost predicate OnlyOurs(w: World, id: nat) {
    forall a | a in w.log.minted && a in w.cloud :: a == id
  }

  /** Until it writes, a pass works from the current status. */
  ghost predicate Undisturbed(w: World) {
    w.pc.At? && !WritesCr(w.pc.call) && (if w.pc.call.ReadCr? then w.pc.reply.Got? else BeforeWrite(w.pc.call)) ==>
      forall j | w.cache <= j < |w.hist| :: w.hist[j].status == w.hist[w.cache].status
  }

  ghost predicate FreshInv(w: World) {
    && w.hist != []
    && (forall id | id in w.log.minted && id in w.cloud :: id == Current(w).status.fsId || Current(w).status.fsId == NO_FS)
    && Undisturbed(w)
    && (w.pc.At? && w.pc.call.CreateShare? && w.pc.reply.Minted? ==> OnlyOurs(w, w.pc.reply.id))
    && (w.pc.At? && w.pc.call.ListShares? && w.pc.reply.Shares? ==>
          var id := FirstNamed(w.pc.reply.list, w.pc.call.snap.cr.spec.fsName);
          id != NO_FS ==> OnlyOurs(w, id))
  }

  lemma EnvStatus(w: World, e: EnvAct)
    requires CloudOk(w) && w.hist != [] && EnvMay(w, e)
    ensures var v := EnvStep(w, e);
            && |w.hist| <= |v.hist| && v.log.minted == w.log.minted && v.cache == w.cache
            && (v.pc == w.pc || v.pc == Idle)
            && (forall j | 0 <= j < |w.hist| :: v.hist[j] == w.hist[j])
            && (forall j | |w.hist| <= j < |v.hist| :: v.hist[j].status == Current(w).status)
            && (forall id | id in v.log.minted && id in v.cloud :: id in w.cloud)
  {
  }

  lemma FreshEnv(w: World, e: EnvAct)
    requires VersionsOk(w) && CloudOk(w) && w.hist != [] && EnvMay(w, e) && FreshInv(w)
    ensures FreshInv(EnvStep(w, e))
  {
    hide EnvStep, EnvMay, CloudOk;
    EnvStatus(w, e);
  }

  /** Calls that neither create a share nor write the status. */
  lemma FreshQuiet(w: World, c: Call, o: Outcome, es: seq<Entry>)
    requires VersionsOk(w) && CloudOk(w) && CallOk(w, c) && w.hist != [] && Possible(w, c, o) && FreshInv(w)
    requires PcOk(w) && Follows(w.pc, c, es) && !c.UpdateStatus? && (c.CreateShare? ==> o.Refused?) && !c.ReadCr?
    ensures FreshInv(Perform(w, c, o))
  {
    hide Follows, CallOk, VersionsOk, PcOk;
    var v := Perform(w, c, o);
    CacheBound(w);
    FreshCloud(w, c, o);
    if !WritesCr(c) && BeforeWrite(c) {
      StillUndisturbed(w, c, es);
    }
    if c.ListShares? && v.pc.reply.Shares? {
      ListedIsOurs(w, c, v.pc.reply.list);
    }
  }

  lemma CacheBound(w: World)
    requires VersionsOk(w)
    ensures w.cache < |w.hist|
  {
  }

  lemma FreshEffect(w: World, c: Call)
    requires w.hist != [] && Accepts(w, c) && !c.UpdateStatus? && !c.CreateShare? && !c.ReadCr?
    ensures var e := Effect(w, c);
            && e.cloud.Keys == w.cloud.Keys && e.log == w.log && e.cache == w.cache
            && e.hist != [] && Current(e).status == Current(w).status && (!WritesCr(c) ==> e.hist == w.hist)
  {
    hide CapacityOf, BuildPV, BuildPVC, NameTaken;
  }

  lemma FreshCloud(w: World, c: Call, o: Outcome)
    requires w.hist != [] && Possible(w, c, o)
    requires !c.UpdateStatus? && (c.CreateShare? ==> o.Refused?) && !c.ReadCr?
    ensures var v := Perform(w, c, o);
            && v.cloud.Keys == w.cloud.Keys && v.log.minted == w.log.minted && v.cache == w.cache
            && v.hist != [] && Current(v).status == Current(w).status
            && (!WritesCr(c) ==> v.hist == w.hist)
  {
    hide Truthful, Effect, Accepts, Fits, Tally;
    MintsNothing(w, c, o);
    if !o.Refused? { FreshEffect(w, c); }
  }

  lemma MintsNothing(w: World, c: Call, o: Outcome)
    requires w.hist != [] && (c.CreateShare? ==> o.Refused?)
    ensures Tally(w, c, o).minted == w.log.minted
  {
  }

  lemma ListedIsOurs(w: World, c: Call, l: seq<Listed>)
    requires CloudOk(w) && CallOk(w, c) && c.ListShares? && ListsCloud(l, w.cloud) && VersionsOk(w)
    ensures var id := FirstNamed(l, c.snap.cr.spec.fsName); id != NO_FS ==> OnlyOurs(w, id)
  {
    FirstNamedListed(l, c.snap.cr.spec.fsName);
    assert w.hist[c.snap.rv].spec == c.snap.cr.spec;
  }

  /** A call made before the pass has written follows one of the same kind. */
  lemma StillBefore(w: World, last: Call, r: Reply, c: Call, es: seq<Entry>)
    requires Before(w, last, r) && Follows(At(last, r), c, es) && !c.ReadCr? && !WritesCr(c) && BeforeWrite(c)
    ensures !WritesCr(last) && if last.ReadCr? then r.Got? else BeforeWrite(last)
  {
  }

  lemma StillUndisturbed(w: World, c: Call, es: seq<Entry>)
    requires PcOk(w) && FreshInv(w) && Follows(w.pc, c, es) && !c.ReadCr? && !WritesCr(c) && BeforeWrite(c)
    ensures forall j | w.cache <= j < |w.hist| :: w.hist[j].status == w.hist[w.cache].status
  {
    hide CallOk, FollowsRead, FollowsCreate, FollowsPoll, FollowsDeleteGet;
    StillBefore(w, w.pc.call, w.pc.reply, c, es);
  }

  lemma FreshMint(w: World, s: Snap, o: Outcome, es: seq<Entry>)
    requires VersionsOk(w) && CloudOk(w) && CallOk(w, CreateShare(s)) && w.hist != [] && FreshInv(w) && PcOk(w)
    requires Possible(w, CreateShare(s), o) && !o.Refused? && Follows(w.pc, CreateShare(s), es)
    ensures FreshInv(Perform(w, CreateShare(s), o))
  {
    hide Follows;
    var v := Perform(w, CreateShare(s), o);
    MintShape(w, s, o);
    StillUndisturbed(w, CreateShare(s), es);
    assert w.hist[s.rv].spec == s.cr.spec;
    assert Current(w).status == w.hist[w.cache].status;
    assert !NameTaken(w.cloud, w.fsName);
    assert forall id | id in w.log.minted :: id !in w.cloud;
  }

  lemma FreshWrite(w: World, c: Call, o: Outcome, es: seq<Entry>)
    requires VersionsOk(w) && CloudOk(w) && CallOk(w, c) && w.hist != [] && FreshInv(w) && c.UpdateStatus?
    requires Possible(w, c, o) && Follows(w.pc, c, es)
    ensures FreshInv(Perform(w, c, o))
  {
    hide Follows, Undisturbed, CallOk, VersionsOk;
    var v := Perform(w, c, o);
    assert Undisturbed(v) by { WriteEnds(v); }
    if !o.Refused? {
      WriteShape(w, c, o);
      WriteGround(w, c);
      if c.why.CreatedNote? {
        CreatedIsOnly(w, c, es);
      } else {
        FsIdKept(w, c);
      }
    }
  }

  lemma WriteEnds(w: World)
    requires w.pc.At? && WritesCr(w.pc.call)
    ensures Undisturbed(w)
  {
  }

  lemma CreatedIsOnly(w: World, c: Call, es: seq<Entry>)
    requires FreshInv(w) && Follows(w.pc, c, es) && c.UpdateStatus? && c.why.CreatedNote?
    ensures OnlyOurs(w, c.snap.cr.status.fsId)
  {
  }

  lemma FsIdKept(w: World, c: Call)
    requires CallOk(w, c) && c.UpdateStatus? && !c.why.CreatedNote? && c.snap.rv == |w.hist| - 1
    ensures c.snap.cr.status.fsId == NO_FS || c.snap.cr.status.fsId == Current(w).status.fsId
  {
  }

  lemma FreshKeeps(w: World, a: Act, v: World)
    requires Inv(w) && FreshInv(w) && FreshAct(w, a) && Step(w, a, v)
    ensures FreshInv(v)
  {
    hide Inv, FreshInv, CallOk, Follows, Possible, EnvMay;
    InvParts(w);
    var es :| May(w, a, es) && v == Next(w, a);
    match a
    case Do(c, o) =>
      FollowsOk(w, c, es);
      if c.ReadCr? { FreshRead(w, o, es); }
      else if c.UpdateStatus? { FreshWrite(w, c, o, es); }
      else if c.CreateShare? && !o.Refused? { FreshMint(w, c.snap, o, es); }
      else { FreshQuiet(w, c, o, es); }
    case End(_) => FreshEnd(w, v);
    case Env(e) => FreshEnv(w, e);
  }

  lemma FreshEnd(w: World, v: World)
    requires FreshInv(w) && v == w.(pc := Idle)
    ensures FreshInv(v)
  {
  }

  lemma FreshRead(w: World, o: Outcome, es: seq<Entry>)
    requires FreshInv(w) && w.hist != [] && Possible(w, ReadCr, o) && FreshAct(w, Do(ReadCr, o))
    requires Follows(w.pc, ReadCr, es)
    ensures FreshInv(Perform(w, ReadCr, o))
  {
  }

  lemma {:induction false} FreshRunKeeps(r: Run, i: nat)
    requires FreshRun(r) && Initial(r.worlds[0]) && i < |r.worlds|
    ensures Inv(r.worlds[i]) && FreshInv(r.worlds[i])
  {
    hide Inv, FreshInv, Step;
    RunKeeps(r, i);
    if i == 0 {
      FreshInitial(r.worlds[0]);
    } else {
      FreshRunKeeps(r, i - 1);
      FreshKeeps(r.worlds[i - 1], r.acts[i - 1], r.worlds[i]);
    }
  }

  lemma FreshInitial(w: World)
    requires Initial(w)
    ensures FreshInv(w)
  {
  }

  /** With fresh reads, a share of ours can outlive the resource under policy Delete only when the
      finalizer was removed because no share was recorded. */
  lemma FreshOrphansNeedTheEmptyId(r: Run, i: nat, s: Snap, o: Outcome)
    requires FreshRun(r) && Initial(r.worlds[0]) && i < |r.acts|
    requires r.acts[i] == Do(RemoveFinalizer(s), o) && !o.Refused? && s.cr.spec.policy == Delete
    requires NameTaken(r.worlds[i + 1].cloud, r.worlds[i + 1].fsName)
    ensures s.cr.status.fsId == NO_FS
  {
    hide CallOk, IssuedOk, SizeOk, CountOk, PcOk, Follows;
    var w := r.worlds[i];
    FreshRunKeeps(r, i);
    assert Step(w, r.acts[i], r.worlds[i + 1]);
    var es :| May(w, r.acts[i], es) && r.worlds[i + 1] == Next(w, r.acts[i]);
    FollowsOk(w, RemoveFinalizer(s), es);
    FinalizerGround(w, s);
    var id :| id in w.cloud && w.cloud[id].name == w.fsName;
    assert id in w.log.minted;
  }
}
