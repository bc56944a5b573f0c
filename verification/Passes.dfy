/** What one pass may do to the cloud, and what a pause holds back. */
module Passes {
  import opened Conditions
  import opened Types
  import opened Poll
  import opened Protocol
  import opened Safety
  import opened Guarantees

  predicate IsTagCall(c: Call) { c.AddTag? || c.DeleteTag? }

  /** Additions followed by deletions. */
  ghost predicate TagRun(p: seq<Call>) {
    && (forall i | 0 <= i < |p| :: IsTagCall(p[i]))
    && (forall i, j | 0 <= i < j < |p| :: p[i].DeleteTag? ==> p[j].DeleteTag?)
  }

  /** No change, or exactly one of the four share operations, or a run of tag changes. */
  ghost predicate OneClass(p: seq<Call>) {
    TagRun(p) || (|p| == 1 && (p[0].CreateShare? || p[0].DeleteShare? || p[0].ExpandShare? || p[0].ChangeSg?))
  }

  /** A change of the security group or of a tag was decided on what this pass's ShowShare reported,
      and that report was not "security group changing"; an expansion was decided on a smaller size. */
  ghost predicate Informed(c: Call, seen: Option<ShareInfo>) {
    && (c.ChangeSg? || IsTagCall(c) ==> seen == Some(c.info) && c.info.subStatus != "132")
    && (c.ExpandShare? ==> seen == Some(c.info) && 0 < c.info.size < c.snap.cr.spec.size)
  }

  /** What the pass has done to the cloud by the time it holds the reply to `last`. */
  ghost predicate DoneBy(last: Call, p: seq<Call>) {
    match last
    case CreateShare(_) => p == [last]
    case ListShares(_, _) => |p| == 1 && p[0].CreateShare?
    case DeleteShare(_) => p == [last]
    case ExpandShare(_, _) => p == [last]
    case ChangeSg(_, _) => p == [last]
    case AddTag(_, _, _, _) => p != [] && TagRun(p) && forall i | 0 <= i < |p| :: p[i].AddTag?
    case DeleteTag(s, _, live, k) => p != [] && TagRun(p) && Missing(live, s.cr.spec.tags) == {} && k !in s.cr.spec.tags
    case UpdateStatus(_, why) =>
      if why.Settled? then TagRun(p) else if why.RetainNote? || why.GoneNote? then p == [] else OneClass(p)
    case GetPv(s) => if s.cr.deleted then p == [] else TagRun(p)
    case GetPvc(s) => if s.cr.deleted then p == [] else TagRun(p)
    case CreatePv(_) => TagRun(p)
    case UpdatePv(_, _) => TagRun(p)
    case CreatePvc(_) => TagRun(p)
    case _ => p == []
  }

  /** What the pass has been told about the share. */
  ghost predicate ToldBy(last: Call, r: Reply, seen: Option<ShareInfo>) {
    && (last.ReadCr? || last.CreateShare? ==> seen == None)
    && (last.ShowShare? ==> seen == if r.Info? then Some(r.info) else None)
    && (last.ShowTags? || IsTagCall(last) ==> seen == Some(last.info) && last.info.subStatus != "132")
  }

  ghost predicate PassOk(w: World) {
    && OneClass(w.log.pass)
    && (forall i | 0 <= i < |w.log.pass| :: Informed(w.log.pass[i], w.log.seen))
    && (w.pc.At? ==> DoneBy(w.pc.call, w.log.pass) && ToldBy(w.pc.call, w.pc.reply, w.log.seen))
  }

  // ---------------------------------------------------------------- which calls lead to which

  predicate OfVolumes(c: Call) {
    c.GetPv? || c.CreatePv? || c.UpdatePv? || c.GetPvc? || c.CreatePvc?
  }

  /** The calls that can come before `c` in a pass; between a call on the volumes of a deleted
      resource and one of a living resource there is a wall. */
  predicate Precedes(last: Call, r: Reply, c: Call) {
    match c
    case ReadCr => false
    case AddFinalizer(_) => last.ReadCr?
    case RemoveFinalizer(_) => last.ReadCr? || (last.UpdateStatus? && (last.why.RetainNote? || last.why.GoneNote?))
    case CreateShare(_) => last.ReadCr?
    case ListShares(_, _) => last.CreateShare?
    case ShowShare(_) => last.ReadCr?
    case ExpandShare(s, info) => last.ShowShare? && r == Info(info) && 0 < info.size < s.cr.spec.size
    case ChangeSg(_, info) => last.ShowShare? && r == Info(info) && info.subStatus != "132"
    case ShowTags(_, info) => last.ShowShare? && r == Info(info) && info.subStatus != "132"
    case AddTag(s, info, live, k) =>
      && (last.ShowTags? || IsTagCall(last)) && last.info == info
      && (last.DeleteTag? ==> live == last.live - {last.key} && last.snap == s)
      && k in Missing(live, s.cr.spec.tags)
    case DeleteTag(s, info, live, k) =>
      && (last.ShowTags? || IsTagCall(last)) && last.info == info
      && Missing(live, s.cr.spec.tags) == {} && k !in s.cr.spec.tags
    case UpdateStatus(_, why) =>
      (match why
       case Settled => last.ShowShare? || last.ShowTags? || IsTagCall(last)
       case RetainNote => last.ReadCr?
       case GoneNote => last.ShowShare?
       case _ => last.ReadCr? || last.ShowShare? || last.CreateShare? || last.ListShares? || last.DeleteShare? ||
                 last.ExpandShare? || last.ChangeSg?)
    case DeleteShare(_) => last.ShowShare? || last.DeletePv? || last.DeletePvc? || ((last.GetPv? || last.GetPvc?) && last.snap.cr.deleted)
    case DeletePv(_) => last.GetPv? && last.snap.cr.deleted
    case DeletePvc(_) => last.GetPvc? && last.snap.cr.deleted
    case _ =>
      if c.snap.cr.deleted then
        last.ShowShare? || last.DeletePvc? || ((last.GetPv? || last.GetPvc?) && last.snap.cr.deleted)
      else SettledBefore(last) || (OfVolumes(last) && !last.snap.cr.deleted)
  }

  predicate SettledBefore(last: Call) { last.UpdateStatus? && last.why.Settled? }

  lemma PrecedesAvailable(s: Snap, info: ShareInfo, c: Call, es: seq<Entry>)
    requires FollowsAvailable(s, info, c, es)
    ensures Precedes(ShowShare(s), Info(info), c)
  {
  }

  lemma PrecedesDeleteGet(s: Snap, r: Reply, c: Call, es: seq<Entry>)
    requires s.cr.deleted && FollowsDeleteGet(s, r, c, es)
    ensures Precedes(ShowShare(s), r, c)
  {
  }

  lemma PrecedesShow(s: Snap, r: Reply, c: Call, es: seq<Entry>)
    requires Follows(At(ShowShare(s), r), c, es)
    ensures Precedes(ShowShare(s), r, c)
  {
    hide FollowsAvailable, FollowsDeleteGet;
    if s.cr.deleted {
      PrecedesDeleteGet(s, r, c, es);
    } else if r.Info? && IsAvailable(r.info.status) {
      PrecedesAvailable(s, r.info, c, es);
    }
  }

  lemma PrecedesInTags(last: Call, r: Reply, c: Call, es: seq<Entry>)
    requires (last.ShowTags? || IsTagCall(last)) && FollowsTagCall(last, r, c, es)
    ensures Precedes(last, r, c)
  {
    hide Told, Missing, TagSets, TaggedCr;
  }

  lemma PrecedesTags(last: Call, r: Reply, c: Call, es: seq<Entry>)
    requires (last.ShowTags? || IsTagCall(last)) && Follows(At(last, r), c, es)
    ensures Precedes(last, r, c)
  {
    hide FollowsTagCall, Precedes;
    PrecedesInTags(last, r, c, es);
  }

  lemma PrecedesInCascade(last: Call, r: Reply, c: Call, es: seq<Entry>)
    requires last.GetPvc? || last.DeletePvc? || last.GetPv? || last.DeletePv?
    requires last.snap.cr.deleted && FollowsCascade(last, r, c, es)
    ensures Precedes(last, r, c)
  {
  }

  lemma PrecedesInEnsure(last: Call, r: Reply, c: Call, es: seq<Entry>)
    requires last.GetPv? || last.CreatePv? || last.UpdatePv? || last.GetPvc?
    requires !last.snap.cr.deleted && FollowsEnsure(last, r, c, es)
    ensures Precedes(last, r, c)
  {
    hide StaleClaim;
  }

  lemma PrecedesVolumes(last: Call, r: Reply, c: Call, es: seq<Entry>)
    requires (OfVolumes(last) || last.DeletePv? || last.DeletePvc?) && Follows(At(last, r), c, es)
    requires last.CreatePv? || last.UpdatePv? || last.CreatePvc? ==> !last.snap.cr.deleted
    requires last.DeletePv? || last.DeletePvc? ==> last.snap.cr.deleted
    ensures Precedes(last, r, c)
  {
    hide FollowsCascade, FollowsEnsure, Precedes;
    if last.snap.cr.deleted {
      PrecedesInCascade(last, r, c, es);
    } else if !last.CreatePvc? {
      PrecedesInEnsure(last, r, c, es);
    }
  }

  lemma PrecedesRead(r: Reply, c: Call, es: seq<Entry>)
    requires r.Got? && FollowsRead(r.snap, c, es)
    ensures Precedes(ReadCr, r, c)
  {
  }

  lemma PrecedesWrite(last: Call, r: Reply, c: Call, es: seq<Entry>)
    requires last.UpdateStatus? && FollowsWrite(last, r, c, es)
    requires SettledBefore(last) ==> !Held(last, r).cr.deleted
    ensures Precedes(last, r, c)
  {
  }

  lemma PrecedesOther(last: Call, r: Reply, c: Call, es: seq<Entry>)
    requires last.CreateShare? || last.ListShares? || last.DeleteShare? || last.ExpandShare? || last.ChangeSg?
    requires Follows(At(last, r), c, es)
    ensures Precedes(last, r, c)
  {
  }

  lemma SettledIsAlive(w: World, last: Call, r: Reply)
    requires Before(w, last, r) && SettledBefore(last)
    ensures !Held(last, r).cr.deleted
  {
  }

  lemma FollowsPrecedes(w: World, c: Call, es: seq<Entry>)
    requires w.pc.At? && PcOk(w) && Follows(w.pc, c, es)
    ensures Precedes(w.pc.call, w.pc.reply, c)
  {
    hide CallOk, ReplyOk, Precedes, FollowsRead, FollowsCreate, FollowsList, FollowsDeleteGet, FollowsPoll, FollowsExpand,
         FollowsSg, FollowsTagCall, FollowsCascade, FollowsEnsure, FollowsWrite;
    var last, r := w.pc.call, w.pc.reply;
    VolumePhase(w, last);
    if last.ShowShare? { PrecedesShow(last.snap, r, c, es); }
    else if last.ShowTags? || IsTagCall(last) { PrecedesTags(last, r, c, es); }
    else if OfVolumes(last) || last.DeletePv? || last.DeletePvc? { PrecedesVolumes(last, r, c, es); }
    else if last.ReadCr? { PrecedesRead(r, c, es); }
    else if last.UpdateStatus? {
      if SettledBefore(last) { SettledIsAlive(w, last, r); }
      PrecedesWrite(last, r, c, es);
    }
    else { PrecedesOther(last, r, c, es); }
  }

  // ---------------------------------------------------------------- every pass

  lemma PassLogged(w: World, c: Call, o: Outcome)
    requires w.hist != [] && Possible(w, c, o)
    ensures var v := Perform(w, c, o);
            && v.pc == At(c, ReplyOf(o))
            && v.log.pass == (if c.ReadCr? then [] else if MutatesCloud(c) then w.log.pass + [c] else w.log.pass)
            && v.log.seen == if c.ReadCr? then None
                             else if c.ShowShare? && v.pc.reply.Info? then Some(v.pc.reply.info) else w.log.seen
    ensures o.Answered? && c.ShowShare? ==> o.reply.Info?
  {
  }

  /** Deleting a tag that is not desired does not make another one missing. */
  lemma MissingAfterDelete(live: map<string, string>, k: string, desired: map<string, string>)
    requires k !in desired
    ensures Missing(live - {k}, desired) == Missing(live, desired)
  {
  }

  lemma TagAdvances(last: Call, r: Reply, p: seq<Call>, seen: Option<ShareInfo>, c: Call)
    requires DoneBy(last, p) && ToldBy(last, r, seen) && Precedes(last, r, c) && IsTagCall(c)
    requires forall i | 0 <= i < |p| :: Informed(p[i], seen)
    ensures DoneBy(c, p + [c]) && OneClass(p + [c]) && ToldBy(c, r, seen)
    ensures forall i | 0 <= i < |p + [c]| :: Informed((p + [c])[i], seen)
  {
    if last.DeleteTag? { MissingAfterDelete(last.live, last.key, last.snap.cr.spec.tags); }
  }

  lemma PassAdvances(last: Call, r: Reply, p: seq<Call>, seen: Option<ShareInfo>, c: Call)
    requires DoneBy(last, p) && ToldBy(last, r, seen) && Precedes(last, r, c) && OneClass(p)
    requires forall i | 0 <= i < |p| :: Informed(p[i], seen)
    ensures var q := if MutatesCloud(c) then p + [c] else p;
            && DoneBy(c, q) && OneClass(q)
            && (c.ShowShare? ==> q == [] && seen == None)
            && (!c.ShowShare? ==> forall r' :: ToldBy(c, r', seen))
            && forall i | 0 <= i < |q| :: Informed(q[i], seen)
  {
    if IsTagCall(c) {
      TagAdvances(last, r, p, seen, c);
    } else if MutatesCloud(c) {
      assert p == [];
    }
  }

  lemma PassCall(w: World, c: Call, o: Outcome, es: seq<Entry>)
    requires PassOk(w) && PcOk(w) && w.hist != [] && Follows(w.pc, c, es) && Possible(w, c, o)
    ensures PassOk(Perform(w, c, o))
  {
    hide Follows, PcOk, Perform, Possible, Precedes, Informed;
    PassLogged(w, c, o);
    if w.pc.At? {
      FollowsPrecedes(w, c, es);
      PassAdvances(w.pc.call, w.pc.reply, w.log.pass, w.log.seen, c);
    } else {
      FirstIsRead(w.pc, c, es);
    }
  }

  lemma FirstIsRead(pc: Pc, c: Call, es: seq<Entry>)
    requires pc.Idle? && Follows(pc, c, es)
    ensures c.ReadCr?
  {
  }

  lemma PassStep(w: World, a: Act, v: World)
    requires PassOk(w) && PcOk(w) && Step(w, a, v)
    ensures PassOk(v)
  {
    hide PassOk, PcOk, Follows, Possible, EnvMay;
    var es :| May(w, a, es) && v == Next(w, a);
    match a
    case Do(c, o) => PassCall(w, c, o, es);
    case End(_) => PassUndisturbed(w, v);
    case Env(e) => PassEnv(w, e);
  }

  lemma PassEnv(w: World, e: EnvAct)
    requires PassOk(w) && w.hist != [] && EnvMay(w, e)
    ensures PassOk(EnvStep(w, e))
  {
    hide PassOk;
    PassUndisturbed(w, EnvStep(w, e));
  }

  lemma {:induction false} EveryPassIsOk(r: Run, i: nat)
    requires IsRun(r) && Initial(r.worlds[0]) && i < |r.worlds|
    ensures PassOk(r.worlds[i])
  {
    hide Inv, PassOk, Step;
    if i == 0 {
      NothingDone(r.worlds[0]);
    } else {
      EveryPassIsOk(r, i - 1);
      RunKeeps(r, i - 1);
      InvParts(r.worlds[i - 1]);
      PassStep(r.worlds[i - 1], r.acts[i - 1], r.worlds[i]);
    }
  }

  lemma NothingDone(w: World)
    requires w.pc == Idle && w.log.pass == []
    ensures PassOk(w)
  {
  }

  lemma PassUndisturbed(w: World, v: World)
    requires PassOk(w) && v.log.pass == w.log.pass && v.log.seen == w.log.seen && (v.pc == w.pc || v.pc == Idle)
    ensures PassOk(v)
  {
  }

  /** In every pass of every run, whatever fails: the changing calls to the cloud are none, or one
      Create, Delete, Expand or ChangeSecurityGroup, or additions of tags followed by deletions; and
      none touches the security group or a tag when the pass was told that the group is changing. */
  lemma OneMutationClassPerPass(w: World)
    requires Reachable(w)
    ensures OneClass(w.log.pass) && forall i | 0 <= i < |w.log.pass| :: Informed(w.log.pass[i], w.log.seen)
  {
    var r: Run, i: nat :| ReachedIn(w, r, i);
    EveryPassIsOk(r, i);
  }

  // ================================================================ what a pause holds back

  /** The resource was paused, and not deleted, in the version that the call was made from. */
  predicate FromPaused(c: Call) {
    !c.ReadCr? && c.snap.cr.spec.paused && !c.snap.cr.deleted
  }

  predicate AllowedPaused(c: Call) {
    c.AddFinalizer? || (c.UpdateStatus? && c.why.PausedNote?)
  }

  ghost predicate PauseOk(w: World) {
    && (w.pc.At? && FromPaused(w.pc.call) ==> AllowedPaused(w.pc.call))
    && (forall i | 0 <= i < |w.log.issued| && FromPaused(w.log.issued[i]) :: AllowedPaused(w.log.issued[i]))
  }

  ghost predicate SameObject(last: Call, c: Call) {
    && !last.ReadCr? && !c.ReadCr? && c.snap.rv == last.snap.rv
    && c.snap.cr.spec == last.snap.cr.spec && c.snap.cr.deleted == last.snap.cr.deleted
  }

  lemma SameAvailable(s: Snap, info: ShareInfo, c: Call, es: seq<Entry>)
    requires FollowsAvailable(s, info, c, es)
    ensures SameObject(ShowShare(s), c)
  {
    hide HasTrue, Told, SizedSets, SgDoneSets, Replay;
  }

  lemma SameShown(s: Snap, r: Reply, c: Call, es: seq<Entry>)
    requires Follows(At(ShowShare(s), r), c, es)
    ensures SameObject(ShowShare(s), c)
  {
    hide HasTrue, Told, Replay, FollowsAvailable;
    if !s.cr.deleted && r.Info? && IsAvailable(r.info.status) { SameAvailable(s, r.info, c, es); }
  }

  lemma SameTags(last: Call, r: Reply, c: Call, es: seq<Entry>)
    requires (last.ShowTags? || IsTagCall(last)) && FollowsTagCall(last, r, c, es)
    ensures SameObject(last, c)
  {
    hide Told, Missing, Extra, Replay;
  }

  lemma SameCascade(last: Call, r: Reply, c: Call, es: seq<Entry>)
    requires last.GetPvc? || last.DeletePvc? || last.GetPv? || last.DeletePv?
    requires FollowsCascade(last, r, c, es)
    ensures SameObject(last, c)
  {
  }

  lemma SameEnsure(last: Call, r: Reply, c: Call, es: seq<Entry>)
    requires last.GetPv? || last.CreatePv? || last.UpdatePv? || last.GetPvc?
    requires FollowsEnsure(last, r, c, es)
    ensures SameObject(last, c)
  {
    hide StaleClaim;
  }

  lemma SameVolumes(last: Call, r: Reply, c: Call, es: seq<Entry>)
    requires OfVolumes(last) || last.DeletePv? || last.DeletePvc?
    requires Follows(At(last, r), c, es)
    ensures SameObject(last, c)
  {
    hide FollowsCascade, FollowsEnsure, SameObject;
    if last.DeletePv? || last.DeletePvc? || ((last.GetPv? || last.GetPvc?) && last.snap.cr.deleted) {
      SameCascade(last, r, c, es);
    } else if !last.CreatePvc? {
      SameEnsure(last, r, c, es);
    }
  }

  /** Within a pass the object keeps its spec and its deletion mark. */
  lemma ObjectKept(last: Call, r: Reply, c: Call, es: seq<Entry>)
    requires !last.ReadCr? && !last.UpdateStatus? && Follows(At(last, r), c, es)
    ensures SameObject(last, c)
  {
    hide HasTrue, Told, Replay, FollowsPoll, FollowsDeleteGet, FollowsTagCall, FollowsCascade, FollowsEnsure;
    if last.ShowShare? { SameShown(last.snap, r, c, es); }
    else if last.ShowTags? || IsTagCall(last) { SameTags(last, r, c, es); }
    else if OfVolumes(last) || last.DeletePv? || last.DeletePvc? { SameVolumes(last, r, c, es); }
  }

  lemma PausedFollows(w: World, c: Call, es: seq<Entry>)
    requires PcOk(w) && PauseOk(w) && w.pc.At? && Follows(w.pc, c, es) && FromPaused(c)
    ensures AllowedPaused(c)
  {
    hide CallOk, FollowsPoll, FollowsAvailable, FollowsTagCall, FollowsCascade, FollowsEnsure, FollowsDeleteGet, FollowsCreate,
         FollowsList, FollowsExpand, FollowsSg;
    var last := w.pc.call;
    if !last.ReadCr? && !last.UpdateStatus? { ObjectKept(last, w.pc.reply, c, es); }
  }

  lemma Logged(w: World, c: Call, o: Outcome)
    requires w.hist != [] && Possible(w, c, o)
    ensures var v := Perform(w, c, o);
            v.pc == At(c, ReplyOf(o)) && v.log.issued == if Mutates(c) then w.log.issued + [c] else w.log.issued
  {
  }

  lemma PauseStep(w: World, a: Act, v: World)
    requires Inv(w) && PauseOk(w) && Step(w, a, v)
    ensures PauseOk(v)
  {
    hide Inv, Follows, Possible, Perform, EnvMay, PcOk;
    InvParts(w);
    var es :| May(w, a, es) && v == Next(w, a);
    match a
    case Do(c, o) =>
      Logged(w, c, o);
      if w.pc.At? {
        if FromPaused(c) { PausedFollows(w, c, es); }
      } else {
        FirstIsRead(w.pc, c, es);
      }
    case End(_) =>
    case Env(e) => QuietEnv(w, e);
  }

  lemma QuietEnv(w: World, e: EnvAct)
    requires w.hist != [] && EnvMay(w, e)
    ensures var v := EnvStep(w, e); (v.pc == w.pc || v.pc == Idle) && v.log.issued == w.log.issued
  {
  }

  lemma {:induction false} EveryPauseIsOk(r: Run, i: nat)
    requires IsRun(r) && Initial(r.worlds[0]) && i < |r.worlds|
    ensures PauseOk(r.worlds[i])
  {
    hide Inv, PauseOk, Step;
    if i == 0 {
      StartsOk(r.worlds[0]);
    } else {
      EveryPauseIsOk(r, i - 1);
      RunKeeps(r, i - 1);
      PauseStep(r.worlds[i - 1], r.acts[i - 1], r.worlds[i]);
    }
  }

  lemma StartsOk(w: World)
    requires Initial(w)
    ensures PauseOk(w)
  {
  }

  /** In every run: from a version that is paused and not deleted, the operator issues nothing but the
      finalizer and the note that it is paused, and in particular no call that changes the cloud. */
  lemma PausedIsInert(w: World, i: nat)
    requires Reachable(w) && i < |w.log.issued| && !w.log.issued[i].ReadCr? && w.log.issued[i].snap.cr.spec.paused
    ensures w.log.issued[i].snap.cr.deleted || AllowedPaused(w.log.issued[i])
    ensures MutatesCloud(w.log.issued[i]) ==> w.log.issued[i].DeleteShare? && w.log.issued[i].snap.cr.deleted
  {
    var r: Run, k: nat :| ReachedIn(w, r, k);
    EveryPauseIsOk(r, k);
    RunKeeps(r, k);
    var c := w.log.issued[i];
    assert FromPaused(c) ==> AllowedPaused(c);
    assert Founded(w, c);
  }
}
