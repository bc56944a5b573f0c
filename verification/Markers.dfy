/** The Deleting and Expanding conditions as "already issued" markers: how often the two calls that
    they guard can be accepted. */
module Markers {
  import opened Conditions
  import opened Types
  import opened Protocol
  import opened Safety
  import opened Guarantees

  // ================================================================ DeleteShare

  predicate MarkedDeleting(w: World)
    requires w.hist != []
  {
    HasTrue(Current(w).status.conditions, Deleting)
  }

  /** Every accepted call has its marker written, or lost, or about to be written; and while more
      markers were written than were reset, the marker stands or the share is gone. */
  ghost predicate DelInv(w: World) {
    && w.hist != []
    && w.log.dels == w.log.delMarks + w.log.delLost + One(DelPending(w.pc))
    && w.log.delMarks <= 1 + w.log.retained
    && (w.log.delMarks == 1 + w.log.retained ==>
          && Current(w).deleted
          && (MarkedDeleting(w) || Dead(w, Current(w).status.fsId))
          && (DelPending(w.pc) ==> w.pc.call.snap.rv != |w.hist| - 1))
  }

  // ---------------------------------------------------------------- steps of the environment

  /** The environment leaves the current status, and the pass unless the operator crashes. */
  lemma EnvVersion(w: World, e: EnvAct)
    requires w.hist != [] && EnvMay(w, e)
    ensures var v := EnvStep(w, e);
            && (v.hist == w.hist || (|v.hist| == |w.hist| + 1 && v.hist[..|w.hist|] == w.hist)) && v.cache == w.cache
            && Current(v).status == Current(w).status && (Current(w).deleted ==> Current(v).deleted)
            && (!e.EditSpec? ==> Current(v).spec == Current(w).spec)
            && v.pc == if e.Crash? then Idle else w.pc
  {
  }

  /** What it does to the counters: a crash loses a marker that was about to be written, and a change of
      the wanted size starts the count of expansions anew. */
  lemma EnvCounts(w: World, e: EnvAct)
    requires w.hist != [] && EnvMay(w, e)
    ensures var l, m := w.log, EnvStep(w, e).log;
            && m.dels == l.dels && m.delMarks == l.delMarks && m.retained == l.retained && m.minted == l.minted
            && m.delLost == l.delLost + One(e.Crash? && DelPending(w.pc))
            && (if e.EditSpec? && e.spec.size != Current(w).spec.size then m.exps == m.expMarks == m.expLost == 0
                else m.exps == l.exps && m.expMarks == l.expMarks && m.expLost == l.expLost + One(e.Crash? && ExpPending(w.pc)))
  {
  }

  lemma EnvSize(w: World, e: EnvAct)
    requires w.hist != [] && EnvMay(w, e)
    ensures !(e.EditSpec? && e.spec.size != Current(w).spec.size) ==> Current(EnvStep(w, e)).spec.size == Current(w).spec.size
  {
  }

  /** No share comes back, and none shrinks. */
  lemma EnvCloud(w: World, e: EnvAct, id: nat)
    requires CloudOk(w) && w.hist != [] && EnvMay(w, e) && id in w.log.minted && id in EnvStep(w, e).cloud
    ensures id in w.cloud && w.cloud[id].info.size <= EnvStep(w, e).cloud[id].info.size
  {
  }

  lemma PendingBound(w: World)
    requires PcOk(w) && (DelPending(w.pc) || ExpPending(w.pc))
    ensures w.pc.call.snap.rv < |w.hist|
  {
    hide Guard;
  }

  lemma DelEnv(w: World, e: EnvAct)
    requires CloudOk(w) && PcOk(w) && DelInv(w) && EnvMay(w, e)
    ensures DelInv(EnvStep(w, e))
  {
    hide EnvStep, EnvMay, HasTrue, CloudOk, PcOk;
    EnvVersion(w, e);
    EnvCounts(w, e);
    if DelPending(w.pc) { PendingBound(w); }
    var id := Current(w).status.fsId;
    if id in w.log.minted && id in EnvStep(w, e).cloud { EnvCloud(w, e, id); }
  }

  /** From a pending marker the pass can only go on to write it. */
  lemma PendingGoesOn(pc: Pc, c: Call, es: seq<Entry>)
    requires Follows(pc, c, es)
    ensures pc.At? <==> !c.ReadCr?
    ensures DelPending(pc) <==> c.UpdateStatus? && c.why.DeleteMarked?
    ensures ExpPending(pc) <==> c.UpdateStatus? && c.why.ExpandMarked?
    ensures DelPending(pc) || ExpPending(pc) ==> c.snap.rv == pc.call.snap.rv
  {
  }

  lemma PendingIsNoEnd(pc: Pc)
    ensures Ending(pc).Some? ==> !DelPending(pc) && !ExpPending(pc)
  {
  }

  /** The fields of the log that the markers are about. */
  lemma MarkerTally(w: World, c: Call, o: Outcome)
    requires w.hist != [] && Possible(w, c, o)
    ensures var l, v := w.log, Perform(w, c, o);
            var m := v.log;
            && v.pc == At(c, ReplyOf(o))
            && m.dels == l.dels + One(c.DeleteShare? && !o.Refused?)
            && m.delMarks == l.delMarks + One(c.UpdateStatus? && c.why.DeleteMarked? && !o.Refused?)
            && m.delLost == l.delLost + One((c.DeleteShare? && o.LostReply?) ||
                                            (c.UpdateStatus? && c.why.DeleteMarked? && o.Refused?))
            && m.retained == l.retained + One(c.UpdateStatus? && c.why.RetainNote? && !o.Refused?)
            && m.exps == l.exps + One(c.ExpandShare? && !o.Refused?)
            && m.expMarks == l.expMarks + One(c.UpdateStatus? && c.why.ExpandMarked? && !o.Refused?)
            && m.expLost == l.expLost + One((c.ExpandShare? && o.LostReply?) ||
                                            (c.UpdateStatus? && c.why.ExpandMarked? && o.Refused?))
            && (c.DeleteShare? || c.ExpandShare? ==> (v.pc.reply.Done? <==> o.Answered?))
  {
  }

  /** Calls other than status writes leave the current status, deletion mark and spec alone, and bring
      no share back. */
  lemma CurrentKept(w: World, c: Call, o: Outcome)
    requires CloudOk(w) && w.hist != [] && Possible(w, c, o) && !c.UpdateStatus?
    ensures var v := Perform(w, c, o);
            && v.hist != [] && Current(v).status == Current(w).status && Current(v).deleted == Current(w).deleted
            && Current(v).spec == Current(w).spec
            && (Dead(w, Current(w).status.fsId) ==> Dead(v, Current(w).status.fsId))
            && (!WritesCr(c) ==> v.hist == w.hist)
  {
    hide Truthful, Effect, Accepts, Fits, Tally, CloudOk, Dead;
    if !o.Refused? { EffectOnVersions(w, c); }
    if Dead(w, Current(w).status.fsId) { DeadStays(w, c, o, Current(w).status.fsId); }
  }

  lemma EffectOnVersions(w: World, c: Call)
    requires w.hist != [] && Accepts(w, c) && !c.UpdateStatus?
    ensures var v := Effect(w, c);
            && v.hist != [] && Current(v).status == Current(w).status && Current(v).deleted == Current(w).deleted
            && Current(v).spec == Current(w).spec && (!WritesCr(c) ==> v.hist == w.hist)
  {
    hide NameTaken, CapacityOf, BuildPV, BuildPVC, NewShare;
  }

  lemma DeadStays(w: World, c: Call, o: Outcome, id: nat)
    requires CloudOk(w) && w.hist != [] && Possible(w, c, o) && Dead(w, id)
    ensures Dead(Perform(w, c, o), id)
  {
    hide Truthful, Fits, CapacityOf, BuildPV, BuildPVC, NewShare, NameTaken;
  }

  lemma DeleteUnmarked(w: World, s: Snap)
    requires CallOk(w, DeleteShare(s)) && w.hist != [] && s.rv == |w.hist| - 1
    ensures !MarkedDeleting(w) && Current(w).status.fsId == s.cr.status.fsId != NO_FS
  {
  }

  lemma WriteDeleting(w: World, c: Call)
    requires CallOk(w, c) && c.UpdateStatus? && w.hist != [] && c.snap.rv == |w.hist| - 1
    ensures var s, cur := c.snap.cr, Current(w);
            && s.deleted == cur.deleted
            && (c.why.DeleteMarked? ==> s.deleted && HasTrue(s.status.conditions, Deleting))
            && (c.why.GoneNote? ==> s.deleted && Dead(w, s.status.fsId))
            && (!NotesDeleting(c) && cur.deleted ==>
                  s.status.fsId == cur.status.fsId && (HasTrue(s.status.conditions, Deleting) <==> MarkedDeleting(w)))
  {
  }

  lemma DelWritten(w: World, c: Call, o: Outcome)
    requires CloudOk(w) && CallOk(w, c) && DelInv(w) && c.UpdateStatus? && Possible(w, c, o) && !o.Refused?
    requires DelPending(w.pc) <==> c.why.DeleteMarked?
    requires DelPending(w.pc) ==> c.snap.rv == w.pc.call.snap.rv
    ensures DelInv(Perform(w, c, o))
  {
    hide CallOk, CloudOk, Perform, Possible, HasTrue;
    MarkerTally(w, c, o);
    WriteShape(w, c, o);
    WriteGround(w, c);
    WriteDeleting(w, c);
  }

  lemma DelUnwritten(w: World, c: Call, o: Outcome)
    requires DelInv(w) && c.UpdateStatus? && Possible(w, c, o) && o.Refused?
    requires DelPending(w.pc) <==> c.why.DeleteMarked?
    ensures DelInv(Perform(w, c, o))
  {
    hide Perform, Possible, HasTrue;
    MarkerTally(w, c, o);
    QuietShape(w, c, o);
  }

  lemma DelWrite(w: World, c: Call, o: Outcome, es: seq<Entry>)
    requires CloudOk(w) && CallOk(w, c) && DelInv(w) && c.UpdateStatus? && Possible(w, c, o) && Follows(w.pc, c, es)
    ensures DelInv(Perform(w, c, o))
  {
    hide CallOk, CloudOk, Follows, Perform, Possible, DelInv;
    PendingGoesOn(w.pc, c, es);
    if o.Refused? { DelUnwritten(w, c, o); } else { DelWritten(w, c, o); }
  }

  lemma DelCall(w: World, c: Call, o: Outcome, es: seq<Entry>)
    requires CloudOk(w) && CallOk(w, c) && DelInv(w) && !c.UpdateStatus? && Possible(w, c, o) && Follows(w.pc, c, es)
    ensures DelInv(Perform(w, c, o))
  {
    hide CallOk, CloudOk, Follows, Perform;
    PendingGoesOn(w.pc, c, es);
    MarkerTally(w, c, o);
    CurrentKept(w, c, o);
    if c.DeleteShare? && c.snap.rv == |w.hist| - 1 { DeleteUnmarked(w, c.snap); }
  }

  lemma DelKeeps(w: World, a: Act, v: World)
    requires Inv(w) && DelInv(w) && Step(w, a, v)
    ensures DelInv(v)
  {
    hide Inv, DelInv, CallOk, Follows, Possible, EnvMay;
    InvParts(w);
    var es :| May(w, a, es) && v == Next(w, a);
    match a
    case Do(c, o) =>
      FollowsOk(w, c, es);
      if c.UpdateStatus? { DelWrite(w, c, o, es); } else { DelCall(w, c, o, es); }
    case End(_) => PendingIsNoEnd(w.pc); DelEnd(w, v);
    case Env(e) => DelEnv(w, e);
  }

  lemma DelEnd(w: World, v: World)
    requires DelInv(w) && v == w.(pc := Idle) && !DelPending(w.pc)
    ensures DelInv(v)
  {
  }

  // ================================================================ ExpandShare

  predicate MarkedExpanding(w: World)
    requires w.hist != []
  {
    HasTrue(Current(w).status.conditions, Expanding)
  }

  /** The counters run since the last change of spec.size. Once a marker was written, every version the
      worker may still read asks for that size, and the marker stands or no share of ours is smaller. */
  ghost predicate ExpInv(w: World) {
    && w.hist != []
    && w.log.exps <= w.log.expMarks + w.log.expLost + One(ExpPending(w.pc))
    && w.log.expMarks <= 1
    && (w.log.expMarks == 1 ==>
          && (forall j | w.cache <= j < |w.hist| :: w.hist[j].spec.size == Current(w).spec.size)
          && (MarkedExpanding(w) || AllAtLeast(w, Current(w).spec.size))
          && (ExpPending(w.pc) ==> w.pc.call.snap.rv != |w.hist| - 1))
  }

  lemma ExpEnv(w: World, e: EnvAct)
    requires CloudOk(w) && PcOk(w) && w.cache < |w.hist| && ExpInv(w) && EnvMay(w, e)
    ensures ExpInv(EnvStep(w, e))
  {
    hide EnvStep, EnvMay, HasTrue, CloudOk, PcOk, AllAtLeast, DelPending;
    EnvVersion(w, e);
    EnvCounts(w, e);
    EnvSize(w, e);
    if ExpPending(w.pc) { PendingBound(w); }
    if AllAtLeast(w, Current(w).spec.size) { EnvSizes(w, e, Current(w).spec.size); }
  }

  lemma EnvSizes(w: World, e: EnvAct, n: int)
    requires CloudOk(w) && w.hist != [] && EnvMay(w, e) && AllAtLeast(w, n)
    ensures AllAtLeast(EnvStep(w, e), n)
  {
    hide EnvStep, EnvMay, CloudOk;
    var v := EnvStep(w, e);
    EnvCounts(w, e);
    forall id | id in v.cloud && id in v.log.minted ensures v.cloud[id].info.size >= n { EnvCloud(w, e, id); }
  }

  lemma ExpandTooSmall(w: World, s: Snap, info: ShareInfo)
    requires CallOk(w, ExpandShare(s, info)) && Accepts(w, ExpandShare(s, info)) && s.rv == |w.hist| - 1
    ensures !MarkedExpanding(w) && !AllAtLeast(w, Current(w).spec.size)
  {
    assert s.cr.spec == w.hist[s.rv].spec;
    assert w.cloud[s.cr.status.fsId].info.size < s.cr.spec.size;
  }

  lemma WriteExpanding(w: World, c: Call)
    requires CallOk(w, c) && c.UpdateStatus? && w.hist != [] && c.snap.rv == |w.hist| - 1
    ensures var s, cur := c.snap.cr, Current(w);
            && s.spec == cur.spec && w.cache == |w.hist| - 1
            && (c.why.ExpandMarked? ==> HasTrue(s.status.conditions, Expanding))
            && (MarkedExpanding(w) ==> HasTrue(s.status.conditions, Expanding) || AllAtLeast(w, cur.spec.size))
  {
    assert ReadUnchanged(w, c);
  }

  ghost predicate ReadUnchanged(w: World, c: Call)
    requires !c.ReadCr? && c.snap.rv < |w.hist|
  {
    c.snap.cr.(status := w.hist[c.snap.rv].status) == w.hist[c.snap.rv]
  }

  lemma SizesKept(w: World, c: Call, o: Outcome)
    requires CloudOk(w) && w.hist != [] && Possible(w, c, o) && !c.UpdateStatus?
    requires AllAtLeast(w, Current(w).spec.size)
    requires c.CreateShare? ==> c.snap.cr.spec.size >= Current(w).spec.size
    ensures AllAtLeast(Perform(w, c, o), Current(w).spec.size)
  {
    hide Perform, Possible;
    var v := Perform(w, c, o);
    forall id | id in v.cloud && id in v.log.minted ensures v.cloud[id].info.size >= Current(w).spec.size {
      if id in w.cloud {
        SizeCall(w, c, o, id);
        MintedBefore(w, c, o, id);
      } else {
        NewSize(w, c, o, id);
      }
    }
  }

  lemma MintedBefore(w: World, c: Call, o: Outcome, id: nat)
    requires CloudOk(w) && w.hist != [] && Possible(w, c, o) && id in w.cloud && id in Perform(w, c, o).log.minted
    ensures id in w.log.minted
  {
    hide Effect, Truthful, Fits;
  }

  lemma NewSize(w: World, c: Call, o: Outcome, id: nat)
    requires w.hist != [] && Possible(w, c, o) && id !in w.cloud && id in Perform(w, c, o).cloud
    ensures c.CreateShare? && Perform(w, c, o).cloud[id].info.size == c.snap.cr.spec.size
  {
    hide Truthful, Fits, Tally, CapacityOf, BuildPV, BuildPVC;
  }

  lemma CreateSize(w: World, c: Call)
    requires CallOk(w, c) && c.CreateShare?
    ensures w.cache < |w.hist| && c.snap.cr.spec == w.hist[w.cache].spec
  {
    assert ReadUnchanged(w, c);
  }

  lemma ExpWritten(w: World, c: Call, o: Outcome)
    requires CallOk(w, c) && ExpInv(w) && c.UpdateStatus? && Possible(w, c, o) && !o.Refused?
    requires ExpPending(w.pc) <==> c.why.ExpandMarked?
    requires ExpPending(w.pc) ==> c.snap.rv == w.pc.call.snap.rv
    ensures ExpInv(Perform(w, c, o))
  {
    hide CallOk, Perform, Possible, HasTrue;
    MarkerTally(w, c, o);
    WriteShape(w, c, o);
    WriteGround(w, c);
    WriteExpanding(w, c);
  }

  lemma ExpUnwritten(w: World, c: Call, o: Outcome)
    requires ExpInv(w) && c.UpdateStatus? && Possible(w, c, o) && o.Refused?
    requires ExpPending(w.pc) <==> c.why.ExpandMarked?
    ensures ExpInv(Perform(w, c, o))
  {
    hide Perform, Possible;
    MarkerTally(w, c, o);
    QuietShape(w, c, o);
  }

  lemma ExpWrite(w: World, c: Call, o: Outcome, es: seq<Entry>)
    requires CloudOk(w) && CallOk(w, c) && ExpInv(w) && c.UpdateStatus? && Possible(w, c, o) && Follows(w.pc, c, es)
    ensures ExpInv(Perform(w, c, o))
  {
    hide CallOk, CloudOk, Follows, Perform, Possible, ExpInv;
    PendingGoesOn(w.pc, c, es);
    if o.Refused? { ExpUnwritten(w, c, o); } else { ExpWritten(w, c, o); }
  }

  lemma VersionsFrom(w: World, c: Call, o: Outcome)
    requires w.hist != [] && Possible(w, c, o) && !c.UpdateStatus?
    requires w.cache < |w.hist| && forall j | w.cache <= j < |w.hist| :: w.hist[j].spec.size == Current(w).spec.size
    ensures var v := Perform(w, c, o);
            v.hist != [] && forall j | v.cache <= j < |v.hist| :: v.hist[j].spec.size == Current(w).spec.size
  {
  }

  lemma ExpCall(w: World, c: Call, o: Outcome, es: seq<Entry>)
    requires VersionsOk(w) && CloudOk(w) && CallOk(w, c) && ExpInv(w) && !c.UpdateStatus?
    requires Possible(w, c, o) && Follows(w.pc, c, es)
    ensures ExpInv(Perform(w, c, o))
  {
    hide CallOk, CloudOk, Follows, Perform, VersionsOk, AllAtLeast, Accepts, Fits, Truthful;
    PendingGoesOn(w.pc, c, es);
    MarkerTally(w, c, o);
    CurrentKept(w, c, o);
    VersionsBound(w);
    if w.log.expMarks == 1 {
      VersionsFrom(w, c, o);
      if c.CreateShare? { CreateSize(w, c); }
      if AllAtLeast(w, Current(w).spec.size) { SizesKept(w, c, o); }
      if c.ExpandShare? && !o.Refused? && c.snap.rv == |w.hist| - 1 { ExpandTooSmall(w, c.snap, c.info); }
    }
  }

  lemma VersionsBound(w: World)
    requires VersionsOk(w)
    ensures w.cache < |w.hist|
  {
  }

  lemma ExpKeeps(w: World, a: Act, v: World)
    requires Inv(w) && ExpInv(w) && Step(w, a, v)
    ensures ExpInv(v)
  {
    hide Inv, ExpInv, CallOk, Follows, Possible, EnvMay;
    InvParts(w);
    var es :| May(w, a, es) && v == Next(w, a);
    match a
    case Do(c, o) =>
      FollowsOk(w, c, es);
      if c.UpdateStatus? { ExpWrite(w, c, o, es); } else { ExpCall(w, c, o, es); }
    case End(_) => PendingIsNoEnd(w.pc); ExpEnd(w, v);
    case Env(e) => ExpEnv(w, e);
  }

  lemma ExpEnd(w: World, v: World)
    requires ExpInv(w) && v == w.(pc := Idle) && !ExpPending(w.pc)
    ensures ExpInv(v)
  {
  }

  // ================================================================ all runs

  lemma {:induction false} MarkersKept(r: Run, i: nat)
    requires IsRun(r) && Initial(r.worlds[0]) && i < |r.worlds|
    ensures DelInv(r.worlds[i]) && ExpInv(r.worlds[i])
  {
    hide Inv, Step;
    if i > 0 {
      MarkersKept(r, i - 1);
      RunKeeps(r, i - 1);
      DelKeeps(r.worlds[i - 1], r.acts[i - 1], r.worlds[i]);
      ExpKeeps(r.worlds[i - 1], r.acts[i - 1], r.worlds[i]);
    }
  }

  /** Between passes, the accepted DeleteShare calls exceed by at most one those whose reply or
      following status write was lost and the notes that a Retain policy reset the marker with. */
  lemma DeleteShareIsIssuedOnce(w: World)
    requires Reachable(w) && w.pc == Idle
    ensures w.log.dels <= 1 + w.log.delLost + w.log.retained
  {
    var r: Run, i: nat :| ReachedIn(w, r, i);
    MarkersKept(r, i);
  }

  /** Between passes, the ExpandShare calls accepted since spec.size was last changed exceed by at most
      one those whose reply or following status write was lost. */
  lemma ExpandShareIsIssuedOnce(w: World)
    requires Reachable(w) && w.pc == Idle
    ensures w.log.exps <= 1 + w.log.expLost
  {
    var r: Run, i: nat :| ReachedIn(w, r, i);
    MarkersKept(r, i);
  }

  // ================================================================ a policy that stays

  predicate NotesRetain(c: Call) { c.UpdateStatus? && c.why.RetainNote? }

  /** A marker is only reset by a note that was issued. */
  ghost predicate ResetsIssued(l: Log) {
    l.retained > 0 ==> exists i | 0 <= i < |l.issued| :: NotesRetain(l.issued[i])
  }

  lemma ResetsStep(w: World, a: Act, v: World)
    requires Step(w, a, v) && ResetsIssued(w.log)
    ensures ResetsIssued(v.log)
  {
    hide Follows, Possible, EnvMay, EnvStep, Perform;
    var es :| May(w, a, es) && v == Next(w, a);
    match a
    case Do(c, o) =>
      MarkerTally(w, c, o);
      ResetsLogged(w, c, o);
      if w.log.retained > 0 {
        var i :| 0 <= i < |w.log.issued| && NotesRetain(w.log.issued[i]);
        assert v.log.issued[i] == w.log.issued[i];
      } else if v.log.retained > 0 {
        assert NotesRetain(v.log.issued[|w.log.issued|]);
      }
    case End(_) =>
    case Env(e) => EnvCounts(w, e); EnvIssued(w, e);
  }

  lemma ResetsLogged(w: World, c: Call, o: Outcome)
    requires w.hist != [] && Possible(w, c, o)
    ensures Perform(w, c, o).log.issued == if Mutates(c) then w.log.issued + [c] else w.log.issued
  {
    hide Effect, Truthful;
  }

  lemma EnvIssued(w: World, e: EnvAct)
    requires w.hist != [] && EnvMay(w, e)
    ensures EnvStep(w, e).log.issued == w.log.issued
  {
  }

  lemma {:induction false} ResetsAreIssued(r: Run, i: nat)
    requires IsRun(r) && Initial(r.worlds[0]) && i < |r.worlds|
    ensures ResetsIssued(r.worlds[i].log)
  {
    hide Step;
    if i > 0 {
      ResetsAreIssued(r, i - 1);
      ResetsStep(r.worlds[i - 1], r.acts[i - 1], r.worlds[i]);
    }
  }

  /** When every version marked for deletion asks for the share to be deleted, no marker is reset: the
      accepted DeleteShare calls exceed by at most one those whose reply or marker was lost. */
  lemma UnderDeleteNothingIsReset(w: World)
    requires Reachable(w) && w.pc == Idle
    requires forall i | 0 <= i < |w.hist| && w.hist[i].deleted :: w.hist[i].spec.policy == Delete
    ensures w.log.retained == 0 && w.log.dels <= 1 + w.log.delLost
  {
    hide DelInv, ExpInv, Initial;
    DeleteShareIsIssuedOnce(w);
    var r: Run, i: nat :| ReachedIn(w, r, i);
    ResetsAreIssued(r, i);
    RunKeeps(r, i);
    if w.log.retained > 0 {
      var k :| 0 <= k < |w.log.issued| && NotesRetain(w.log.issued[k]);
      RetainFounded(w, w.log.issued[k]);
    }
  }

  lemma RetainFounded(w: World, c: Call)
    requires NotesRetain(c) && Founded(w, c)
    ensures c.snap.rv < |w.hist| && w.hist[c.snap.rv].deleted && w.hist[c.snap.rv].spec.policy != Delete
  {
  }
}
