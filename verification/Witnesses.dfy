/** Runs that the guarantees leave room for, as concrete witnesses. */
module Witnesses {
  import opened Errors
  import opened Conditions
  import opened Types
  import opened Poll
  import opened Protocol
  import opened Safety
  import opened Orphans
  import opened Calm
  import opened Convergence

  const NO_LOG: Log := Log([], [], None, None, {}, 0, 0, 0, 0, 0, 0, 0, 0, 0, 0, 0, 0, 0)

  const SPEC: Spec := Spec("data", 600, Delete, false, "", "az", "vpc", "net", "", "", map[], "", Unset, "")

  const CR: Cr := Cr("ns", "cr", 1, true, false, SPEC, Status(NO_FS, "", 0, "", map[], 0, []))

  /** A resource that holds the finalizer, and an empty cloud. */
  const START: World := World("data", [CR], false, 0, map[], 1, map[], map[], Idle, NO_LOG)

  // ---------------------------------------------------------------- runs, step by step

  /** The last world of a run from a new resource; `current` says that no read in it was stale. */
  ghost predicate Reached(w: World, current: bool) {
    exists r: Run :: IsRun(r) && Initial(r.worlds[0]) && r.worlds[|r.acts|] == w && (current ==> FreshRun(r))
  }

  lemma Begins()
    ensures Reached(START, true)
  {
    var r := Run([START], []);
    assert IsRun(r) && FreshRun(r) && Initial(r.worlds[0]);
  }

  lemma GoesOn(w: World, a: Act, es: seq<Entry>, current: bool)
    requires Reached(w, current) && May(w, a, es) && (current ==> FreshAct(w, a))
    ensures Reached(Next(w, a), current)
  {
    hide Next, May, FreshAct, Initial;
    var r: Run :| IsRun(r) && Initial(r.worlds[0]) && r.worlds[|r.acts|] == w && (current ==> FreshRun(r));
    var q := Run(r.worlds + [Next(w, a)], r.acts + [a]);
    assert Step(w, a, Next(w, a));
    assert IsRun(q);
    if current {
      forall i | 0 <= i < |q.acts| ensures FreshAct(q.worlds[i], q.acts[i]) {
        if i < |r.acts| { assert FreshAct(r.worlds[i], r.acts[i]); }
      }
    }
  }

  /** A call of the worker, and what there is to know of the world after it. */
  lemma Calling(w: World, c: Call, o: Outcome, es: seq<Entry>, current: bool) returns (v: World)
    requires Reached(w, current) && w.hist != [] && Follows(w.pc, c, es) && Possible(w, c, o)
    requires current && c.ReadCr? && o.Answered? && o.reply.Got? ==> o.reply.snap.rv == |w.hist| - 1
    ensures Reached(v, current)
    ensures var e := if o.Refused? then w else Effect(w, c);
            && v.hist == e.hist && v.gone == e.gone && v.cloud == e.cloud && v.nextId == e.nextId && v.fsName == e.fsName
            && v.pvs == e.pvs && v.pvcs == e.pvcs
            && v.pc == At(c, ReplyOf(o)) && v.cache == (if c.ReadCr? && o.Answered? then o.reply.snap.rv else w.cache)
            && v.log.minted == (if c.CreateShare? && !o.Refused? then w.log.minted + {w.nextId} else w.log.minted)
            && v.log.destroyed == w.log.destroyed
  {
    hide Follows, Possible, Effect, Reached;
    assert May(w, Do(c, o), es);
    GoesOn(w, Do(c, o), es, current);
    v := Next(w, Do(c, o));
    EffectKeepsLog(w, c, o);
  }

  /** A status write that is accepted and changes something. */
  lemma Storing(w: World, cr: Cr, why: Why, es: seq<Entry>, current: bool) returns (v: World)
    requires Reached(w, current) && w.hist != [] && !w.gone
    requires Follows(w.pc, UpdateStatus(Snap(cr, |w.hist| - 1), why), es)
    requires cr == Current(w).(status := cr.status) && cr != Current(w)
    ensures Reached(v, current) && v.hist == w.hist + [cr] && !v.gone && v.cloud == w.cloud && v.nextId == w.nextId
    ensures v.fsName == w.fsName && v.cache == w.cache && v.log.minted == w.log.minted
    ensures v.log.destroyed == w.log.destroyed
    ensures v.pc == At(UpdateStatus(Snap(cr, |w.hist| - 1), why), Got(Snap(cr, |w.hist|)))
  {
    hide Reached, Tally, Perform, Follows;
    v := Calling(w, UpdateStatus(Snap(cr, |w.hist| - 1), why), Answered(Got(Snap(cr, |w.hist|))), es, current);
  }

  lemma EffectKeepsLog(w: World, c: Call, o: Outcome)
    requires w.hist != [] && Possible(w, c, o)
    ensures !o.Refused? ==> Effect(w, c).log == w.log && Effect(w, c).cache == w.cache && Effect(w, c).pc == w.pc
  {
    hide Truthful, Fits;
  }

  lemma Around(w: World, e: EnvAct, current: bool) returns (v: World)
    requires Reached(w, current) && w.hist != [] && EnvMay(w, e)
    ensures v == EnvStep(w, e) && Reached(v, current)
  {
    hide EnvMay, EnvStep, Reached;
    assert May(w, Env(e), []);
    GoesOn(w, Env(e), [], current);
    v := Next(w, Env(e));
  }

  /** The resource is gone under policy Delete, nobody else has removed a share, and a share of ours lives. */
  ghost predicate LeavesOrphan(w: World) {
    w.hist != [] && w.gone && Current(w).spec.policy == Delete && w.log.destroyed == 0 && exists id :: Unrecorded(w, id)
  }

  // ---------------------------------------------------------------- orphans

  /** The operator creates the share and crashes before it has recorded the id; the user deletes the
      resource; the next pass finds no id and removes the finalizer. Every read was fresh. */
  lemma CrashBeforeRecording()
    ensures exists w :: Reached(w, true) && LeavesOrphan(w)
  {
    hide Reached, Tally, Perform;
    Begins();
    var s0, s1 := Snap(CR, 0), Snap(CR.(deleted := true), 1);
    var w := Calling(START, ReadCr, Answered(Got(s0)), [], true);
    w := Calling(w, CreateShare(s0), Answered(Minted(1)), [], true);
    w := Around(w, Crash, true);
    w := Around(w, EnvAct.DeleteCr, true);
    w := Calling(w, ReadCr, Answered(Got(s1)), [], true);
    w := Calling(w, RemoveFinalizer(s1), Answered(Done), [], true);
    assert w.hist == [CR, s1.cr, s1.cr.(finalizer := false)];
    assert Unrecorded(w, 1);
    assert LeavesOrphan(w);
  }

  // ---------------------------------------------------------------- a share that is recorded

  function EntriesAt(sets: seq<CondSet>, gen: nat, at: int): (es: seq<Entry>)
    ensures Told(es, sets, gen) && forall i | 0 <= i < |es| :: es[i].at == at
  {
    seq(|sets|, i requires 0 <= i < |sets| => Entry(sets[i], gen, at))
  }

  function Entries(sets: seq<CondSet>, gen: nat): (es: seq<Entry>)
    ensures Told(es, sets, gen)
  {
    EntriesAt(sets, gen, 0)
  }

  function RecordedCr(): Cr {
    Noted(CR.(status := CR.status.(fsId := 1, observedGeneration := 1)), Entries(CreatedSets(), 1))
  }

  /** What the witnesses below look at. */
  ghost predicate Stands(w: World, hist: seq<Cr>, cloud: map<nat, Share>, cache: nat) {
    w.hist == hist && w.cloud == cloud && w.cache == cache && w.pc == Idle && !w.gone && w.fsName == "data"
  }

  lemma Ends(w: World, res: Result, current: bool) returns (v: World)
    requires Reached(w, current) && w.hist != [] && Ending(w.pc) == Some(res)
    ensures v == w.(pc := Idle) && Reached(v, current)
  {
    hide Ending, Reached;
    assert May(w, End(res), []);
    GoesOn(w, End(res), [], current);
    v := Next(w, End(res));
  }

  /** A first pass that creates the share and records its id. */
  lemma ShareRecorded() returns (w: World)
    ensures Reached(w, true) && Stands(w, [CR, RecordedCr()], map[1 := NewShare(SPEC)], 0)
    ensures w.nextId == 2 && w.log.minted == {1} && w.log.destroyed == 0
  {
    hide Reached, Tally, Perform, Replay, Told;
    Begins();
    var s0 := Snap(CR, 0);
    w := Calling(START, ReadCr, Answered(Got(s0)), [], true);
    w := Calling(w, CreateShare(s0), Answered(Minted(1)), [], true);
    w := Storing(w, RecordedCr(), CreatedNote, Entries(CreatedSets(), 1), true);
    w := Ends(w, Result(AfterProvisioning, None), true);
    assert Current(w) == RecordedCr();
  }

  lemma Anyway(w: World)
    requires Reached(w, true)
    ensures Reached(w, false)
  {
    hide Initial, FreshRun;
    var r: Run :| IsRun(r) && Initial(r.worlds[0]) && r.worlds[|r.acts|] == w && FreshRun(r);
  }

  // ---------------------------------------------------------------- an orphan behind a recorded id

  function GoneCr(): Cr {
    Noted(RecordedCr().(deleted := true), Entries([CondSet(Deleting, False, FsDeleted, Fixed)], 1))
  }

  lemma GoneIsNews()
    ensures GoneCr() != RecordedCr().(deleted := true)
  {
    var es, fs := Entries(CreatedSets(), 1), Entries([CondSet(Deleting, False, FsDeleted, Fixed)], 1);
    ReplayLast([], es, Deleting);
    ReplayLast(RecordedCr().status.conditions, fs, Deleting);
    assert LastOf(es, Deleting) == 2 && LastOf(fs, Deleting) == 0;
  }

  lemma ShareDestroyed() returns (w: World)
    ensures Reached(w, false) && Stands(w, [CR, RecordedCr()], map[], 0)
    ensures w.nextId == 2 && w.log.minted == {1}
  {
    hide Reached, Tally, Perform, Replay, Told;
    w := ShareRecorded();
    Anyway(w);
    w := Around(w, Destroy(1), false);
    assert w.cloud == map[];
  }

  /** Somebody removes the recorded share; a pass that still reads the old version creates a second one,
      and its write of the id is refused as out of date. */
  lemma StaleCreate() returns (w: World)
    ensures Reached(w, false) && Stands(w, [CR, RecordedCr()], map[2 := NewShare(SPEC)], 0)
    ensures w.log.minted == {1, 2}
  {
    hide Reached, Tally, Perform, Replay, Told;
    w := ShareDestroyed();
    var s0 := Snap(CR, 0);
    w := Calling(w, ReadCr, Answered(Got(s0)), [], false);
    w := Calling(w, CreateShare(s0), Answered(Minted(2)), [], false);
    var cr := Noted(CR.(status := CR.status.(fsId := 2, observedGeneration := 1)), Entries(CreatedSets(), 1));
    w := Calling(w, UpdateStatus(Snap(cr, 0), CreatedNote), Refused(ApiConflict), Entries(CreatedSets(), 1), false);
    w := Ends(w, Result(NoRequeue, Some(ApiConflict)), false);
  }

  function DeletedCr(): Cr { RecordedCr().(deleted := true) }

  /** The user deletes the resource, and the next pass is told that the recorded share does not exist. */
  lemma NotFound() returns (w: World)
    ensures Reached(w, false) && w.hist == [CR, RecordedCr(), DeletedCr()]
    ensures w.cloud == map[2 := NewShare(SPEC)] && !w.gone
    ensures w.fsName == "data" && w.log.minted == {1, 2}
    ensures w.pc == At(ShowShare(Snap(DeletedCr(), 2)), Failure(Service(404, "")))
  {
    hide Reached, Tally, Perform, Replay, Told;
    w := StaleCreate();
    w := Around(w, EnvAct.DeleteCr, false);
    var s := Snap(DeletedCr(), 2);
    assert w.hist == [CR, RecordedCr(), s.cr];
    w := Calling(w, ReadCr, Answered(Got(s)), [], false);
    w := Calling(w, ShowShare(s), Refused(Service(404, "")), [], false);
  }

  lemma GoneNoted() returns (w: World)
    ensures Reached(w, false) && w.hist == [CR, RecordedCr(), DeletedCr(), GoneCr()]
    ensures w.cloud == map[2 := NewShare(SPEC)] && !w.gone
    ensures w.fsName == "data" && w.log.minted == {1, 2}
    ensures w.pc == At(UpdateStatus(Snap(GoneCr(), 2), GoneNote), Got(Snap(GoneCr(), 3)))
  {
    hide Reached, Tally, Perform, Replay, Told;
    w := NotFound();
    CookedNotFound(OpShow, Service(404, ""));
    GoneIsNews();
    w := Storing(w, GoneCr(), GoneNote, Entries([CondSet(Deleting, False, FsDeleted, Fixed)], 1), false);
  }

  /** With a stale read, a share can be left behind although the status holds an id when the finalizer
      goes: the id is that of the share that was removed. */
  lemma OrphanBehindAnId()
    ensures exists w :: Reached(w, false) && w.gone && w.hist != [] && Current(w).spec.policy == Delete
                        && Current(w).status.fsId != NO_FS && exists id :: Unrecorded(w, id)
  {
    hide Reached, Tally, Perform, Replay, Told;
    var w := GoneNoted();
    w := Calling(w, RemoveFinalizer(Snap(GoneCr(), 3)), Answered(Done), [], false);
    assert w.hist == [CR, RecordedCr(), DeletedCr(), GoneCr(), GoneCr().(finalizer := false)];
    assert Unrecorded(w, 2);
  }

  // ---------------------------------------------------------------- deleted while paused

  /** A paused resource that is deleted loses its share: the pause holds back everything but deletion. */
  lemma PausedAndDeleted()
    ensures exists w, i :: Reached(w, true) && 0 <= i < |w.log.issued| && w.log.issued[i].DeleteShare?
                           && w.log.issued[i].snap.cr.spec.paused && w.log.issued[i].snap.rv == |w.hist| - 1
  {
    hide Reached, Replay, Told, HasTrue;
    var w := ShareRecorded();
    w := Around(w, EditSpec(SPEC.(paused := true)), true);
    w := Around(w, EnvAct.DeleteCr, true);
    var s := Snap(DeletedCr().(spec := SPEC.(paused := true), generation := 2), 3);
    assert w.hist == [CR, RecordedCr(), RecordedCr().(spec := SPEC.(paused := true), generation := 2), s.cr];
    w := Calling(w, ReadCr, Answered(Got(s)), [], true);
    w := Calling(w, ShowShare(s), Answered(Info(NewShare(SPEC).info)), [], true);
    NotMarked();
    assert May(w, Do(DeleteShare(s), Answered(Done)), []);
    GoesOn(w, Do(DeleteShare(s), Answered(Done)), [], true);
    var v := Next(w, Do(DeleteShare(s), Answered(Done)));
    assert v.log.issued == w.log.issued + [DeleteShare(s)];
    assert v.log.issued[|w.log.issued|] == DeleteShare(s);
  }

  lemma NotMarked()
    ensures !HasTrue(RecordedCr().status.conditions, Deleting)
  {
    var es := Entries(CreatedSets(), 1);
    ReplayLeaves([], es, Deleting);
  }

  // ---------------------------------------------------------------- stuck

  const READY: Share := NewShare(SPEC).(info := NewShare(SPEC).info.(status := "200", exportLocation := "host:/share"))

  const LARGER: Spec := SPEC.(size := 700)

  const LARGEST: Spec := SPEC.(size := 800)

  function LargerCr(): Cr { RecordedCr().(spec := LARGER, generation := 2) }

  function SeenCr(): Cr { Noted(Observed(LargerCr(), READY.info), Entries(ReadySets(READY.info), 2)) }

  function ExpandedCr(): Cr { Noted(SeenCr(), Entries([CondSet(Expanding, True, FsExpandPending, Sizes(600, 700))], 2)) }

  /** The share becomes available, and the wanted size is raised. */
  lemma SizeRaised() returns (w: World)
    ensures Reached(w, true) && Stands(w, [CR, RecordedCr(), LargerCr()], map[1 := READY], 0)
  {
    hide Reached, Tally, Perform, Replay, Told, HasTrue;
    w := ShareRecorded();
    w := Around(w, CloudWork(1, READY), true);
    w := Around(w, EditSpec(LARGER), true);
    assert w.hist == [CR, RecordedCr(), LargerCr()] && w.cloud == map[1 := READY];
  }

  /** A pass asks for the expansion. */
  lemma ExpansionAsked() returns (w: World)
    ensures Reached(w, true) && w.hist == [CR, RecordedCr(), LargerCr()] && !w.gone && w.fsName == "data"
    ensures w.cloud == map[1 := READY.(target := 700, info := READY.info.(status := "121"))]
    ensures w.pc == At(ExpandShare(Snap(SeenCr(), 2), READY.info), Done)
  {
    hide Reached, Tally, Perform, Replay, Told, HasTrue;
    w := SizeRaised();
    var s := Snap(LargerCr(), 2);
    w := Calling(w, ReadCr, Answered(Got(s)), [], true);
    w := Calling(w, ShowShare(s), Answered(Info(READY.info)), [], true);
    NotExpanding();
    w := Calling(w, ExpandShare(Snap(SeenCr(), 2), READY.info), Answered(Done), Entries(ReadySets(READY.info), 2), true);
  }

  lemma NotExpanding()
    ensures !HasTrue(RecordedCr().status.conditions, Expanding)
  {
    ReplayLeaves([], Entries(CreatedSets(), 1), Expanding);
  }

  lemma NowExpanding()
    ensures HasTrue(ExpandedCr().status.conditions, Expanding) && ExpandedCr() != LargerCr()
  {
    var e := Entries([CondSet(Expanding, True, FsExpandPending, Sizes(600, 700))], 2);
    var cs := SeenCr().status.conditions;
    assert Replay(cs, e) == Upsert(cs, e[0]) by { assert e[..0] == []; }
    UpsertShape(cs, e[0]);
    NotExpanding();
    var r, k := Upsert(cs, e[0]), Find(cs, Expanding);
    assert r[k].ctype == Expanding && r[k].status == True;
  }

  /** The obstacle is real: raise the size again while the first expansion runs, and the resource is
      workable and stuck, with nothing having gone wrong. */
  lemma RaisedTwice()
    ensures exists w :: Reached(w, true) && Workable(w) && Stuck(w)
  {
    hide Reached, Tally, Perform, Replay, Told, HasTrue, Inv;
    var w := ExpansionAsked();
    NowExpanding();
    w := Storing(w, ExpandedCr(), ExpandMarked, Entries([CondSet(Expanding, True, FsExpandPending, Sizes(600, 700))], 2), true);
    w := Ends(w, Result(AfterProvisioning, None), true);
    assert w.hist == [CR, RecordedCr(), LargerCr(), ExpandedCr()];
    w := Around(w, EditSpec(LARGEST), true);
    ReachedInv(w);
    assert Current(w).spec == LARGEST && Current(w).status == ExpandedCr().status;
    assert 1 in w.cloud && Reach(w.cloud[1]) == 700;
  }

  lemma ReachedInv(w: World)
    requires Reached(w, true)
    ensures Inv(w)
  {
    hide Initial, FreshRun, Inv;
    var r: Run :| IsRun(r) && Initial(r.worlds[0]) && r.worlds[|r.acts|] == w && FreshRun(r);
    RunKeeps(r, |r.acts|);
  }

  // ---------------------------------------------------------------- a failure that keeps moving

  /** The wanted size is below the share's, or an immutable field was changed. */
  predicate Refuses(spec: Spec) {
    spec == SPEC.(size := 500) || spec == SPEC.(zone := "other")
  }

  const NO_TAGS: TagOutcome := Aligned(map[], false)

  function PollTimes(h: Cr, at: int): seq<Entry> { EntriesAt(FullSets(h, READY.info, NO_TAGS), h.generation, at) }

  /** The object after a full poll at one reading of the clock. */
  function PolledCr(h: Cr, at: int): Cr { FullPoll(h, READY.info, NO_TAGS, PollTimes(h, at)) }

  ghost predicate Pollable(w: World, h: Cr) {
    && w.hist != [] && Current(w) == h && !w.gone && w.pc == Idle && w.cache < |w.hist| && w.fsName == "data"
    && w.cloud == map[1 := READY]
    && h.finalizer && !h.deleted && h.status.fsId == 1 && Refuses(h.spec)
  }

  lemma Shown(w: World, h: Cr) returns (v: World)
    requires Reached(w, true) && Pollable(w, h)
    ensures Reached(v, true) && v.hist == w.hist && v.cloud == w.cloud && !v.gone && v.cache < |v.hist|
    ensures v.fsName == w.fsName
    ensures v.pc == At(ShowShare(Snap(h, |w.hist| - 1)), Info(READY.info))
  {
    hide Reached, Tally, Perform, HasTrue;
    var s := Snap(h, |w.hist| - 1);
    v := Calling(w, ReadCr, Answered(Got(s)), [], true);
    v := Calling(v, ShowShare(s), Answered(Info(READY.info)), [], true);
  }

  /** A whole pass with fresh reads and no fault. */
  lemma PolledOnce(w: World, h: Cr, at: int) returns (v: World)
    requires Reached(w, true) && Pollable(w, h) && PolledCr(h, at) != h
    ensures Reached(v, true) && v.hist == w.hist + [PolledCr(h, at)] && Pollable(v, PolledCr(h, at))
  {
    hide Reached, Tally, Perform, Replay, FullSets;
    v := Shown(w, h);
    v := TagsShown(v, h, at);
    EndsAsPolled(h, at);
    v := Storing(v, PolledCr(h, at), Settled, [], true);
    v := Ends(v, Result(NoRequeue, None), true);
  }

  lemma TagsShown(w: World, h: Cr, at: int) returns (v: World)
    requires Reached(w, true) && w.hist != [] && w.cloud == map[1 := READY] && !h.deleted && h.status.fsId == 1
    requires Refuses(h.spec)
    requires w.pc == At(ShowShare(Snap(h, |w.hist| - 1)), Info(READY.info))
    ensures Reached(v, true) && v.hist == w.hist && v.cloud == w.cloud && v.gone == w.gone && v.cache == w.cache
    ensures v.fsName == w.fsName
    ensures v.pc == At(ShowTags(Snap(Noted(ObservedSg(h, READY.info), PollTimes(h, at)), |w.hist| - 1), READY.info), Tags(map[]))
  {
    hide Reached, Tally, Perform, Replay, HasTrue, SizedSets, SgDoneSets, Told;
    var es := PollTimes(h, at);
    assert FullSets(h, READY.info, NO_TAGS) == SizedSets(h, READY.info) + SgDoneSets(h, READY.info);
    var c := ShowTags(Snap(Noted(ObservedSg(h, READY.info), es), |w.hist| - 1), READY.info);
    v := Calling(w, c, Answered(Tags(map[])), es, true);
  }

  lemma EndsAsPolled(h: Cr, at: int)
    ensures var s := Noted(ObservedSg(h, READY.info), PollTimes(h, at));
            PolledCr(h, at) == Noted(TaggedCr(s, NO_TAGS), [])
  {
    hide FullSets, Upsert;
  }

  /** Two versions of the resource with the same spec, in both of which Failed is True, with different
      transition times. */
  ghost predicate FailedMoved(h: Cr, k: Cr) {
    && h.spec == k.spec && Has(h.status.conditions, Failed) && Has(k.status.conditions, Failed)
    && Entered(h.status.conditions, Failed).status == True && Entered(k.status.conditions, Failed).status == True
    && Entered(h.status.conditions, Failed).since != Entered(k.status.conditions, Failed).since
  }

  lemma PolledFails(h: Cr, at: int)
    requires Refuses(h.spec) && UniqueTypes(h.status.conditions)
    ensures var cs := PolledCr(h, at).status.conditions;
            && UniqueTypes(cs) && Has(cs, Failed) && Entered(cs, Failed).status == True && Entered(cs, Failed).since == at
  {
    hide FullSets, Replay, HasTrue, Find;
    PollVerdict(h, READY.info, NO_TAGS, PollTimes(h, at));
    PersistentFailureMovesItsTime(h, READY.info, NO_TAGS, PollTimes(h, at));
    HasTrueIsFound(PolledCr(h, at).status.conditions, Failed);
  }

  /** Two passes without a fault over a refused shrink, or over a changed immutable field: Failed is True
      after both, and its transition time has moved. */
  lemma RefusalKeepsMoving(spec: Spec)
    requires Refuses(spec)
    ensures exists w, h, k :: Reached(w, true) && |w.hist| >= 2 && w.hist[|w.hist| - 2] == h && Current(w) == k && FailedMoved(h, k)
  {
    hide Reached, Tally, Perform, Replay, HasTrue, Inv, FullSets, FullPoll, Find;
    var w := ShareRecorded();
    w := Around(w, CloudWork(1, READY), true);
    w := Around(w, EditSpec(spec), true);
    var h := RecordedCr().(spec := spec, generation := 2);
    assert w.hist == [CR, RecordedCr(), h] && w.cloud == map[1 := READY];
    ReachedInv(w);
    SpecName(w);
    FirstPollIsNews(h);
    PolledFails(h, 1);
    w := PolledOnce(w, h, 1);
    w := AgainMoved(w, PolledCr(h, 1));
  }

  lemma AgainMoved(w: World, h: Cr) returns (v: World)
    requires Reached(w, true) && Pollable(w, h) && UniqueTypes(h.status.conditions) && Has(h.status.conditions, Failed)
    requires Entered(h.status.conditions, Failed).status == True && Entered(h.status.conditions, Failed).since == 1
    ensures Reached(v, true) && |v.hist| >= 2 && v.hist[|v.hist| - 2] == h && FailedMoved(h, Current(v))
  {
    hide Reached, Tally, Perform, Replay, HasTrue, FullSets, Find;
    PolledFails(h, 2);
    v := PolledOnce(w, h, 2);
  }

  lemma FirstPollIsNews(h: Cr)
    requires h.status.exportPath == ""
    ensures PolledCr(h, 1) != h
  {
    hide FullSets, Replay;
  }
}
