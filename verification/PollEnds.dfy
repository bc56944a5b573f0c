/** Every way in which the poll branch writes the status: what it writes, and what that says. */
module PollEnds {
  import opened Errors
  import opened Conditions
  import opened Types
  import opened Poll
  import opened Protocol

  /** How a poll ends in a status write, with the report that it acted on. */
  datatype PollEnd =
    | ShowFailed(err: GoErr)                       // the share could not be shown
    | Recreated                                    // it does not exist
    | Errored(info: ShareInfo)                     // it is in an error state
    | GrowWaits(info: ShareInfo)                   // it is to grow: asked before,
    | GrowFailed(info: ShareInfo, err: GoErr)      // asked in vain,
    | GrowMarked(info: ShareInfo)                  // or asked now
    | GroupWaits(info: ShareInfo)                  // it is to change its group, likewise
    | GroupFailed(info: ShareInfo, err: GoErr)
    | GroupMarked(info: ShareInfo)
    | Full(info: ShareInfo, tags: TagOutcome)      // the poll ran to its end

  function ErroredSets(info: ShareInfo): seq<CondSet> {
    [ CondSet(Failed, True, FsCreateFailed, About(info.status)), CondSet(Provisioning, False, FsCreateFailed, Fixed) ]
  }

  function RecreateSets(): seq<CondSet> { [CondSet(Ready, False, HuaweiAPIError, Fixed)] }

  function FailureSets(e: GoErr): seq<CondSet> { [CondSet(Failed, True, HuaweiAPIError, ErrText(e))] }

  function SgFailedSets(e: GoErr): seq<CondSet> { [CondSet(UpdatingSecurityGroup, False, SgUpdateFailed, ErrText(e))] }

  function ExpandingSets(cr: Cr, info: ShareInfo): seq<CondSet> {
    [CondSet(Expanding, True, FsExpandPending, Sizes(info.size, cr.spec.size))]
  }

  /** The branch of the poll that leads to this end. */
  predicate EndFits(cr: Cr, seen: Option<ShareInfo>, end: PollEnd) {
    match end
    case ShowFailed(_) => seen == None
    case Recreated => seen == None
    case Errored(info) => seen == Some(info) && info.status in {"303", "308", "400"}
    case _ =>
      && seen == Some(end.info) && end.info.status == "200"
      && (end.GrowWaits? || end.GrowFailed? || end.GrowMarked? <==> end.info.size > 0 && cr.spec.size > end.info.size)
      && (end.GrowWaits? ==> HasTrue(cr.status.conditions, Expanding))
      && (end.GrowFailed? || end.GrowMarked? ==> !HasTrue(cr.status.conditions, Expanding))
      && (end.GroupWaits? || end.GroupFailed? || end.GroupMarked? ==> cr.spec.sg != "" && cr.spec.sg != end.info.sg)
      && (end.Full? ==> cr.spec.sg == "" || cr.spec.sg == end.info.sg)
      && (end.GroupWaits? ==> end.info.subStatus == "132")
      && (end.GroupFailed? || end.GroupMarked? ==> end.info.subStatus != "132")
  }

  /** The condition updates of the whole pass. */
  function EndSets(cr: Cr, end: PollEnd): seq<CondSet> {
    match end
    case ShowFailed(e) => FailureSets(e)
    case Recreated => RecreateSets()
    case Errored(info) => ErroredSets(info)
    case GrowWaits(info) => ReadySets(info)
    case GrowFailed(info, e) => ReadySets(info) + FailureSets(e)
    case GrowMarked(info) => ReadySets(info) + ExpandingSets(cr, info)
    case GroupWaits(info) => SizedSets(cr, info) + [SgPendingSet(info.subStatus)]
    case GroupFailed(info, e) => SizedSets(cr, info) + SgFailedSets(e)
    case GroupMarked(info) => SizedSets(cr, info) + [SgPendingSet(cr.spec.sg)]
    case Full(info, o) => FullSets(cr, info, o)
  }

  /** The object with its other fields as the pass leaves them. */
  function EndCr(cr: Cr, end: PollEnd): Cr {
    match end
    case ShowFailed(_) => cr
    case Recreated => RecreateCr(cr)
    case Errored(_) => cr
    case GrowWaits(info) => Observed(cr, info)
    case GrowFailed(info, _) => Observed(cr, info)
    case GrowMarked(info) => Observed(cr, info)
    case GroupWaits(info) => ObservedSg(cr, info)
    case GroupFailed(info, _) => Observed(cr, info)
    case GroupMarked(info) => ObservedSg(cr, info)
    case Full(info, o) => TaggedCr(ObservedSg(cr, info), o)
  }

  function EndWhy(end: PollEnd): Why {
    match end
    case ShowFailed(e) => FailureNote(e)
    case Recreated => RecreateNote
    case Errored(_) => ErroredNote
    case GrowWaits(_) => ExpandWait
    case GrowFailed(_, e) => FailureNote(e)
    case GrowMarked(_) => ExpandMarked
    case GroupWaits(_) => SgWait
    case GroupFailed(_, e) => FailureNote(e)
    case GroupMarked(_) => SgMarked
    case Full(_, _) => Settled
  }

  /** `cr` is the object that a poll of `h` with this end writes, at some clock readings. */
  ghost predicate Ended(h: Cr, end: PollEnd, cr: Cr, es: seq<Entry>) {
    Told(es, EndSets(h, end), h.generation) && cr == Noted(EndCr(h, end), es)
  }

  /** Only the status changes, and the id only when the share is gone. */
  lemma EndKeeps(h: Cr, end: PollEnd, cr: Cr, es: seq<Entry>)
    requires Ended(h, end, cr, es)
    ensures cr.(status := h.status) == h && cr.status.fsId == (if end.Recreated? then NO_FS else h.status.fsId)
    ensures end.Full? ==> cr.status.exportPath == end.info.exportLocation
  {
    hide EndSets, Replay;
  }

  // ---------------------------------------------------------------- what it says

  /** Failed is True afterwards. */
  predicate FailedAfter(h: Cr, end: PollEnd) {
    match end
    case ShowFailed(_) => true
    case Recreated => HasTrue(h.status.conditions, Failed)
    case Errored(_) => true
    case GrowWaits(_) => false
    case GrowFailed(_, _) => true
    case GrowMarked(_) => false
    case Full(info, o) => Verdict(h, info, o).Some?
    case _ => Verdict(h, end.info, Skipped).Some?
  }

  lemma SizedSay(cr: Cr, info: ShareInfo, t: CondType)
    ensures LastSay(SizedSets(cr, info), t) ==
            Or(First(DriftSets(cr.spec, info), t), Or(First(ResizeSets(cr, info), t), LastSay(ReadySets(info), t)))
  {
    hide LastSay;
    LastSayAppend(ReadySets(info) + ResizeSets(cr, info), DriftSets(cr.spec, info), t);
    LastSayAppend(ReadySets(info), ResizeSets(cr, info), t);
    OneSays(ResizeSets(cr, info), t);
    OneSays(DriftSets(cr.spec, info), t);
  }

  /** The last update of Failed, end by end. */
  lemma EndSays(h: Cr, end: PollEnd)
    ensures var say := LastSay(EndSets(h, end), Failed);
            && (say.None? <==> end.Recreated?)
            && (say.Some? ==> say.value.status != Unknown && (FailedAfter(h, end) <==> say.value.status == True))
  {
    hide LastSay, SizedSets, FullSets;
    match end
    case ShowFailed(e) => OneSays(FailureSets(e), Failed);
    case Recreated => OneSays(RecreateSets(), Failed);
    case Errored(info) => ErroredSays(info);
    case Full(info, o) => FullSetsSay(h, info, o);
    case GrowWaits(info) => ReadySay(info);
    case GrowFailed(info, e) =>
      LastSayAppend(ReadySets(info), FailureSets(e), Failed);
      OneSays(FailureSets(e), Failed);
    case GrowMarked(info) =>
      ReadySay(info);
      LastSayAppend(ReadySets(info), ExpandingSets(h, info), Failed);
      OneSays(ExpandingSets(h, info), Failed);
    case _ => GroupSays(h, end);
  }

  lemma ErroredSays(info: ShareInfo)
    ensures LastSay(ErroredSets(info), Failed) == Some(ErroredSets(info)[0])
  {
  }

  lemma GroupSays(h: Cr, end: PollEnd)
    requires end.GroupWaits? || end.GroupFailed? || end.GroupMarked?
    ensures var say := LastSay(EndSets(h, end), Failed);
            say.Some? && say.value.status != Unknown && (FailedAfter(h, end) <==> say.value.status == True)
  {
    hide LastSay, SizedSets;
    var info := end.info;
    var last := if end.GroupWaits? then [SgPendingSet(info.subStatus)]
                else if end.GroupFailed? then SgFailedSets(end.err) else [SgPendingSet(h.spec.sg)];
    LastSayAppend(SizedSets(h, info), last, Failed);
    OneSays(last, Failed);
    SizedSay(h, info, Failed);
    ReadySay(info);
  }

  /** The verdict of every poll that writes the status: Failed is True afterwards exactly when the share
      could not be shown, is in an error state or could not be expanded, or when an available share that
      is large enough has a refused shrink, a changed immutable field or, at the end, failed tags; a
      share that is gone leaves Failed alone. */
  lemma EndVerdict(h: Cr, end: PollEnd, cr: Cr, es: seq<Entry>)
    requires UniqueTypes(h.status.conditions) && Ended(h, end, cr, es)
    ensures UniqueTypes(cr.status.conditions) && (HasTrue(cr.status.conditions, Failed) <==> FailedAfter(h, end))
  {
    hide LastSay, EndSets, Replay, Find, HasTrue, FailedAfter;
    KeepsConditions(h, end);
    EndSays(h, end);
    AfterCalls(h.status.conditions, EndSets(h, end), h.generation, es, Failed);
    if end.Recreated? { RecreatedKeeps(h); }
  }

  lemma KeepsConditions(h: Cr, end: PollEnd)
    ensures EndCr(h, end).status.conditions == h.status.conditions && EndCr(h, end).generation == h.generation
  {
  }

  lemma RecreatedKeeps(h: Cr)
    ensures FailedAfter(h, Recreated) <==> HasTrue(h.status.conditions, Failed)
  {
  }

  // ---------------------------------------------------------------- on values

  /** What each end leaves in the status, value by value. */
  ghost predicate Leaves(h: Cr, end: PollEnd, cr: Cr) {
    var cs, was, gen := cr.status.conditions, h.status.conditions, h.generation;
    match end
    case ShowFailed(e) =>
      && Says(cs, CondSet(Failed, True, HuaweiAPIError, ErrText(e)), gen)
      && cr == h.(status := h.status.(conditions := cs))
    case Recreated =>
      && Says(cs, CondSet(Ready, False, HuaweiAPIError, Fixed), gen) && Keeps(was, cs, Expanding) && Keeps(was, cs, Failed)
      && cr == h.(status := h.status.(conditions := cs, fsId := 0, exportPath := ""))
    case Errored(info) =>
      && Says(cs, CondSet(Failed, True, FsCreateFailed, About(info.status)), gen)
      && Says(cs, CondSet(Provisioning, False, FsCreateFailed, Fixed), gen)
      && cr == h.(status := h.status.(conditions := cs))
    case Full(info, o) =>
      && (exists say :: SaysFailed(h, info, o, say) && Says(cs, say, gen))
      && Says(cs, if o.Aligned? && o.changed then CondSet(Ready, True, TagsReconciled, Fixed)
                  else CondSet(Ready, True, FsCreated, About(info.exportLocation)), gen)
      && Says(cs, CondSet(Provisioning, False, FsCreated, Fixed), gen)
      && cr == h.(status := h.status.(conditions := cs, exportPath := info.exportLocation, size := info.size,
                                      observedGeneration := h.generation, sg := info.sg,
                                      tags := if o.Aligned? then o.live else h.status.tags))
    case GrowWaits(info) =>
      LeavesSeen(h, info, h.status.sg, cr) && Says(cs, CondSet(Failed, False, FsCreated, Fixed), gen) && Keeps(was, cs, Expanding)
    case GrowFailed(info, e) =>
      && LeavesSeen(h, info, h.status.sg, cr)
      && Says(cs, CondSet(Failed, True, HuaweiAPIError, ErrText(e)), gen) && Keeps(was, cs, Expanding)
    case GrowMarked(info) =>
      && LeavesSeen(h, info, h.status.sg, cr)
      && Says(cs, CondSet(Expanding, True, FsExpandPending, Sizes(info.size, h.spec.size)), gen)
    case GroupWaits(info) =>
      && LeavesSeen(h, info, info.sg, cr)
      && Says(cs, CondSet(UpdatingSecurityGroup, True, SgUpdatePending, About(info.subStatus)), gen)
    case GroupFailed(info, e) =>
      && LeavesSeen(h, info, h.status.sg, cr)
      && Says(cs, CondSet(UpdatingSecurityGroup, False, SgUpdateFailed, ErrText(e)), gen)
    case GroupMarked(info) =>
      && LeavesSeen(h, info, info.sg, cr)
      && Says(cs, CondSet(UpdatingSecurityGroup, True, SgUpdatePending, About(h.spec.sg)), gen)
  }

  /** What every early end on an available share leaves. */
  ghost predicate LeavesSeen(h: Cr, info: ShareInfo, sg: string, cr: Cr) {
    var cs, was, gen := cr.status.conditions, h.status.conditions, h.generation;
    && Says(cs, CondSet(Ready, True, FsCreated, About(info.exportLocation)), gen)
    && Says(cs, CondSet(Provisioning, False, FsCreated, Fixed), gen)
    && Keeps(was, cs, Deleting)
    && cr == h.(status := h.status.(conditions := cs, exportPath := info.exportLocation, size := info.size,
                                    observedGeneration := h.generation, sg := sg))
  }

  lemma SizedSays(cr: Cr, info: ShareInfo)
    ensures LastSay(SizedSets(cr, info), Ready) == Some(ReadySets(info)[0])
    ensures LastSay(SizedSets(cr, info), Provisioning) == Some(ReadySets(info)[1])
    ensures LastSay(SizedSets(cr, info), Deleting) == None
  {
    hide LastSay, SizedSets, ImmutableDrift;
    ReadySay(info);
    SizedSay(cr, info, Ready);
    SizedSay(cr, info, Provisioning);
    SizedSay(cr, info, Deleting);
  }

  /** An end of the form: some updates `first`, and then one more. */
  lemma OneMore(h: Cr, first: seq<CondSet>, x: CondSet, cr: Cr, es: seq<Entry>, t: CondType)
    requires UniqueTypes(h.status.conditions) && Told(es, first + [x], h.generation)
    requires cr.status.conditions == Replay(h.status.conditions, es)
    ensures var cs, was, say := cr.status.conditions, h.status.conditions, LastSay(first, t);
            if t == x.ctype then Says(cs, x, h.generation)
            else if say.Some? then Says(cs, say.value, h.generation) else Keeps(was, cs, t)
  {
    hide LastSay, Replay, Says, Keeps, Told, HasTrue;
    LastSayAppend(first, [x], t);
    OneSays([x], t);
    Spoken(h.status.conditions, first + [x], h.generation, es, t);
  }

  lemma LeavesGrown(h: Cr, end: PollEnd, cr: Cr, es: seq<Entry>)
    requires UniqueTypes(h.status.conditions) && Ended(h, end, cr, es) && (end.GrowFailed? || end.GrowMarked?)
    ensures Leaves(h, end, cr)
  {
    hide LastSay, Replay, Says, Keeps, Told, HasTrue, ReadySets;
    var info := end.info;
    var x := if end.GrowFailed? then FailureSets(end.err)[0] else ExpandingSets(h, info)[0];
    assert EndSets(h, end) == ReadySets(info) + [x];
    ReadyValues(info);
    OneMore(h, ReadySets(info), x, cr, es, Ready);
    OneMore(h, ReadySets(info), x, cr, es, Provisioning);
    OneMore(h, ReadySets(info), x, cr, es, Failed);
    OneMore(h, ReadySets(info), x, cr, es, Expanding);
    OneMore(h, ReadySets(info), x, cr, es, Deleting);
  }

  lemma ReadyValues(info: ShareInfo)
    ensures LastSay(ReadySets(info), Ready) == Some(CondSet(Ready, True, FsCreated, About(info.exportLocation)))
    ensures LastSay(ReadySets(info), Provisioning) == Some(CondSet(Provisioning, False, FsCreated, Fixed))
    ensures LastSay(ReadySets(info), Failed) == Some(CondSet(Failed, False, FsCreated, Fixed))
    ensures LastSay(ReadySets(info), Deleting) == None && LastSay(ReadySets(info), Expanding) == None
    ensures LastSay(ReadySets(info), UpdatingSecurityGroup) == None
  {
    ReadySay(info);
  }

  lemma LeavesGroup(h: Cr, end: PollEnd, cr: Cr, es: seq<Entry>)
    requires UniqueTypes(h.status.conditions) && Ended(h, end, cr, es)
    requires end.GroupWaits? || end.GroupFailed? || end.GroupMarked?
    ensures Leaves(h, end, cr)
  {
    hide LastSay, Replay, Says, Keeps, Told, HasTrue, SizedSets;
    var info := end.info;
    var x := if end.GroupWaits? then SgPendingSet(info.subStatus)
             else if end.GroupFailed? then SgFailedSets(end.err)[0] else SgPendingSet(h.spec.sg);
    assert EndSets(h, end) == SizedSets(h, info) + [x];
    SizedSays(h, info);
    OneMore(h, SizedSets(h, info), x, cr, es, Ready);
    OneMore(h, SizedSets(h, info), x, cr, es, Provisioning);
    OneMore(h, SizedSets(h, info), x, cr, es, Deleting);
    OneMore(h, SizedSets(h, info), x, cr, es, UpdatingSecurityGroup);
  }

  lemma LeavesShort(h: Cr, end: PollEnd, cr: Cr, es: seq<Entry>)
    requires UniqueTypes(h.status.conditions) && Ended(h, end, cr, es)
    requires end.ShowFailed? || end.Recreated? || end.Errored? || end.GrowWaits?
    ensures Leaves(h, end, cr)
  {
    hide Replay, Says, Keeps, Told, HasTrue, Find;
    var was, sets := h.status.conditions, EndSets(h, end);
    if end.GrowWaits? { ReadyValues(end.info); }
    Spoken(was, sets, h.generation, es, Ready);
    Spoken(was, sets, h.generation, es, Provisioning);
    Spoken(was, sets, h.generation, es, Failed);
    Spoken(was, sets, h.generation, es, Expanding);
    Spoken(was, sets, h.generation, es, Deleting);
  }

  /** Every poll that writes the status leaves these values. */
  lemma EndValues(h: Cr, end: PollEnd, cr: Cr, es: seq<Entry>)
    requires UniqueTypes(h.status.conditions) && Ended(h, end, cr, es)
    ensures Leaves(h, end, cr)
  {
    hide Leaves, Ended;
    if end.GrowFailed? || end.GrowMarked? { LeavesGrown(h, end, cr, es); }
    else if end.GroupWaits? || end.GroupFailed? || end.GroupMarked? { LeavesGroup(h, end, cr, es); }
    else if !end.Full? { LeavesShort(h, end, cr, es); }
    else { LeavesFull(h, end, cr, es); }
  }

  lemma LeavesFull(h: Cr, end: PollEnd, cr: Cr, es: seq<Entry>)
    requires UniqueTypes(h.status.conditions) && Ended(h, end, cr, es) && end.Full?
    ensures Leaves(h, end, cr)
  {
    hide Replay, Says, Keeps, Told, HasTrue, Find, FullSets, SaysFailed, UniqueTypes;
    PollVerdict(h, end.info, end.tags, es);
  }

  // ---------------------------------------------------------------- which transition times move

  /** The poll said that nothing has failed, and then that something has. */
  predicate Flickers(h: Cr, end: PollEnd) {
    !end.ShowFailed? && !end.Recreated? && !end.Errored? && FailedAfter(h, end)
  }

  /** All calls for type t say the same status. */
  ghost predicate OneVoice(sets: seq<CondSet>, t: CondType) {
    forall i, j | 0 <= i < |sets| && 0 <= j < |sets| && sets[i].ctype == t && sets[j].ctype == t :: sets[i].status == sets[j].status
  }

  lemma VoiceOfFull(h: Cr, info: ShareInfo, o: TagOutcome, t: CondType)
    requires t == Failed ==> Verdict(h, info, o) == None
    ensures OneVoice(FullSets(h, info, o), t)
  {
    hide HasTrue;
  }

  lemma VoiceOfEnd(h: Cr, end: PollEnd, t: CondType)
    requires !(t == Failed && Flickers(h, end))
    ensures OneVoice(EndSets(h, end), t)
  {
    hide FullSets;
    if end.Full? { VoiceOfFull(h, end.info, end.tags, t); }
  }

  lemma FlickerCalls(h: Cr, end: PollEnd, es: seq<Entry>)
    requires Flickers(h, end) && Told(es, EndSets(h, end), h.generation)
    ensures Interrupts(es, Failed, True)
  {
    hide Told;
    StartsReady(h, end);
    ToldAt(es, EndSets(h, end), h.generation, 2);
    assert es[2].say.ctype == Failed && es[2].say.status != True;
  }

  lemma ToldAt(es: seq<Entry>, sets: seq<CondSet>, gen: nat, i: nat)
    requires Told(es, sets, gen) && i < |sets|
    ensures i < |es| && es[i].say == sets[i]
  {
  }

  lemma StartsReady(h: Cr, end: PollEnd)
    requires Flickers(h, end)
    ensures |EndSets(h, end)| >= 3 && EndSets(h, end)[2] == ReadySets(end.info)[2]
  {
  }

  lemma {:induction false} LastSayIn(sets: seq<CondSet>, t: CondType)
    ensures var say := LastSay(sets, t);
            && (say.Some? ==> exists k | 0 <= k < |sets| :: sets[k].ctype == t && sets[k] == say.value)
            && (say.None? ==> forall k | 0 <= k < |sets| :: sets[k].ctype != t)
  {
    if sets != [] && sets[|sets| - 1].ctype != t {
      var n := |sets| - 1;
      LastSayIn(sets[..n], t);
      assert forall k | 0 <= k < n :: sets[..n][k] == sets[k];
    }
  }

  lemma NoInterrupt(sets: seq<CondSet>, gen: nat, es: seq<Entry>, t: CondType, status: CondStatus)
    requires OneVoice(sets, t) && Told(es, sets, gen)
    requires LastSay(sets, t).Some? ==> LastSay(sets, t).value.status == status
    ensures !Interrupts(es, t, status)
  {
    hide LastSay;
    LastSayIn(sets, t);
  }

  lemma FlickerIsTrue(h: Cr, end: PollEnd, cr: Cr, es: seq<Entry>)
    requires UniqueTypes(h.status.conditions) && Ended(h, end, cr, es) && Flickers(h, end)
    requires Has(cr.status.conditions, Failed)
    ensures Entered(cr.status.conditions, Failed).status == True
  {
    hide Ended, FailedAfter, HasTrue, Find;
    EndVerdict(h, end, cr, es);
    HasTrueIsFound(cr.status.conditions, Failed);
  }

  /** Over any poll that writes the status, a condition whose status is the same before and after keeps
      its transition time, with one exception: Failed, when it was and stays True on an available share,
      gets a time read in this pass. So if the clock has moved on, that is exactly when a time moves. */
  lemma RetimedOverPoll(h: Cr, end: PollEnd, cr: Cr, es: seq<Entry>, t: CondType)
    requires UniqueTypes(h.status.conditions) && Ended(h, end, cr, es)
    requires Has(h.status.conditions, t) && Has(cr.status.conditions, t)
    requires Entered(cr.status.conditions, t).status == Entered(h.status.conditions, t).status
    ensures var was, now, exception := Entered(h.status.conditions, t), Entered(cr.status.conditions, t), t == Failed && Flickers(h, end);
            && (!exception ==> now.since == was.since)
            && (exception ==> was.status == True && TimedBy(es, Failed, True, now.since))
            && ((forall i | 0 <= i < |es| :: es[i].at > was.since) ==> (now.since != was.since <==> exception))
  {
    hide LastSay, EndSets, Replay, Find, HasTrue, FailedAfter, Flickers;
    var before, st := h.status.conditions, Entered(h.status.conditions, t).status;
    KeepsConditions(h, end);
    RetimedExactly(before, es, t);
    AfterCalls(before, EndSets(h, end), h.generation, es, t);
    if t == Failed && Flickers(h, end) {
      FlickerCalls(h, end, es);
      FlickerIsTrue(h, end, cr, es);
    } else {
      VoiceOfEnd(h, end, t);
      NoInterrupt(EndSets(h, end), h.generation, es, t, st);
    }
  }
}
