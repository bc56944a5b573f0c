/** In every run, what a poll writes is the declared function of what it read. */
module PollRuns {
  import opened Errors
  import opened Conditions
  import opened Types
  import opened Poll
  import opened Protocol
  import opened PollEnds
  import opened Safety
  import opened Guarantees
  import opened Passes
  import opened Tags

  // ---------------------------------------------------------------- what is declared

  /** The resource is one that a pass polls. */
  predicate Polls(h: Cr) {
    !h.deleted && h.finalizer && !h.spec.paused && h.status.fsId != NO_FS
  }

  /** How the tags came out. They were left alone exactly when the group is changing. When they were
      reconciled, the live tags are the desired ones, `changed` says whether a call was needed, and the
      calls are exactly one for each key that differed in the listing. When that failed, it failed at the
      listing, or the last call is for a key that the calls before it had left to do. */
  ghost predicate OutcomeOk(cr: Cr, info: ShareInfo, o: TagOutcome, pass: seq<Call>, listed: Option<map<string, string>>) {
    match o
    case Skipped => info.subStatus == "132"
    case Aligned(live, changed) =>
      && info.subStatus != "132" && live == cr.spec.tags && (changed <==> pass != [])
      && listed.Some? && Did(pass, listed.value, live, cr.spec.tags)
    case TagFailed(_) => info.subStatus != "132" && StoppedAt(pass, listed, cr.spec.tags)
  }

  /** A status write of a poll: how the poll of `h` ended, from what the pass was told and did. */
  ghost predicate Declared(h: Cr, l: Log, cr: Cr, why: Why) {
    exists end, es ::
      && EndFits(h, l.seen, end) && EndWhy(end) == why && Ended(h, end, cr, es)
      && (end.Full? ==> OutcomeOk(h, end.info, end.tags, l.pass, l.listed))
  }

  // ---------------------------------------------------------------- on the way there

  predicate IsMid(c: Call) { c.ExpandShare? || c.ChangeSg? || c.ShowTags? || IsTagCall(c) }

  /** The object in memory at a call of the poll: the branch is decided, and these updates are made. */
  function MidSets(h: Cr, c: Call): seq<CondSet>
    requires IsMid(c)
  {
    if c.ExpandShare? then ReadySets(c.info)
    else if c.ChangeSg? then SizedSets(h, c.info)
    else SizedSets(h, c.info) + SgDoneSets(h, c.info)
  }

  function MidCr(h: Cr, c: Call): Cr
    requires IsMid(c)
  {
    if c.ExpandShare? || c.ChangeSg? then Observed(h, c.info) else ObservedSg(h, c.info)
  }

  predicate MidFits(h: Cr, c: Call)
    requires IsMid(c)
  {
    && c.info.status == "200"
    && (c.ExpandShare? <==> c.info.size > 0 && h.spec.size > c.info.size) && (c.ExpandShare? ==> !HasTrue(h.status.conditions, Expanding))
    && (!c.ExpandShare? ==> (c.ChangeSg? <==> h.spec.sg != "" && h.spec.sg != c.info.sg))
    && (!c.ExpandShare? ==> c.info.subStatus != "132")
  }

  ghost predicate Half(h: Cr, c: Call, es: seq<Entry>)
    requires IsMid(c)
  {
    Told(es, MidSets(h, c), h.generation) && c.snap.cr == Noted(MidCr(h, c), es)
  }

  ghost predicate PollHalf(h: Cr, c: Call)
    requires IsMid(c)
  {
    MidFits(h, c) && exists es :: Half(h, c, es)
  }

  ghost predicate PollCallOk(w: World, c: Call)
    requires !c.ReadCr? && c.snap.rv < |w.hist|
  {
    var h := w.hist[c.snap.rv];
    && (IsMid(c) ==> PollHalf(h, c))
    && (c.UpdateStatus? && Polls(h) ==> Declared(h, w.log, c.snap.cr, c.why))
  }

  ghost predicate PollOk(w: World) {
    w.pc.At? && !w.pc.call.ReadCr? && w.pc.call.snap.rv < |w.hist| ==> PollCallOk(w, w.pc.call)
  }

  // ---------------------------------------------------------------- step by step

  /** The updates of two parts of a pass make those of the whole. */
  lemma Composed(h: Cr, last: Call, es1: seq<Entry>, end: PollEnd, sets: seq<CondSet>, s: Snap, why: Why, c: Call, es2: seq<Entry>)
    requires IsMid(last) && Half(h, last, es1) && Writes(s, sets, why, c, es2)
    requires EndSets(h, end) == MidSets(h, last) + sets
    requires s.cr.status.conditions == last.snap.cr.status.conditions
    requires s.cr.(status := s.cr.status.(conditions := h.status.conditions)) == EndCr(h, end)
    ensures Ended(h, end, c.snap.cr, es1 + es2)
  {
    hide MidSets, EndSets, Replay, EndCr;
    KeepsConditions(h, end);
    ReplaySplit(h.status.conditions, es1, es2);
  }

  lemma PollToCall(s: Snap, info: ShareInfo, c: Call, es: seq<Entry>)
    requires IsAvailable(info.status) && FollowsAvailable(s, info, c, es) && !c.UpdateStatus?
    ensures IsMid(c) && c.info == info && c.snap.rv == s.rv && MidFits(s.cr, c) && Half(s.cr, c, es)
  {
    hide SizedSets, SgDoneSets, ReadySets, HasTrue, Replay;
  }

  lemma PollToWrite(s: Snap, info: ShareInfo, c: Call, es: seq<Entry>) returns (end: PollEnd)
    requires IsAvailable(info.status) && FollowsAvailable(s, info, c, es) && c.UpdateStatus?
    ensures c.snap.rv == s.rv && EndFits(s.cr, Some(info), end) && EndWhy(end) == c.why
    ensures Ended(s.cr, end, c.snap.cr, es)
    ensures end.GrowWaits? || end.GroupWaits? || end.Full?
    ensures end.Full? ==> end.tags == Skipped && info.subStatus == "132"
  {
    hide SizedSets, SgDoneSets, ReadySets, HasTrue, Replay;
    end := if Grows(s.cr.spec, info) then GrowWaits(info) else if SgDrifts(s.cr.spec, info) then GroupWaits(info)
           else Full(info, Skipped);
    if end.Full? { SkippedSets(s.cr, info); }
  }

  lemma SkippedSets(cr: Cr, info: ShareInfo)
    ensures FullSets(cr, info, Skipped) == SizedSets(cr, info) + SgDoneSets(cr, info)
  {
  }

  lemma PollToEnd(s: Snap, r: Reply, c: Call, es: seq<Entry>) returns (end: PollEnd)
    requires FollowsPoll(s, r, c, es) && !(r.Info? && IsAvailable(r.info.status))
    ensures c.UpdateStatus? && EndFits(s.cr, if r.Info? then Some(r.info) else None, end) && !end.Full?
    ensures c.snap.rv == s.rv && EndWhy(end) == c.why && Ended(s.cr, end, c.snap.cr, es)
  {
    hide Replay, IsFsNotFound, HasTrue;
    end := if r.Info? then Errored(r.info)
           else if IsFsNotFound(Cooked(OpShow, r.err)) then Recreated else ShowFailed(Cooked(OpShow, r.err));
  }

  /** After the share was shown. */
  lemma LastShow(w: World, s: Snap, r: Reply, c: Call, es: seq<Entry>)
    requires w.pc == At(ShowShare(s), r) && CallOk(w, ShowShare(s)) && PassOk(w) && FollowsPoll(s, r, c, es)
    requires c.snap.rv == s.rv < |w.hist|
    ensures PollCallOk(w, c)
  {
    hide FollowsAvailable, FollowsPoll, Ended, EndFits, Half, MidFits, Did, Guard;
    ShownIsRead(w, s);
    if r.Info? && IsAvailable(r.info.status) {
      FollowsAsAvailable(s, r, c, es);
      if c.UpdateStatus? {
        var end := PollToWrite(s, r.info, c, es);
        EndInfo(s.cr, w.log.seen, end);
      } else {
        PollToCall(s, r.info, c, es);
      }
    } else {
      var end := PollToEnd(s, r, c, es);
    }
  }

  lemma EndInfo(cr: Cr, seen: Option<ShareInfo>, end: PollEnd)
    requires EndFits(cr, seen, end)
    ensures end.Full? ==> seen == Some(end.info)
  {
  }

  lemma FollowsAsAvailable(s: Snap, r: Reply, c: Call, es: seq<Entry>)
    requires FollowsPoll(s, r, c, es) && r.Info? && IsAvailable(r.info.status)
    ensures FollowsAvailable(s, r.info, c, es)
  {
    hide FollowsAvailable;
  }

  lemma ShownIsRead(w: World, s: Snap)
    requires CallOk(w, ShowShare(s))
    ensures s.rv < |w.hist| && s.cr == w.hist[s.rv]
  {
  }

  /** After an expansion or a change of the group was asked for. */
  lemma LastChange(h: Cr, last: Call, r: Reply, c: Call, es: seq<Entry>) returns (end: PollEnd)
    requires (last.ExpandShare? || last.ChangeSg?) && PollHalf(h, last) && Follows(At(last, r), c, es)
    ensures c.UpdateStatus? && c.snap.rv == last.snap.rv && EndFits(h, Some(last.info), end)
    ensures EndWhy(end) == c.why && !end.Full?
    ensures exists es' :: Ended(h, end, c.snap.cr, es')
  {
    hide Half, Ended, SizedSets, ReadySets, HasTrue, Replay, FollowsExpand, FollowsSg;
    var es1 :| Half(h, last, es1);
    if last.ExpandShare? {
      end := LastExpand(h, last, es1, r, c, es);
    } else {
      end := LastGroup(h, last, es1, r, c, es);
    }
  }

  lemma MidStatus(h: Cr, c: Call, es: seq<Entry>)
    requires IsMid(c) && Half(h, c, es)
    ensures c.snap.cr.(status := c.snap.cr.status.(conditions := h.status.conditions)) == MidCr(h, c)
    ensures c.snap.cr.(status := h.status) == h && c.snap.cr.status.fsId == h.status.fsId
  {
    hide MidSets, Replay;
  }

  lemma LastExpand(h: Cr, last: Call, es1: seq<Entry>, r: Reply, c: Call, es: seq<Entry>) returns (end: PollEnd)
    requires last.ExpandShare? && MidFits(h, last) && Half(h, last, es1)
    requires FollowsExpand(last.snap, last.info, r, c, es)
    ensures c.UpdateStatus? && c.snap.rv == last.snap.rv && EndFits(h, Some(last.info), end)
    ensures EndWhy(end) == c.why && !end.Full?
    ensures Ended(h, end, c.snap.cr, es1 + es)
  {
    hide Half, Ended, ReadySets, HasTrue, Replay, Writes;
    MidStatus(h, last, es1);
    if r.Done? {
      end := GrowMarked(last.info);
      Composed(h, last, es1, end, ExpandingSets(h, last.info), last.snap, ExpandMarked, c, es);
    } else {
      end := GrowFailed(last.info, Cooked(OpExpand, r.err));
      Composed(h, last, es1, end, FailureSets(end.err), last.snap, FailureNote(end.err), c, es);
    }
    WriteIs(c, es);
  }

  lemma WriteIs(c: Call, es: seq<Entry>)
    ensures forall s, sets, why | Writes(s, sets, why, c, es) :: c.UpdateStatus? && c.why == why && c.snap.rv == s.rv
  {
  }

  lemma LastGroup(h: Cr, last: Call, es1: seq<Entry>, r: Reply, c: Call, es: seq<Entry>) returns (end: PollEnd)
    requires last.ChangeSg? && MidFits(h, last) && Half(h, last, es1) && FollowsSg(last.snap, last.info, r, c, es)
    ensures c.UpdateStatus? && c.snap.rv == last.snap.rv && EndFits(h, Some(last.info), end)
    ensures EndWhy(end) == c.why && !end.Full?
    ensures Ended(h, end, c.snap.cr, es1 + es)
  {
    hide Half, Ended, SizedSets, HasTrue, Replay, Writes;
    MidStatus(h, last, es1);
    var s := last.snap;
    if r.Done? {
      end := GroupMarked(last.info);
      Composed(h, last, es1, end, [SgPendingSet(h.spec.sg)], s.(cr := s.cr.(status := s.cr.status.(sg := last.info.sg))), SgMarked, c, es);
    } else {
      end := GroupFailed(last.info, Cooked(OpChangeSg, r.err));
      Composed(h, last, es1, end, SgFailedSets(end.err), s, FailureNote(end.err), c, es);
    }
    WriteIs(c, es);
  }

  /** The tag outcome of the pass, read off the last call. */
  lemma TagsEnd(last: Call, r: Reply, c: Call, es: seq<Entry>, l: Log) returns (o: TagOutcome)
    requires last.ShowTags? || IsTagCall(last)
    requires FollowsTagCall(last, r, c, es) && c.UpdateStatus?
    requires last.info.subStatus != "132" && (last.ShowTags? <==> l.pass == [])
    requires Counting(last, r, l.pass, l.listed)
    ensures EndsTags(last.snap, o, c, es) && OutcomeOk(last.snap.cr, last.info, o, l.pass, l.listed)
  {
    hide Did, Missing, Extra, Counting;
    var desired := last.snap.cr.spec.tags;
    if LiveAfter(last, r).Some? {
      o := Aligned(LiveAfter(last, r).value, !last.ShowTags?);
      NothingMissing(o.live, desired);
      DidSoFar(last, r, l.pass, l.listed);
    } else {
      o := TagEnd(last, r, c, es);
      Stopped(last, r, l);
    }
  }

  lemma Stopped(last: Call, r: Reply, l: Log)
    requires (last.ShowTags? || IsTagCall(last)) && Counting(last, r, l.pass, l.listed)
    requires (last.ShowTags? <==> l.pass == [])
    ensures StoppedAt(l.pass, l.listed, last.snap.cr.spec.tags)
  {
    hide Did, Missing, Extra;
    assert IsTagCall(last) ==> last.key in Work(last.live, last.snap.cr.spec.tags);
  }

  lemma FullFromHalf(h: Cr, last: Call, es1: seq<Entry>, o: TagOutcome, c: Call, es2: seq<Entry>)
    requires (last.ShowTags? || IsTagCall(last)) && Half(h, last, es1) && EndsTags(last.snap, o, c, es2)
    ensures Ended(h, Full(last.info, o), c.snap.cr, es1 + es2)
  {
    hide Half, Ended, SizedSets, SgDoneSets, TagSets, Replay, Writes;
    MidStatus(h, last, es1);
    var s := last.snap;
    assert FullSets(h, last.info, o) == (SizedSets(h, last.info) + SgDoneSets(h, last.info)) + TagSets(o);
    Composed(h, last, es1, Full(last.info, o), TagSets(o), s.(cr := TaggedCr(s.cr, o)), Settled, c, es2);
  }

  /** After a call on the tags: the next one, or the write. */
  lemma LastTag(w: World, c: Call, es: seq<Entry>)
    requires PassOk(w) && TagsCounted(w) && w.pc.At? && (w.pc.call.ShowTags? || IsTagCall(w.pc.call))
    requires FollowsTagCall(w.pc.call, w.pc.reply, c, es) && !c.ReadCr? && c.snap.rv == w.pc.call.snap.rv < |w.hist|
    requires PollHalf(w.hist[c.snap.rv], w.pc.call)
    ensures PollCallOk(w, c)
  {
    hide Half, Ended, EndFits, FollowsTags, EndsTags, Did, OneClass, Counted, Informed, MidFits, Counting,
         FollowsTagCall, OutcomeOk, DoneBy;
    var last, r, h := w.pc.call, w.pc.reply, w.hist[c.snap.rv];
    var es1 :| Half(h, last, es1);
    if c.UpdateStatus? {
      PassTags(w);
      var o := TagsEnd(last, r, c, es, w.log);
      FullFromHalf(h, last, es1, o, c, es);
      MidStatus(h, last, es1);
      TagsWritten(h, last, o, c, es);
      SameOutcome(last.snap.cr, h, last.info, o, w.log);
    } else {
      TagGoesOn(last, r, c, es);
      SameHalf(h, last, es1, c);
    }
  }

  lemma PassTags(w: World)
    requires PassOk(w) && w.pc.At? && (w.pc.call.ShowTags? || IsTagCall(w.pc.call))
    ensures w.log.seen == Some(w.pc.call.info) && w.pc.call.info.subStatus != "132"
    ensures w.pc.call.ShowTags? <==> w.log.pass == []
  {
  }

  lemma TagsWritten(h: Cr, last: Call, o: TagOutcome, c: Call, es: seq<Entry>)
    requires (last.ShowTags? || IsTagCall(last)) && MidFits(h, last) && EndsTags(last.snap, o, c, es)
    ensures EndFits(h, Some(last.info), Full(last.info, o)) && c.UpdateStatus? && c.why == Settled
    ensures c.snap.rv == last.snap.rv
  {
    hide HasTrue;
  }

  lemma SameOutcome(cr: Cr, h: Cr, info: ShareInfo, o: TagOutcome, l: Log)
    requires OutcomeOk(cr, info, o, l.pass, l.listed) && cr.spec == h.spec
    ensures OutcomeOk(h, info, o, l.pass, l.listed)
  {
  }

  lemma SameHalf(h: Cr, last: Call, es1: seq<Entry>, c: Call)
    requires (last.ShowTags? || IsTagCall(last)) && IsTagCall(c) && c.snap == last.snap && c.info == last.info
    requires MidFits(h, last) && Half(h, last, es1)
    ensures MidFits(h, c) && Half(h, c, es1)
  {
    hide SizedSets, SgDoneSets, HasTrue, Replay;
  }

  // ---------------------------------------------------------------- every run

  lemma NotFromRead(w: World, r: Reply, c: Call, es: seq<Entry>)
    requires VersionsOk(w) && ReplyOk(w, ReadCr, r) && r.Got? && FollowsRead(r.snap, c, es) && !c.ReadCr?
    ensures !IsMid(c) && c.snap.rv < |w.hist| && !(c.UpdateStatus? && Polls(w.hist[c.snap.rv]))
  {
  }

  lemma ShownAlive(w: World, s: Snap, r: Reply, c: Call, es: seq<Entry>)
    requires CallOk(w, ShowShare(s)) && Follows(At(ShowShare(s), r), c, es)
    requires IsMid(c) || (!c.ReadCr? && c.snap.rv == s.rv && Polls(w.hist[s.rv]))
    ensures !s.cr.deleted && FollowsPoll(s, r, c, es)
  {
    hide FollowsPoll;
  }

  lemma NotCreated(w: World, last: Call)
    requires CallOk(w, last) && !last.ReadCr? && last.snap.rv < |w.hist| && Polls(w.hist[last.snap.rv])
    ensures !last.CreateShare? && !last.ListShares? && !last.DeleteShare?
  {
  }

  /** Which calls come before a call of the poll. */
  lemma LastOfPoll(w: World, c: Call, es: seq<Entry>)
    requires VersionsOk(w) && PcOk(w) && w.pc.At? && Follows(w.pc, c, es) && !c.ReadCr? && c.snap.rv < |w.hist|
    requires IsMid(c) || (c.UpdateStatus? && Polls(w.hist[c.snap.rv]))
    ensures !w.pc.call.ReadCr? && !w.pc.call.UpdateStatus? && c.snap.rv == w.pc.call.snap.rv
    ensures var last := w.pc.call;
            last.ShowShare? || last.ExpandShare? || last.ChangeSg? || last.ShowTags? || IsTagCall(last)
  {
    hide CallOk, ReplyOk, FollowsRead, FollowsPoll, FollowsAvailable, FollowsTagCall, FollowsCascade, FollowsEnsure, Polls,
         FollowsDeleteGet, FollowsCreate, FollowsList, FollowsExpand, FollowsSg;
    FollowsPrecedes(w, c, es);
    var last := w.pc.call;
    if last.ReadCr? {
      NotFromRead(w, w.pc.reply, c, es);
    } else {
      ObjectKept(last, w.pc.reply, c, es);
      if !IsMid(c) { NotCreated(w, last); }
    }
  }

  /** What has to hold of a call when it is made. */
  lemma PollCall(w: World, c: Call, es: seq<Entry>)
    requires VersionsOk(w) && PcOk(w) && PassOk(w) && TagsCounted(w) && PollOk(w)
    requires w.pc.At? && Follows(w.pc, c, es) && CallOk(w, c) && !c.ReadCr?
    ensures c.snap.rv < |w.hist| && PollCallOk(w, c)
  {
    hide CallOk, ReplyOk, PassOk, TagsCounted, Follows, FollowsPoll, FollowsTagCall, PollHalf, Declared, Polls,
         VersionsOk;
    CallBound(w, c);
    var last, r := w.pc.call, w.pc.reply;
    if IsMid(c) || (c.UpdateStatus? && Polls(w.hist[c.snap.rv])) {
      LastOfPoll(w, c, es);
      CallBound(w, last);
      if last.ShowShare? {
        ShownAlive(w, last.snap, r, c, es);
        LastShow(w, last.snap, r, c, es);
      } else if last.ExpandShare? || last.ChangeSg? {
        var end := LastChange(w.hist[c.snap.rv], last, r, c, es);
        ChangeDeclared(w, end, c);
      } else {
        TagFollows(last, r, c, es);
        LastTag(w, c, es);
      }
    }
  }

  lemma ChangeDeclared(w: World, end: PollEnd, c: Call)
    requires PassOk(w) && w.pc.At? && (w.pc.call.ExpandShare? || w.pc.call.ChangeSg?) && c.UpdateStatus?
    requires c.snap.rv < |w.hist|
    requires var h := w.hist[c.snap.rv];
             && EndFits(h, Some(w.pc.call.info), end) && EndWhy(end) == c.why && !end.Full?
             && exists es :: Ended(h, end, c.snap.cr, es)
    ensures Declared(w.hist[c.snap.rv], w.log, c.snap.cr, c.why)
  {
    hide EndFits, Ended;
    assert Informed(w.log.pass[0], w.log.seen);
  }

  lemma CallBound(w: World, c: Call)
    requires CallOk(w, c) && !c.ReadCr?
    ensures c.snap.rv < |w.hist|
  {
    hide Guard;
  }

  /** The call has been made, and nothing it rests on has changed. */
  lemma PollMade(w: World, c: Call, o: Outcome)
    requires w.hist != [] && Possible(w, c, o) && !c.ReadCr? && c.snap.rv < |w.hist| && PollCallOk(w, c)
    ensures PollOk(Perform(w, c, o))
  {
    hide Perform, Possible, PollHalf, Declared;
    PassLogged(w, c, o);
    ListedLogged(w, c, o);
    HistGrows(w, c, o);
    var v := Perform(w, c, o);
    assert v.hist[c.snap.rv] == v.hist[..|w.hist|][c.snap.rv];
    if c.UpdateStatus? && Polls(w.hist[c.snap.rv]) { SameLog(w.hist[c.snap.rv], w.log, v.log, c); }
  }

  lemma SameLog(h: Cr, l: Log, m: Log, c: Call)
    requires c.UpdateStatus? && Declared(h, l, c.snap.cr, c.why) && m.seen == l.seen && m.pass == l.pass
    requires m.listed == l.listed
    ensures Declared(h, m, c.snap.cr, c.why)
  {
    hide EndFits, Ended, OutcomeOk;
  }

  lemma PollKept(w: World, v: World)
    requires PollOk(w) && (v.pc == w.pc || v.pc == Idle)
    requires v.log.seen == w.log.seen && v.log.pass == w.log.pass && v.log.listed == w.log.listed
    requires |w.hist| <= |v.hist| && v.hist[..|w.hist|] == w.hist
    requires w.pc.At? && !w.pc.call.ReadCr? ==> w.pc.call.snap.rv < |w.hist|
    ensures PollOk(v)
  {
    hide PollHalf, Declared;
    if v.pc.At? && !v.pc.call.ReadCr? {
      var c := v.pc.call;
      assert v.hist[c.snap.rv] == v.hist[..|w.hist|][c.snap.rv];
      if c.UpdateStatus? && Polls(w.hist[c.snap.rv]) { SameLog(w.hist[c.snap.rv], w.log, v.log, c); }
    }
  }

  lemma EnvGrows(w: World, e: EnvAct)
    requires w.hist != [] && EnvMay(w, e)
    ensures var v := EnvStep(w, e);
            && |w.hist| <= |v.hist| && v.hist[..|w.hist|] == w.hist && v.log.seen == w.log.seen
  {
  }

  lemma PollStep(w: World, a: Act, v: World)
    requires Inv(w) && PassOk(w) && TagsCounted(w) && PollOk(w) && Step(w, a, v)
    ensures PollOk(v)
  {
    hide Inv, PassOk, TagsCounted, PollOk, Follows, Possible, EnvMay, CallOk, ReplyOk, Perform;
    InvParts(w);
    var es :| May(w, a, es) && v == Next(w, a);
    if w.pc.At? && !w.pc.call.ReadCr? { CallBound(w, w.pc.call); }
    match a
    case Do(c, o) =>
      FollowsOk(w, c, es);
      if c.ReadCr? {
        PerformsRead(w, o);
      } else {
        if w.pc.Idle? { FirstIsRead(w.pc, c, es); }
        PollCall(w, c, es);
        PollMade(w, c, o);
      }
    case End(_) => PollKept(w, v);
    case Env(e) => EnvGrows(w, e); CountEnv(w, e); PollKept(w, v);
  }

  lemma PerformsRead(w: World, o: Outcome)
    requires w.hist != [] && Possible(w, ReadCr, o)
    ensures PollOk(Perform(w, ReadCr, o))
  {
  }

  lemma {:induction false} EveryPollIsDeclared(r: Run, i: nat)
    requires IsRun(r) && Initial(r.worlds[0]) && i < |r.worlds|
    ensures PollOk(r.worlds[i])
  {
    hide Inv, PassOk, TagsCounted, PollOk, Step;
    if i == 0 {
      StartsIdle(r.worlds[0]);
    } else {
      EveryPollIsDeclared(r, i - 1);
      EveryPassIsOk(r, i - 1);
      EveryPassIsCounted(r, i - 1);
      RunKeeps(r, i - 1);
      PollStep(r.worlds[i - 1], r.acts[i - 1], r.worlds[i]);
    }
  }

  lemma StartsIdle(w: World)
    requires Initial(w)
    ensures PollOk(w)
  {
  }

  /** Whenever a pass has just written the status of a resource that it polls, in any run and whichever
      way the poll ended: what it wrote is the declared function of the version it read, of what ShowShare
      had reported and of how its calls had gone; it leaves the values declared for that end, and Failed in
      it is the declared verdict. */
  lemma PollWritesTheDeclaredStatus(w: World)
    requires Reachable(w) && w.pc.At? && w.pc.call.UpdateStatus?
    requires w.pc.call.snap.rv < |w.hist| && Polls(w.hist[w.pc.call.snap.rv])
    ensures var h, c := w.hist[w.pc.call.snap.rv], w.pc.call;
            exists end, es ::
              && EndFits(h, w.log.seen, end) && EndWhy(end) == c.why && Ended(h, end, c.snap.cr, es)
              && (end.Full? ==> OutcomeOk(h, end.info, end.tags, w.log.pass, w.log.listed))
              && Leaves(h, end, c.snap.cr) && (HasTrue(c.snap.cr.status.conditions, Failed) <==> FailedAfter(h, end))
  {
    hide Guard, EndFits, Ended, OutcomeOk, FailedAfter, HasTrue, Leaves;
    var r: Run, i: nat :| ReachedIn(w, r, i);
    EveryPollIsDeclared(r, i);
    RunKeeps(r, i);
    var h, c := w.hist[w.pc.call.snap.rv], w.pc.call;
    var end, es :|
      && EndFits(h, w.log.seen, end) && EndWhy(end) == c.why && Ended(h, end, c.snap.cr, es)
      && (end.Full? ==> OutcomeOk(h, end.info, end.tags, w.log.pass, w.log.listed));
    EndVerdict(h, end, c.snap.cr, es);
    EndValues(h, end, c.snap.cr, es);
  }
}
