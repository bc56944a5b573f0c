/** The tag reconciliation: the account of its calls, what a pass does, how much work a run does, and
    what the two loops rest on. */
module Tags {
  import opened Errors
  import opened Conditions
  import opened Types
  import opened Poll
  import opened Protocol
  import opened Safety
  import opened Guarantees
  import opened Markers
  import opened Passes

  // ---------------------------------------------------------------- what is to do

  function Work(live: map<string, string>, desired: map<string, string>): set<string> {
    Missing(live, desired) + Extra(live, desired)
  }

  lemma NothingMissing(live: map<string, string>, desired: map<string, string>)
    requires Missing(live, desired) == {} && Extra(live, desired) == {}
    ensures live == desired
  {
    forall k | k in desired ensures k in live && live[k] == desired[k] {
      assert k !in Missing(live, desired);
    }
    forall k | k in live ensures k in desired {
      assert k !in Extra(live, desired);
    }
  }

  lemma WorkDone(live: map<string, string>, desired: map<string, string>)
    requires Work(live, desired) == {}
    ensures live == desired
  {
    assert Missing(live, desired) <= Work(live, desired) && Extra(live, desired) <= Work(live, desired);
    NothingMissing(live, desired);
  }

  lemma AddDoes(live: map<string, string>, k: string, desired: map<string, string>)
    requires k in Missing(live, desired)
    ensures var next := live[k := desired[k]];
            Missing(next, desired) == Missing(live, desired) - {k} && Extra(next, desired) == Extra(live, desired)
  {
  }

  lemma DeleteDoes(live: map<string, string>, k: string, desired: map<string, string>)
    requires k in Extra(live, desired)
    ensures Missing(live - {k}, desired) == Missing(live, desired)
    ensures Extra(live - {k}, desired) == Extra(live, desired) - {k}
  {
  }

  /** `calls` led from the tags `was` to the tags `live`: an addition for a missing key or a deletion of
      an extra one each, no key twice, every key that is no longer to do has had its call, and none of
      the others has. */
  ghost predicate Did(calls: seq<Call>, was: map<string, string>, live: map<string, string>, desired: map<string, string>) {
    && (forall i | 0 <= i < |calls| ::
          && IsTagCall(calls[i]) && calls[i].key !in Work(live, desired)
          && calls[i].key in if calls[i].AddTag? then Missing(was, desired) else Extra(was, desired))
    && (forall i, j | 0 <= i < j < |calls| :: calls[i].key != calls[j].key)
    && (forall k | k in Work(was, desired) && k !in Work(live, desired) :: exists i | 0 <= i < |calls| :: calls[i].key == k)
    && Missing(live, desired) <= Missing(was, desired) && Extra(live, desired) <= Extra(was, desired)
  }

  lemma DidMore(calls: seq<Call>, was: map<string, string>, live: map<string, string>, next: map<string, string>,
                desired: map<string, string>, c: Call)
    requires Did(calls, was, live, desired) && IsTagCall(c)
    requires c.key in if c.AddTag? then Missing(live, desired) else Extra(live, desired)
    requires Work(next, desired) == Work(live, desired) - {c.key}
    requires Missing(next, desired) <= Missing(live, desired) && Extra(next, desired) <= Extra(live, desired)
    ensures Did(calls + [c], was, next, desired)
  {
    hide Missing, Extra;
    var all := calls + [c];
    forall k | k in Work(was, desired) && k !in Work(next, desired) ensures exists i | 0 <= i < |all| :: all[i].key == k {
      if k in Work(live, desired) {
        assert all[|calls|].key == k;
      } else {
        var i :| 0 <= i < |calls| && calls[i].key == k;
        assert all[i].key == k;
      }
    }
  }

  lemma DidNothing(was: map<string, string>, desired: map<string, string>)
    ensures Did([], was, was, desired) && Missing(was, desired) <= desired.Keys && Extra(was, desired) <= was.Keys
  {
  }

  lemma MissingIff(live: map<string, string>, desired: map<string, string>, k: string)
    ensures k in Missing(live, desired) <==> k in desired && (k !in live || live[k] != desired[k])
    ensures k in Extra(live, desired) <==> k in live && k !in desired
    ensures Missing(live, desired) !! Extra(live, desired)
  {
  }

  /** The live tags as the pass knows them after the last tag call. */
  function LiveAfter(c: Call, r: Reply): Option<map<string, string>>
    requires c.ShowTags? || IsTagCall(c)
  {
    match c
    case ShowTags(_, _) => if r.Tags? then Some(r.tags) else None
    case AddTag(s, _, live, k) => if r.Done? && k in s.cr.spec.tags then Some(live[k := s.cr.spec.tags[k]]) else None
    case DeleteTag(_, _, live, k) =>
      if r.Done? || (r.Failure? && IsNotFound(r.err)) then Some(live - {k}) else None
  }

  /** Additions come before deletions. */
  predicate AddsFirst(calls: seq<Call>) {
    forall i, j | 0 <= i < j < |calls| && calls[i].DeleteTag? :: calls[j].DeleteTag?
  }

  lemma InOrder(adds: seq<Call>, rest: seq<Call>)
    requires forall i | 0 <= i < |adds| :: adds[i].AddTag?
    requires |rest| <= 1 || forall i | 0 <= i < |rest| :: rest[i].DeleteTag?
    ensures AddsFirst(adds + rest)
  {
  }

  /** One more deletion in the account. */
  lemma DropCounts(before: seq<Call>, calls: seq<Call>, was: map<string, string>, live: map<string, string>, k: string,
                   desired: map<string, string>, c: Call)
    requires Did(before + calls, was, live, desired) && k in Extra(live, desired) && c.DeleteTag? && c.key == k
    ensures Did(before + (calls + [c]), was, live - {k}, desired)
    ensures Missing(live - {k}, desired) == Missing(live, desired)
    ensures Extra(live - {k}, desired) == Extra(live, desired) - {k}
  {
    hide Did, Missing, Extra;
    DeleteDoes(live, k, desired);
    MissingIff(live, desired, k);
    DidMore(before + calls, was, live, live - {k}, desired, c);
    assert before + (calls + [c]) == before + calls + [c];
  }

  /** The last of these calls failed, on a key that the calls before it had left to do. */
  ghost predicate StoppedAt(pass: seq<Call>, listed: Option<map<string, string>>, desired: map<string, string>) {
    pass != [] ==>
      && listed.Some? && IsTagCall(pass[|pass| - 1])
      && exists live :: Did(pass[..|pass| - 1], listed.value, live, desired) && pass[|pass| - 1].key in Work(live, desired)
  }

  // ================================================================ every pass

  /** The keys that a call may be for, when the share had the tags `was`. */
  function Due(c: Call, was: map<string, string>): set<string>
    requires IsTagCall(c)
  {
    if c.AddTag? then Missing(was, c.snap.cr.spec.tags) else Extra(was, c.snap.cr.spec.tags)
  }

  /** The tag calls of a pass: each adds a tag that the listing lacked or had with another value, or
      deletes one that it had and that is not desired; no key has two calls. */
  ghost predicate Counted(p: seq<Call>, listed: Option<map<string, string>>) {
    && (forall i | 0 <= i < |p| && IsTagCall(p[i]) :: listed.Some? && p[i].key in Due(p[i], listed.value))
    && (forall i, j | 0 <= i < j < |p| && IsTagCall(p[i]) && IsTagCall(p[j]) :: p[i].key != p[j].key)
  }

  /** The pass holds the reply to `c`; the calls before it did what they were for. */
  ghost predicate Counting(c: Call, r: Reply, p: seq<Call>, listed: Option<map<string, string>>)
    requires c.ShowTags? || IsTagCall(c)
  {
    if c.ShowTags? then p == [] && (r.Tags? ==> listed == Some(r.tags))
    else
      && p != [] && p[|p| - 1] == c && listed.Some?
      && Did(p[..|p| - 1], listed.value, c.live, c.snap.cr.spec.tags) && c.key in Due(c, c.live)
  }

  ghost predicate TagsCounted(w: World) {
    && Counted(w.log.pass, w.log.listed)
    && (w.pc.At? && (w.pc.call.ShowTags? || IsTagCall(w.pc.call)) ==>
          Counting(w.pc.call, w.pc.reply, w.log.pass, w.log.listed))
  }

  /** After a tag call that succeeded, the calls made so far led from the listing to the live tags. */
  lemma DidSoFar(c: Call, r: Reply, p: seq<Call>, listed: Option<map<string, string>>)
    requires (c.ShowTags? || IsTagCall(c)) && Counting(c, r, p, listed) && LiveAfter(c, r).Some?
    ensures listed.Some? && Did(p, listed.value, LiveAfter(c, r).value, c.snap.cr.spec.tags)
  {
    hide Did, Missing, Extra;
    var desired := c.snap.cr.spec.tags;
    if c.ShowTags? {
      DidNothing(r.tags, desired);
    } else {
      assert p == p[..|p| - 1] + [c];
      MissingIff(c.live, desired, c.key);
      if c.AddTag? { AddDoes(c.live, c.key, desired); } else { DeleteDoes(c.live, c.key, desired); }
      DidMore(p[..|p| - 1], listed.value, c.live, LiveAfter(c, r).value, desired, c);
    }
  }

  /** The next tag call is for a key still to do, on the tags as they are now. */
  lemma NextCall(last: Call, r: Reply, c: Call, es: seq<Entry>)
    requires (last.ShowTags? || IsTagCall(last)) && FollowsTagCall(last, r, c, es) && IsTagCall(c)
    ensures c.snap == last.snap && LiveAfter(last, r) == Some(c.live) && c.key in Due(c, c.live)
  {
  }

  lemma CountMore(last: Call, r: Reply, p: seq<Call>, listed: Option<map<string, string>>, c: Call, es: seq<Entry>, r': Reply)
    requires (last.ShowTags? || IsTagCall(last)) && FollowsTagCall(last, r, c, es) && IsTagCall(c)
    requires Counting(last, r, p, listed) && Counted(p, listed)
    ensures Counting(c, r', p + [c], listed) && Counted(p + [c], listed)
  {
    hide FollowsTagCall, Missing, Extra;
    NextCall(last, r, c, es);
    DidSoFar(last, r, p, listed);
    assert (p + [c])[..|p|] == p;
  }

  lemma CountOther(p: seq<Call>, listed: Option<map<string, string>>, c: Call)
    requires Counted(p, listed) && !IsTagCall(c)
    ensures Counted(p + [c], listed)
  {
    hide Due;
  }

  lemma ListedLogged(w: World, c: Call, o: Outcome)
    requires w.hist != [] && Possible(w, c, o)
    ensures var v := Perform(w, c, o);
            v.log.listed == if c.ReadCr? then None
                            else if c.ShowTags? && v.pc.reply.Tags? then Some(v.pc.reply.tags) else w.log.listed
  {
    hide Effect, Truthful;
  }

  lemma CountCall(w: World, c: Call, o: Outcome, es: seq<Entry>)
    requires TagsCounted(w) && PassOk(w) && PcOk(w) && w.hist != [] && Follows(w.pc, c, es) && Possible(w, c, o)
    ensures TagsCounted(Perform(w, c, o))
  {
    hide Follows, PcOk, Perform, Possible, Precedes, Counted, Counting, OneClass, Informed, ToldBy, FollowsTagCall;
    var v := Perform(w, c, o);
    PassLogged(w, c, o);
    ListedLogged(w, c, o);
    if w.pc.Idle? {
      FirstIsRead(w.pc, c, es);
      NoneCounted(None);
    } else {
      FollowsPrecedes(w, c, es);
      if IsTagCall(c) {
        TagPrecedes(w.pc.call, w.pc.reply, c);
        TagFollows(w.pc.call, w.pc.reply, c, es);
        CountMore(w.pc.call, w.pc.reply, w.log.pass, w.log.listed, c, es, v.pc.reply);
      } else if c.ShowTags? {
        NothingBefore(w.pc.call, w.pc.reply, w.log.pass, c);
        NoneCounted(v.log.listed);
        CountStart(c, v.pc.reply, v.log.listed);
      } else if MutatesCloud(c) {
        CountOther(w.log.pass, w.log.listed, c);
      } else if c.ReadCr? {
        NoneCounted(None);
      }
    }
  }

  lemma NoneCounted(listed: Option<map<string, string>>)
    ensures Counted([], listed)
  {
  }

  lemma CountStart(c: Call, r: Reply, listed: Option<map<string, string>>)
    requires c.ShowTags? && (r.Tags? ==> listed == Some(r.tags))
    ensures Counting(c, r, [], listed)
  {
  }

  lemma NothingBefore(last: Call, r: Reply, p: seq<Call>, c: Call)
    requires Precedes(last, r, c) && c.ShowTags? && DoneBy(last, p)
    ensures p == []
  {
  }

  lemma TagPrecedes(last: Call, r: Reply, c: Call)
    requires Precedes(last, r, c) && IsTagCall(c)
    ensures last.ShowTags? || IsTagCall(last)
  {
  }

  lemma TagFollows(last: Call, r: Reply, c: Call, es: seq<Entry>)
    requires (last.ShowTags? || IsTagCall(last)) && Follows(At(last, r), c, es)
    ensures FollowsTagCall(last, r, c, es)
  {
    hide FollowsTagCall;
  }

  lemma CountKept(w: World, v: World)
    requires TagsCounted(w) && v.log.pass == w.log.pass && v.log.listed == w.log.listed
    requires (v.pc == w.pc || v.pc == Idle)
    ensures TagsCounted(v)
  {
    hide Counted, Counting;
  }

  lemma CountEnv(w: World, e: EnvAct)
    requires w.hist != [] && EnvMay(w, e)
    ensures var v := EnvStep(w, e);
            v.log.pass == w.log.pass && v.log.listed == w.log.listed && (v.pc == w.pc || v.pc == Idle)
  {
  }

  lemma CountStep(w: World, a: Act, v: World)
    requires TagsCounted(w) && PassOk(w) && PcOk(w) && Step(w, a, v)
    ensures TagsCounted(v)
  {
    hide TagsCounted, PassOk, PcOk, Follows, Possible, EnvMay;
    var es :| May(w, a, es) && v == Next(w, a);
    match a
    case Do(c, o) => CountCall(w, c, o, es);
    case End(_) => CountKept(w, v);
    case Env(e) => CountEnv(w, e); CountKept(w, v);
  }

  lemma {:induction false} EveryPassIsCounted(r: Run, i: nat)
    requires IsRun(r) && Initial(r.worlds[0]) && i < |r.worlds|
    ensures TagsCounted(r.worlds[i])
  {
    hide Inv, PassOk, TagsCounted, Step;
    if i == 0 {
      CountsNothing(r.worlds[0]);
    } else {
      EveryPassIsCounted(r, i - 1);
      EveryPassIsOk(r, i - 1);
      RunKeeps(r, i - 1);
      InvParts(r.worlds[i - 1]);
      CountStep(r.worlds[i - 1], r.acts[i - 1], r.worlds[i]);
    }
  }

  lemma CountsNothing(w: World)
    requires Initial(w)
    ensures TagsCounted(w)
  {
  }

  /** In every pass of every run, whatever fails and wherever it stops: every tag call is for a key that
      differed in the tags this pass had listed, no key has two, and additions come before deletions. */
  lemma TagCallsAreExact(w: World)
    requires Reachable(w)
    ensures Counted(w.log.pass, w.log.listed)
    ensures forall i, j | 0 <= i < j < |w.log.pass| && IsTagCall(w.log.pass[j]) ::
              IsTagCall(w.log.pass[i]) && (w.log.pass[i].DeleteTag? ==> w.log.pass[j].DeleteTag?)
  {
    hide Counted;
    var r: Run, i: nat :| ReachedIn(w, r, i);
    EveryPassIsCounted(r, i);
    EveryPassIsOk(r, i);
  }

  /** And that listing is what ShowTags answered in the run, after the pass had begun. */
  ghost predicate ListedAt(r: Run, i: nat, k: nat, tags: map<string, string>) {
    && k < i <= |r.acts| && r.acts[k].Do? && r.acts[k].call.ShowTags? && r.acts[k].outcome == Answered(Tags(tags))
    && forall j | k < j < i :: !(r.acts[j].Do? && r.acts[j].call.ReadCr?)
  }

  lemma ListedStep(w: World, a: Act, v: World)
    requires Step(w, a, v)
    ensures v.log.listed == if a.Do? && a.call.ReadCr? then None
                            else if a.Do? && a.call.ShowTags? && a.outcome.Answered? && a.outcome.reply.Tags?
                                 then Some(a.outcome.reply.tags) else w.log.listed
  {
    hide Follows, Possible, EnvMay, Effect;
    var es :| May(w, a, es) && v == Next(w, a);
    match a
    case Do(c, o) => ListedLogged(w, c, o);
    case End(_) =>
    case Env(e) => CountEnv(w, e);
  }

  lemma {:induction false} ListedIsAnswered(r: Run, i: nat)
    requires IsRun(r) && Initial(r.worlds[0]) && i < |r.worlds| && r.worlds[i].log.listed.Some?
    ensures exists k: nat :: ListedAt(r, i, k, r.worlds[i].log.listed.value)
  {
    hide Step;
    if i > 0 {
      var a, tags := r.acts[i - 1], r.worlds[i].log.listed.value;
      ListedStep(r.worlds[i - 1], a, r.worlds[i]);
      if a.Do? && a.call.ShowTags? && a.outcome.Answered? && a.outcome.reply.Tags? {
        assert ListedAt(r, i, i - 1, tags);
      } else {
        ListedIsAnswered(r, i - 1);
        var k: nat :| ListedAt(r, i - 1, k, tags);
        assert ListedAt(r, i, k, tags);
      }
    }
  }

  // ================================================================ whole runs

  /** Tags to add or change, and tags to remove. */
  function Distance(live: map<string, string>, desired: map<string, string>): nat {
    |Missing(live, desired)| + |Extra(live, desired)|
  }

  lemma AddCloses(live: map<string, string>, k: string, desired: map<string, string>)
    requires k in Missing(live, desired)
    ensures Distance(live[k := desired[k]], desired) == Distance(live, desired) - 1
  {
    var next := live[k := desired[k]];
    assert Missing(next, desired) == Missing(live, desired) - {k};
    assert Extra(next, desired) == Extra(live, desired);
  }

  lemma DeleteCloses(live: map<string, string>, k: string, desired: map<string, string>)
    requires k in Extra(live, desired)
    ensures Distance(live - {k}, desired) == Distance(live, desired) - 1
  {
    assert Missing(live - {k}, desired) == Missing(live, desired);
    assert Extra(live - {k}, desired) == Extra(live, desired) - {k};
  }

  /** Share `id` is ours and stays, and every version the worker may still read asks for these tags. */
  ghost predicate Steady(w: World, id: nat, desired: map<string, string>) {
    && id in w.cloud && id in w.log.minted
    && w.cache < |w.hist| && forall j | w.cache <= j < |w.hist| :: w.hist[j].spec.tags == desired
  }

  /** While a pass goes through the tags, its copy of them equals the share's tags. */
  ghost predicate Mirrors(w: World, id: nat, desired: map<string, string>) {
    w.pc.At? && (w.pc.call.ShowTags? || IsTagCall(w.pc.call)) && LiveAfter(w.pc.call, w.pc.reply).Some? ==>
      && w.pc.call.snap.cr.status.fsId == id && w.pc.call.snap.cr.spec.tags == desired
      && id in w.cloud && LiveAfter(w.pc.call, w.pc.reply).value == w.cloud[id].tags
  }

  /** A step that leaves the tags to the operator. */
  ghost predicate LeavesTags(w: World, a: Act) {
    a.Env? ==> !a.act.EditTags? && (a.act.EditSpec? && w.hist != [] ==> a.act.spec.tags == Current(w).spec.tags)
  }

  lemma NextTag(w: World, c: Call, es: seq<Entry>, id: nat, desired: map<string, string>)
    requires Steady(w, id, desired) && Mirrors(w, id, desired) && w.pc.At? && Follows(w.pc, c, es) && IsTagCall(c)
    requires w.pc.call.ShowTags? || IsTagCall(w.pc.call)
    ensures c.snap == w.pc.call.snap && c.snap.cr.status.fsId == id && c.snap.cr.spec.tags == desired
    ensures c.live == w.cloud[id].tags
    ensures if c.AddTag? then c.key in Missing(c.live, desired) else c.key in Extra(c.live, desired)
  {
  }

  lemma TagsRead(w: World, c: Call, o: Outcome, id: nat, desired: map<string, string>)
    requires VersionsOk(w) && CloudOk(w) && Steady(w, id, desired) && CallOk(w, c) && c.ShowTags? && Possible(w, c, o)
    ensures Mirrors(Perform(w, c, o), id, desired) && Perform(w, c, o).cloud == w.cloud
  {
    hide Guard;
    assert w.hist[c.snap.rv].spec == c.snap.cr.spec;
  }

  /** What an applied or refused tag call leaves. */
  lemma TagEffect(w: World, c: Call, o: Outcome)
    requires w.hist != [] && IsTagCall(c) && Possible(w, c, o) && c.snap.cr.status.fsId in w.cloud
    requires c.AddTag? ==> c.key in c.snap.cr.spec.tags
    ensures var v, id := Perform(w, c, o), c.snap.cr.status.fsId;
            var was := w.cloud[id].tags;
            && id in v.cloud && v.pc == At(c, ReplyOf(o))
            && v.cloud[id].tags == (if o.Refused? then was
                                    else if c.AddTag? then was[c.key := c.snap.cr.spec.tags[c.key]] else was - {c.key})
            && v.log.tagOk == w.log.tagOk + One(o.Answered?) && v.log.tagBad == w.log.tagBad + One(!o.Answered?)
            && (o.Answered? ==> o.reply.Done?)
            && (c.DeleteTag? && o.Refused? && IsNotFound(o.err) ==> c.key !in was)
  {
  }

  lemma Closes(c: Call, desired: map<string, string>)
    requires IsTagCall(c) && if c.AddTag? then c.key in Missing(c.live, desired) else c.key in Extra(c.live, desired)
    ensures (c.AddTag? ==> c.key in desired) && (c.DeleteTag? ==> c.key in c.live)
    ensures Distance(if c.AddTag? then c.live[c.key := desired[c.key]] else c.live - {c.key}, desired) == Distance(c.live, desired) - 1
  {
    hide Distance;
    if c.AddTag? { AddCloses(c.live, c.key, desired); } else { DeleteCloses(c.live, c.key, desired); }
  }

  lemma TagCall(w: World, c: Call, o: Outcome, es: seq<Entry>, id: nat, desired: map<string, string>)
    requires w.hist != [] && Possible(w, c, o) && IsTagCall(c)
    requires Steady(w, id, desired) && Mirrors(w, id, desired) && Follows(w.pc, c, es)
    requires w.pc.At? && (w.pc.call.ShowTags? || IsTagCall(w.pc.call))
    ensures var v := Perform(w, c, o);
            && id in v.cloud && Mirrors(v, id, desired)
            && Distance(v.cloud[id].tags, desired) + v.log.tagOk <= Distance(w.cloud[id].tags, desired) + w.log.tagOk
            && v.log.tagOk + v.log.tagBad == w.log.tagOk + w.log.tagBad + 1
  {
    hide Follows, Possible, Perform, Distance, Missing, Extra, Steady;
    InCloud(w, id, desired);
    NextTag(w, c, es, id, desired);
    Closes(c, desired);
    TagEffect(w, c, o);
  }

  lemma InCloud(w: World, id: nat, desired: map<string, string>)
    requires Steady(w, id, desired)
    ensures id in w.cloud && w.hist != []
  {
  }

  lemma OtherEffect(w: World, c: Call, id: nat)
    requires w.nextId !in w.cloud && w.hist != [] && id in w.cloud && Accepts(w, c) && !IsTagCall(c)
    ensures id in Effect(w, c).cloud && Effect(w, c).cloud[id].tags == w.cloud[id].tags
  {
    hide CapacityOf, BuildPV, BuildPVC, NameTaken, NewShare;
    assert Commit(w, Current(w)).cloud == w.cloud;
  }

  lemma OtherCall(w: World, c: Call, o: Outcome, id: nat, desired: map<string, string>)
    requires CloudOk(w) && w.hist != [] && id in w.cloud && Possible(w, c, o) && !IsTagCall(c) && !c.ShowTags?
    ensures var v := Perform(w, c, o);
            id in v.cloud && v.cloud[id].tags == w.cloud[id].tags && v.pc == At(c, ReplyOf(o))
  {
    hide Truthful, Tally, Accepts, Effect, Fits;
    if !o.Refused? { OtherEffect(w, c, id); }
  }

  lemma NoMirror(v: World, id: nat, desired: map<string, string>)
    requires v.pc.At? && !v.pc.call.ShowTags? && !IsTagCall(v.pc.call)
    ensures Mirrors(v, id, desired)
  {
  }

  lemma SteadyCall(w: World, c: Call, o: Outcome, id: nat, desired: map<string, string>)
    requires Steady(w, id, desired) && Possible(w, c, o) && id in Perform(w, c, o).cloud
    ensures Steady(Perform(w, c, o), id, desired)
  {
    hide Truthful, CapacityOf, BuildPV, BuildPVC;
  }

  lemma EnvTags(w: World, e: EnvAct, id: nat)
    requires CloudOk(w) && w.hist != [] && EnvMay(w, e) && !e.EditTags? && id in w.cloud && id in EnvStep(w, e).cloud
    ensures EnvStep(w, e).cloud[id].tags == w.cloud[id].tags
    ensures EnvStep(w, e).log.tagOk == w.log.tagOk && EnvStep(w, e).log.tagBad == w.log.tagBad
  {
  }

  lemma EnvDesired(w: World, e: EnvAct)
    requires w.hist != [] && EnvMay(w, e) && LeavesTags(w, Env(e))
    ensures Current(EnvStep(w, e)).spec.tags == Current(w).spec.tags
  {
  }

  lemma TagEnv(w: World, e: EnvAct, id: nat, desired: map<string, string>)
    requires CloudOk(w) && Steady(w, id, desired) && Mirrors(w, id, desired) && EnvMay(w, e) && LeavesTags(w, Env(e))
    requires id in EnvStep(w, e).cloud
    ensures var v := EnvStep(w, e);
            && Steady(v, id, desired) && Mirrors(v, id, desired) && v.cloud[id].tags == w.cloud[id].tags
            && v.log.tagOk == w.log.tagOk && v.log.tagBad == w.log.tagBad
  {
    hide EnvStep, EnvMay, CloudOk;
    EnvVersion(w, e);
    EnvCounts(w, e);
    EnvTags(w, e, id);
    EnvDesired(w, e);
  }

  lemma TagStep(w: World, a: Act, v: World, id: nat, desired: map<string, string>)
    requires Inv(w) && Steady(w, id, desired) && Mirrors(w, id, desired)
    requires Step(w, a, v) && LeavesTags(w, a) && id in v.cloud
    ensures Steady(v, id, desired) && Mirrors(v, id, desired)
    ensures Distance(v.cloud[id].tags, desired) + v.log.tagOk <= Distance(w.cloud[id].tags, desired) + w.log.tagOk
    ensures Distance(v.cloud[id].tags, desired) <= Distance(w.cloud[id].tags, desired)
    ensures w.log.tagOk <= v.log.tagOk && w.log.tagBad <= v.log.tagBad
  {
    hide Inv, Follows, Possible, Perform, EnvMay, EnvStep, CallOk, Mirrors, Distance, Steady;
    InvParts(w);
    InCloud(w, id, desired);
    var es :| May(w, a, es) && v == Next(w, a);
    match a
    case Do(c, o) =>
      FollowsOk(w, c, es);
      if c.ShowTags? {
        TagsRead(w, c, o, id, desired);
        TagLogged(w, c, o);
      } else if IsTagCall(c) {
        TagLast(w, c, es);
        TagCall(w, c, o, es, id, desired);
        TagLogged(w, c, o);
      } else {
        OtherCall(w, c, o, id, desired);
        TagLogged(w, c, o);
        NoMirror(v, id, desired);
      }
      SteadyCall(w, c, o, id, desired);
    case End(_) => MirrorEnds(w, v, id, desired);
    case Env(e) => TagEnv(w, e, id, desired);
  }

  lemma TagLogged(w: World, c: Call, o: Outcome)
    requires w.hist != [] && Possible(w, c, o)
    ensures var l, m := w.log, Perform(w, c, o).log;
            m.tagOk >= l.tagOk && m.tagBad >= l.tagBad && (!IsTagCall(c) ==> m.tagOk == l.tagOk && m.tagBad == l.tagBad)
  {
  }

  lemma TagLast(w: World, c: Call, es: seq<Entry>)
    requires PcOk(w) && Follows(w.pc, c, es) && IsTagCall(c)
    ensures w.pc.At? && (w.pc.call.ShowTags? || IsTagCall(w.pc.call))
  {
    hide Follows, PcOk;
    if w.pc.Idle? { FirstIsRead(w.pc, c, es); } else { FollowsPrecedes(w, c, es); }
  }

  lemma MirrorEnds(w: World, v: World, id: nat, desired: map<string, string>)
    requires Steady(w, id, desired) && v == w.(pc := Idle)
    ensures Steady(v, id, desired) && Mirrors(v, id, desired)
  {
  }

  /** Between two points of a run, while nobody else touches the tags of our share and the desired tags
      stay: the distance never grows, and all tag calls together are at most the initial distance plus
      the calls that failed, applied or not. */
  lemma {:induction false} TagCallsArePaidFor(r: Run, i: nat, j: nat, id: nat, desired: map<string, string>)
    requires IsRun(r) && Initial(r.worlds[0]) && i <= j < |r.worlds|
    requires r.worlds[i].pc == Idle && Steady(r.worlds[i], id, desired)
    requires forall k | i <= k < j :: LeavesTags(r.worlds[k], r.acts[k])
    requires forall k | i <= k <= j :: id in r.worlds[k].cloud
    ensures var w, v := r.worlds[i], r.worlds[j];
            var ok, bad := v.log.tagOk - w.log.tagOk, v.log.tagBad - w.log.tagBad;
            && Steady(v, id, desired) && Mirrors(v, id, desired) && ok >= 0 && bad >= 0
            && Distance(v.cloud[id].tags, desired) + ok <= Distance(w.cloud[id].tags, desired)
            && ok + bad <= Distance(w.cloud[id].tags, desired) + bad
  {
    hide Inv, Step, Mirrors, Distance, Steady;
    if i == j {
      MirrorIdle(r.worlds[i], id, desired);
    } else {
      TagCallsArePaidFor(r, i, j - 1, id, desired);
      RunKeeps(r, j - 1);
      TagStep(r.worlds[j - 1], r.acts[j - 1], r.worlds[j], id, desired);
    }
  }

  lemma MirrorIdle(w: World, id: nat, desired: map<string, string>)
    requires w.pc == Idle
    ensures Mirrors(w, id, desired)
  {
  }

  // ================================================================ the loops and the protocol

  /** The pass holds the reply after which the tags are `live`. */
  ghost predicate TagsAt(pc: Pc, s: Snap, info: ShareInfo, live: map<string, string>, changed: bool) {
    pc.At? &&
    match pc.call
    case ShowTags(s1, i) => s1 == s && i == info && pc.reply == Tags(live) && !changed
    case AddTag(s1, i, was, k) =>
      s1 == s && i == info && pc.reply.Done? && k in s.cr.spec.tags && live == was[k := s.cr.spec.tags[k]] && changed
    case DeleteTag(s1, i, was, k) =>
      && s1 == s && i == info && (pc.reply.Done? || (pc.reply.Failure? && IsNotFound(pc.reply.err)))
      && live == was - {k} && changed
    case _ => false
  }

  lemma TagsNext(pc: Pc, s: Snap, info: ShareInfo, live: map<string, string>, changed: bool)
    requires TagsAt(pc, s, info, live, changed)
    ensures forall c, es | FollowsTags(s, info, live, changed, c, es) :: Follows(pc, c, es)
  {
    hide FollowsTags;
  }

  lemma AddNext(pc: Pc, s: Snap, info: ShareInfo, live: map<string, string>, changed: bool, k: string)
    requires TagsAt(pc, s, info, live, changed) && k in Missing(live, s.cr.spec.tags)
    ensures Follows(pc, AddTag(s, info, live, k), [])
  {
    hide Follows, Missing, Extra;
    TagsNext(pc, s, info, live, changed);
    assert FollowsTags(s, info, live, changed, AddTag(s, info, live, k), []);
  }

  lemma DropNext(pc: Pc, s: Snap, info: ShareInfo, live: map<string, string>, changed: bool, k: string)
    requires TagsAt(pc, s, info, live, changed) && Missing(live, s.cr.spec.tags) == {}
    requires k in Extra(live, s.cr.spec.tags)
    ensures Follows(pc, DeleteTag(s, info, live, k), [])
  {
    hide Follows, Missing, Extra;
    TagsNext(pc, s, info, live, changed);
    assert FollowsTags(s, info, live, changed, DeleteTag(s, info, live, k), []);
  }

  lemma TagsDone(pc: Pc, s: Snap, info: ShareInfo, live: map<string, string>, changed: bool)
    requires TagsAt(pc, s, info, live, changed) && Work(live, s.cr.spec.tags) == {}
    ensures forall c, es | EndsTags(s, Aligned(live, changed), c, es) :: Follows(pc, c, es)
  {
    hide Follows, EndsTags;
    TagsNext(pc, s, info, live, changed);
    assert Missing(live, s.cr.spec.tags) <= Work(live, s.cr.spec.tags) && Extra(live, s.cr.spec.tags) <= Work(live, s.cr.spec.tags);
  }

  lemma TagFails(c: Call, r: Reply)
    requires c.ShowTags? || IsTagCall(c)
    requires r.Failure? && !(c.DeleteTag? && IsNotFound(r.err))
    ensures forall d, es | EndsTags(c.snap, TagFailed(TagErrorOf(c, r.err)), d, es) :: Follows(At(c, r), d, es)
  {
    hide EndsTags, FollowsTags;
  }

  function TagErrorOf(c: Call, e: GoErr): GoErr {
    Wrap(OpTags, Cooked(if c.ShowTags? then OpShowTags else if c.AddTag? then OpAddTag else OpDeleteTag, e))
  }

  /** The tag call that failed, if one did. */
  function FailedCall(err: Option<GoErr>, pc: Pc): seq<Call> {
    if err.Some? && pc.At? then [pc.call] else []
  }

  ghost predicate FailedTag(err: Option<GoErr>, pc: Pc, s: Snap, live: map<string, string>) {
    && err.Some? && pc.At? && IsTagCall(pc.call) && pc.call.key in Work(live, s.cr.spec.tags)
    && forall c, es | EndsTags(s, TagFailed(err.value), c, es) :: Follows(pc, c, es)
  }

  lemma TagFailedAt(err: Option<GoErr>, pc: Pc, s: Snap, live: map<string, string>, c: Call)
    requires err.Some? && pc.At? && pc.call == c && IsTagCall(c)
    requires c.key in Missing(live, s.cr.spec.tags) || c.key in Extra(live, s.cr.spec.tags)
    requires forall d, es | EndsTags(s, TagFailed(err.value), d, es) :: Follows(pc, d, es)
    ensures FailedTag(err, pc, s, live)
  {
    hide EndsTags, Follows, Missing, Extra;
  }

  lemma StopsThere(done: seq<Call>, was: map<string, string>, live: map<string, string>, err: Option<GoErr>, pc: Pc, s: Snap)
    requires Did(done, was, live, s.cr.spec.tags) && FailedTag(err, pc, s, live)
    ensures StoppedAt(done + FailedCall(err, pc), Some(was), s.cr.spec.tags)
  {
    hide Did, Work;
    assert (done + FailedCall(err, pc))[..|done|] == done;
  }
}
