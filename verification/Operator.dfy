/** The reconciler itself, statement by statement. Each method extends a run of the protocol: every
    call it makes is one that the protocol allows at that point, and every result it returns is the one
    with which the protocol lets the pass end. */
module Operator {
  import opened Errors
  import opened Conditions
  import opened Types
  import opened Poll
  import opened Protocol
  import opened Safety
  import opened Guarantees
  import opened PollEnds
  import opened Branches
  import opened Calm
  import opened Quiescence
  import Deletion
  import opened Stores
  import opened Instance
  import opened Passes
  import opened Tags

  /** What the server stores is what was sent. */
  lemma StoredAsSent(w: World)
    requires Inv(w) && w.pc.At? && w.pc.call.UpdateStatus? && w.pc.reply.Got?
    ensures w.pc.reply.snap.cr == w.pc.call.snap.cr
  {
    hide CallOk;
  }

  lemma ReadySilent(info: ShareInfo)
    ensures Silent(ReadySets(info), Expanding)
  {
  }

  lemma SizedSilent(cr: Cr, info: ShareInfo)
    ensures Silent(SizedSets(cr, info), UpdatingSecurityGroup)
  {
  }

  class SfsTurboInstanceReconciler {
    const api: Api
    const clock: Clock

    constructor (api: Api, clock: Clock)
      ensures this.api == api && this.clock == clock
    {
      this.api := api;
      this.clock := clock;
    }

    /** No condition has been updated since the last call. */
    ghost predicate Quiet(obj: SfsTurboInstance)
      reads obj
    {
      obj.Valid() && obj.said == [] && obj.sets == [] && obj.Before() == obj.Taken()
    }

    /** The worker holds reply `r` to call `c`, and object `obj` has not been touched since. */
    ghost predicate Holds(obj: SfsTurboInstance, c: Call, r: Reply)
      reads api, obj
    {
      api.Valid() && api.world.pc == At(c, r) && Kind(c, r) && Quiet(obj)
    }

    // -------------------------------------------------------------- calls

    method Send(obj: SfsTurboInstance, c: Call) returns (r: Reply)
      requires api.Valid() && obj.Valid() && Follows(api.world.pc, c, obj.said)
      modifies api`world, api`run, api`script, obj`base, obj`said, obj`sets
      ensures Holds(obj, c, r)
      ensures obj.Taken() == old(obj.Taken())
      ensures api.world.log.pass == PassAfter(old(api.world.log.pass), c)
      ensures api.world.log.listed == ListedAfter(old(api.world.log.listed), c, r)
    {
      r := api.Exchange(c, obj.said);
      obj.Turn();
    }

    /** patchStatus: on success the object is replaced by what the server stored. */
    method PatchStatus(obj: SfsTurboInstance, why: Why) returns (err: Option<GoErr>)
      requires api.Valid() && obj.Valid() && Follows(api.world.pc, UpdateStatus(obj.Taken(), why), obj.said)
      modifies api`world, api`run, api`script, obj
      ensures api.world.pc.At? && api.world.pc.call == UpdateStatus(old(obj.Taken()), why)
      ensures Holds(obj, api.world.pc.call, api.world.pc.reply)
      ensures obj.Taken() == Held(api.world.pc.call, api.world.pc.reply) && obj.Value() == old(obj.Value())
      ensures err == if PatchOk(api.world.pc.reply) then None else ErrOf(api.world.pc.reply)
    {
      hide Follows, Ending, Inv, Replay, Told, IsRun, CalmSince;
      var r := Send(obj, UpdateStatus(obj.Taken(), why));
      if r.Got? {
        StoredAsSent(api.world);
        obj.Load(r.snap);
      }
      if r.Failure? && !IsApiNotFound(r.err) {
        return Some(r.err);
      }
      return None;
    }

    /** A status write after which the pass asks to be run again. */
    method PatchAndRequeue(obj: SfsTurboInstance, why: Why) returns (res: Result)
      requires api.Valid() && obj.Valid() && Follows(api.world.pc, UpdateStatus(obj.Taken(), why), obj.said)
      requires why.CreatedNote? || why.ExpandMarked? || why.ExpandWait? || why.SgMarked? || why.SgWait?
      modifies api`world, api`run, api`script, obj
      ensures api.Valid() && Ending(api.world.pc) == Some(res)
    {
      hide Api.Valid, Follows, Ending, Replay, Told;
      var err := PatchStatus(obj, why);
      LastWrite(api.world.pc);
      if err.Some? {
        return Result(NoRequeue, err);
      }
      return Result(AfterProvisioning, None);
    }

    /** The cloud client's Get. */
    method Show(obj: SfsTurboInstance) returns (info: ShareInfo, err: Option<GoErr>)
      requires api.Valid() && Quiet(obj) && Follows(api.world.pc, ShowShare(obj.Taken()), [])
      modifies api`world, api`run, api`script, obj`base, obj`said, obj`sets
      ensures obj.Taken() == old(obj.Taken())
      ensures api.world.pc.At? && Holds(obj, ShowShare(obj.Taken()), api.world.pc.reply)
      ensures err.None? ==> api.world.pc.reply == Info(info)
      ensures err.Some? ==> api.world.pc.reply.Failure? && err.value == Cooked(OpShow, api.world.pc.reply.err)
    {
      var r := Send(obj, ShowShare(obj.Taken()));
      if r.Failure? {
        return ShareInfo("", "", "", 0, "", "", "", "", "", ""), Some(Cooked(OpShow, r.err));
      }
      return r.info, None;
    }

    /** removeFinalizer. */
    method RemoveFinalizer(obj: SfsTurboInstance) returns (res: Result)
      requires api.Valid() && Quiet(obj) && Follows(api.world.pc, Call.RemoveFinalizer(obj.Taken()), [])
      modifies api`world, api`run, api`script, obj`base, obj`said, obj`sets, obj`finalizer
      ensures api.Valid() && Ending(api.world.pc) == Some(res)
    {
      hide Api.Valid, Follows, Ending;
      var s := obj.Taken();
      var r := Send(obj, Call.RemoveFinalizer(s));
      RemoveEnds(s, r);
      obj.finalizer := false;
      if r.Failure? {
        if IsApiNotFound(r.err) {
          return Result(NoRequeue, None);
        }
        return Result(NoRequeue, Some(r.err));
      }
      return Result(NoRequeue, None);
    }

    /** A call has failed: the failure is noted in the status as well as it goes, and returned. */
    method Fail(obj: SfsTurboInstance, reason: Reason, e: GoErr) returns (res: Result)
      requires api.Valid() && Quiet(obj)
      requires forall c, es | FailWrite(obj.Taken(), reason, e, c, es) :: Follows(api.world.pc, c, es)
      modifies api`world, api`run, api`script, obj, clock
      ensures api.Valid() && Ending(api.world.pc) == Some(res)
    {
      hide Api.Valid, Follows, Replay, Upsert, Told, Ending, Writes;
      ghost var s := obj.Taken();
      obj.SetCondition(clock, Failed, True, reason, ErrText(e));
      obj.WritesThem(FailureNote(e));
      assert obj.sets == [CondSet(Failed, True, reason, ErrText(e))];
      assert FailWrite(s, reason, e, UpdateStatus(obj.Taken(), FailureNote(e)), obj.said);
      var _ := PatchStatus(obj, FailureNote(e));
      FailureEnds(api.world.pc, e);
      return Result(NoRequeue, Some(e));
    }

    // -------------------------------------------------------------- deletion

    /** The claim's part of cascadeDeletePVPVC. */
    method DeleteClaim(obj: SfsTurboInstance) returns (err: Option<GoErr>)
      requires api.Valid() && Quiet(obj) && obj.deleted && Follows(api.world.pc, GetPvc(obj.Taken()), [])
      modifies api`world, api`run, api`script, obj`base, obj`said, obj`sets
      ensures api.Valid() && obj.Taken() == old(obj.Taken()) && Quiet(obj)
      ensures Follows(api.world.pc, if err.None? then GetPv(obj.Taken()) else DeleteShare(obj.Taken()), [])
    {
      hide Api.Valid, Follows, Ending;
      var s := obj.Taken();
      var r := Send(obj, GetPvc(s));
      if r.Failure? {
        CascadeNext(GetPvc(s), r, if IsApiNotFound(r.err) then GetPv(s) else DeleteShare(s));
        return if IsApiNotFound(r.err) then None else Some(r.err);
      }
      if r.pvc.terminating {
        CascadeNext(GetPvc(s), r, GetPv(s));
        return None;
      }
      CascadeNext(GetPvc(s), r, DeletePvc(s));
      r := Send(obj, DeletePvc(s));
      CascadeNext(DeletePvc(s), r, if r.Failure? && !IsApiNotFound(r.err) then DeleteShare(s) else GetPv(s));
      if r.Failure? && !IsApiNotFound(r.err) {
        return Some(r.err);
      }
      return None;
    }

    /** The volume's part. */
    method DeleteVolume(obj: SfsTurboInstance) returns (err: Option<GoErr>)
      requires api.Valid() && Quiet(obj) && obj.deleted && Follows(api.world.pc, GetPv(obj.Taken()), [])
      modifies api`world, api`run, api`script, obj`base, obj`said, obj`sets
      ensures api.Valid() && obj.Taken() == old(obj.Taken()) && Quiet(obj)
      ensures Follows(api.world.pc, DeleteShare(obj.Taken()), [])
    {
      hide Api.Valid, Follows, Ending;
      var s := obj.Taken();
      var r := Send(obj, GetPv(s));
      if r.Failure? {
        CascadeNext(GetPv(s), r, DeleteShare(s));
        return if IsApiNotFound(r.err) then None else Some(r.err);
      }
      if r.pv.terminating {
        CascadeNext(GetPv(s), r, DeleteShare(s));
        return None;
      }
      CascadeNext(GetPv(s), r, DeletePv(s));
      r := Send(obj, DeletePv(s));
      CascadeNext(DeletePv(s), r, DeleteShare(s));
      if r.Failure? && !IsApiNotFound(r.err) {
        return Some(r.err);
      }
      return None;
    }

    /** cascadeDeletePVPVC: whatever comes of it, the share may be deleted next. */
    method CascadeDelete(obj: SfsTurboInstance) returns (err: Option<GoErr>)
      requires api.Valid() && Quiet(obj) && obj.deleted && Follows(api.world.pc, GetPvc(obj.Taken()), [])
      modifies api`world, api`run, api`script, obj`base, obj`said, obj`sets
      ensures api.Valid() && obj.Taken() == old(obj.Taken()) && Quiet(obj)
      ensures Follows(api.world.pc, DeleteShare(obj.Taken()), [])
    {
      hide Api.Valid, Follows;
      err := DeleteClaim(obj);
      if err.Some? {
        return;
      }
      err := DeleteVolume(obj);
    }
  
    /** A deletion condition is noted, and the finalizer goes. */
    method NoteAndRelease(obj: SfsTurboInstance, reason: Reason, why: Why) returns (res: Result)
      requires api.Valid() && Quiet(obj) && (why.RetainNote? || why.GoneNote?)
      requires forall c, es | Writes(obj.Taken(), [CondSet(Deleting, False, reason, Fixed)], why, c, es) :: Follows(api.world.pc, c, es)
      modifies api`world, api`run, api`script, obj, clock
      ensures api.Valid() && Ending(api.world.pc) == Some(res)
    {
      hide Api.Valid, Follows, Replay, Upsert, Told, Ending, Writes;
      ghost var s := obj.Taken();
      obj.SetCondition(clock, Deleting, False, reason, Fixed);
      obj.WritesThem(why);
      assert obj.sets == [CondSet(Deleting, False, reason, Fixed)];
      assert Writes(s, [CondSet(Deleting, False, reason, Fixed)], why, UpdateStatus(obj.Taken(), why), obj.said);
      var err := PatchStatus(obj, why);
      NoteEnds(api.world.pc, why);
      if err.Some? {
        return Result(NoRequeue, err);
      }
      res := RemoveFinalizer(obj);
    }

    /** The share is deleted, after its volume pair, and the marker is set. */
    method IssueDelete(obj: SfsTurboInstance, ghost info: ShareInfo) returns (res: Result)
      requires Holds(obj, ShowShare(obj.Taken()), Info(info)) && obj.deleted && !HasTrue(obj.conditions, Deleting)
      modifies api`world, api`run, api`script, obj, clock
      ensures api.Valid() && Ending(api.world.pc) == Some(res)
    {
      hide Api.Valid, Follows, FollowsDeleteGet, Replay, Upsert, Told, Ending, Writes, FailWrite, HasTrue;
      ShowThenDelete(obj.Taken(), info);
      if obj.spec.pvcName != "" {
        var _ := CascadeDelete(obj);
      }
      ghost var s := obj.Taken();
      var r := Send(obj, DeleteShare(obj.Taken()));
      DeleteNext(s, r);
      if r.Failure? {
        res := Fail(obj, FsDeleteFailed, Cooked(OpDelete, r.err));
        return;
      }
      obj.SetCondition(clock, Deleting, True, FsDeletePending, Fixed);
      obj.SetCondition(clock, Ready, False, FsDeletePending, Fixed);
      obj.WritesThem(DeleteMarked);
      assert obj.sets == DeletePendingSets();
      assert Writes(s, DeletePendingSets(), DeleteMarked, UpdateStatus(obj.Taken(), DeleteMarked), obj.said);
      var err := PatchStatus(obj, DeleteMarked);
      NoteEnds(api.world.pc, DeleteMarked);
      if err.Some? {
        return Result(NoRequeue, err);
      }
      return Result(AfterDeleting, None);
    }

    method ReconcileDelete(obj: SfsTurboInstance) returns (res: Result)
      requires Holds(obj, ReadCr, Got(obj.Taken())) && obj.deleted
      modifies api`world, api`run, api`script, obj, clock
      ensures api.Valid() && Ending(api.world.pc) == Some(res)
    {
      hide Api.Valid, FollowsPoll, FollowsAvailable, Writes, Replay, Upsert, Told;
      if !obj.finalizer {
        return Result(NoRequeue, None);
      }
      if obj.fsId == NO_FS {
        res := RemoveFinalizer(obj);
        return;
      }
      if obj.spec.policy != Delete {
        res := NoteAndRelease(obj, RetainPolicyApplied, RetainNote);
        return;
      }
      var info, err := Show(obj);
      if err.Some? {
        if IsFsNotFound(err.value) {
          res := NoteAndRelease(obj, FsDeleted, GoneNote);
        } else {
          res := Fail(obj, HuaweiAPIError, err.value);
        }
        return;
      }
      var marked := obj.HasConditionTrue(Deleting);
      if !marked {
        res := IssueDelete(obj, info);
        return;
      }
      return Result(AfterDeleting, None);
    }
  
    // -------------------------------------------------------------- creation

    /** The cloud client's FindByName: the first listed share of the name. */
    method FindByName(obj: SfsTurboInstance, taken: GoErr) returns (id: nat, err: Option<GoErr>)
      requires api.Valid() && Quiet(obj) && Follows(api.world.pc, ListShares(obj.Taken(), taken), [])
      modifies api`world, api`run, api`script, obj`base, obj`said, obj`sets
      ensures obj.Taken() == old(obj.Taken())
      ensures api.world.pc.At? && Holds(obj, ListShares(obj.Taken(), taken), api.world.pc.reply)
      ensures err.None? ==> api.world.pc.reply.Shares? && id == FirstNamed(api.world.pc.reply.list, obj.spec.fsName)
      ensures err.Some? ==> api.world.pc.reply.Failure? || FirstNamed(api.world.pc.reply.list, obj.spec.fsName) == NO_FS
    {
      hide Api.Valid, Follows;
      var r := Send(obj, ListShares(obj.Taken(), taken));
      if r.Failure? {
        return NO_FS, Some(Cooked(OpList, r.err));
      }
      for i := 0 to |r.list|
        invariant FirstNamed(r.list, obj.spec.fsName) == FirstNamed(r.list[i..], obj.spec.fsName)
      {
        if r.list[i].name == obj.spec.fsName {
          return r.list[i].id, None;
        }
      }
      return NO_FS, Some(FsNotFound);
    }

    /** The cloud client's Create, which adopts a share that already has the name. */
    method Create(obj: SfsTurboInstance) returns (id: nat, err: Option<GoErr>)
      requires api.Valid() && Quiet(obj) && Follows(api.world.pc, CreateShare(obj.Taken()), [])
      modifies api`world, api`run, api`script, obj`base, obj`said, obj`sets
      ensures api.Valid() && Quiet(obj) && obj.Taken() == old(obj.Taken())
      ensures err.None? ==>
                forall c, es | Writes(WithFs(obj.Taken(), id), CreatedSets(), CreatedNote, c, es) :: Follows(api.world.pc, c, es)
      ensures err.Some? ==>
                forall c, es | FailWrite(obj.Taken(), FsCreateFailed, err.value, c, es) :: Follows(api.world.pc, c, es)
    {
      hide Api.Valid, Follows, Writes, FailWrite;
      ghost var s := obj.Taken();
      var r := Send(obj, CreateShare(obj.Taken()));
      CreateNext(s, r);
      if r.Failure? {
        if IsNameAlreadyExists(r.err) {
          var existing, findErr := FindByName(obj, r.err);
          ListNext(s, r.err, api.world.pc.reply);
          if findErr.None? && existing != NO_FS {
            return existing, None;
          }
          return NO_FS, Some(Cooked(OpCollision, r.err));
        }
        return NO_FS, Some(Cooked(OpCreate, r.err));
      }
      return r.id, None;
    }

    method ReconcileCreate(obj: SfsTurboInstance) returns (res: Result)
      requires Quiet(obj) && api.Valid() && Follows(api.world.pc, CreateShare(obj.Taken()), [])
      modifies api`world, api`run, api`script, obj, clock
      ensures api.Valid() && Ending(api.world.pc) == Some(res)
    {
      hide Api.Valid, Follows, Writes, FailWrite, Replay, Upsert, Told, Ending;
      var id, err := Create(obj);
      if err.Some? {
        res := Fail(obj, FsCreateFailed, err.value);
        return;
      }
      ghost var s := WithFs(obj.Taken(), id);
      obj.fsId := id;
      obj.observedGeneration := obj.generation;
      assert obj.Valid() && obj.Before() == s;
      obj.SetCondition(clock, Provisioning, True, FsCreatePending, Fixed);
      obj.SetCondition(clock, Failed, False, FsCreatePending, Fixed);
      obj.WritesThem(CreatedNote);
      assert obj.sets == CreatedSets();
      assert Writes(s, CreatedSets(), CreatedNote, UpdateStatus(obj.Taken(), CreatedNote), obj.said);
      res := PatchAndRequeue(obj, CreatedNote);
    }
  
    // -------------------------------------------------------------- tags

    /** One call on a tag. On failure the pass goes on as after a failed tag reconciliation. */
    method SendTag(obj: SfsTurboInstance, c: Call) returns (err: Option<GoErr>)
      requires api.Valid() && obj.Valid() && Follows(api.world.pc, c, obj.said) && IsTagCall(c) && c.snap == obj.Taken()
      requires c.AddTag? ==> c.key in obj.spec.tags
      modifies api`world, api`run, api`script, obj`base, obj`said, obj`sets
      ensures api.Valid() && Quiet(obj) && obj.Taken() == old(obj.Taken())
      ensures api.world.log.pass == old(api.world.log.pass) + [c] && api.world.log.listed == old(api.world.log.listed)
      ensures err.None? ==>
                TagsAt(api.world.pc, obj.Taken(), c.info, if c.AddTag? then c.live[c.key := obj.spec.tags[c.key]] else c.live - {c.key}, true)
      ensures api.world.pc.At? && api.world.pc.call == c
      ensures err.Some? ==> forall d, es | EndsTags(obj.Taken(), TagFailed(err.value), d, es) :: Follows(api.world.pc, d, es)
    {
      hide Api.Valid, Follows, EndsTags;
      var r := Send(obj, c);
      if r.Failure? && !(c.DeleteTag? && IsNotFound(r.err)) {
        TagFails(c, r);
        return Some(TagErrorOf(c, r.err));
      }
      return None;
    }

    /** The first loop: whatever order the desired tags come in, one AddTag for each that is missing or
        has another value, until all are there or one call fails. */
    method AddTags(obj: SfsTurboInstance, info: ShareInfo, was: map<string, string>)
      returns (live: map<string, string>, changed: bool, err: Option<GoErr>, ghost calls: seq<Call>)
      requires api.Valid() && Quiet(obj) && TagsAt(api.world.pc, obj.Taken(), info, was, false)
      modifies api`world, api`run, api`script, obj`base, obj`said, obj`sets
      ensures api.Valid() && Quiet(obj) && obj.Taken() == old(obj.Taken())
      ensures api.world.log.pass == old(api.world.log.pass) + calls + FailedCall(err, api.world.pc)
      ensures api.world.log.listed == old(api.world.log.listed)
      ensures Did(calls, was, live, obj.spec.tags) && (forall i | 0 <= i < |calls| :: calls[i].AddTag?)
      ensures err.None? ==> Missing(live, obj.spec.tags) == {} && TagsAt(api.world.pc, obj.Taken(), info, live, changed)
      ensures changed <==> calls != []
      ensures err.Some? ==> FailedTag(err, api.world.pc, obj.Taken(), live)
    {
      hide Api.Valid, Follows, EndsTags, Did, Missing, Extra, TagsAt;
      var desired := obj.spec.tags;
      live, changed, err, calls := was, false, None, [];
      DidNothing(was, desired);
      var todo := desired.Keys;
      while todo != {}
        invariant api.Valid() && Quiet(obj) && obj.Taken() == old(obj.Taken())
        invariant TagsAt(api.world.pc, obj.Taken(), info, live, changed)
        invariant api.world.log.pass == old(api.world.log.pass) + calls
        invariant api.world.log.listed == old(api.world.log.listed)
        invariant Did(calls, was, live, desired) && (forall i | 0 <= i < |calls| :: calls[i].AddTag?)
        invariant err.None? && (changed <==> calls != [])
        invariant todo <= desired.Keys && Missing(live, desired) <= todo
        decreases todo
      {
        var k :| k in todo;
        MissingIff(live, desired, k);
        if k !in live || live[k] != desired[k] {
          var c := AddTag(obj.Taken(), info, live, k);
          AddNext(api.world.pc, obj.Taken(), info, live, changed, k);
          err := SendTag(obj, c);
          if err.Some? {
            assert k in Work(live, desired);
            return;
          }
          AddDoes(live, k, desired);
          DidMore(calls, was, live, live[k := desired[k]], desired, c);
          live := live[k := desired[k]];
          changed, calls := true, calls + [c];
        }
        todo := todo - {k};
      }
      assert calls + FailedCall(None, api.world.pc) == calls;
    }

    /** The second loop: one DeleteTag for each live tag that is not desired. */
    method DropTags(obj: SfsTurboInstance, info: ShareInfo, ghost was: map<string, string>, live0: map<string, string>, changed0: bool,
                    ghost calls0: seq<Call>)
      returns (live: map<string, string>, changed: bool, err: Option<GoErr>, ghost calls: seq<Call>)
      requires api.Valid() && Quiet(obj) && TagsAt(api.world.pc, obj.Taken(), info, live0, changed0)
      requires Did(calls0, was, live0, obj.spec.tags) && Missing(live0, obj.spec.tags) == {}
      requires (changed0 <==> calls0 != [])
      modifies api`world, api`run, api`script, obj`base, obj`said, obj`sets
      ensures api.Valid() && Quiet(obj) && obj.Taken() == old(obj.Taken())
      ensures api.world.log.pass == old(api.world.log.pass) + calls + FailedCall(err, api.world.pc)
      ensures api.world.log.listed == old(api.world.log.listed)
      ensures Did(calls0 + calls, was, live, obj.spec.tags) && (forall i | 0 <= i < |calls| :: calls[i].DeleteTag?)
      ensures err.None? ==> Work(live, obj.spec.tags) == {} && TagsAt(api.world.pc, obj.Taken(), info, live, changed)
      ensures changed <==> calls0 + calls != []
      ensures err.Some? ==> FailedTag(err, api.world.pc, obj.Taken(), live) && api.world.pc.call.DeleteTag?
    {
      hide Api.Valid, Follows, EndsTags, Did, Missing, Extra, TagsAt, FailedTag;
      var desired := obj.spec.tags;
      live, changed, err, calls := live0, changed0, None, [];
      assert calls0 + calls == calls0;
      DidNothing(live0, desired);
      var todo := live.Keys;
      while todo != {}
        invariant api.Valid() && Quiet(obj) && obj.Taken() == old(obj.Taken())
        invariant TagsAt(api.world.pc, obj.Taken(), info, live, changed)
        invariant api.world.log.pass == old(api.world.log.pass) + calls
        invariant api.world.log.listed == old(api.world.log.listed)
        invariant Did(calls0 + calls, was, live, desired) && (forall i | 0 <= i < |calls| :: calls[i].DeleteTag?)
        invariant err.None? && (changed <==> calls0 + calls != [])
        invariant Missing(live, desired) == {} && Extra(live, desired) <= todo <= live.Keys
        decreases todo
      {
        var k :| k in todo;
        MissingIff(live, desired, k);
        if k !in desired {
          var c := DeleteTag(obj.Taken(), info, live, k);
          DropNext(api.world.pc, obj.Taken(), info, live, changed, k);
          err := SendTag(obj, c);
          if err.Some? {
            TagFailedAt(err, api.world.pc, obj.Taken(), live, c);
            return;
          }
          DropCounts(calls0, calls, was, live, k, desired, c);
          live := live - {k};
          changed, calls := true, calls + [c];
        }
        todo := todo - {k};
      }
      assert calls + FailedCall(None, api.world.pc) == calls;
    }

    /** Both loops. When they succeed, `calls` are exactly one call per differing key, additions first. */
    method AlignTags(obj: SfsTurboInstance, info: ShareInfo, was: map<string, string>)
      returns (live: map<string, string>, changed: bool, err: Option<GoErr>, ghost calls: seq<Call>)
      requires api.Valid() && Quiet(obj) && TagsAt(api.world.pc, obj.Taken(), info, was, false)
      modifies api`world, api`run, api`script, obj`base, obj`said, obj`sets
      ensures api.Valid() && Quiet(obj) && obj.Taken() == old(obj.Taken())
      ensures Did(calls, was, live, obj.spec.tags)
      ensures AddsFirst(calls + FailedCall(err, api.world.pc))
      ensures api.world.log.pass == old(api.world.log.pass) + calls + FailedCall(err, api.world.pc)
      ensures api.world.log.listed == old(api.world.log.listed)
      ensures err.None? ==> live == obj.spec.tags && (changed <==> calls != [])
      ensures err.None? ==> forall c, es | EndsTags(obj.Taken(), Aligned(live, changed), c, es) :: Follows(api.world.pc, c, es)
      ensures err.Some? ==> FailedTag(err, api.world.pc, obj.Taken(), live)
    {
      hide Api.Valid, Follows, EndsTags, Did, Missing, Extra, Work, TagsAt, AddsFirst;
      ghost var added, dropped;
      live, changed, err, added := AddTags(obj, info, was);
      calls := added;
      InOrder(added, FailedCall(err, api.world.pc));
      if err.Some? {
        return;
      }
      live, changed, err, dropped := DropTags(obj, info, was, live, changed, added);
      calls := added + dropped;
      assert calls + FailedCall(err, api.world.pc) == added + (dropped + FailedCall(err, api.world.pc));
      InOrder(added, dropped + FailedCall(err, api.world.pc));
      if err.Some? {
        return;
      }
      WorkDone(live, obj.spec.tags);
      TagsDone(api.world.pc, obj.Taken(), info, live, changed);
    }

    /** reconcileTagsDrift. `was` is what ShowTags answered, and `calls` are all calls on the tags. When it
        succeeds, status.tags is the desired set, and the calls are exactly one per key that differed,
        additions first. When it fails, it fails at the listing, or the last call is for a key that the
        calls before it had left to do. */
    method ReconcileTagsDrift(obj: SfsTurboInstance, info: ShareInfo)
      returns (err: Option<GoErr>, ghost o: TagOutcome, ghost was: map<string, string>, ghost calls: seq<Call>)
      requires api.Valid() && obj.Valid() && Follows(api.world.pc, ShowTags(obj.Taken(), info), obj.said)
      modifies api`world, api`run, api`script, obj, clock
      ensures api.Valid() && obj.Valid()
      ensures obj.Before() == old(obj.Taken()).(cr := TaggedCr(old(obj.Value()), o))
      ensures forall c, es | EndsTags(old(obj.Taken()), o, c, es) :: Follows(api.world.pc, c, es)
      ensures api.world.log.pass == old(api.world.log.pass) + calls
      ensures AddsFirst(calls)
      ensures err.None? ==> o == Aligned(obj.spec.tags, calls != []) && obj.sets == TagSets(o) && obj.tags == obj.spec.tags
      ensures err.None? ==> api.world.log.listed == Some(was) && Did(calls, was, obj.spec.tags, obj.spec.tags)
      ensures err.Some? ==> o == TagFailed(err.value) && obj.sets == [] && StoppedAt(calls, api.world.log.listed, obj.spec.tags)
      ensures err.Some? && calls != [] ==> api.world.log.listed == Some(was)
    {
      hide Api.Valid, Follows, EndsTags, Did, Missing, Extra, Work, Told, Replay, Upsert;
      was, calls := map[], [];
      var r := Send(obj, ShowTags(obj.Taken(), info));
      if r.Failure? {
        TagFails(ShowTags(obj.Taken(), info), r);
        err := Some(TagErrorOf(ShowTags(obj.Taken(), info), r.err));
        o := TagFailed(err.value);
        return;
      }
      was := r.tags;
      var live, changed;
      ghost var done;
      live, changed, err, done := AlignTags(obj, info, r.tags);
      calls := done + FailedCall(err, api.world.pc);
      if err.Some? {
        StopsThere(done, was, live, err, api.world.pc, obj.Taken());
        o := TagFailed(err.value);
        return;
      }
      assert calls == done;
      o := Aligned(live, changed);
      MirrorTags(obj, live, changed);
    }

    /** The tags as they are now go into the status. */
    method MirrorTags(obj: SfsTurboInstance, live: map<string, string>, changed: bool)
      requires Quiet(obj)
      modifies obj`tags, obj`conditions, obj`said, obj`sets, clock
      ensures obj.Valid() && obj.tags == live && obj.sets == TagSets(Aligned(live, changed))
      ensures obj.Before() == old(obj.Taken()).(cr := TaggedCr(old(obj.Value()), Aligned(live, changed)))
    {
      hide Api.Valid, Follows, Told, Replay, Upsert;
      if changed {
        obj.SetCondition(clock, Ready, True, TagsReconciled, Fixed);
      }
      obj.tags := live;
    }
  
    // -------------------------------------------------------------- volumes

    /** The volume's part of ensurePVPVC. */
    method EnsureVolume(obj: SfsTurboInstance) returns (err: Option<GoErr>)
      requires api.Valid() && Quiet(obj) && !obj.deleted && Follows(api.world.pc, GetPv(obj.Taken()), [])
      modifies api`world, api`run, api`script, obj`base, obj`said, obj`sets
      ensures api.Valid() && Quiet(obj) && obj.Taken() == old(obj.Taken())
      ensures if err.None? then Follows(api.world.pc, GetPvc(obj.Taken()), []) else Ending(api.world.pc) == EnsureFailed(err.value)
    {
      hide Api.Valid, Follows, Ending;
      var s := obj.Taken();
      var r := Send(obj, GetPv(s));
      AfterGetPv(s, r);
      if r.Failure? && IsApiNotFound(r.err) {
        r := Send(obj, CreatePv(s));
        AfterCreatePv(s, r);
        if r.Failure? {
          return Some(r.err);
        }
      } else if r.Failure? {
        return Some(r.err);
      } else if r.pv.phase == Released && r.pv.managedBy == MANAGED_BY && r.pv.claimRef != None {
        ghost var pv := r.pv;
        r := Send(obj, UpdatePv(s, r.pv));
        AfterUpdatePv(s, pv, r);
        if r.Failure? {
          return Some(Wrap(OpClaimRef, r.err));
        }
      }
      return None;
    }

    /** The claim's part. */
    method EnsureClaim(obj: SfsTurboInstance) returns (err: Option<GoErr>)
      requires api.Valid() && Quiet(obj) && !obj.deleted && Follows(api.world.pc, GetPvc(obj.Taken()), [])
      modifies api`world, api`run, api`script, obj`base, obj`said, obj`sets
      ensures api.Valid() && Ending(api.world.pc) == EnsureEnding(err)
    {
      hide Api.Valid, Follows, Ending;
      var s := obj.Taken();
      var r := Send(obj, GetPvc(s));
      AfterGetPvc(s, r);
      if r.Failure? && IsApiNotFound(r.err) {
        r := Send(obj, CreatePvc(s));
        AfterCreatePvc(s, r);
        if r.Failure? {
          return Some(r.err);
        }
      } else if r.Failure? {
        return Some(r.err);
      }
      return None;
    }

    /** ensurePVPVC. */
    method EnsureVolumes(obj: SfsTurboInstance) returns (err: Option<GoErr>)
      requires api.Valid() && Quiet(obj) && !obj.deleted && StatusStored(api.world.pc, obj.Taken())
      modifies api`world, api`run, api`script, obj`base, obj`said, obj`sets
      ensures api.Valid() && Ending(api.world.pc) == EnsureEnding(err)
    {
      hide Api.Valid, Follows, Ending;
      StoredNext(api.world.pc, obj.Taken());
      if obj.spec.pvcName == "" {
        return None;
      }
      if obj.fsId == NO_FS || obj.exportPath == "" {
        return Some(Wrap(OpNoStatus, Plain));
      }
      if CapacityOf(obj.spec) == None {
        return Some(Wrap(OpPvcSize, Plain));
      }
      err := EnsureVolume(obj);
      if err.None? {
        err := EnsureClaim(obj);
      }
    }
  
    // -------------------------------------------------------------- the poll

    /** The share has been shown as `info`, and the object holds what was observed and the updates `sets`. */
    ghost predicate Observing(obj: SfsTurboInstance, s: Snap, info: ShareInfo, sets: seq<CondSet>)
      reads api, obj
    {
      && api.Valid() && api.world.pc == At(ShowShare(s), Info(info)) && !s.cr.deleted && IsAvailable(info.status)
      && obj.Valid() && obj.Before() == s.(cr := Observed(s.cr, info)) && obj.sets == sets
    }

    /** The share is smaller than wanted: expand it, unless the marker says that this was done. */
    method Grow(obj: SfsTurboInstance, ghost s: Snap, info: ShareInfo) returns (res: Result)
      requires Observing(obj, s, info, ReadySets(info)) && Grows(obj.spec, info)
      modifies api`world, api`run, api`script, obj, clock
      ensures api.Valid() && Ending(api.world.pc) == Some(res)
    {
      hide Api.Valid, Follows, Ending, Writes, FailWrite, Replay, Upsert, HasTrue, Told, Note, ReadySets;
      GrowNext(s, info);
      ReadySilent(info);
      obj.MarkKept(Expanding);
      var marked := obj.HasConditionTrue(Expanding);
      if marked {
        obj.WritesThem(ExpandWait);
        res := PatchAndRequeue(obj, ExpandWait);
        return;
      }
      obj.IsNoted();
      ghost var s1 := obj.Taken();
      var r := Send(obj, ExpandShare(obj.Taken(), info));
      ExpandNext(s1, info, r);
      if r.Failure? {
        res := Fail(obj, HuaweiAPIError, Cooked(OpExpand, r.err));
        return;
      }
      obj.SetCondition(clock, Expanding, True, FsExpandPending, Sizes(info.size, obj.spec.size));
      assert obj.sets == [CondSet(Expanding, True, FsExpandPending, Sizes(info.size, obj.spec.size))];
      obj.WritesThem(ExpandMarked);
      res := PatchAndRequeue(obj, ExpandMarked);
    }
  
    /** The share is in another security group than wanted: move it, unless it is being moved. */
    method Regroup(obj: SfsTurboInstance, ghost s: Snap, info: ShareInfo) returns (res: Result)
      requires Observing(obj, s, info, SizedSets(s.cr, info)) && !Grows(obj.spec, info) && SgDrifts(obj.spec, info)
      modifies api`world, api`run, api`script, obj, clock
      ensures api.Valid() && Ending(api.world.pc) == Some(res)
    {
      hide Api.Valid, Follows, Ending, Writes, FailWrite, Replay, Upsert, HasTrue, Told, Note, SizedSets;
      RegroupNext(s, info);
      if IsSgChangeInFlight(info.subStatus) {
        obj.SetCondition(clock, UpdatingSecurityGroup, True, SgUpdatePending, About(info.subStatus));
        obj.sg := info.sg;
        assert obj.Valid() && obj.Before() == s.(cr := ObservedSg(s.cr, info));
        obj.WritesThem(SgWait);
        res := PatchAndRequeue(obj, SgWait);
        return;
      }
      obj.IsNoted();
      ghost var s1 := obj.Taken();
      var r := Send(obj, ChangeSg(obj.Taken(), info));
      ChangeNext(s1, info, r);
      if r.Failure? {
        res := RegroupFailed(obj, Cooked(OpChangeSg, r.err));
        return;
      }
      obj.SetCondition(clock, UpdatingSecurityGroup, True, SgUpdatePending, About(obj.spec.sg));
      assert obj.sets == [SgPendingSet(obj.spec.sg)];
      obj.sg := info.sg;
      assert obj.Valid() && obj.Before() == s1.(cr := s1.cr.(status := s1.cr.status.(sg := info.sg)));
      obj.WritesThem(SgMarked);
      res := PatchAndRequeue(obj, SgMarked);
    }

    method RegroupFailed(obj: SfsTurboInstance, e: GoErr) returns (res: Result)
      requires api.Valid() && Quiet(obj)
      requires forall c, es | Writes(obj.Taken(), SgFailedSets(e), FailureNote(e), c, es) :: Follows(api.world.pc, c, es)
      modifies api`world, api`run, api`script, obj, clock
      ensures api.Valid() && Ending(api.world.pc) == Some(res)
    {
      hide Api.Valid, Follows, Replay, Upsert, Told, Ending, Writes;
      ghost var s := obj.Taken();
      obj.SetCondition(clock, UpdatingSecurityGroup, False, SgUpdateFailed, ErrText(e));
      obj.WritesThem(FailureNote(e));
      assert obj.sets == SgFailedSets(e);
      assert Writes(s, SgFailedSets(e), FailureNote(e), UpdateStatus(obj.Taken(), FailureNote(e)), obj.said);
      var _ := PatchStatus(obj, FailureNote(e));
      FailureEnds(api.world.pc, e);
      return Result(NoRequeue, Some(e));
    }

    /** Nothing is in the way: note a finished move, reconcile the tags unless the group is changing,
        write the status, and look after the volumes. */
    method Complete(obj: SfsTurboInstance, ghost s: Snap, info: ShareInfo) returns (res: Result)
      requires Observing(obj, s, info, SizedSets(s.cr, info)) && !Grows(obj.spec, info) && !SgDrifts(obj.spec, info)
      modifies api`world, api`run, api`script, obj, clock
      ensures api.Valid() && Ending(api.world.pc) == Some(res)
    {
      hide Api.Valid, Follows, Ending, Writes, Replay, Upsert, HasTrue, Told, Note, SizedSets;
      obj.sg := info.sg;
      assert obj.Valid() && obj.Before() == s.(cr := ObservedSg(s.cr, info));
      SizedSilent(s.cr, info);
      obj.MarkKept(UpdatingSecurityGroup);
      var marked := obj.HasConditionTrue(UpdatingSecurityGroup);
      if marked {
        obj.SetCondition(clock, UpdatingSecurityGroup, False, SgUpdated, About(info.sg));
      }
      assert obj.sets == SizedSets(s.cr, info) + SgDoneSets(s.cr, info);
      obj.IsNoted();
      CompleteNext(s, info, obj.said);
      if !IsSgChangeInFlight(info.subStatus) {
        ReconcileTags(obj, info);
      }
      res := Settle(obj);
    }

    /** The tags are reconciled; a failure is noted, and does not stop the pass. */
    method ReconcileTags(obj: SfsTurboInstance, info: ShareInfo)
      requires api.Valid() && obj.Valid() && !obj.deleted
      requires Follows(api.world.pc, ShowTags(obj.Taken(), info), obj.said)
      modifies api`world, api`run, api`script, obj, clock
      ensures api.Valid() && obj.Valid() && !obj.deleted
      ensures Follows(api.world.pc, UpdateStatus(obj.Taken(), Settled), obj.said)
    {
      hide Api.Valid, Follows, Ending, Writes, Replay, Upsert, HasTrue, Told, Note, TaggedCr, Did;
      ghost var s := obj.Taken();
      var err;
      ghost var o, was, calls;
      err, o, was, calls := ReconcileTagsDrift(obj, info);
      if err.Some? {
        obj.SetCondition(clock, Failed, True, HuaweiAPIError, TagErr(err.value));
        assert obj.sets == TagSets(o);
      }
      obj.WritesThem(Settled);
      assert obj.Before() == s.(cr := TaggedCr(s.cr, o));
      assert EndsTags(s, o, UpdateStatus(obj.Taken(), Settled), obj.said);
      NotDeleted(obj, s.cr, o);
    }

    lemma NotDeleted(obj: SfsTurboInstance, cr: Cr, o: TagOutcome)
      requires obj.Before().cr == TaggedCr(cr, o)
      ensures obj.deleted == cr.deleted
    {
    }

    method Settle(obj: SfsTurboInstance) returns (res: Result)
      requires api.Valid() && obj.Valid() && !obj.deleted
      requires Follows(api.world.pc, UpdateStatus(obj.Taken(), Settled), obj.said)
      modifies api`world, api`run, api`script, obj
      ensures api.Valid() && Ending(api.world.pc) == Some(res)
    {
      hide Api.Valid, Follows, Ending, Replay, Told;
      var err := PatchStatus(obj, Settled);
      LastWrite(api.world.pc);
      if err.Some? {
        return Result(NoRequeue, err);
      }
      err := EnsureVolumes(obj);
      if err.Some? {
        return Result(AfterProvisioning, err);
      }
      return Result(NoRequeue, None);
    }

    method PollAvailable(obj: SfsTurboInstance, info: ShareInfo) returns (res: Result)
      requires Holds(obj, ShowShare(obj.Taken()), Info(info)) && !obj.deleted && IsAvailable(info.status)
      modifies api`world, api`run, api`script, obj, clock
      ensures api.Valid() && Ending(api.world.pc) == Some(res)
    {
      hide Api.Valid, Follows, Ending, Replay, Upsert, HasTrue, Told, Note;
      ghost var s := obj.Taken();
      obj.exportPath := info.exportLocation;
      obj.size := info.size;
      obj.observedGeneration := obj.generation;
      assert obj.Valid() && obj.Before() == s.(cr := Observed(s.cr, info));
      NoteReady(obj, info);
      if info.size > 0 && obj.spec.size > info.size {
        res := Grow(obj, s, info);
        return;
      }
      NoteDrift(obj, s, info);
      if obj.spec.sg != "" && obj.spec.sg != info.sg {
        res := Regroup(obj, s, info);
      } else {
        res := Complete(obj, s, info);
      }
    }

    method NoteReady(obj: SfsTurboInstance, info: ShareInfo)
      requires obj.Valid() && obj.sets == []
      modifies obj`conditions, obj`said, obj`sets, clock
      ensures obj.Valid() && obj.sets == ReadySets(info) && obj.Before() == old(obj.Before())
    {
      hide Replay, Upsert, Told;
      obj.SetCondition(clock, Ready, True, FsCreated, About(info.exportLocation));
      obj.SetCondition(clock, Provisioning, False, FsCreated, Fixed);
      obj.SetCondition(clock, Failed, False, FsCreated, Fixed);
    }

    /** The share is not to grow: note a refused shrink or a finished expansion, and an immutable field
        that differs. */
    method NoteDrift(obj: SfsTurboInstance, ghost s: Snap, info: ShareInfo)
      requires obj.Valid() && obj.sets == ReadySets(info) && obj.Before() == s.(cr := Observed(s.cr, info))
      requires !Grows(obj.spec, info)
      modifies obj`conditions, obj`said, obj`sets, clock
      ensures obj.Valid() && obj.sets == SizedSets(s.cr, info) && obj.Before() == old(obj.Before())
    {
      hide Replay, Upsert, Told, HasTrue;
      if info.size > 0 {
        if obj.spec.size < info.size {
          obj.SetCondition(clock, Failed, True, ShrinkRefused, Sizes(obj.spec.size, info.size));
        } else {
          obj.MarkKept(Expanding);
          var marked := obj.HasConditionTrue(Expanding);
          if marked {
            obj.SetCondition(clock, Expanding, False, FsExpanded, Sizes(info.size, info.size));
          }
        }
      }
      assert obj.sets == ReadySets(info) + ResizeSets(s.cr, info);
      match ImmutableDrift(obj.spec, info) {
        case Some(f) => obj.SetCondition(clock, Failed, True, ImmutableFieldChanged, InField(f));
        case None =>
      }
    }

    method ReconcilePoll(obj: SfsTurboInstance) returns (res: Result)
      requires api.Valid() && Quiet(obj) && !obj.deleted && Follows(api.world.pc, ShowShare(obj.Taken()), [])
      modifies api`world, api`run, api`script, obj, clock
      ensures api.Valid() && Ending(api.world.pc) == Some(res)
    {
      hide Api.Valid, Follows, Ending, Writes, FailWrite, Replay, Upsert, Told, Note;
      ghost var s := obj.Taken();
      var info, err := Show(obj);
      PollOther(s, api.world.pc.reply);
      if err.Some? {
        if IsFsNotFound(err.value) {
          obj.fsId := NO_FS;
          obj.exportPath := "";
          assert obj.Valid() && obj.Before() == s.(cr := RecreateCr(s.cr));
          obj.SetCondition(clock, Ready, False, HuaweiAPIError, Fixed);
          assert obj.sets == RecreateSets();
          obj.WritesThem(RecreateNote);
          err := PatchStatus(obj, RecreateNote);
          LastWrite(api.world.pc);
          return Result(Immediately, err);
        }
        res := Fail(obj, HuaweiAPIError, err.value);
        return;
      }
      if IsAvailable(info.status) {
        res := PollAvailable(obj, info);
      } else if IsErrored(info.status) {
        obj.SetCondition(clock, Failed, True, FsCreateFailed, About(info.status));
        obj.SetCondition(clock, Provisioning, False, FsCreateFailed, Fixed);
        assert obj.sets == ErroredSets(info);
        obj.WritesThem(ErroredNote);
        err := PatchStatus(obj, ErroredNote);
        LastWrite(api.world.pc);
        return Result(NoRequeue, err);
      } else {
        return Result(AfterProvisioning, None);
      }
    }
  
    // -------------------------------------------------------------- a pass

    /** The branches of Reconcile, on the object that was read. */
    method Branch(obj: SfsTurboInstance) returns (res: Result)
      requires Holds(obj, ReadCr, Got(obj.Taken()))
      modifies api`world, api`run, api`script, obj, clock
      ensures api.Valid() && Ending(api.world.pc) == Some(res)
    {
      hide Api.Valid, Follows, Ending, Writes, Replay, Upsert, Told, Note;
      if obj.deleted {
        res := ReconcileDelete(obj);
        return;
      }
      ReadNext(obj.Taken());
      if !obj.finalizer {
        var s := obj.Taken();
        var r := Send(obj, AddFinalizer(s));
        obj.finalizer := true;
        AddEnds(s, r);
        if r.Failure? {
          return Result(NoRequeue, Some(r.err));
        }
        return Result(Immediately, None);
      }
      if obj.spec.paused {
        obj.SetCondition(clock, Provisioning, False, ReconcilePaused, Fixed);
        assert obj.sets == PausedSets();
        obj.WritesThem(PausedNote);
        var err := PatchStatus(obj, PausedNote);
        LastWrite(api.world.pc);
        return Result(NoRequeue, err);
      }
      if obj.fsId == NO_FS {
        res := ReconcileCreate(obj);
      } else {
        res := ReconcilePoll(obj);
      }
    }

    /** The read, and what follows it. */
    method ReadAndBranch() returns (res: Result)
      requires api.Valid() && api.world.pc == Idle
      modifies api`world, api`run, api`script, clock
      ensures api.Valid() && Ending(api.world.pc) == Some(res)
    {
      hide Api.Valid, Follows, Ending, Writes, Replay, Upsert, Told, Note;
      StartsWithRead(api.world.pc);
      var r := api.Exchange(ReadCr, []);
      if r.Failure? {
        ReadEnds(r);
        return Result(NoRequeue, if IsApiNotFound(r.err) then None else Some(r.err));
      }
      var obj := new SfsTurboInstance(r.snap);
      res := Branch(obj);
    }

    /** One pass. Whatever the adversary does, it is a pass of the protocol: it extends the run by steps
        that the protocol allows, from Idle to the result it returns. When nothing goes wrong it is a
        calm pass, so it has the effect of one, of a deletion if the resource is deleted, and at rest it
        changes nothing. */
    method Reconcile() returns (res: Result)
      requires api.Valid() && api.world.pc == Idle
      modifies api, clock
      ensures api.Valid() && api.world.pc == Idle
      ensures Extends(old(api.run), api.run) && |api.run.acts| > |old(api.run.acts)|
      ensures api.run.acts[|api.run.acts| - 1] == End(res)
      ensures Initial(api.run.worlds[0]) ==> Reachable(api.world)
      ensures old(api.script) == [] ==> CalmPass(LastPass(old(api.run), api.run))
      ensures old(api.script) == [] && Workable(old(api.world)) ==> PassEffect(old(api.world), api.world)
      ensures old(api.script) == [] && AtRest(old(api.world)) ==> Same(old(api.world), api.world)
      ensures old(api.script) == [] && Deletion.Leaving(old(api.world)) ==> Deletion.LeaveEffect(old(api.world), api.world)
    {
      hide Api.Valid, Follows, Ending, Inv, CalmPass, PassEffect, Workable, AtRest, Initial, IsRun,
           Deletion.Leaving, Deletion.LeaveEffect;
      api.Begin();
      res := ReadAndBranch();
      api.Unfold();
      api.Finish(res);
      api.Unfold();
      Arrived(api.run, api.world);
      if old(api.script) == [] {
        PassDone(old(api.run), api.run, res);
      }
    }
  }

  /** The part of a run after the run `before`, with its first world. */
  function LastPass(before: Run, run: Run): Run
    requires |before.acts| <= |run.acts| && |run.acts| <= |run.worlds|
  {
    Run(run.worlds[|before.acts|..], run.acts[|before.acts|..])
  }

  lemma Arrived(r: Run, w: World)
    requires IsRun(r) && r.worlds[|r.acts|] == w
    ensures Initial(r.worlds[0]) ==> Reachable(w)
  {
    hide IsRun, Initial;
    RunLength(r);
    if Initial(r.worlds[0]) {
      assert ReachedIn(w, r, |r.acts|);
    }
  }

  lemma RunLength(r: Run)
    requires IsRun(r)
    ensures |r.worlds| == |r.acts| + 1
  {
  }

  lemma PassDone(before: Run, run: Run, res: Result)
    requires IsRun(run) && Extends(before, run) && CalmPass(LastPass(before, run))
    ensures var w, v := run.worlds[|before.acts|], run.worlds[|run.acts|];
            && (Workable(w) ==> PassEffect(w, v)) && (AtRest(w) ==> Same(w, v))
            && (Deletion.Leaving(w) ==> Deletion.LeaveEffect(w, v))
  {
    hide CalmPass, PassEffect, Workable, AtRest, IsRun, Deletion.Leaving, Deletion.LeaveEffect;
    RunLength(run);
    var p := LastPass(before, run);
    if Workable(p.worlds[0]) { CalmPassEffect(p); }
    if AtRest(p.worlds[0]) { PassAtRest(p, |p.acts|); }
    if Deletion.Leaving(p.worlds[0]) { Deletion.LeavePassEffect(p); }
  }

  lemma StartsWithRead(pc: Pc)
    requires pc == Idle
    ensures Follows(pc, ReadCr, [])
  {
  }

  lemma ReadEnds(r: Reply)
    requires r.Failure?
    ensures Ending(At(ReadCr, r)) == Some(Result(NoRequeue, if IsApiNotFound(r.err) then None else Some(r.err)))
  {
  }
}
