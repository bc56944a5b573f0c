/** The in-memory object of a pass, whose status fields and condition list are updated in place. */
module Instance {
  import opened Conditions
  import opened Types
  import opened Protocol

  /** A clock that does not go back; the ticks to come are arbitrary. */
  class Clock {
    var time: int
    var ticks: seq<nat>

    constructor (t: int, later: seq<nat>) {
      time, ticks := t, later;
    }

    method Now() returns (t: int)
      modifies this
      ensures t == time >= old(time)
    {
      if ticks != [] {
        time, ticks := time + ticks[0], ticks[1..];
      }
      return time;
    }
  }

  class SfsTurboInstance {
    var rv: nat
    var ns: string
    var name: string
    var generation: nat
    var finalizer: bool
    var deleted: bool
    var spec: Spec
    var fsId: nat
    var exportPath: string
    var size: nat
    var sg: string
    var tags: map<string, string>
    var observedGeneration: nat
    var conditions: seq<Condition>

    // The condition list when the last call returned, and the updates made since.
    ghost var base: seq<Condition>
    ghost var said: seq<Entry>
    ghost var sets: seq<CondSet>

    ghost predicate Valid()
      reads this
    {
      Told(said, sets, generation) && conditions == Replay(base, said)
    }

    function Value(): Cr
      reads this
    {
      Cr(ns, name, generation, finalizer, deleted, spec,
         Status(fsId, exportPath, size, sg, tags, observedGeneration, conditions))
    }

    function Taken(): Snap
      reads this
    {
      Snap(Value(), rv)
    }

    /** The object without the condition updates made since the last call. */
    ghost function Before(): Snap
      reads this
    {
      Snap(Value().(status := Value().status.(conditions := base)), rv)
    }

    /** A marker that the updates since the last call leave alone. */
    lemma MarkKept(t: CondType)
      requires Valid() && forall x | x in sets :: x.ctype != t
      ensures HasTrue(conditions, t) <==> HasTrue(base, t)
    {
      forall i | 0 <= i < |said| ensures said[i].say.ctype != t {
        assert said[i].say in sets;
      }
      ReplayLeaves(base, said, t);
    }

    lemma IsNoted()
      requires Valid()
      ensures Taken() == Note(Before(), said) && Told(said, sets, generation)
    {
    }

    /** A status write of the object writes the updates made since the last call. */
    lemma WritesThem(why: Why)
      requires Valid()
      ensures Writes(Before(), sets, why, UpdateStatus(Taken(), why), said)
    {
    }

    constructor (s: Snap)
      ensures Valid() && Taken() == s && Before() == s && said == [] && sets == []
    {
      rv := s.rv;
      ns, name, generation, finalizer, deleted, spec := s.cr.ns, s.cr.name, s.cr.generation, s.cr.finalizer, s.cr.deleted, s.cr.spec;
      fsId, exportPath, size, sg := s.cr.status.fsId, s.cr.status.exportPath, s.cr.status.size, s.cr.status.sg;
      tags, observedGeneration, conditions := s.cr.status.tags, s.cr.status.observedGeneration, s.cr.status.conditions;
      base, said, sets := s.cr.status.conditions, [], [];
    }

    /** Overwrite the object with what the server returned. */
    method Load(s: Snap)
      modifies this
      ensures Valid() && Taken() == s && Before() == s && said == [] && sets == []
    {
      rv, ns, name, generation := s.rv, s.cr.ns, s.cr.name, s.cr.generation;
      finalizer, deleted, spec := s.cr.finalizer, s.cr.deleted, s.cr.spec;
      LoadStatus(s.cr.status);
      Turn();
    }

    method LoadStatus(st: Status)
      modifies this`fsId, this`exportPath, this`size, this`sg, this`tags, this`observedGeneration, this`conditions
      ensures Value().status == st
    {
      fsId, exportPath, size, sg := st.fsId, st.exportPath, st.size, st.sg;
      tags, observedGeneration, conditions := st.tags, st.observedGeneration, st.conditions;
    }

    /** A call has returned: from here on condition updates belong to the next one. */
    ghost method Turn()
      modifies this`base, this`said, this`sets
      ensures Valid() && Before() == Taken() && said == [] && sets == []
    {
      base, said, sets := conditions, [], [];
    }

    /** setCondition: the list after it is the upsert of the call, at the time read from the clock. */
    method SetCondition(clock: Clock, t: CondType, status: CondStatus, reason: Reason, message: Message)
      requires Valid()
      modifies this`conditions, this`said, this`sets, clock
      ensures Valid() && Before() == old(Before())
      ensures sets == old(sets) + [CondSet(t, status, reason, message)]
      ensures said == old(said) + [Entry(CondSet(t, status, reason, message), generation, clock.time)]
      ensures conditions == Upsert(old(conditions), Entry(CondSet(t, status, reason, message), generation, clock.time))
      ensures clock.time >= old(clock.time)
    {
      hide Upsert;
      var now := clock.Now();
      ghost var e := Entry(CondSet(t, status, reason, message), generation, now);
      PutCondition(now, t, status, reason, message);
      said, sets := said + [e], sets + [e.say];
      assert said[..|said| - 1] == old(said);
    }

    /** The loop of setCondition. */
    method PutCondition(now: int, t: CondType, status: CondStatus, reason: Reason, message: Message)
      modifies this`conditions
      ensures conditions == Upsert(old(conditions), Entry(CondSet(t, status, reason, message), generation, now))
    {
      ghost var e := Entry(CondSet(t, status, reason, message), generation, now);
      UpsertShape(conditions, e);
      for i := 0 to |conditions|
        invariant conditions == old(conditions)
        invariant forall j | 0 <= j < i :: conditions[j].ctype != t
      {
        if conditions[i].ctype == t {
          FindFirst(conditions, t, i);
          var cur := conditions[i];
          if cur.status != status {
            cur := cur.(since := now);
          }
          cur := cur.(status := status);
          cur := cur.(reason := reason);
          cur := cur.(message := message);
          cur := cur.(generation := generation);
          conditions := conditions[i := cur];
          return;
        }
      }
      conditions := conditions + [Condition(t, status, reason, message, now, generation)];
    }

    /** hasConditionTrue. */
    method HasConditionTrue(t: CondType) returns (b: bool)
      ensures b == HasTrue(conditions, t)
    {
      for i := 0 to |conditions|
        invariant forall j | 0 <= j < i :: !(conditions[j].ctype == t && conditions[j].status == True)
      {
        if conditions[i].ctype == t && conditions[i].status == True {
          return true;
        }
      }
      return false;
    }
  }
}
