/** The status conditions: an upsert into a list that must behave like a map keyed by type. */
module Conditions {
  import opened Errors

  datatype CondType = Ready | Provisioning | Deleting | Expanding | UpdatingSecurityGroup | Failed

  datatype CondStatus = True | False | Unknown

  datatype Reason = FsCreated | FsCreatePending | FsCreateFailed | FsDeletePending | FsDeleted | FsDeleteFailed
                  | FsExpandPending | FsExpanded | ShrinkRefused | ReconcilePaused | HuaweiAPIError
                  | RetainPolicyApplied | TagsReconciled | SgUpdatePending | SgUpdated | SgUpdateFailed
                  | ImmutableFieldChanged

  datatype Field = ShareTypeField | ZoneField | VpcField | SubnetField | CryptKeyField

  /** A message is kept as the values it is built from; its wording is not modelled. */
  datatype Message = Fixed | ErrText(err: GoErr) | TagErr(err: GoErr) | Sizes(from: int, to: int)
                   | About(text: string) | InField(field: Field)

  datatype Condition = Condition(ctype: CondType, status: CondStatus, reason: Reason, message: Message,
                                 since: int, generation: nat)

  /** One call of setCondition. */
  datatype CondSet = CondSet(ctype: CondType, status: CondStatus, reason: Reason, message: Message)

  /** The call together with what it reads: the object's generation and the clock. */
  datatype Entry = Entry(say: CondSet, generation: nat, at: int)

  function Fresh(e: Entry): Condition {
    Condition(e.say.ctype, e.say.status, e.say.reason, e.say.message, e.at, e.generation)
  }

  function Updated(c: Condition, e: Entry): Condition {
    Fresh(e).(since := if c.status != e.say.status then e.at else c.since)
  }

  /** setCondition on the list: change the first entry of the type, or append one. */
  function Upsert(cs: seq<Condition>, e: Entry): seq<Condition> {
    if cs == [] then [Fresh(e)]
    else if cs[0].ctype == e.say.ctype then [Updated(cs[0], e)] + cs[1..]
    else [cs[0]] + Upsert(cs[1..], e)
  }

  /** The list after a sequence of calls. */
  function Replay(cs: seq<Condition>, es: seq<Entry>): seq<Condition> {
    if es == [] then cs else Upsert(Replay(cs, es[..|es| - 1]), es[|es| - 1])
  }

  /** hasConditionTrue. */
  predicate HasTrue(cs: seq<Condition>, t: CondType) {
    exists i | 0 <= i < |cs| :: cs[i].ctype == t && cs[i].status == True
  }

  ghost predicate UniqueTypes(cs: seq<Condition>) {
    forall i, j | 0 <= i < j < |cs| :: cs[i].ctype != cs[j].ctype
  }

  /** The map view of the list: the first entry of the type. */
  function Find(cs: seq<Condition>, t: CondType): (i: nat)
    ensures i <= |cs|
    ensures i < |cs| ==> cs[i].ctype == t
    ensures forall j | 0 <= j < i :: cs[j].ctype != t
  {
    if cs == [] || cs[0].ctype == t then 0 else 1 + Find(cs[1..], t)
  }

  /** The entries are exactly those that the calls `sets` make under generation `gen`. */
  ghost predicate Told(es: seq<Entry>, sets: seq<CondSet>, gen: nat) {
    |es| == |sets| && forall i | 0 <= i < |es| :: es[i].say == sets[i] && es[i].generation == gen
  }

  /** The last call for type t, as an index; |es| when there is none. */
  ghost function LastOf(es: seq<Entry>, t: CondType): (i: nat)
    ensures i <= |es|
    ensures i < |es| ==> es[i].say.ctype == t && forall j | i < j < |es| :: es[j].say.ctype != t
    ensures i == |es| ==> forall j | 0 <= j < |es| :: es[j].say.ctype != t
  {
    if es == [] then 0
    else if es[|es| - 1].say.ctype == t then |es| - 1
    else
      var i := LastOf(es[..|es| - 1], t);
      if i == |es| - 1 then |es| else i
  }

  // ---------------------------------------------------------------- one call

  lemma {:induction false} UpsertShape(cs: seq<Condition>, e: Entry)
    ensures var r, i := Upsert(cs, e), Find(cs, e.say.ctype);
            && (i < |cs| ==> r == cs[i := Updated(cs[i], e)])
            && (i == |cs| ==> r == cs + [Fresh(e)])
  {
    if cs != [] && cs[0].ctype != e.say.ctype {
      UpsertShape(cs[1..], e);
    }
  }

  lemma UpsertFacts(cs: seq<Condition>, e: Entry)
    ensures forall t | t != e.say.ctype :: HasTrue(Upsert(cs, e), t) <==> HasTrue(cs, t)
    ensures UniqueTypes(cs) ==> UniqueTypes(Upsert(cs, e))
    ensures UniqueTypes(cs) ==> (HasTrue(Upsert(cs, e), e.say.ctype) <==> e.say.status == True)
  {
    var r, k := Upsert(cs, e), Find(cs, e.say.ctype);
    UpsertShape(cs, e);
    assert k < |r| && r[k].ctype == e.say.ctype && r[k].status == e.say.status;
    forall t | t != e.say.ctype ensures HasTrue(r, t) <==> HasTrue(cs, t) {
      if HasTrue(cs, t) {
        var i :| 0 <= i < |cs| && cs[i].ctype == t && cs[i].status == True;
        assert r[i] == cs[i];
      }
      if HasTrue(r, t) {
        var i :| 0 <= i < |r| && r[i].ctype == t && r[i].status == True;
        assert i < |cs| && r[i] == cs[i];
      }
    }
  }

  // ---------------------------------------------------------------- whole histories

  /** Types stay unique, and a condition is True afterwards exactly when the last call for its type
      said True, or there was none and it was True before. */
  lemma {:induction false} ReplayHasTrue(cs: seq<Condition>, es: seq<Entry>, t: CondType)
    requires UniqueTypes(cs)
    ensures UniqueTypes(Replay(cs, es))
    ensures var k := LastOf(es, t);
            HasTrue(Replay(cs, es), t) <==> if k < |es| then es[k].say.status == True else HasTrue(cs, t)
  {
    if es != [] {
      ReplayHasTrue(cs, es[..|es| - 1], t);
      UpsertFacts(Replay(cs, es[..|es| - 1]), es[|es| - 1]);
    }
  }

  /** Calls for other types leave a condition alone. */
  lemma {:induction false} ReplayLeaves(cs: seq<Condition>, es: seq<Entry>, t: CondType)
    requires forall i | 0 <= i < |es| :: es[i].say.ctype != t
    ensures HasTrue(Replay(cs, es), t) <==> HasTrue(cs, t)
  {
    if es != [] {
      ReplayLeaves(cs, es[..|es| - 1], t);
      UpsertFacts(Replay(cs, es[..|es| - 1]), es[|es| - 1]);
    }
  }

  /** Call number i changes the status of its type: it is the first call for the type, or the
      previous call for the type said something else. */
  ghost predicate IsFlip(es: seq<Entry>, i: nat) {
    && i < |es|
    && var p := LastOf(es[..i], es[i].say.ctype);
       p < i ==> es[p].say.status != es[i].say.status
  }

  /** The types in the order of their first call. */
  ghost function FirstSeen(es: seq<Entry>): seq<CondType> {
    if es == [] then []
    else
      var before := FirstSeen(es[..|es| - 1]);
      if es[|es| - 1].say.ctype in before then before else before + [es[|es| - 1].say.ctype]
  }

  ghost function Types(cs: seq<Condition>): seq<CondType> {
    seq(|cs|, i requires 0 <= i < |cs| => cs[i].ctype)
  }

  /** The entry for a type records its history: the last call's values, and the time of the
      latest call that changed the status. */
  ghost predicate Records(es: seq<Entry>, c: Condition, k: nat, flip: nat) {
    && k < |es| && k == LastOf(es, c.ctype)
    && c == Fresh(es[k]).(since := c.since)
    && flip <= k && IsFlip(es, flip) && es[flip].say.ctype == c.ctype && c.since == es[flip].at
    && forall j | flip < j < |es| && es[j].say.ctype == c.ctype :: !IsFlip(es, j)
  }

  /** What the list says about type t is a faithful record of the calls for t. */
  ghost predicate Faithful(es: seq<Entry>, cs: seq<Condition>, t: CondType) {
    var i, k := Find(cs, t), LastOf(es, t);
    && (i < |cs| <==> k < |es|)
    && (i < |cs| ==> exists flip: nat :: Records(es, cs[i], k, flip))
  }

  lemma LastOfSnoc(es: seq<Entry>, e: Entry, t: CondType)
    ensures LastOf(es + [e], t) ==
            if e.say.ctype == t then |es| else if LastOf(es, t) == |es| then |es| + 1 else LastOf(es, t)
  {
    assert (es + [e])[..|es|] == es;
  }

  lemma FlipSnoc(es: seq<Entry>, e: Entry, i: nat)
    requires i < |es|
    ensures IsFlip(es + [e], i) <==> IsFlip(es, i)
  {
    assert (es + [e])[..i] == es[..i];
  }

  lemma RecordsSnoc(es: seq<Entry>, e: Entry, c: Condition, f: nat)
    requires Records(es, c, LastOf(es, c.ctype), f)
    requires e.say.ctype == c.ctype ==> e.say.status == c.status
    ensures var d := if e.say.ctype == c.ctype then Updated(c, e) else c;
            Records(es + [e], d, LastOf(es + [e], c.ctype), f)
  {
    LastOfSnoc(es, e, c.ctype);
    FlipSnoc(es, e, f);
    assert (es + [e])[..|es|] == es;
    forall j | f < j <= |es| && (es + [e])[j].say.ctype == c.ctype ensures !IsFlip(es + [e], j) {
      if j < |es| { FlipSnoc(es, e, j); }
    }
  }

  lemma RecordsFlip(es: seq<Entry>, e: Entry)
    requires var k := LastOf(es, e.say.ctype); k < |es| ==> es[k].say.status != e.say.status
    ensures Records(es + [e], Fresh(e), LastOf(es + [e], e.say.ctype), |es|)
  {
    LastOfSnoc(es, e, e.say.ctype);
    assert (es + [e])[..|es|] == es;
  }

  lemma FaithfulSnoc(es: seq<Entry>, e: Entry, was: seq<Condition>, t: CondType)
    requires Faithful(es, was, t)
    ensures Faithful(es + [e], Upsert(was, e), t)
  {
    var i := Find(was, t);
    var r := Upsert(was, e);
    LastOfSnoc(es, e, t);
    UpsertShape(was, e);
    if t != e.say.ctype {
      FindUnmoved(was, e, t);
      if i < |was| {
        var f: nat :| Records(es, was[i], LastOf(es, t), f);
        RecordsSnoc(es, e, was[i], f);
      }
    } else {
      FindFirst(r, t, i);
      if i == |was| || was[i].status != e.say.status {
        RecordsFlip(es, e);
        assert Records(es + [e], r[i], LastOf(es + [e], t), |es|);
      } else {
        var f: nat :| Records(es, was[i], LastOf(es, t), f);
        RecordsSnoc(es, e, was[i], f);
      }
    }
  }

  lemma {:induction false} ReplayIsFaithful(es: seq<Entry>, t: CondType)
    ensures Faithful(es, Replay([], es), t)
  {
    if es != [] {
      var n := |es| - 1;
      ReplayIsFaithful(es[..n], t);
      FaithfulSnoc(es[..n], es[n], Replay([], es[..n]), t);
      assert es[..n] + [es[n]] == es;
    }
  }

  lemma {:induction false} FindFirst(cs: seq<Condition>, t: CondType, i: nat)
    requires i < |cs| && cs[i].ctype == t && forall j | 0 <= j < i :: cs[j].ctype != t
    ensures Find(cs, t) == i
  {
    if i > 0 { FindFirst(cs[1..], t, i - 1); }
  }

  lemma {:induction false} FindUnmoved(cs: seq<Condition>, e: Entry, t: CondType)
    requires t != e.say.ctype
    ensures var i, r := Find(cs, t), Upsert(cs, e);
            if i < |cs| then Find(r, t) == i && i < |r| && r[i] == cs[i] else Find(r, t) == |r|
  {
    UpsertShape(cs, e);
    var i, r := Find(cs, t), Upsert(cs, e);
    if i < |cs| {
      FindFirst(r, t, i);
    } else {
      assert forall j | 0 <= j < |r| :: r[j].ctype != t;
    }
  }

  lemma TypesSnoc(was: seq<Condition>, e: Entry)
    ensures var t := e.say.ctype;
            Types(Upsert(was, e)) == if t in Types(was) then Types(was) else Types(was) + [t]
  {
    UpsertShape(was, e);
    var i := Find(was, e.say.ctype);
    if i < |was| {
      assert Types(was)[i] == e.say.ctype;
    } else {
      assert forall j | 0 <= j < |was| :: Types(was)[j] == was[j].ctype;
    }
  }

  lemma {:induction false} OrderIsFirstSeen(es: seq<Entry>)
    ensures UniqueTypes(Replay([], es)) && Types(Replay([], es)) == FirstSeen(es)
  {
    if es != [] {
      var was := Replay([], es[..|es| - 1]);
      OrderIsFirstSeen(es[..|es| - 1]);
      TypesSnoc(was, es[|es| - 1]);
      UpsertFacts(was, es[|es| - 1]);
    }
  }

  /** The list is a faithful record of any sequence of calls that starts from the empty list: types
      are unique and in the order of first insertion, and each entry carries its type's last call
      and the time of its type's last change of status. */
  lemma ListRecordsHistory(es: seq<Entry>)
    ensures var cs := Replay([], es);
            && UniqueTypes(cs) && Types(cs) == FirstSeen(es)
            && forall t :: Faithful(es, cs, t)
  {
    OrderIsFirstSeen(es);
    forall t ensures Faithful(es, Replay([], es), t) {
      ReplayIsFaithful(es, t);
    }
  }

  lemma SinceSnoc(was: seq<Condition>, e: Entry, t: CondType)
    requires var a := Find(was, t); a < |was| ==> was[a].since <= e.at
    ensures var now, a := Upsert(was, e), Find(was, t);
            var b := Find(now, t);
            && (a < |was| ==> b < |now| && was[a].since <= now[b].since <= e.at)
            && (b < |now| && a == |was| ==> now[b].since == e.at)
  {
    UpsertShape(was, e);
    if t != e.say.ctype {
      FindUnmoved(was, e, t);
    } else {
      FindFirst(Upsert(was, e), t, Find(was, t));
    }
  }

  /** Under a clock that does not go back, later calls never move a transition time back, and no
      transition time lies after the last call. */
  lemma {:induction false} SinceNeverGoesBack(es: seq<Entry>, n: nat, t: CondType)
    requires n <= |es|
    requires forall i, j | 0 <= i < j < |es| :: es[i].at <= es[j].at
    ensures var early, late := Replay([], es[..n]), Replay([], es);
            var a, b := Find(early, t), Find(late, t);
            && (a < |early| ==> b < |late| && early[a].since <= late[b].since)
            && (b < |late| ==> late[b].since <= es[|es| - 1].at)
  {
    if es == [] { return; }
    var before, e := es[..|es| - 1], es[|es| - 1];
    var m := if n < |es| then n else |es| - 1;
    assert before[..m] == es[..m];
    SinceNeverGoesBack(before, m, t);
    SinceSnoc(Replay([], before), e, t);
    if n == |es| { assert es[..n] == es; }
  }

  // ---------------------------------------------------------------- from any list

  /** List `r`, made from `cs` by calls `es`, has for type t what the last call for t said; without
      such a call it has what `cs` had. */
  ghost predicate LastSaid(cs: seq<Condition>, es: seq<Entry>, r: seq<Condition>, t: CondType) {
    var k, i, j := LastOf(es, t), Find(r, t), Find(cs, t);
    && (k < |es| ==> i < |r| && r[i] == Fresh(es[k]).(since := r[i].since))
    && (k == |es| && j < |cs| ==> i == j && i < |r| && r[i] == cs[j])
    && (k == |es| && j == |cs| ==> i == |r|)
  }

  lemma LastSaidSnoc(cs: seq<Condition>, es: seq<Entry>, was: seq<Condition>, e: Entry, t: CondType)
    requires LastSaid(cs, es, was, t)
    ensures LastSaid(cs, es + [e], Upsert(was, e), t)
  {
    LastOfSnoc(es, e, t);
    UpsertShape(was, e);
    if t == e.say.ctype {
      FindFirst(Upsert(was, e), t, Find(was, t));
    } else {
      FindUnmoved(was, e, t);
    }
  }

  lemma {:induction false} ReplayLast(cs: seq<Condition>, es: seq<Entry>, t: CondType)
    ensures LastSaid(cs, es, Replay(cs, es), t)
  {
    if es != [] {
      var n := |es| - 1;
      ReplayLast(cs, es[..n], t);
      LastSaidSnoc(cs, es[..n], Replay(cs, es[..n]), es[n], t);
      assert es[..n] + [es[n]] == es;
    }
  }

  lemma HasTrueIsFound(cs: seq<Condition>, t: CondType)
    requires UniqueTypes(cs)
    ensures HasTrue(cs, t) <==> Find(cs, t) < |cs| && cs[Find(cs, t)].status == True
  {
  }

  /** The entry already says what a call would say. */
  predicate Says(cs: seq<Condition>, say: CondSet, gen: nat) {
    var i := Find(cs, say.ctype);
    i < |cs| && cs[i].status == say.status && cs[i].reason == say.reason && cs[i].message == say.message
    && cs[i].generation == gen
  }

  /** Calls that say what is already there change nothing, transition times included. */
  lemma {:induction false} ReplayIdle(cs: seq<Condition>, es: seq<Entry>)
    requires forall i | 0 <= i < |es| :: Says(cs, es[i].say, es[i].generation)
    ensures Replay(cs, es) == cs
  {
    if es != [] {
      ReplayIdle(cs, es[..|es| - 1]);
      UpsertShape(cs, es[|es| - 1]);
    }
  }

  /** A condition that was not True and is True after some calls got its time from one of them. */
  lemma {:induction false} SinceOfRise(cs: seq<Condition>, es: seq<Entry>, t: CondType)
    requires UniqueTypes(cs) && !HasTrue(cs, t) && HasTrue(Replay(cs, es), t)
    ensures var r := Replay(cs, es);
            Find(r, t) < |r| && exists i | 0 <= i < |es| :: r[Find(r, t)].since == es[i].at
  {
    if es == [] { return; }
    var n := |es| - 1;
    var was, e := Replay(cs, es[..n]), es[n];
    ReplayHasTrue(cs, es[..n], t);
    ReplayHasTrue(cs, es, t);
    HasTrueIsFound(Replay(cs, es), t);
    UpsertShape(was, e);
    if HasTrue(was, t) {
      SinceOfRise(cs, es[..n], t);
      HasTrueIsFound(was, t);
      var i :| 0 <= i < n && was[Find(was, t)].since == es[..n][i].at;
      assert es[i] == es[..n][i];
      if t == e.say.ctype { FindFirst(Replay(cs, es), t, Find(was, t)); } else { FindUnmoved(was, e, t); }
    } else {
      RiseAtLast(was, e, t);
      assert es[n] == e;
    }
  }

  lemma RiseAtLast(was: seq<Condition>, e: Entry, t: CondType)
    requires UniqueTypes(was) && !HasTrue(was, t) && HasTrue(Upsert(was, e), t)
    ensures var r := Upsert(was, e);
            Find(r, t) < |r| && r[Find(r, t)].since == e.at
  {
    UpsertShape(was, e);
    UpsertFacts(was, e);
    if t == e.say.ctype { FindFirst(Upsert(was, e), t, Find(was, t)); }
  }

  // ---------------------------------------------------------------- when a transition time moves

  predicate Has(cs: seq<Condition>, t: CondType) { Find(cs, t) < |cs| }

  function Entered(cs: seq<Condition>, t: CondType): Condition
    requires Has(cs, t)
  {
    cs[Find(cs, t)]
  }

  /** The entry for a type is there as before, or is as absent as before. */
  predicate Keeps(before: seq<Condition>, after: seq<Condition>, t: CondType) {
    (Has(after, t) <==> Has(before, t)) && (Has(before, t) ==> Entered(after, t) == Entered(before, t))
  }

  /** Some call for type t says another status. */
  ghost predicate Interrupts(es: seq<Entry>, t: CondType, status: CondStatus) {
    exists i | 0 <= i < |es| :: es[i].say.ctype == t && es[i].say.status != status
  }

  /** Some call for type t that says `status` was made at time `since`. */
  ghost predicate TimedBy(es: seq<Entry>, t: CondType, status: CondStatus, since: int) {
    exists i | 0 <= i < |es| :: es[i].say.ctype == t && es[i].say.status == status && es[i].at == since
  }

  lemma EnteredSnoc(was: seq<Condition>, e: Entry, t: CondType)
    requires Has(was, t)
    ensures Has(Upsert(was, e), t)
    ensures Entered(Upsert(was, e), t) == if e.say.ctype == t then Updated(Entered(was, t), e) else Entered(was, t)
  {
    UpsertShape(was, e);
    if t == e.say.ctype { FindFirst(Upsert(was, e), t, Find(was, t)); } else { FindUnmoved(was, e, t); }
  }

  lemma {:induction false} TimeAfter(cs: seq<Condition>, es: seq<Entry>, t: CondType)
    requires Has(cs, t)
    ensures var was, r := Entered(cs, t), Replay(cs, es);
            && Has(r, t)
            && (!Interrupts(es, t, was.status) ==> Entered(r, t).status == was.status && Entered(r, t).since == was.since)
            && (Interrupts(es, t, was.status) ==> TimedBy(es, t, Entered(r, t).status, Entered(r, t).since))
  {
    if es != [] {
      var n, st := |es| - 1, Entered(cs, t).status;
      TimeAfter(cs, es[..n], t);
      EnteredSnoc(Replay(cs, es[..n]), es[n], t);
      assert forall j | 0 <= j < n :: es[..n][j] == es[j];
      if Interrupts(es[..n], t, st) {
        var i :| 0 <= i < n && es[..n][i].say.ctype == t && es[..n][i].say.status != st;
        assert es[i].say.ctype == t && es[i].say.status != st;
        TimedOn(es, n, t, Entered(Replay(cs, es[..n]), t).status, Entered(Replay(cs, es[..n]), t).since);
      } else if Interrupts(es, t, st) {
        var i :| 0 <= i < |es| && es[i].say.ctype == t && es[i].say.status != st;
        assert i == n;
      } else {
        assert !(es[n].say.ctype == t && es[n].say.status != st);
      }
    }
  }

  lemma TimedOn(es: seq<Entry>, n: nat, t: CondType, status: CondStatus, since: int)
    requires n <= |es| && TimedBy(es[..n], t, status, since)
    ensures TimedBy(es, t, status, since)
  {
    var i :| 0 <= i < n && es[..n][i].say.ctype == t && es[..n][i].say.status == status && es[..n][i].at == since;
    assert es[i] == es[..n][i];
  }

  /** A condition whose status is the same after some calls keeps its transition time when no call for
      it said another status; when one did, the time is that of a later call. So if the clock has moved
      since, the time moves if and only if some call said another status. */
  lemma RetimedExactly(cs: seq<Condition>, es: seq<Entry>, t: CondType)
    requires Has(cs, t) && Has(Replay(cs, es), t)
    requires Entered(Replay(cs, es), t).status == Entered(cs, t).status
    ensures var was, now := Entered(cs, t), Entered(Replay(cs, es), t);
            && (!Interrupts(es, t, was.status) ==> now.since == was.since)
            && (Interrupts(es, t, was.status) ==> TimedBy(es, t, was.status, now.since))
            && ((forall i | 0 <= i < |es| :: es[i].at > was.since) ==> (now.since != was.since <==> Interrupts(es, t, was.status)))
  {
    TimeAfter(cs, es, t);
  }
}
