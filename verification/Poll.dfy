/** What one poll of an existing share writes into the status, as a function of the spec, the status
    before it and what ShowShare reported. */
module Poll {
  import opened Errors
  import opened Conditions
  import opened Types

  /** The first field, in the source's order, that the live share contradicts. An empty live value
      is ignored, except for the encryption key. */
  function ImmutableDrift(spec: Spec, info: ShareInfo): Option<Field> {
    if info.shareType != "" && spec.shareType != "" && spec.shareType != info.shareType then Some(ShareTypeField)
    else if info.zone != "" && spec.zone != info.zone then Some(ZoneField)
    else if info.vpc != "" && spec.vpc != info.vpc then Some(VpcField)
    else if info.subnet != "" && spec.subnet != info.subnet then Some(SubnetField)
    else if spec.cryptKey != info.cryptKey then Some(CryptKeyField)
    else None
  }

  predicate Grows(spec: Spec, info: ShareInfo) { info.size > 0 && spec.size > info.size }

  predicate Shrinks(spec: Spec, info: ShareInfo) { info.size > 0 && spec.size < info.size }

  predicate SgDrifts(spec: Spec, info: ShareInfo) { spec.sg != "" && spec.sg != info.sg }

  /** The fields copied from the live share before any drift is handled. */
  function Observed(cr: Cr, info: ShareInfo): Cr {
    cr.(status := cr.status.(exportPath := info.exportLocation, size := info.size,
                             observedGeneration := cr.generation))
  }

  function ObservedSg(cr: Cr, info: ShareInfo): Cr {
    Observed(cr, info).(status := Observed(cr, info).status.(sg := info.sg))
  }

  function ReadySets(info: ShareInfo): seq<CondSet> {
    [ CondSet(Ready, True, FsCreated, About(info.exportLocation)),
      CondSet(Provisioning, False, FsCreated, Fixed),
      CondSet(Failed, False, FsCreated, Fixed) ]
  }

  function ResizeSets(cr: Cr, info: ShareInfo): seq<CondSet> {
    if Shrinks(cr.spec, info) then [ CondSet(Failed, True, ShrinkRefused, Sizes(cr.spec.size, info.size)) ]
    else if info.size > 0 && cr.spec.size == info.size && HasTrue(cr.status.conditions, Expanding) then
      [ CondSet(Expanding, False, FsExpanded, Sizes(info.size, info.size)) ]
    else []
  }

  function DriftSets(spec: Spec, info: ShareInfo): seq<CondSet> {
    match ImmutableDrift(spec, info)
    case Some(f) => [ CondSet(Failed, True, ImmutableFieldChanged, InField(f)) ]
    case None => []
  }

  function SgDoneSets(cr: Cr, info: ShareInfo): seq<CondSet> {
    if HasTrue(cr.status.conditions, UpdatingSecurityGroup) then
      [ CondSet(UpdatingSecurityGroup, False, SgUpdated, About(info.sg)) ]
    else []
  }

  /** Everything set before the security group is looked at, when the share is not to grow. */
  function SizedSets(cr: Cr, info: ShareInfo): seq<CondSet> {
    ReadySets(info) + ResizeSets(cr, info) + DriftSets(cr.spec, info)
  }

  /** How the tag reconciliation of a pass ended. */
  datatype TagOutcome = Skipped | Aligned(live: map<string, string>, changed: bool) | TagFailed(err: GoErr)

  function TagSets(o: TagOutcome): seq<CondSet> {
    match o
    case Skipped => []
    case Aligned(_, changed) => if changed then [ CondSet(Ready, True, TagsReconciled, Fixed) ] else []
    case TagFailed(e) => [ CondSet(Failed, True, HuaweiAPIError, TagErr(e)) ]
  }

  function TaggedCr(cr: Cr, o: TagOutcome): Cr {
    if o.Aligned? then cr.(status := cr.status.(tags := o.live)) else cr
  }

  /** All condition updates of a poll that runs to its end on an available share. */
  function FullSets(cr: Cr, info: ShareInfo, o: TagOutcome): seq<CondSet> {
    SizedSets(cr, info) + SgDoneSets(cr, info) + TagSets(o)
  }

  /** The object with the condition updates `es` made on it. */
  function Noted(cr: Cr, es: seq<Entry>): Cr {
    cr.(status := cr.status.(conditions := Replay(cr.status.conditions, es)))
  }

  function FullPoll(cr: Cr, info: ShareInfo, o: TagOutcome, es: seq<Entry>): Cr {
    Noted(TaggedCr(ObservedSg(cr, info), o), es)
  }

  // ---------------------------------------------------------------- what the verdict means

  /** A field that cannot be changed differs from the live share: an empty live value, or an empty wanted
      type, does not count, but an encryption key counts on either side. */
  predicate FieldDiffers(f: Field, spec: Spec, info: ShareInfo) {
    match f
    case ShareTypeField => info.shareType != "" && spec.shareType != "" && spec.shareType != info.shareType
    case ZoneField => info.zone != "" && spec.zone != info.zone
    case VpcField => info.vpc != "" && spec.vpc != info.vpc
    case SubnetField => info.subnet != "" && spec.subnet != info.subnet
    case CryptKeyField => spec.cryptKey != info.cryptKey
  }

  predicate ImmutableDiffers(spec: Spec, info: ShareInfo) {
    || FieldDiffers(ShareTypeField, spec, info) || FieldDiffers(ZoneField, spec, info)
    || FieldDiffers(VpcField, spec, info) || FieldDiffers(SubnetField, spec, info)
    || FieldDiffers(CryptKeyField, spec, info)
  }

  /** Field f is the first, in this order, that differs. */
  predicate IsFirst(f: Field, spec: Spec, info: ShareInfo) {
    && FieldDiffers(f, spec, info)
    && (f != ShareTypeField ==> !FieldDiffers(ShareTypeField, spec, info))
    && (f != ShareTypeField && f != ZoneField ==> !FieldDiffers(ZoneField, spec, info))
    && (f == SubnetField || f == CryptKeyField ==> !FieldDiffers(VpcField, spec, info))
    && (f == CryptKeyField ==> !FieldDiffers(SubnetField, spec, info))
  }

  /** The drift is found if and only if one of the five fields differs, and it is the first that does. */
  lemma DriftIsFirst(spec: Spec, info: ShareInfo)
    ensures ImmutableDrift(spec, info).Some? <==>
              || (info.shareType != "" && spec.shareType != "" && spec.shareType != info.shareType)
              || (info.zone != "" && spec.zone != info.zone) || (info.vpc != "" && spec.vpc != info.vpc)
              || (info.subnet != "" && spec.subnet != info.subnet) || spec.cryptKey != info.cryptKey
    ensures ImmutableDrift(spec, info).Some? ==> IsFirst(ImmutableDrift(spec, info).value, spec, info)
  {
  }

  /** Why the share is reported as failed, latest applicable reason first. */
  function Verdict(cr: Cr, info: ShareInfo, o: TagOutcome): Option<Reason> {
    if o.TagFailed? then Some(HuaweiAPIError)
    else if ImmutableDiffers(cr.spec, info) then Some(ImmutableFieldChanged)
    else if info.size > 0 && cr.spec.size < info.size then Some(ShrinkRefused)
    else None
  }

  lemma ReplaySplit(cs: seq<Condition>, a: seq<Entry>, b: seq<Entry>)
    ensures Replay(cs, a + b) == Replay(Replay(cs, a), b)
    decreases |b|
  {
    if b == [] {
      assert a + b == a;
    } else {
      assert (a + b)[..|a + b| - 1] == a + b[..|b| - 1];
      ReplaySplit(cs, a, b[..|b| - 1]);
    }
  }

  /** The last call of `sets` for type t. */
  function LastSay(sets: seq<CondSet>, t: CondType): Option<CondSet> {
    if sets == [] then None
    else if sets[|sets| - 1].ctype == t then Some(sets[|sets| - 1])
    else LastSay(sets[..|sets| - 1], t)
  }

  lemma {:induction false} LastSayOfTold(es: seq<Entry>, sets: seq<CondSet>, gen: nat, t: CondType)
    requires Told(es, sets, gen)
    ensures var k := LastOf(es, t);
            if k < |es| then LastSay(sets, t) == Some(es[k].say) && es[k].generation == gen else LastSay(sets, t) == None
  {
    if es != [] {
      LastSayOfTold(es[..|es| - 1], sets[..|sets| - 1], gen, t);
    }
  }

  lemma LastSayAppend(a: seq<CondSet>, b: seq<CondSet>, t: CondType)
    ensures LastSay(a + b, t) == if LastSay(b, t).Some? then LastSay(b, t) else LastSay(a, t)
    decreases |b|
  {
    if b == [] {
      assert a + b == a;
    } else {
      assert (a + b)[..|a + b| - 1] == a + b[..|b| - 1];
      LastSayAppend(a, b[..|b| - 1], t);
    }
  }

  /** The entry for t after the calls `sets`, in a list that was a map before. */
  lemma AfterCalls(cs: seq<Condition>, sets: seq<CondSet>, gen: nat, es: seq<Entry>, t: CondType)
    requires Told(es, sets, gen) && UniqueTypes(cs)
    ensures var r, say := Replay(cs, es), LastSay(sets, t);
            var i := Find(r, t);
            && UniqueTypes(r)
            && (say.Some? ==> i < |r| && r[i].status == say.value.status && r[i].reason == say.value.reason
                              && r[i].message == say.value.message && r[i].generation == gen
                              && (HasTrue(r, t) <==> say.value.status == True))
            && (say.None? ==> (HasTrue(r, t) <==> HasTrue(cs, t))
                              && if Find(cs, t) < |cs| then i < |r| && r[i] == cs[Find(cs, t)] else i == |r|)
  {
    LastSayOfTold(es, sets, gen, t);
    ReplayLast(cs, es, t);
    ReplayHasTrue(cs, es, t);
  }

  lemma LastSayType(sets: seq<CondSet>, t: CondType)
    ensures LastSay(sets, t).Some? ==> LastSay(sets, t).value.ctype == t
  {
  }

  /** The same in one word for each case: the last call for t is what the entry says, or the entry is kept. */
  lemma Spoken(cs: seq<Condition>, sets: seq<CondSet>, gen: nat, es: seq<Entry>, t: CondType)
    requires Told(es, sets, gen) && UniqueTypes(cs)
    ensures var r, say := Replay(cs, es), LastSay(sets, t);
            && UniqueTypes(r)
            && (say.Some? ==> say.value.ctype == t && Says(r, say.value, gen) && (HasTrue(r, t) <==> say.value.status == True))
            && (say.None? ==> Keeps(cs, r, t) && (HasTrue(r, t) <==> HasTrue(cs, t)))
  {
    hide LastSay, Replay, Find, HasTrue, Told;
    LastSayType(sets, t);
    AfterCalls(cs, sets, gen, es, t);
  }

  lemma ReadySay(info: ShareInfo)
    ensures var a := ReadySets(info);
            && LastSay(a, Ready) == Some(a[0]) && LastSay(a, Provisioning) == Some(a[1]) && LastSay(a, Failed) == Some(a[2])
            && LastSay(a, Deleting) == None && LastSay(a, Expanding) == None && LastSay(a, UpdatingSecurityGroup) == None
  {
    var a := ReadySets(info);
    assert a == [a[0]] + [a[1]] + [a[2]];
    forall t ensures LastSay(a, t) == if t == Failed then Some(a[2]) else if t == Provisioning then Some(a[1])
                                      else if t == Ready then Some(a[0]) else None
    {
      LastSayAppend([a[0]] + [a[1]], [a[2]], t);
      LastSayAppend([a[0]], [a[1]], t);
    }
  }

  function Or(x: Option<CondSet>, y: Option<CondSet>): Option<CondSet> { if x.Some? then x else y }

  function First(sets: seq<CondSet>, t: CondType): Option<CondSet> {
    if sets != [] && sets[0].ctype == t then Some(sets[0]) else None
  }

  lemma OneSays(sets: seq<CondSet>, t: CondType)
    requires |sets| <= 1
    ensures LastSay(sets, t) == First(sets, t)
  {
  }

  lemma FullSplit(cr: Cr, info: ShareInfo, o: TagOutcome, t: CondType)
    ensures LastSay(FullSets(cr, info, o), t) ==
            Or(First(TagSets(o), t), Or(First(SgDoneSets(cr, info), t), Or(First(DriftSets(cr.spec, info), t),
               Or(First(ResizeSets(cr, info), t), LastSay(ReadySets(info), t)))))
  {
    var a, b, c, d, e := ReadySets(info), ResizeSets(cr, info), DriftSets(cr.spec, info), SgDoneSets(cr, info), TagSets(o);
    LastSayAppend(a + b + c + d, e, t);
    LastSayAppend(a + b + c, d, t);
    LastSayAppend(a + b, c, t);
    LastSayAppend(a, b, t);
    OneSays(b, t);
    OneSays(c, t);
    OneSays(d, t);
    OneSays(e, t);
  }

  /** What is said last of Failed: the tags' error, else the first field that differs, else the two sizes,
      else that nothing has failed. */
  predicate SaysFailed(cr: Cr, info: ShareInfo, o: TagOutcome, say: CondSet) {
    if o.TagFailed? then say == CondSet(Failed, True, HuaweiAPIError, TagErr(o.err))
    else if ImmutableDiffers(cr.spec, info) then
      && say.message.InField? && IsFirst(say.message.field, cr.spec, info)
      && say == CondSet(Failed, True, ImmutableFieldChanged, say.message)
    else if info.size > 0 && cr.spec.size < info.size then
      say == CondSet(Failed, True, ShrinkRefused, Sizes(cr.spec.size, info.size))
    else say == CondSet(Failed, False, FsCreated, Fixed)
  }

  /** And of Ready. */
  function SaysReady(info: ShareInfo, o: TagOutcome): CondSet {
    if o.Aligned? && o.changed then CondSet(Ready, True, TagsReconciled, Fixed)
    else CondSet(Ready, True, FsCreated, About(info.exportLocation))
  }

  /** What the last calls of a full poll say. */
  lemma FullSetsSay(cr: Cr, info: ShareInfo, o: TagOutcome)
    ensures var sets, v := FullSets(cr, info, o), Verdict(cr, info, o);
            var f := LastSay(sets, Failed);
            && f.Some? && (v.Some? <==> f.value.status == True) && f.value.status != Unknown
            && SaysFailed(cr, info, o, f.value)
            && LastSay(sets, Ready) == Some(SaysReady(info, o))
            && LastSay(sets, Provisioning) == Some(CondSet(Provisioning, False, FsCreated, Fixed))
            && LastSay(sets, Deleting) == None
            && LastSay(sets, Expanding) ==
                 (if info.size > 0 && cr.spec.size == info.size && HasTrue(cr.status.conditions, Expanding)
                  then Some(CondSet(Expanding, False, FsExpanded, Sizes(info.size, info.size))) else None)
            && LastSay(sets, UpdatingSecurityGroup) ==
                 (if HasTrue(cr.status.conditions, UpdatingSecurityGroup)
                  then Some(CondSet(UpdatingSecurityGroup, False, SgUpdated, About(info.sg))) else None)
  {
    hide LastSay, FullSets, ImmutableDrift, ImmutableDiffers, FieldDiffers;
    DriftFound(cr.spec, info);
    ReadySay(info);
    FullSplit(cr, info, o, Failed);
    FullSplit(cr, info, o, Ready);
    FullSplit(cr, info, o, Provisioning);
    FullSplit(cr, info, o, Deleting);
    FullSplit(cr, info, o, Expanding);
    FullSplit(cr, info, o, UpdatingSecurityGroup);
  }

  lemma DriftFound(spec: Spec, info: ShareInfo)
    ensures ImmutableDrift(spec, info).Some? <==> ImmutableDiffers(spec, info)
    ensures ImmutableDrift(spec, info).Some? ==> IsFirst(ImmutableDrift(spec, info).value, spec, info)
  {
    DriftIsFirst(spec, info);
  }

  /** The verdict of a poll that runs to its end on an available share, on the values that end up in the
      list. Failed is True exactly when the tags failed, one of the five fields differs or the size
      would have to shrink, and says which; Ready is True and Provisioning False; a finished expansion
      or group change is noted; everything else stays as it was. */
  lemma PollVerdict(cr: Cr, info: ShareInfo, o: TagOutcome, es: seq<Entry>)
    requires Told(es, FullSets(cr, info, o), cr.generation) && UniqueTypes(cr.status.conditions)
    ensures var before, after, gen := cr.status.conditions, FullPoll(cr, info, o, es).status.conditions, cr.generation;
            && UniqueTypes(after)
            && (HasTrue(after, Failed) <==>
                  || o.TagFailed? || (info.size > 0 && cr.spec.size < info.size)
                  || (info.shareType != "" && cr.spec.shareType != "" && cr.spec.shareType != info.shareType)
                  || (info.zone != "" && cr.spec.zone != info.zone) || (info.vpc != "" && cr.spec.vpc != info.vpc)
                  || (info.subnet != "" && cr.spec.subnet != info.subnet) || cr.spec.cryptKey != info.cryptKey)
            && (exists say :: SaysFailed(cr, info, o, say) && Says(after, say, gen))
            && Says(after, SaysReady(info, o), gen)
            && Says(after, CondSet(Provisioning, False, FsCreated, Fixed), gen)
            && (if info.size > 0 && cr.spec.size == info.size && HasTrue(before, Expanding)
                then Says(after, CondSet(Expanding, False, FsExpanded, Sizes(info.size, info.size)), gen)
                else Keeps(before, after, Expanding))
            && (if HasTrue(before, UpdatingSecurityGroup)
                then Says(after, CondSet(UpdatingSecurityGroup, False, SgUpdated, About(info.sg)), gen)
                else Keeps(before, after, UpdatingSecurityGroup))
            && Keeps(before, after, Deleting)
            && !HasTrue(after, UpdatingSecurityGroup)
            && (HasTrue(after, Expanding) <==> HasTrue(before, Expanding) && !(info.size > 0 && cr.spec.size == info.size))
  {
    hide FullSets, LastSay, Replay, HasTrue, SaysFailed, SaysReady, Says, Keeps, Told, ImmutableDiffers;
    var before, sets, gen := cr.status.conditions, FullSets(cr, info, o), cr.generation;
    FullSetsSay(cr, info, o);
    VerdictOnValues(cr, info, o);
    Spoken(before, sets, gen, es, Failed);
    Spoken(before, sets, gen, es, Ready);
    Spoken(before, sets, gen, es, Provisioning);
    Spoken(before, sets, gen, es, Deleting);
    Spoken(before, sets, gen, es, Expanding);
    Spoken(before, sets, gen, es, UpdatingSecurityGroup);
  }

  lemma VerdictOnValues(cr: Cr, info: ShareInfo, o: TagOutcome)
    ensures Verdict(cr, info, o).Some? <==>
              || o.TagFailed? || (info.size > 0 && cr.spec.size < info.size)
              || (info.shareType != "" && cr.spec.shareType != "" && cr.spec.shareType != info.shareType)
              || (info.zone != "" && cr.spec.zone != info.zone) || (info.vpc != "" && cr.spec.vpc != info.vpc)
              || (info.subnet != "" && cr.spec.subnet != info.subnet) || cr.spec.cryptKey != info.cryptKey
  {
  }

  /** A failure that persists is set to False and to True again within the pass, so its transition time
      is that of a clock reading of this pass, although the condition was True before and after. */
  lemma PersistentFailureMovesItsTime(cr: Cr, info: ShareInfo, o: TagOutcome, es: seq<Entry>)
    requires Told(es, FullSets(cr, info, o), cr.generation) && UniqueTypes(cr.status.conditions)
    requires Verdict(cr, info, o).Some?
    ensures var after := FullPoll(cr, info, o, es).status.conditions;
            Find(after, Failed) < |after| && exists i | 3 <= i < |es| :: after[Find(after, Failed)].since == es[i].at
  {
    hide FullSets, LastSay, Find;
    var before, sets := cr.status.conditions, FullSets(cr, info, o);
    var rest := ResizeSets(cr, info) + DriftSets(cr.spec, info) + SgDoneSets(cr, info) + TagSets(o);
    assert |sets| >= 3 && sets[..3] == ReadySets(info) by { FullStart(cr, info, o); }
    var head, tail := es[..3], es[3..];
    assert es == head + tail;
    assert Told(head, ReadySets(info), cr.generation) by {
      forall i | 0 <= i < 3 ensures head[i].say == ReadySets(info)[i] { assert head[i] == es[i] && sets[..3][i] == sets[i]; }
    }
    ReadySay(info);
    AfterCalls(before, ReadySets(info), cr.generation, head, Failed);
    ReplaySplit(before, head, tail);
    PollVerdict(cr, info, o, es);
    SinceOfRise(Replay(before, head), tail, Failed);
    var i :| 0 <= i < |tail| && Replay(before, es)[Find(Replay(before, es), Failed)].since == tail[i].at;
    assert tail[i] == es[i + 3];
  }

  lemma FullStart(cr: Cr, info: ShareInfo, o: TagOutcome)
    ensures var sets := FullSets(cr, info, o); |sets| >= 3 && sets[..3] == ReadySets(info)
  {
  }
}
