/** The other side of the worker's calls: the Kubernetes API and the cloud, with an adversary that
    decides what happens around each call and how the call goes. */
module Stores {
  import opened Errors
  import opened Conditions
  import opened Types
  import opened Protocol
  import opened Branches
  import opened Safety
  import opened Calm

  /** What the adversary does at one call: steps of the environment, then the outcome of the call. */
  datatype Turn = Turn(around: seq<EnvAct>, outcome: Outcome)

  // ---------------------------------------------------------------- runs that grow

  ghost predicate Extends(r: Run, s: Run) {
    && |r.worlds| == |r.acts| + 1 && |s.worlds| == |s.acts| + 1
    && |r.acts| <= |s.acts| && s.acts[..|r.acts|] == r.acts && s.worlds[..|r.worlds|] == r.worlds
  }

  function Grown(r: Run, a: Act, v: World): Run {
    Run(r.worlds + [v], r.acts + [a])
  }

  lemma GrownIsRun(r: Run, a: Act, v: World)
    requires IsRun(r) && Step(r.worlds[|r.acts|], a, v)
    ensures IsRun(Grown(r, a, v)) && Extends(r, Grown(r, a, v))
  {
    hide Step;
    var s := Grown(r, a, v);
    forall i | 0 <= i < |s.acts| ensures Step(s.worlds[i], s.acts[i], s.worlds[i + 1]) {
      if i < |r.acts| {
        assert Step(r.worlds[i], r.acts[i], r.worlds[i + 1]);
      }
    }
  }

  lemma ExtendsOn(r: Run, s: Run, t: Run)
    requires Extends(r, s) && Extends(s, t)
    ensures Extends(r, t)
  {
    assert t.acts[..|r.acts|] == t.acts[..|s.acts|][..|r.acts|];
    assert t.worlds[..|r.worlds|] == t.worlds[..|s.worlds|][..|r.worlds|];
  }

  /** From its act number `start` on, the run is calm and within one pass. */
  ghost predicate CalmSince(r: Run, start: nat) {
    && |r.worlds| == |r.acts| + 1 && start <= |r.acts|
    && (forall i | start <= i < |r.acts| :: CalmStep(r.worlds[i], r.acts[i], r.worlds[i + 1]))
    && (forall i | start < i <= |r.acts| :: r.worlds[i].pc.At?)
    && r.worlds[start].pc == Idle
  }

  lemma CalmGrown(r: Run, start: nat, a: Act, v: World)
    requires CalmSince(r, start) && CalmStep(r.worlds[|r.acts|], a, v) && v.pc.At?
    ensures CalmSince(Grown(r, a, v), start)
  {
    hide CalmStep;
    var s := Grown(r, a, v);
    forall i | start <= i < |s.acts| ensures CalmStep(s.worlds[i], s.acts[i], s.worlds[i + 1]) {
      if i < |r.acts| {
        assert CalmStep(r.worlds[i], r.acts[i], r.worlds[i + 1]);
      }
    }
  }

  // ---------------------------------------------------------------- honest answers

  ghost predicate Sound(w: World) { w.hist != [] && w.cache < |w.hist| }

  /** An answer that the store gives when it accepts the call; `list` is a listing of the cloud. */
  function ExactReply(w: World, c: Call, list: seq<Listed>): Reply
    requires w.hist != [] && Accepts(w, c)
  {
    match c
    case ReadCr => Got(AsRead(w))
    case UpdateStatus(_, _) => Got(AsRead(Effect(w, c)))
    case CreateShare(_) => Minted(w.nextId)
    case ListShares(_, _) => Shares(list)
    case ShowShare(s) => Info(w.cloud[s.cr.status.fsId].info)
    case ShowTags(s, _) => Tags(w.cloud[s.cr.status.fsId].tags)
    case GetPv(s) => PvIs(w.pvs[s.cr.spec.pvcName])
    case GetPvc(s) => PvcIs(w.pvcs[(s.cr.ns, s.cr.spec.pvcName)])
    case _ => Done
  }

  function ExactError(c: Call): GoErr {
    match c
    case CreateShare(_) => Service(409, "SFS.TURBO.0009")
    case ShowShare(_) => Service(404, "")
    case GetPv(_) => ApiNotFound
    case GetPvc(_) => ApiNotFound
    case _ => ApiConflict
  }

  function ExactOutcome(w: World, c: Call, list: seq<Listed>): Outcome
    requires w.hist != []
  {
    if Accepts(w, c) then Answered(ExactReply(w, c, list)) else Refused(ExactError(c))
  }

  lemma ExactIsHonest(w: World, c: Call, list: seq<Listed>)
    requires Sound(w) && ListsCloud(list, w.cloud)
    ensures Possible(w, c, ExactOutcome(w, c, list)) && Honest(w, c, ExactOutcome(w, c, list))
  {
    hide Commit, ListsCloud, NameTaken, CapacityOf;
    NameError();
    if c.CreateShare? && !Accepts(w, c) { TakenName(w, c.snap); }
  }

  lemma TakenName(w: World, s: Snap)
    requires w.hist != [] && !Accepts(w, CreateShare(s))
    ensures NameTaken(w.cloud, s.cr.spec.fsName)
  {
  }

  lemma NameError()
    ensures IsNameAlreadyExists(Service(409, "SFS.TURBO.0009"))
  {
    assert StartsAt("SFS.TURBO.0009", "SFS.TURBO.0009", 0);
  }

  /** What the log says of the pass after a call: its changes to the cloud, and the tags it has listed. */
  function PassAfter(p: seq<Call>, c: Call): seq<Call> {
    if c.ReadCr? then [] else if MutatesCloud(c) then p + [c] else p
  }

  function ListedAfter(l: Option<map<string, string>>, c: Call, r: Reply): Option<map<string, string>> {
    if c.ReadCr? then None else if c.ShowTags? && r.Tags? then Some(r.tags) else l
  }

  lemma PerformSound(w: World, c: Call, o: Outcome)
    requires Sound(w) && Possible(w, c, o)
    ensures var v := Perform(w, c, o);
            && Sound(v) && v.pc == At(c, ReplyOf(o))
            && v.log.pass == PassAfter(w.log.pass, c) && v.log.listed == ListedAfter(w.log.listed, c, ReplyOf(o))
  {
    hide Truthful, ListsCloud;
  }

  lemma EnvSound(w: World, e: EnvAct)
    requires Sound(w) && EnvMay(w, e) && !e.Crash?
    ensures var v := EnvStep(w, e); Sound(v) && v.pc == w.pc && v.log.pass == w.log.pass && v.log.listed == w.log.listed
  {
  }

  /** The stores, in the state `world` that the run so far has led to. */
  class Api {
    var world: World
    var script: seq<Turn>
    ghost var run: Run

    // The run when the current pass began, the number of acts it had, and whether nothing can go wrong in the pass.
    ghost var origin: Run
    ghost var start: nat
    ghost var calm: bool

    ghost predicate Valid()
      reads this
    {
      && IsRun(run) && run.worlds[|run.acts|] == world && Sound(world) && Inv(world)
      && Extends(origin, run) && start == |origin.acts|
      && (calm ==> script == [] && CalmSince(run, start))
    }

    constructor (w: World, turns: seq<Turn>)
      requires Inv(w)
      ensures Valid() && world == w && script == turns && run == Run([w], [])
    {
      InvParts(w);
      world, script := w, turns;
      run := Run([w], []);
      origin, start, calm := Run([w], []), 0, false;
    }

    lemma Unfold()
      requires Valid()
      ensures IsRun(run) && run.worlds[|run.acts|] == world && Extends(origin, run) && start == |origin.acts|
    {
    }

    /** A pass begins. */
    ghost method Begin()
      requires Valid() && world.pc == Idle
      modifies this`origin, this`start, this`calm
      ensures Valid() && origin == run && (calm <==> script == [])
    {
      origin, start, calm := run, |run.acts|, script == [];
    }

    /** Steps of the environment, as far as they are possible; a crash would end the pass. */
    method Interfere(around: seq<EnvAct>)
      requires Valid() && !calm
      modifies this`world, this`run
      ensures Valid() && world.pc == old(world.pc)
      ensures world.log.pass == old(world.log.pass) && world.log.listed == old(world.log.listed)
    {
      hide Step, Inv;
      for i := 0 to |around|
        invariant Valid() && world.pc == old(world.pc)
        invariant world.log.pass == old(world.log.pass) && world.log.listed == old(world.log.listed)
      {
        var e := around[i];
        if !e.Crash? && EnvMay(world, e) {
          ghost var was := run;
          var next := EnvStep(world, e);
          EnvSound(world, e);
          EnvIsStep(world, e);
          StepKeeps(world, Env(e), next);
          GrownIsRun(run, Env(e), next);
          run := Grown(run, Env(e), next);
          world := next;
          ExtendsOn(origin, was, run);
        }
      }
    }

    /** A listing of the cloud. */
    method List() returns (list: seq<Listed>)
      ensures ListsCloud(list, world.cloud)
    {
      list := [];
      var todo := world.cloud.Keys;
      while todo != {}
        invariant todo <= world.cloud.Keys
        invariant forall i | 0 <= i < |list| :: list[i].id in world.cloud && list[i].name == world.cloud[list[i].id].name
        invariant forall id | id in world.cloud && id !in todo :: Listed(id, world.cloud[id].name) in list
        decreases todo
      {
        var id :| id in todo;
        todo := todo - {id};
        list := list + [Listed(id, world.cloud[id].name)];
      }
    }

    /** One call, made after the condition updates `es`: the adversary's turn if it has one left that
        is possible, and an honest answer otherwise. */
    method Exchange(c: Call, ghost es: seq<Entry>) returns (r: Reply)
      requires Valid() && Follows(world.pc, c, es)
      modifies this`world, this`run, this`script
      ensures Valid()
      ensures world.pc == At(c, r) && Kind(c, r)
      ensures world.log.pass == PassAfter(old(world.log.pass), c)
      ensures world.log.listed == ListedAfter(old(world.log.listed), c, r)
    {
      hide Follows, Possible, Honest, Perform, Step, Inv;
      var list := List();
      var outcome := ExactOutcome(world, c, list);
      ExactIsHonest(world, c, list);
      if script != [] {
        var turn := script[0];
        script := script[1..];
        Interfere(turn.around);
        if Possible(world, c, turn.outcome) {
          outcome := turn.outcome;
        } else {
          list := List();
          outcome := ExactOutcome(world, c, list);
          ExactIsHonest(world, c, list);
        }
      }
      Proceed(c, outcome, es);
      r := ReplyOf(outcome);
    }

    /** The call goes as `outcome` says. */
    method Proceed(c: Call, outcome: Outcome, ghost es: seq<Entry>)
      requires Valid() && Follows(world.pc, c, es) && Possible(world, c, outcome)
      requires (calm ==> Honest(world, c, outcome))
      modifies this`world, this`run
      ensures Valid()
      ensures world.pc == At(c, ReplyOf(outcome)) && Kind(c, ReplyOf(outcome))
      ensures world.log.pass == PassAfter(old(world.log.pass), c)
      ensures world.log.listed == ListedAfter(old(world.log.listed), c, ReplyOf(outcome))
    {
      hide Follows, Possible, Honest, Perform, Step, Inv;
      var next := Perform(world, c, outcome);
      PerformSound(world, c, outcome);
      PossibleKind(world, c, outcome);
      CallIsStep(world, c, outcome, es);
      StepKeeps(world, Do(c, outcome), next);
      GrownIsRun(run, Do(c, outcome), next);
      if calm { CalmGrown(run, start, Do(c, outcome), next); }
      ExtendsOn(origin, run, Grown(run, Do(c, outcome), next));
      run := Grown(run, Do(c, outcome), next);
      world := next;
    }

    /** The pass returns. */
    method Finish(res: Result)
      requires Valid() && Ending(world.pc) == Some(res)
      modifies this`world, this`run, this`calm
      ensures Valid() && world == old(world).(pc := Idle) && !calm
      ensures old(calm) ==> CalmPass(Run(run.worlds[start..], run.acts[start..]))
      ensures run.acts == old(run.acts) + [End(res)]
    {
      hide Step, Inv;
      var next := world.(pc := Idle);
      EndIsStep(world, res);
      StepKeeps(world, End(res), next);
      GrownIsRun(run, End(res), next);
      if calm { CalmEnds(run, start, res, next); }
      ExtendsOn(origin, run, Grown(run, End(res), next));
      run := Grown(run, End(res), next);
      world := next;
      calm := false;
    }
  }

  lemma EnvIsStep(w: World, e: EnvAct)
    requires w.hist != [] && EnvMay(w, e)
    ensures Step(w, Env(e), EnvStep(w, e))
  {
    hide EnvMay, EnvStep;
    assert May(w, Env(e), []);
  }

  lemma CallIsStep(w: World, c: Call, o: Outcome, es: seq<Entry>)
    requires w.hist != [] && Follows(w.pc, c, es) && Possible(w, c, o)
    ensures Step(w, Do(c, o), Perform(w, c, o))
  {
    hide Follows, Possible, Perform;
    assert May(w, Do(c, o), es);
  }

  lemma EndIsStep(w: World, res: Result)
    requires w.hist != [] && Ending(w.pc) == Some(res)
    ensures Step(w, End(res), w.(pc := Idle))
  {
    hide Ending;
    assert May(w, End(res), []);
  }

  /** A calm pass with its end. */
  lemma CalmEnds(r: Run, start: nat, res: Result, v: World)
    requires IsRun(r) && CalmSince(r, start) && Step(r.worlds[|r.acts|], End(res), v) && v.pc == Idle
    ensures var s := Grown(r, End(res), v); CalmPass(Run(s.worlds[start..], s.acts[start..]))
  {
    hide Step;
    var s := Grown(r, End(res), v);
    var p := Run(s.worlds[start..], s.acts[start..]);
    forall i | 0 <= i < |p.acts| ensures CalmStep(p.worlds[i], p.acts[i], p.worlds[i + 1]) {
      if start + i < |r.acts| {
        assert CalmStep(r.worlds[start + i], r.acts[start + i], r.worlds[start + i + 1]);
      }
    }
    forall i | 0 < i < |p.acts| ensures p.worlds[i].pc.At? {
      assert p.worlds[i] == r.worlds[start + i];
    }
    assert p.worlds[0] == r.worlds[start];
  }
}
