// Every step keeps the shape of a world; runs of the system are built from such steps.
module Shape {
  import opened Basics
  import opened Inputs
  import opened Reconciler
  import E = Executor
  import M = ModuleController

  lemma InitSane(name: string, spec: StateSpec)
    requires IsInt32(spec.version)
    ensures Sane(Init(name, spec))
  {
  }

  lemma WriteKeepsHistory(w: World, base: nat, obj: State)
    requires HistoryOk(w.hist, w.deletedAt, w.cached) && base < |w.hist|
    requires IsInt32(obj.spec.version) && obj.deleting == w.hist[base].deleting
    ensures HistoryOk(Write(w, base, obj).hist, w.deletedAt, w.cached)
  {
  }

  lemma ItemFits(spec: StateSpec, items: seq<Item>, d: Deps)
    requires Matches(spec, items) && |items| < |Lookups(spec)|
    requires Fetch(d, Lookups(spec)[|items|]).Some?
    ensures Matches(spec, items + [Fetch(d, Lookups(spec)[|items|]).value])
  {
    hide Lookups, Fetch, Fits;
  }

  lemma GatherKeeps(w: World, o: Outcome)
    requires Sane(w) && w.pc.Gathering?
    ensures Sane(GatherCall(w, o, w.pc.base, w.pc.obj, w.pc.items))
  {
    hide Fetch, Lookups, HistoryOk, StoresOk, Matches, AfterGather;
    var Gathering(base, obj, items) := w.pc;
    if Fetch(w.deps, Lookups(obj.spec)[|items|]).Some? {
      ItemFits(obj.spec, items, w.deps);
      var items' := items + [Fetch(w.deps, Lookups(obj.spec)[|items|]).value];
      if |items'| == |Lookups(obj.spec)| { AfterGatherKeeps(w, items'); }
    }
  }

  lemma AfterGatherKeeps(w: World, items: seq<Item>)
    requires Sane(w) && w.pc.Gathering? && Matches(w.pc.obj.spec, items) && |items| == |Lookups(w.pc.obj.spec)|
    ensures Sane(AfterGather(w, w.pc.base, w.pc.obj, items))
  {
    hide InputHash, Lookups, HistoryOk, StoresOk, Assemble, Matches;
  }

  lemma CheckKeeps(w: World, o: Outcome)
    requires Sane(w) && w.pc.Checking?
    ensures Sane(CheckCall(w, o, w.pc.base, w.pc.obj, w.pc.items))
  {
    hide InputHash, Lookups, HistoryOk, StoresOk, Assemble, RunApplied, Matches;
  }

  lemma LockKeeps(w: World, o: Outcome)
    requires Sane(w) && w.pc.Locking? && w.hist != []
    ensures Sane(LockCall(w, o, w.pc.base, w.pc.obj, w.pc.input, w.pc.hash))
  {
    hide HistoryOk, StoresOk, Write;
    WriteKeepsHistory(w, w.pc.base, w.pc.obj);
  }

  lemma UpdateKeeps(w: World, o: Outcome)
    requires Sane(w) && (w.pc.Clearing? || w.pc.Recording? || w.pc.Releasing?)
    ensures Sane(CallStep(w, o))
  {
    hide HistoryOk, StoresOk, Write, Matches, GatherCall, CheckCall, DeployCall, LockCall;
    Indexed(w);
    var obj := if w.pc.Releasing? then w.pc.obj.(finalizer := false) else w.pc.obj;
    WriteKeepsHistory(w, w.pc.base, obj);
  }

  lemma Indexed(w: World)
    requires Sane(w)
    ensures w.cached < |w.hist|
  {
  }

  lemma EffectKeeps(w: World, o: Outcome, obj: State, input: Input, stage: Stage)
    requires IsInt32(obj.spec.version) && StoresOk(w.runs, w.deps.modules)
    requires !StageFails(w.runs, o, stage)
    ensures StoresOk(StageEffect(w, o, obj, input, stage).runs, w.deps.modules)
  {
    hide InputHash, E.Step;
  }

  lemma DeployKeeps(w: World, o: Outcome)
    requires Sane(w) && w.pc.Deploying?
    ensures var Deploying(base, obj, input, hash, stage) := w.pc;
            Sane(DeployCall(w, o, base, obj, input, hash, stage))
  {
    hide HistoryOk, StageEffect, NextStage;
    if !StageFails(w.runs, o, w.pc.stage) {
      EffectKeeps(w, o, w.pc.obj, w.pc.input, w.pc.stage);
    }
  }

  lemma UserKeeps(w: World, a: Action)
    requires Sane(w)
    ensures Sane(UserStep(w, a))
  {
    hide Lookups, StoresOk, Write, Matches, HistoryOk;
    Indexed(w);
    var w' := UserStep(w, a);
    if a.DeleteState? {
      DeletionKeeps(w);
    } else {
      VersionsOk(w);
      match a
      case EditSpec(spec) =>
        if IsInt32(spec.version) { WriteKeepsHistory(w, w.Top(), w.Current().(spec := spec)); }
      case AddFinalizer => WriteKeepsHistory(w, w.Top(), w.Current().(finalizer := true));
      case ResetRun(base) =>
        if base <= w.Top() { WriteKeepsHistory(w, base, Rerun(w.hist[base])); }
      case ResetDeleted(base) =>
        if base <= w.Top() {
          var s := Rerun(w.hist[base]);
          WriteKeepsHistory(w, base, s.(status := s.status.(executionName := "")));
        }
      case _ =>
    }
  }

  lemma VersionsOk(w: World)
    requires Sane(w)
    ensures forall i :: 0 <= i < |w.hist| ==> IsInt32(w.hist[i].spec.version)
  {
  }

  lemma DeletionKeeps(w: World)
    requires Sane(w)
    ensures HistoryOk(UserStep(w, DeleteState).hist, UserStep(w, DeleteState).deletedAt, w.cached)
  {
    hide StoresOk, PcOk;
  }

  lemma StepKeepsSane(w: World, a: Action)
    requires Sane(w)
    ensures Sane(Step(w, a))
  {
    hide Sane, CallStep, UserStep, DepStep, StartStep, QueueStep, RunActStep;
    Indexed(w);
    match a
    case Call(o) => CallKeeps(w, o);
    case Start => StartKeeps(w);
    case RunAct(n, act) => RunKeeps(w, n, act);
    case EditSpec(_) => UserKeeps(w, a);
    case AddFinalizer => UserKeeps(w, a);
    case DeleteState => UserKeeps(w, a);
    case ResetRun(_) => UserKeeps(w, a);
    case ResetDeleted(_) => UserKeeps(w, a);
    case Restart => QueueKeeps(w, a);
    case Deliver(_) => QueueKeeps(w, a);
    case Resolve(_) => QueueKeeps(w, a);
    case RunEvent(_) => QueueKeeps(w, a);
    case _ => DepKeeps(w, a);
  }

  lemma QueueKeeps(w: World, a: Action)
    requires Sane(w) && w.hist != []
    ensures Sane(QueueStep(w, a))
  {
  }

  lemma CallKeeps(w: World, o: Outcome)
    requires Sane(w)
    ensures Sane(CallStep(w, o))
  {
    hide HistoryOk, StoresOk, PcOk, GatherCall, CheckCall, DeployCall, LockCall, Write;
    match w.pc
    case Idle =>
    case Gathering(_, _, _) => GatherKeeps(w, o);
    case Checking(_, _, _) => CheckKeeps(w, o);
    case Deploying(_, _, _, _, _) => DeployKeeps(w, o);
    case Locking(_, _, _, _) => Indexed(w); LockKeeps(w, o);
    case _ => UpdateKeeps(w, o);
  }

  lemma StartKeeps(w: World)
    requires Sane(w)
    ensures Sane(StartStep(w))
  {
    hide HistoryOk, StoresOk;
    Indexed(w);
    VersionsOk(w);
  }

  lemma RunKeeps(w: World, n: string, act: E.Action)
    requires Sane(w)
    ensures w.hist != [] && (forall n :: n in w.runs ==> w.runs[n].hist != [])
    ensures Sane(RunActStep(w, n, act))
  {
    hide E.Step;
  }

  lemma DepKeeps(w: World, a: Action)
    requires Sane(w)
    ensures Sane(DepStep(w, a))
  {
    hide HistoryOk, PcOk, M.Step;
  }

  // A run of the system is a sequence of actions.
  ghost function Run(w: World, actions: seq<Action>): World
    requires Sane(w)
    decreases |actions|
  {
    if actions == [] then w
    else
      StepKeepsSane(w, actions[0]);
      Run(Step(w, actions[0]), actions[1..])
  }

  ghost predicate Reachable(w: World) {
    exists name: string, spec: StateSpec, actions: seq<Action> ::
      IsInt32(spec.version) && (InitSane(name, spec); w == Run(Init(name, spec), actions))
  }
}
