// The order in which a run's objects are created, and what a run is made of. Holds at
// every point of every history, so a crash between two creates leaves it true.
module Deployment {
  import opened Basics
  import opened Inputs
  import opened RunHash
  import opened Reconciler
  import Shape
  import E = Executor
  import M = ModuleController

  // The Execution names exactly the variables, content, version and action it was made from.
  ghost predicate Honest(r: E.Run) {
    && r.hist != []
    && IsInt32(r.hist[0].spec.version)
    && r.hist[0].spec.contentHash == M.HashOfContent(r.hist[0].spec.content) != ""
    && r.hist[0].spec.runHash == RunHashOf(r.vars, r.hist[0].spec.contentHash, r.hist[0].spec.version, r.kind)
  }

  ghost predicate RunsOk(runs: map<string, E.Run>) {
    forall n :: n in runs ==> n != "" && runs[n].name == n && Honest(runs[n]) && E.Inv(runs[n])
  }

  ghost predicate ModulesOk(modules: map<string, M.World>) {
    forall n :: n in modules ==> M.Inv(modules[n])
  }

  ghost predicate ContentOk(content: M.Content, hash: string) {
    hash == M.HashOfContent(content) != ""
  }

  ghost predicate ItemsOk(items: seq<Item>) {
    forall i :: 0 <= i < |items| && items[i].IModule? ==> ContentOk(items[i].content, items[i].contentHash)
  }

  predicate Named(r: E.Run) {
    r.hist != [] && r.Current().spec.secretName == r.SecretName()
  }

  // What has been created by the time a stage is reached. No Job, no garbage collection.
  ghost predicate Progress(r: E.Run, stage: Stage) {
    r.hist != [] &&
    match stage
    case MakeExecution => true
    case NameSecret(_) => r.made.None?
    case MakeSecret(_) => r.made.None? && Named(r)
    case MakeAccount(_) => r.made.None? && Named(r) && r.secret.Some?
    case MakeBinding(_) => r.made.None? && Named(r) && r.secret.Some? && r.account.Present?
    case MakeJob(_) => r.made.None? && E.Ready(r)
    case Adopt(_, _, _) => true
  }

  ghost predicate StageOk(runs: map<string, E.Run>, obj: State, hash: string, stage: Stage) {
    !stage.MakeExecution? ==>
      && stage.run in runs
      && runs[stage.run].kind == obj.Kind()
      && RunHashIs(runs[stage.run], hash)
      && Progress(runs[stage.run], stage)
  }

  predicate RunHashIs(r: E.Run, hash: string) {
    r.hist != [] && r.hist[0].spec.runHash == hash
  }

  ghost predicate PcSourced(runs: map<string, E.Run>, pc: Pc) {
    match pc
    case Gathering(_, _, items) => ItemsOk(items)
    case Checking(_, _, items) => ItemsOk(items)
    case Locking(_, obj, input, hash) =>
      ContentOk(input.content, input.contentHash) &&
      IsInt32(obj.spec.version) && hash == InputHash(input, obj.spec.version, obj.Kind())
    case Deploying(_, obj, input, hash, stage) =>
      ContentOk(input.content, input.contentHash) &&
      IsInt32(obj.spec.version) && hash == InputHash(input, obj.spec.version, obj.Kind()) &&
      StageOk(runs, obj, hash, stage)
    case Recording(_, obj, run) =>
      && run in runs && runs[run].kind == obj.Kind()
      && obj.status.jobDeployed == IsTrue && obj.status.executionName == run
      && RunHashIs(runs[run], obj.status.lastRunHash)
    case _ => true
  }

  ghost predicate Inv(w: World) {
    RunsOk(w.runs) && ModulesOk(w.deps.modules) && PcSourced(w.runs, w.pc)
  }

  // ---- Runs move on without losing what the deploy has put in place.

  lemma HonestKept(r: E.Run, a: E.Action)
    requires Honest(r)
    ensures Honest(E.Step(r, a))
  {
    hide E.Step, RunHashOf, M.HashOfContent;
  }

  lemma NamedKept(r: E.Run, a: E.Action)
    requires E.Inv(r) && Named(r)
    ensures Named(E.Step(r, a))
  {
    hide E.GoStep;
    if a.Go? { NamedGo(r, a.ok, a.text); }
  }

  lemma NamedGo(r: E.Run, ok: bool, text: string)
    requires E.Inv(r) && Named(r)
    ensures Named(E.GoStep(r, ok, text))
  {
    hide E.Past, E.NextAttempt;
  }

  lemma ProgressKept(r: E.Run, a: E.Action, stage: Stage)
    requires E.Inv(r) && Progress(r, stage)
    requires a.Boot? || a.Go? || a.Observe? || a.Crash? || a.Annotate? || a.Delete? || a.Collect? || a.CollectAll?
    ensures Progress(E.Step(r, a), stage)
  {
    hide E.GoStep, E.Past;
    if Named(r) { NamedKept(r, a); }
    if a.Go? { GoKeepsObjects(r, a.ok, a.text); }
  }

  lemma GoKeepsObjects(r: E.Run, ok: bool, text: string)
    requires r.hist != []
    ensures var r' := E.GoStep(r, ok, text);
            r'.made == r.made && r'.secret == r.secret && r'.account == r.account && r'.binding == r.binding
  {
  }

  // The stage's own call brings about what the next stage needs.
  lemma ProgressMade(r: E.Run, o: Outcome, obj: State, input: Input, stage: Stage)
    requires E.Inv(r) && Progress(r, stage) && !stage.MakeExecution?
    requires stage.NameSecret? ==> !r.deleted && |r.hist| == 1
    ensures var next := NextStage(o, stage);
            next.Some? ==> Progress(E.Step(r, StageAct(obj, input, stage)), next.value)
  {
    hide E.GoStep, E.Past;
    if stage.MakeSecret? || stage.MakeAccount? || stage.MakeBinding? {
      assert Named(E.Step(r, StageAct(obj, input, stage)));
      assert E.Objects(r);
    }
  }

  // ---- Every step keeps the invariant.

  // A run replaced by a later form of itself.
  lemma SetRunKeeps(runs: map<string, E.Run>, pc: Pc, n: string, r': E.Run)
    requires RunsOk(runs) && PcSourced(runs, pc) && n in runs
    requires E.Inv(r') && Honest(r') && r'.hist != [] && runs[n].hist <= r'.hist
    requires r'.name == n && r'.kind == runs[n].kind
    requires pc.Deploying? && !pc.stage.MakeExecution? && pc.stage.run == n ==> Progress(r', pc.stage)
    ensures RunsOk(runs[n := r']) && PcSourced(runs[n := r'], pc)
  {
    hide E.Inv, Honest, InputHash, ContentOk, Progress;
    assert runs[n].hist != [] by { E.HasHistory(runs[n]); }
  }

  lemma RunKeeps(w: World, n: string, a: E.Action)
    requires Inv(w) && n in w.runs && w.hist != [] && External(w, a)
    requires StoresOk(w.runs, w.deps.modules)
    ensures Inv(SetRun(w, n, E.Step(w.runs[n], a)))
  {
    hide E.Step, E.Inv, Honest, ModulesOk, InputHash, ContentOk;
    var r := w.runs[n];
    HonestKept(r, a);
    E.StepKeepsInv(r, a);
    if w.pc.Deploying? && !w.pc.stage.MakeExecution? && w.pc.stage.run == n {
      ProgressKept(r, a, w.pc.stage);
    }
    SetRunKeeps(w.runs, w.pc, n, E.Step(r, a));
  }

  // The deploying worker's own calls.
  lemma DeployKeeps(w: World, o: Outcome)
    requires Inv(w) && Sane(w) && w.pc.Deploying?
    ensures var Deploying(base, obj, input, hash, stage) := w.pc;
            Inv(DeployCall(w, o, base, obj, input, hash, stage))
  {
    hide InputHash, E.Step, E.Inv, Honest, HistoryOk, ModulesOk, ContentOk, NewExecution, Progress;
    var Deploying(base, obj, input, hash, stage) := w.pc;
    if !StageFails(w.runs, o, stage) {
      if stage.MakeExecution? {
        NewRunKeeps(w, o.run, obj, input);
      } else {
        StageKeeps(w, o, obj, input, hash, stage);
      }
    }
  }

  lemma NewRunKeeps(w: World, n: string, obj: State, input: Input)
    requires RunsOk(w.runs) && n !in w.runs && n != "" && IsInt32(obj.spec.version)
    requires ContentOk(input.content, input.contentHash)
    ensures var r := NewExecution(w, n, obj, input);
            && RunsOk(SetRun(w, n, r).runs)
            && r.kind == obj.Kind() && RunHashIs(r, InputHash(input, obj.spec.version, obj.Kind()))
            && Progress(r, NameSecret(n))
  {
    hide RunHashOf, M.HashOfContent;
  }

  lemma StageKeeps(w: World, o: Outcome, obj: State, input: Input, hash: string, stage: Stage)
    requires RunsOk(w.runs) && IsInt32(obj.spec.version) && StoresOk(w.runs, w.deps.modules)
    requires StageOk(w.runs, obj, hash, stage) && !stage.MakeExecution? && !StageFails(w.runs, o, stage)
    ensures var w', next := StageEffect(w, o, obj, input, stage), NextStage(o, stage);
            && RunsOk(w'.runs)
            && stage.run in w'.runs && w'.runs[stage.run].kind == obj.Kind() && RunHashIs(w'.runs[stage.run], hash)
            && (next.Some? ==> StageOk(w'.runs, obj, hash, next.value))
  {
    hide InputHash, E.Step, E.Inv, Honest;
    var r, act := w.runs[stage.run], StageAct(obj, input, stage);
    if stage.Adopt? && o.Retry? {
      assert NextStage(o, stage).Some? ==> NextStage(o, stage).value.Adopt?;
    } else {
      MakeJobReady(r, obj, input, stage);
      HonestKept(r, act);
      E.StepKeepsInv(r, act);
      ProgressMade(r, o, obj, input, stage);
      assert RunHashIs(E.Step(r, act), hash);
    }
  }

  lemma MakeJobReady(r: E.Run, obj: State, input: Input, stage: Stage)
    requires r.hist != [] && Progress(r, stage) && r.kind == obj.Kind() && !stage.MakeExecution?
    ensures var act := StageAct(obj, input, stage);
            act.MakeJob? ==> E.Ready(r) && act.job.kind == r.kind
  {
  }

  // What becomes of the modules.
  ghost function NextModules(ms: map<string, M.World>, a: Action): map<string, M.World>
    requires forall n :: n in ms ==> ms[n].hist != []
  {
    match a
    case NewModule(n, spec, now) => if n in ms then ms else ms[n := M.Init(spec, now)]
    case ModuleAct(n, act) => if n in ms then ms[n := M.Step(ms[n], act)] else ms
    case DropModule(n) => ms - {n}
    case _ => ms
  }

  lemma DepModules(w: World, a: Action)
    requires Sane(w)
    ensures (forall n :: n in w.deps.modules ==> w.deps.modules[n].hist != [])
    ensures DepStep(w, a).deps.modules == NextModules(w.deps.modules, a)
  {
    hide HistoryOk, PcOk, M.Step, M.Init;
  }

  lemma NextModulesOk(ms: map<string, M.World>, a: Action)
    requires ModulesOk(ms)
    ensures (forall n :: n in ms ==> ms[n].hist != []) && ModulesOk(NextModules(ms, a))
  {
    hide M.Step, M.Init, M.Inv;
    forall n | n in ms ensures ms[n].hist != [] { ModuleOk(ms, n); }
    match a
    case NewModule(n, spec, now) => M.InitInv(spec, now);
    case ModuleAct(n, act) => if n in ms { M.StepKeepsInv(ms[n], act); }
    case _ =>
  }

  lemma ModulesKeep(w: World, a: Action)
    requires Inv(w) && Sane(w)
    ensures Inv(DepStep(w, a))
  {
    hide RunsOk, PcSourced, ModulesOk, Sane, DepStep, NextModules;
    DepModules(w, a);
    NextModulesOk(w.deps.modules, a);
  }

  lemma ModuleOk(modules: map<string, M.World>, n: string)
    requires ModulesOk(modules) && n in modules
    ensures M.Inv(modules[n]) && modules[n].hist != []
  {
  }

  // Whatever is gathered from a module is coherent.
  lemma FetchedOk(d: Deps, l: Lookup, items: seq<Item>)
    requires ModulesOk(d.modules) && ItemsOk(items) && Fetch(d, l).Some?
    ensures ItemsOk(items + [Fetch(d, l).value])
  {
    hide M.HashOfContent;
    if l.LModule? {
      var m := d.modules[l.name];
      assert M.Inv(m);
      assert M.Coherent(m.hist[|m.hist| - 1]);
    }
  }

  lemma GatherKeeps(w: World, o: Outcome)
    requires Inv(w) && Sane(w) && w.pc.Gathering?
    ensures Inv(GatherCall(w, o, w.pc.base, w.pc.obj, w.pc.items))
  {
    hide RunsOk, ModulesOk, HistoryOk, StoresOk, Fetch, Lookups, Matches, ItemsOk, AfterGather;
    var l := Lookups(w.pc.obj.spec)[|w.pc.items|];
    if Fetch(w.deps, l).Some? {
      FetchedOk(w.deps, l, w.pc.items);
      Shape.ItemFits(w.pc.obj.spec, w.pc.items, w.deps);
      var items := w.pc.items + [Fetch(w.deps, l).value];
      if |items| == |Lookups(w.pc.obj.spec)| { AfterGatherKeeps(w, w.pc.base, w.pc.obj, items); }
    }
  }

  lemma AfterGatherKeeps(w: World, base: nat, obj: State, items: seq<Item>)
    requires Inv(w) && IsInt32(obj.spec.version) && ItemsOk(items)
    requires Matches(obj.spec, items) && |items| == |Lookups(obj.spec)|
    ensures Inv(AfterGather(w, base, obj, items))
  {
    hide RunsOk, ModulesOk, InputHash, ItemsOk, Assemble, Lookups, Matches, ContentOk;
    AssembledOk(obj.spec, items);
  }

  lemma CheckKeeps(w: World, o: Outcome)
    requires Inv(w) && Sane(w) && w.pc.Checking?
    ensures Inv(CheckCall(w, o, w.pc.base, w.pc.obj, w.pc.items))
  {
    hide RunsOk, ModulesOk, InputHash, ItemsOk, Assemble, Lookups, Matches, ContentOk, HistoryOk, StoresOk;
    AssembledOk(w.pc.obj.spec, w.pc.items);
  }

  lemma AssembledOk(spec: StateSpec, items: seq<Item>)
    requires Matches(spec, items) && |items| == |Lookups(spec)| && ItemsOk(items)
    ensures ContentOk(Assemble(spec, items).content, Assemble(spec, items).contentHash)
  {
    hide M.HashOfContent;
    assert Fits(Lookups(spec)[0], items[0]);
  }

  lemma StepKeepsInv(w: World, a: Action)
    requires Inv(w) && Sane(w)
    ensures Inv(Step(w, a))
  {
    hide Inv, Sane, CallStep, UserStep, DepStep, StartStep, QueueStep, RunActStep;
    Shape.Indexed(w);
    match a
    case Call(o) => CallKeeps(w, o);
    case RunAct(n, act) => RunActKeeps(w, n, act);
    case EditSpec(_) => UserKeeps(w, a);
    case AddFinalizer => UserKeeps(w, a);
    case DeleteState => UserKeeps(w, a);
    case ResetRun(_) => UserKeeps(w, a);
    case ResetDeleted(_) => UserKeeps(w, a);
    case Start => StartKeeps(w);
    case Restart => QueueKeeps(w, QueueStep(w, a));
    case Deliver(_) => QueueKeeps(w, QueueStep(w, a));
    case Resolve(_) => QueueKeeps(w, QueueStep(w, a));
    case RunEvent(_) => QueueKeeps(w, QueueStep(w, a));
    case _ => ModulesKeep(w, a);
  }

  // The queue and the informer hold nothing the invariant speaks of.
  lemma QueueKeeps(w: World, w': World)
    requires Inv(w) && w'.runs == w.runs && w'.deps == w.deps && (w'.pc == w.pc || w'.pc == Idle)
    ensures Inv(w')
  {
    hide RunsOk, ModulesOk;
  }

  lemma RunActKeeps(w: World, n: string, act: E.Action)
    requires Inv(w) && Sane(w)
    ensures w.hist != [] && (forall n :: n in w.runs ==> w.runs[n].hist != [])
    ensures Inv(RunActStep(w, n, act))
  {
    hide Inv, E.Step, External, SetRun, HistoryOk, PcOk;
    Shape.Indexed(w);
    if n in w.runs && External(w, act) { RunKeeps(w, n, act); }
  }

  lemma UserKeeps(w: World, a: Action)
    requires Inv(w) && Sane(w)
    ensures Inv(UserStep(w, a))
  {
    hide RunsOk, ModulesOk, PcSourced, HistoryOk, StoresOk, Write;
  }

  lemma StartKeeps(w: World)
    requires Inv(w) && w.hist != [] && w.cached < |w.hist|
    ensures Inv(StartStep(w))
  {
    hide RunsOk, ModulesOk;
  }

  // After an Update the worker is idle, or holds the lock and starts to deploy.
  lemma UpdateKeeps(w: World, o: Outcome)
    requires Inv(w) && w.hist != [] && (w.pc.Clearing? || w.pc.Locking? || w.pc.Recording? || w.pc.Releasing?)
    requires Sane(w)
    ensures Inv(CallStep(w, o))
  {
    hide RunsOk, ModulesOk, Sane, GatherCall, CheckCall, DeployCall, Write, InputHash, ContentOk;
  }

  lemma CallKeeps(w: World, o: Outcome)
    requires Inv(w) && Sane(w)
    ensures Inv(CallStep(w, o))
  {
    hide RunsOk, ModulesOk, PcSourced, Sane, GatherCall, CheckCall, DeployCall, LockCall, Write;
    assert w.hist != [] by { Shape.Indexed(w); }
    match w.pc
    case Idle =>
    case Gathering(_, _, _) => GatherKeeps(w, o);
    case Checking(_, _, _) => CheckKeeps(w, o);
    case Deploying(_, _, _, _, _) => DeployKeeps(w, o);
    case _ => UpdateKeeps(w, o);
  }
}
