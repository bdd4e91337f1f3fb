// One State and everything that acts on it: the worker running OnChange and OnRemove
// (pkg/terraform/state), the informer cache and work queue in front of it, the watch
// resolvers (pkg/terraform/controller.go), the execution handler, users and the CLI, and
// the runs it has deployed. Each action is one API call, so any other action may fall
// between two calls of a handler.
module Reconciler {
  import opened Basics
  import opened Versioned
  import opened Inputs
  import E = Executor
  import M = ModuleController

  datatype Status = Status(
    jobDeployed: Cond, destroyed: Cond, missingInfo: Cond, lastRunHash: string, executionName: string)

  datatype State = State(spec: StateSpec, status: Status, deleting: bool, finalizer: bool) {
    // OnRemove works on deleted States and deploys destroys, OnChange on the others.
    function Kind(): Kind {
      if deleting then Destroy else Create
    }

    // StateConditionJobDeployed.IsTrue(obj) && obj.Status.LastRunHash != ""
    predicate Tracking() {
      status.jobDeployed == IsTrue && status.lastRunHash != ""
    }
  }

  const NO_STATUS := Status(Absent, Absent, Absent, "", "")
  const DEFAULT_IMAGE := "rancher/terraform-controller-executor:latest"

  // How far deployCreate or deployDestroy has got with the run it has named.
  datatype Stage =
    | MakeExecution
    | NameSecret(run: string) | MakeSecret(run: string) | MakeAccount(run: string) | MakeBinding(run: string)
    | MakeJob(run: string) | Adopt(run: string, target: E.Target, attempt: nat)

  // Where the worker stands. base is the version obj was read or written at.
  datatype Pc =
    | Idle
    | Gathering(base: nat, obj: State, items: seq<Item>)
    | Checking(base: nat, obj: State, items: seq<Item>)
    | Clearing(base: nat, obj: State)
    | Locking(base: nat, obj: State, input: Input, hash: string)
    | Deploying(base: nat, obj: State, input: Input, hash: string, stage: Stage)
    | Recording(base: nat, obj: State, run: string)
    | Releasing(base: nat, obj: State)

  datatype Dep = DModule(name: string) | DConfig(name: string) | DSecret(name: string)

  datatype World = World(
    name: string,
    hist: seq<State>, deletedAt: Option<nat>,
    cached: nat, queued: bool, pc: Pc,
    deps: Deps, depEvents: set<Dep>,
    runs: map<string, E.Run>, runEvents: set<string>,
    lost: bool)          // the last pass ended in an error that nobody was told about
  {
    function Top(): nat
      requires hist != []
    {
      |hist| - 1
    }

    function Current(): State
      requires hist != []
    {
      hist[|hist| - 1]
    }

    // Deleted, and its finalizer released.
    predicate Gone()
      requires hist != []
    {
      Current().deleting && !Current().finalizer
    }
  }

  // How one call ends. Retry is a conflict or not-found inside a tryUpdate, Named carries
  // the name the server generated.
  datatype Outcome = Ok | Fail | Retry | Named(run: string)

  datatype Action =
    | Start | Call(outcome: Outcome) | Restart
    | Deliver(version: nat) | Resolve(dep: Dep) | RunEvent(run: string)
    | EditSpec(spec: StateSpec) | AddFinalizer | DeleteState | ResetRun(base: nat) | ResetDeleted(base: nat)
    | SetConfig(name: string, data: Option<Data>) | SetSecret(name: string, data: Option<Data>)
    | SetRef(name: string, execution: Option<string>)
    | NewModule(name: string, content: M.Content, now: int) | ModuleAct(name: string, act: M.Action) | DropModule(name: string)
    | RunAct(run: string, runAct: E.Action)

  function Init(name: string, spec: StateSpec): World
  {
    World(name, [State(spec, NO_STATUS, false, false)], None, 0, true, Idle,
          Deps(map[], map[], map[], map[]), {}, map[], {}, false)
  }

  // ---- Writes.

  predicate Accepts(w: World, base: nat)
    requires w.hist != []
  {
    base == w.Top() && !w.Gone()
  }

  function Write(w: World, base: nat, obj: State): (w': World)
    requires w.hist != []
    ensures w.hist <= w'.hist
    ensures w' == w.(hist := w'.hist)
    ensures Accepts(w, base) ==> w'.Current() == obj
    ensures !Accepts(w, base) ==> w' == w
  {
    if Accepts(w, base) then w.(hist := Cas(w.hist, base, obj)) else w
  }

  // A handler that returns an error is queued again; one that does not is finished.
  function Err(w: World): World {
    w.(pc := Idle, queued := true)
  }

  function Done(w: World): World {
    w.(pc := Idle)
  }

  function SetRun(w: World, n: string, r: E.Run): World {
    w.(runs := w.runs[n := r],
       runEvents := if n in w.runs && w.runs[n].hist == r.hist then w.runEvents else w.runEvents + {n})
  }

  // ---- The handlers.

  function Cleared(s: State): State {
    s.(status := s.status.(jobDeployed := IsFalse, executionName := ""))
  }

  function Normalised(s: State): State {
    s.(spec := s.spec.(version := Normal(s.spec.version)))
  }

  function Imaged(s: State): State {
    if s.spec.image == "" then s.(spec := s.spec.(image := DEFAULT_IMAGE)) else s
  }

  function Informed(s: State): State {
    s.(status := s.status.(missingInfo := IsFalse))
  }

  function Recorded(s: State, run: string, hash: string): State {
    s.(status := s.status.(jobDeployed := IsTrue, executionName := run, lastRunHash := hash))
  }

  // OnChange once nothing is tracked, or what is tracked is unfinished.
  ghost function Decide(w: World, base: nat, obj: State, input: Input): World
    requires IsInt32(obj.spec.version)
  {
    var s := Normalised(obj);
    var hash := InputHash(input, s.spec.version, Create);
    if hash == s.status.lastRunHash then Done(w)
    else w.(pc := Locking(base, s, input, hash))
  }

  ghost function AfterGather(w: World, base: nat, obj: State, items: seq<Item>): World
    requires IsInt32(obj.spec.version)
    requires Matches(obj.spec, items) && |items| == |Lookups(obj.spec)|
  {
    if !obj.deleting then
      if obj.Tracking() then w.(pc := Checking(base, obj, items))
      else Decide(w, base, obj, Assemble(obj.spec, items))
    else if !obj.spec.destroyOnDelete || obj.status.destroyed == IsTrue then w.(pc := Releasing(base, obj))
    else if obj.Tracking() then w.(pc := Checking(base, Informed(obj), items))
    else
      var input := Assemble(obj.spec, items);
      var hash := InputHash(input, obj.spec.version, Destroy);
      if hash == obj.status.lastRunHash && obj.status.jobDeployed == IsTrue then Err(w)
      else
        var s := Informed(obj);
        w.(pc := Locking(base, s.(status := s.status.(lastRunHash := hash)), input, hash))
  }

  predicate RunApplied(w: World, n: string) {
    n in w.runs && w.runs[n].hist != [] && !w.runs[n].deleted && w.runs[n].Current().applied
  }

  predicate RunFound(w: World, n: string) {
    n in w.runs && !w.runs[n].deleted
  }

  // Deletion is a point in the State's history: versions from it on are deleting.
  ghost predicate HistoryOk(hist: seq<State>, deletedAt: Option<nat>, cached: nat) {
    && hist != [] && cached < |hist|
    && (forall i :: 0 <= i < |hist| ==> IsInt32(hist[i].spec.version))
    && (deletedAt.Some? ==> 0 < deletedAt.value < |hist|)
    && (forall i :: 0 <= i < |hist| ==> (hist[i].deleting <==> deletedAt.Some? && deletedAt.value <= i))
  }

  ghost predicate StoresOk(runs: map<string, E.Run>, modules: map<string, M.World>) {
    && (forall n :: n in runs ==> runs[n].hist != [])
    && (forall n :: n in modules ==> modules[n].hist != [])
  }

  // The object in hand agrees with the version it came from on deletion and finalizer,
  // and what has been gathered fits what it names.
  ghost predicate PcOk(hist: seq<State>, pc: Pc) {
    pc != Idle ==>
      && pc.base < |hist|
      && IsInt32(pc.obj.spec.version)
      && pc.obj.deleting == hist[pc.base].deleting
      && pc.obj.finalizer == hist[pc.base].finalizer
      && (pc.obj.deleting ==> pc.obj.finalizer)
      && match pc
         case Gathering(_, obj, items) => Matches(obj.spec, items) && |items| < |Lookups(obj.spec)|
         case Checking(_, obj, items) => Matches(obj.spec, items) && |items| == |Lookups(obj.spec)|
         case Clearing(_, obj) => !obj.deleting
         case Releasing(_, obj) => obj.deleting
         case _ => true
  }

  // The shape of a world; every step keeps it (module Shape).
  ghost predicate Sane(w: World) {
    HistoryOk(w.hist, w.deletedAt, w.cached) && StoresOk(w.runs, w.deps.modules) && PcOk(w.hist, w.pc)
  }

  ghost function CallStep(w: World, o: Outcome): World
    requires Sane(w)
  {
    match w.pc
    case Idle => w
    case Gathering(base, obj, items) => GatherCall(w, o, base, obj, items)
    case Checking(base, obj, items) => CheckCall(w, o, base, obj, items)
    case Clearing(base, obj) =>
      if o.Fail? || !Accepts(w, base) then Err(w) else Done(Write(w, base, obj))
    case Locking(base, obj, input, hash) => LockCall(w, o, base, obj, input, hash)
    case Deploying(base, obj, input, hash, stage) => DeployCall(w, o, base, obj, input, hash, stage)
    case Recording(base, obj, run) =>
      if o.Fail? || !Accepts(w, base) then Err(w)
      else if obj.deleting then Err(Write(w, base, obj))
      else Done(Write(w, base, obj))
    case Releasing(base, obj) =>
      if o.Fail? || !Accepts(w, base) then Err(w) else Done(Write(w, base, obj.(finalizer := false)))
  }

  ghost function GatherCall(w: World, o: Outcome, base: nat, obj: State, items: seq<Item>): World
    requires IsInt32(obj.spec.version)
    requires Matches(obj.spec, items) && |items| < |Lookups(obj.spec)|
  {
    var ls := Lookups(obj.spec);
    var found := Fetch(w.deps, ls[|items|]);
    if o.Fail? || found.None? then Err(w)
    else
      var items' := items + [found.value];
      if |items'| < |ls| then w.(pc := Gathering(base, obj, items')) else AfterGather(w, base, obj, items')
  }

  ghost function CheckCall(w: World, o: Outcome, base: nat, obj: State, items: seq<Item>): World
    requires IsInt32(obj.spec.version)
    requires Matches(obj.spec, items) && |items| == |Lookups(obj.spec)|
  {
    var n := obj.status.executionName;
    if obj.deleting then
      if !o.Fail? && RunApplied(w, n) then w.(pc := Releasing(base, obj)) else Err(w)
    else if o.Fail? || !RunFound(w, n) then Err(w)
    else if RunApplied(w, n) then w.(pc := Clearing(base, Cleared(obj)))
    else Decide(w, base, obj, Assemble(obj.spec, items))
  }

  // The first Update. OnChange returns no error when it fails, conflict or not.
  function LockCall(w: World, o: Outcome, base: nat, obj: State, input: Input, hash: string): World
    requires w.hist != []
  {
    if o.Fail? then (if obj.deleting then Err(w) else Done(w).(lost := true))
    else if !Accepts(w, base) then (if obj.deleting then Err(w) else Done(w))
    else
      var w' := Write(w, base, obj);
      w'.(pc := Deploying(w'.Top(), if obj.deleting then obj else Imaged(obj), input, hash, MakeExecution))
  }

  ghost function NewExecution(w: World, n: string, obj: State, input: Input): E.Run
    requires IsInt32(obj.spec.version)
  {
    E.NewRun(n, obj.Kind(), input.Vars(),
      E.ExecutionSpec(w.name, obj.spec.autoConfirm, input.content, input.contentHash,
                      InputHash(input, obj.spec.version, obj.Kind()), obj.spec.version, ""))
  }

  // When a call of deployCreate or deployDestroy returns an error.
  predicate StageFails(runs: map<string, E.Run>, o: Outcome, stage: Stage) {
    o.Fail? ||
    if stage.MakeExecution? then !o.Named? || o.run == "" || o.run in runs
    else stage.run !in runs || (stage.NameSecret? && (runs[stage.run].deleted || |runs[stage.run].hist| != 1))
  }

  function StageAct(obj: State, input: Input, stage: Stage): E.Action {
    match stage
    case MakeSecret(_) => E.MakeSecret
    case MakeAccount(_) => E.MakeAccount
    case MakeBinding(_) => E.MakeBinding
    case MakeJob(_) => E.MakeJob(E.Job(input.image, input.env, obj.Kind()))
    case Adopt(_, target, _) => E.Adopt(target)
    case _ => E.NameSecret
  }

  // What a call that works does to the runs.
  ghost function StageEffect(w: World, o: Outcome, obj: State, input: Input, stage: Stage): (w': World)
    requires IsInt32(obj.spec.version)
    requires forall n :: n in w.runs ==> w.runs[n].hist != []
    requires !StageFails(w.runs, o, stage)
    ensures w' == w.(runs := w'.runs, runEvents := w'.runEvents)
  {
    if stage.MakeExecution? then SetRun(w, o.run, NewExecution(w, o.run, obj, input))
    else if stage.Adopt? && o.Retry? then w
    else SetRun(w, stage.run, E.Step(w.runs[stage.run], StageAct(obj, input, stage)))
  }

  function NextStage(o: Outcome, stage: Stage): Option<Stage>
    requires stage.MakeExecution? ==> o.Named?
  {
    match stage
    case MakeExecution => Some(NameSecret(o.run))
    case NameSecret(n) => Some(MakeSecret(n))
    case MakeSecret(n) => Some(MakeAccount(n))
    case MakeAccount(n) => Some(MakeBinding(n))
    case MakeBinding(n) => Some(MakeJob(n))
    case MakeJob(n) => Some(Adopt(n, E.Account, 0))
    case Adopt(n, target, attempt) =>
      if attempt + 1 < E.ATTEMPTS then Some(Adopt(n, target, attempt + 1))
      else if target.Account? then Some(Adopt(n, E.Binding, 0))
      else if target.Binding? then Some(Adopt(n, E.Secret, 0))
      else None
  }

  function AfterStage(o: Outcome, base: nat, obj: State, input: Input, hash: string, stage: Stage): Pc
    requires stage.MakeExecution? ==> o.Named?
  {
    var next := NextStage(o, stage);
    if next.Some? then Deploying(base, obj, input, hash, next.value)
    else Recording(base, Recorded(obj, stage.run, hash), stage.run)
  }

  // deployCreate and deployDestroy, one call at a time.
  ghost function DeployCall(w: World, o: Outcome, base: nat, obj: State, input: Input, hash: string, stage: Stage): World
    requires IsInt32(obj.spec.version)
    requires forall n :: n in w.runs ==> w.runs[n].hist != []
  {
    if StageFails(w.runs, o, stage) then Err(w)
    else StageEffect(w, o, obj, input, stage).(pc := AfterStage(o, base, obj, input, hash, stage))
  }

  // ---- Everybody else.

  function Referenced(dep: Dep, spec: StateSpec): bool {
    match dep
    case DModule(n) => n == spec.moduleName
    case DConfig(n) => n in spec.envConfigNames || n in spec.configNames
    case DSecret(n) => n in spec.envSecretNames || n in spec.secretNames
  }

  function Present(d: Deps, dep: Dep): bool {
    match dep
    case DModule(n) => n in d.modules
    case DConfig(n) => n in d.configs
    case DSecret(n) => n in d.secrets
  }

  function SetData(ms: map<string, Data>, n: string, data: Option<Data>): map<string, Data> {
    if data.Some? then ms[n := data.value] else ms - {n}
  }

  // Only a write that changes something makes an event; a deletion resolves to nothing.
  function Touched(ms: map<string, Data>, n: string, data: Option<Data>, dep: Dep): set<Dep> {
    if data.Some? && (n !in ms || ms[n] != data.value) then {dep} else {}
  }

  // What pods, users and the garbage collector may do to a run.
  predicate External(w: World, a: E.Action)
    requires w.hist != []
  {
    a.Boot? || a.Go? || a.Observe? || a.Crash? || a.Annotate? || a.Delete? || a.Collect? || (a.CollectAll? && w.Gone())
  }

  function StartStep(w: World): World
    requires w.hist != [] && w.cached < |w.hist|
  {
    if !w.queued || w.pc != Idle then w
    else
      var obj := w.hist[w.cached];
      var w' := w.(queued := false, lost := false);
      if obj.deleting && !obj.finalizer then w' else w'.(pc := Gathering(w.cached, obj, []))
  }

  // State writes by users and the CLI.
  ghost function UserStep(w: World, a: Action): World
    requires Sane(w)
  {
    var top, s := w.Top(), w.Current();
    match a
    case EditSpec(spec) => if IsInt32(spec.version) then Write(w, top, s.(spec := spec)) else w
    case AddFinalizer => if s.deleting then w else Write(w, top, s.(finalizer := true))
    case DeleteState =>
      if s.deleting || w.Gone() then w
      else Write(w, top, s.(deleting := true)).(deletedAt := Some(|w.hist|))
    case ResetRun(base) => if base > top then w else Write(w, base, Rerun(w.hist[base]))
    case ResetDeleted(base) =>
      if base > top || !w.hist[base].deleting then w
      else
        var s := Rerun(w.hist[base]);
        Write(w, base, s.(status := s.status.(executionName := "")))
    case _ => w
  }

  // runState: next version, nothing tracked.
  function Rerun(s: State): State
    requires IsInt32(s.spec.version)
  {
    s.(spec := s.spec.(version := NextInt32(s.spec.version)),
       status := s.status.(lastRunHash := "", jobDeployed := IsFalse))
  }

  ghost function DepStep(w: World, a: Action): (w': World)
    requires Sane(w)
    ensures w' == w.(deps := w'.deps, depEvents := w'.depEvents)
  {
    var d := w.deps;
    match a
    case SetConfig(n, data) =>
      w.(deps := d.(configs := SetData(d.configs, n, data)),
         depEvents := w.depEvents + Touched(d.configs, n, data, DConfig(n)))
    case SetSecret(n, data) =>
      w.(deps := d.(secrets := SetData(d.secrets, n, data)),
         depEvents := w.depEvents + Touched(d.secrets, n, data, DSecret(n)))
    case SetRef(n, run) =>
      w.(deps := d.(refs := if run.Some? then d.refs[n := run.value] else d.refs - {n}))
    case NewModule(n, spec, now) =>
      if n in d.modules then w
      else w.(deps := d.(modules := d.modules[n := M.Init(spec, now)]), depEvents := w.depEvents + {DModule(n)})
    case ModuleAct(n, act) =>
      if n !in d.modules then w
      else
        var m := M.Step(d.modules[n], act);
        w.(deps := d.(modules := d.modules[n := m]),
           depEvents := if m.hist == d.modules[n].hist then w.depEvents else w.depEvents + {DModule(n)})
    case DropModule(n) => w.(deps := d.(modules := d.modules - {n}))
    case _ => w
  }

  // The informer delivers, resolvers and the execution handler wake the State, the
  // worker process is replaced.
  function QueueStep(w: World, a: Action): (w': World)
    requires w.hist != []
    ensures w' == w.(cached := w'.cached, queued := w'.queued, lost := w'.lost, pc := w'.pc,
                     depEvents := w'.depEvents, runEvents := w'.runEvents)
    ensures w'.pc == w.pc || w'.pc == Idle
  {
    match a
    case Restart => w.(pc := Idle, queued := true, cached := w.Top(), lost := false)
    case Deliver(v) => if w.cached < v < |w.hist| then w.(cached := v, queued := true) else w
    case Resolve(dep) =>
      if dep !in w.depEvents then w
      else w.(depEvents := w.depEvents - {dep},
              queued := w.queued || (Present(w.deps, dep) && !w.Gone() && Referenced(dep, w.Current().spec)))
    case RunEvent(n) =>
      if n !in w.runEvents then w else w.(runEvents := w.runEvents - {n}, queued := true)
    case _ => w
  }

  function RunActStep(w: World, n: string, act: E.Action): World
    requires w.hist != []
    requires forall n :: n in w.runs ==> w.runs[n].hist != []
  {
    if n !in w.runs || !External(w, act) then w else SetRun(w, n, E.Step(w.runs[n], act))
  }

  ghost function Step(w: World, a: Action): World
    requires Sane(w)
  {
    match a
    case Start => StartStep(w)
    case Call(o) => CallStep(w, o)
    case RunAct(n, act) => RunActStep(w, n, act)
    case Restart => QueueStep(w, a)
    case Deliver(_) => QueueStep(w, a)
    case Resolve(_) => QueueStep(w, a)
    case RunEvent(_) => QueueStep(w, a)
    case EditSpec(_) => UserStep(w, a)
    case AddFinalizer => UserStep(w, a)
    case DeleteState => UserStep(w, a)
    case ResetRun(_) => UserStep(w, a)
    case ResetDeleted(_) => UserStep(w, a)
    case _ => DepStep(w, a)
  }
}
