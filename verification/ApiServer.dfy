// The API server and the work queue as the worker of the State controller meets them:
// every call is one step of the machine in module Reconciler, and anybody else's actions
// may come before it.
module ApiServer {
  import opened Basics
  import opened Versioned
  import opened Inputs
  import opened Reconciler
  import opened Retry
  import Ownership
  import Shape
  import E = Executor
  import M = ModuleController
  import S = ExecutorSafety

  // ---- Worlds that reach one another.

  predicate FromOutside(a: Action) {
    !a.Start? && !a.Call? && !a.Restart?
  }

  // What may happen during one pass of the worker: its calls, and what others do.
  predicate InPass(a: Action) {
    FromOutside(a) || a.Call?
  }

  ghost predicate Works(w: World, w': World) {
    Sane(w) && exists actions: seq<Action> ::
      (forall i :: 0 <= i < |actions| ==> InPass(actions[i])) && Shape.Run(w, actions) == w'
  }

  ghost predicate Reaches(w: World, w': World) {
    Sane(w) && exists actions: seq<Action> :: Shape.Run(w, actions) == w'
  }

  ghost predicate Disturbs(w: World, w': World) {
    Sane(w) && exists actions: seq<Action> ::
      (forall i :: 0 <= i < |actions| ==> FromOutside(actions[i])) && Shape.Run(w, actions) == w'
  }

  // The worker stands where it stood, no version and no run has gone, and runs are still
  // what they were made, with no other Job than the worker made.
  ghost predicate SameWorker(w: World, w': World) {
    && w'.name == w.name && w'.pc == w.pc && w.hist <= w'.hist && RunsKept(w.runs, w'.runs)
    && JobsKept(w.runs, w'.runs)
  }

  ghost predicate JobsKept(runs: map<string, E.Run>, runs': map<string, E.Run>) {
    forall n :: n in runs ==> n in runs' && runs'[n].made == runs[n].made
  }

  ghost predicate RunsKept(runs: map<string, E.Run>, runs': map<string, E.Run>) {
    forall n :: n in runs ==> n in runs' && SameRun(runs[n], runs'[n])
  }

  predicate SameRun(r: E.Run, r': E.Run) {
    r'.vars == r.vars && r'.kind == r.kind && r.hist <= r'.hist && (r.made.Some? ==> r'.made == r.made)
  }

  lemma {:induction false} RunAppend(w: World, a: seq<Action>, b: seq<Action>)
    requires Sane(w)
    ensures Sane(Shape.Run(w, a))
    ensures Shape.Run(w, a + b) == Shape.Run(Shape.Run(w, a), b)
    decreases |a|
  {
    hide Sane, Step;
    if a == [] {
      assert a + b == b;
    } else {
      Shape.StepKeepsSane(w, a[0]);
      RunAppend(Step(w, a[0]), a[1..], b);
      assert (a + b)[1..] == a[1..] + b;
    }
  }

  lemma ReachesItself(w: World)
    requires Sane(w)
    ensures Reaches(w, w) && Works(w, w) && Disturbs(w, w)
  {
    hide Sane, Step;
    var none: seq<Action> := [];
    assert Shape.Run(w, none) == w;
  }

  lemma WorksTransitive(w: World, v: World, u: World)
    requires Works(w, v) && Works(v, u)
    ensures Works(w, u)
  {
    hide Sane, Step, Shape.Run, InPass;
    var a: seq<Action> :| (forall i :: 0 <= i < |a| ==> InPass(a[i])) && Shape.Run(w, a) == v;
    var b: seq<Action> :| (forall i :: 0 <= i < |b| ==> InPass(b[i])) && Shape.Run(v, b) == u;
    RunAppend(w, a, b);
    var c := a + b;
    assert forall i :: 0 <= i < |c| ==> InPass(c[i]);
  }

  // No run is ever lost.
  lemma {:induction false} RunKeepsRuns(w: World, actions: seq<Action>)
    requires Sane(w)
    ensures RunsKept(w.runs, Shape.Run(w, actions).runs)
    decreases |actions|
  {
    hide Sane, Step, Ownership.Evolves;
    if actions == [] {
      KeptItself(w.runs);
    } else {
      StepKeepsRuns(w, actions[0]);
      Shape.StepKeepsSane(w, actions[0]);
      RunKeepsRuns(Step(w, actions[0]), actions[1..]);
      KeptTransitive(w.runs, Step(w, actions[0]).runs, Shape.Run(w, actions).runs);
    }
  }

  lemma StepKeepsRuns(w: World, a: Action)
    requires Sane(w)
    ensures RunsKept(w.runs, Step(w, a).runs)
  {
    hide Sane, Step;
    Ownership.StepEvolves(w, a);
  }

  lemma WorksKeepsRuns(w: World, w': World)
    requires Works(w, w')
    ensures RunsKept(w.runs, w'.runs)
  {
    hide Sane, Step, InPass, RunsKept;
    var actions: seq<Action> :| (forall i :: 0 <= i < |actions| ==> InPass(actions[i])) && Shape.Run(w, actions) == w';
    RunKeepsRuns(w, actions);
  }

  lemma WorksReaches(w: World, w': World)
    requires Works(w, w')
    ensures Reaches(w, w')
  {
    hide Sane, Step, Shape.Run;
  }

  lemma ReachesTransitive(w: World, v: World, u: World)
    requires Reaches(w, v) && Reaches(v, u)
    ensures Reaches(w, u)
  {
    hide Sane, Step, Shape.Run;
    var a: seq<Action> :| Shape.Run(w, a) == v;
    var b: seq<Action> :| Shape.Run(v, b) == u;
    RunAppend(w, a, b);
  }

  lemma ReachesOne(w: World, a: Action)
    requires Sane(w)
    ensures Sane(Step(w, a)) && Reaches(w, Step(w, a)) && (InPass(a) ==> Works(w, Step(w, a)))
  {
    hide Sane, Step, InPass;
    Shape.StepKeepsSane(w, a);
    assert [a][1..] == [];
    assert Shape.Run(w, [a]) == Step(w, a);
  }

  lemma OutsideStep(w: World, a: Action)
    requires Sane(w) && FromOutside(a)
    ensures SameWorker(w, Step(w, a))
  {
    hide Sane, UserStep, DepStep, QueueStep, RunActStep, CallStep, StartStep, SameWorker;
    Shape.Indexed(w);
    match a
    case RunAct(n, act) => RunOutside(w, n, act);
    case EditSpec(_) => UserOutside(w, a);
    case AddFinalizer => UserOutside(w, a);
    case DeleteState => UserOutside(w, a);
    case ResetRun(_) => UserOutside(w, a);
    case ResetDeleted(_) => UserOutside(w, a);
    case Deliver(_) => QueueOutside(w, a);
    case Resolve(_) => QueueOutside(w, a);
    case RunEvent(_) => QueueOutside(w, a);
    case _ => DepOutside(w, a);
  }

  lemma RunOutside(w: World, n: string, act: E.Action)
    requires Sane(w)
    ensures w.hist != [] && (forall n :: n in w.runs ==> w.runs[n].hist != [])
    ensures SameWorker(w, RunActStep(w, n, act))
  {
    hide PcOk, E.Step;
    Shape.Indexed(w);
  }

  lemma UserOutside(w: World, a: Action)
    requires Sane(w)
    ensures SameWorker(w, UserStep(w, a))
  {
    hide StoresOk, PcOk, Write;
  }

  lemma QueueOutside(w: World, a: Action)
    requires w.hist != [] && !a.Restart?
    ensures SameWorker(w, QueueStep(w, a))
  {
  }

  lemma DepOutside(w: World, a: Action)
    requires Sane(w)
    ensures SameWorker(w, DepStep(w, a))
  {
    hide Sane;
  }

  lemma {:induction false} OutsideLeavesWorker(w: World, actions: seq<Action>)
    requires Sane(w) && forall i :: 0 <= i < |actions| ==> FromOutside(actions[i])
    ensures SameWorker(w, Shape.Run(w, actions)) && Sane(Shape.Run(w, actions))
    decreases |actions|
  {
    hide Sane, Step, FromOutside;
    if actions == [] {
    } else {
      OutsideStep(w, actions[0]);
      Shape.StepKeepsSane(w, actions[0]);
      OutsideLeavesWorker(Step(w, actions[0]), actions[1..]);
    }
  }

  // So callers know where they stand after any disturbance.
  lemma DisturbanceIsHarmless(w: World, w': World)
    requires Disturbs(w, w')
    ensures Works(w, w') && Reaches(w, w') && SameWorker(w, w') && Sane(w')
  {
    hide Sane, Step, Shape.Run, SameWorker;
    var actions: seq<Action> :|
      (forall i :: 0 <= i < |actions| ==> FromOutside(actions[i])) && Shape.Run(w, actions) == w';
    OutsideLeavesWorker(w, actions);
  }

  // The runs of the system contain whatever a pass does to a world they contain.
  lemma ReachesKeepsReachable(w: World, w': World)
    requires Shape.Reachable(w) && Reaches(w, w')
    ensures Shape.Reachable(w')
  {
    hide Sane, Step, Shape.Run, Init;
    var name: string, spec: StateSpec, actions: seq<Action> :|
      IsInt32(spec.version) && (Shape.InitSane(name, spec); w == Shape.Run(Init(name, spec), actions));
    var more: seq<Action> :| Shape.Run(w, more) == w';
    Shape.InitSane(name, spec);
    RunAppend(Init(name, spec), actions, more);
    assert w' == Shape.Run(Init(name, spec), actions + more);
  }

  lemma PassKeepsReachable(w: World, w': World)
    requires Shape.Reachable(w) && Works(w, w')
    ensures Shape.Reachable(w')
  {
    hide Sane, Works, Reaches, Shape.Reachable;
    WorksReaches(w, w');
    ReachesKeepsReachable(w, w');
  }

  // Gathering has got as far as `items`; with the last of them the worker moves on.
  ghost predicate Gathered(w: World, before: World, base: nat, obj: State, items: seq<Item>) {
    && IsInt32(obj.spec.version) && Matches(obj.spec, items)
    && (if |items| < |Lookups(obj.spec)| then w.pc == Gathering(base, obj, items)
        else w == AfterGather(before, base, obj, items))
  }

  // At some moment between the one world and the other this was what a lookup found.
  ghost predicate Found(w: World, w': World, l: Lookup, item: Item) {
    exists v :: FoundAt(w, v, w', l, item)
  }

  ghost predicate FoundAt(w: World, v: World, w': World, l: Lookup, item: Item) {
    Works(w, v) && Works(v, w') && Fetch(v.deps, l) == Some(item)
  }

  // Each of these items was found under the name the spec has for it.
  ghost predicate Collects(w: World, w': World, spec: StateSpec, items: seq<Item>) {
    |items| <= |Lookups(spec)| && forall i :: 0 <= i < |items| ==> Found(w, w', Lookups(spec)[i], items[i])
  }

  lemma FoundLater(w: World, v: World, w': World, l: Lookup, item: Item)
    requires Found(w, v, l, item) && Works(v, w')
    ensures Found(w, w', l, item)
  {
    hide Works, Fetch;
    var u :| FoundAt(w, u, v, l, item);
    WorksTransitive(u, v, w');
    assert FoundAt(w, u, w', l, item);
  }

  lemma FoundNow(w: World, v: World, w': World, l: Lookup, item: Item)
    requires Works(w, v) && Works(v, w') && Fetch(v.deps, l) == Some(item)
    ensures Found(w, w', l, item)
  {
    hide Works, Fetch;
    assert FoundAt(w, v, w', l, item);
  }

  lemma CollectsLater(w: World, v: World, w': World, spec: StateSpec, items: seq<Item>)
    requires Collects(w, v, spec, items) && Works(v, w')
    ensures Collects(w, w', spec, items)
  {
    hide Works, Lookups, Found;
    forall i | 0 <= i < |items| ensures Found(w, w', Lookups(spec)[i], items[i]) {
      FoundLater(w, v, w', Lookups(spec)[i], items[i]);
    }
  }

  lemma CollectsOne(w: World, v: World, u: World, w': World, spec: StateSpec, items: seq<Item>, item: Item)
    requires Collects(w, v, spec, items) && Works(w, v) && Works(v, u) && Works(u, w')
    requires |items| < |Lookups(spec)| && Fetch(u.deps, Lookups(spec)[|items|]) == Some(item)
    ensures Collects(w, w', spec, items + [item])
  {
    hide Works, Fetch, Lookups, Found;
    WorksTransitive(v, u, w');
    WorksTransitive(w, v, u);
    CollectsLater(w, v, w', spec, items);
    FoundNow(w, u, w', Lookups(spec)[|items|], item);
  }

  lemma CollectsFirst(w: World, u: World, w': World, spec: StateSpec, item: Item)
    requires Works(w, u) && Works(u, w') && Fetch(u.deps, Lookups(spec)[0]) == Some(item)
    ensures Collects(w, w', spec, [item])
  {
    hide Works, Fetch, Lookups, Found;
    FoundNow(w, u, w', Lookups(spec)[0], item);
  }

  predicate Shown(w: World, name: string, hist: seq<State>, cached: nat, queued: bool, deps: Deps,
                  runs: map<string, E.Run>) {
    w.name == name && w.hist == hist && w.cached == cached && (queued ==> w.queued) && w.deps == deps && w.runs == runs
  }

  lemma StillGathering(w: World, before: World, base: nat, obj: State, items: seq<Item>)
    requires Gathered(w, before, base, obj, items) && |items| < |Lookups(obj.spec)|
    ensures w.pc == Gathering(base, obj, items)
  {
    hide Lookups, AfterGather, Matches;
  }

  // ---- The API server and the work queue, as the worker meets them.

  class Cluster {
    const name: string
    var hist: seq<State>
    var cached: nat
    var queued: bool      // the queue is known to hold the key
    var deps: Deps
    var runs: map<string, E.Run>
    ghost var w: World
    ghost var failures: nat   // calls that were answered with an error or with nothing of use

    constructor (name: string, spec: StateSpec)
      requires IsInt32(spec.version)
      ensures Valid() && w == Init(name, spec) && Shape.Reachable(w)
    {
      this.name := name;
      hist, cached, queued := [State(spec, NO_STATUS, false, false)], 0, true;
      deps, runs := Deps(map[], map[], map[], map[]), map[];
      w, failures := Init(name, spec), 0;
      new;
      Shape.InitSane(name, spec);
      var none: seq<Action> := [];
      assert w == Shape.Run(Init(name, spec), none);
    }

    ghost predicate Valid(): (valid: bool)
      reads this
      ensures valid ==> Sane(w) && hist == w.hist && hist != [] && runs == w.runs
    {
      Sane(w) && Shown(w, name, hist, cached, queued, deps, runs)
    }

    // Anything from outside may happen here, and any amount of it. The body does nothing:
    // callers may rely on the contract alone.
    method Interfere()
      requires Valid()
      modifies this
      ensures Valid() && Disturbs(old(w), w) && failures == old(failures)
    {
      hide Sane;
      ReachesItself(w);
    }

    // The machine's side of a call.
    ghost method Took(a: Action)
      requires Sane(w)
      modifies `w
      ensures Sane(w) && w == Step(old(w), a) && Reaches(old(w), w) && (InPass(a) ==> Works(old(w), w))
    {
      hide Sane, Step, Reaches, Works, InPass;
      ReachesOne(w, a);
      w := Step(w, a);
    }

    // The queue hands out the key, and the cache the object behind it.
    method Begin() returns (obj: Option<State>, base: nat)
      requires Valid() && w.pc == Idle
      modifies this
      ensures Valid() && Reaches(old(w), w) && failures == old(failures)
      ensures obj.None? ==> w.pc == Idle && !queued
      ensures obj.Some? ==> w.pc == Gathering(base, obj.value, []) && IsInt32(obj.value.spec.version)
    {
      hide Works, Reaches, Disturbs, HistoryOk, StoresOk, PcOk;
      Interfere();
      DisturbanceIsHarmless(old(w), w);
      ghost var start := w;
      base := cached;
      Shape.Indexed(w);
      Shape.VersionsOk(w);
      var s := hist[base];
      obj := None;
      if queued {
        obj := if s.deleting && !s.finalizer then None else Some(s);
        queued := false;
        Took(Start);
        ReachesTransitive(old(w), start, w);
      }
    }

    // ---- gatherInput's calls.

    method GetModule(n: string, ghost base: nat, ghost obj: State, ghost start: World, ghost items: seq<Item>)
      returns (status: Option<M.Status>, ghost before: World)
      requires Valid() && Gathered(w, start, base, obj, items)
      requires |items| < |Lookups(obj.spec)| && Lookups(obj.spec)[|items|] == LModule(n)
      modifies this
      ensures Valid() && Works(old(w), w) && RunsKept(old(runs), runs) && failures >= old(failures)
      ensures status.None? || status.value.contentHash == "" ==> w.pc == Idle && w.queued && failures > old(failures)
      ensures status.Some? && status.value.contentHash != "" ==>
        && Gathered(w, before, base, obj, items + [IModule(status.value.content, status.value.contentHash)])
        && Works(old(w), before) && Works(before, w)
        && Fetch(before.deps, LModule(n)) == Some(IModule(status.value.content, status.value.contentHash))
    {
      hide Works, Reaches, Disturbs, Sane, Step, Gathered, RunsKept;
      StillGathering(w, start, base, obj, items);
      var works: bool := *;
      Interfere();
      DisturbanceIsHarmless(old(w), w);
      before := w;
      status := None;
      if works && n in deps.modules && deps.modules[n].hist != [] {
        status := Some(deps.modules[n].Current().status);
      }
      Took(Call(if works then Ok else Fail));
      Fetched(before, works);
      WorksTransitive(old(w), before, w);
      failures := if status.None? || status.value.contentHash == "" then failures + 1 else failures;
    }

    // A Secret or ConfigMap, for the variables or for the environment.
    method GetData(l: Lookup, ghost base: nat, ghost obj: State, ghost start: World, ghost items: seq<Item>)
      returns (data: Option<Data>, ghost before: World)
      requires Valid() && Gathered(w, start, base, obj, items)
      requires |items| < |Lookups(obj.spec)| && Lookups(obj.spec)[|items|] == l
      requires !l.LModule? && !l.LRef?
      modifies this
      ensures Valid() && Works(old(w), w) && RunsKept(old(runs), runs) && failures >= old(failures)
      ensures data.None? ==> w.pc == Idle && w.queued && failures > old(failures)
      ensures data.Some? ==>
        && Gathered(w, before, base, obj, items + [IData(data.value)])
        && Works(old(w), before) && Works(before, w) && Fetch(before.deps, l) == Some(IData(data.value))
    {
      hide Works, Reaches, Disturbs, Sane, Step, Gathered, RunsKept;
      StillGathering(w, start, base, obj, items);
      var works: bool := *;
      Interfere();
      DisturbanceIsHarmless(old(w), w);
      before := w;
      var ms := if l.LSecret? || l.LEnvSecret? then deps.secrets else deps.configs;
      data := if works && l.name in ms then Some(ms[l.name]) else None;
      Took(Call(if works then Ok else Fail));
      Fetched(before, works);
      WorksTransitive(old(w), before, w);
      failures := if data.None? then failures + 1 else failures;
    }

    // Status.ExecutionName of another State.
    method GetState(l: Lookup, ghost base: nat, ghost obj: State, ghost start: World, ghost items: seq<Item>)
      returns (execution: Option<string>, ghost before: World)
      requires Valid() && Gathered(w, start, base, obj, items)
      requires |items| < |Lookups(obj.spec)| && Lookups(obj.spec)[|items|] == l && l.LRef?
      modifies this
      ensures Valid() && Works(old(w), w) && RunsKept(old(runs), runs) && failures >= old(failures)
      ensures execution.None? || execution.value == "" ==> w.pc == Idle && w.queued && failures > old(failures)
      ensures execution.Some? && execution.value != "" ==>
        && Gathered(w, before, base, obj, items + [IRef(execution.value)])
        && Works(old(w), before) && Works(before, w) && Fetch(before.deps, l) == Some(IRef(execution.value))
    {
      hide Works, Reaches, Disturbs, Sane, Step, Gathered, RunsKept;
      StillGathering(w, start, base, obj, items);
      var works: bool := *;
      Interfere();
      DisturbanceIsHarmless(old(w), w);
      before := w;
      execution := if works && l.name in deps.refs then Some(deps.refs[l.name]) else None;
      Took(Call(if works then Ok else Fail));
      Fetched(before, works);
      WorksTransitive(old(w), before, w);
      failures := if execution.None? || execution.value == "" then failures + 1 else failures;
    }

    // ---- The handlers' calls.

    method GetExecution(n: string) returns (execution: Option<E.Execution>, ghost before: World)
      requires Valid() && w.pc.Checking? && w.pc.obj.status.executionName == n
      modifies this
      ensures Valid() && Works(old(w), w) && RunsKept(old(runs), runs) && failures >= old(failures)
      ensures CheckEnds(before, w, old(w.pc), execution)
      ensures execution.None? ==> failures > old(failures)
      ensures execution.Some? ==> RunFound(w, n) && w.runs[n].hist != [] && execution.value == w.runs[n].Current()
    {
      hide Works, Reaches, Disturbs, Sane, Step, RunsKept, CheckEnds;
      var works: bool := *;
      Interfere();
      DisturbanceIsHarmless(old(w), w);
      before := w;
      execution := None;
      if works && n in runs && !runs[n].deleted && runs[n].hist != [] {
        execution := Some(runs[n].Current());
      }
      Took(Call(if works then Ok else Fail));
      Checked(before, works, execution);
      WorksTransitive(old(w), before, w);
      failures := if execution.None? then failures + 1 else failures;
    }

    // Update of the State. It lands exactly if it is based on the latest version of a
    // State that is not gone, and then that version is what was sent.
    method UpdateState(base: nat, obj: State) returns (ok: bool, stored: nat)
      requires Valid() && Updating(w.pc, base, obj)
      modifies this
      ensures Valid() && Works(old(w), w) && RunsKept(old(runs), runs) && failures >= old(failures)
      ensures UpdateEnds(w, old(w.pc), ok, stored)
      ensures ok ==> stored + 1 == |hist| && hist[stored] == obj && base <= stored <= base + 1 && base < |hist|
      ensures ok && stored == base + 1 ==> !(hist[base].deleting && !hist[base].finalizer)
      ensures !ok ==> failures > old(failures)
    {
      hide Works, Reaches, Disturbs, Sane, Step, RunsKept, UpdateEnds;
      var works: bool := *;
      Interfere();
      DisturbanceIsHarmless(old(w), w);
      ghost var before := w;
      assert hist != [] by { Shape.Indexed(w); }
      ok := works && base == |hist| - 1 && !(hist[base].deleting && !hist[base].finalizer);
      if ok {
        hist := Cas(hist, base, obj);
      }
      stored := |hist| - 1;
      Took(Call(if works then Ok else Fail));
      Updated(before, works, base, obj);
      WorksTransitive(old(w), before, w);
      failures := if ok then failures else failures + 1;
    }

    // Create with GenerateName: a name nobody has had.
    method CreateExecution(obj: State, content: M.Content, contentHash: string, vars: Data, runHash: string,
                           ghost d: Deployment)
      returns (created: Option<string>)
      requires Valid() && d.Stands(w, MakeExecution) && obj == d.obj
      requires content == d.input.content && contentHash == d.input.contentHash && vars == d.input.Vars()
      requires IsInt32(obj.spec.version) && runHash == InputHash(d.input, obj.spec.version, obj.Kind())
      modifies this
      ensures Valid() && Works(old(w), w) && RunsKept(old(runs), runs) && failures >= old(failures)
      ensures created.None? ==> w.pc == Idle && w.queued && failures > old(failures)
      ensures created.Some? ==>
        && d.Stands(w, NameSecret(created.value))
        && created.value !in old(runs) && created.value in runs
        && Made(runs[created.value], obj, d.input, runHash) && runs[created.value].made.None?
    {
      hide Works, Reaches, Disturbs, Sane, Step, RunsKept, InputHash, E.NewRun, NewExecution, Made;
      var works: bool, n: string := *, *;
      Interfere();
      DisturbanceIsHarmless(old(w), w);
      ghost var before := w;
      created := None;
      if works && n != "" && n !in runs {
        assert n !in old(runs) by { KeptName(old(runs), runs, n); }
        created := Some(n);
        var spec := E.ExecutionSpec(name, obj.spec.autoConfirm, content, contentHash, runHash, obj.spec.version, "");
        runs := runs[n := E.NewRun(n, obj.Kind(), vars, spec)];
        NewRunIs(before, n, obj, before.pc.input);
        NewRunMade(n, obj, d.input, spec);
      }
      Took(Call(if works then Named(n) else Fail));
      Created(before, works, n);
      WorksTransitive(old(w), before, w);
      KeptTransitive(old(runs), before.runs, runs);
      failures := if created.None? then failures + 1 else failures;
    }

    // The next object of the run, or the Update that names its secret.
    method Deploy(n: string, act: E.Action, ghost d: Deployment, ghost stage: Stage, ghost next: Stage)
      returns (ok: bool, ghost found: E.Run)
      requires Valid() && d.Stands(w, stage) && !stage.MakeExecution? && !stage.Adopt?
      requires stage.run == n && act == StageAct(d.obj, d.input, stage) && NextStage(Ok, stage) == Some(next)
      modifies this
      ensures Valid() && Works(old(w), w) && RunsKept(old(runs), runs) && failures >= old(failures)
      ensures !ok ==> w.pc == Idle && w.queued && failures > old(failures)
      ensures ok ==> d.Stands(w, next)
      ensures ok ==> n in runs && found.hist != [] && runs[n] == E.Step(found, act)
      ensures ok && n in old(runs) ==> SameRun(old(runs)[n], found) && found.made == old(runs)[n].made
    {
      hide Works, Reaches, Disturbs, Sane, Step, RunsKept, E.Step, SameRun;
      var works: bool := *;
      var naming := act.NameSecret?;
      Interfere();
      DisturbanceIsHarmless(old(w), w);
      ghost var before := w;
      Staged(before, if works then Ok else Fail);
      ok := works && n in runs && !(naming && (runs[n].deleted || |runs[n].hist| != 1));
      found := *;
      found := if n in runs then runs[n] else found;
      if ok {
        KeptRun(old(runs), runs, n);
        runs := runs[n := E.Step(runs[n], act)];
      }
      Took(Call(if works then Ok else Fail));
      WorksTransitive(old(w), before, w);
      KeptTransitive(old(runs), before.runs, runs);
      failures := if ok then failures else failures + 1;
    }

    // The Secret that holds varFile: the variables the Execution was hashed with, unless
    // there was one of its name already.
    method CreateSecret(n: string, vars: Data, ghost d: Deployment) returns (ok: bool, ghost found: E.Run)
      requires Valid() && d.Stands(w, MakeSecret(n)) && n in runs && runs[n].vars == vars
      modifies this
      ensures Valid() && Works(old(w), w) && RunsKept(old(runs), runs) && failures >= old(failures)
      ensures !ok ==> w.pc == Idle && w.queued && failures > old(failures)
      ensures ok ==> d.Stands(w, MakeAccount(n)) && n in runs && runs[n].secret.Some?
      ensures ok && n in old(runs) ==> runs[n].made == old(runs)[n].made
      ensures ok ==> runs[n].secret.value == if found.secret.Some? then found.secret.value else E.VarSecret(vars, false)
    {
      hide Works, Reaches, Sane, Shown, Valid, RunsKept, E.GoStep;
      ok, found := Deploy(n, E.MakeSecret, d, MakeSecret(n), MakeAccount(n));
    }

    // One round of a tryUpdate in updateOwnerReference.
    method Adopt(n: string, target: E.Target, ghost d: Deployment, ghost i: nat) returns (a: Answer)
      requires Valid() && i < E.ATTEMPTS && InRound(w, d, n, target, i)
      modifies this
      ensures Valid() && Works(old(w), w) && RunsKept(old(runs), runs) && failures >= old(failures)
      ensures a.Other? ==> w.pc == Idle && w.queued && failures > old(failures)
      ensures !a.Other? ==> InRound(w, d, n, target, i + 1)
      ensures if a.Fine? then n in runs && (S.Exists(runs[n], target) ==> S.Owns(runs[n], target)) else failures > old(failures)
    {
      hide Works, Reaches, Disturbs, Sane, Step, RunsKept, E.Step, S.Exists, S.Owns;
      a := *;
      Interfere();
      DisturbanceIsHarmless(old(w), w);
      ghost var before := w;
      a := if n !in runs then Other else a;
      var o := match a case Fine => Ok case Other => Fail case _ => Retry;
      Staged(before, o);
      if a.Fine? {
        assert runs[n].hist != [];
        S.AdoptedIsOwned(runs[n], target, target);
        runs := runs[n := E.Step(runs[n], E.Adopt(target))];
      }
      Took(Call(o));
      WorksTransitive(old(w), before, w);
      KeptTransitive(old(runs), before.runs, runs);
      failures := if a.Fine? then failures else failures + 1;
    }
  }

  // A run made with this input for this version of the State, and launched.
  ghost predicate Launched(runs: map<string, E.Run>, n: string, obj: State, input: Input) {
    && IsInt32(obj.spec.version) && n in runs && runs[n].made == Some(E.Job(input.image, input.env, obj.Kind()))
    && Made(runs[n], obj, input, InputHash(input, obj.spec.version, obj.Kind()))
  }

  lemma LaunchedStays(runs: map<string, E.Run>, runs': map<string, E.Run>, n: string, obj: State, input: Input)
    requires Launched(runs, n, obj, input) && RunsKept(runs, runs')
    ensures Launched(runs', n, obj, input)
  {
    hide InputHash;
    KeptRun(runs, runs', n);
  }

  // What a run is made with.
  predicate Made(r: E.Run, obj: State, input: Input, runHash: string) {
    && r.kind == obj.Kind() && r.vars == input.Vars() && r.hist != []
    && r.hist[0].spec == E.ExecutionSpec(r.hist[0].spec.stateName, obj.spec.autoConfirm, input.content, input.contentHash,
                                         runHash, obj.spec.version, "")
  }

  lemma NewRunMade(n: string, obj: State, input: Input, spec: E.ExecutionSpec)
    requires spec == E.ExecutionSpec(spec.stateName, obj.spec.autoConfirm, input.content, input.contentHash,
                                     spec.runHash, obj.spec.version, "")
    ensures var r := E.NewRun(n, obj.Kind(), input.Vars(), spec); Made(r, obj, input, spec.runHash) && r.made.None?
  {
  }

  lemma KeptName(runs: map<string, E.Run>, runs': map<string, E.Run>, n: string)
    requires RunsKept(runs, runs') && n !in runs'
    ensures n !in runs
  {
  }

  lemma KeptRun(runs: map<string, E.Run>, runs': map<string, E.Run>, n: string)
    requires RunsKept(runs, runs')
    ensures n in runs ==> n in runs' && SameRun(runs[n], runs'[n])
  {
  }

  // One run being deployed, and where the worker stands on the way.
  datatype Deployment = Deployment(base: nat, obj: State, input: Input, hash: string) {
    predicate Stands(w: World, stage: Stage) {
      w.pc == Deploying(base, obj, input, hash, stage)
    }

    predicate Done(w: World, n: string) {
      w.pc == Recording(base, Recorded(obj, n, hash), n)
    }
  }

  // After i rounds of setting one owner reference.
  predicate InRound(w: World, d: Deployment, n: string, target: E.Target, i: nat) {
    if i < E.ATTEMPTS then d.Stands(w, Adopt(n, target, i))
    else match target
         case Account => d.Stands(w, Adopt(n, E.Binding, 0))
         case Binding => d.Stands(w, Adopt(n, E.Secret, 0))
         case Secret => d.Done(w, n)
  }

  // What a call of gatherInput comes to.
  lemma Fetched(w: World, works: bool)
    requires Sane(w) && w.pc.Gathering?
    ensures var Gathering(base, obj, items) := w.pc;
            var w' := Step(w, Call(if works then Ok else Fail));
            var found := Fetch(w.deps, Lookups(obj.spec)[|items|]);
            && w' == w.(pc := w'.pc, queued := w'.queued) && (w.queued ==> w'.queued)
            && (!works || found.None? ==> w'.pc == Idle && w'.queued)
            && (works && found.Some? ==> Gathered(w', w, base, obj, items + [found.value]))
  {
    hide HistoryOk, StoresOk, Fetch, Lookups, Matches, AfterGather;
    var Gathering(base, obj, items) := w.pc;
    if Fetch(w.deps, Lookups(obj.spec)[|items|]).Some? {
      Shape.ItemFits(obj.spec, items, w.deps);
      var items' := items + [Fetch(w.deps, Lookups(obj.spec)[|items|]).value];
      if |items'| == |Lookups(obj.spec)| { Ownership.AfterGatherMoves(w, base, obj, items'); }
    }
  }

  // OnChange and OnRemove on the Execution they track.
  ghost predicate CheckEnds(before: World, w: World, pc: Pc, execution: Option<E.Execution>)
    requires pc.Checking?
  {
    var Checking(base, obj, items) := pc;
    && IsInt32(obj.spec.version) && Matches(obj.spec, items) && |items| == |Lookups(obj.spec)|
    && if obj.deleting then
         if execution.Some? && execution.value.applied then w.pc == Releasing(base, obj) else w.pc == Idle && w.queued
       else if execution.None? then w.pc == Idle && w.queued
       else if execution.value.applied then w.pc == Clearing(base, Cleared(obj))
       else w == Decide(before, base, obj, Assemble(obj.spec, items))
  }

  lemma Checked(w: World, works: bool, execution: Option<E.Execution>)
    requires Sane(w) && w.pc.Checking?
    requires var n := w.pc.obj.status.executionName;
             execution == if works && RunFound(w, n) && w.runs[n].hist != [] then Some(w.runs[n].Current()) else None
    ensures var w' := Step(w, Call(if works then Ok else Fail));
            && w' == w.(pc := w'.pc, queued := w'.queued) && (w.queued ==> w'.queued)
            && CheckEnds(w, w', w.pc, execution)
  {
    hide CheckEnds, Decide, RunFound, PcOk, HistoryOk, StoresOk, CheckCall;
    CheckCallEnds(w, if works then Ok else Fail, execution);
  }

  lemma CheckCallEnds(w: World, o: Outcome, execution: Option<E.Execution>)
    requires Sane(w) && w.pc.Checking?
    requires var n := w.pc.obj.status.executionName;
             execution == if !o.Fail? && RunFound(w, n) && w.runs[n].hist != [] then Some(w.runs[n].Current()) else None
    ensures var Checking(base, obj, items) := w.pc;
            var w' := CheckCall(w, o, base, obj, items);
            && w' == w.(pc := w'.pc, queued := w'.queued) && (w.queued ==> w'.queued)
            && CheckEnds(w, w', w.pc, execution)
  {
    hide HistoryOk, Lookups, Matches, Assemble, Decide;
    var Checking(base, obj, items) := w.pc;
    Ownership.DecideMoves(w, base, obj, Assemble(obj.spec, items));
  }

  predicate Updating(pc: Pc, base: nat, obj: State) {
    && (pc.Clearing? || pc.Locking? || pc.Recording? || pc.Releasing?)
    && base == pc.base && obj == if pc.Releasing? then pc.obj.(finalizer := false) else pc.obj
  }

  // An Update that fails ends the pass; only the first one in OnChange keeps that quiet.
  predicate UpdateEnds(w: World, pc: Pc, ok: bool, stored: nat)
    requires pc != Idle
  {
    if !ok then
      && w.pc == Idle && w.hist != []
      && (if pc.Locking? && !pc.obj.deleting then w.lost || !Accepts(w, pc.base) else w.queued)
    else if pc.Locking? then
      w.pc == Deploying(stored, if pc.obj.deleting then pc.obj else Imaged(pc.obj), pc.input, pc.hash, MakeExecution)
    else w.pc == Idle && (pc.Recording? && pc.obj.deleting ==> w.queued)
  }

  // What an Update by the worker leaves behind.
  ghost predicate Stored(w: World, w': World, works: bool, base: nat, obj: State) {
    var ok := works && w.hist != [] && Accepts(w, base);
    && w' == w.(hist := w'.hist, pc := w'.pc, queued := w'.queued, lost := w'.lost) && (w.queued ==> w'.queued)
    && w.hist != [] && w'.hist != []
    && w'.hist == (if ok then Cas(w.hist, base, obj) else w.hist)
    && w.pc != Idle && UpdateEnds(w', w.pc, ok, w'.Top())
  }

  lemma Updated(w: World, works: bool, base: nat, obj: State)
    requires Sane(w) && Updating(w.pc, base, obj)
    ensures Stored(w, Step(w, Call(if works then Ok else Fail)), works, base, obj)
  {
    hide Sane, Stored, LockCall, GatherCall, CheckCall, DeployCall, Write, Accepts;
    Shape.Indexed(w);
    if w.pc.Locking? { LockEnds(w, works); } else { PlainUpdateEnds(w, works, base, obj); }
  }

  lemma WriteIsCas(w: World, base: nat, obj: State)
    requires w.hist != []
    ensures var w' := Write(w, base, obj);
            w'.hist != [] && w' == w.(hist := w'.hist) && w'.hist == if Accepts(w, base) then Cas(w.hist, base, obj) else w.hist
  {
  }

  lemma LockEnds(w: World, works: bool)
    requires w.hist != [] && w.pc.Locking?
    ensures var Locking(base, obj, input, hash) := w.pc;
            Stored(w, LockCall(w, if works then Ok else Fail, base, obj, input, hash), works, base, obj)
  {
    hide Write, Cas;
    WriteIsCas(w, w.pc.base, w.pc.obj);
  }

  lemma PlainUpdateEnds(w: World, works: bool, base: nat, obj: State)
    requires Sane(w) && Updating(w.pc, base, obj) && !w.pc.Locking? && w.hist != []
    ensures Stored(w, CallStep(w, if works then Ok else Fail), works, base, obj)
  {
    hide Sane, Write, Accepts, Cas, LockCall, GatherCall, CheckCall, DeployCall;
    WriteIsCas(w, base, obj);
  }

  lemma NewRunIs(w: World, n: string, obj: State, input: Input)
    requires IsInt32(obj.spec.version)
    ensures var spec := E.ExecutionSpec(w.name, obj.spec.autoConfirm, input.content, input.contentHash,
                          InputHash(input, obj.spec.version, obj.Kind()), obj.spec.version, "");
            && NewExecution(w, n, obj, input) == E.NewRun(n, obj.Kind(), input.Vars(), spec)
            && E.NewRun(n, obj.Kind(), input.Vars(), spec).vars == input.Vars()
  {
  }

  // What a call of the deployment leaves behind, and where the worker then stands.
  ghost predicate Deployed(w: World, w': World, runs': map<string, E.Run>, next: Option<Pc>) {
    && w' == w.(runs := runs', runEvents := w'.runEvents, pc := w'.pc, queued := w'.queued) && (w.queued ==> w'.queued)
    && RunsKept(w.runs, runs')
    && if next.Some? then w'.pc == next.value else w'.pc == Idle && w'.queued
  }

  lemma Created(w: World, works: bool, n: string)
    requires Sane(w) && w.pc.Deploying? && w.pc.stage == MakeExecution && IsInt32(w.pc.obj.spec.version)
    ensures var w', made := Step(w, Call(if works then Named(n) else Fail)), works && n != "" && n !in w.runs;
            Deployed(w, w', if made then w.runs[n := NewExecution(w, n, w.pc.obj, w.pc.input)] else w.runs,
                     if made then Some(w.pc.(stage := NameSecret(n))) else None)
  {
    hide HistoryOk, PcOk, NewExecution, DeployCall, LockCall, GatherCall, CheckCall, Deployed;
    var Deploying(base, obj, input, hash, stage) := w.pc;
    CreatedCall(w, works, n, base, obj, input, hash);
  }

  lemma CreatedCall(w: World, works: bool, n: string, base: nat, obj: State, input: Input, hash: string)
    requires IsInt32(obj.spec.version) && forall m :: m in w.runs ==> w.runs[m].hist != []
    ensures var w' := DeployCall(w, if works then Named(n) else Fail, base, obj, input, hash, MakeExecution);
            var made := works && n != "" && n !in w.runs;
            Deployed(w, w', if made then w.runs[n := NewExecution(w, n, obj, input)] else w.runs,
                     if made then Some(Deploying(base, obj, input, hash, NameSecret(n))) else None)
  {
    hide NewExecution;
  }

  lemma Staged(w: World, o: Outcome)
    requires Sane(w) && w.pc.Deploying? && !w.pc.stage.MakeExecution?
    ensures StoresOk(w.runs, w.deps.modules)
    ensures var Deploying(base, obj, input, hash, stage) := w.pc;
            var fails := StageFails(w.runs, o, stage);
            Deployed(w, Step(w, Call(o)),
                     if fails || (stage.Adopt? && o.Retry?) then w.runs
                     else w.runs[stage.run := E.Step(w.runs[stage.run], StageAct(obj, input, stage))],
                     if fails then None else Some(AfterStage(Ok, base, obj, input, hash, stage)))
  {
    hide HistoryOk, DeployCall, LockCall, GatherCall, CheckCall, AfterStage, E.Step, StageFails, StageAct, Deployed;
    var Deploying(base, obj, input, hash, stage) := w.pc;
    StagedCall(w, o, base, obj, input, hash, stage);
  }

  lemma StagedCall(w: World, o: Outcome, base: nat, obj: State, input: Input, hash: string, stage: Stage)
    requires IsInt32(obj.spec.version) && (forall m :: m in w.runs ==> w.runs[m].hist != []) && !stage.MakeExecution?
    ensures var fails := StageFails(w.runs, o, stage);
            Deployed(w, DeployCall(w, o, base, obj, input, hash, stage),
                     if fails || (stage.Adopt? && o.Retry?) then w.runs
                     else w.runs[stage.run := E.Step(w.runs[stage.run], StageAct(obj, input, stage))],
                     if fails then None else Some(AfterStage(Ok, base, obj, input, hash, stage)))
  {
    hide AfterStage, E.Step, StageAct, StageEffect, StageFails, RunsKept;
    SameNext(o, base, obj, input, hash, stage);
    KeptItself(w.runs);
    if !StageFails(w.runs, o, stage) { EffectIs(w, o, obj, input, stage); }
  }

  lemma CreatedEffect(w: World, n: string, obj: State, input: Input)
    requires IsInt32(obj.spec.version) && n != "" && n !in w.runs && forall m :: m in w.runs ==> w.runs[m].hist != []
    ensures StageEffect(w, Named(n), obj, input, MakeExecution).runs == w.runs[n := NewExecution(w, n, obj, input)]
  {
    hide NewExecution;
  }

  lemma EffectIs(w: World, o: Outcome, obj: State, input: Input, stage: Stage)
    requires IsInt32(obj.spec.version) && (forall m :: m in w.runs ==> w.runs[m].hist != []) && !stage.MakeExecution?
    requires !StageFails(w.runs, o, stage)
    ensures var w' := StageEffect(w, o, obj, input, stage);
            && RunsKept(w.runs, w'.runs)
            && w'.runs == if stage.Adopt? && o.Retry? then w.runs
                          else w.runs[stage.run := E.Step(w.runs[stage.run], StageAct(obj, input, stage))]
  {
    hide E.Step, StageAct, InputHash;
  }

  lemma KeptItself(runs: map<string, E.Run>)
    ensures RunsKept(runs, runs)
  {
  }

  lemma SameNext(o: Outcome, base: nat, obj: State, input: Input, hash: string, stage: Stage)
    requires !stage.MakeExecution?
    ensures AfterStage(o, base, obj, input, hash, stage) == AfterStage(Ok, base, obj, input, hash, stage)
  {
  }

  lemma KeptTransitive(a: map<string, E.Run>, b: map<string, E.Run>, c: map<string, E.Run>)
    requires RunsKept(a, b) && RunsKept(b, c)
    ensures RunsKept(a, c)
  {
  }
}
