// Histories the system does have, found where a stronger promise would have to fail.
module Traces {
  import opened Basics
  import opened Inputs
  import opened Reconciler
  import opened Digest
  import A = ApiServer
  import C = Convergence
  import Shape
  import E = Executor
  import G = Guarantees
  import D = Deletion
  import M = ModuleController
  import Removal

  // ---- A module with plain content, and a State that names it and nothing else.

  const CONTENT := M.Content(map["main.tf" := "x"], M.NO_GIT)

  function PlainSpec(autoConfirm: bool, destroyOnDelete: bool): StateSpec {
    StateSpec("", "m", [], [], [], [], [], autoConfirm, destroyOnDelete, 1)
  }

  ghost function PublishedModule(): M.World {
    M.Step(M.Init(CONTENT, 0), M.Handle(0, None, 0))
  }

  lemma ModulePublishes()
    ensures var m := PublishedModule();
            |m.hist| == 2 && m.Current().status.contentHash == MapDigest(CONTENT.data) != ""
  {
    hide MapDigest;
    assert "main.tf" in CONTENT.data;
  }

  // The State before anybody has looked at it, with its module published.
  ghost function Published(name: string, spec: StateSpec): World {
    Init(name, spec).(deps := Deps(map["m" := PublishedModule()], map[], map[], map[]))
  }

  // Three steps in a row.
  ghost function Three(w: World, a: Action, b: Action, c: Action): World
    requires Sane(w)
  {
    Shape.StepKeepsSane(w, a);
    Shape.StepKeepsSane(Step(w, a), b);
    Step(Step(Step(w, a), b), c)
  }

  lemma ThreeReach(w: World, a: Action, b: Action, c: Action)
    requires Sane(w) && Shape.Reachable(w)
    ensures Sane(Three(w, a, b, c)) && Shape.Reachable(Three(w, a, b, c))
  {
    hide Sane, Step, A.Reaches, Shape.Reachable;
    A.ReachesOne(w, a);
    A.ReachesOne(Step(w, a), b);
    A.ReachesOne(Step(Step(w, a), b), c);
    A.ReachesTransitive(w, Step(w, a), Step(Step(w, a), b));
    A.ReachesTransitive(w, Step(Step(w, a), b), Three(w, a, b, c));
    A.ReachesKeepsReachable(w, Three(w, a, b, c));
  }

  lemma PublishedReachable(name: string, spec: StateSpec)
    requires IsInt32(spec.version) && spec.moduleName == "m"
    ensures Sane(Published(name, spec)) && Shape.Reachable(Published(name, spec))
  {
    hide Sane, Step, Three, Init, Published, Shape.Reachable;
    Shape.InitSane(name, spec);
    InitReachable(name, spec);
    ThreeReach(Init(name, spec), NewModule("m", CONTENT, 0), ModuleAct("m", M.Handle(0, None, 0)), Resolve(DModule("m")));
    PublishedInThree(name, spec);
  }

  function With(w: World, m: M.World): World {
    w.(deps := Deps(map["m" := m], map[], map[], map[]), depEvents := {DModule("m")})
  }

  lemma PublishedInThree(name: string, spec: StateSpec)
    requires IsInt32(spec.version) && spec.moduleName == "m" && Sane(Init(name, spec))
    ensures Three(Init(name, spec), NewModule("m", CONTENT, 0), ModuleAct("m", M.Handle(0, None, 0)), Resolve(DModule("m")))
         == Published(name, spec)
  {
    hide Sane, Step, Published, Init, With;
    var w, w1, w2 := Init(name, spec), With(Init(name, spec), M.Init(CONTENT, 0)), With(Init(name, spec), PublishedModule());
    Shape.StepKeepsSane(w, NewModule("m", CONTENT, 0));
    ModuleAppears(name, spec);
    Shape.StepKeepsSane(w1, ModuleAct("m", M.Handle(0, None, 0)));
    ModuleGetsHash(Init(name, spec));
    ModuleResolved(name, spec);
  }

  lemma ModuleAppears(name: string, spec: StateSpec)
    requires Sane(Init(name, spec))
    ensures Step(Init(name, spec), NewModule("m", CONTENT, 0)) == With(Init(name, spec), M.Init(CONTENT, 0))
  {
    hide Sane, M.Init, Step, With;
    ModuleCreated(Init(name, spec));
  }

  lemma ModuleCreated(w: World)
    requires Sane(w) && w.deps == Deps(map[], map[], map[], map[]) && w.depEvents == {}
    ensures Step(w, NewModule("m", CONTENT, 0)) == With(w, M.Init(CONTENT, 0))
  {
    hide Sane, M.Init;
    var w' := DepStep(w, NewModule("m", CONTENT, 0));
    assert w'.deps.modules == map["m" := M.Init(CONTENT, 0)];
    assert w'.deps == Deps(map["m" := M.Init(CONTENT, 0)], map[], map[], map[]) && w'.depEvents == {DModule("m")};
    assert w' == With(w, M.Init(CONTENT, 0));
  }

  lemma ModuleGetsHash(w: World)
    requires Sane(With(w, M.Init(CONTENT, 0)))
    ensures Step(With(w, M.Init(CONTENT, 0)), ModuleAct("m", M.Handle(0, None, 0))) == With(w, PublishedModule())
  {
    hide M.Step, Sane, Step, PublishedModule, M.Init, With;
    ModuleStarts();
    ModulePublishes();
    ModuleMoves(w, M.Init(CONTENT, 0), M.Handle(0, None, 0));
  }

  // A module that gets a new version is announced.
  lemma ModuleMoves(w: World, m: M.World, act: M.Action)
    requires Sane(With(w, m)) && m.hist != [] && M.Step(m, act).hist != m.hist
    ensures Step(With(w, m), ModuleAct("m", act)) == With(w, M.Step(m, act))
  {
    hide Sane, M.Step;
    assert map["m" := m]["m" := M.Step(m, act)] == map["m" := M.Step(m, act)];
    assert {DModule("m")} + {DModule("m")} == {DModule("m")};
  }

  lemma ModuleStarts()
    ensures |M.Init(CONTENT, 0).hist| == 1 && PublishedModule() == M.Step(M.Init(CONTENT, 0), M.Handle(0, None, 0))
  {
  }

  lemma ModuleResolved(name: string, spec: StateSpec)
    requires Sane(With(Init(name, spec), PublishedModule())) && spec.moduleName == "m"
    ensures Step(With(Init(name, spec), PublishedModule()), Resolve(DModule("m"))) == Published(name, spec)
  {
    hide M.Step, HistoryOk, PcOk, StoresOk;
  }

  lemma InitReachable(name: string, spec: StateSpec)
    requires IsInt32(spec.version)
    ensures Shape.Reachable(Init(name, spec))
  {
    hide Sane, Init, Step;
    Shape.InitSane(name, spec);
    var none: seq<Action> := [];
    assert Init(name, spec) == Shape.Run(Init(name, spec), none);
  }

  lemma PlainLookups(autoConfirm: bool, destroyOnDelete: bool)
    ensures var spec := PlainSpec(autoConfirm, destroyOnDelete);
            Lookups(spec) == [LModule("m")] && HashedLookups(spec) == [LModule("m")]
  {
  }

  // ---- Work is lost when the first Update fails for a reason other than a conflict.

  lemma WorkLost(name: string) returns (w: World)
    ensures Shape.Reachable(w) && w.hist != [] && IsInt32(w.Current().spec.version)
    ensures G.Calm(w) && !w.Gone() && HashGatherable(w.deps, w.Current().spec)
    ensures w.runs == map[] && !G.Settled(w)
  {
    hide Sane, Step, Three, Published, Shape.Reachable, CreateHash, HashGatherable, G.Calm, G.Settled;
    var spec := PlainSpec(true, true);
    PublishedReachable(name, spec);
    ThreeReach(Published(name, spec), Start, Call(Ok), Call(Fail));
    w := Three(Published(name, spec), Start, Call(Ok), Call(Fail));
    PublishedThenLost(name);
    G.SettledUnlessLost(w);
  }

  // Start, the module is read, and then the Update that should take the lock fails.
  lemma PublishedThenLost(name: string)
    requires Sane(Published(name, PlainSpec(true, true)))
    ensures var w := Three(Published(name, PlainSpec(true, true)), Start, Call(Ok), Call(Fail));
            && w.hist != [] && G.Calm(w) && !w.Gone() && w.lost && w.runs == map[] && HashGatherable(w.deps, w.Current().spec)
  {
    hide Sane, Step, Published;
    var w0, w1 := Published(name, PlainSpec(true, true)), Begun(name);
    Shape.StepKeepsSane(w0, Start);
    PassBegins(name);
    Shape.StepKeepsSane(w1, Call(Ok));
    var w2 := Step(w1, Call(Ok));
    ModuleIsRead(name);
    LockFails(w2);
  }

  ghost function Begun(name: string): World {
    var spec := PlainSpec(true, true);
    Published(name, spec).(queued := false, pc := Gathering(0, State(spec, NO_STATUS, false, false), []))
  }

  lemma PassBegins(name: string)
    requires Sane(Published(name, PlainSpec(true, true)))
    ensures Step(Published(name, PlainSpec(true, true)), Start) == Begun(name)
  {
    hide Sane, PublishedModule;
  }

  lemma ModuleIsRead(name: string)
    requires Sane(Begun(name))
    ensures var w := Step(Begun(name), Call(Ok));
            w.pc.Locking? && !w.pc.obj.deleting && w == Begun(name).(pc := w.pc) && G.Calm(w.(pc := Idle))
            && !w.Gone() && w.runs == map[] && HashGatherable(w.deps, w.Current().spec)
  {
    hide HistoryOk, PcOk, StoresOk, InputHash, Lookups, HashedLookups, PublishedModule, Assemble, Fetch,
         AfterGather, Matches;
    PlainLookups(true, true);
    ModuleIsThere(name, PlainSpec(true, true));
    var w, spec := Begun(name), PlainSpec(true, true);
    var items := [Fetch(w.deps, LModule("m")).value];
    assert Matches(spec, []) by { NothingYet(spec); }
    Shape.ItemFits(spec, [], w.deps);
    assert [] + items == items;
    assert Step(w, Call(Ok)) == AfterGather(w, 0, w.pc.obj, items);
    NothingTracked(w, items);
  }

  lemma ModuleIsThere(name: string, spec: StateSpec)
    ensures Fetch(Published(name, spec).deps, LModule("m")).Some?
  {
    hide PublishedModule;
    ModulePublishes();
  }

  lemma NothingYet(spec: StateSpec)
    ensures Matches(spec, [])
  {
  }

  // A State that has never run goes for the lock.
  lemma NothingTracked(w: World, items: seq<Item>)
    requires w.pc.Gathering? && w.pc.obj.status == NO_STATUS && !w.pc.obj.deleting && IsInt32(w.pc.obj.spec.version)
    requires Matches(w.pc.obj.spec, items) && |items| == |Lookups(w.pc.obj.spec)|
    ensures var w' := AfterGather(w, w.pc.base, w.pc.obj, items);
            w'.pc.Locking? && !w'.pc.obj.deleting && w' == w.(pc := w'.pc)
  {
    hide InputHash, Lookups, Matches, Assemble;
  }

  lemma LockFails(w: World)
    requires Sane(w) && w.pc.Locking? && !w.pc.obj.deleting
    ensures Step(w, Call(Fail)) == w.(pc := Idle, lost := true)
  {
    hide Sane;
  }

  // ---- A State can be removed without any destroy, in two ways.

  // The State with its finalizer on, about to be looked at for the first time.
  ghost function Finalized(name: string): World {
    var spec := PlainSpec(true, true);
    var w := Published(name, spec);
    w.(hist := [State(spec, NO_STATUS, false, false), State(spec, NO_STATUS, false, true)], cached := 1)
  }

  lemma FinalizedReachable(name: string)
    ensures Sane(Finalized(name)) && Shape.Reachable(Finalized(name))
  {
    hide Sane, Step, Shape.Reachable, Published, Finalized, Three;
    var w, spec := Published(name, PlainSpec(true, true)), PlainSpec(true, true);
    PublishedReachable(name, spec);
    ThreeReach(w, AddFinalizer, Deliver(1), Resolve(DModule("m")));
    FinalizedInThree(name);
  }

  lemma FinalizedInThree(name: string)
    requires Sane(Published(name, PlainSpec(true, true)))
    ensures Three(Published(name, PlainSpec(true, true)), AddFinalizer, Deliver(1), Resolve(DModule("m"))) == Finalized(name)
  {
    hide Sane, PublishedModule;
    var w, spec := Published(name, PlainSpec(true, true)), PlainSpec(true, true);
    Shape.StepKeepsSane(w, AddFinalizer);
    var w1 := w.(hist := [State(spec, NO_STATUS, false, false), State(spec, NO_STATUS, false, true)]);
    assert UserStep(w, AddFinalizer) == w1;
    assert QueueStep(w1, Deliver(1)) == Finalized(name);
    Shape.StepKeepsSane(w1, Deliver(1));
    assert QueueStep(Finalized(name), Resolve(DModule("m"))) == Finalized(name);
  }

  // A State nobody has looked at yet, with what its first pass needs.
  ghost predicate Untried(w: World) {
    && C.AtRest(w) && w.runs == map[]
    && C.Ready(w, w.Current()) && C.HashDiffers(w, w.Current())
    && var s := w.Current();
       s.spec == PlainSpec(true, true) && s.status == NO_STATUS
  }

  lemma PublishedUntried(name: string)
    requires Sane(Published(name, PlainSpec(true, true)))
    ensures var w := Published(name, PlainSpec(true, true)); Untried(w) && !w.Current().finalizer
  {
    hide Sane, PublishedModule, Fetch, Lookups, HashedLookups;
    PlainLookups(true, true);
    ModuleIsThere(name, PlainSpec(true, true));
    var w := Published(name, PlainSpec(true, true));
    assert C.Ready(w, w.Current());
    C.HashLength(w, w.Current());
  }

  lemma FinalizedUntried(name: string)
    requires Sane(Finalized(name))
    ensures Untried(Finalized(name)) && Finalized(name).Current().finalizer
  {
    hide Sane, PublishedModule, Fetch, Lookups, HashedLookups;
    PlainLookups(true, true);
    ModuleIsThere(name, PlainSpec(true, true));
    assert C.Ready(Finalized(name), Finalized(name).Current());
    C.HashLength(Finalized(name), Finalized(name).Current());
  }

  // What a pass with every call successful leads to.
  lemma PassReached(w0: World, n: string) returns (w: World)
    requires Sane(w0) && Shape.Reachable(w0) && C.AtRest(w0) && C.Ready(w0, w0.Current()) && n != "" && n !in w0.runs
    ensures Sane(w) && Shape.Reachable(w) && w.pc == Idle && C.Passed(w0, w0.Current(), w, n)
    ensures D.Comes(w0, w, 1) && w0.hist <= w.hist
  {
    hide Sane, Step, A.Reaches, D.Comes, Shape.Reachable, C.Passed, C.Ready;
    var k := C.OnePass(w0, n);
    w := C.Calls(Step(w0, Start), n, k);
    D.ComesOne(w0, Start);
    D.CallsCome(Step(w0, Start), n, k);
    D.ComesTransitive(w0, Step(w0, Start), w, 1, 0);
    D.ComesReaches(w0, w, 1);
    A.ReachesKeepsReachable(w0, w);
    VersionsStay(w0, w);
  }

  lemma VersionsStay(w: World, w': World)
    requires A.Reaches(w, w')
    ensures w.hist <= w'.hist
  {
    hide Sane, Step, Shape.Run;
    var actions :| Shape.Run(w, actions) == w';
    RunAdds(w, actions);
  }

  lemma {:induction false} RunAdds(w: World, actions: seq<Action>)
    requires Sane(w)
    ensures w.hist <= Shape.Run(w, actions).hist
    decreases |actions|
  {
    hide Sane, Step;
    if actions == [] {
    } else {
      Removal.StepAdds(w, actions[0]);
      Shape.StepKeepsSane(w, actions[0]);
      RunAdds(Step(w, actions[0]), actions[1..]);
    }
  }

  // The State after its create run "r" has been deployed.
  ghost predicate Deployed(w0: World, w: World) {
    && w.hist != [] && w0.hist != [] && w.runs.Keys == {"r"} && "r" in w.runs && D.CanFinish(w.runs["r"])
    && w.runs["r"].kind.Create? && w.deps == w0.deps && w.name == w0.name
    && w.Current() == w0.Current().(spec := w.Current().spec, status := w.Current().status)
    && var s := w.Current();
       && s.Tracking() && s.status.executionName == "r" && s.status.jobDeployed == IsTrue && s.status.destroyed == Absent
       && s.spec.destroyOnDelete && IsInt32(s.spec.version)
       && Gatherable(w.deps, s.spec) && HashGatherable(w.deps, s.spec)
  }

  lemma CreateDeployed(w0: World) returns (w: World)
    requires Sane(w0) && Shape.Reachable(w0) && Untried(w0)
    ensures Sane(w) && Shape.Reachable(w) && w.pc == Idle && Deployed(w0, w) && w.cached < w.Top()
    ensures C.Passed(w0, w0.Current(), w, "r")
  {
    hide Sane, Shape.Reachable, C.Passed, C.Ready, C.HashDiffers, D.Comes, Deployed, D.CanFinish, E.Inv;
    w := PassReached(w0, "r");
    D.DeploymentHolds(w);
    RunDeployed(w0, w);
    G.RunIsSound(w, "r");
    D.NewCanFinish(w.runs["r"], w0.Current());
    IsDeployed(w0, w);
  }

  lemma RunDeployed(w0: World, w: World)
    requires Untried(w0) && C.Passed(w0, w0.Current(), w, "r")
    ensures w.runs.Keys == {"r"} && "r" in w.runs && C.GoodRun(w.runs["r"], w0.Current()) && w.runs["r"].job.Some?
    ensures w0.Current().spec.autoConfirm
  {
    hide Gatherable, HashGatherable, CreateHash, C.GoodRun;
  }

  lemma IsDeployed(w0: World, w: World)
    requires Untried(w0) && C.Passed(w0, w0.Current(), w, "r")
    requires "r" in w.runs && w.runs.Keys == {"r"} && D.CanFinish(w.runs["r"]) && w0.hist <= w.hist
    ensures Deployed(w0, w) && w.cached < w.Top()
  {
    hide Fetch, HashGatherable, CreateHash, D.CanFinish;
    C.HashLength(w0, w0.Current());
    C.SameLookupsSameHash(w0.deps, w0.Current().spec, w.Current().spec);
  }

  // The deletion stamp on a State that is not being deleted.
  lemma Deletes(w: World)
    requires Sane(w) && w.hist != [] && !w.Current().deleting
    ensures var w' := Step(w, DeleteState);
            && w'.hist == w.hist + [w.Current().(deleting := true)] && w'.deletedAt == Some(|w.hist|)
            && w' == w.(hist := w'.hist, deletedAt := w'.deletedAt)
  {
    hide HistoryOk, StoresOk, PcOk;
  }

  lemma DeletionReached(w: World) returns (w': World)
    requires Sane(w) && Shape.Reachable(w) && w.hist != [] && !w.Current().deleting
    ensures Sane(w') && Shape.Reachable(w')
    ensures w' == w.(hist := w.hist + [w.Current().(deleting := true)], deletedAt := Some(|w.hist|))
  {
    hide Sane, Step, A.Reaches, Shape.Reachable;
    A.ReachesOne(w, DeleteState);
    w' := Step(w, DeleteState);
    Deletes(w);
    A.ReachesKeepsReachable(w, w');
  }

  lemma DeliveryReached(w: World) returns (w': World)
    requires Sane(w) && Shape.Reachable(w) && w.hist != [] && w.cached < w.Top()
    ensures Sane(w') && Shape.Reachable(w') && w' == w.(cached := w.Top(), queued := true)
  {
    hide Sane, Step, A.Reaches, Shape.Reachable;
    A.ReachesOne(w, Deliver(w.Top()));
    w' := Step(w, Deliver(w.Top()));
    D.Delivered(w);
    A.ReachesKeepsReachable(w, w');
  }

  // First: a create run that was under way when the deletion was stamped, and is Applied
  // afterwards, releases the finalizer.
  lemma RemovedWithoutDestroy(name: string) returns (w: World)
    ensures Shape.Reachable(w) && w.hist != [] && w.Gone()
    ensures w.deletedAt.Some? && w.deletedAt.value < |w.hist|
    ensures var s := w.hist[w.deletedAt.value]; s.finalizer && s.spec.destroyOnDelete && s.status.jobDeployed == IsTrue
    ensures w.runs.Keys == {"r"} && w.runs["r"].kind.Create?
  {
    hide Sane, Shape.Reachable, Untried, Finalized, C.Passed, D.CanFinish, D.Comes, D.Free, E.Inv, Gatherable;
    var w0 := Finalized(name);
    FinalizedReachable(name);
    FinalizedUntried(name);
    var w1 := CreateDeployed(w0);
    NotDeleting(w0);
    var w2 := DeletionReached(w1);
    var w3 := D.RunIsFinished(w2, "r");
    var w4 := DeliveryReached(w3);
    D.NowFree(w4);
    w := D.FreeIsReleased(w4);
    D.ComesReaches(w4, w, 1);
    A.ReachesKeepsReachable(w4, w);
  }

  lemma NotDeleting(w: World)
    requires Untried(w)
    ensures w.hist != [] && !w.Current().deleting
  {
  }

  // Second: a State whose finalizer is not on yet when it is deleted is gone at once,
  // whatever has been deployed for it and cleared in the meantime.
  lemma DeletedBeforeFinalizer(name: string) returns (w: World)
    ensures Shape.Reachable(w) && w.hist != [] && w.Gone()
    ensures w.deletedAt.Some? && w.deletedAt.value < |w.hist|
    ensures var s := w.hist[w.deletedAt.value]; !s.finalizer && s.spec.destroyOnDelete && s.status.jobDeployed == IsFalse
    ensures w.runs.Keys == {"r"} && w.runs["r"].kind.Create? && RunApplied(w, "r")
  {
    hide Sane, Shape.Reachable, Untried, Published, C.Passed, C.Ready, C.Finished, D.CanFinish, D.Comes, E.Inv, Gatherable;
    var spec := PlainSpec(true, true);
    var w0 := Published(name, spec);
    PublishedReachable(name, spec);
    PublishedUntried(name);
    var w1 := CreateDeployed(w0);
    var w2 := D.RunIsFinished(w1, "r");
    var w3 := DeliveryReached(w2);
    ReadyAgain(w0, w1, w3);
    var w4 := PassReached(w3, "q");
    ClearsOnly(w3, w4);
    w := DeletionReached(w4);
  }

  // Its inputs are still there, and the run it tracks is finished.
  lemma ReadyAgain(w0: World, w: World, w': World)
    requires Untried(w0) && Sane(w') && C.AtRest(w') && Deployed(w0, w)
    requires w'.hist == w.hist && w'.deps == w.deps && w'.name == w.name && RunApplied(w', "r")
    ensures C.Ready(w', w'.Current()) && C.Finished(w', w'.Current()) && !w'.Current().deleting
  {
    hide Sane, Gatherable, HashGatherable, D.CanFinish, C.AtRest;
    assert w'.hist != [];
  }

  lemma ClearsOnly(w: World, w': World)
    requires w.hist != [] && C.Ready(w, w.Current()) && C.Finished(w, w.Current()) && C.Passed(w, w.Current(), w', "q")
    ensures w'.hist != [] && w'.Current() == Cleared(w.Current()) && w'.runs == w.runs
  {
    hide C.Ready, C.Finished, C.HashDiffers;
  }
}
