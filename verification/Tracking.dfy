// What a State's status says about its runs, and when its finalizer may go.
module Tracking {
  import opened Basics
  import opened Inputs
  import opened Reconciler
  import opened Deployment
  import Shape
  import E = Executor

  // JobDeployed points at a run of this State whose hash is LastRunHash.
  ghost predicate Tracked(runs: map<string, E.Run>, s: State) {
    s.status.jobDeployed == IsTrue ==>
      && s.status.lastRunHash != "" && s.status.executionName != ""
      && s.status.executionName in runs
      && RunHashIs(runs[s.status.executionName], s.status.lastRunHash)
  }

  // The job that was deployed at the moment of deletion, if one was.
  function Stamp(hist: seq<State>, deletedAt: Option<nat>): Option<string> {
    if deletedAt.Some? && deletedAt.value < |hist| && hist[deletedAt.value].status.jobDeployed == IsTrue
    then Some(hist[deletedAt.value].status.executionName) else None
  }

  predicate Stamped(stamp: Option<string>, s: State) {
    s.status.jobDeployed == IsTrue && stamp == Some(s.status.executionName)
  }

  // A State tracks create runs until it is deleted; from then on it tracks destroy runs,
  // except for the run it was deleted under.
  ghost predicate KindTracked(runs: map<string, E.Run>, stamp: Option<string>, s: State) {
    s.status.jobDeployed == IsTrue ==>
      && s.status.executionName in runs
      && (runs[s.status.executionName].kind.Create? <==> !s.deleting || Stamped(stamp, s))
  }

  ghost predicate VersionOk(runs: map<string, E.Run>, stamp: Option<string>, s: State) {
    Tracked(runs, s) && KindTracked(runs, stamp, s) && s.status.destroyed == Absent
  }

  predicate Applied(runs: map<string, E.Run>, n: string) {
    n in runs && runs[n].hist != [] && runs[n].Current().applied
  }

  // What a version must be for its finalizer to be released.
  predicate Releasable(runs: map<string, E.Run>, s: State) {
    && s.deleting
    && (s.spec.destroyOnDelete ==> s.status.jobDeployed == IsTrue && Applied(runs, s.status.executionName))
  }

  ghost predicate VersionsInv(runs: map<string, E.Run>, hist: seq<State>, stamp: Option<string>) {
    forall i :: 0 <= i < |hist| ==> VersionOk(runs, stamp, hist[i])
  }

  predicate SameBut(s: State, t: State) {
    s == t || s == Informed(t)
  }

  predicate Removed(s: State) {
    s.deleting && !s.finalizer
  }

  // One version after another: nothing follows a removal, a finalizer is released only
  // where it may be and nothing else changes with it, and tracking of the run the State
  // was deleted under is never resumed.
  predicate FollowOk(runs: map<string, E.Run>, stamp: Option<string>, before: State, after: State) {
    && !Removed(before)
    && (before.finalizer && !after.finalizer ==> Releasable(runs, before) && SameBut(after.(finalizer := true), before))
    && (before.deleting && Stamped(stamp, after) ==> Stamped(stamp, before))
  }

  ghost predicate FollowsInv(runs: map<string, E.Run>, hist: seq<State>, stamp: Option<string>) {
    forall i :: 0 < i < |hist| ==> FollowOk(runs, stamp, hist[i - 1], hist[i])
  }

  ghost predicate HistoryInv(runs: map<string, E.Run>, hist: seq<State>, deletedAt: Option<nat>) {
    VersionsInv(runs, hist, Stamp(hist, deletedAt)) && FollowsInv(runs, hist, Stamp(hist, deletedAt))
  }

  ghost predicate PcInv(runs: map<string, E.Run>, hist: seq<State>, deletedAt: Option<nat>, pc: Pc) {
    pc != Idle ==>
      && pc.base < |hist|
      && VersionOk(runs, Stamp(hist, deletedAt), pc.obj)
      && (pc.Gathering? || pc.Checking? || pc.Releasing? ==> SameBut(pc.obj, hist[pc.base]))
      && (pc.Checking? && pc.obj.deleting ==> pc.obj.Tracking())
      && ((pc.Locking? || pc.Deploying?) && pc.obj.deleting ==> pc.obj.status.jobDeployed != IsTrue)
      && (pc.Locking? && pc.obj.deleting ==> hist[pc.base].status.jobDeployed != IsTrue)
      && (pc.Recording? && pc.obj.deleting ==> !Stamped(Stamp(hist, deletedAt), pc.obj))
      && (pc.Releasing? ==> Releasable(runs, hist[pc.base]))
  }

  ghost predicate Inv(w: World) {
    HistoryInv(w.runs, w.hist, w.deletedAt) && PcInv(w.runs, w.hist, w.deletedAt, w.pc)
  }

  // ---- Runs and history only grow.

  ghost predicate RunsGrow(runs: map<string, E.Run>, runs': map<string, E.Run>) {
    forall n :: n in runs ==> n in runs' && RunGrows(runs[n], runs'[n])
  }

  ghost predicate RunGrows(r: E.Run, r': E.Run) {
    && r'.kind == r.kind
    && r.hist <= r'.hist
    && (r.hist != [] && r.Current().applied ==> r'.Current().applied)
  }

  lemma FactsGrow(runs: map<string, E.Run>, runs': map<string, E.Run>, stamp: Option<string>, s: State)
    requires RunsGrow(runs, runs')
    ensures VersionOk(runs, stamp, s) ==> VersionOk(runs', stamp, s)
    ensures Releasable(runs, s) ==> Releasable(runs', s)
  {
    if s.status.executionName in runs {
      assert RunGrows(runs[s.status.executionName], runs'[s.status.executionName]);
      assert s.status.executionName in runs';
    }
  }

  lemma RunsGrowKeeps(w: World, runs': map<string, E.Run>)
    requires Inv(w) && RunsGrow(w.runs, runs')
    ensures HistoryInv(runs', w.hist, w.deletedAt) && PcInv(runs', w.hist, w.deletedAt, w.pc)
  {
    hide VersionOk, Releasable, RunsGrow;
    var stamp := Stamp(w.hist, w.deletedAt);
    forall i | 0 <= i < |w.hist| { FactsGrow(w.runs, runs', stamp, w.hist[i]); }
    forall i | 0 < i < |w.hist| ensures FollowOk(runs', stamp, w.hist[i - 1], w.hist[i]) {
      assert FollowOk(w.runs, stamp, w.hist[i - 1], w.hist[i]);
    }
    if w.pc != Idle {
      FactsGrow(w.runs, runs', stamp, w.pc.obj);
      FactsGrow(w.runs, runs', stamp, w.hist[w.pc.base]);
    }
  }

  lemma StepGrows(r: E.Run, a: E.Action)
    requires E.Inv(r) && r.hist != []
    ensures RunGrows(r, E.Step(r, a))
  {
    hide E.GoStep;
    if a.Go? { GoGrows(r, a.ok, a.text); }
  }

  lemma GoGrows(r: E.Run, ok: bool, text: string)
    requires E.Inv(r) && r.hist != []
    ensures r.Current().applied ==> E.GoStep(r, ok, text).Current().applied
  {
    hide E.Past, E.Objects, E.RecordOk, E.PlanRecorded, E.NextAttempt, E.AuthOk, Lower, Blank;
  }

  // ---- Writing a version.

  lemma WriteKeeps(w: World, base: nat, obj: State)
    requires Inv(w) && Sane(w) && base < |w.hist|
    requires VersionOk(w.runs, Stamp(w.hist, w.deletedAt), obj)
    requires !Removed(w.hist[base]) ==> FollowOk(w.runs, Stamp(w.hist, w.deletedAt), w.hist[base], obj)
    ensures var w' := Write(w, base, obj);
            && HistoryInv(w'.runs, w'.hist, w'.deletedAt)
            && PcInv(w'.runs, w'.hist, w'.deletedAt, w'.pc)
            && Stamp(w'.hist, w'.deletedAt) == Stamp(w.hist, w.deletedAt)
  {
    hide Sane, HistoryInv, VersionOk, Releasable, FollowOk, Stamped;
    Shape.Indexed(w);
    var w' := Write(w, base, obj);
    assert w.deletedAt.Some? ==> w.deletedAt.value < |w.hist| by { DeletedInRange(w); }
    if w'.hist != w.hist {
      assert base == w.Top() && w'.hist == w.hist + [obj];
      Appended(w.runs, w.hist, w.deletedAt, obj);
    }
  }

  lemma DeletedInRange(w: World)
    requires Sane(w)
    ensures w.deletedAt.Some? ==> w.deletedAt.value < |w.hist|
  {
  }

  lemma Appended(runs: map<string, E.Run>, hist: seq<State>, deletedAt: Option<nat>, obj: State)
    requires HistoryInv(runs, hist, deletedAt) && hist != []
    requires deletedAt.Some? ==> deletedAt.value < |hist|
    requires VersionOk(runs, Stamp(hist, deletedAt), obj)
    requires FollowOk(runs, Stamp(hist, deletedAt), hist[|hist| - 1], obj)
    ensures HistoryInv(runs, hist + [obj], deletedAt)
  {
    hide VersionOk, FollowOk, FollowsInv;
    FollowAppended(runs, hist, Stamp(hist, deletedAt), obj);
    assert Stamp(hist + [obj], deletedAt) == Stamp(hist, deletedAt);
  }

  lemma FollowAppended(runs: map<string, E.Run>, hist: seq<State>, stamp: Option<string>, obj: State)
    requires FollowsInv(runs, hist, stamp) && hist != [] && FollowOk(runs, stamp, hist[|hist| - 1], obj)
    ensures FollowsInv(runs, hist + [obj], stamp)
  {
    hide FollowOk;
  }

  // ---- The worker.

  lemma GatherKeeps(w: World, o: Outcome)
    requires Inv(w) && Sane(w) && w.pc.Gathering?
    ensures Inv(GatherCall(w, o, w.pc.base, w.pc.obj, w.pc.items))
  {
    hide HistoryInv, HistoryOk, StoresOk, Matches, Fetch, Lookups, AfterGather, Tracked, KindTracked;
    var l := Lookups(w.pc.obj.spec)[|w.pc.items|];
    if Fetch(w.deps, l).Some? {
      Shape.ItemFits(w.pc.obj.spec, w.pc.items, w.deps);
      var items := w.pc.items + [Fetch(w.deps, l).value];
      if |items| == |Lookups(w.pc.obj.spec)| { AfterGatherKeeps(w, w.pc.base, w.pc.obj, items); }
    }
  }

  lemma AfterGatherKeeps(w: World, base: nat, obj: State, items: seq<Item>)
    requires Inv(w) && base < |w.hist| && IsInt32(obj.spec.version)
    requires VersionOk(w.runs, Stamp(w.hist, w.deletedAt), obj) && SameBut(obj, w.hist[base])
    requires Matches(obj.spec, items) && |items| == |Lookups(obj.spec)|
    ensures Inv(AfterGather(w, base, obj, items))
  {
    hide HistoryInv, InputHash, Assemble, Lookups, Matches;
  }

  lemma CheckKeeps(w: World, o: Outcome)
    requires Inv(w) && Sane(w) && w.pc.Checking?
    ensures Inv(CheckCall(w, o, w.pc.base, w.pc.obj, w.pc.items))
  {
    hide HistoryInv, HistoryOk, StoresOk, Assemble, Lookups, Matches, Decide, VersionOk;
    var Checking(base, obj, items) := w.pc;
    if obj.deleting {
      CheckedReleasable(w, obj);
    } else {
      assert VersionOk(w.runs, Stamp(w.hist, w.deletedAt), Cleared(obj)) by { ClearedOk(w, obj); }
      DecideKeeps(w, base, obj, Assemble(obj.spec, items));
    }
  }

  // What OnRemove has just seen Applied may be let go.
  lemma CheckedReleasable(w: World, obj: State)
    requires Inv(w) && Sane(w) && w.pc.Checking? && obj == w.pc.obj && obj.deleting
    ensures RunApplied(w, obj.status.executionName) ==> Releasable(w.runs, w.hist[w.pc.base])
  {
    hide HistoryInv, HistoryOk, StoresOk, Lookups, Matches, VersionOk;
  }

  lemma ClearedOk(w: World, s: State)
    ensures var stamp := Stamp(w.hist, w.deletedAt);
            VersionOk(w.runs, stamp, s) ==> VersionOk(w.runs, stamp, Cleared(s))
  {
  }

  lemma NormalisedOk(w: World, s: State)
    requires IsInt32(s.spec.version)
    ensures var stamp := Stamp(w.hist, w.deletedAt);
            VersionOk(w.runs, stamp, s) ==> VersionOk(w.runs, stamp, Normalised(s))
  {
  }

  lemma DecideKeeps(w: World, base: nat, obj: State, input: Input)
    requires Inv(w) && base < |w.hist| && IsInt32(obj.spec.version)
    requires VersionOk(w.runs, Stamp(w.hist, w.deletedAt), obj) && !obj.deleting
    ensures Inv(Decide(w, base, obj, input))
  {
    hide HistoryInv, InputHash, VersionOk;
    NormalisedOk(w, obj);
  }

  lemma UpdateKeeps(w: World, o: Outcome)
    requires Inv(w) && Sane(w) && (w.pc.Clearing? || w.pc.Recording? || w.pc.Releasing?)
    ensures Inv(CallStep(w, o))
  {
    hide HistoryOk, StoresOk, Write, HistoryInv, GatherCall, CheckCall, DeployCall, LockCall, Releasable,
         Tracked, KindTracked;
    Shape.Indexed(w);
    var obj := if w.pc.Releasing? then w.pc.obj.(finalizer := false) else w.pc.obj;
    assert VersionOk(w.runs, Stamp(w.hist, w.deletedAt), obj) by { FinalizerAside(w, w.pc.obj); }
    UpdateFollows(w, obj);
    WriteKeeps(w, w.pc.base, obj);
  }

  lemma UpdateFollows(w: World, obj: State)
    requires Inv(w) && Sane(w) && (w.pc.Clearing? || w.pc.Recording? || w.pc.Releasing?)
    requires obj == if w.pc.Releasing? then w.pc.obj.(finalizer := false) else w.pc.obj
    ensures !Removed(w.hist[w.pc.base]) ==> FollowOk(w.runs, Stamp(w.hist, w.deletedAt), w.hist[w.pc.base], obj)
  {
    hide HistoryOk, StoresOk, HistoryInv, VersionOk, Releasable;
  }

  lemma FinalizerAside(w: World, s: State)
    ensures var stamp := Stamp(w.hist, w.deletedAt);
            VersionOk(w.runs, stamp, s) ==> VersionOk(w.runs, stamp, s.(finalizer := false))
  {
  }

  lemma LockKeeps(w: World, o: Outcome)
    requires Inv(w) && Sane(w) && w.pc.Locking? && w.hist != []
    ensures Inv(LockCall(w, o, w.pc.base, w.pc.obj, w.pc.input, w.pc.hash))
  {
    hide HistoryOk, StoresOk, Write, HistoryInv, Releasable, FollowOk, VersionOk, Accepts;
    LockFollows(w);
    assert VersionOk(w.runs, Stamp(w.hist, w.deletedAt), Imaged(w.pc.obj)) by { ImagedOk(w, w.pc.obj); }
    WriteKeeps(w, w.pc.base, w.pc.obj);
  }

  lemma LockFollows(w: World)
    requires Inv(w) && Sane(w) && w.pc.Locking?
    ensures !Removed(w.hist[w.pc.base]) ==> FollowOk(w.runs, Stamp(w.hist, w.deletedAt), w.hist[w.pc.base], w.pc.obj)
  {
    hide HistoryOk, StoresOk, HistoryInv, VersionOk, Releasable;
  }

  lemma ImagedOk(w: World, s: State)
    requires VersionOk(w.runs, Stamp(w.hist, w.deletedAt), s)
    ensures VersionOk(w.runs, Stamp(w.hist, w.deletedAt), Imaged(s))
  {
  }

  lemma DeployKeeps(w: World, o: Outcome)
    requires Inv(w) && Sane(w) && Deployment.Inv(w) && w.pc.Deploying?
    ensures var Deploying(base, obj, input, hash, stage) := w.pc;
            Inv(DeployCall(w, o, base, obj, input, hash, stage))
  {
    hide HistoryOk, HistoryInv, Releasable, StageEffect, NextStage, InputHash, Progress, RunsOk, ModulesOk,
         RunHashIs, VersionOk, NewExecution, ContentOk, Stamp, Stamped, SameBut;
    var Deploying(base, obj, input, hash, stage) := w.pc;
    if !StageFails(w.runs, o, stage) {
      var w' := StageEffect(w, o, obj, input, stage);
      EffectGrows(w, o, obj, input, hash, stage);
      RunsGrowKeeps(w, w'.runs);
      if NextStage(o, stage).None? { RecordedNext(w, o); }
    }
  }

  // The version that records the run just deployed.
  lemma RecordedNext(w: World, o: Outcome)
    requires Inv(w) && Sane(w) && Deployment.Inv(w) && w.pc.Deploying? && !StageFails(w.runs, o, w.pc.stage)
    requires NextStage(o, w.pc.stage).None?
    ensures var Deploying(base, obj, input, hash, stage) := w.pc;
            var runs', stamp := StageEffect(w, o, obj, input, stage).runs, Stamp(w.hist, w.deletedAt);
            && VersionOk(runs', stamp, Recorded(obj, stage.run, hash))
            && (obj.deleting ==> !Stamped(stamp, Recorded(obj, stage.run, hash)))
  {
    hide HistoryOk, HistoryInv, Releasable, StageEffect, NextStage, InputHash, Progress, RunsOk, ModulesOk,
         RunHashIs, VersionOk, NewExecution, ContentOk, Stamp, Stamped, SameBut;
    var Deploying(base, obj, input, hash, stage) := w.pc;
    var w' := StageEffect(w, o, obj, input, stage);
    LastStage(o, stage);
    EffectGrows(w, o, obj, input, hash, stage);
    RunsGrowKeeps(w, w'.runs);
    Deployment.StageKeeps(w, o, obj, input, hash, stage);
    StampIsCreate(w'.runs, w.hist, w.deletedAt);
    RecordedOk(w'.runs, Stamp(w.hist, w.deletedAt), obj, stage.run, hash);
  }

  lemma LastStage(o: Outcome, stage: Stage)
    requires stage.MakeExecution? ==> o.Named?
    ensures NextStage(o, stage).None? ==> stage.Adopt?
  {
  }

  lemma RecordedOk(runs: map<string, E.Run>, stamp: Option<string>, obj: State, n: string, hash: string)
    requires VersionOk(runs, stamp, obj) && n != "" && hash != ""
    requires n in runs && runs[n].kind == obj.Kind() && RunHashIs(runs[n], hash)
    requires stamp.Some? ==> stamp.value in runs && runs[stamp.value].kind.Create?
    ensures VersionOk(runs, stamp, Recorded(obj, n, hash))
    ensures obj.deleting ==> !Stamped(stamp, Recorded(obj, n, hash))
  {
  }

  // A State is only ever deleted under a create run.
  lemma StampIsCreate(runs: map<string, E.Run>, hist: seq<State>, deletedAt: Option<nat>)
    requires HistoryInv(runs, hist, deletedAt)
    ensures var stamp := Stamp(hist, deletedAt);
            stamp.Some? ==> stamp.value in runs && runs[stamp.value].kind.Create?
  {
    hide FollowsInv, Tracked;
    if Stamp(hist, deletedAt).Some? { assert VersionOk(runs, Stamp(hist, deletedAt), hist[deletedAt.value]); }
  }

  lemma EffectGrows(w: World, o: Outcome, obj: State, input: Input, hash: string, stage: Stage)
    requires RunsOk(w.runs) && StoresOk(w.runs, w.deps.modules) && IsInt32(obj.spec.version)
    requires !StageFails(w.runs, o, stage)
    ensures RunsGrow(w.runs, StageEffect(w, o, obj, input, stage).runs)
    ensures !stage.MakeExecution? ==> stage.run != ""
  {
    hide InputHash, E.Step, E.Inv, Honest, RunGrows;
    assert forall n :: n in w.runs ==> RunGrows(w.runs[n], w.runs[n]) by { RunsGrowReflexive(w.runs); }
    if !stage.MakeExecution? {
      StepGrows(w.runs[stage.run], StageAct(obj, input, stage));
    }
  }

  lemma RunsGrowReflexive(runs: map<string, E.Run>)
    ensures forall n :: n in runs ==> RunGrows(runs[n], runs[n])
  {
  }

  // ---- Everybody else.

  lemma UserKeeps(w: World, a: Action)
    requires Inv(w) && Sane(w)
    ensures Inv(UserStep(w, a))
  {
    hide HistoryInv, VersionOk, Releasable, Write, HistoryOk, StoresOk;
    Shape.Indexed(w);
    Shape.VersionsOk(w);
    match a
    case EditSpec(spec) => EditKeeps(w, w.Top(), w.Current().(spec := spec));
    case AddFinalizer => EditKeeps(w, w.Top(), w.Current().(finalizer := true));
    case DeleteState => DeletionKeeps(w);
    case ResetRun(base) => if base <= w.Top() { EditKeeps(w, base, Rerun(w.hist[base])); }
    case ResetDeleted(base) =>
      if base <= w.Top() {
        var s := Rerun(w.hist[base]);
        EditKeeps(w, base, s.(status := s.status.(executionName := "")));
      }
    case _ =>
  }

  // Users keep or reset the tracking and cannot take the finalizer off.
  lemma EditKeeps(w: World, base: nat, obj: State)
    requires Inv(w) && Sane(w) && base < |w.hist|
    requires obj.status == w.hist[base].status
             || (obj.status.jobDeployed == IsFalse && obj.status.destroyed == w.hist[base].status.destroyed)
    requires obj.deleting == w.hist[base].deleting && (w.hist[base].finalizer ==> obj.finalizer)
    ensures Inv(Write(w, base, obj))
  {
    hide Sane, PcInv, Releasable, Write, RunHashIs, FollowsInv;
    assert VersionOk(w.runs, Stamp(w.hist, w.deletedAt), w.hist[base]);
    WriteKeeps(w, base, obj);
  }

  lemma DeletionKeeps(w: World)
    requires Inv(w) && Sane(w) && w.hist != []
    ensures Inv(UserStep(w, DeleteState))
  {
    hide Sane, PcInv, VersionOk, VersionsInv, FollowsInv, FollowOk;
    var w', s := UserStep(w, DeleteState), w.Current();
    if w' != w {
      NotYetDeleted(w);
      DeletionVersions(w, s.(deleting := true));
      DeletionFollows(w, s.(deleting := true));
    }
  }

  lemma NotYetDeleted(w: World)
    requires Sane(w) && w.hist != [] && !w.Current().deleting
    ensures w.deletedAt.None?
    ensures forall i :: 0 <= i < |w.hist| ==> !w.hist[i].deleting
    ensures w.pc != Idle ==> !w.pc.obj.deleting
  {
  }

  // Up to the deletion the order of versions asks nothing of the stamp.
  lemma DeletionFollows(w: World, t: State)
    requires Inv(w) && Sane(w) && w.hist != [] && !w.Current().deleting && t == w.Current().(deleting := true)
    ensures FollowsInv(w.runs, w.hist + [t], Stamp(w.hist + [t], Some(|w.hist|)))
  {
    hide Sane, PcInv, VersionsInv, Releasable, Stamp, Stamped;
    NotYetDeleted(w);
    var hist', stamp := w.hist + [t], Stamp(w.hist + [t], Some(|w.hist|));
    forall i | 0 < i < |hist'| ensures FollowOk(w.runs, stamp, hist'[i - 1], hist'[i]) {
      if i < |w.hist| { assert FollowOk(w.runs, Stamp(w.hist, w.deletedAt), w.hist[i - 1], w.hist[i]); }
    }
  }

  // The versions before the deletion track create runs, and so does the one it makes.
  lemma DeletionVersions(w: World, t: State)
    requires Inv(w) && Sane(w) && w.hist != [] && !w.Current().deleting && t == w.Current().(deleting := true)
    ensures var w' := w.(hist := w.hist + [t], deletedAt := Some(|w.hist|));
            && VersionsInv(w'.runs, w'.hist, Stamp(w'.hist, w'.deletedAt))
            && PcInv(w'.runs, w'.hist, w'.deletedAt, w'.pc)
  {
    hide Sane, RunHashIs, FollowsInv, Releasable, Applied;
    NotYetDeleted(w);
    var hist', stamp := w.hist + [t], Stamp(w.hist + [t], Some(|w.hist|));
    assert VersionOk(w.runs, None, w.Current());
    forall i | 0 <= i < |hist'| ensures VersionOk(w.runs, stamp, hist'[i]) {
      if i < |w.hist| { assert VersionOk(w.runs, None, w.hist[i]); }
    }
  }

  lemma StartKeeps(w: World)
    requires Inv(w) && Sane(w)
    ensures Inv(StartStep(w))
  {
    hide HistoryInv, StoresOk;
    Shape.Indexed(w);
    assert VersionOk(w.runs, Stamp(w.hist, w.deletedAt), w.hist[w.cached]) by { VersionIsOk(w, w.cached); }
  }

  lemma VersionIsOk(w: World, i: nat)
    requires Inv(w) && i < |w.hist|
    ensures VersionOk(w.runs, Stamp(w.hist, w.deletedAt), w.hist[i])
  {
  }

  lemma RunActKeeps(w: World, n: string, act: E.Action)
    requires Inv(w) && Sane(w) && RunsOk(w.runs)
    ensures w.hist != [] && (forall n :: n in w.runs ==> w.runs[n].hist != [])
    ensures Inv(RunActStep(w, n, act))
  {
    hide HistoryInv, PcInv, E.Step, E.Inv, Honest, RunGrows, HistoryOk, PcOk;
    Shape.Indexed(w);
    RunsGrowReflexive(w.runs);
    if n in w.runs {
      StepGrows(w.runs[n], act);
    }
    RunsGrowKeeps(w, RunActStep(w, n, act).runs);
  }

  lemma CallKeeps(w: World, o: Outcome)
    requires Inv(w) && Sane(w) && Deployment.Inv(w)
    ensures Inv(CallStep(w, o))
  {
    hide Inv, Sane, Deployment.Inv, GatherCall, CheckCall, DeployCall, LockCall, Write;
    Shape.Indexed(w);
    match w.pc
    case Idle =>
    case Gathering(_, _, _) => GatherKeeps(w, o);
    case Checking(_, _, _) => CheckKeeps(w, o);
    case Deploying(_, _, _, _, _) => DeployKeeps(w, o);
    case Locking(_, _, _, _) => LockKeeps(w, o);
    case _ => UpdateKeeps(w, o);
  }

  lemma StepKeepsInv(w: World, a: Action)
    requires Inv(w) && Sane(w) && Deployment.Inv(w)
    ensures Inv(Step(w, a))
  {
    hide Inv, Sane, CallStep, UserStep, StartStep, QueueStep, RunActStep, DepStep, RunsOk, ModulesOk, PcSourced;
    Shape.Indexed(w);
    match a
    case Call(o) => CallKeeps(w, o);
    case RunAct(n, act) => RunActKeeps(w, n, act);
    case EditSpec(_) => UserKeeps(w, a);
    case AddFinalizer => UserKeeps(w, a);
    case DeleteState => UserKeeps(w, a);
    case ResetRun(_) => UserKeeps(w, a);
    case ResetDeleted(_) => UserKeeps(w, a);
    case Start => StartKeeps(w);
    case Restart => OthersKeep(w, QueueStep(w, a));
    case Deliver(_) => OthersKeep(w, QueueStep(w, a));
    case Resolve(_) => OthersKeep(w, QueueStep(w, a));
    case RunEvent(_) => OthersKeep(w, QueueStep(w, a));
    case _ => OthersKeep(w, DepStep(w, a));
  }

  lemma OthersKeep(w: World, w': World)
    requires Inv(w) && w'.runs == w.runs && w'.hist == w.hist && w'.deletedAt == w.deletedAt
    requires w'.pc == w.pc || w'.pc == Idle
    ensures Inv(w')
  {
    hide HistoryInv;
  }
}
