// Where the runs of a State come from, and what may become of them.
module Ownership {
  import opened Basics
  import opened Inputs
  import opened Reconciler
  import Shape
  import E = Executor

  // One step's effect on a run that was there, and on one that was not.
  predicate Evolves(r: E.Run, r': E.Run, gone: bool) {
    && r.hist <= r'.hist && r'.kind == r.kind && r'.vars == r.vars
    && (r.userDeleted ==> r'.userDeleted) && (r.made.Some? ==> r'.made == r.made)
    && (r'.deleted ==> r.deleted || r'.userDeleted || gone)
  }

  predicate Fresh(name: string, pc: Pc, r: E.Run) {
    && pc.Deploying? && r.kind == pc.obj.Kind()
    && r.hist != [] && r.hist[0].spec.stateName == name && !r.deleted
  }

  ghost predicate RunsEvolve(w: World, runs': map<string, E.Run>)
    requires w.hist != []
  {
    && (forall n :: n in w.runs ==> n in runs' && Evolves(w.runs[n], runs'[n], w.Gone()))
    && (forall n :: n in runs' && n !in w.runs ==> Fresh(w.name, w.pc, runs'[n]))
  }

  lemma RunEvolves(r: E.Run, a: E.Action, gone: bool)
    requires r.hist != [] && (a.CollectAll? ==> gone)
    ensures Evolves(r, E.Step(r, a), gone)
  {
    hide E.GoStep, E.Write, E.Adopted;
    if a.Adopt? { AdoptEvolves(r, a.target); }
  }

  lemma AdoptEvolves(r: E.Run, target: E.Target)
    ensures var r' := E.Adopted(r, target);
            r' == r.(secret := r'.secret, account := r'.account, binding := r'.binding)
  {
  }

  lemma OneEvolves(w: World, n: string, r': E.Run)
    requires w.hist != [] && n in w.runs && Evolves(w.runs[n], r', w.Gone())
    ensures RunsEvolve(w, w.runs[n := r'])
  {
  }

  lemma NoneEvolves(w: World)
    requires w.hist != []
    ensures RunsEvolve(w, w.runs)
  {
  }

  lemma DeployEvolves(w: World, o: Outcome)
    requires Sane(w) && w.pc.Deploying? && w.hist != []
    ensures var Deploying(base, obj, input, hash, stage) := w.pc;
            RunsEvolve(w, DeployCall(w, o, base, obj, input, hash, stage).runs)
  {
    hide HistoryOk, InputHash, E.Step, RunsEvolve, Evolves, NextStage;
    var Deploying(base, obj, input, hash, stage) := w.pc;
    NoneEvolves(w);
    if !StageFails(w.runs, o, stage) {
      if stage.MakeExecution? {
        NewEvolves(w, o.run, obj, input);
      } else {
        RunEvolves(w.runs[stage.run], StageAct(obj, input, stage), w.Gone());
        OneEvolves(w, stage.run, E.Step(w.runs[stage.run], StageAct(obj, input, stage)));
      }
    }
  }

  lemma NewEvolves(w: World, n: string, obj: State, input: Input)
    requires w.hist != [] && w.pc.Deploying? && obj == w.pc.obj && n !in w.runs && IsInt32(obj.spec.version)
    ensures RunsEvolve(w, w.runs[n := NewExecution(w, n, obj, input)])
  {
    hide InputHash;
  }

  lemma StepEvolves(w: World, a: Action)
    requires Sane(w)
    ensures w.hist != [] && RunsEvolve(w, Step(w, a).runs)
  {
    hide Sane, RunsEvolve, UserStep, StartStep, CallStep, RunActStep, QueueStep, DepStep;
    Shape.Indexed(w);
    NoneEvolves(w);
    match a
    case Call(o) => CallEvolves(w, o);
    case RunAct(n, act) => RunActEvolves(w, n, act);
    case Start => StartKeepsRuns(w);
    case EditSpec(_) => UserKeepsRuns(w, a);
    case AddFinalizer => UserKeepsRuns(w, a);
    case DeleteState => UserKeepsRuns(w, a);
    case ResetRun(_) => UserKeepsRuns(w, a);
    case ResetDeleted(_) => UserKeepsRuns(w, a);
    case _ =>
  }

  lemma StartKeepsRuns(w: World)
    requires w.hist != [] && w.cached < |w.hist|
    ensures StartStep(w).runs == w.runs && StartStep(w).name == w.name
  {
  }

  lemma UserKeepsRuns(w: World, a: Action)
    requires Sane(w)
    ensures UserStep(w, a).runs == w.runs && UserStep(w, a).name == w.name
  {
    hide HistoryOk, StoresOk, PcOk, Write, Rerun;
    Shape.Indexed(w);
    Shape.VersionsOk(w);
  }

  lemma RunActEvolves(w: World, n: string, act: E.Action)
    requires Sane(w)
    ensures w.hist != [] && (forall n :: n in w.runs ==> w.runs[n].hist != [])
    ensures RunsEvolve(w, RunActStep(w, n, act).runs)
  {
    hide HistoryOk, PcOk, E.Step, RunsEvolve, Evolves;
    Shape.Indexed(w);
    NoneEvolves(w);
    if n in w.runs && External(w, act) {
      RunEvolves(w.runs[n], act, w.Gone());
      OneEvolves(w, n, E.Step(w.runs[n], act));
    }
  }

  lemma CallEvolves(w: World, o: Outcome)
    requires Sane(w) && w.hist != []
    ensures RunsEvolve(w, CallStep(w, o).runs)
  {
    hide Sane, RunsEvolve, DeployCall;
    NoneEvolves(w);
    if w.pc.Deploying? {
      DeployEvolves(w, o);
    } else {
      CallKeepsRuns(w, o);
    }
  }

  lemma CallKeepsRuns(w: World, o: Outcome)
    requires Sane(w) && !w.pc.Deploying?
    ensures CallStep(w, o).runs == w.runs
  {
    hide Sane, GatherCall, CheckCall, LockCall, DeployCall, Write, Accepts;
    Shape.Indexed(w);
    match w.pc
    case Gathering(_, _, _) => GatherMoves(w, o);
    case Checking(_, _, _) => CheckMoves(w, o);
    case Locking(_, _, _, _) => LockKeepsRuns(w, o);
    case _ =>
  }

  lemma LockKeepsRuns(w: World, o: Outcome)
    requires w.hist != [] && w.pc.Locking?
    ensures LockCall(w, o, w.pc.base, w.pc.obj, w.pc.input, w.pc.hash).runs == w.runs
  {
    hide Write, Accepts;
  }

  // Reading changes nothing but where the worker stands.
  lemma GatherMoves(w: World, o: Outcome)
    requires Sane(w) && w.pc.Gathering?
    ensures var w' := GatherCall(w, o, w.pc.base, w.pc.obj, w.pc.items); w' == w.(pc := w'.pc, queued := w'.queued)
  {
    hide HistoryOk, StoresOk, Fetch, Lookups, Matches, AfterGather;
    var Gathering(base, obj, items) := w.pc;
    if Fetch(w.deps, Lookups(obj.spec)[|items|]).Some? {
      Shape.ItemFits(obj.spec, items, w.deps);
      var items' := items + [Fetch(w.deps, Lookups(obj.spec)[|items|]).value];
      if |items'| == |Lookups(obj.spec)| { AfterGatherMoves(w, base, obj, items'); }
    }
  }

  lemma CheckMoves(w: World, o: Outcome)
    requires Sane(w) && w.pc.Checking?
    ensures var w' := CheckCall(w, o, w.pc.base, w.pc.obj, w.pc.items); w' == w.(pc := w'.pc, queued := w'.queued)
  {
    hide HistoryOk, StoresOk, Lookups, Matches, Assemble, Decide, RunApplied;
    DecideMoves(w, w.pc.base, w.pc.obj, Assemble(w.pc.obj.spec, w.pc.items));
  }

  lemma AfterGatherMoves(w: World, base: nat, obj: State, items: seq<Item>)
    requires IsInt32(obj.spec.version) && Matches(obj.spec, items) && |items| == |Lookups(obj.spec)|
    ensures var w' := AfterGather(w, base, obj, items);
            w' == w.(pc := w'.pc, queued := w'.queued) && (w.queued ==> w'.queued)
  {
    hide InputHash, Assemble, Lookups, Matches;
  }

  lemma DecideMoves(w: World, base: nat, obj: State, input: Input)
    requires IsInt32(obj.spec.version)
    ensures var w' := Decide(w, base, obj, input); w' == w.(pc := w'.pc)
  {
    hide InputHash;
  }

  // ---- The invariant.

  ghost predicate Owned(name: string, runs: map<string, E.Run>, gone: bool) {
    forall n :: n in runs ==>
      && runs[n].hist != [] && runs[n].hist[0].spec.stateName == name
      && (runs[n].deleted ==> runs[n].userDeleted || gone)
  }

  ghost predicate Inv(w: World) {
    w.hist != [] && Owned(w.name, w.runs, w.Gone())
  }

  // A removed State gets no more versions, and nobody renames one.
  lemma GoneStays(w: World, a: Action)
    requires Sane(w)
    ensures var w' := Step(w, a);
            w.hist != [] && w'.hist != [] && w'.name == w.name && (w.Gone() ==> w'.hist == w.hist)
  {
    hide Sane, UserStep, StartStep, CallStep, RunActStep, QueueStep, DepStep;
    Shape.Indexed(w);
    match a
    case Call(o) => CallAfterGone(w, o);
    case RunAct(n, act) => RunActEvolves(w, n, act); RunActKeepsHist(w, n, act);
    case Start => StartKeepsHist(w);
    case EditSpec(_) => UserAfterGone(w, a);
    case AddFinalizer => UserAfterGone(w, a);
    case DeleteState => UserAfterGone(w, a);
    case ResetRun(_) => UserAfterGone(w, a);
    case ResetDeleted(_) => UserAfterGone(w, a);
    case _ =>
  }

  lemma RunActKeepsHist(w: World, n: string, act: E.Action)
    requires w.hist != [] && (forall n :: n in w.runs ==> w.runs[n].hist != [])
    ensures RunActStep(w, n, act).hist == w.hist && RunActStep(w, n, act).name == w.name
  {
    hide E.Step, External;
  }

  lemma StartKeepsHist(w: World)
    requires w.hist != [] && w.cached < |w.hist|
    ensures StartStep(w).hist == w.hist && StartStep(w).name == w.name
  {
  }

  lemma UserAfterGone(w: World, a: Action)
    requires Sane(w) && w.hist != []
    ensures UserStep(w, a).name == w.name && UserStep(w, a).hist != [] && (w.Gone() ==> UserStep(w, a).hist == w.hist)
  {
    hide HistoryOk, StoresOk, PcOk, Rerun;
    Shape.VersionsOk(w);
  }

  lemma CallAfterGone(w: World, o: Outcome)
    requires Sane(w) && w.hist != []
    ensures CallStep(w, o).name == w.name && CallStep(w, o).hist != [] && (w.Gone() ==> CallStep(w, o).hist == w.hist)
  {
    hide Sane, GatherCall, CheckCall, DeployCall, LockCall, Write, Accepts;
    if w.Gone() { NoneAccepted(w); }
    match w.pc
    case Gathering(_, _, _) => ReadingKeepsHist(w, o);
    case Checking(_, _, _) => ReadingKeepsHist(w, o);
    case Deploying(_, _, _, _, _) => DeployKeepsHist(w, o);
    case Locking(_, _, _, _) => LockAfterGone(w, o);
    case _ =>
  }

  lemma NoneAccepted(w: World)
    requires w.hist != [] && w.Gone()
    ensures forall base :: !Accepts(w, base)
  {
  }

  lemma LockAfterGone(w: World, o: Outcome)
    requires w.hist != [] && w.pc.Locking?
    ensures var w' := LockCall(w, o, w.pc.base, w.pc.obj, w.pc.input, w.pc.hash);
            w'.name == w.name && w'.hist != [] && (w.Gone() ==> w'.hist == w.hist)
  {
    hide Write;
  }

  lemma ReadingKeepsHist(w: World, o: Outcome)
    requires Sane(w) && (w.pc.Gathering? || w.pc.Checking?)
    ensures CallStep(w, o).hist == w.hist && CallStep(w, o).name == w.name && CallStep(w, o).deletedAt == w.deletedAt
  {
    hide Sane, GatherCall, CheckCall, LockCall, DeployCall;
    if w.pc.Gathering? { GatherMoves(w, o); } else { CheckMoves(w, o); }
  }

  lemma DeployKeepsHist(w: World, o: Outcome)
    requires Sane(w) && w.pc.Deploying?
    ensures CallStep(w, o).hist == w.hist && CallStep(w, o).name == w.name && CallStep(w, o).deletedAt == w.deletedAt
  {
    hide HistoryOk, PcOk, StageEffect, StageFails, NextStage, LockCall, GatherCall, CheckCall;
  }

  lemma StepKeepsInv(w: World, a: Action)
    requires Inv(w) && Sane(w)
    ensures Inv(Step(w, a))
  {
    hide Sane, Step;
    StepEvolves(w, a);
    GoneStays(w, a);
  }
}
