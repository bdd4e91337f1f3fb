// OnChange left alone settles down: with the inputs fixed and every call successful, each
// pass either changes nothing or takes the State strictly closer to rest, and at most one
// Execution is created on the way.
module Convergence {
  import opened Basics
  import opened Inputs
  import opened Reconciler
  import Shape
  import A = ApiServer
  import E = Executor

  // ---- One pass in which every call works.

  // n is the name the server would generate.
  function GoodCall(pc: Pc, n: string): Outcome {
    if pc.Deploying? && pc.stage.MakeExecution? then Named(n) else Ok
  }

  ghost function Calls(w: World, n: string, k: nat): World
    requires Sane(w)
    decreases k
  {
    if k == 0 then w
    else
      Shape.StepKeepsSane(w, Call(GoodCall(w.pc, n)));
      Calls(Step(w, Call(GoodCall(w.pc, n))), n, k - 1)
  }

  // The tracked run has been Applied.
  predicate Finished(w: World, s: State) {
    s.Tracking() && RunApplied(w, s.status.executionName)
  }

  // A State at the start of a pass, all of whose inputs are there.
  ghost predicate Ready(w: World, s: State) {
    && !s.deleting && IsInt32(s.spec.version)
    && Gatherable(w.deps, s.spec) && HashGatherable(w.deps, s.spec)
    && (s.Tracking() ==> RunFound(w, s.status.executionName))
  }

  ghost function Hash(w: World, s: State): string
    requires Ready(w, s)
  {
    CreateHash(w.deps, s.spec)
  }

  ghost predicate HashDiffers(w: World, s: State)
    requires Ready(w, s)
  {
    Hash(w, s) != s.status.lastRunHash
  }

  // The State a deploying pass leaves behind.
  function Deployed(s: State, n: string, hash: string): State
    requires IsInt32(s.spec.version)
  {
    Recorded(Imaged(Normalised(s)), n, hash)
  }

  // One more run than before, not finished, with its Job in place once `made`.
  predicate OneMore(runs: map<string, E.Run>, runs': map<string, E.Run>, n: string, s: State, made: bool) {
    && n != "" && n !in runs && n in runs' && runs' == runs[n := runs'[n]]
    && GoodRun(runs'[n], s) && (made ==> runs'[n].job.Some?)
  }

  // A run deployed for s that no pod has touched yet.
  predicate GoodRun(r: E.Run, s: State) {
    && r.hist != [] && !r.deleted && !r.Current().applied && r.kind == s.Kind()
    && r.pc == E.Down && r.hist[0].spec.autoConfirm == s.spec.autoConfirm
    && (r.job.Some? ==> r.job.value.image == s.spec.image) && (r.made.Some? ==> r.job.Some?)
  }

  // What one pass does to the State and its runs.
  ghost predicate Passed(w: World, s: State, w': World, n: string)
    requires Ready(w, s)
  {
    && w'.hist != [] && w'.deps == w.deps && w'.name == w.name && w'.cached == w.cached
    && if Finished(w, s) then w'.Current() == Cleared(s) && w'.runs == w.runs
       else if !HashDiffers(w, s) then w'.hist == w.hist && w'.runs == w.runs
       else w'.Current() == Deployed(s, n, Hash(w, s)) && OneMore(w.runs, w'.runs, n, s, true)
  }

  // ---- Where the worker stands during such a pass.

  ghost predicate Read(d: Deps, spec: StateSpec, items: seq<Item>) {
    |items| <= |Lookups(spec)| && forall i :: 0 <= i < |items| ==> Fetch(d, Lookups(spec)[i]) == Some(items[i])
  }

  ghost predicate Untouched(w0: World, w: World, base: nat) {
    w.hist == w0.hist && w.runs == w0.runs && base + 1 == |w0.hist|
  }

  ghost predicate Locked(w: World, s: State, base: nat)
    requires IsInt32(s.spec.version)
  {
    w.hist != [] && base == w.Top() && w.Current() == Normalised(s)
  }

  predicate Underway(runs: map<string, E.Run>, runs': map<string, E.Run>, n: string, s: State, stage: Stage) {
    if stage.MakeExecution? then runs' == runs && n != "" && n !in runs
    else stage.run == n && OneMore(runs, runs', n, s, stage.Adopt?) && (stage.NameSecret? ==> |runs'[n].hist| == 1)
  }

  ghost predicate On(w0: World, s: State, w: World, n: string)
    requires Ready(w0, s)
  {
    && w.deps == w0.deps && w.name == w0.name && w.cached == w0.cached
    && match w.pc
       case Idle => Passed(w0, s, w, n)
       case Gathering(base, obj, items) =>
         Untouched(w0, w, base) && obj == s && Read(w0.deps, s.spec, items) && |items| < |Lookups(s.spec)|
       case Checking(base, obj, items) =>
         Untouched(w0, w, base) && obj == s && Read(w0.deps, s.spec, items) && |items| == |Lookups(s.spec)| && s.Tracking()
       case Clearing(base, obj) => Untouched(w0, w, base) && obj == Cleared(s) && Finished(w0, s)
       case Locking(base, obj, input, hash) =>
         Untouched(w0, w, base) && obj == Normalised(s) && hash == Hash(w0, s) && HashDiffers(w0, s) && !Finished(w0, s)
         && input.image == s.spec.image
       case Deploying(base, obj, input, hash, stage) =>
         && hash == Hash(w0, s) && HashDiffers(w0, s) && !Finished(w0, s)
         && input.image == s.spec.image && Locked(w, s, base) && obj == Imaged(Normalised(s))
         && Underway(w0.runs, w.runs, n, s, stage)
       case Recording(base, obj, run) =>
         && HashDiffers(w0, s) && !Finished(w0, s) && run == n
         && Locked(w, s, base) && obj == Deployed(s, n, Hash(w0, s)) && OneMore(w0.runs, w.runs, n, s, true)
       case Releasing(_, _) => false
  }

  // How many calls are left at most.
  function Rank(pc: Pc): nat {
    match pc
    case Idle => 0
    case Gathering(_, obj, items) => 30 + if |items| <= |Lookups(obj.spec)| then |Lookups(obj.spec)| - |items| else 0
    case Checking(_, _, _) => 30
    case Locking(_, _, _, _) => 29
    case Deploying(_, _, _, _, stage) => 2 + StageRank(stage)
    case _ => 1
  }

  function StageRank(stage: Stage): nat {
    match stage
    case MakeExecution => 20
    case NameSecret(_) => 19
    case MakeSecret(_) => 18
    case MakeAccount(_) => 17
    case MakeBinding(_) => 16
    case MakeJob(_) => 15
    case Adopt(_, target, attempt) =>
      (if target.Account? then 10 else if target.Binding? then 5 else 0) + if attempt < 4 then 4 - attempt else 0
  }

  lemma GatherOn(w0: World, s: State, w: World, n: string)
    requires Ready(w0, s) && On(w0, s, w, n) && w.pc.Gathering? && Sane(w) && n != "" && n !in w0.runs
    ensures var w' := GatherCall(w, Ok, w.pc.base, w.pc.obj, w.pc.items);
            On(w0, s, w', n) && Rank(w'.pc) < Rank(w.pc)
  {
    hide Fetch, Lookups, HistoryOk, StoresOk, Matches, AfterGather, CreateHash;
    var Gathering(base, obj, items) := w.pc;
    var l := Lookups(s.spec)[|items|];
    assert l in Lookups(s.spec);
    Shape.ItemFits(s.spec, items, w.deps);
    var items' := items + [Fetch(w.deps, l).value];
    if |items'| == |Lookups(s.spec)| { AfterGatherOn(w0, s, w, n, items'); }
  }

  lemma AfterGatherOn(w0: World, s: State, w: World, n: string, items: seq<Item>)
    requires Ready(w0, s) && w.deps == w0.deps && w.name == w0.name && w.cached == w0.cached
    requires w.hist != [] && w.hist == w0.hist && w.runs == w0.runs
    requires Matches(s.spec, items) && |items| == |Lookups(s.spec)| && Read(w0.deps, s.spec, items)
    ensures var w' := AfterGather(w, w0.Top(), s, items);
            On(w0, s, w', n) && Rank(w'.pc) <= 30
  {
    hide Fetch, Lookups, Matches, CreateHash, Decide;
    if !s.Tracking() { DecideOn(w0, s, w, n, items); }
  }

  lemma DecideOn(w0: World, s: State, w: World, n: string, items: seq<Item>)
    requires Ready(w0, s) && w.deps == w0.deps && w.name == w0.name && w.cached == w0.cached
    requires w.hist != [] && w.hist == w0.hist && w.runs == w0.runs
    requires Matches(s.spec, items) && |items| == |Lookups(s.spec)| && Read(w0.deps, s.spec, items)
    requires !Finished(w0, s)
    ensures var w' := Decide(w, w0.Top(), s, Assemble(s.spec, items));
            On(w0, s, w', n) && Rank(w'.pc) <= 29
  {
    hide Fetch, Lookups, Matches, CreateHash, InputHash, Assemble;
    CurrentItemsCurrentHash(w0.deps, s.spec, items);
    ImageAsRead(s.spec, items);
  }

  lemma ImageAsRead(spec: StateSpec, items: seq<Item>)
    requires Matches(spec, items) && |items| == |Lookups(spec)|
    ensures Assemble(spec, items).image == spec.image
  {
  }

  lemma CheckOn(w0: World, s: State, w: World, n: string)
    requires Ready(w0, s) && On(w0, s, w, n) && w.pc.Checking? && Sane(w)
    ensures var w' := CheckCall(w, Ok, w.pc.base, w.pc.obj, w.pc.items);
            On(w0, s, w', n) && Rank(w'.pc) < Rank(w.pc)
  {
    hide Lookups, HistoryOk, StoresOk, Matches, CreateHash, Decide, Read;
    if !RunApplied(w, s.status.executionName) { DecideOn(w0, s, w, n, w.pc.items); }
  }

  lemma UpdateOn(w0: World, s: State, w: World, n: string)
    requires Ready(w0, s) && On(w0, s, w, n) && (w.pc.Clearing? || w.pc.Recording?) && Sane(w)
    requires w0.hist != [] && w0.Current() == s
    ensures var w' := CallStep(w, Ok);
            On(w0, s, w', n) && Rank(w'.pc) < Rank(w.pc)
  {
    hide HistoryOk, StoresOk, PcOk, GatherCall, CheckCall, LockCall, DeployCall, Write, OneMore, Gatherable,
         HashGatherable, CreateHash;
    assert w.hist != [] by { Shape.Indexed(w); }
    assert Accepts(w, w.pc.base);
  }

  lemma LockOn(w0: World, s: State, w: World, n: string)
    requires Ready(w0, s) && On(w0, s, w, n) && w.pc.Locking? && w.hist != [] && n != "" && n !in w0.runs
    requires w0.hist != [] && w0.Current() == s
    ensures var w' := LockCall(w, Ok, w.pc.base, w.pc.obj, w.pc.input, w.pc.hash);
            On(w0, s, w', n) && Rank(w'.pc) < Rank(w.pc)
  {
    hide Lookups, Write, Gatherable, HashGatherable, CreateHash;
  }

  lemma DeployOn(w0: World, s: State, w: World, n: string)
    requires Ready(w0, s) && On(w0, s, w, n) && w.pc.Deploying? && Sane(w)
    ensures var Deploying(base, obj, input, hash, stage) := w.pc;
            var w' := DeployCall(w, GoodCall(w.pc, n), base, obj, input, hash, stage);
            On(w0, s, w', n) && Rank(w'.pc) < Rank(w.pc)
  {
    hide Lookups, Gatherable, HashGatherable, CreateHash, HistoryOk, PcOk, StageEffect, Underway, NewExecution;
    var Deploying(base, obj, input, hash, stage) := w.pc;
    StageOn(w0, w, s, obj, input, n, stage);
  }

  lemma StageOn(w0: World, w: World, s: State, obj: State, input: Input, n: string, stage: Stage)
    requires Underway(w0.runs, w.runs, n, s, stage) && StoresOk(w.runs, w.deps.modules)
    requires IsInt32(obj.spec.version) && obj.deleting == s.deleting
    requires obj.spec.autoConfirm == s.spec.autoConfirm && input.image == s.spec.image
    ensures var o := if stage.MakeExecution? then Named(n) else Ok;
            && !StageFails(w.runs, o, stage)
            && var w', next := StageEffect(w, o, obj, input, stage), NextStage(o, stage);
               if next.Some? then Underway(w0.runs, w'.runs, n, s, next.value) && StageRank(next.value) < StageRank(stage)
               else stage.Adopt? && stage.run == n && OneMore(w0.runs, w'.runs, n, s, true)
  {
    hide InputHash, E.Step, NewExecution, StageAct, StageEffect, OneMore, Underway, GoodRun;
    InOneMore(w0.runs, w.runs, n, s, stage);
    if stage.MakeExecution? {
      NewOn(w, s, obj, input, n);
      A.CreatedEffect(w, n, obj, input);
      OneMoreSet(w0.runs, w0.runs, n, s, NewExecution(w, n, obj, input), NameSecret(n), false);
    } else {
      ActOn(w.runs[n], s, obj, input, stage);
      A.EffectIs(w, Ok, obj, input, stage);
      var next := NextStage(Ok, stage);
      OneMoreSet(w0.runs, w.runs, n, s, E.Step(w.runs[n], StageAct(obj, input, stage)),
                 if next.Some? then next.value else stage, next.None?);
    }
  }

  // What is known of the run under way, and how it carries over to what it becomes.
  lemma InOneMore(runs0: map<string, E.Run>, runs: map<string, E.Run>, n: string, s: State, stage: Stage)
    requires Underway(runs0, runs, n, s, stage)
    ensures n != "" && n !in runs0
    ensures if stage.MakeExecution? then runs == runs0
            else stage.run == n && n in runs && GoodRun(runs[n], s) && runs == runs0[n := runs[n]]
                 && (stage.Adopt? ==> runs[n].job.Some?) && (stage.NameSecret? ==> |runs[n].hist| == 1)
  {
  }

  lemma OneMoreSet(runs0: map<string, E.Run>, runs: map<string, E.Run>, n: string, s: State, r: E.Run,
                   next: Stage, last: bool)
    requires n != "" && n !in runs0 && GoodRun(r, s)
    requires runs == runs0 || (n in runs && runs == runs0[n := runs[n]])
    requires next.Adopt? || last ==> r.job.Some?
    requires next.NameSecret? ==> |r.hist| == 1
    requires !next.MakeExecution? && next.run == n
    ensures Underway(runs0, runs[n := r], n, s, next) && (last ==> OneMore(runs0, runs[n := r], n, s, true))
  {
    hide GoodRun;
    assert runs[n := r] == runs0[n := r];
  }

  lemma NewOn(w: World, s: State, obj: State, input: Input, n: string)
    requires IsInt32(obj.spec.version) && obj.deleting == s.deleting && obj.spec.autoConfirm == s.spec.autoConfirm
    ensures GoodRun(NewExecution(w, n, obj, input), s) && |NewExecution(w, n, obj, input).hist| == 1
  {
    hide InputHash;
  }

  lemma ActOn(r: E.Run, s: State, obj: State, input: Input, stage: Stage)
    requires GoodRun(r, s) && !stage.MakeExecution? && input.image == s.spec.image
    requires stage.NameSecret? ==> |r.hist| == 1
    requires stage.Adopt? ==> r.job.Some?
    ensures r.hist != [] && !r.deleted
    ensures var r' := E.Step(r, StageAct(obj, input, stage));
            GoodRun(r', s) && (stage.MakeJob? || stage.Adopt? ==> r'.job.Some?)
  {
    hide E.GoStep;
  }

  // ---- The whole pass.

  lemma CallOn(w0: World, s: State, w: World, n: string)
    requires Ready(w0, s) && w0.hist != [] && w0.Current() == s && n != "" && n !in w0.runs
    requires Sane(w) && On(w0, s, w, n) && w.pc != Idle
    ensures var w' := Step(w, Call(GoodCall(w.pc, n)));
            On(w0, s, w', n) && Rank(w'.pc) < Rank(w.pc)
  {
    hide Sane, On, Ready, Rank, GatherCall, CheckCall, DeployCall, LockCall, Write;
    assert w.hist != [] by { Shape.Indexed(w); }
    match w.pc
    case Gathering(_, _, _) => GatherOn(w0, s, w, n);
    case Checking(_, _, _) => CheckOn(w0, s, w, n);
    case Deploying(_, _, _, _, _) => DeployOn(w0, s, w, n);
    case Locking(_, _, _, _) => LockOn(w0, s, w, n);
    case Releasing(_, _) => NeverReleasing(w0, s, w, n);
    case _ => UpdateOn(w0, s, w, n);
  }

  lemma NeverReleasing(w0: World, s: State, w: World, n: string)
    requires Ready(w0, s) && On(w0, s, w, n)
    ensures !w.pc.Releasing?
  {
  }

  lemma {:induction false} CallsOn(w0: World, s: State, w: World, n: string) returns (k: nat)
    requires Ready(w0, s) && w0.hist != [] && w0.Current() == s && n != "" && n !in w0.runs
    requires Sane(w) && On(w0, s, w, n)
    ensures Calls(w, n, k).pc == Idle && Passed(w0, s, Calls(w, n, k), n)
    decreases Rank(w.pc)
  {
    hide Sane, Ready, Rank, Step, Passed;
    k := 0;
    if w.pc == Idle {
    } else {
      CallOn(w0, s, w, n);
      Shape.StepKeepsSane(w, Call(GoodCall(w.pc, n)));
      k := CallsOn(w0, s, Step(w, Call(GoodCall(w.pc, n))), n);
      k := k + 1;
    }
  }

  // The key is queued and the cache is up to date.
  predicate AtRest(w: World) {
    w.hist != [] && w.pc == Idle && w.queued && w.cached == w.Top()
  }

  // A pass with every call successful ends, and this is all it does.
  lemma OnePass(w: World, n: string) returns (k: nat)
    requires Sane(w) && AtRest(w) && Ready(w, w.Current()) && n != "" && n !in w.runs
    ensures Sane(Step(w, Start))
    ensures Calls(Step(w, Start), n, k).pc == Idle && Passed(w, w.Current(), Calls(Step(w, Start), n, k), n)
  {
    hide Sane, Passed, CreateHash, Gatherable, HashGatherable;
    Shape.StepKeepsSane(w, Start);
    k := CallsOn(w, w.Current(), Step(w, Start), n);
  }

  // ---- Pass after pass.

  // Between two passes pods may get on with the runs, and the State is looked at again.
  predicate RunsMove(runs: map<string, E.Run>, runs': map<string, E.Run>) {
    && runs'.Keys == runs.Keys
    && forall n :: n in runs && runs[n].hist != [] ==>
         && runs'[n].hist != [] && (!runs[n].deleted ==> !runs'[n].deleted)
         && (runs[n].Current().applied ==> runs'[n].Current().applied)
  }

  ghost predicate Again(w: World, w': World) {
    && Sane(w') && AtRest(w') && w'.hist == w.hist && w'.deps == w.deps && w'.name == w.name
    && RunsMove(w.runs, w'.runs)
  }

  ghost predicate Round(w: World, w': World, n: string) {
    && Sane(w) && AtRest(w) && n != "" && n !in w.runs
    && exists k: nat :: RoundIn(w, w', n, k)
  }

  ghost predicate RoundIn(w: World, w': World, n: string, k: nat)
    requires Sane(w)
  {
    Shape.StepKeepsSane(w, Start);
    var v := Calls(Step(w, Start), n, k);
    v.pc == Idle && Again(v, w')
  }

  // How far a State is from rest: its hash is not the one asked for; it tracks a run that
  // is not finished; its job flag is up.
  ghost function Measure(w: World, s: State): nat
    requires Ready(w, s)
  {
    (if HashDiffers(w, s) then 4 else 0) +
    (if s.Tracking() && !Finished(w, s) then 2 else 0) +
    (if s.status.jobDeployed == IsTrue then 1 else 0)
  }

  lemma {:induction false} IdleStays(w: World, n: string, k: nat)
    requires Sane(w) && w.pc == Idle
    ensures Calls(w, n, k) == w
    decreases k
  {
    hide Sane;
    if k == 0 {
    } else {
      IdleStays(w, n, k - 1);
    }
  }

  // So it does not matter how many calls are counted once the worker is idle.
  lemma {:induction false} IdleIsFinal(w: World, n: string, j: nat, k: nat)
    requires Sane(w) && Calls(w, n, j).pc == Idle && Calls(w, n, k).pc == Idle
    ensures Calls(w, n, j) == Calls(w, n, k)
    decreases j
  {
    hide Sane, Step;
    if w.pc == Idle {
      IdleStays(w, n, j);
      IdleStays(w, n, k);
    } else {
      Shape.StepKeepsSane(w, Call(GoodCall(w.pc, n)));
      IdleIsFinal(Step(w, Call(GoodCall(w.pc, n))), n, j - 1, k - 1);
    }
  }

  lemma SameLookupsSameHash(d: Deps, spec: StateSpec, spec': StateSpec)
    requires spec' == spec.(image := spec'.image, version := spec'.version)
    requires IsInt32(spec.version) && IsInt32(spec'.version) && HashGatherable(d, spec)
    ensures Lookups(spec') == Lookups(spec) && HashGatherable(d, spec')
    ensures Normal(spec'.version) == Normal(spec.version) ==> CreateHash(d, spec') == CreateHash(d, spec)
  {
    hide Fetch;
    var ls := HashedLookups(spec);
    assert HashedLookups(spec') == ls;
  }

  // What a round comes to.
  lemma RoundEnds(w: World, w': World, n: string) returns (v: World)
    requires Round(w, w', n) && Ready(w, w.Current())
    ensures Passed(w, w.Current(), v, n) && Again(v, w')
  {
    hide Sane, Step, Passed, Again, Ready;
    var k: nat :| RoundIn(w, w', n, k);
    Shape.StepKeepsSane(w, Start);
    var j := OnePass(w, n);
    IdleIsFinal(Step(w, Start), n, j, k);
    v := Calls(Step(w, Start), n, k);
  }

  // Such a round can always be had: the pass ends, and the informer catches up.
  lemma RoundExists(w: World, n: string) returns (w': World)
    requires Sane(w) && AtRest(w) && Ready(w, w.Current()) && n != "" && n !in w.runs
    ensures Round(w, w', n)
  {
    hide Step, Passed, Ready;
    Shape.StepKeepsSane(w, Start);
    var k := OnePass(w, n);
    CallsSane(Step(w, Start), n, k);
    var v := Calls(Step(w, Start), n, k);
    Shape.Indexed(v);
    w' := v.(cached := v.Top(), queued := true);
    assert RoundIn(w, w', n, k);
  }

  lemma {:induction false} CallsSane(w: World, n: string, k: nat)
    requires Sane(w)
    ensures Sane(Calls(w, n, k))
    decreases k
  {
    hide Sane, Step;
    if k == 0 {
    } else {
      Shape.StepKeepsSane(w, Call(GoodCall(w.pc, n)));
      CallsSane(Step(w, Call(GoodCall(w.pc, n))), n, k - 1);
    }
  }

  // A State that had its input still has it after a round.
  lemma StillReady(w: World, s: State, v: World, w': World, n: string)
    requires Ready(w, s) && Passed(w, s, v, n) && Again(v, w') && w.hist != [] && w.Current() == s
    requires s.Tracking() ==> w.runs[s.status.executionName].hist != []
    ensures w'.hist != [] && Ready(w', w'.Current())
    ensures Hash(w', w'.Current()) == Hash(w, s)
  {
    hide Fetch, Lookups, HashGatherable, CreateHash, Sane;
    var s' := w'.Current();
    SameLookupsSameHash(w.deps, s.spec, s'.spec);
  }

  lemma HaveHistory(w: World)
    requires Sane(w)
    ensures forall n :: n in w.runs ==> w.runs[n].hist != []
  {
  }

  ghost predicate Descends(w: World, s: State, w': World, s': State, n: string)
    requires Ready(w, s) && Ready(w', s')
  {
    && Measure(w', s') <= Measure(w, s)
    && (w'.hist == w.hist <==> !HashDiffers(w, s) && !Finished(w, s))
    && (w'.hist != w.hist ==> Measure(w', s') < Measure(w, s))
    && w'.runs.Keys == w.runs.Keys + (if HashDiffers(w, s) && !Finished(w, s) then {n} else {})
    && (HashDiffers(w', s') <==> HashDiffers(w, s) && Finished(w, s))
    && !(HashDiffers(w', s') && Finished(w', s'))
  }

  lemma PassDescends(w: World, s: State, v: World, w': World, n: string)
    requires Ready(w, s) && w.hist != [] && w.Current() == s && Passed(w, s, v, n)
    requires w'.hist == v.hist && RunsMove(v.runs, w'.runs)
    requires Ready(w', w'.Current()) && Hash(w', w'.Current()) == Hash(w, s) && |Hash(w, s)| == 10
    requires s.Tracking() ==> w.runs[s.status.executionName].hist != []
    ensures Descends(w, s, w', w'.Current(), n)
  {
    hide Ready, Hash, Imaged, Normalised;
    if Finished(w, s) {
      assert v.Current().status.jobDeployed != s.status.jobDeployed;
    } else if HashDiffers(w, s) {
      assert v.Current().status.lastRunHash == Hash(w, s) != s.status.lastRunHash;
    }
  }

  // Every round either leaves the State as it is, because it is at rest, or takes it
  // closer to rest; an Execution is created exactly when the hash differs and no finished
  // run is still to be cleared.
  lemma RoundDescends(w: World, w': World, n: string)
    requires Round(w, w', n) && Ready(w, w.Current())
    ensures w'.hist != [] && Ready(w', w'.Current()) && Descends(w, w.Current(), w', w'.Current(), n)
  {
    hide Step, Passed, Ready, Hash, Descends, HistoryOk, StoresOk, PcOk, RoundIn;
    var v := RoundEnds(w, w', n);
    HaveHistory(w);
    if w.Current().Tracking() { TrackedRun(w, w.Current()); }
    StillReady(w, w.Current(), v, w', n);
    HashLength(w, w.Current());
    PassDescends(w, w.Current(), v, w', n);
  }

  lemma TrackedRun(w: World, s: State)
    requires Ready(w, s) && s.Tracking()
    ensures s.status.executionName in w.runs
  {
  }

  lemma HashLength(w: World, s: State)
    requires Ready(w, s)
    ensures |Hash(w, s)| == 10
  {
  }

  // ---- Main results.

  ghost predicate Rounds(ws: seq<World>, ns: seq<string>) {
    && |ws| == |ns| + 1
    && Sane(ws[0]) && AtRest(ws[0]) && Ready(ws[0], ws[0].Current())
    && forall i :: 0 <= i < |ns| ==> Round(ws[i], ws[i + 1], ns[i])
  }

  function Changes(ws: seq<World>): nat {
    if |ws| <= 1 then 0
    else Changes(ws[..|ws| - 1]) + if ws[|ws| - 1].hist == ws[|ws| - 2].hist then 0 else 1
  }

  // However long it goes on: the State changes no more often than the measure allows, and
  // Executions are created once, when the hash is not the one asked for, or not at all.
  // After two passes, or one that had no finished run to clear, the hash is right for good.
  lemma {:induction false} Converges(ws: seq<World>, ns: seq<string>)
    requires Rounds(ws, ns)
    ensures var first, last := ws[0], ws[|ns|];
            && last.hist != [] && Ready(last, last.Current())
            && Measure(last, last.Current()) + Changes(ws) <= Measure(first, first.Current())
            && first.runs.Keys <= last.runs.Keys
            && |last.runs.Keys| + (if HashDiffers(last, last.Current()) then 1 else 0)
               == |first.runs.Keys| + (if HashDiffers(first, first.Current()) then 1 else 0)
            && (|ns| > 1 || (|ns| > 0 && !Finished(first, first.Current())) ==> !HashDiffers(last, last.Current()))
            && (|ns| > 0 ==> !(HashDiffers(last, last.Current()) && Finished(last, last.Current())))
    decreases |ns|
  {
    hide Sane, Ready, Measure, HashDiffers, Finished, Descends, Again;
    if ns == [] {
    } else {
      var ws', ns' := ws[..|ns|], ns[..|ns| - 1];
      RoundsFront(ws, ns);
      Converges(ws', ns');
      RoundDescends(ws[|ns| - 1], ws[|ns|], ns[|ns| - 1]);
      OneStep(ws[|ns| - 1], ws[|ns|], ns[|ns| - 1]);
    }
  }

  lemma RoundsFront(ws: seq<World>, ns: seq<string>)
    requires Rounds(ws, ns) && ns != []
    ensures Rounds(ws[..|ns|], ns[..|ns| - 1])
  {
    hide Sane, Ready, Round;
    var ws', ns' := ws[..|ns|], ns[..|ns| - 1];
    forall i | 0 <= i < |ns'| ensures Round(ws'[i], ws'[i + 1], ns'[i]) {
      assert Round(ws[i], ws[i + 1], ns[i]);
    }
  }

  lemma OneStep(w: World, w': World, n: string)
    requires w.hist != [] && w'.hist != [] && Ready(w, w.Current()) && Ready(w', w'.Current())
    requires Descends(w, w.Current(), w', w'.Current(), n) && n !in w.runs
    ensures Measure(w', w'.Current()) + (if w'.hist == w.hist then 0 else 1) <= Measure(w, w.Current())
    ensures w.runs.Keys <= w'.runs.Keys
    ensures |w'.runs.Keys| + (if HashDiffers(w', w'.Current()) then 1 else 0)
         == |w.runs.Keys| + (if HashDiffers(w, w.Current()) then 1 else 0)
    ensures HashDiffers(w', w'.Current()) ==> HashDiffers(w, w.Current()) && Finished(w, w.Current())
    ensures !(HashDiffers(w', w'.Current()) && Finished(w', w'.Current()))
  {
    hide Ready, Measure, HashDiffers, Finished;
    assert n !in w.runs.Keys;
  }

  // runState asks for a new run and gets exactly one, whatever int32 the version was: the
  // increment may wrap around, and versions below 1 all hash as 1.
  lemma RunStateDeploysOnce(w: World, ws: seq<World>, ns: seq<string>)
    requires Sane(w) && w.hist != [] && !w.Gone()
    requires Rounds(ws, ns) && |ns| > 0
    requires ws[0].deps == w.deps && ws[0].name == w.name && ws[0].hist == Step(w, ResetRun(w.Top())).hist
    ensures ws[|ns|].runs.Keys >= ws[0].runs.Keys && |ws[|ns|].runs.Keys| == |ws[0].runs.Keys| + 1
    ensures ws[|ns|].hist != [] && Ready(ws[|ns|], ws[|ns|].Current())
    ensures !HashDiffers(ws[|ns|], ws[|ns|].Current())
  {
    hide Sane, Ready, Round, Measure, HashDiffers, Finished, Step, Rounds;
    ResetForgets(w);
    RoundsStart(ws, ns);
    AskedAnew(ws[0], ws[0].Current());
    Converges(ws, ns);
  }

  lemma RoundsStart(ws: seq<World>, ns: seq<string>)
    requires Rounds(ws, ns)
    ensures |ws| == |ns| + 1 && ws[0].hist != [] && Ready(ws[0], ws[0].Current())
  {
    hide Sane, Ready, Round;
  }

  lemma AskedAnew(w: World, s: State)
    requires Ready(w, s) && s.status.lastRunHash == "" && s.status.jobDeployed == IsFalse
    ensures HashDiffers(w, s) && !Finished(w, s)
  {
    HashLength(w, s);
  }

  lemma ResetForgets(w: World)
    requires Sane(w) && w.hist != [] && !w.Gone()
    ensures var hist := Step(w, ResetRun(w.Top())).hist;
            hist != [] && hist[|hist| - 1].status.lastRunHash == "" && hist[|hist| - 1].status.jobDeployed == IsFalse
  {
    hide StoresOk, PcOk;
  }

  // The default image is filled in after the input has been gathered: a State without an
  // image ends the pass with the default one, and its first Job has none.
  lemma FirstJobHasNoImage(w: World, n: string) returns (k: nat)
    requires Sane(w) && AtRest(w) && Ready(w, w.Current()) && n != "" && n !in w.runs
    requires w.Current().spec.image == "" && HashDiffers(w, w.Current()) && !Finished(w, w.Current())
    ensures Sane(Step(w, Start))
    ensures var v := Calls(Step(w, Start), n, k);
            && v.pc == Idle && v.hist != [] && v.Current().spec.image == DEFAULT_IMAGE
            && n in v.runs && v.runs[n].job.Some? && v.runs[n].job.value.image == ""
  {
    hide Sane, Step, Ready, HashDiffers, Finished;
    k := OnePass(w, n);
  }
}
