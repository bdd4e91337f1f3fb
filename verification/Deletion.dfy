// A deletion that is left alone gets done: with the inputs there and every call and command
// successful, a deleted State is gone after two passes at most, and the destroy it asked
// for has come first.
module Deletion {
  import opened Basics
  import opened Inputs
  import opened Reconciler
  import A = ApiServer
  import C = Convergence
  import Deployment
  import E = Executor
  import G = Guarantees
  import P = Progress
  import Shape

  // ---- Worlds that come about with everything going well.

  // Passes, calls that work, the informer, and pods whose calls and commands work.
  predicate Quiet(a: Action) {
    || a.Start? || (a.Call? && (a.outcome.Ok? || a.outcome.Named?)) || a.Deliver?
    || (a.RunAct? && (a.runAct.Boot? || (a.runAct.Go? && a.runAct.ok) || a.runAct.Observe?))
  }

  function Passes(actions: seq<Action>): nat {
    if actions == [] then 0 else (if actions[0].Start? then 1 else 0) + Passes(actions[1..])
  }

  ghost predicate Comes(w: World, w': World, passes: nat) {
    Sane(w) && exists actions :: QuietRun(w, actions, w', passes)
  }

  ghost predicate QuietRun(w: World, actions: seq<Action>, w': World, passes: nat)
    requires Sane(w)
  {
    (forall i :: 0 <= i < |actions| ==> Quiet(actions[i])) && Passes(actions) == passes && Shape.Run(w, actions) == w'
  }

  lemma {:induction false} PassesAppend(a: seq<Action>, b: seq<Action>)
    ensures Passes(a + b) == Passes(a) + Passes(b)
  {
    if a == [] {
      assert a + b == b;
    } else {
      PassesAppend(a[1..], b);
      assert (a + b)[1..] == a[1..] + b;
    }
  }

  lemma ComesItself(w: World)
    requires Sane(w)
    ensures Comes(w, w, 0)
  {
    hide Sane, Step;
    var none: seq<Action> := [];
    assert QuietRun(w, none, w, 0);
  }

  lemma ComesTransitive(w: World, v: World, u: World, p: nat, q: nat)
    requires Comes(w, v, p) && Comes(v, u, q)
    ensures Comes(w, u, p + q)
  {
    hide Sane, Step, Quiet, Passes, Shape.Run;
    var a :| QuietRun(w, a, v, p);
    var b :| QuietRun(v, b, u, q);
    A.RunAppend(w, a, b);
    PassesAppend(a, b);
    var c := a + b;
    assert forall i :: 0 <= i < |c| ==> Quiet(c[i]);
    assert QuietRun(w, c, u, p + q);
  }

  lemma ComesOne(w: World, a: Action)
    requires Sane(w) && Quiet(a)
    ensures Sane(Step(w, a)) && Comes(w, Step(w, a), if a.Start? then 1 else 0)
  {
    hide Sane, Step, Quiet;
    Shape.StepKeepsSane(w, a);
    assert [a][1..] == [] && Passes([a]) == if a.Start? then 1 else 0;
    assert Shape.Run(w, [a]) == Step(w, a);
    assert QuietRun(w, [a], Step(w, a), if a.Start? then 1 else 0);
  }

  lemma ComesReaches(w: World, w': World, passes: nat)
    requires Comes(w, w', passes)
    ensures A.Reaches(w, w')
  {
    hide Sane, Step, Shape.Run;
    var actions :| QuietRun(w, actions, w', passes);
  }

  lemma {:induction false} CallsCome(w: World, n: string, k: nat)
    requires Sane(w)
    ensures Comes(w, C.Calls(w, n, k), 0) && Sane(C.Calls(w, n, k))
    decreases k
  {
    hide Sane, Step, Comes;
    if k == 0 {
      ComesItself(w);
    } else {
      var a := Call(C.GoodCall(w.pc, n));
      ComesOne(w, a);
      CallsCome(Step(w, a), n, k - 1);
      ComesTransitive(w, Step(w, a), C.Calls(w, n, k), 0, 0);
    }
  }

  // Pods move one run; the rest of the world stays as it is.
  lemma {:induction false} Driven(w: World, n: string, actions: seq<E.Action>) returns (w': World)
    requires Sane(w) && n in w.runs && P.PodActions(actions)
    ensures w.runs[n].hist != [] && Sane(w') && Comes(w, w', 0)
    ensures w' == w.(runs := w.runs[n := E.Steps(w.runs[n], actions)], runEvents := w'.runEvents)
    decreases |actions|
  {
    hide Sane, Step, E.Step, Comes;
    C.HaveHistory(w);
    if actions == [] {
      w' := w;
      ComesItself(w);
      assert w.runs[n := w.runs[n]] == w.runs;
    } else {
      ComesOne(w, RunAct(n, actions[0]));
      var w1 := Step(w, RunAct(n, actions[0]));
      PodMoves(w, n, actions[0]);
      w' := Driven(w1, n, actions[1..]);
      ComesTransitive(w, w1, w', 0, 0);
      assert w.runs[n := w1.runs[n]][n := w'.runs[n]] == w.runs[n := w'.runs[n]];
    }
  }

  lemma PodMoves(w: World, n: string, act: E.Action)
    requires Sane(w) && n in w.runs && (act.Boot? || act.Go? || act.Observe?) && w.runs[n].hist != []
    ensures var w' := Step(w, RunAct(n, act));
            w' == w.(runs := w.runs[n := E.Step(w.runs[n], act)], runEvents := w'.runEvents)
  {
    hide HistoryOk, PcOk, E.Step;
  }

  // ---- Release.

  // A deleted State at the start of a pass, with nothing left to wait for: it asks for no
  // destroy, or the run it tracks has been Applied.
  ghost predicate Free(w: World) {
    && C.AtRest(w) && w.Current().deleting && w.Current().finalizer
    && IsInt32(w.Current().spec.version) && Gatherable(w.deps, w.Current().spec)
    && (Owes(w.Current()) ==> C.Finished(w, w.Current()))
  }

  // A destroy is still called for.
  predicate Owes(s: State) {
    s.spec.destroyOnDelete && s.status.destroyed != IsTrue
  }

  ghost predicate SameStore(w: World, w': World) {
    w'.hist == w.hist && w'.runs == w.runs && w'.deps == w.deps && w'.deletedAt == w.deletedAt
  }

  // Whatever kind of run that is, the pass lets the State go.
  lemma FreeIsReleased(w: World) returns (w': World)
    requires Sane(w) && Free(w)
    ensures Sane(w') && Comes(w, w', 1) && w'.runs == w.runs && w'.hist != [] && w'.Gone()
    ensures w.hist <= w'.hist && w'.deletedAt == w.deletedAt
  {
    hide Sane, Step, Comes, Free, Shape.Run;
    ComesOne(w, Start);
    var w1 := Step(w, Start);
    FreeBegins(w);
    var w2 := FreeGathers(w, w1);
    var w3 := w2;
    if w2.pc.Checking? {
      ComesOne(w2, Call(Ok));
      w3 := Step(w2, Call(Ok));
      FreeChecks(w, w2);
    } else {
      ComesItself(w2);
    }
    ComesOne(w3, Call(Ok));
    w' := Step(w3, Call(Ok));
    Releases(w, w3);
    ComesTransitive(w, w1, w2, 1, 0);
    ComesTransitive(w, w2, w3, 1, 0);
    ComesTransitive(w, w3, w', 1, 0);
  }

  // About to take the finalizer off.
  predicate Releasing(w: World, v: World)
    requires w.hist != []
  {
    v.pc.Releasing? && v.pc.base == w.Top() && (v.pc.obj == w.Current() || v.pc.obj == Informed(w.Current()))
  }

  predicate Checking(w: World, v: World)
    requires w.hist != []
  {
    v.pc.Checking? && v.pc.base == w.Top() && v.pc.obj == Informed(w.Current()) && Owes(w.Current())
  }

  ghost predicate Collecting(w: World, v: World) {
    && Free(w) && SameStore(w, v) && v.pc.Gathering? && v.pc.base == w.Top() && v.pc.obj == w.Current()
    && |v.pc.items| < |Lookups(w.Current().spec)|
  }

  lemma FreeBegins(w: World)
    requires Sane(w) && Free(w)
    ensures var w' := Step(w, Start); Collecting(w, w')
  {
    hide Sane, Fetch, HashedLookups, OtherLookups;
  }

  // One Get after the other, until the Execution is next or nothing is.
  lemma {:induction false} FreeGathers(w: World, v: World) returns (v': World)
    requires Sane(v) && Collecting(w, v)
    ensures Sane(v') && Comes(v, v', 0) && w.hist != []
    ensures SameStore(w, v') && (Releasing(w, v') || Checking(w, v'))
    decreases |Lookups(w.Current().spec)| - |v.pc.items|
  {
    hide Sane, Step, Comes, Free, Shape.Run, Lookups;
    ComesOne(v, Call(Ok));
    v' := Step(v, Call(Ok));
    CollectsOne(w, v);
    if v'.pc.Gathering? {
      var next := v';
      v' := FreeGathers(w, next);
      ComesTransitive(v, next, v', 0, 0);
    }
  }

  lemma CollectsOne(w: World, v: World)
    requires Sane(v) && Collecting(w, v)
    ensures var v' := Step(v, Call(Ok));
            SameStore(w, v')
            && if v'.pc.Gathering? then Collecting(w, v') && |v'.pc.items| == |v.pc.items| + 1
               else Releasing(w, v') || Checking(w, v')
  {
    hide HistoryOk, PcOk, StoresOk, InputHash, Lookups, Assemble, Fetch, Matches, CheckCall, DeployCall,
         LockCall, RunApplied, Decide, Gatherable, AfterGather;
    var spec := w.Current().spec;
    assert Fetch(v.deps, Lookups(spec)[|v.pc.items|]).Some? by { GatherableAt(w.deps, spec, |v.pc.items|); }
    assert Matches(spec, v.pc.items) by { InHandFits(v); }
    Shape.ItemFits(spec, v.pc.items, v.deps);
    var items := v.pc.items + [Fetch(v.deps, Lookups(spec)[|v.pc.items|]).value];
    if |items| == |Lookups(spec)| { FreeChecksNext(v, items); }
  }

  lemma GatherableAt(d: Deps, spec: StateSpec, i: nat)
    requires Gatherable(d, spec) && i < |Lookups(spec)|
    ensures Fetch(d, Lookups(spec)[i]).Some?
  {
    hide Lookups, Fetch;
    assert Lookups(spec)[i] in Lookups(spec);
  }

  lemma FreeChecksNext(v: World, items: seq<Item>)
    requires v.pc.Gathering? && v.pc.obj.deleting && (Owes(v.pc.obj) ==> v.pc.obj.Tracking())
    requires IsInt32(v.pc.obj.spec.version)
    requires Matches(v.pc.obj.spec, items) && |items| == |Lookups(v.pc.obj.spec)|
    ensures AfterGather(v, v.pc.base, v.pc.obj, items)
         == if Owes(v.pc.obj) then v.(pc := Pc.Checking(v.pc.base, Informed(v.pc.obj), items))
            else v.(pc := Pc.Releasing(v.pc.base, v.pc.obj))
  {
    hide Lookups, Matches, InputHash, Assemble;
  }

  lemma InHandFits(w: World)
    requires Sane(w) && w.pc.Gathering?
    ensures Matches(w.pc.obj.spec, w.pc.items)
  {
    hide HistoryOk, StoresOk, Matches;
  }

  lemma FreeChecks(w: World, v: World)
    requires Free(w) && Sane(v) && SameStore(w, v) && Checking(w, v)
    ensures var v' := Step(v, Call(Ok)); SameStore(w, v') && Releasing(w, v')
  {
    hide HistoryOk, StoresOk, Lookups, Fetch;
  }

  lemma Releases(w: World, v: World)
    requires Free(w) && Sane(v) && SameStore(w, v) && Releasing(w, v)
    ensures var v' := Step(v, Call(Ok));
            v'.runs == w.runs && v'.hist != [] && v'.Gone() && w.hist <= v'.hist && v'.deletedAt == w.deletedAt
  {
    hide Sane, Step, Gatherable, RunApplied, A.UpdateEnds;
    A.Updated(v, true, w.Top(), v.pc.obj.(finalizer := false));
  }

  // ---- The pass that deploys the destroy.

  // A deleted State at the start of a pass that tracks nothing yet.
  ghost predicate Unstarted(w: World) {
    && C.AtRest(w) && w.Current().deleting && w.Current().finalizer && Owes(w.Current())
    && w.Current().status.jobDeployed != IsTrue
    && IsInt32(w.Current().spec.version) && Gatherable(w.deps, w.Current().spec)
  }

  function Marked(s: State, hash: string): State {
    Informed(s).(status := Informed(s).status.(lastRunHash := hash))
  }

  // What that pass leaves: the destroy run, tracked, with its Job in place.
  predicate Sent(w0: World, w: World, s: State, n: string) {
    && s.deleting && s.Tracking() && s.status.executionName == n
    && w0.hist != [] && s == w0.Current().(status := s.status) && s.status.destroyed == w0.Current().status.destroyed
    && C.OneMore(w0.runs, w.runs, n, w0.Current(), true)
  }

  ghost predicate On(w0: World, w: World, n: string) {
    && w0.hist != []
    && var s := w0.Current();
    && w.deps == w0.deps
    && match w.pc
       case Idle => w.queued && w.hist != [] && Sent(w0, w, w.Current(), n)
       case Gathering(base, obj, items) => C.Untouched(w0, w, base) && obj == s && |items| < |Lookups(s.spec)|
       case Locking(base, obj, input, hash) =>
         C.Untouched(w0, w, base) && obj == Marked(s, hash) && |hash| == 10 && input.image == s.spec.image
       case Deploying(base, obj, input, hash, stage) =>
         && w.hist != [] && base == w.Top() && w.Current() == obj == Marked(s, hash)
         && |hash| == 10 && input.image == s.spec.image && C.Underway(w0.runs, w.runs, n, s, stage)
       case Recording(base, obj, run) =>
         w.hist != [] && base == w.Top() && w.Current().finalizer && Sent(w0, w, obj, n)
       case _ => false
  }

  lemma GatherOn(w0: World, w: World, n: string)
    requires Unstarted(w0) && On(w0, w, n) && w.pc.Gathering? && Sane(w) && n != "" && n !in w0.runs
    ensures var w' := GatherCall(w, Ok, w.pc.base, w.pc.obj, w.pc.items);
            On(w0, w', n) && C.Rank(w'.pc) < C.Rank(w.pc)
  {
    hide Fetch, Lookups, HistoryOk, StoresOk, Matches, AfterGather;
    var Gathering(base, obj, items) := w.pc;
    var l := Lookups(obj.spec)[|items|];
    assert l in Lookups(obj.spec);
    Shape.ItemFits(obj.spec, items, w.deps);
    var items' := items + [Fetch(w.deps, l).value];
    if |items'| == |Lookups(obj.spec)| { LocksNext(w, base, obj, items'); }
  }

  lemma LocksNext(w: World, base: nat, s: State, items: seq<Item>)
    requires s.deleting && Owes(s) && s.status.jobDeployed != IsTrue && IsInt32(s.spec.version)
    requires Matches(s.spec, items) && |items| == |Lookups(s.spec)|
    ensures var w' := AfterGather(w, base, s, items);
            && w' == w.(pc := w'.pc) && w'.pc.Locking? && w'.pc.base == base && w'.pc.obj == Marked(s, w'.pc.hash)
            && |w'.pc.hash| == 10 && w'.pc.input.image == s.spec.image
  {
    hide Lookups, Matches, InputHash, Assemble;
    C.ImageAsRead(s.spec, items);
  }

  lemma LockOn(w0: World, w: World, n: string)
    requires Unstarted(w0) && On(w0, w, n) && w.pc.Locking? && w.hist != [] && n != "" && n !in w0.runs
    ensures var w' := LockCall(w, Ok, w.pc.base, w.pc.obj, w.pc.input, w.pc.hash);
            On(w0, w', n) && C.Rank(w'.pc) < C.Rank(w.pc)
  {
    hide Lookups, Write, Gatherable;
  }

  lemma DeployOn(w0: World, w: World, n: string)
    requires Unstarted(w0) && On(w0, w, n) && w.pc.Deploying? && Sane(w)
    ensures var Deploying(base, obj, input, hash, stage) := w.pc;
            var w' := DeployCall(w, C.GoodCall(w.pc, n), base, obj, input, hash, stage);
            On(w0, w', n) && C.Rank(w'.pc) < C.Rank(w.pc)
  {
    hide Lookups, Gatherable, HistoryOk, PcOk, StageEffect, C.Underway, NewExecution, C.OneMore;
    var Deploying(base, obj, input, hash, stage) := w.pc;
    C.StageOn(w0, w, w0.Current(), obj, input, n, stage);
  }

  lemma RecordOn(w0: World, w: World, n: string)
    requires Unstarted(w0) && On(w0, w, n) && w.pc.Recording? && Sane(w)
    ensures var w' := CallStep(w, Ok);
            On(w0, w', n) && C.Rank(w'.pc) < C.Rank(w.pc)
  {
    hide HistoryOk, StoresOk, PcOk, GatherCall, CheckCall, LockCall, DeployCall, Write, C.OneMore, Gatherable;
    assert Accepts(w, w.pc.base);
  }

  lemma CallOn(w0: World, w: World, n: string)
    requires Unstarted(w0) && n != "" && n !in w0.runs
    requires Sane(w) && On(w0, w, n) && w.pc != Idle
    ensures var w' := Step(w, Call(C.GoodCall(w.pc, n)));
            On(w0, w', n) && C.Rank(w'.pc) < C.Rank(w.pc)
  {
    hide Sane, On, C.Rank, Unstarted, GatherCall, DeployCall, LockCall, Write;
    assert w.hist != [] by { Shape.Indexed(w); }
    OnlyThese(w0, w, n);
    match w.pc
    case Gathering(_, _, _) => GatherOn(w0, w, n);
    case Locking(_, _, _, _) => LockOn(w0, w, n);
    case Deploying(_, _, _, _, _) => DeployOn(w0, w, n);
    case Recording(_, _, _) => RecordOn(w0, w, n);
  }

  lemma OnlyThese(w0: World, w: World, n: string)
    requires On(w0, w, n)
    ensures !w.pc.Checking? && !w.pc.Clearing? && !w.pc.Releasing?
  {
  }

  lemma {:induction false} CallsOn(w0: World, w: World, n: string) returns (k: nat)
    requires Unstarted(w0) && n != "" && n !in w0.runs
    requires Sane(w) && On(w0, w, n)
    ensures C.Calls(w, n, k).pc == Idle && On(w0, C.Calls(w, n, k), n)
    decreases C.Rank(w.pc)
  {
    hide Sane, C.Rank, Step, On, Unstarted;
    k := 0;
    if w.pc == Idle {
    } else {
      CallOn(w0, w, n);
      Shape.StepKeepsSane(w, Call(C.GoodCall(w.pc, n)));
      k := CallsOn(w0, Step(w, Call(C.GoodCall(w.pc, n))), n);
      k := k + 1;
    }
  }

  // Nothing is tracked: the pass deploys a destroy, and with the informer caught up the
  // State tracks it.
  lemma DestroyIsDeployed(w: World, n: string) returns (w': World)
    requires Sane(w) && Unstarted(w) && n != "" && n !in w.runs
    ensures Sane(w') && Comes(w, w', 1) && C.AtRest(w') && w'.deps == w.deps && Sent(w, w', w'.Current(), n)
  {
    hide Sane, Step, Comes, Sent, C.OneMore;
    ComesOne(w, Start);
    var w1 := Step(w, Start);
    UnstartedBegins(w, n);
    var k := CallsOn(w, w1, n);
    CallsCome(w1, n, k);
    var w2 := C.Calls(w1, n, k);
    ComesTransitive(w, w1, w2, 1, 0);
    Shape.Indexed(w2);
    w' := w2;
    if w2.cached < w2.Top() {
      ComesOne(w2, Deliver(w2.Top()));
      w' := Step(w2, Deliver(w2.Top()));
      Delivered(w2);
      ComesTransitive(w, w2, w', 1, 0);
      SentSame(w, w2, w', w2.Current(), n);
    }
  }

  lemma UnstartedBegins(w: World, n: string)
    requires Sane(w) && Unstarted(w)
    ensures On(w, Step(w, Start), n)
  {
    hide Sane, Fetch, HashedLookups, OtherLookups;
  }

  lemma SentSame(w0: World, w: World, w': World, s: State, n: string)
    requires Sent(w0, w, s, n) && w'.runs == w.runs
    ensures Sent(w0, w', s, n)
  {
    hide C.OneMore;
  }

  // The informer catches up.
  lemma Delivered(w: World)
    requires Sane(w) && w.hist != [] && w.cached < w.Top()
    ensures Step(w, Deliver(w.Top())) == w.(cached := w.Top(), queued := true)
  {
    hide Sane;
  }

  // ---- The tracked run is driven to its end.

  // A run whose pod can start and will not be held up.
  predicate CanFinish(r: E.Run) {
    r.hist != [] && !r.deleted && r.job.Some? && r.pc == E.Down && P.Settled(r.kind, r.Current())
  }

  lemma RunIsFinished(w: World, n: string) returns (w': World)
    requires Sane(w) && Shape.Reachable(w) && n in w.runs && CanFinish(w.runs[n])
    ensures Sane(w') && Shape.Reachable(w') && Comes(w, w', 0) && RunApplied(w', n)
    ensures w' == w.(runs := w'.runs, runEvents := w'.runEvents) && w'.runs.Keys == w.runs.Keys
    ensures w'.runs[n].kind == w.runs[n].kind && E.Inv(w'.runs[n])
  {
    hide Sane, E.Step, E.Inv, E.Steps, Comes, Shape.Reachable, Deployment.Inv, Deployment.Honest, P.PodActions, P.Settled;
    var r := w.runs[n];
    DeploymentHolds(w);
    G.RunIsSound(w, n);
    var actions := P.RunFinishes(r);
    w' := Driven(w, n, actions);
    ComesReaches(w, w', 0);
    A.ReachesKeepsReachable(w, w');
    StepsKeepKind(r, actions);
    DeploymentHolds(w');
    G.RunIsSound(w', n);
  }

  lemma DeploymentHolds(w: World)
    requires Shape.Reachable(w)
    ensures Deployment.Inv(w)
  {
    hide Deployment.Inv, Shape.Reachable;
    G.ReachableInv(w);
  }

  lemma {:induction false} StepsKeepKind(r: E.Run, actions: seq<E.Action>)
    requires r.hist != []
    ensures E.Steps(r, actions).kind == r.kind
    decreases |actions|
  {
    hide E.Step;
    if actions == [] {
    } else {
      StepsKeepKind(E.Step(r, actions[0]), actions[1..]);
    }
  }

  // ---- Main result.

  // A deleted State at the start of a pass that nothing is going to hold up: its inputs are
  // there, and its destroy - or the run it already tracks - may go ahead.
  ghost predicate Unhindered(w: World) {
    && C.AtRest(w) && w.Current().deleting && w.Current().finalizer
    && IsInt32(w.Current().spec.version) && Gatherable(w.deps, w.Current().spec)
    && var s := w.Current();
       Owes(s) ==>
         if s.Tracking() then
           C.Finished(w, s) || (s.status.executionName in w.runs && CanFinish(w.runs[s.status.executionName]))
         else s.spec.autoConfirm
  }

  // It is gone after two passes at most, with the pods getting on in between; and if a
  // destroy was called for and nothing tracked yet, that destroy has succeeded.
  lemma DeletionEnds(w: World, n: string) returns (w': World, passes: nat)
    requires Sane(w) && Shape.Reachable(w) && Unhindered(w) && n != "" && n !in w.runs
    ensures Comes(w, w', passes) && 1 <= passes <= 2 && w'.hist != [] && w'.Gone()
    ensures Owes(w.Current()) && !w.Current().Tracking() ==>
      passes == 2 && w'.runs.Keys == w.runs.Keys + {n} && w'.runs[n].kind.Destroy? && G.Destroyed(w'.runs[n])
    ensures !Owes(w.Current()) || C.Finished(w, w.Current()) ==> passes == 1 && w'.runs == w.runs
  {
    hide Sane, Comes, Shape.Reachable, CanFinish, C.Finished, G.Destroyed, E.Inv, Gatherable;
    var s := w.Current();
    if !Owes(s) || C.Finished(w, s) {
      FinishedTracks(w, s);
      w' := FreeIsReleased(w);
      passes := 1;
    } else if s.Tracking() {
      ComesItself(w);
      w' := TrackedEnds(w, w, 0);
      passes := 1;
    } else {
      w' := UnstartedEnds(w, n);
      passes := 2;
    }
  }

  lemma UnstartedEnds(w: World, n: string) returns (w': World)
    requires Sane(w) && Shape.Reachable(w) && Unhindered(w) && n != "" && n !in w.runs
    requires Owes(w.Current()) && !w.Current().Tracking()
    ensures Comes(w, w', 2) && w'.hist != [] && w'.Gone()
    ensures w'.runs.Keys == w.runs.Keys + {n} && w'.runs[n].kind.Destroy? && G.Destroyed(w'.runs[n])
  {
    hide Sane, Comes, Shape.Reachable, CanFinish, C.Finished, Sent, G.Destroyed, E.Inv, Gatherable;
    assert w.Current().status.jobDeployed != IsTrue by { G.SecondHashGuardUnreachable(w, w.Top()); }
    var w1 := DestroyIsDeployed(w, n);
    ComesReaches(w, w1, 1);
    A.ReachesKeepsReachable(w, w1);
    SentFinishes(w, w1, n);
    SentUnhindered(w, w1, n);
    w' := TrackedEnds(w, w1, 1);
    G.DestroyConcluded(w'.runs[n]);
  }

  lemma FinishedTracks(w: World, s: State)
    ensures C.Finished(w, s) ==> s.Tracking()
  {
  }

  // The run just deployed can finish, and is the only new one.
  lemma SentFinishes(w: World, w': World, n: string)
    requires w'.hist != [] && Sent(w, w', w'.Current(), n) && w.hist != [] && w.Current().spec.autoConfirm
    requires Shape.Reachable(w')
    ensures n in w'.runs && CanFinish(w'.runs[n]) && w'.runs.Keys == w.runs.Keys + {n} && n !in w.runs
    ensures w.Current().deleting ==> w'.runs[n].kind.Destroy?
  {
    hide Deployment.Inv, Deployment.Honest, Shape.Reachable, CanFinish, E.Inv;
    DeploymentHolds(w');
    G.RunIsSound(w', n);
    NewCanFinish(w'.runs[n], w.Current());
  }

  lemma NewCanFinish(r: E.Run, s: State)
    requires E.Inv(r) && C.GoodRun(r, s) && r.job.Some? && s.spec.autoConfirm
    ensures CanFinish(r)
  {
    hide E.Objects, E.Position;
    E.SpecFixed(r, r.Top());
  }

  lemma SentUnhindered(w: World, w': World, n: string)
    requires Unhindered(w) && Owes(w.Current()) && C.AtRest(w') && w'.deps == w.deps
    requires Sent(w, w', w'.Current(), n) && n in w'.runs && CanFinish(w'.runs[n])
    ensures Unhindered(w') && Owes(w'.Current()) && w'.Current().Tracking() && !C.Finished(w', w'.Current())
    ensures w'.Current().status.executionName == n
  {
    hide CanFinish, Gatherable;
  }

  lemma TrackedEnds(w0: World, w: World, passes: nat) returns (w': World)
    requires Comes(w0, w, passes) && Sane(w) && Shape.Reachable(w) && Unhindered(w)
    requires Owes(w.Current()) && w.Current().Tracking() && !C.Finished(w, w.Current())
    ensures Comes(w0, w', passes + 1) && w'.hist != [] && w'.Gone() && w'.runs.Keys == w.runs.Keys
    ensures var n := w.Current().status.executionName;
            n in w.runs && w'.runs[n].kind == w.runs[n].kind && E.Inv(w'.runs[n])
            && w'.runs[n].hist != [] && w'.runs[n].Current().applied
  {
    hide Sane, Comes, Shape.Reachable, CanFinish, Free, Gatherable, E.Inv;
    var n := w.Current().status.executionName;
    var w1 := RunIsFinished(w, n);
    NowFree(w1);
    w' := FreeIsReleased(w1);
    ComesTransitive(w0, w, w1, passes, 0);
    ComesTransitive(w0, w1, w', passes, 1);
  }

  lemma NowFree(w: World)
    requires C.AtRest(w) && w.Current().deleting && w.Current().finalizer
    requires IsInt32(w.Current().spec.version) && Gatherable(w.deps, w.Current().spec)
    requires w.Current().Tracking() && RunApplied(w, w.Current().status.executionName)
    ensures Free(w)
  {
  }
}
