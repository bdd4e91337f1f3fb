// The executor as it is written: pkg/executor/main.go and pkg/executor/runner/runner.go,
// with other people's writes coming between any two of its calls. Every step it takes is
// a step of the machine in module Executor, so what ExecutorSafety proves holds of it.
module Runner {
  import opened Basics
  import opened Retry
  import A = Approval
  import E = Executor

  // ---- Runs that reach one another.

  // What users, the controller and the garbage collector may do while a pod is working.
  predicate FromOutside(a: E.Action) {
    !a.MakeJob? && !a.Boot? && !a.Go? && !a.Observe? && !a.Crash?
  }

  // What happens while a pod is up and does not crash: its steps, and what others do.
  predicate WhileUp(a: E.Action) {
    FromOutside(a) || a.Go? || a.Observe?
  }

  ghost predicate Reaches(r: E.Run, r': E.Run) {
    r.hist != [] && exists actions ::
      (forall i :: 0 <= i < |actions| ==> WhileUp(actions[i])) && E.Steps(r, actions) == r'
  }

  ghost predicate Disturbs(r: E.Run, r': E.Run) {
    r.hist != [] && exists actions ::
      (forall i :: 0 <= i < |actions| ==> FromOutside(actions[i])) && E.Steps(r, actions) == r'
  }

  // A pod starts, after whatever came before it.
  ghost predicate Starts(r: E.Run, r': E.Run) {
    exists before :: Disturbs(r, before) && before.hist != [] && r' == E.Step(before, E.Boot)
  }

  // One whole pod, from its start on.
  ghost predicate OnePod(r: E.Run, r': E.Run) {
    exists up :: Starts(r, up) && Reaches(up, r')
  }

  lemma {:induction false} StepsAppend(r: E.Run, a: seq<E.Action>, b: seq<E.Action>)
    requires r.hist != []
    ensures E.Steps(r, a).hist != []
    ensures E.Steps(r, a + b) == E.Steps(E.Steps(r, a), b)
    decreases |a|
  {
    hide E.Step;
    if a == [] {
      assert a + b == b;
    } else {
      StepsAppend(E.Step(r, a[0]), a[1..], b);
      assert (a + b)[1..] == a[1..] + b;
    }
  }

  lemma ReachesItself(r: E.Run)
    requires r.hist != []
    ensures Reaches(r, r) && Disturbs(r, r)
  {
    var none: seq<E.Action> := [];
    assert E.Steps(r, none) == r;
  }

  lemma ReachesTransitive(r: E.Run, s: E.Run, t: E.Run)
    requires Reaches(r, s) && Reaches(s, t)
    ensures Reaches(r, t)
  {
    hide E.Step, E.Steps, WhileUp;
    var a :| (forall i :: 0 <= i < |a| ==> WhileUp(a[i])) && E.Steps(r, a) == s;
    var b :| (forall i :: 0 <= i < |b| ==> WhileUp(b[i])) && E.Steps(s, b) == t;
    StepsAppend(r, a, b);
    var c := a + b;
    assert forall i :: 0 <= i < |c| ==> WhileUp(c[i]);
  }

  lemma ReachesOne(r: E.Run, a: E.Action)
    requires r.hist != [] && WhileUp(a)
    ensures Reaches(r, E.Step(r, a))
  {
    hide E.Step, WhileUp;
    assert [a][1..] == [];
    assert E.Steps(r, [a]) == E.Step(r, a);
  }

  // What stays put for the pod, whatever is written.
  predicate SamePod(r: E.Run, r': E.Run) {
    && r'.name == r.name && r'.kind == r.kind && r'.epoch == r.epoch && r'.action == r.action && r'.log == r.log
    && r.hist <= r'.hist && r.missed <= r'.missed
  }

  lemma OutsideStep(r: E.Run, a: E.Action)
    requires r.hist != [] && FromOutside(a)
    ensures SamePod(r, E.Step(r, a)) && E.Step(r, a).pc == r.pc
  {
    hide E.GoStep;
  }

  // Disturbance moves neither the pod nor its history of terraform runs.
  lemma {:induction false} OutsideLeavesPod(r: E.Run, actions: seq<E.Action>)
    requires r.hist != [] && forall i :: 0 <= i < |actions| ==> FromOutside(actions[i])
    ensures SamePod(r, E.Steps(r, actions)) && E.Steps(r, actions).pc == r.pc
    decreases |actions|
  {
    hide E.Step, FromOutside;
    if actions == [] {
    } else {
      OutsideStep(r, actions[0]);
      OutsideLeavesPod(E.Step(r, actions[0]), actions[1..]);
    }
  }

  // So a pod knows where it stands after any disturbance.
  lemma DisturbanceIsHarmless(r: E.Run, r': E.Run)
    requires Disturbs(r, r')
    ensures Reaches(r, r') && SamePod(r, r') && r'.pc == r.pc && r'.hist != []
  {
    hide E.Step;
    var actions :| (forall i :: 0 <= i < |actions| ==> FromOutside(actions[i])) && E.Steps(r, actions) == r';
    OutsideLeavesPod(r, actions);
    assert forall i :: 0 <= i < |actions| ==> WhileUp(actions[i]);
  }

  // A record is in some version of the Execution, or this pod has missed it: all four
  // attempts of that write conflicted.
  ghost predicate OnRecord(r: E.Run, rec: E.Record) {
    (exists v :: 0 <= v < |r.hist| && E.Carries(r.hist[v], rec)) || E.Miss(r.epoch, rec) in r.missed
  }

  lemma StaysOnRecord(r: E.Run, r': E.Run, rec: E.Record)
    requires r.hist <= r'.hist && r'.epoch == r.epoch && r.missed <= r'.missed
    ensures OnRecord(r, rec) ==> OnRecord(r', rec)
  {
    hide E.Carries;
    if v :| 0 <= v < |r.hist| && E.Carries(r.hist[v], rec) {
      assert r'.hist[v] == r.hist[v];
    }
  }

  // The same pod after it has logged one event.
  predicate Logged(r: E.Run, r': E.Run, e: E.Event) {
    && r'.name == r.name && r'.kind == r.kind && r'.epoch == r.epoch && r'.action == r.action
    && r'.log == r.log + [e] && r.hist <= r'.hist && r.missed <= r'.missed
  }

  // Where a finished tryUpdate block leaves the pod.
  function Follows(rec: E.Record, action: Kind, seen: nat): E.Pc {
    match rec
    case Planned => E.Deciding(seen)
    case Logs(output) => E.Getting(E.Applied(output), 0, false, seen)
    case Applied(_) => if action.Create? then E.FetchingOutputs else E.DeletingJob
    case Outputs(_) => E.DeletingJob
  }

  function NextTry(rec: E.Record, attempt: nat, won: bool, seen: nat, action: Kind): E.Pc {
    if attempt + 1 < E.ATTEMPTS then E.Getting(rec, attempt + 1, won, seen) else Follows(rec, action, seen)
  }

  // ---- The pod's steps, one program point at a time.

  lemma BootStep(r: E.Run)
    requires r.hist != [] && r.pc == E.Down
    ensures var r' := E.Step(r, E.Boot);
            && r'.name == r.name && r'.hist == r.hist && r'.log == r.log
            && (r'.pc != E.Down ==> r'.pc == E.Booted(r.Top()) && r.job.Some? && r'.action == r.job.value.kind)
  {
    hide E.GoStep;
  }

  lemma PrepareStep(r: E.Run, ok: bool)
    requires r.hist != [] && r.pc.Booted?
    ensures var r' := E.Step(r, E.Go(ok, ""));
            && SamePod(r, r')
            && (r'.pc != E.Down ==>
                 r'.pc == if r.action.Create? then E.Getting(E.Planned, 0, false, r.pc.seen) else E.Deciding(r.pc.seen))
  {
    hide E.NextAttempt, E.Write;
  }

  lemma GetStep(r: E.Run, ok: bool)
    requires r.hist != [] && r.pc.Getting?
    ensures var r' := E.Step(r, E.Go(ok, ""));
            && SamePod(r, r') && r'.hist == r.hist
            && (r'.pc != E.Down ==>
                 var Getting(rec, attempt, won, seen) := r.pc;
                 r'.pc == E.Putting(rec, attempt, won, seen, r.Top(), E.Amend(r.Current(), rec)))
  {
    hide E.NextAttempt, E.Write, E.Amend;
  }

  lemma PutStep(r: E.Run, ok: bool)
    requires r.hist != [] && r.pc.Putting?
    ensures var r' := E.Step(r, E.Go(ok, ""));
            var Putting(rec, attempt, won, seen, base, obj) := r.pc;
            && SamePod(r, r')
            && (!ok || r.deleted ==> r'.pc == E.Down && r'.hist == r.hist)
            && (ok && !r.deleted && base != r.Top() ==>
                 && r'.hist == r.hist && r'.pc == NextTry(rec, attempt, won, seen, r.action)
                 && (attempt + 1 >= E.ATTEMPTS && !won ==> E.Miss(r.epoch, rec) in r'.missed))
            && (ok && !r.deleted && base == r.Top() ==>
                 && r'.hist == (if obj == r.hist[base] then r.hist else r.hist + [obj])
                 && r'.pc == NextTry(rec, attempt, true, r'.Top(), r.action))
  {
    hide E.Amend, E.NextAttempt, NextTry;
    var Putting(rec, attempt, won, seen, base, obj) := r.pc;
    AttemptStep(r, rec, attempt, won, seen);
    var w := E.Write(r, E.Pod(r.epoch, rec), base, obj);
    AttemptStep(w, rec, attempt, true, w.Top());
  }

  lemma AttemptStep(r: E.Run, rec: E.Record, attempt: nat, won: bool, seen: nat)
    ensures var r' := E.NextAttempt(r, rec, attempt, won, seen);
            && SamePod(r, r') && r'.hist == r.hist && r'.pc == NextTry(rec, attempt, won, seen, r.action)
            && (attempt + 1 >= E.ATTEMPTS && !won ==> E.Miss(r.epoch, rec) in r'.missed)
  {
  }

  lemma LocalStep(r: E.Run, ok: bool, text: string)
    requires r.hist != []
    requires r.pc.FetchingOutputs? || r.pc.DeletingJob? || r.pc.Waiting?
    ensures var r' := E.Step(r, E.Go(ok, text));
            && SamePod(r, r') && r'.hist == r.hist
            && (!ok ==> r'.pc == E.Down)
            && (ok && r.pc.FetchingOutputs? ==> r'.pc == E.Getting(E.Outputs(text), 0, false, 0))
            && (r.pc.DeletingJob? ==> r'.pc == E.Down && (ok ==> r'.job.None?))
            && (ok && r.pc.Waiting? ==> r'.pc == r.pc)
  {
    hide E.NextAttempt, E.Write, E.Amend;
  }

  lemma TerraformStep(r: E.Run, ok: bool, text: string)
    requires r.hist != [] && r.pc.Authorised?
    ensures var r' := E.Step(r, E.Go(ok, text));
            && Logged(r, r', E.Ran(r.epoch, r.pc.auth, ok, text)) && r'.hist == r.hist
            && r'.pc == if ok then E.Getting(E.Logs(text), 0, false, 0) else E.Down
  {
    hide E.NextAttempt, E.Write, E.Amend;
  }

  // Looking at AutoConfirm and at the annotation in hand.
  lemma DecideStep(r: E.Run)
    requires r.hist != [] && r.pc.Deciding? && r.pc.seen < |r.hist|
    ensures var r', e := E.Step(r, E.Go(true, "")), r.hist[r.pc.seen];
            && SamePod(r, r') && r'.hist == r.hist
            && r'.pc == if e.spec.autoConfirm then E.Authorised(E.Auto)
                        else if e.approved.None? || e.approved.value == "" then E.Waiting
                        else E.Answered(r.pc.seen)
  {
    hide E.NextAttempt, E.Write, E.Amend;
  }

  lemma AnswerStep(r: E.Run)
    requires r.hist != [] && r.pc.Answered? && r.pc.version < |r.hist| && r.hist[r.pc.version].approved.Some?
    ensures var r', answer := E.Step(r, E.Go(true, "")), Lower(r.hist[r.pc.version].approved.value);
            && r'.hist == r.hist
            && (answer == "yes" ==> SamePod(r, r') && r'.pc == E.Authorised(E.Saw(r.pc.version)))
            && (answer == "no" && r.action.Destroy? ==>
                 Logged(r, r', E.Declined(r.epoch, r.pc.version))
                 && r'.pc == E.Getting(E.Logs(E.DECLINED), 0, false, r.pc.version))
            && (answer != "yes" && !(answer == "no" && r.action.Destroy?) ==> SamePod(r, r') && r'.pc == E.Down)
  {
    hide E.NextAttempt, E.Write, E.Amend, Lower;
  }

  lemma ObserveStep(r: E.Run, v: nat)
    requires r.hist != [] && r.pc.Waiting?
    ensures var r' := E.Step(r, E.Observe(v));
            && SamePod(r, r') && r'.hist == r.hist
            && r'.pc == if v < |r.hist| && r.hist[v].approved.Some? && !Blank(r.hist[v].approved.value)
                        then E.Answered(v) else E.Waiting
  {
    hide E.GoStep;
  }

  // ---- What a watch has delivered.

  // More events have been delivered, and this is the first answer among them.
  ghost predicate Heard(was: seq<A.Event>, now: seq<A.Event>, name: string, answer: Option<string>) {
    was <= now && A.FirstAnswer(now[|was|..], name) == answer
  }

  lemma HeardNothing(was: seq<A.Event>, name: string)
    ensures Heard(was, was, name, None)
  {
    assert was[|was|..] == [];
  }

  lemma HeardOne(was: seq<A.Event>, now: seq<A.Event>, event: A.Event, name: string)
    requires now == was + [event]
    ensures Heard(was, now, name, if A.Answers(event, name) then Some(event.approved.value) else None)
  {
    hide A.Answers;
    assert now[|was|..] == [event] && [event][1..] == [];
  }

  lemma HeardOn(was: seq<A.Event>, then': seq<A.Event>, now: seq<A.Event>, name: string, answer: Option<string>)
    requires Heard(was, then', name, None) && Heard(then', now, name, answer)
    ensures Heard(was, now, name, answer)
  {
    A.FirstAnswerAppend(then'[|was|..], now[|then'|..], name);
    assert now[|was|..] == then'[|was|..] + now[|then'|..];
  }

  lemma HeardNext(was: seq<A.Event>, then': seq<A.Event>, now: seq<A.Event>, event: Option<A.Event>, name: string)
    requires Heard(was, then', name, None) && now == then' + if event.Some? then [event.value] else []
    ensures Heard(was, now, name,
              if event.Some? && A.Answers(event.value, name) then Some(event.value.approved.value) else None)
  {
    hide Blank, Heard;
    if event.Some? {
      HeardOne(then', now, event.value, name);
      HeardOn(was, then', now, name, if A.Answers(event.value, name) then Some(event.value.approved.value) else None);
    } else {
      assert now == then';
    }
  }

  // ---- The API server and terraform, as one pod meets them.

  class Server {
    var run: E.Run
    ghost var failures: nat               // calls and commands that came to nothing
    ghost var delivered: seq<A.Event>     // everything the watches have brought

    constructor (r: E.Run)
      ensures run == r && delivered == []
    {
      run, failures, delivered := r, 0, [];
    }

    // Anything from outside may happen here. The body does nothing: callers may rely on
    // the contract alone.
    method Interfere()
      requires run.hist != []
      modifies `run
      ensures Disturbs(old(run), run)
    {
      ReachesItself(run);
    }

    // A step of the pod, after whatever came before it.
    method Take(a: E.Action) returns (ghost before: E.Run)
      requires run.hist != [] && WhileUp(a)
      modifies `run
      ensures Reaches(old(run), run) && run.hist != [] && before.hist != []
      ensures run == E.Step(before, a)
      ensures SamePod(old(run), before) && before.pc == old(run.pc)
    {
      hide E.Step, E.Steps, Reaches, Disturbs, WhileUp;
      Interfere();
      DisturbanceIsHarmless(old(run), run);
      before := run;
      run := E.Step(run, a);
      ReachesOne(before, a);
      ReachesTransitive(old(run), before, run);
    }

    // The pod starts and reads its Execution.
    method Populate() returns (r: Option<E.Execution>, action: Kind, version: nat)
      requires run.hist != [] && run.pc == E.Down
      modifies `run, `failures
      ensures Starts(old(run), run) && run.hist != []
      ensures run.name == old(run.name) && run.log == old(run.log) && old(run.hist) <= run.hist
      ensures action == run.action && failures >= old(failures)
      ensures r.None? ==> run.pc == E.Down && failures > old(failures)
      ensures r.Some? ==> version < |run.hist| && run.pc == E.Booted(version) && r.value == run.hist[version]
    {
      hide E.Step, E.Steps, Reaches, Disturbs;
      Interfere();
      DisturbanceIsHarmless(old(run), run);
      ghost var before := run;
      run := E.Step(run, E.Boot);
      BootStep(before);
      version := |run.hist| - 1;
      r, action := if run.pc == E.Down then None else Some(run.hist[version]), run.action;
      failures := if r.None? then failures + 1 else failures;
    }

    // The variables secret, then clone, config, var file, init and plan, none of which
    // writes anything shared.
    method Prepare(secretName: string) returns (ok: bool)
      requires run.hist != [] && run.pc.Booted? && run.pc.seen < |run.hist|
      requires secretName == run.hist[run.pc.seen].spec.secretName
      modifies `run, `failures
      ensures Reaches(old(run), run) && run.hist != [] && SamePod(old(run), run)
      ensures failures >= old(failures)
      ensures !ok ==> run.pc == E.Down && failures > old(failures)
      ensures ok ==> run.pc == (if run.action.Create? then E.Getting(E.Planned, 0, false, old(run.pc.seen))
                                else E.Deciding(old(run.pc.seen)))
    {
      hide E.Step, E.Steps, Reaches, Disturbs;
      var works: bool := *;
      ghost var before := Take(E.Go(works, ""));
      PrepareStep(before, works);
      ok := run.pc != E.Down;
      failures := if ok then failures else failures + 1;
    }

    // Get inside tryUpdate.
    method Get() returns (r: Option<E.Execution>, version: nat)
      requires run.hist != [] && run.pc.Getting?
      modifies `run, `failures
      ensures Reaches(old(run), run) && run.hist != [] && SamePod(old(run), run)
      ensures failures >= old(failures)
      ensures r.None? ==> run.pc == E.Down && failures > old(failures)
      ensures r.Some? ==>
        var Getting(rec, attempt, won, seen) := old(run.pc);
        && version < |run.hist| && r.value == run.hist[version]
        && run.pc == E.Putting(rec, attempt, won, seen, version, E.Amend(r.value, rec))
    {
      hide E.Step, E.Steps, Reaches, Disturbs, E.Amend;
      var works: bool := *;
      ghost var before := Take(E.Go(works, ""));
      GetStep(before, works);
      version := |run.hist| - 1;
      r := if run.pc == E.Down then None else Some(run.hist[version]);
      failures := if r.None? then failures + 1 else failures;
    }

    // Update inside tryUpdate: it lands on the version that was read or not at all, and a
    // conflict means that somebody has written since.
    method Update(base: nat, obj: E.Execution) returns (a: Answer, version: nat)
      requires run.hist != [] && base < |run.hist| && run.pc.Putting? && run.pc.base == base && run.pc.obj == obj
      modifies `run, `failures
      ensures Reaches(old(run), run) && run.hist != [] && SamePod(old(run), run)
      ensures failures >= old(failures)
      ensures a == Other || a == NotFound ==> run.pc == E.Down && failures > old(failures)
      ensures a == Fine ==> version + 1 == |run.hist| && run.hist[version] == obj && base <= version <= base + 1
      ensures a == Fine ==> (version == base <==> obj == run.hist[base])
      ensures a == Conflict ==> base + 1 < |run.hist|
      ensures a == Conflict || a == Fine ==>
        var Putting(rec, attempt, won, seen, _, _) := old(run.pc);
        && run.pc == NextTry(rec, attempt, won || a == Fine, if a == Fine then version else seen, run.action)
        && (attempt + 1 >= E.ATTEMPTS && !won && a == Conflict ==> E.Miss(run.epoch, rec) in run.missed)
    {
      hide E.Step, E.Steps, Reaches, Disturbs, E.Amend, NextTry;
      var works: bool := *;
      ghost var start := run;
      Interfere();
      DisturbanceIsHarmless(start, run);
      ghost var before := run;
      a := if !works then Other else if run.deleted then NotFound else if base != run.Top() then Conflict else Fine;
      run := E.Step(run, E.Go(works, ""));
      PutStep(before, works);
      ReachesOne(before, E.Go(works, ""));
      ReachesTransitive(start, before, run);
      version := |run.hist| - 1;
      failures := if a == Fine || a == Conflict then failures else failures + 1;
    }

    // terraform apply, or terraform destroy.
    method Terraform() returns (ok: bool, out: string)
      requires run.hist != [] && run.pc.Authorised?
      modifies `run, `failures
      ensures Reaches(old(run), run) && run.hist != []
      ensures Logged(old(run), run, E.Ran(run.epoch, old(run.pc.auth), ok, out))
      ensures run.pc == if ok then E.Getting(E.Logs(out), 0, false, 0) else E.Down
      ensures failures >= old(failures) && (!ok ==> failures > old(failures))
    {
      hide E.Step, E.Steps, Reaches, Disturbs;
      ok, out := *, *;
      ghost var before := Take(E.Go(ok, out));
      TerraformStep(before, ok, out);
      failures := if ok then failures else failures + 1;
    }

    // terraform output.
    method Output() returns (ok: bool, out: string)
      requires run.hist != [] && run.pc.FetchingOutputs?
      modifies `run, `failures
      ensures Reaches(old(run), run) && run.hist != [] && SamePod(old(run), run)
      ensures run.pc == if ok then E.Getting(E.Outputs(out), 0, false, 0) else E.Down
      ensures failures >= old(failures) && (!ok ==> failures > old(failures))
    {
      hide E.Step, E.Steps, Reaches, Disturbs;
      ok, out := *, *;
      ghost var before := Take(E.Go(ok, out));
      LocalStep(before, ok, out);
      failures := if ok then failures else failures + 1;
    }

    method DeleteJob() returns (ok: bool)
      requires run.hist != [] && run.pc.DeletingJob?
      modifies `run, `failures
      ensures Reaches(old(run), run) && run.hist != [] && SamePod(old(run), run)
      ensures run.pc == E.Down && (ok ==> run.job.None?)
      ensures failures >= old(failures) && (!ok ==> failures > old(failures))
    {
      hide E.Step, E.Steps, Reaches, Disturbs;
      ok := *;
      ghost var before := Take(E.Go(ok, ""));
      LocalStep(before, ok, "");
      failures := if ok then failures else failures + 1;
    }

    method Watch() returns (ok: bool)
      requires run.hist != [] && run.pc.Waiting?
      modifies `run, `failures
      ensures Reaches(old(run), run) && run.hist != [] && SamePod(old(run), run)
      ensures run.pc == if ok then E.Waiting else E.Down
      ensures failures >= old(failures) && (!ok ==> failures > old(failures))
    {
      hide E.Step, E.Steps, Reaches, Disturbs;
      ok := *;
      ghost var before := Take(E.Go(ok, ""));
      LocalStep(before, ok, "");
      failures := if ok then failures else failures + 1;
    }

    // The next thing on the watch channel, or None when it is closed. An event about this
    // Execution shows one of the versions it has had.
    method Next() returns (event: Option<A.Event>, version: nat)
      requires run.hist != [] && run.pc.Waiting?
      modifies `run, `delivered
      ensures Reaches(old(run), run) && run.hist != [] && SamePod(old(run), run) && run.pc == E.Waiting
      ensures delivered == old(delivered) + if event.Some? then [event.value] else []
      ensures event.Some? && event.value.Seen? && event.value.name == run.name ==>
        version < |run.hist| && run.hist[version].approved == event.value.approved
    {
      hide E.Step, E.Steps, Reaches, Disturbs;
      Interfere();
      DisturbanceIsHarmless(old(run), run);
      event, version := *, *;
      if event.Some? && event.value.Seen? && event.value.name == run.name {
        version := if version < |run.hist| then version else 0;
        event := Some(A.Seen(run.name, run.hist[version].approved));
      }
      delivered := delivered + if event.Some? then [event.value] else [];
    }

    // ---- Program points the pod passes without calling anybody.

    method Decide()
      requires run.hist != [] && run.pc.Deciding? && run.pc.seen < |run.hist|
      modifies `run
      ensures Reaches(old(run), run) && run.hist != [] && SamePod(old(run), run)
      ensures var e := old(run.hist[run.pc.seen]);
              run.pc == if e.spec.autoConfirm then E.Authorised(E.Auto)
                        else if e.approved.None? || e.approved.value == "" then E.Waiting
                        else E.Answered(old(run.pc.seen))
    {
      hide E.Step, E.Steps, Reaches, Disturbs;
      ghost var before := Take(E.Go(true, ""));
      DecideStep(before);
    }

    method Notice(version: nat)
      requires run.hist != [] && run.pc.Waiting? && version < |run.hist|
      requires run.hist[version].approved.Some? && !Blank(run.hist[version].approved.value)
      modifies `run
      ensures Reaches(old(run), run) && run.hist != [] && SamePod(old(run), run)
      ensures run.pc == E.Answered(version)
    {
      hide E.Step, E.Steps, Reaches, Disturbs;
      ghost var before := Take(E.Observe(version));
      ObserveStep(before, version);
    }

    method Weigh(answer: string)
      requires run.hist != [] && run.pc.Answered? && run.pc.version < |run.hist|
      requires run.hist[run.pc.version].approved.Some? && Lower(run.hist[run.pc.version].approved.value) == answer
      modifies `run
      ensures Reaches(old(run), run) && run.hist != []
      ensures answer == "yes" ==> SamePod(old(run), run) && run.pc == E.Authorised(E.Saw(old(run.pc.version)))
      ensures answer == "no" && old(run.action).Destroy? ==>
        Logged(old(run), run, E.Declined(run.epoch, old(run.pc.version)))
        && run.pc == E.Getting(E.Logs(E.DECLINED), 0, false, old(run.pc.version))
      ensures answer != "yes" && !(answer == "no" && old(run.action).Destroy?) ==>
        SamePod(old(run), run) && run.pc == E.Down
    {
      hide E.Step, E.Steps, Reaches, Disturbs;
      ghost var before := Take(E.Go(true, ""));
      AnswerStep(before);
    }
  }

  // ---- The runner.

  // How a call of the runner ends: with nil, with an error, or not yet.
  datatype Ending = Nil | Failed | Pending

  class Runner {
    const server: Server
    const name: string             // EXECUTOR_RUN_NAME
    var action: Kind
    var execution: E.Execution     // r.Execution
    ghost var version: nat         // the stored version it is

    constructor (s: Server)
      requires s.run.hist != []
      ensures server == s && name == s.run.name
    {
      server, name := s, s.run.name;
      action := Kind.Create;
      execution := s.run.hist[0];
      version := 0;
    }

    // The object in hand is a version the store has had.
    ghost predicate Holds()
      reads this, server
    {
      && server.run.hist != [] && name == server.run.name
      && version < |server.run.hist| && execution == server.run.hist[version]
      && action == server.run.action
    }

    // tryUpdate around one read-amend-update block: four rounds, whether or not one has
    // succeeded, unless an answer is fatal. With nil the record is in the object in hand, which is what the last
    // successful round stored, or all four rounds met a conflict.
    method TryUpdate(rec: E.Record) returns (err: Ending, ghost seen: nat, ghost answers: seq<Answer>)
      requires Holds() && server.run.pc.Getting? && server.run.pc == E.Getting(rec, 0, false, server.run.pc.seen)
      requires rec.Planned? ==> server.run.pc.seen == version
      modifies `execution, `version, server`run, server`failures
      ensures Holds() && Reaches(old(server.run), server.run) && SamePod(old(server.run), server.run)
      ensures err != Pending && server.failures >= old(server.failures)
      ensures err == Failed ==> server.run.pc == E.Down && server.failures > old(server.failures)
      ensures err == Nil ==> server.run.pc == Follows(rec, action, seen)
      ensures err == Nil <==> |answers| == 4 && forall k :: 0 <= k < |answers| ==> !Fatal(answers[k], false)
      ensures err == Failed ==> 0 < |answers| <= 4 && Fatal(answers[|answers| - 1], false)
      ensures err == Nil ==>
        if Fine in answers then E.Carries(execution, rec) else E.Miss(server.run.epoch, rec) in server.run.missed
      ensures rec.Planned? ==> seen == version
    {
      hide E.Step, E.Steps, Reaches, Disturbs, E.Amend, E.Carries;
      ReachesItself(server.run);
      seen := server.run.pc.seen;
      ghost var won := false;
      answers := [];
      for i := 0 to E.ATTEMPTS
        invariant |answers| == i && (forall k :: 0 <= k < |answers| ==> !Fatal(answers[k], false)) && won == (Fine in answers)
        invariant Holds() && Reaches(old(server.run), server.run) && SamePod(old(server.run), server.run)
        invariant server.failures >= old(server.failures)
        invariant i < E.ATTEMPTS ==> server.run.pc == E.Getting(rec, i, won, seen)
        invariant i == E.ATTEMPTS ==> server.run.pc == Follows(rec, action, seen)
        invariant won ==> E.Carries(execution, rec)
        invariant i == E.ATTEMPTS && !won ==> E.Miss(server.run.epoch, rec) in server.run.missed
        invariant rec.Planned? ==> seen == version
      {
        ghost var start := server.run;
        var read, base := server.Get();
        ReachesTransitive(old(server.run), start, server.run);
        if read.None? {
          answers := answers + [Other];
          assert Fatal(answers[i], false);
          return Failed, version, answers;
        }
        var run := E.Amend(read.value, rec);
        ghost var middle := server.run;
        var answer, stored := server.Update(base, run);
        ReachesTransitive(old(server.run), middle, server.run);
        answers := answers + [answer];
        assert answers[i] == answer && answer in answers;
        if answer == Fine {
          execution, version, seen, won := run, stored, stored, true;
        } else if answer != Conflict {
          return Failed, version, answers;
        }
      }
      err := Nil;
    }

    method SetExecutionRunStatus(status: E.Record) returns (err: Ending)
      requires status.Planned? || status.Applied?
      requires Holds() && server.run.pc.Getting? && server.run.pc == E.Getting(status, 0, false, server.run.pc.seen)
      requires status.Planned? ==> server.run.pc.seen == version
      modifies `execution, `version, server`run, server`failures
      ensures Holds() && Reaches(old(server.run), server.run) && SamePod(old(server.run), server.run)
      ensures err != Pending && server.failures >= old(server.failures)
      ensures err == Failed ==> server.run.pc == E.Down && server.failures > old(server.failures)
      ensures err == Nil ==> server.run.pc == Follows(status, action, version) && OnRecord(server.run, status)
      ensures err == Nil && E.Miss(server.run.epoch, status) !in server.run.missed ==>
        exists v :: 0 <= v < |server.run.hist| && if status.Planned? then server.run.hist[v].planned else server.run.hist[v].applied
    {
      hide E.Steps, Reaches, OnRecord, E.Amend;
      ghost var seen, answers;
      err, seen, answers := TryUpdate(status);
      Written(err, status);
      assert server.run.hist[version] == execution;
    }

    method SetExecutionLogs(text: string) returns (err: Ending)
      requires Holds() && server.run.pc.Getting? && server.run.pc == E.Getting(E.Logs(text), 0, false, server.run.pc.seen)
      modifies `execution, `version, server`run, server`failures
      ensures Holds() && Reaches(old(server.run), server.run) && SamePod(old(server.run), server.run)
      ensures err != Pending && server.failures >= old(server.failures)
      ensures err == Failed ==> server.run.pc == E.Down && server.failures > old(server.failures)
      ensures err == Nil ==> Writing(server.run.pc, E.Applied(text)) && OnRecord(server.run, E.Logs(text))
      ensures err == Nil && E.Miss(server.run.epoch, E.Logs(text)) !in server.run.missed ==>
        exists v :: 0 <= v < |server.run.hist| && server.run.hist[v].logs == text
    {
      hide E.Steps, Reaches, OnRecord, E.Amend;
      ghost var seen, answers;
      err, seen, answers := TryUpdate(E.Logs(text));
      Written(err, E.Logs(text));
      assert server.run.hist[version] == execution;
    }

    lemma Written(err: Ending, rec: E.Record)
      requires Holds()
      requires err == Nil ==> E.Carries(execution, rec) || E.Miss(server.run.epoch, rec) in server.run.missed
      ensures err == Nil ==> OnRecord(server.run, rec)
    {
      hide E.Carries;
    }

    method SaveOutputs() returns (err: Ending, output: string)
      requires Holds() && server.run.pc.FetchingOutputs?
      modifies `execution, `version, server`run, server`failures
      ensures Holds() && Reaches(old(server.run), server.run) && SamePod(old(server.run), server.run)
      ensures err != Pending && server.failures >= old(server.failures)
      ensures err == Failed ==> server.run.pc == E.Down && server.failures > old(server.failures)
      ensures err == Nil ==> server.run.pc == E.DeletingJob && OnRecord(server.run, E.Outputs(output))
      ensures err == Nil && E.Miss(server.run.epoch, E.Outputs(output)) !in server.run.missed ==>
        exists v :: 0 <= v < |server.run.hist| && server.run.hist[v].outputs == output
    {
      hide E.Steps, Reaches, OnRecord, E.Amend;
      var ok;
      ok, output := server.Output();
      if !ok {
        return Failed, output;
      }
      ghost var middle := server.run;
      ghost var seen, answers;
      err, seen, answers := TryUpdate(E.Outputs(output));
      ReachesTransitive(old(server.run), middle, server.run);
      Written(err, E.Outputs(output));
      assert server.run.hist[version] == execution;
    }

    // waitForApproval: the first non-blank answer among the events about this Execution.
    // `patience` is how many more channel events there are to see: the wait itself has no
    // end.
    method WaitForApproval(patience: nat) returns (err: Ending, approval: string)
      requires Holds() && server.run.pc.Waiting?
      modifies server
      ensures Holds() && Reaches(old(server.run), server.run) && SamePod(old(server.run), server.run)
      ensures server.failures >= old(server.failures)
      ensures Heard(old(server.delivered), server.delivered, name, if err == Nil then Some(approval) else None)
      ensures err == Failed ==> server.run.pc == E.Down && server.failures > old(server.failures)
      ensures err == Pending ==> server.run.pc == E.Waiting
      ensures err == Nil ==>
        && server.run.pc.Answered? && server.run.pc.version < |server.run.hist|
        && server.run.hist[server.run.pc.version].approved == Some(approval) && approval != ""
      decreases patience
    {
      hide E.Steps, Reaches, Blank, Heard;
      err, approval := Pending, "";
      HeardNothing(server.delivered, name);
      var ok := server.Watch();
      if !ok {
        return Failed, "";
      }
      var left := patience;
      while left > 0
        invariant Holds() && Reaches(old(server.run), server.run) && SamePod(old(server.run), server.run)
        invariant server.failures >= old(server.failures)
        invariant Heard(old(server.delivered), server.delivered, name, None)
        invariant server.run.pc == E.Waiting && left <= patience
      {
        left := left - 1;
        ghost var start, heard := server.run, server.delivered;
        var event, seen := server.Next();
        ReachesTransitive(old(server.run), start, server.run);
        HeardNext(old(server.delivered), heard, server.delivered, event, name);
        ghost var middle, more := server.run, server.delivered;
        if event.None? || event.value.Garbage? {
          err, approval := WaitForApproval(left);
          ReachesTransitive(old(server.run), middle, server.run);
          HeardOn(old(server.delivered), more, server.delivered, name, if err == Nil then Some(approval) else None);
          return;
        }
        if event.value.name != name {
          continue;
        }
        if event.value.approved.None? || Blank(event.value.approved.value) {
          continue;
        }
        server.Notice(seen);
        ReachesTransitive(old(server.run), middle, server.run);
        NotBlank(event.value.approved.value);
        return Nil, event.value.approved.value;
      }
    }

    // What Create and Destroy have in common: AutoConfirm, else the annotation in hand,
    // else whatever the watch brings.
    method Approval(patience: nat) returns (err: Ending, auto: bool, approval: string)
      requires Holds() && server.run.pc == E.Deciding(version)
      modifies server
      ensures Holds() && Reaches(old(server.run), server.run) && SamePod(old(server.run), server.run)
      ensures server.failures >= old(server.failures)
      ensures err == Failed ==> server.run.pc == E.Down && server.failures > old(server.failures)
      ensures err == Pending ==> server.run.pc == E.Waiting
      ensures err == Nil && auto ==> server.run.pc == E.Authorised(E.Auto) && execution.spec.autoConfirm
      ensures err == Nil && !auto ==>
        && server.run.pc.Answered? && server.run.pc.version < |server.run.hist|
        && server.run.hist[server.run.pc.version].approved == Some(approval) && approval != ""
    {
      hide E.Steps, Reaches, Heard;
      server.Decide();
      if execution.spec.autoConfirm {
        return Nil, true, "";
      }
      if execution.approved.None? || execution.approved.value == "" {
        ghost var middle := server.run;
        err, approval := WaitForApproval(patience);
        ReachesTransitive(old(server.run), middle, server.run);
        return err, false, approval;
      }
      return Nil, false, execution.approved.value;
    }

    method Create(patience: nat) returns (err: Ending, out: string)
      requires Holds() && action.Create? && server.run.pc == E.Getting(E.Planned, 0, false, version)
      modifies `execution, `version, server
      ensures Holds() && Reaches(old(server.run), server.run)
      ensures Acted(old(server.run), server.run, action, err, out)
      ensures err == Nil ==> OnRecord(server.run, E.Planned)
      ensures server.failures >= old(server.failures)
      ensures err == Failed ==> server.failures > old(server.failures) || Refused(server.run, Kind.Create)
    {
      hide E.Steps, Reaches, Lower, OnRecord, Refused;
      out := "";
      err := SetExecutionRunStatus(E.Planned);
      if err != Nil {
        return;
      }
      ghost var planned := server.run;
      var auto, approval;
      err, auto, approval := Approval(patience);
      ReachesTransitive(old(server.run), planned, server.run);
      if err != Nil {
        return;
      }
      if !auto {
        ghost var asked := server.run;
        var answer := Lower(approval);
        server.Weigh(answer);
        ReachesTransitive(old(server.run), asked, server.run);
        IsRefused(asked, server.run, approval);
        if answer == "no" {
          return Failed, "";
        } else if answer != "yes" {
          return Failed, "";
        }
      }
      ghost var allowed := server.run;
      var ok;
      ok, out := server.Terraform();
      ReachesTransitive(old(server.run), allowed, server.run);
      StaysOnRecord(planned, server.run, E.Planned);
      err := if ok then Nil else Failed;
    }

    method Destroy(patience: nat) returns (err: Ending, out: string)
      requires Holds() && action.Destroy? && server.run.pc == E.Deciding(version)
      modifies `execution, `version, server
      ensures Holds() && Reaches(old(server.run), server.run)
      ensures Acted(old(server.run), server.run, action, err, out)
      ensures server.failures >= old(server.failures)
      ensures err == Failed ==> server.failures > old(server.failures) || Refused(server.run, Kind.Destroy)
    {
      hide E.Steps, Reaches, Lower, Refused;
      out := "";
      var auto, approval;
      err, auto, approval := Approval(patience);
      if err != Nil {
        return;
      }
      if !auto {
        ghost var asked := server.run;
        var answer := Lower(approval);
        server.Weigh(answer);
        ReachesTransitive(old(server.run), asked, server.run);
        IsRefused(asked, server.run, approval);
        if answer == "no" {
          return Nil, E.DECLINED;
        } else if answer != "yes" {
          return Failed, "";
        }
      }
      ghost var allowed := server.run;
      var ok;
      ok, out := server.Terraform();
      ReachesTransitive(old(server.run), allowed, server.run);
      err := if ok then Nil else Failed;
    }

    // pkg/executor/main.go, from Populate to DeleteJob. With nil, terraform did what the
    // pod was started for in this very epoch, or a destroy was declined, and every record
    // has been made; a failure is that of some call or command, or somebody's refusal.
    method Run(patience: nat) returns (err: Ending)
      requires server.run.hist != [] && server.run.pc == E.Down && name == server.run.name
      modifies this, server
      ensures OnePod(old(server.run), server.run)
      ensures server.run.pc == if err == Pending then E.Waiting else E.Down
      ensures err == Nil ==> server.run.job.None? && Concluded(old(server.run), server.run, action)
      ensures err == Failed ==> server.failures > old(server.failures) || Refused(server.run, action)
    {
      hide E.Steps, Reaches, Starts, E.Concludes, OnRecord, Refused, Concluded, RecordsMade;
      ghost var down := server.run;
      var start, act, at := server.Populate();
      ReachesItself(server.run);
      if start.None? {
        return Failed;
      }
      execution, action, version := start.value, act, at;
      ghost var up := server.run;
      var ok := server.Prepare(execution.spec.secretName);
      if !ok {
        return Failed;
      }
      ghost var prepared := server.run;
      var out;
      if action == Kind.Create {
        err, out := Create(patience);
      } else {
        err, out := Destroy(patience);
      }
      ReachesTransitive(up, prepared, server.run);
      if err != Nil {
        return;
      }
      ghost var acted := server.run;
      err := Conclude(out);
      ReachesTransitive(up, acted, server.run);
      if err == Nil { IsConcluded(down, acted, server.run, action, out); }
    }

    // What follows the action: logs, Applied, outputs, and the end of the Job.
    method Conclude(out: string) returns (err: Ending)
      requires Holds() && Writing(server.run.pc, E.Logs(out))
      requires action.Create? ==> OnRecord(server.run, E.Planned)
      modifies `execution, `version, server`run, server`failures
      ensures Reaches(old(server.run), server.run) && SamePod(old(server.run), server.run)
      ensures err != Pending && server.run.pc == E.Down && server.failures >= old(server.failures)
      ensures err == Failed ==> server.failures > old(server.failures)
      ensures err == Nil ==> server.run.job.None? && RecordsMade(server.run, action, out)
    {
      hide E.Steps, Reaches, OnRecord;
      ghost var acted := server.run;
      err := SetExecutionLogs(out);
      if err != Nil {
        return;
      }
      ghost var logged := server.run;
      err := SetExecutionRunStatus(E.Applied(out));
      ReachesTransitive(acted, logged, server.run);
      if err != Nil {
        return;
      }
      ghost var applied, output := server.run, "";
      if action == Kind.Create {
        err, output := SaveOutputs();
        ReachesTransitive(acted, applied, server.run);
        if err != Nil {
          return;
        }
      }
      ghost var saved := server.run;
      var ok := server.DeleteJob();
      ReachesTransitive(acted, saved, server.run);
      StaysOnRecord(acted, server.run, E.Planned);
      StaysOnRecord(logged, server.run, E.Logs(out));
      StaysOnRecord(applied, server.run, E.Applied(out));
      StaysOnRecord(saved, server.run, E.Outputs(output));
      err := if ok then Nil else Failed;
    }
  }

  // At the start of the tryUpdate block for this record.
  predicate Writing(pc: E.Pc, rec: E.Record) {
    pc.Getting? && pc == E.Getting(rec, 0, false, pc.seen)
  }

  lemma NotBlank(s: string)
    requires !Blank(s)
    ensures s != ""
  {
  }

  // Somebody answered with something that does not let this action go on.
  ghost predicate Refused(r: E.Run, action: Kind) {
    exists v :: 0 <= v < |r.hist| && Refusal(r.hist[v].approved, action)
  }

  predicate Refusal(approved: Option<string>, action: Kind) {
    && approved.Some? && approved.value != "" && Lower(approved.value) != "yes"
    && !(action.Destroy? && Lower(approved.value) == "no")
  }

  lemma IsRefused(r: E.Run, r': E.Run, approval: string)
    requires r.pc.Answered? && r.pc.version < |r.hist| && r.hist[r.pc.version].approved == Some(approval)
    requires approval != "" && r.hist <= r'.hist
    ensures forall action :: Refusal(Some(approval), action) ==> Refused(r', action)
  {
    hide Refusal;
    assert r'.hist[r.pc.version].approved == Some(approval);
  }

  // How Create and Destroy end: with nil, one event was logged and it concludes the
  // action with this output.
  ghost predicate Acted(r: E.Run, r': E.Run, action: Kind, err: Ending, out: string) {
    && r'.name == r.name && r'.epoch == r.epoch && r.log <= r'.log
    && (err == Failed ==> r'.pc == E.Down)
    && (err == Pending ==> r'.pc == E.Waiting)
    && (err == Nil ==>
         && Writing(r'.pc, E.Logs(out))
         && |r'.log| == |r.log| + 1 && E.Concludes(action, r'.log[|r.log|], r'.epoch, out))
  }

  // What is on record when a pod is through.
  ghost predicate RecordsMade(r: E.Run, action: Kind, out: string) {
    && OnRecord(r, E.Logs(out)) && OnRecord(r, E.Applied(out))
    && (action.Create? ==> OnRecord(r, E.Planned) && exists output :: OnRecord(r, E.Outputs(output)))
  }

  // One event, which concludes the action, and all its records.
  ghost predicate Concluded(r: E.Run, r': E.Run, action: Kind) {
    && r.log <= r'.log && |r'.log| == |r.log| + 1
    && exists out :: E.Concludes(action, r'.log[|r.log|], r'.epoch, out) && RecordsMade(r', action, out)
  }

  lemma IsConcluded(r: E.Run, acted: E.Run, r': E.Run, action: Kind, out: string)
    requires r.log <= acted.log && |acted.log| == |r.log| + 1
    requires E.Concludes(action, acted.log[|r.log|], acted.epoch, out) && SamePod(acted, r')
    requires RecordsMade(r', action, out)
    ensures Concluded(r, r', action)
  {
    hide E.Concludes, RecordsMade;
  }

  // So whatever ExecutorSafety proves holds before, during and after a run of the pod.
  lemma {:induction false} StepsKeepInv(r: E.Run, actions: seq<E.Action>)
    requires E.Inv(r) && forall i :: 0 <= i < |actions| ==> !actions[i].MakeJob?
    ensures r.hist != [] && E.Inv(E.Steps(r, actions))
    decreases |actions|
  {
    hide E.Inv, E.Step;
    E.HasHistory(r);
    if actions == [] {
    } else {
      E.StepKeepsInv(r, actions[0]);
      StepsKeepInv(E.Step(r, actions[0]), actions[1..]);
    }
  }

  lemma ReachesKeepsInv(r: E.Run, r': E.Run)
    requires E.Inv(r) && Reaches(r, r')
    ensures E.Inv(r')
  {
    hide E.Inv, E.Step, E.Steps;
    var actions :| (forall i :: 0 <= i < |actions| ==> WhileUp(actions[i])) && E.Steps(r, actions) == r';
    StepsKeepInv(r, actions);
  }

  lemma PodKeepsInv(r: E.Run, r': E.Run)
    requires E.Inv(r) && OnePod(r, r')
    ensures E.Inv(r')
  {
    hide E.Inv, E.Step, E.Steps, Disturbs, Reaches;
    var up :| Starts(r, up) && Reaches(up, r');
    var before :| Disturbs(r, before) && before.hist != [] && up == E.Step(before, E.Boot);
    DisturbanceIsHarmless(r, before);
    ReachesKeepsInv(r, before);
    E.StepKeepsInv(before, E.Boot);
    ReachesKeepsInv(up, r');
  }
}
