// pkg/cli/cmds: the commands that change a State or an Execution. Each reads an object,
// changes its copy and updates it by compare-and-swap, with anything coming in between.
module Cli {
  import opened Basics
  import opened Versioned
  import opened Reconciler
  import A = ApiServer
  import E = Executor
  import R = Runner
  import Shape

  // What runState asks for; deleteState also forgets the Execution.
  method RunState(c: A.Cluster) returns (ok: bool)
    requires c.Valid()
    modifies c
    ensures c.Valid() && A.Reaches(old(c.w), c.w) && c.w.pc == old(c.w.pc)
    ensures ok ==> c.hist != [] && old(c.hist) != [] && var s := old(c.hist)[|old(c.hist)| - 1];
            && IsInt32(s.spec.version) && c.hist[|c.hist| - 1] == Rerun(s)
            && c.hist[|c.hist| - 1] == s.(
                 spec := s.spec.(version := if s.spec.version == 0x7FFF_FFFF then -0x8000_0000 else s.spec.version + 1),
                 status := s.status.(lastRunHash := "", jobDeployed := IsFalse))
  {
    hide Sane, Step, A.Reaches, A.Works, A.Disturbs, A.RunsKept;
    Shape.Indexed(c.w);
    var base := |c.hist| - 1;
    var obj := c.hist[base];
    Shape.VersionsOk(c.w);
    obj := obj.(spec := obj.spec.(version := NextInt32(obj.spec.version)));
    obj := obj.(status := obj.status.(lastRunHash := ""));
    obj := obj.(status := obj.status.(jobDeployed := IsFalse));
    ghost var w0 := c.w;
    c.Interfere();
    A.DisturbanceIsHarmless(w0, c.w);
    ghost var before := c.w;
    ok := base == |c.hist| - 1 && !(c.hist[base].deleting && !c.hist[base].finalizer);
    if ok {
      c.hist := Cas(c.hist, base, obj);
    }
    c.Took(ResetRun(base));
    Resets(before, base);
    A.ReachesTransitive(w0, before, c.w);
  }

  lemma Resets(w: World, base: nat)
    requires Sane(w) && base < |w.hist|
    ensures IsInt32(w.hist[base].spec.version)
    ensures Step(w, ResetRun(base))
         == w.(hist := if Accepts(w, base) then Cas(w.hist, base, Rerun(w.hist[base])) else w.hist)
  {
    hide StoresOk, PcOk, StartStep, CallStep, RunActStep, QueueStep, DepStep;
  }

  // A State reset for its destroy: as runState leaves it, and without its Execution.
  function Forgotten(s: State): State
    requires IsInt32(s.spec.version)
  {
    Rerun(s).(status := Rerun(s).status.(executionName := ""))
  }

  lemma ForgottenIs(s: State)
    requires IsInt32(s.spec.version)
    ensures Forgotten(s) == s.(
              spec := s.spec.(version := if s.spec.version == 0x7FFF_FFFF then -0x8000_0000 else s.spec.version + 1),
              status := s.status.(lastRunHash := "", jobDeployed := IsFalse, executionName := ""))
  {
  }

  // That reset, on the version that has been read.
  method Forget(c: A.Cluster) returns (ok: bool)
    requires c.Valid() && c.hist[|c.hist| - 1].deleting
    modifies c
    ensures c.Valid() && A.Reaches(old(c.w), c.w) && c.w.pc == old(c.w.pc) && old(c.hist) <= c.hist
    ensures var was, n := old(c.hist), |old(c.hist)|;
            ok ==> IsInt32(was[n - 1].spec.version) && |c.hist| == n + 1 && c.hist[n] == Forgotten(was[n - 1])
  {
    hide Sane, Step, A.Reaches, A.Works, A.Disturbs, A.RunsKept;
    Shape.Indexed(c.w);
    var base := |c.hist| - 1;
    var obj := c.hist[base];
    ghost var w0 := c.w;
    Shape.VersionsOk(c.w);
    obj := obj.(status := obj.status.(executionName := ""));
    obj := obj.(spec := obj.spec.(version := NextInt32(obj.spec.version)));
    obj := obj.(status := obj.status.(lastRunHash := ""));
    obj := obj.(status := obj.status.(jobDeployed := IsFalse));
    c.Interfere();
    A.DisturbanceIsHarmless(w0, c.w);
    ghost var before := c.w;
    ok := base == |c.hist| - 1 && !(c.hist[base].deleting && !c.hist[base].finalizer);
    if ok {
      c.hist := Cas(c.hist, base, obj);
    }
    c.Took(ResetDeleted(base));
    ResetsDeleted(before, base);
    A.ReachesTransitive(w0, before, c.w);
  }

  // deleteState: a State already being deleted is first reset, so that OnRemove starts over.
  method DeleteState(c: A.Cluster) returns (ok: bool)
    requires c.Valid()
    modifies c
    ensures c.Valid() && A.Reaches(old(c.w), c.w) && c.w.pc == old(c.w.pc)
    ensures ok ==> c.hist != [] && (c.hist[|c.hist| - 1].deleting || c.w.Gone())
    ensures old(c.hist) != [] && old(c.hist) <= c.hist
    ensures var n, s := |old(c.hist)|, old(c.hist)[|old(c.hist)| - 1];
            ok && s.deleting ==>
              && IsInt32(s.spec.version) && |c.hist| > n && c.hist[n] == Forgotten(s)
              && c.hist[n] == s.(
                   spec := s.spec.(version := if s.spec.version == 0x7FFF_FFFF then -0x8000_0000 else s.spec.version + 1),
                   status := s.status.(lastRunHash := "", jobDeployed := IsFalse, executionName := ""))
  {
    hide Sane, Step, A.Reaches, A.Works, A.Disturbs, A.RunsKept, Forgotten;
    Shape.Indexed(c.w);
    ghost var w0 := c.w;
    A.ReachesItself(w0);
    if c.hist[|c.hist| - 1].deleting {
      ghost var s := c.hist[|c.hist| - 1];
      ok := Forget(c);
      if !ok {
        return;
      }
      ForgottenIs(s);
    }
    ghost var w1 := c.w;
    c.Interfere();
    A.DisturbanceIsHarmless(w1, c.w);
    ghost var before := c.w;
    A.ReachesTransitive(w0, w1, before);
    Shape.Indexed(c.w);
    var s := c.hist[|c.hist| - 1];
    if !s.deleting {
      c.hist := c.hist + [s.(deleting := true)];
    }
    c.Took(Reconciler.DeleteState);
    Deletes(before);
    A.ReachesTransitive(w0, before, c.w);
    ok := true;
  }

  lemma ResetsDeleted(w: World, base: nat)
    requires Sane(w) && base < |w.hist| && w.hist[base].deleting
    ensures IsInt32(w.hist[base].spec.version)
    ensures Step(w, ResetDeleted(base))
         == w.(hist := if Accepts(w, base) then Cas(w.hist, base, Forgotten(w.hist[base])) else w.hist)
  {
    hide StoresOk, PcOk, StartStep, CallStep, RunActStep, QueueStep, DepStep;
  }

  lemma Deletes(w: World)
    requires Sane(w) && w.hist != []
    ensures var w' := Step(w, Reconciler.DeleteState);
            && w' == w.(hist := w'.hist, deletedAt := w'.deletedAt)
            && w'.hist == if w.Current().deleting then w.hist else w.hist + [w.Current().(deleting := true)]
  {
    hide HistoryOk, StoresOk, PcOk, StartStep, CallStep, RunActStep, QueueStep, DepStep, Rerun;
  }

  // approveExecution and denyExecution: a user's answer, which only counts if nobody has
  // written to the Execution since it was read.
  method Answer(s: R.Server, answer: string) returns (ok: bool)
    requires s.run.hist != []
    modifies s
    ensures R.Reaches(old(s.run), s.run) && R.SamePod(old(s.run), s.run) && s.run.pc == old(s.run.pc) && s.run.hist != []
    ensures ok ==> s.run.Current() == old(s.run.Current()).(approved := Some(answer))
  {
    hide E.Step, E.Steps, R.Reaches, R.Disturbs;
    var base := |s.run.hist| - 1;
    ghost var start := s.run;
    s.Interfere();
    R.DisturbanceIsHarmless(start, s.run);
    ghost var before := s.run;
    ok := base == |s.run.hist| - 1 && !s.run.deleted;
    s.run := E.Step(s.run, E.Annotate(base, Some(answer)));
    Answers(before, base, answer);
    R.ReachesOne(before, E.Annotate(base, Some(answer)));
    R.ReachesTransitive(start, before, s.run);
  }

  lemma Answers(r: E.Run, base: nat, answer: string)
    requires r.hist != [] && base < |r.hist|
    ensures var r' := E.Step(r, E.Annotate(base, Some(answer)));
            && R.SamePod(r, r') && r'.pc == r.pc && r'.hist != []
            && (base == r.Top() && !r.deleted ==> r'.Current() == r.hist[base].(approved := Some(answer)))
  {
    hide E.GoStep;
  }

  // ---- executionPrune.

  datatype Listed = Listed(name: string, created: int)

  function Aged(execs: seq<Listed>, from: int): (r: seq<string>)
    ensures forall n :: n in r ==> exists i :: 0 <= i < |execs| && execs[i].name == n && execs[i].created <= from
    ensures forall i :: 0 <= i < |execs| && execs[i].created <= from ==> execs[i].name in r
  {
    if execs == [] then []
    else
      var last := execs[|execs| - 1];
      Aged(execs[..|execs| - 1], from) + if last.created > from then [] else [last.name]
  }

  lemma AgedNone(from: int)
    ensures Aged([], from) == []
  {
  }

  lemma AgedNext(execs: seq<Listed>, i: nat, from: int)
    requires i < |execs|
    ensures Aged(execs[..i + 1], from) == Aged(execs[..i], from) + if execs[i].created > from then [] else [execs[i].name]
  {
    assert execs[..i + 1][..i] == execs[..i];
  }

  // Among the first i listed these are the aged ones, at these places.
  predicate Pruned(execs: seq<Listed>, i: nat, from: int, deleted: seq<string>, at: seq<nat>) {
    && |at| == |deleted| && i <= |execs|
    && (forall j :: 0 <= j < |at| ==> at[j] < i && execs[at[j]].name == deleted[j])
    && (forall j, k :: 0 <= j < k < |at| ==> at[j] < at[k])
    && (forall j :: 0 <= j < i ==> (j in at <==> execs[j].created <= from))
  }

  lemma PrunedNone(execs: seq<Listed>, from: int)
    ensures Pruned(execs, 0, from, [], [])
  {
  }

  lemma PrunedNext(execs: seq<Listed>, i: nat, from: int, deleted: seq<string>, at: seq<nat>)
    requires i < |execs| && Pruned(execs, i, from, deleted, at)
    ensures if execs[i].created > from then Pruned(execs, i + 1, from, deleted, at)
            else Pruned(execs, i + 1, from, deleted + [execs[i].name], at + [i])
  {
    assert i !in at;
    assert forall j :: j in at + [i] <==> j in at || j == i;
  }

  // Deletes the Executions that were not created after `from`, in list order, and stops
  // at the first delete that fails. works says which deletes would succeed.
  method ExecutionPrune(execs: seq<Listed>, now: int, days: int, works: string -> bool)
    returns (ok: bool, deleted: seq<string>, ghost stop: nat, ghost at: seq<nat>)
    ensures Pruned(execs, stop, now - 86400 * (if days < 0 then -days else days), deleted, at) && (ok <==> stop == |execs|)
    ensures !ok ==> !works(execs[stop].name) && execs[stop].created <= now - 86400 * (if days < 0 then -days else days)
    ensures var aged := Aged(execs, now - 86400 * (if days < 0 then -days else days));
            && deleted <= aged && (forall n :: n in deleted ==> works(n))
            && (ok <==> deleted == aged)
            && (!ok ==> !works(aged[|deleted|]))
  {
    hide Pruned, Aged;
    var back := if days > 0 then -days else days;
    var from := now + 86400 * back;
    deleted, at, stop := [], [], |execs|;
    ok := true;
    PrunedNone(execs, from);
    AgedNone(from);
    for i := 0 to |execs|
      invariant deleted == Aged(execs[..i], from)
      invariant forall n :: n in deleted ==> works(n)
      invariant Pruned(execs, i, from, deleted, at)
    {
      AgedNext(execs, i, from);
      PrunedNext(execs, i, from, deleted, at);
      if execs[i].created > from {
        continue;
      }
      if !works(execs[i].name) {
        NextAged(execs, i, from);
        return false, deleted, i, at;
      }
      deleted, at := deleted + [execs[i].name], at + [i];
    }
    assert execs[..|execs|] == execs;
  }

  // The next of the aged Executions after those of the first i listed.
  lemma NextAged(execs: seq<Listed>, i: nat, from: int)
    requires i < |execs| && execs[i].created <= from
    ensures var before, aged := Aged(execs[..i], from), Aged(execs, from);
            before <= aged && |before| < |aged| && aged[|before|] == execs[i].name
  {
    var before, after := Aged(execs[..i], from), Aged(execs[..i + 1], from);
    assert execs[..i + 1][..i] == execs[..i];
    assert after == before + [execs[i].name];
    AgedGrows(execs, i + 1, from);
  }

  lemma {:induction false} AgedGrows(execs: seq<Listed>, k: nat, from: int)
    requires k <= |execs|
    ensures Aged(execs[..k], from) <= Aged(execs, from)
  {
    if k == |execs| {
      assert execs[..k] == execs;
    } else {
      assert execs[..|execs| - 1][..k] == execs[..k];
      AgedGrows(execs[..|execs| - 1], k, from);
    }
  }
}
