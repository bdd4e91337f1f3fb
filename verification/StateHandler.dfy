// The State controller as it is written: pkg/terraform/state/handler.go, deploy.go and
// gather.go. Every pass only takes steps of the machine in module Reconciler, whatever
// comes between its calls, so what Guarantees proves of reachable worlds holds throughout.
module StateHandler {
  import opened Basics
  import opened Inputs
  import opened RunHash
  import opened Reconciler
  import opened ApiServer
  import opened Passes
  import E = Executor
  import M = ModuleController
  import R = Retry
  import S = ExecutorSafety

  // What has been collected after the first `at` items.
  predicate Collected(items: seq<Item>, gathered: seq<Item>, result: seq<Data>) {
    gathered <= items && |items| == |gathered| + |result| && Datas(items[|gathered|..]) == result
  }

  lemma CollectNone(gathered: seq<Item>)
    ensures Collected(gathered, gathered, [])
  {
  }

  lemma CollectOne(items: seq<Item>, gathered: seq<Item>, result: seq<Data>, data: Data)
    requires Collected(items, gathered, result)
    ensures Collected(items + [IData(data)], gathered, result + [data])
  {
    assert (items + [IData(data)])[|gathered|..] == items[|gathered|..] + [IData(data)];
  }

  lemma KeptVars(runs: map<string, E.Run>, runs': map<string, E.Run>, n: string)
    requires RunsKept(runs, runs') && n in runs
    ensures n in runs' && runs'[n].vars == runs[n].vars
  {
  }

  // What getExecutions makes of the runs it has read.
  function Refs(data: seq<(string, string)>, items: seq<Item>): map<string, string>
    requires |items| == |data| && forall i :: 0 <= i < |items| ==> items[i].IRef?
  {
    if data == [] then map[]
    else
      var n := |data| - 1;
      Refs(data[..n], items[..n])[data[n].0 := items[n].execution]
  }

  predicate LastAt(data: seq<(string, string)>, i: nat, k: string) {
    i < |data| && data[i].0 == k && forall j :: i < j < |data| ==> data[j].0 != k
  }

  // Under each name of spec.Data, and no other, the run of the last State listed for it.
  lemma {:induction false} RefsAreLast(data: seq<(string, string)>, items: seq<Item>, k: string) returns (i: nat)
    requires |items| == |data| && forall i :: 0 <= i < |items| ==> items[i].IRef?
    ensures k in Refs(data, items) ==> LastAt(data, i, k) && items[i].execution == Refs(data, items)[k]
    ensures k !in Refs(data, items) ==> forall i :: 0 <= i < |data| ==> data[i].0 != k
  {
    i := 0;
    if data == [] {
    } else {
      var n := |data| - 1;
      if data[n].0 == k {
        i := n;
      } else {
        i := RefsAreLast(data[..n], items[..n], k);
        assert forall j :: 0 <= j < n ==> data[..n][j] == data[j];
      }
    }
  }

  predicate RefersTo(data: seq<(string, string)>, items: seq<Item>, executions: map<string, string>) {
    && |items| == |data| && (forall i :: 0 <= i < |items| ==> items[i].IRef? && items[i].execution != "")
    && executions == Refs(data, items)
  }

  lemma RefersToNone(data: seq<(string, string)>, gathered: seq<Item>)
    ensures RefersTo(data[..0], gathered[|gathered|..], map[])
  {
  }

  lemma RefersToOne(data: seq<(string, string)>, i: nat, items: seq<Item>, executions: map<string, string>, run: string)
    requires i < |data| && RefersTo(data[..i], items, executions) && run != ""
    ensures RefersTo(data[..i + 1], items + [IRef(run)], executions[data[i].0 := run])
  {
    var data', items' := data[..i + 1], items + [IRef(run)];
    assert data'[..i] == data[..i] && data'[i] == data[i] && items'[..i] == items;
    assert Refs(data', items') == Refs(data'[..i], items'[..i])[data[i].0 := run];
  }

  class Handler {
    const c: Cluster

    constructor (c: Cluster)
      ensures this.c == c
    {
      this.c := c;
    }

    // One round of those loops.
    method GetNext(l: Lookup, base: nat, obj: State, ghost at: nat, ghost wanted: seq<Lookup>, ghost start: World,
                   ghost gathered: seq<Item>)
      returns (data: Option<Data>, ghost before: World, ghost items: seq<Item>)
      requires c.Valid() && Gathered(c.w, start, base, obj, gathered) && Wanted(obj.spec, at, wanted)
      requires at <= |gathered| < at + |wanted| && wanted[|gathered| - at] == l && !l.LModule? && !l.LRef?
      modifies c
      ensures c.Valid() && Works(old(c.w), c.w) && c.failures >= old(c.failures)
      ensures data.None? ==> c.w.pc == Idle && c.w.queued && c.failures > old(c.failures)
      ensures data.Some? ==>
        && items == gathered + [IData(data.value)] && Gathered(c.w, before, base, obj, items)
        && Works(old(c.w), before) && Works(before, c.w)
        && |gathered| < |Lookups(obj.spec)| && Fetch(before.deps, Lookups(obj.spec)[|gathered|]) == Some(IData(data.value))
    {
      hide Works, Reaches, Sane, Step, E.Step, Shown, RunsKept, Gathered, Lookups, HashedLookups, Fetch, Wanted, Cluster.Valid;
      Wants(obj.spec, at, wanted, |gathered| - at);
      data, before := c.GetData(l, base, obj, start, gathered);
      items := if data.None? then gathered else gathered + [IData(data.value)];
    }

    // getSecrets, getConfigs and the two loops of getEnvVars: one Get for every name.
    method GetDatas(base: nat, obj: State, wanted: seq<Lookup>, ghost at: nat, ghost start: World, ghost gathered: seq<Item>,
                    ghost w0: World)
      returns (datas: Option<seq<Data>>, ghost before: World, ghost items: seq<Item>)
      requires c.Valid() && Gathered(c.w, start, base, obj, gathered)
      requires Wanted(obj.spec, at, wanted) && |gathered| == at
      requires OfData(wanted) && Works(w0, c.w) && Collects(w0, c.w, obj.spec, gathered)
      modifies c
      ensures c.Valid() && Works(old(c.w), c.w) && c.failures >= old(c.failures)
      ensures datas.None? ==> c.w.pc == Idle && c.w.queued && c.failures > old(c.failures)
      ensures datas.Some? ==>
        && Gathered(c.w, before, base, obj, items) && Collects(w0, c.w, obj.spec, items)
        && Collected(items, gathered, datas.value) && |datas.value| == |wanted| && |items| == |gathered| + |wanted|
    {
      hide Works, Reaches, Sane, Step, E.Step, Shown, RunsKept, Gathered, Lookups, HashedLookups, Collected,
           Collects, Fetch, Wanted, Cluster.Valid;
      before, items := start, gathered;
      var result: seq<Data> := [];
      ReachesItself(c.w);
      CollectNone(gathered);
      for i := 0 to |wanted|
        invariant c.Valid() && Works(old(c.w), c.w) && c.failures >= old(c.failures)
        invariant Gathered(c.w, before, base, obj, items)
        invariant Works(w0, c.w) && Collects(w0, c.w, obj.spec, items)
        invariant Collected(items, gathered, result) && |result| == i && |items| == |gathered| + i
      {
        ghost var here, had := c.w, items;
        var data;
        data, before, items := GetNext(wanted[i], base, obj, at, wanted, before, items);
        WorksTransitive(old(c.w), here, c.w);
        if data.None? {
          return None, before, items;
        }
        WorksTransitive(w0, here, c.w);
        CollectsOne(w0, here, before, c.w, obj.spec, had, IData(data.value));
        CollectOne(had, gathered, result, data.value);
        result := result + [data.value];
      }
      datas := Some(result);
    }

    method GetNextState(i: nat, base: nat, obj: State, ghost at: nat, ghost start: World, ghost gathered: seq<Item>)
      returns (execution: Option<string>, ghost before: World, ghost items: seq<Item>)
      requires c.Valid() && Gathered(c.w, start, base, obj, gathered)
      requires Wanted(obj.spec, at, RefLookups(obj.spec.data)) && i < |obj.spec.data| && |gathered| == at + i
      modifies c
      ensures c.Valid() && Works(old(c.w), c.w) && c.failures >= old(c.failures)
      ensures execution.None? || execution.value == "" ==> c.w.pc == Idle && c.w.queued && c.failures > old(c.failures)
      ensures execution.Some? && execution.value != "" ==>
        && items == gathered + [IRef(execution.value)] && Gathered(c.w, before, base, obj, items)
        && Works(old(c.w), before) && Works(before, c.w)
        && |gathered| < |Lookups(obj.spec)| && Fetch(before.deps, Lookups(obj.spec)[|gathered|]) == Some(IRef(execution.value))
    {
      hide Works, Reaches, Sane, Step, E.Step, Shown, RunsKept, Gathered, Lookups, HashedLookups, Fetch, Wanted,
           RefLookups, Cluster.Valid;
      var data := obj.spec.data;
      RefLookupAt(data, i);
      Wants(obj.spec, at, RefLookups(data), i);
      execution, before := c.GetState(LRef(data[i].0, data[i].1), base, obj, start, gathered);
      items := if execution.None? then gathered else gathered + [IRef(execution.value)];
    }

    // getExecutions: under each name of spec.Data, the run of the State it stands for.
    method GetExecutions(base: nat, obj: State, ghost at: nat, ghost start: World, ghost gathered: seq<Item>, ghost w0: World)
      returns (executions: Option<map<string, string>>, ghost before: World, ghost items: seq<Item>)
      requires c.Valid() && Gathered(c.w, start, base, obj, gathered)
      requires Wanted(obj.spec, at, RefLookups(obj.spec.data)) && |gathered| == at
      requires Works(w0, c.w) && Collects(w0, c.w, obj.spec, gathered)
      modifies c
      ensures c.Valid() && Works(old(c.w), c.w) && c.failures >= old(c.failures)
      ensures executions.None? ==> c.w.pc == Idle && c.w.queued && c.failures > old(c.failures)
      ensures executions.Some? ==>
        && Gathered(c.w, before, base, obj, items) && Collects(w0, c.w, obj.spec, items)
        && gathered <= items && |items| == |gathered| + |obj.spec.data|
        && RefersTo(obj.spec.data, items[|gathered|..], executions.value)
    {
      hide Works, Reaches, Sane, Step, E.Step, Shown, RunsKept, Gathered, Lookups, HashedLookups, Collects, Fetch,
           Wanted, RefLookups, RefersTo,
           Cluster.Valid;
      before, items := start, gathered;
      var result: map<string, string> := map[];
      ReachesItself(c.w);
      RefersToNone(obj.spec.data, gathered);
      for i := 0 to |obj.spec.data|
        invariant c.Valid() && Works(old(c.w), c.w) && c.failures >= old(c.failures)
        invariant Gathered(c.w, before, base, obj, items)
        invariant Works(w0, c.w) && Collects(w0, c.w, obj.spec, items)
        invariant gathered <= items && |items| == |gathered| + i
        invariant RefersTo(obj.spec.data[..i], items[|gathered|..], result)
      {
        ghost var here, had := c.w, items;
        var execution;
        execution, before, items := GetNextState(i, base, obj, at, before, items);
        WorksTransitive(old(c.w), here, c.w);
        if execution.None? {
          return None, before, items;
        }
        if execution.value == "" {
          return None, before, items;
        }
        WorksTransitive(w0, here, c.w);
        CollectsOne(w0, here, before, c.w, obj.spec, had, IRef(execution.value));
        RefersToOne(obj.spec.data, i, had[|gathered|..], result, execution.value);
        assert items[|gathered|..] == had[|gathered|..] + [IRef(execution.value)];
        result := result[obj.spec.data[i].0 := execution.value];
      }
      assert obj.spec.data[..|obj.spec.data|] == obj.spec.data;
      executions := Some(result);
    }

    // The part of gatherInput that reaches the run hash: module, secrets, configs.
    method GatherHashed(base: nat, obj: State)
      returns (r: Option<Hashed>, ghost before: World, ghost items: seq<Item>)
      requires c.Valid() && c.w.pc == Gathering(base, obj, []) && IsInt32(obj.spec.version)
      modifies c
      ensures c.Valid() && Works(old(c.w), c.w) && c.failures >= old(c.failures)
      ensures r.None? ==> c.w.pc == Idle && c.w.queued && c.failures > old(c.failures)
      ensures r.Some? ==>
        && Gathered(c.w, before, base, obj, items) && Collects(old(c.w), c.w, obj.spec, items)
        && HashedFrom(obj.spec, items, r.value)
    {
      hide Works, Reaches, Sane, Step, E.Step, Shown, RunsKept, Gathered, Lookups, HashedLookups, Wanted,
           SecretLookups, ConfigLookups, RefLookups, EnvLookups, OfData, Collected, Collects, Fetch, HashedFrom, Cluster.Valid;
      r := None;
      LookupGroups(obj.spec);
      ghost var w0, s := c.w, 1 + |obj.spec.secretNames|;
      NothingGathered(w0, base, obj);
      ReachesItself(w0);
      var mod;
      mod, before := c.GetModule(obj.spec.moduleName, base, obj, w0, []);
      items := if mod.None? then [] else [IModule(mod.value.content, mod.value.contentHash)];
      if mod.None? {
        return;
      }
      if mod.value.contentHash == "" {
        return;
      }
      ghost var i0, w1 := items, c.w;
      assert [] + i0 == i0;
      CollectsFirst(w0, before, w1, obj.spec, i0[0]);
      var secrets;
      secrets, before, items := GetDatas(base, obj, SecretLookups(obj.spec.secretNames), 1, before, items, w0);
      WorksTransitive(w0, w1, c.w);
      if secrets.None? {
        return;
      }
      ghost var i1, w2 := items, c.w;
      var configs;
      configs, before, items := GetDatas(base, obj, ConfigLookups(obj.spec.configNames), s, before, items, w0);
      WorksTransitive(w0, w2, c.w);
      if configs.None? {
        return;
      }
      var hashed := Hashed(mod.value.content, mod.value.contentHash, secrets.value, configs.value);
      HashedIs(obj.spec, hashed, i0, i1, items);
      r := Some(hashed);
    }

    // gatherInput. It never reports missing information without an error.
    method GatherInput(base: nat, obj: State)
      returns (input: Option<Input>, ok: bool, err: bool, ghost before: World, ghost items: seq<Item>)
      requires c.Valid() && c.w.pc == Gathering(base, obj, []) && IsInt32(obj.spec.version)
      modifies c
      ensures c.Valid() && Works(old(c.w), c.w) && c.failures >= old(c.failures)
      ensures ok == input.Some? && err == !ok
      ensures err ==> c.w.pc == Idle && c.w.queued && c.failures > old(c.failures)
      ensures ok ==>
        && Matches(obj.spec, items) && |items| == |Lookups(obj.spec)|
        && c.w == AfterGather(before, base, obj, items) && input.value == Assemble(obj.spec, items)
        && Collects(old(c.w), c.w, obj.spec, items)
      ensures ok ==> ReadFrom(old(c.w), c.w, obj.spec, input.value)
    {
      hide Works, Reaches, Sane, Step, E.Step, Shown, RunsKept, Gathered, Lookups, HashedLookups, Wanted,
           RefLookups, EnvLookups, OfData, Collected, Collects, Fetch, HashedFrom, RefersTo, Assemble, Matches,
           AfterGather, ReadFrom, Cluster.Valid;
      input, ok, err := None, false, true;
      ghost var w0 := c.w;
      LookupGroups(obj.spec);
      ghost var cs := 1 + |obj.spec.secretNames| + |obj.spec.configNames|;
      ghost var d := cs + |obj.spec.data|;
      ghost var e := d + |obj.spec.envSecretNames|;
      var hashed;
      hashed, before, items := GatherHashed(base, obj);
      if hashed.None? {
        return;
      }
      ghost var i2, w3 := items, c.w;
      assert |i2| == cs by { HashedLength(obj.spec, i2, hashed.value); }
      var found;
      found, before, items := GetExecutions(base, obj, cs, before, items, w0);
      WorksTransitive(w0, w3, c.w);
      if found.None? {
        return;
      }
      ghost var i3, w4 := items, c.w;
      var envSecrets;
      envSecrets, before, items := GetDatas(base, obj, EnvLookups(obj.spec.envSecretNames, []), d, before, items, w0);
      WorksTransitive(w0, w4, c.w);
      if envSecrets.None? {
        return;
      }
      ghost var i4, w5 := items, c.w;
      var envConfigs;
      envConfigs, before, items := GetDatas(base, obj, EnvLookups([], obj.spec.envConfigNames), e, before, items, w0);
      WorksTransitive(w0, w5, c.w);
      if envConfigs.None? {
        return;
      }
      var h := hashed.value;
      var gathered := Input(h.content, h.contentHash, h.secrets, h.configs, envSecrets.value + envConfigs.value,
      obj.spec.image);
      Assembled(c.w, before, base, obj, gathered, i2, i3, i4, items, envSecrets.value, envConfigs.value);
      ItemsAreRead(w0, c.w, obj.spec, gathered, items);
      return Some(gathered), true, false, before, items;
    }

    // createRunHash over getCombinedVars.
    method CreateRunHash(input: Input, version: int, kind: Kind) returns (hash: string)
      requires IsInt32(version)
      ensures hash == InputHash(input, version, kind)
    {
      var vars := CombineVars(input.configs, input.secrets);
      hash := GenerateRunHash(vars, input.contentHash, version, kind);
    }

    // One block of updateOwnerReference: four rounds, whether or not one has succeeded.
    // Unless all four failed, the object is the Execution's afterwards.
    method TryUpdate(n: string, target: E.Target, ghost d: Deployment) returns (ok: bool, ghost answers: seq<R.Answer>)
      requires c.Valid() && InRound(c.w, d, n, target, 0)
      modifies c
      ensures c.Valid() && Works(old(c.w), c.w) && c.failures >= old(c.failures)
      ensures !ok ==> c.w.pc == Idle && c.w.queued && c.failures > old(c.failures)
      ensures ok ==> InRound(c.w, d, n, target, E.ATTEMPTS)
      ensures ok <==> |answers| == 4 && forall k :: 0 <= k < |answers| ==> !R.Fatal(answers[k], true)
      ensures !ok ==> 0 < |answers| <= 4 && R.Fatal(answers[|answers| - 1], true)
      ensures ok ==> Handed(old(c.w), c.w, n, target) || c.failures >= old(c.failures) + 4
    {
      hide Works, Reaches, Sane, Step, E.Step, RunsKept, InRound, Deployment.Stands, Deployment.Done, Handed, S.Exists, S.Owns,
           Cluster.Valid;
      ReachesItself(c.w);
      answers := [];
      ghost var handed := false;
      for i := 0 to E.ATTEMPTS
        invariant |answers| == i && forall k :: 0 <= k < |answers| ==> !R.Fatal(answers[k], true)
        invariant c.Valid() && Works(old(c.w), c.w) && c.failures >= old(c.failures)
        invariant InRound(c.w, d, n, target, i)
        invariant if handed then Handed(old(c.w), c.w, n, target) else c.failures >= old(c.failures) + i
      {
        ghost var here := c.w;
        var a := c.Adopt(n, target, d, i);
        WorksTransitive(old(c.w), here, c.w);
        answers := answers + [a];
        assert answers[i] == a;
        if a.Other? {
          return false, answers;
        }
        if a.Fine? {
          HandedNow(old(c.w), c.w, n, target);
          handed := true;
        } else if handed {
          ReachesItself(old(c.w));
          HandedWithin(old(c.w), old(c.w), here, c.w, n, target);
        }
      }
      ok := true;
    }

    // updateOwnerReference on the service account, the role binding and the secret.
    method UpdateOwnerReference(n: string, ghost d: Deployment) returns (ok: bool)
      requires c.Valid() && d.Stands(c.w, Adopt(n, E.Account, 0))
      modifies c
      ensures c.Valid() && Works(old(c.w), c.w) && c.failures >= old(c.failures)
      ensures !ok ==> c.w.pc == Idle && c.w.queued && c.failures > old(c.failures)
      ensures ok ==> d.Done(c.w, n)
      ensures ok ==> forall target :: Handed(old(c.w), c.w, n, target) || c.failures >= old(c.failures) + 4
    {
      hide Works, Reaches, Sane, Step, E.Step, RunsKept, Deployment.Stands, Deployment.Done, Handed, Cluster.Valid;
      ghost var w0, answers: seq<R.Answer> := c.w, [];
      ReachesItself(w0);
      ok, answers := TryUpdate(n, E.Account, d);
      if !ok {
        return;
      }
      ghost var w1 := c.w;
      ok, answers := TryUpdate(n, E.Binding, d);
      WorksTransitive(w0, w1, c.w);
      if !ok {
        return;
      }
      ghost var w2 := c.w;
      ok, answers := TryUpdate(n, E.Secret, d);
      WorksTransitive(w0, w2, c.w);
      WorksTransitive(w1, w2, c.w);
      if ok {
        AllHanded(w0, w1, w2, c.w, n);
        forall target ensures Handed(w0, c.w, n, target) || c.failures >= old(c.failures) + 4 {
          match target
          case Account =>
          case Binding =>
          case Secret =>
        }
      }
    }

    // The service account and the role binding.
    method CreateAccess(n: string, ghost d: Deployment) returns (ok: bool)
      requires c.Valid() && d.Stands(c.w, MakeAccount(n))
      modifies c
      ensures c.Valid() && Works(old(c.w), c.w) && c.failures >= old(c.failures)
      ensures !ok ==> c.w.pc == Idle && c.w.queued && c.failures > old(c.failures)
      ensures ok ==> d.Stands(c.w, MakeJob(n))
      ensures ok && n in old(c.runs) ==> n in c.runs && c.runs[n].made == old(c.runs)[n].made
    {
      hide Works, Reaches, Sane, Step, E.Step, Shown, RunsKept, Deployment.Stands, Deployment.Done, SameRun, Cluster.Valid;
      ghost var w0, found;
      w0 := c.w;
      ok, found := c.Deploy(n, E.MakeAccount, d, MakeAccount(n), MakeBinding(n));
      if !ok {
        return;
      }
      ghost var w1 := c.w;
      ok, found := c.Deploy(n, E.MakeBinding, d, MakeBinding(n), MakeJob(n));
      WorksTransitive(w0, w1, c.w);
    }

    // What deployCreate and deployDestroy put in place before the Job.
    method CreateObjects(obj: State, input: Input, kind: Kind, ghost d: Deployment) returns (run: Option<string>)
      requires c.Valid() && d.Stands(c.w, MakeExecution) && d.obj == obj && d.input == input
      requires IsInt32(obj.spec.version) && kind == obj.Kind()
      modifies c
      ensures c.Valid() && Works(old(c.w), c.w) && c.failures >= old(c.failures)
      ensures run.None? ==> c.w.pc == Idle && c.w.queued && c.failures > old(c.failures)
      ensures run.Some? ==> d.Stands(c.w, MakeJob(run.value)) && run.value !in old(c.w.runs) && run.value in c.w.runs
      ensures run.Some? ==> Made(c.w.runs[run.value], obj, input, InputHash(input, obj.spec.version, obj.Kind()))
      ensures run.Some? ==> c.w.runs[run.value].made.None?
    {
      hide Works, Reaches, Sane, Step, E.Step, Shown, RunsKept, InputHash, CombinedVars, Deployment.Stands,
           Deployment.Done, Made, SameRun, Cluster.Valid;
      run := None;
      ghost var w0 := c.w;
      var runHash := CreateRunHash(input, obj.spec.version, kind);
      var vars := CombineVars(input.configs, input.secrets);
      var exec := c.CreateExecution(obj, input.content, input.contentHash, vars, runHash, d);
      if exec.None? {
        return;
      }
      var n := exec.value;
      ghost var w1, found := c.w, c.runs[n];
      MadeVars(found, obj, input, runHash);
      var ok;
      ok, found := c.Deploy(n, E.NameSecret, d, NameSecret(n), MakeSecret(n));
      WorksTransitive(w0, w1, c.w);
      if !ok {
        return;
      }
      ghost var w2 := c.w;
      KeptVars(w1.runs, c.runs, n);
      ok, found := c.CreateSecret(n, vars, d);
      WorksTransitive(w1, w2, c.w);
      WorksTransitive(w0, w1, c.w);
      if !ok {
        return;
      }
      ghost var w3 := c.w;
      ok := CreateAccess(n, d);
      WorksTransitive(w1, w3, c.w);
      WorksTransitive(w0, w1, c.w);
      if !ok {
        return;
      }
      MadeStays(w1, c.w, n, obj, input, runHash);
      run := Some(n);
    }

    // deployCreate and deployDestroy, which differ in the action alone. What comes back is
    // a new run of this input, under its own hash, with its Job made.
    method DeployRun(base: nat, obj: State, input: Input, kind: Kind, ghost hash: string) returns (run: Option<string>)
      requires c.Valid() && Deployment(base, obj, input, hash).Stands(c.w, MakeExecution)
      requires IsInt32(obj.spec.version) && kind == obj.Kind()
      modifies c
      ensures c.Valid() && Works(old(c.w), c.w) && c.failures >= old(c.failures)
      ensures run.None? ==> c.w.pc == Idle && c.w.queued && c.failures > old(c.failures)
      ensures run.Some? ==> Deployment(base, obj, input, hash).Done(c.w, run.value)
      ensures run.Some? ==> run.value !in old(c.w.runs) && Launched(c.w.runs, run.value, obj, input)
      ensures run.Some? ==> forall target :: Handed(old(c.w), c.w, run.value, target) || c.failures >= old(c.failures) + 4
    {
      hide Works, Reaches, Sane, Step, E.Step, Shown, RunsKept, InputHash, CombinedVars, Deployment.Stands,
           Deployment.Done, Made, Launched, SameRun, Handed, Cluster.Valid;
      ghost var w0, d := c.w, Deployment(base, obj, input, hash);
      run := CreateObjects(obj, input, kind, d);
      if run.None? {
        return;
      }
      var n, job := run.value, E.Job(input.image, input.env, kind);
      ghost var w1 := c.w;
      var ok;
      ghost var found;
      ok, found := c.Deploy(n, E.MakeJob(job), d, MakeJob(n), Adopt(n, E.Account, 0));
      WorksTransitive(w0, w1, c.w);
      if !ok {
        return None;
      }
      ghost var w2 := c.w;
      JobLaunched(w1, w2, n, obj, input, found, job);
      ok := UpdateOwnerReference(n, d);
      WorksTransitive(w0, w2, c.w);
      if !ok {
        return None;
      }
      WorksKeepsRuns(w2, c.w);
      LaunchedStays(w2.runs, c.w.runs, n, obj, input);
      HandedSince(w0, w2, c.w, n);
    }

    // How it ends says what it found: without an error the State is at rest, or has been
    // cleared of a finished run, or runs anew; or somebody else got in before the lock -
    // or the lock was lost to a failure nobody hears of.
    method OnChange(base: nat, given: State) returns (err: bool, ghost end: ChangeEnd)
      requires c.Valid() && c.w.pc == Gathering(base, given, []) && !given.deleting && IsInt32(given.spec.version)
      modifies c
      ensures c.Valid() && Works(old(c.w), c.w) && c.failures >= old(c.failures) && c.w.pc == Idle
      ensures err ==> c.w.queued
      ensures err <==> end.Troubled?
      ensures end.Troubled? || end.LockLost? ==> c.failures > old(c.failures)
      ensures ChangeEnds(given, base, end, old(c.w), c.w) && ChangeMeans(given, end, old(c.w), c.w)
      ensures given.Tracking() && !end.Troubled? && !end.Untracked? ==>
        StillRunning(old(c.w), c.w, given.status.executionName)
    {
      hide Works, Reaches, Sane, Step, E.Step, Shown, RunsKept, InputHash, Assemble, Lookups, Matches,
           AfterGather, Decide, Launched, Collects, ReadFrom, BeenApplied, StillRunning, Accepts, ChangeEnds,
           ChangeMeans, Cluster.Valid;
      var obj := given;
      ghost var w0 := c.w;
      var gathered, ok;
      ghost var before, items;
      gathered, ok, err, before, items := GatherInput(base, obj);
      if err {
        EndsTroubled(given, base, w0, c.w);
        EndsMean(given, base, Troubled, w0, c.w);
        return true, Troubled;
      }
      if !ok {
        assert false;
      }
      var input := gathered.value;
      ghost var w1 := c.w;
      ChangeGathered(before, base, obj, items);
      if obj.status.jobDeployed == IsTrue && obj.status.lastRunHash != "" {
        var over;
        over, err, end, before := CheckRun(base, obj, items);
        WorksTransitive(w0, w1, c.w);
        if over {
          EndsChecked(given, base, end, w0, c.w);
          EndsMean(given, base, end, w0, c.w);
          return;
        }
        ReadLater(w0, w1, c.w, given.spec, input);
      }
      ghost var w3 := c.w;
      err, end := RunIfChanged(base, obj, input, before, w0);
      WorksTransitive(w0, w3, c.w);
      if given.Tracking() { RunningWithin(w0, w1, w3, c.w, given.status.executionName); }
      EndsMean(given, base, end, w0, c.w);
    }

    // The version and the hash that decide: a State whose hash is the one asked for rests.
    method RunIfChanged(base: nat, given: State, input: Input, ghost before: World, ghost w0: World)
      returns (err: bool, ghost end: ChangeEnd)
      requires c.Valid() && !given.deleting && IsInt32(given.spec.version)
      requires c.w == Decide(before, base, given, input)
      requires Works(w0, c.w) && ReadFrom(w0, c.w, given.spec, input)
      modifies c
      ensures c.Valid() && Works(old(c.w), c.w) && c.failures >= old(c.failures) && c.w.pc == Idle
      ensures err ==> c.w.queued
      ensures err <==> end.Troubled?
      ensures end.Troubled? || end.LockLost? ==> c.failures > old(c.failures)
      ensures ChangeEnds(given, base, end, w0, c.w)
    {
      hide Works, Reaches, Sane, Step, E.Step, Shown, RunsKept, InputHash, Decide, Launched, ReadFrom, Accepts, ChangeEnds,
           Redeployed, Cluster.Valid;
      var obj := given;
      ChangeDecided(before, base, obj, input);
      if obj.spec.version < 1 {
        obj := obj.(spec := obj.spec.(version := 1));
      }
      var runHash := CreateRunHash(input, obj.spec.version, Create);
      if runHash == obj.status.lastRunHash {
        ReachesItself(c.w);
        EndsAtRest(given, base, input, w0, c.w);
        return false, AtRest(input);
      }
      ghost var w1 := c.w;
      err, end := RunExecution(base, obj, input, runHash);
      if end.Ran? {
        RunsAnew(given, obj, end.run, input, runHash, c.w);
      }
      EndsDeployed(given, base, input, end, w0, w1, c.w);
    }

    // A job is tracked: once its Execution is Applied it is taken off the State, and while
    // it is not the pass goes on.
    method CheckRun(base: nat, given: State, ghost items: seq<Item>)
      returns (over: bool, err: bool, ghost end: ChangeEnd, ghost before: World)
      requires c.Valid() && c.w.pc == Checking(base, given, items) && !given.deleting && given.Tracking()
      requires IsInt32(given.spec.version) && Matches(given.spec, items) && |items| == |Lookups(given.spec)|
      modifies c
      ensures c.Valid() && Works(old(c.w), c.w) && c.failures >= old(c.failures)
      ensures over ==> c.w.pc == Idle && (err ==> c.w.queued) && (err <==> end.Troubled?)
      ensures over ==> (if err then c.failures > old(c.failures) else end.Untracked?)
      ensures over && !err ==>
        BeenApplied(c.w.runs, given.status.executionName) && c.w.hist != [] && c.w.Current() == Cleared(given)
      ensures !over ==> c.w == Decide(before, base, given, Assemble(given.spec, items))
      ensures !over ==> StillRunning(old(c.w), c.w, given.status.executionName)
    {
      hide Works, Reaches, Sane, Step, E.Step, Shown, RunsKept, Assemble, Lookups, Matches, Decide, BeenApplied, StillRunning,
           Cluster.Valid;
      over, err, end := true, true, Troubled;
      ghost var w0 := c.w;
      var execution;
      execution, before := c.GetExecution(given.status.executionName);
      if execution.None? {
        return;
      }
      if execution.value.applied {
        var obj := given;
        ghost var w1 := c.w;
        HasBeenApplied(w1, obj.status.executionName);
        obj := obj.(status := obj.status.(jobDeployed := IsFalse));
        obj := obj.(status := obj.status.(executionName := ""));
        var ok, stored := c.UpdateState(base, obj);
        WorksTransitive(w0, w1, c.w);
        AppliedStays(w1.runs, c.w.runs, given.status.executionName);
        err, end := !ok, if ok then Untracked else Troubled;
        return;
      }
      RunningNow(w0, c.w, given.status.executionName);
      over := false;
    }

    // The rest of OnChange: take the lock, deploy a create run, record it.
    method RunExecution(base: nat, given: State, input: Input, runHash: string) returns (err: bool, ghost end: ChangeEnd)
      requires c.Valid() && c.w.pc == Locking(base, given, input, runHash)
      requires !given.deleting && IsInt32(given.spec.version)
      modifies c
      ensures c.Valid() && Works(old(c.w), c.w) && c.failures >= old(c.failures) && c.w.pc == Idle
      ensures err ==> c.w.queued
      ensures err <==> end.Troubled?
      ensures end.Troubled? || end.LockLost? ==> c.failures > old(c.failures)
      ensures end.Troubled? || end.LockLost? || end.Ran?
      ensures end.LockLost? ==> c.w.hist != [] && (c.w.lost || !Accepts(c.w, base))
      ensures end.Ran? ==>
        && end.input == input && c.w.hist != [] && c.w.Current() == Recorded(Imaged(given), end.run, runHash)
        && end.run !in old(c.w.runs) && Launched(c.w.runs, end.run, Imaged(given), input)
    {
      hide Works, Reaches, Sane, Step, E.Step, Shown, RunsKept, Launched, InputHash, Accepts, Cluster.Valid;
      var obj := given;
      ghost var w0 := c.w;
      var ok, locked := c.UpdateState(base, obj);
      if !ok {
        return false, LockLost;
      }
      if obj.spec.image == "" {
        obj := obj.(spec := obj.spec.(image := DEFAULT_IMAGE));
      }
      ghost var w1 := c.w;
      var run := DeployRun(locked, obj, input, Create, runHash);
      WorksTransitive(w0, w1, c.w);
      if run.None? {
        return true, Troubled;
      }
      WorksKeepsRuns(w0, w1);
      KeptName(w0.runs, w1.runs, run.value);
      obj := obj.(status := obj.status.(jobDeployed := IsTrue));
      obj := obj.(status := obj.status.(executionName := run.value));
      obj := obj.(status := obj.status.(lastRunHash := runHash));
      ghost var w2 := c.w;
      ok, locked := c.UpdateState(locked, obj);
      WorksTransitive(w0, w2, c.w);
      WorksKeepsRuns(w2, c.w);
      LaunchedStays(w2.runs, c.w.runs, run.value, Imaged(given), input);
      return !ok, if ok then Ran(run.value, input) else Troubled;
    }

    // With no error the finalizer may come off the object returned. Every error says that
    // it may not yet: something failed, a run is still being waited for, or a destroy has
    // just been deployed.
    method OnRemove(base: nat, given: State) returns (obj: State, err: bool, ghost end: RemoveEnd)
      requires c.Valid() && c.w.pc == Gathering(base, given, []) && given.deleting && IsInt32(given.spec.version)
      modifies c
      ensures c.Valid() && Works(old(c.w), c.w) && c.failures >= old(c.failures)
      ensures err ==> c.w.pc == Idle && c.w.queued
      ensures !err ==> c.w.pc == Releasing(base, obj)
      ensures err <==> !end.Free?
      ensures end.Failed? ==> c.failures > old(c.failures)
      ensures RemoveEnds(given, obj, end, old(c.w), c.w) && RemoveMeans(given, obj, end, old(c.w), c.w)
      ensures end.Waiting? ==> c.failures > old(c.failures) || StillRunning(old(c.w), c.w, given.status.executionName)
    {
      hide Works, Reaches, Sane, Step, E.Step, Shown, RunsKept, InputHash, Assemble, Lookups, Matches, Write, Decide,
           Launched, Collects, ReadFrom, RemoveMeans, BeenApplied, StillRunning, Cluster.Valid;
      obj := given;
      ghost var w0 := c.w;
      var gathered, ok;
      ghost var before, items;
      gathered, ok, err, before, items := GatherInput(base, obj);
      if err {
        EndMeans(given, obj, RemoveEnd.Failed, w0, c.w);
        return obj, true, RemoveEnd.Failed;
      }
      if !ok {
        assert false;
      }
      var input := gathered.value;
      ghost var w1 := c.w;
      if !obj.spec.destroyOnDelete || obj.status.destroyed == IsTrue {
        EndMeans(given, obj, Free, w0, c.w);
        return obj, false, Free;
      }
      obj := obj.(status := obj.status.(missingInfo := IsFalse));
      if obj.status.jobDeployed == IsTrue && obj.status.lastRunHash != "" {
        var finished := CheckDestroy(base, obj);
        WorksTransitive(w0, w1, c.w);
        if finished {
          EndMeans(given, obj, Free, w0, c.w);
          return obj, false, Free;
        }
        EndMeans(given, obj, Waiting, w0, c.w);
        if c.failures <= old(c.failures) {
          ReachesItself(c.w);
          RunningWithin(w0, w1, c.w, c.w, given.status.executionName);
        }
        return obj, true, Waiting;
      }
      var runHash := CreateRunHash(input, obj.spec.version, Destroy);
      if runHash == obj.status.lastRunHash && obj.status.jobDeployed == IsTrue {
        return obj, true, Guarded;
      }
      obj := obj.(status := obj.status.(lastRunHash := runHash));
      obj, end := RunDestroy(base, obj, input, runHash);
      WorksTransitive(w0, w1, c.w);
      WorksKeepsRuns(w0, w1);
      if end.Destroying? {
        KeptName(w0.runs, w1.runs, end.run);
        ReadLater(w0, w1, c.w, given.spec, input);
      }
      EndMeans(given, obj, end, w0, c.w);
      err := true;
    }

    // A run is tracked: only once its Execution is Applied may the State go.
    method CheckDestroy(base: nat, given: State) returns (finished: bool)
      requires c.Valid() && c.w.pc.Checking? && c.w.pc.base == base && c.w.pc.obj == given && given.deleting
      modifies c
      ensures c.Valid() && Works(old(c.w), c.w) && c.failures >= old(c.failures)
      ensures finished ==> c.w.pc == Releasing(base, given) && BeenApplied(c.w.runs, given.status.executionName)
      ensures !finished ==> c.w.pc == Idle && c.w.queued
      ensures !finished ==> c.failures > old(c.failures) || StillRunning(old(c.w), c.w, given.status.executionName)
    {
      hide Works, Reaches, Sane, Step, E.Step, Shown, RunsKept, Assemble, Lookups, Matches, Decide, BeenApplied, StillRunning,
           Cluster.Valid;
      ghost var w0 := c.w;
      var execution;
      ghost var before;
      execution, before := c.GetExecution(given.status.executionName);
      finished := execution.Some? && execution.value.applied;
      HasBeenApplied(c.w, given.status.executionName);
      if execution.Some? && !finished { RunningNow(w0, c.w, given.status.executionName); }
    }

    // The rest of OnRemove: take the lock, deploy a destroy run, record it.
    method RunDestroy(base: nat, given: State, input: Input, runHash: string) returns (obj: State, ghost end: RemoveEnd)
      requires c.Valid() && c.w.pc == Locking(base, given, input, runHash)
      requires given.deleting && IsInt32(given.spec.version) && given.status.lastRunHash == runHash
      modifies c
      ensures c.Valid() && Works(old(c.w), c.w) && c.failures >= old(c.failures)
      ensures c.w.pc == Idle && c.w.queued
      ensures end.Failed? || end.Destroying?
      ensures end.Failed? ==> c.failures > old(c.failures)
      ensures end.Destroying? ==>
        && end.input == input && c.w.hist != [] && c.w.Current() == Recorded(given, end.run, runHash)
        && end.run !in old(c.w.runs) && Launched(c.w.runs, end.run, given, input)
    {
      hide Works, Reaches, Sane, Step, E.Step, Shown, RunsKept, Launched, InputHash, Accepts, Cluster.Valid;
      obj := given;
      ghost var w0 := c.w;
      var ok, stored := c.UpdateState(base, obj);
      if !ok {
        return obj, RemoveEnd.Failed;
      }
      ghost var w1 := c.w;
      var run := DeployRun(stored, obj, input, Destroy, runHash);
      WorksTransitive(w0, w1, c.w);
      if run.None? {
        return obj, RemoveEnd.Failed;
      }
      WorksKeepsRuns(w0, w1);
      KeptName(w0.runs, w1.runs, run.value);
      obj := obj.(status := obj.status.(executionName := run.value));
      obj := obj.(status := obj.status.(jobDeployed := IsTrue));
      ghost var w2 := c.w;
      ok, stored := c.UpdateState(stored, obj);
      WorksTransitive(w0, w2, c.w);
      WorksKeepsRuns(w2, c.w);
      LaunchedStays(w2.runs, c.w.runs, run.value, given, input);
      return obj, if ok then RemoveEnd.Destroying(run.value, input) else RemoveEnd.Failed;
    }

    // One pass over a key the queue has handed out: the handler that applies, and the
    // finalizer when it agrees. A pass that ends in an error leaves the key queued.
    method Process(base: nat, given: State) returns (err: bool, ghost change: ChangeEnd)
      requires c.Valid() && c.w.pc == Gathering(base, given, []) && IsInt32(given.spec.version)
      modifies c
      ensures c.Valid() && Works(old(c.w), c.w) && c.w.pc == Idle
      ensures err ==> c.w.queued
      ensures !given.deleting ==> (err <==> change.Troubled?) && ChangeEnds(given, base, change, old(c.w), c.w)
      ensures !given.deleting ==> ChangeMeans(given, change, old(c.w), c.w)
      ensures given.deleting && !err ==>
        && c.w.hist != [] && c.w.Gone()
        && (given.spec.destroyOnDelete && given.status.destroyed != IsTrue ==>
              given.Tracking() && BeenApplied(c.w.runs, given.status.executionName))
    {
      hide Works, Reaches, Sane, Step, E.Step, Shown, RunsKept, InputHash, Launched, Collects, BeenApplied,
           ChangeEnds, ChangeMeans, RemoveMeans, ReadFrom, Cluster.Valid;
      ghost var w0 := c.w;
      if given.deleting {
        var done;
        ghost var end;
        done, err, end := OnRemove(base, given);
        change := Troubled;
        if !err {
          ghost var w1 := c.w;
          var ok, stored := c.UpdateState(base, done.(finalizer := false));
          WorksTransitive(w0, w1, c.w);
          AppliedStays(w1.runs, c.w.runs, given.status.executionName);
          err := !ok;
        }
      } else {
        err, change := OnChange(base, given);
      }
    }
  }

  // ---- How passes end.

  lemma HasBeenApplied(w: World, n: string)
    ensures RunFound(w, n) && w.runs[n].hist != [] && w.runs[n].Current().applied ==> BeenApplied(w.runs, n)
  {
  }

  lemma AppliedStays(runs: map<string, E.Run>, runs': map<string, E.Run>, n: string)
    requires RunsKept(runs, runs')
    ensures BeenApplied(runs, n) ==> BeenApplied(runs', n)
  {
    KeptRun(runs, runs', n);
    if BeenApplied(runs, n) {
      var i :| 0 <= i < |runs[n].hist| && runs[n].hist[i].applied;
      assert runs'[n].hist[i].applied;
    }
  }

  ghost predicate ChangeEnds(given: State, base: nat, end: ChangeEnd, w: World, w': World) {
    && IsInt32(given.spec.version) && w'.hist != []
    && var s := Normalised(given);
       match end
       case Troubled => true
       case AtRest(input) =>
         ReadFrom(w, w', given.spec, input) && InputHash(input, s.spec.version, Create) == given.status.lastRunHash
       case Untracked =>
         given.Tracking() && BeenApplied(w'.runs, given.status.executionName) && w'.Current() == Cleared(given)
       case LockLost => w'.lost || !Accepts(w', base)
       case Ran(run, input) =>
         ReadFrom(w, w', given.spec, input) && run !in w.runs && Redeployed(given, run, input, w')
  }

  // The State runs anew: its hash was another one, and the run it now tracks is of this input.
  ghost predicate Redeployed(given: State, run: string, input: Input, w: World)
    requires IsInt32(given.spec.version) && w.hist != []
  {
    var s := Normalised(given);
    var hash := InputHash(input, s.spec.version, Create);
    hash != given.status.lastRunHash && w.Current() == Recorded(Imaged(s), run, hash) && Launched(w.runs, run, Imaged(s), input)
  }

  lemma RunsAnew(given: State, s: State, run: string, input: Input, hash: string, w: World)
    requires IsInt32(given.spec.version) && s == Normalised(given)
    requires hash == InputHash(input, s.spec.version, Create) && hash != given.status.lastRunHash
    requires w.hist != [] && w.Current() == Recorded(Imaged(s), run, hash) && Launched(w.runs, run, Imaged(s), input)
    ensures Redeployed(given, run, input, w)
  {
    hide InputHash, Launched;
  }

  lemma EndsMean(given: State, base: nat, end: ChangeEnd, w: World, w': World)
    requires !given.deleting && ChangeEnds(given, base, end, w, w')
    ensures ChangeMeans(given, end, w, w')
  {
    hide InputHash, ReadFrom, Fingerprint, Launched, Started, BeenApplied, Accepts;
    var version := if given.spec.version < 1 then 1 else given.spec.version;
    match end
    case AtRest(input) => InputHashIs(input, version, Create);
    case Ran(run, input) =>
      InputHashIs(input, version, Create);
      var s := Imaged(Normalised(given));
      LaunchedIsStarted(w'.runs, run, s, input, Create);
      StartedFor(w'.runs, run, Create, s, given, input, InputHash(input, version, Create), version);
    case _ =>
  }

  lemma EndsTroubled(given: State, base: nat, w: World, w': World)
    requires IsInt32(given.spec.version) && w'.hist != []
    ensures ChangeEnds(given, base, Troubled, w, w')
  {
  }

  lemma EndsChecked(given: State, base: nat, end: ChangeEnd, w: World, w': World)
    requires IsInt32(given.spec.version) && w'.hist != [] && (end.Troubled? || end.Untracked?)
    requires end.Untracked? ==>
      given.Tracking() && BeenApplied(w'.runs, given.status.executionName) && w'.Current() == Cleared(given)
    ensures ChangeEnds(given, base, end, w, w')
  {
  }

  lemma EndsAtRest(given: State, base: nat, input: Input, w: World, w': World)
    requires IsInt32(given.spec.version) && w'.hist != [] && ReadFrom(w, w', given.spec, input)
    requires InputHash(input, Normal(given.spec.version), Create) == given.status.lastRunHash
    ensures ChangeEnds(given, base, AtRest(input), w, w')
  {
    hide ReadFrom, InputHash;
  }

  lemma EndsDeployed(given: State, base: nat, input: Input, end: ChangeEnd, w: World, v: World, w': World)
    requires IsInt32(given.spec.version) && w'.hist != [] && ReadFrom(w, v, given.spec, input) && Works(w, v) && Works(v, w')
    requires end.Troubled? || end.LockLost? || end.Ran?
    requires end.LockLost? ==> w'.lost || !Accepts(w', base)
    requires end.Ran? ==> end.input == input && end.run !in v.runs && Redeployed(given, end.run, input, w')
    ensures ChangeEnds(given, base, end, w, w')
  {
    hide ReadFrom, InputHash, Works, Launched, RunsKept, Accepts, Redeployed;
    ReadLater(w, v, w', given.spec, input);
    WorksKeepsRuns(w, v);
    if end.Ran? { KeptName(w.runs, v.runs, end.run); }
  }

  ghost predicate RemoveEnds(given: State, obj: State, end: RemoveEnd, w: World, w': World) {
    && IsInt32(given.spec.version)
    && match end
       case Failed => true
       case Free =>
         && (obj == given || obj == Informed(given))
         && (given.spec.destroyOnDelete && given.status.destroyed != IsTrue ==>
               given.Tracking() && BeenApplied(w'.runs, given.status.executionName))
       case Waiting => given.spec.destroyOnDelete && given.status.destroyed != IsTrue && given.Tracking()
       case Guarded => given.status.jobDeployed == IsTrue && !given.Tracking()
       case Destroying(run, input) =>
         && ReadFrom(w, w', given.spec, input) && !given.Tracking()
         && given.spec.destroyOnDelete && given.status.destroyed != IsTrue
         && var hash := InputHash(input, given.spec.version, Destroy);
            && w'.hist != [] && w'.Current() == Recorded(Informed(given), run, hash)
            && run !in w.runs
            && exists s :: Launched(w'.runs, run, s, input) && s.spec == given.spec && s.Kind() == Destroy
  }

  lemma EndMeans(given: State, obj: State, end: RemoveEnd, w: World, w': World)
    requires given.deleting && RemoveEnds(given, obj, end, w, w')
    ensures RemoveMeans(given, obj, end, w, w')
  {
    hide InputHash, ReadFrom, Fingerprint, Launched, Started, BeenApplied;
    if end.Destroying? {
      var version := given.spec.version;
      var s :| Launched(w'.runs, end.run, s, end.input) && s.spec == given.spec && s.Kind() == Destroy;
      InputHashIs(end.input, version, Destroy);
      LaunchedIsStarted(w'.runs, end.run, s, end.input, Destroy);
      StartedFor(w'.runs, end.run, Destroy, s, given, end.input, InputHash(end.input, version, Destroy), version);
    }
  }

  lemma MadeVars(r: E.Run, obj: State, input: Input, runHash: string)
    requires Made(r, obj, input, runHash)
    ensures r.vars == input.Vars()
  {
  }

  lemma MadeStays(w: World, w': World, n: string, obj: State, input: Input, runHash: string)
    requires Works(w, w') && n in w.runs && Made(w.runs[n], obj, input, runHash)
    ensures n in w'.runs && Made(w'.runs[n], obj, input, runHash)
  {
    hide Works;
    WorksKeepsRuns(w, w');
    KeptRun(w.runs, w'.runs, n);
  }

  // From the Execution to the Job it stays the run it was made.
  lemma JobLaunched(w: World, w': World, n: string, obj: State, input: Input, found: E.Run, job: E.Job)
    requires Works(w, w') && n in w.runs && IsInt32(obj.spec.version)
    requires Made(w.runs[n], obj, input, InputHash(input, obj.spec.version, obj.Kind()))
    requires found.made.None? && job == E.Job(input.image, input.env, obj.Kind())
    requires n in w'.runs && found.hist != [] && w'.runs[n] == E.Step(found, E.MakeJob(job))
    ensures Launched(w'.runs, n, obj, input)
  {
    hide Works, InputHash, E.GoStep;
    WorksKeepsRuns(w, w');
    KeptRun(w.runs, w'.runs, n);
  }

  // Where OnChange stands once its input is complete, and once it has decided.
  lemma ChangeGathered(w: World, base: nat, obj: State, items: seq<Item>)
    requires !obj.deleting && IsInt32(obj.spec.version) && Matches(obj.spec, items) && |items| == |Lookups(obj.spec)|
    ensures AfterGather(w, base, obj, items)
         == if obj.Tracking() then w.(pc := Checking(base, obj, items)) else Decide(w, base, obj, Assemble(obj.spec, items))
  {
  }

  lemma ChangeDecided(w: World, base: nat, obj: State, input: Input)
    requires IsInt32(obj.spec.version)
    ensures var s := obj.(spec := obj.spec.(version := Normal(obj.spec.version)));
            var hash := InputHash(input, s.spec.version, Create);
            Decide(w, base, obj, input).pc == if hash == obj.status.lastRunHash then Idle else Locking(base, s, input, hash)
  {
    hide InputHash;
  }

  lemma NothingGathered(w: World, base: nat, obj: State)
    requires w.pc == Gathering(base, obj, []) && IsInt32(obj.spec.version)
    ensures Gathered(w, w, base, obj, [])
  {
  }

  datatype Hashed = Hashed(content: M.Content, contentHash: string, secrets: seq<Data>, configs: seq<Data>)

  // The first items of a State, read as what its run hash is made of.
  predicate HashedFrom(spec: StateSpec, items: seq<Item>, h: Hashed) {
    var s := 1 + |spec.secretNames|;
    && |items| == s + |spec.configNames| && items[0] == IModule(h.content, h.contentHash)
    && Datas(items[1..s]) == h.secrets && Datas(items[s..]) == h.configs
  }

  lemma HashedLength(spec: StateSpec, items: seq<Item>, h: Hashed)
    requires HashedFrom(spec, items, h)
    ensures |items| == 1 + |spec.secretNames| + |spec.configNames|
  {
  }

  lemma HashedIs(spec: StateSpec, h: Hashed, i0: seq<Item>, i1: seq<Item>, items: seq<Item>)
    requires i0 == [IModule(h.content, h.contentHash)]
    requires Collected(i1, i0, h.secrets) && |h.secrets| == |spec.secretNames|
    requires Collected(items, i1, h.configs) && |h.configs| == |spec.configNames|
    ensures HashedFrom(spec, items, h)
  {
    assert items[1..|i1|] == i1[1..];
  }

  // With the references and the environment they make up the Input, and nothing is left.
  lemma Assembled(w: World, before: World, base: nat, obj: State, input: Input,
                  i2: seq<Item>, i3: seq<Item>, i4: seq<Item>, items: seq<Item>,
                  envSecrets: seq<Data>, envConfigs: seq<Data>)
    requires Gathered(w, before, base, obj, items)
    requires HashedFrom(obj.spec, i2, Hashed(input.content, input.contentHash, input.secrets, input.configs))
    requires i2 <= i3 && |i3| == |i2| + |obj.spec.data|
    requires Collected(i4, i3, envSecrets) && |envSecrets| == |obj.spec.envSecretNames|
    requires Collected(items, i4, envConfigs) && |envConfigs| == |obj.spec.envConfigNames|
    requires input.env == envSecrets + envConfigs && input.image == obj.spec.image
    ensures Matches(obj.spec, items) && |items| == |Lookups(obj.spec)|
    ensures w == AfterGather(before, base, obj, items) && Assemble(obj.spec, items) == input
  {
    hide Matches, Lookups, HashedLookups, AfterGather;
    LookupGroups(obj.spec);
    var s, c := 1 + |obj.spec.secretNames|, 1 + |obj.spec.secretNames| + |obj.spec.configNames|;
    assert items[1..s] == i2[1..s] && items[s..c] == i2[s..];
    assert items[c + |obj.spec.data|..] == items[|i3|..];
    DatasSplit(items[|i3|..], |envSecrets|);
    assert items[|i3|..][..|envSecrets|] == i4[|i3|..] && items[|i3|..][|envSecrets|..] == items[|i4|..];
  }

  lemma DatasSplit(items: seq<Item>, k: nat)
    requires k <= |items|
    ensures Datas(items) == Datas(items[..k]) + Datas(items[k..])
  {
  }
}
