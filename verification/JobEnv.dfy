// The environment that carries a run's identity from createEnvForJob
// (pkg/terraform/state/deploy.go) to Populate (pkg/executor/runner/runner.go).
module JobEnv {
  import opened Basics

  datatype EnvVar = EnvVar(name: string, value: string)

  const ACTION := "EXECUTOR_ACTION"
  const RUN_NAME := "EXECUTOR_RUN_NAME"
  const NAMESPACE := "EXECUTOR_NAMESPACE"
  const AUTOMATION := "TF_IN_AUTOMATION"

  // os.Getenv in a container: of several entries with one name Kubernetes keeps the last.
  function Getenv(env: seq<EnvVar>, name: string): string {
    if env == [] then ""
    else if env[|env| - 1].name == name then env[|env| - 1].value
    else Getenv(env[..|env| - 1], name)
  }

  // A pod started with this environment works on this run, in this way, in this namespace.
  predicate Identifies(env: seq<EnvVar>, run: string, kind: Kind, namespace: string) {
    && run != "" && namespace != ""
    && Getenv(env, RUN_NAME) == run && Getenv(env, NAMESPACE) == namespace
    && Lower(Getenv(env, ACTION)) == kind.Text()
  }

  function Reserved(kind: Kind, run: string, namespace: string): seq<EnvVar> {
    [EnvVar(AUTOMATION, "true"), EnvVar(ACTION, kind.Text()), EnvVar(RUN_NAME, run), EnvVar(NAMESPACE, namespace)]
  }

  // createEnvForJob. Whatever the State's own Secrets and ConfigMaps put into the
  // environment, the pod is what the controller makes it, and keeps every other variable.
  method CreateEnvForJob(env: seq<EnvVar>, kind: Kind, run: string, namespace: string) returns (r: seq<EnvVar>)
    ensures run != "" && namespace != "" ==> Identifies(r, run, kind, namespace)
    ensures forall name :: name !in {AUTOMATION, ACTION, RUN_NAME, NAMESPACE} ==> Getenv(r, name) == Getenv(env, name)
  {
    var envVars := [EnvVar(AUTOMATION, "true")];
    envVars := envVars + [EnvVar(ACTION, kind.Text())];
    envVars := envVars + [EnvVar(RUN_NAME, run)];
    envVars := envVars + [EnvVar(NAMESPACE, namespace)];
    r := env + envVars;
    assert envVars == Reserved(kind, run, namespace);
    ReservedWin(env, kind, run, namespace);
  }

  datatype Identity = Unset(name: string) | Invalid(action: string) | Pod(run: string, kind: Kind, namespace: string)

  // Populate's three reads and the switch of main.go: a pod comes up exactly under the
  // identity its environment gives it, and otherwise names what is wrong with it.
  method Populate(env: seq<EnvVar>) returns (r: Identity)
    ensures forall run, kind, namespace :: r == Pod(run, kind, namespace) <==> Identifies(env, run, kind, namespace)
    ensures r.Unset? ==> Getenv(env, r.name) == ""
    ensures r.Invalid? ==> r.action == Lower(Getenv(env, ACTION)) && r.action !in {"create", "destroy"}
  {
    SpelledApart();
    var name := Getenv(env, RUN_NAME);
    if name == "" {
      return Unset(RUN_NAME);
    }
    var action := Getenv(env, ACTION);
    if action == "" {
      assert Lower(action) == "";
      return Unset(ACTION);
    }
    action := Lower(action);
    var namespace := Getenv(env, NAMESPACE);
    if namespace == "" {
      return Unset(NAMESPACE);
    }
    if action == "create" {
      return Pod(name, Create, namespace);
    } else if action == "destroy" {
      return Pod(name, Destroy, namespace);
    }
    return Invalid(action);
  }

  lemma SpelledApart()
    ensures Create.Text() == "create" && Destroy.Text() == "destroy" && "create" != "destroy"
  {
    assert "create"[0] != "destroy"[0];
  }

  lemma {:induction false} GetenvAppend(a: seq<EnvVar>, b: seq<EnvVar>, name: string)
    ensures (exists i :: 0 <= i < |b| && b[i].name == name) ==> Getenv(a + b, name) == Getenv(b, name)
    ensures !(exists i :: 0 <= i < |b| && b[i].name == name) ==> Getenv(a + b, name) == Getenv(a, name)
  {
    if b == [] {
      assert a + b == a;
    } else {
      var front := b[..|b| - 1];
      assert (a + b)[..|a + b| - 1] == a + front;
      GetenvAppend(a, front, name);
      if i :| 0 <= i < |b| && b[i].name == name && b[|b| - 1].name != name {
        assert front[i].name == name;
      }
    }
  }

  lemma ReservedWin(env: seq<EnvVar>, kind: Kind, run: string, namespace: string)
    ensures var r := env + Reserved(kind, run, namespace);
            && (run != "" && namespace != "" ==> Identifies(r, run, kind, namespace))
            && forall name :: name !in {AUTOMATION, ACTION, RUN_NAME, NAMESPACE} ==> Getenv(r, name) == Getenv(env, name)
  {
    var reserved := Reserved(kind, run, namespace);
    assert reserved[1].name == ACTION && reserved[2].name == RUN_NAME && reserved[3].name == NAMESPACE;
    GetenvAppend(env, reserved, RUN_NAME);
    GetenvAppend(env, reserved, ACTION);
    GetenvAppend(env, reserved, NAMESPACE);
    ReservedValues(kind, run, namespace);
    LowerFixed(kind.Text());
    forall name | name !in {AUTOMATION, ACTION, RUN_NAME, NAMESPACE}
      ensures Getenv(env + reserved, name) == Getenv(env, name)
    {
      GetenvAppend(env, reserved, name);
    }
  }

  lemma ReservedValues(kind: Kind, run: string, namespace: string)
    ensures var r := Reserved(kind, run, namespace);
            && Getenv(r, ACTION) == kind.Text() && Getenv(r, RUN_NAME) == run && Getenv(r, NAMESPACE) == namespace
  {
    var r := Reserved(kind, run, namespace);
    var r3, r2 := r[..3], r[..3][..2];
    assert r3[2] == r[2] && r2[1] == r[1] && |r3| == 3 && |r2| == 2;
    assert ACTION[9] != RUN_NAME[9] && ACTION[9] != NAMESPACE[9] && RUN_NAME[9] != NAMESPACE[9];
    assert Getenv(r, ACTION) == Getenv(r3, ACTION) == Getenv(r2, ACTION);
  }

  lemma LowerFixed(s: string)
    requires forall i :: 0 <= i < |s| ==> LowerChar(s[i]) == s[i]
    ensures Lower(s) == s
  {
    hide Lower;
    assert |Lower(s)| == |s|;
  }
}
