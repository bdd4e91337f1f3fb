// What a pass of the State controller amounts to, in terms of what is stored: the State, the
// objects it names, and the run it starts.
module Passes {
  import opened Basics
  import opened Inputs
  import opened Reconciler
  import opened ApiServer
  import E = Executor
  import M = ModuleController
  import S = ExecutorSafety
  import Shape

  datatype ChangeEnd =
    | Troubled | AtRest(input: Input) | Untracked | LockLost
    | Ran(run: string, input: Input)

  datatype RemoveEnd =
    | Failed | Free | Waiting | Guarded
    | Destroying(run: string, input: Input)

  // ---- The input.

  // A moment of the pass.
  ghost predicate During(w: World, v: World, w': World) {
    Works(w, v) && Works(v, w')
  }

  ghost predicate ModuleWas(w: World, w': World, name: string, content: M.Content, contentHash: string) {
    exists v :: ModuleAt(w, v, w', name, content, contentHash)
  }

  ghost predicate ModuleAt(w: World, v: World, w': World, name: string, content: M.Content, contentHash: string) {
    && During(w, v, w') && name in v.deps.modules && v.deps.modules[name].hist != []
    && v.deps.modules[name].Current().status.content == content
    && v.deps.modules[name].Current().status.contentHash == contentHash != ""
  }

  ghost predicate SecretWas(w: World, w': World, name: string, data: Data) {
    exists v :: SecretAt(w, v, w', name, data)
  }

  ghost predicate SecretAt(w: World, v: World, w': World, name: string, data: Data) {
    During(w, v, w') && name in v.deps.secrets && v.deps.secrets[name] == data
  }

  ghost predicate ConfigWas(w: World, w': World, name: string, data: Data) {
    exists v :: ConfigAt(w, v, w', name, data)
  }

  ghost predicate ConfigAt(w: World, v: World, w': World, name: string, data: Data) {
    During(w, v, w') && name in v.deps.configs && v.deps.configs[name] == data
  }

  ghost predicate RunNamedBy(w: World, w': World, name: string) {
    exists v :: RunNamedAt(w, v, w', name)
  }

  ghost predicate RunNamedAt(w: World, v: World, w': World, name: string) {
    During(w, v, w') && name in v.deps.refs && v.deps.refs[name] != ""
  }

  // Each part of the input is what was stored under its own name at some moment of the pass.
  ghost predicate ReadFrom(w: World, w': World, spec: StateSpec, input: Input) {
    && ModuleWas(w, w', spec.moduleName, input.content, input.contentHash)
    && |input.secrets| == |spec.secretNames|
    && (forall i :: 0 <= i < |spec.secretNames| ==> SecretWas(w, w', spec.secretNames[i], input.secrets[i]))
    && |input.configs| == |spec.configNames|
    && (forall i :: 0 <= i < |spec.configNames| ==> ConfigWas(w, w', spec.configNames[i], input.configs[i]))
    && (forall i :: 0 <= i < |spec.data| ==> RunNamedBy(w, w', spec.data[i].1))
    && EnvFrom(w, w', spec, input.env) && input.image == spec.image
  }

  // First the Secrets, then the ConfigMaps named for the environment.
  ghost predicate EnvFrom(w: World, w': World, spec: StateSpec, env: seq<Data>) {
    && |env| == |spec.envSecretNames| + |spec.envConfigNames|
    && (forall i :: 0 <= i < |spec.envSecretNames| ==> SecretWas(w, w', spec.envSecretNames[i], env[i]))
    && (forall i :: |spec.envSecretNames| <= i < |env| ==>
         ConfigWas(w, w', spec.envConfigNames[i - |spec.envSecretNames|], env[i]))
  }

  // What one lookup found, in those terms.
  lemma FoundMeans(w: World, w': World, l: Lookup, item: Item)
    requires Found(w, w', l, item)
    ensures match l
            case LModule(n) => item.IModule? && ModuleWas(w, w', n, item.content, item.contentHash)
            case LSecret(n) => item.IData? && SecretWas(w, w', n, item.data)
            case LEnvSecret(n) => item.IData? && SecretWas(w, w', n, item.data)
            case LConfig(n) => item.IData? && ConfigWas(w, w', n, item.data)
            case LEnvConfig(n) => item.IData? && ConfigWas(w, w', n, item.data)
            case LRef(_, n) => item.IRef? && RunNamedBy(w, w', n)
  {
    hide Works;
    var v :| FoundAt(w, v, w', l, item);
    match l
    case LModule(n) => assert ModuleAt(w, v, w', n, item.content, item.contentHash);
    case LSecret(n) => assert SecretAt(w, v, w', n, item.data);
    case LEnvSecret(n) => assert SecretAt(w, v, w', n, item.data);
    case LConfig(n) => assert ConfigAt(w, v, w', n, item.data);
    case LEnvConfig(n) => assert ConfigAt(w, v, w', n, item.data);
    case LRef(_, n) => assert RunNamedAt(w, v, w', n);
  }

  lemma ItemsAreRead(w: World, w': World, spec: StateSpec, input: Input, items: seq<Item>)
    requires Matches(spec, items) && |items| == |Lookups(spec)| && Collects(w, w', spec, items)
    requires input == Assemble(spec, items)
    ensures ReadFrom(w, w', spec, input)
  {
    hide Found, ModuleWas, SecretWas, ConfigWas, RunNamedBy, Lookups, HashedLookups, SecretLookups, ConfigLookups,
         RefLookups, EnvLookups,
         Wanted, OfData, Matches;
    LookupGroups(spec);
    LookupNames(spec);
    forall i | 0 <= i < |items| {
      FoundMeans(w, w', Lookups(spec)[i], items[i]);
    }
    var s, c := 1 + |spec.secretNames|, 1 + |spec.secretNames| + |spec.configNames|;
    var d, e := c + |spec.data|, c + |spec.data| + |spec.envSecretNames|;
    assert forall i :: 0 <= i < |spec.secretNames| ==> input.secrets[i] == DataOf(items[1 + i]);
    assert forall i :: 0 <= i < |spec.configNames| ==> input.configs[i] == DataOf(items[s + i]);
    assert forall i :: 0 <= i < |spec.envSecretNames| ==> input.env[i] == DataOf(items[d + i]);
    assert forall i :: |spec.envSecretNames| <= i < |input.env| ==> input.env[i] == DataOf(items[d + i]);
  }

  lemma ReadLater(w: World, v: World, w': World, spec: StateSpec, input: Input)
    requires ReadFrom(w, v, spec, input) && Works(v, w')
    ensures ReadFrom(w, w', spec, input)
  {
    hide Works, ModuleWas, SecretWas, ConfigWas, RunNamedBy;
    ModuleLater(w, v, w', spec.moduleName, input.content, input.contentHash);
    forall n, data | SecretWas(w, v, n, data) ensures SecretWas(w, w', n, data) { SecretLater(w, v, w', n, data); }
    forall n, data | ConfigWas(w, v, n, data) ensures ConfigWas(w, w', n, data) { ConfigLater(w, v, w', n, data); }
    forall n | RunNamedBy(w, v, n) ensures RunNamedBy(w, w', n) { RunNamedLater(w, v, w', n); }
  }

  lemma ModuleLater(w: World, v: World, w': World, name: string, content: M.Content, contentHash: string)
    requires ModuleWas(w, v, name, content, contentHash) && Works(v, w')
    ensures ModuleWas(w, w', name, content, contentHash)
  {
    hide Works;
    var u :| ModuleAt(w, u, v, name, content, contentHash);
    WorksTransitive(u, v, w');
    assert ModuleAt(w, u, w', name, content, contentHash);
  }

  lemma SecretLater(w: World, v: World, w': World, name: string, data: Data)
    requires SecretWas(w, v, name, data) && Works(v, w')
    ensures SecretWas(w, w', name, data)
  {
    hide Works;
    var u :| SecretAt(w, u, v, name, data);
    WorksTransitive(u, v, w');
    assert SecretAt(w, u, w', name, data);
  }

  lemma ConfigLater(w: World, v: World, w': World, name: string, data: Data)
    requires ConfigWas(w, v, name, data) && Works(v, w')
    ensures ConfigWas(w, w', name, data)
  {
    hide Works;
    var u :| ConfigAt(w, u, v, name, data);
    WorksTransitive(u, v, w');
    assert ConfigAt(w, u, w', name, data);
  }

  lemma RunNamedLater(w: World, v: World, w': World, name: string)
    requires RunNamedBy(w, v, name) && Works(v, w')
    ensures RunNamedBy(w, w', name)
  {
    hide Works;
    var u :| RunNamedAt(w, u, v, name);
    WorksTransitive(u, v, w');
    assert RunNamedAt(w, u, w', name);
  }

  // ---- The outcome.

  // Some version of that Execution was Applied.
  predicate BeenApplied(runs: map<string, E.Run>, n: string) {
    n in runs && exists i :: 0 <= i < |runs[n].hist| && runs[n].hist[i].applied
  }

  // At some moment an object of the run was the Execution's, or was not there.
  ghost predicate Handed(w: World, w': World, n: string, target: E.Target) {
    exists v :: HandedAt(w, v, w', n, target)
  }

  ghost predicate HandedAt(w: World, v: World, w': World, n: string, target: E.Target) {
    During(w, v, w') && n in v.runs && (S.Exists(v.runs[n], target) ==> S.Owns(v.runs[n], target))
  }

  lemma HandedNow(w: World, w': World, n: string, target: E.Target)
    requires Works(w, w') && Sane(w') && n in w'.runs && (S.Exists(w'.runs[n], target) ==> S.Owns(w'.runs[n], target))
    ensures Handed(w, w', n, target)
  {
    hide Works, Sane, S.Exists, S.Owns;
    ReachesItself(w');
    assert HandedAt(w, w', w', n, target);
  }

  lemma SaneWorks(w: World, w': World)
    requires Works(w, w')
    ensures Sane(w) && Sane(w')
  {
    hide Sane, Step, InPass;
    var actions :| (forall i :: 0 <= i < |actions| ==> InPass(actions[i])) && Shape.Run(w, actions) == w';
    RunAppend(w, actions, []);
  }

  lemma HandedWithin(w: World, v: World, v': World, w': World, n: string, target: E.Target)
    requires Works(w, v) && Handed(v, v', n, target) && Works(v', w')
    ensures Handed(w, w', n, target)
  {
    hide Works, S.Exists, S.Owns;
    var u :| HandedAt(v, u, v', n, target);
    WorksTransitive(w, v, u);
    WorksTransitive(u, v', w');
    assert HandedAt(w, u, w', n, target);
  }

  lemma HandedSince(w: World, v: World, w': World, n: string)
    requires Works(w, v)
    ensures forall target :: Handed(v, w', n, target) ==> Handed(w, w', n, target)
  {
    hide Works, Sane, During, S.Exists, S.Owns;
    forall target | Handed(v, w', n, target) ensures Handed(w, w', n, target) {
      var u :| HandedAt(v, u, w', n, target);
      SinceThen(w, v, u, w');
      assert HandedAt(w, u, w', n, target);
    }
  }

  lemma SinceThen(w: World, v: World, u: World, w': World)
    requires Works(w, v) && During(v, u, w')
    ensures During(w, u, w')
  {
    hide Works;
    WorksTransitive(w, v, u);
  }

  lemma AllHanded(w0: World, w1: World, w2: World, w: World, n: string)
    requires Works(w0, w1) && Works(w1, w2) && Works(w2, w)
    ensures Handed(w0, w1, n, E.Account) ==> Handed(w0, w, n, E.Account)
    ensures Handed(w1, w2, n, E.Binding) ==> Handed(w0, w, n, E.Binding)
    ensures Handed(w2, w, n, E.Secret) ==> Handed(w0, w, n, E.Secret)
  {
    hide Works, Sane, Handed;
    WorksTransitive(w0, w1, w2);
    WorksTransitive(w1, w2, w);
    SaneWorks(w0, w1);
    SaneWorks(w2, w);
    ReachesItself(w0);
    ReachesItself(w);
    if Handed(w0, w1, n, E.Account) { HandedWithin(w0, w0, w1, w, n, E.Account); }
    if Handed(w1, w2, n, E.Binding) { HandedWithin(w0, w1, w2, w, n, E.Binding); }
    if Handed(w2, w, n, E.Secret) { HandedWithin(w0, w2, w, w, n, E.Secret); }
  }

  // At some moment that Execution was there and not Applied.
  ghost predicate StillRunning(w: World, w': World, n: string) {
    exists v :: RunningAt(w, v, w', n)
  }

  ghost predicate RunningAt(w: World, v: World, w': World, n: string) {
    During(w, v, w') && n in v.runs && !v.runs[n].deleted && v.runs[n].hist != [] && !v.runs[n].Current().applied
  }

  lemma RunningNow(w: World, w': World, n: string)
    requires Works(w, w') && n in w'.runs && !w'.runs[n].deleted && w'.runs[n].hist != [] && !w'.runs[n].Current().applied
    requires Sane(w')
    ensures StillRunning(w, w', n)
  {
    hide Works, Sane;
    ReachesItself(w');
    assert RunningAt(w, w', w', n);
  }

  lemma RunningWithin(w: World, v: World, v': World, w': World, n: string)
    requires Works(w, v) && StillRunning(v, v', n) && Works(v', w')
    ensures StillRunning(w, w', n)
  {
    hide Works;
    var u :| RunningAt(v, u, v', n);
    WorksTransitive(w, v, u);
    WorksTransitive(u, v', w');
    assert RunningAt(w, u, w', n);
  }

  // A new run of this input, under this hash, with the Job that will work on it.
  ghost predicate Started(runs: map<string, E.Run>, n: string, kind: Kind, given: State, input: Input, hash: string, version: int) {
    && n in runs && runs[n].kind == kind && runs[n].hist != []
    && Combines(runs[n].vars, input.configs, input.secrets)
    && runs[n].hist[0].spec == E.ExecutionSpec(runs[n].hist[0].spec.stateName, given.spec.autoConfirm, input.content,
                                               input.contentHash, hash, version, "")
    && runs[n].made == Some(E.Job(input.image, input.env, kind))
  }

  lemma LaunchedIsStarted(runs: map<string, E.Run>, n: string, s: State, input: Input, kind: Kind)
    requires Launched(runs, n, s, input) && kind == s.Kind()
    ensures Started(runs, n, kind, s, input, InputHash(input, s.spec.version, kind), s.spec.version)
  {
    hide InputHash, Combines;
    VarsCombine(input.configs, input.secrets);
  }

  lemma StartedFor(runs: map<string, E.Run>, n: string, kind: Kind, s: State, given: State, input: Input, hash: string, version: int)
    requires Started(runs, n, kind, s, input, hash, version) && given.spec.autoConfirm == s.spec.autoConfirm
    ensures Started(runs, n, kind, given, input, hash, version)
  {
    hide Combines;
  }

  // OnChange. A State at rest has the run hash of what was read, with its version counted as
  // at least 1. A finished run is taken off the State and nothing else changes. And a State
  // that runs anew is stored with that version, an image, and what it now tracks.
  ghost predicate ChangeMeans(given: State, end: ChangeEnd, w: World, w': World) {
    var version := if given.spec.version < 1 then 1 else given.spec.version;
    var image := if given.spec.image == "" then "rancher/terraform-controller-executor:latest" else given.spec.image;
    match end
    case Troubled => true
    case LockLost => true
    case AtRest(input) =>
      && ReadFrom(w, w', given.spec, input)
      && Fingerprint(given.status.lastRunHash, input.configs, input.secrets, input.contentHash, version, Create)
    case Untracked =>
      && given.status.jobDeployed == IsTrue && given.status.lastRunHash != ""
      && BeenApplied(w'.runs, given.status.executionName) && w'.hist != []
      && w'.Current() == given.(status := given.status.(jobDeployed := IsFalse, executionName := ""))
    case Ran(run, input) =>
      && ReadFrom(w, w', given.spec, input) && run !in w.runs && w'.hist != []
      && var hash := w'.Current().status.lastRunHash;
         && hash != given.status.lastRunHash
         && Fingerprint(hash, input.configs, input.secrets, input.contentHash, version, Create)
         && Started(w'.runs, run, Create, given, input, hash, version)
         && w'.Current() == given.(spec := given.spec.(version := version, image := image),
                                   status := given.status.(jobDeployed := IsTrue, executionName := run, lastRunHash := hash))
  }

  // OnRemove. What may be released is the object it was given; a destroy is of what was
  // read and of the version as it stands, and the State tracks it.
  ghost predicate RemoveMeans(given: State, obj: State, end: RemoveEnd, w: World, w': World) {
    match end
    case Failed => true
    case Free =>
      && (obj == given || obj == given.(status := given.status.(missingInfo := IsFalse)))
      && (given.spec.destroyOnDelete && given.status.destroyed != IsTrue ==>
            given.status.jobDeployed == IsTrue && given.status.lastRunHash != ""
            && BeenApplied(w'.runs, given.status.executionName))
    case Waiting =>
      && given.spec.destroyOnDelete && given.status.destroyed != IsTrue
      && given.status.jobDeployed == IsTrue && given.status.lastRunHash != ""
    case Guarded => given.status.jobDeployed == IsTrue && given.status.lastRunHash == ""
    case Destroying(run, input) =>
      && given.spec.destroyOnDelete && given.status.destroyed != IsTrue
      && (given.status.jobDeployed != IsTrue || given.status.lastRunHash == "")
      && ReadFrom(w, w', given.spec, input) && run !in w.runs && w'.hist != []
      && var hash := w'.Current().status.lastRunHash;
         && Fingerprint(hash, input.configs, input.secrets, input.contentHash, given.spec.version, Destroy)
         && Started(w'.runs, run, Destroy, given, input, hash, given.spec.version)
         && w'.Current() == given.(status := given.status.(jobDeployed := IsTrue, executionName := run, lastRunHash := hash,
                                                           missingInfo := IsFalse))
  }
}
