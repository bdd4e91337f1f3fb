// pkg/terraform/state/gather.go: what a State names, what is found under those names,
// and what of it reaches the run hash.
module Inputs {
  import opened Basics
  import opened Digest
  import opened RunHash
  import M = ModuleController

  datatype StateSpec = StateSpec(
    image: string, moduleName: string,
    secretNames: seq<string>, configNames: seq<string>,
    envSecretNames: seq<string>, envConfigNames: seq<string>,
    data: seq<(string, string)>,    // spec.Data in the order the range statement meets it
    autoConfirm: bool, destroyOnDelete: bool, version: int)

  // The objects of one namespace that a State can depend on. refs holds
  // Status.ExecutionName of the other States.
  datatype Deps = Deps(
    modules: map<string, M.World>, configs: map<string, Data>, secrets: map<string, Data>, refs: map<string, string>)

  // One Get of gatherInput.
  datatype Lookup =
    | LModule(name: string) | LSecret(name: string) | LConfig(name: string)
    | LRef(key: string, name: string) | LEnvSecret(name: string) | LEnvConfig(name: string)

  datatype Item = IModule(content: M.Content, contentHash: string) | IData(data: Data) | IRef(execution: string)

  function SecretLookups(names: seq<string>): seq<Lookup> {
    seq(|names|, i requires 0 <= i < |names| => LSecret(names[i]))
  }

  function ConfigLookups(names: seq<string>): seq<Lookup> {
    seq(|names|, i requires 0 <= i < |names| => LConfig(names[i]))
  }

  function RefLookups(data: seq<(string, string)>): seq<Lookup> {
    seq(|data|, i requires 0 <= i < |data| => LRef(data[i].0, data[i].1))
  }

  function EnvLookups(secrets: seq<string>, configs: seq<string>): seq<Lookup> {
    seq(|secrets|, i requires 0 <= i < |secrets| => LEnvSecret(secrets[i])) +
    seq(|configs|, i requires 0 <= i < |configs| => LEnvConfig(configs[i]))
  }

  // The lookups that reach the run hash come first.
  function HashedLookups(spec: StateSpec): (ls: seq<Lookup>)
    ensures |ls| == 1 + |spec.secretNames| + |spec.configNames|
    ensures ls[0] == LModule(spec.moduleName)
  {
    [LModule(spec.moduleName)] + SecretLookups(spec.secretNames) + ConfigLookups(spec.configNames)
  }

  function OtherLookups(spec: StateSpec): seq<Lookup> {
    RefLookups(spec.data) + EnvLookups(spec.envSecretNames, spec.envConfigNames)
  }

  function Lookups(spec: StateSpec): (ls: seq<Lookup>)
    ensures HashedLookups(spec) <= ls
  {
    HashedLookups(spec) + OtherLookups(spec)
  }

  function FetchModule(d: Deps, name: string): Option<Item> {
    if name !in d.modules || d.modules[name].hist == [] then None
    else
      var status := d.modules[name].Current().status;
      if status.contentHash == "" then None else Some(IModule(status.content, status.contentHash))
  }

  function FetchData(ms: map<string, Data>, name: string): Option<Item> {
    if name in ms then Some(IData(ms[name])) else None
  }

  // A Get that finds nothing usable ends gatherInput with an error.
  function Fetch(d: Deps, l: Lookup): (r: Option<Item>)
    ensures r.Some? ==> Fits(l, r.value)
  {
    match l
    case LModule(n) => FetchModule(d, n)
    case LSecret(n) => FetchData(d.secrets, n)
    case LEnvSecret(n) => FetchData(d.secrets, n)
    case LConfig(n) => FetchData(d.configs, n)
    case LEnvConfig(n) => FetchData(d.configs, n)
    case LRef(_, n) => if n in d.refs && d.refs[n] != "" then Some(IRef(d.refs[n])) else None
  }

  predicate Fits(l: Lookup, item: Item) {
    match l
    case LModule(_) => item.IModule? && item.contentHash != ""
    case LRef(_, _) => item.IRef?
    case _ => item.IData?
  }

  predicate Matches(spec: StateSpec, items: seq<Item>) {
    var ls := Lookups(spec);
    |items| <= |ls| && forall i :: 0 <= i < |items| ==> Fits(ls[i], items[i])
  }

  function DataOf(item: Item): Data {
    if item.IData? then item.data else map[]
  }

  function Datas(items: seq<Item>): (ds: seq<Data>)
    ensures |ds| == |items|
  {
    seq(|items|, i requires 0 <= i < |items| => DataOf(items[i]))
  }

  // The Input struct, as far as a run uses it.
  datatype Input = Input(
    content: M.Content, contentHash: string, secrets: seq<Data>, configs: seq<Data>, env: seq<Data>, image: string)
  {
    function Vars(): Data {
      CombinedVars(configs, secrets)
    }
  }

  function Assemble(spec: StateSpec, items: seq<Item>): Input
    requires Matches(spec, items) && |items| == |Lookups(spec)|
  {
    var s, c := 1 + |spec.secretNames|, |HashedLookups(spec)|;
    Input(items[0].content, items[0].contentHash, Datas(items[1..s]), Datas(items[s..c]),
          Datas(items[c + |spec.data|..]), spec.image)
  }

  function Normal(version: int): int {
    if version < 1 then 1 else version
  }

  // createRunHash of an input.
  ghost function InputHash(input: Input, version: int, kind: Kind): (h: string)
    requires IsInt32(version)
    ensures |h| == 10
  {
    RunHashOf(input.Vars(), input.contentHash, version, kind)
  }

  predicate Gatherable(d: Deps, spec: StateSpec) {
    forall l :: l in Lookups(spec) ==> Fetch(d, l).Some?
  }

  predicate HashGatherable(d: Deps, spec: StateSpec) {
    forall l :: l in HashedLookups(spec) ==> Fetch(d, l).Some?
  }

  function FetchItem(d: Deps, l: Lookup): Item
    requires Fetch(d, l).Some?
  {
    Fetch(d, l).value
  }

  // The hash a create run of this spec would have against these objects.
  ghost function CreateHash(d: Deps, spec: StateSpec): (h: string)
    requires HashGatherable(d, spec) && IsInt32(spec.version)
    ensures |h| == 10
  {
    var ls := HashedLookups(spec);
    var s := 1 + |spec.secretNames|;
    var items := seq(|ls|, i requires 0 <= i < |ls| => FetchItem(d, ls[i]));
    assert items[0] == FetchItem(d, ls[0]);
    RunHashOf(CombinedVars(Datas(items[s..]), Datas(items[1..s])), items[0].contentHash, Normal(spec.version), Create)
  }

  // Items that are what the store holds now give the hash the store would give now.
  lemma CurrentItemsCurrentHash(d: Deps, spec: StateSpec, items: seq<Item>)
    requires Matches(spec, items) && |items| == |Lookups(spec)| && IsInt32(spec.version)
    requires forall i :: 0 <= i < |HashedLookups(spec)| ==> Fetch(d, HashedLookups(spec)[i]) == Some(items[i])
    ensures HashGatherable(d, spec)
    ensures InputHash(Assemble(spec, items), Normal(spec.version), Create) == CreateHash(d, spec)
  {
    hide RunHashOf, CombinedVars, Fetch, HashedLookups, Lookups;
    var ls := HashedLookups(spec);
    var s, c := 1 + |spec.secretNames|, |ls|;
    var now := seq(|ls|, i requires 0 <= i < |ls| => FetchItem(d, ls[i]));
    assert now == items[..c];
    assert now[s..] == items[s..c] && now[1..s] == items[1..s];
  }

  // ---- The lookups of a State, in the groups the code has loops for.

  // wanted is the part of the lookups that starts at `at`.
  ghost predicate Wanted(spec: StateSpec, at: nat, wanted: seq<Lookup>) {
    at + |wanted| <= |Lookups(spec)| && Lookups(spec)[at..at + |wanted|] == wanted
  }

  predicate OfData(wanted: seq<Lookup>) {
    forall l :: l in wanted ==> !l.LModule? && !l.LRef?
  }

  // Module, secrets, configs, references, and the two halves of the environment.
  lemma LookupGroups(spec: StateSpec)
    ensures var s := 1 + |spec.secretNames|;
            var c := s + |spec.configNames|;
            var d := c + |spec.data|;
            var e := d + |spec.envSecretNames|;
            && Lookups(spec)[0] == LModule(spec.moduleName)
            && Wanted(spec, 1, SecretLookups(spec.secretNames))
            && Wanted(spec, s, ConfigLookups(spec.configNames))
            && Wanted(spec, c, RefLookups(spec.data))
            && Wanted(spec, d, EnvLookups(spec.envSecretNames, []))
            && Wanted(spec, e, EnvLookups([], spec.envConfigNames))
            && |Lookups(spec)| == e + |spec.envConfigNames| && |HashedLookups(spec)| == c
    ensures |SecretLookups(spec.secretNames)| == |spec.secretNames| && OfData(SecretLookups(spec.secretNames))
    ensures |ConfigLookups(spec.configNames)| == |spec.configNames| && OfData(ConfigLookups(spec.configNames))
    ensures |EnvLookups(spec.envSecretNames, [])| == |spec.envSecretNames| && OfData(EnvLookups(spec.envSecretNames, []))
    ensures |EnvLookups([], spec.envConfigNames)| == |spec.envConfigNames| && OfData(EnvLookups([], spec.envConfigNames))
  {
    hide SecretLookups, ConfigLookups, RefLookups, EnvLookups, OfData;
    LoopsHaveData(spec);
    var m, s, c := [LModule(spec.moduleName)], SecretLookups(spec.secretNames), ConfigLookups(spec.configNames);
    var r, e, f := RefLookups(spec.data), EnvLookups(spec.envSecretNames, []), EnvLookups([], spec.envConfigNames);
    assert Lookups(spec) == ((m + s) + c) + (r + (e + f)) by { EnvInTwo(spec.envSecretNames, spec.envConfigNames); }
    Middle(Lookups(spec), m, s, c + (r + (e + f)));
    Middle(Lookups(spec), m + s, c, r + (e + f));
    Middle(Lookups(spec), m + s + c, r, e + f);
    Middle(Lookups(spec), m + s + c + r, e, f);
    Middle(Lookups(spec), m + s + c + r + e, f, []);
  }

  lemma Middle(whole: seq<Lookup>, before: seq<Lookup>, part: seq<Lookup>, after: seq<Lookup>)
    requires whole == before + part + after
    ensures |whole| == |before| + |part| + |after| && whole[|before|..|before| + |part|] == part
  {
  }

  lemma EnvInTwo(secrets: seq<string>, configs: seq<string>)
    ensures EnvLookups(secrets, configs) == EnvLookups(secrets, []) + EnvLookups([], configs)
  {
  }

  lemma LoopsHaveData(spec: StateSpec)
    ensures |SecretLookups(spec.secretNames)| == |spec.secretNames| && OfData(SecretLookups(spec.secretNames))
    ensures |ConfigLookups(spec.configNames)| == |spec.configNames| && OfData(ConfigLookups(spec.configNames))
    ensures |RefLookups(spec.data)| == |spec.data|
    ensures |EnvLookups(spec.envSecretNames, [])| == |spec.envSecretNames| && OfData(EnvLookups(spec.envSecretNames, []))
    ensures |EnvLookups([], spec.envConfigNames)| == |spec.envConfigNames| && OfData(EnvLookups([], spec.envConfigNames))
  {
  }

  lemma Wants(spec: StateSpec, at: nat, wanted: seq<Lookup>, i: nat)
    requires Wanted(spec, at, wanted) && i < |wanted|
    ensures at + i < |Lookups(spec)| && Lookups(spec)[at + i] == wanted[i]
  {
    hide Lookups;
    assert wanted[i] == Lookups(spec)[at..at + |wanted|][i];
  }

  lemma RefLookupAt(data: seq<(string, string)>, i: nat)
    requires i < |data|
    ensures |RefLookups(data)| == |data| && RefLookups(data)[i] == LRef(data[i].0, data[i].1)
  {
  }

  // One lookup for every name, in the order of the names.
  lemma LookupNames(spec: StateSpec)
    ensures var s := 1 + |spec.secretNames|;
            var c := s + |spec.configNames|;
            var d := c + |spec.data|;
            var e := d + |spec.envSecretNames|;
            && |Lookups(spec)| == e + |spec.envConfigNames| && Lookups(spec)[0] == LModule(spec.moduleName)
            && (forall i :: 0 <= i < |spec.secretNames| ==> Lookups(spec)[1 + i] == LSecret(spec.secretNames[i]))
            && (forall i :: 0 <= i < |spec.configNames| ==> Lookups(spec)[s + i] == LConfig(spec.configNames[i]))
            && (forall i :: 0 <= i < |spec.data| ==> Lookups(spec)[c + i] == LRef(spec.data[i].0, spec.data[i].1))
            && (forall i :: 0 <= i < |spec.envSecretNames| ==> Lookups(spec)[d + i] == LEnvSecret(spec.envSecretNames[i]))
            && (forall i :: 0 <= i < |spec.envConfigNames| ==> Lookups(spec)[e + i] == LEnvConfig(spec.envConfigNames[i]))
  {
    hide Lookups, Wanted, OfData;
    LookupGroups(spec);
    var s, c := 1 + |spec.secretNames|, 1 + |spec.secretNames| + |spec.configNames|;
    var d, e := c + |spec.data|, c + |spec.data| + |spec.envSecretNames|;
    forall i | 0 <= i < |spec.secretNames| ensures Lookups(spec)[1 + i] == LSecret(spec.secretNames[i]) {
      Wants(spec, 1, SecretLookups(spec.secretNames), i);
    }
    forall i | 0 <= i < |spec.configNames| ensures Lookups(spec)[s + i] == LConfig(spec.configNames[i]) {
      Wants(spec, s, ConfigLookups(spec.configNames), i);
    }
    forall i | 0 <= i < |spec.data| ensures Lookups(spec)[c + i] == LRef(spec.data[i].0, spec.data[i].1) {
      Wants(spec, c, RefLookups(spec.data), i);
    }
    forall i | 0 <= i < |spec.envSecretNames| ensures Lookups(spec)[d + i] == LEnvSecret(spec.envSecretNames[i]) {
      Wants(spec, d, EnvLookups(spec.envSecretNames, []), i);
    }
    forall i | 0 <= i < |spec.envConfigNames| ensures Lookups(spec)[e + i] == LEnvConfig(spec.envConfigNames[i]) {
      Wants(spec, e, EnvLookups([], spec.envConfigNames), i);
    }
  }

  // ---- What it all comes to, in terms of what is stored under the names of a spec.

  // The variables of a run: those of any secret or config named. A secret beats a config,
  // and the last of several that hold a variable beats the others.
  ghost predicate Combines(vars: Data, configs: seq<Data>, secrets: seq<Data>) {
    && (forall k :: k in vars <==> HeldBy(k, configs) || HeldBy(k, secrets))
    && (forall k, i: nat :: LastHolder(k, secrets, i) ==> k in vars && vars[k] == secrets[i][k])
    && (forall k, i: nat :: LastHolder(k, configs, i) && !HeldBy(k, secrets) ==> k in vars && vars[k] == configs[i][k])
  }

  predicate HeldBy(k: string, sources: seq<Data>) {
    exists i :: 0 <= i < |sources| && k in sources[i]
  }

  predicate LastHolder(k: string, sources: seq<Data>, i: nat) {
    i < |sources| && k in sources[i] && forall j :: i < j < |sources| ==> k !in sources[j]
  }

  lemma VarsCombine(configs: seq<Data>, secrets: seq<Data>)
    ensures Combines(CombinedVars(configs, secrets), configs, secrets)
  {
    hide CombinedVars, Merge;
    var vars := CombinedVars(configs, secrets);
    forall k ensures k in vars <==> HeldBy(k, configs) || HeldBy(k, secrets) {
      SecretsBeatConfigs(configs, secrets, k);
      MergeLastWins(configs, k);
      MergeLastWins(secrets, k);
    }
    forall k, i: nat | LastHolder(k, secrets, i) ensures k in vars && vars[k] == secrets[i][k] {
      SecretsBeatConfigs(configs, secrets, k);
      MergeLastWins(secrets, k);
    }
    forall k, i: nat | LastHolder(k, configs, i) && !HeldBy(k, secrets) ensures k in vars && vars[k] == configs[i][k] {
      SecretsBeatConfigs(configs, secrets, k);
      MergeLastWins(configs, k);
      MergeLastWins(secrets, k);
    }
  }

  // A run hash of this content, this version, this action and the variables of these
  // sources, from which only the hash function keeps them.
  ghost predicate Fingerprint(h: string, configs: seq<Data>, secrets: seq<Data>, contentHash: string, version: int, kind: Kind) {
    IsDigest(contentHash) ==>
      exists vars :: Combines(vars, configs, secrets) && HashesRun(h, vars, contentHash, version, kind)
  }

  lemma InputHashIs(input: Input, version: int, kind: Kind)
    requires IsInt32(version)
    ensures Fingerprint(InputHash(input, version, kind), input.configs, input.secrets, input.contentHash, version, kind)
  {
    hide Combines, HashesRun, CombinedVars, RunHashOf, IsDigest;
    VarsCombine(input.configs, input.secrets);
    if IsDigest(input.contentHash) { RunHashIs(input.Vars(), input.contentHash, version, kind); }
  }

  // What a create run of a spec would hash: what is stored under each of its names, in their
  // order, the content hash of its module, and its version, which counts as 1 below that.
  lemma CreateHashIs(d: Deps, spec: StateSpec, configs: seq<Data>, secrets: seq<Data>)
    requires HashGatherable(d, spec) && IsInt32(spec.version)
    requires |secrets| == |spec.secretNames| && |configs| == |spec.configNames|
    requires forall i :: 0 <= i < |secrets| ==> spec.secretNames[i] in d.secrets && secrets[i] == d.secrets[spec.secretNames[i]]
    requires forall i :: 0 <= i < |configs| ==> spec.configNames[i] in d.configs && configs[i] == d.configs[spec.configNames[i]]
    ensures spec.moduleName in d.modules && d.modules[spec.moduleName].hist != []
    ensures Fingerprint(CreateHash(d, spec), configs, secrets, d.modules[spec.moduleName].Current().status.contentHash,
                        if spec.version < 1 then 1 else spec.version, Create)
  {
    hide Combines, HashesRun, CombinedVars, RunHashOf, IsDigest, HashedLookups;
    var ls, s := HashedLookups(spec), 1 + |spec.secretNames|;
    HashedNames(spec);
    assert ls[0] in ls && Fetch(d, ls[0]).Some?;
    var items := seq(|ls|, i requires 0 <= i < |ls| => FetchItem(d, ls[i]));
    HashedData(d, spec, configs, secrets, items);
    VarsCombine(configs, secrets);
    var contentHash := d.modules[spec.moduleName].Current().status.contentHash;
    if IsDigest(contentHash) {
      RunHashIs(CombinedVars(configs, secrets), contentHash, if spec.version < 1 then 1 else spec.version, Create);
    }
  }

  lemma HashedNames(spec: StateSpec)
    ensures var ls, s := HashedLookups(spec), 1 + |spec.secretNames|;
            && (forall i :: 1 <= i < s ==> ls[i] == LSecret(spec.secretNames[i - 1]))
            && (forall i :: s <= i < |ls| ==> ls[i] == LConfig(spec.configNames[i - s]))
  {
  }

  lemma HashedData(d: Deps, spec: StateSpec, configs: seq<Data>, secrets: seq<Data>, items: seq<Item>)
    requires HashGatherable(d, spec)
    requires |secrets| == |spec.secretNames| && |configs| == |spec.configNames|
    requires forall i :: 0 <= i < |secrets| ==> spec.secretNames[i] in d.secrets && secrets[i] == d.secrets[spec.secretNames[i]]
    requires forall i :: 0 <= i < |configs| ==> spec.configNames[i] in d.configs && configs[i] == d.configs[spec.configNames[i]]
    requires |items| == |HashedLookups(spec)|
    requires forall i :: 0 <= i < |items| ==> Fetch(d, HashedLookups(spec)[i]) == Some(items[i])
    ensures Datas(items[1..1 + |secrets|]) == secrets && Datas(items[1 + |secrets|..]) == configs
  {
    hide HashedLookups, Fetch;
    HashedNames(spec);
    var s := 1 + |secrets|;
    forall i | 0 <= i < |secrets| ensures items[1..s][i] == IData(secrets[i]) {
      assert Fetch(d, LSecret(spec.secretNames[i])) == Some(items[1 + i]);
      FetchedData(d, spec.secretNames[i]);
    }
    forall i | 0 <= i < |configs| ensures items[s..][i] == IData(configs[i]) {
      assert Fetch(d, LConfig(spec.configNames[i])) == Some(items[s + i]);
      FetchedData(d, spec.configNames[i]);
    }
  }

  lemma FetchedData(d: Deps, n: string)
    ensures n in d.secrets ==> Fetch(d, LSecret(n)) == Some(IData(d.secrets[n]))
    ensures n in d.configs ==> Fetch(d, LConfig(n)) == Some(IData(d.configs[n]))
  {
  }
}
