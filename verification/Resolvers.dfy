// The two watch resolvers of pkg/terraform/controller.go against what gatherInput reads.
module Resolvers {
  import opened Basics
  import opened Inputs
  import opened Reconciler
  import W = Wakeups

  datatype Listed = Listed(name: string, spec: StateSpec)

  // How often one State is named by a resolver for one changed object.
  function Times(dep: Dep, spec: StateSpec): nat {
    match dep
    case DModule(n) => if spec.moduleName == n then 1 else 0
    case DConfig(n) => Count(spec.envConfigNames, n) + Count(spec.configNames, n)
    case DSecret(n) => Count(spec.envSecretNames, n) + Count(spec.secretNames, n)
  }

  function Count(names: seq<string>, n: string): (c: nat)
    ensures c > 0 <==> n in names
  {
    if names == [] then 0
    else Count(names[..|names| - 1], n) + (if names[|names| - 1] == n then 1 else 0)
  }

  function Copies(name: string, k: nat): (r: seq<string>)
    ensures |r| == k && forall x :: x in r ==> x == name
    ensures k > 0 ==> name in r
  {
    var r := seq(k, _ => name);
    assert k > 0 ==> r[0] == name;
    r
  }

  // The keys a resolver returns, States in list order, once for every reference.
  function Keys(states: seq<Listed>, dep: Dep): seq<string> {
    if states == [] then []
    else
      var last := states[|states| - 1];
      Keys(states[..|states| - 1], dep) + Copies(last.name, Times(dep, last.spec))
  }

  method ModuleResolver(states: seq<Listed>, name: string) returns (result: seq<string>)
    ensures result == Keys(states, DModule(name))
  {
    var statesFound: seq<string> := [];
    for i := 0 to |states|
      invariant statesFound == Keys(states[..i], DModule(name))
    {
      assert states[..i + 1][..i] == states[..i];
      if states[i].spec.moduleName == name {
        statesFound := statesFound + [states[i].name];
      }
    }
    assert states[..|states|] == states;
    result := ToKeys(statesFound);
  }

  // One inner loop: the State's name once for every matching entry.
  method Matching(names: seq<string>, wanted: string, state: string, found: seq<string>) returns (r: seq<string>)
    ensures r == found + Copies(state, Count(names, wanted))
  {
    r := found;
    for i := 0 to |names|
      invariant r == found + Copies(state, Count(names[..i], wanted))
    {
      assert names[..i + 1][..i] == names[..i];
      if names[i] == wanted {
        r := r + [state];
      }
    }
    assert names[..|names|] == names;
  }

  method ConfigSecretResolver(states: seq<Listed>, obj: Dep) returns (result: seq<string>)
    requires !obj.DModule?
    ensures result == Keys(states, obj)
  {
    var statesFound: seq<string> := [];
    for i := 0 to |states|
      invariant statesFound == Keys(states[..i], obj)
    {
      assert states[..i + 1][..i] == states[..i];
      var before := statesFound;
      var vars, name := states[i].spec, states[i].name;
      if obj.DConfig? {
        statesFound := Matching(vars.envConfigNames, obj.name, name, statesFound);
        statesFound := Matching(vars.configNames, obj.name, name, statesFound);
        CopiesJoin(name, Count(vars.envConfigNames, obj.name), Count(vars.configNames, obj.name));
      }
      if obj.DSecret? {
        statesFound := Matching(vars.envSecretNames, obj.name, name, statesFound);
        statesFound := Matching(vars.secretNames, obj.name, name, statesFound);
        CopiesJoin(name, Count(vars.envSecretNames, obj.name), Count(vars.secretNames, obj.name));
      }
      assert statesFound == before + Copies(name, Times(obj, vars));
    }
    assert states[..|states|] == states;
    result := ToKeys(statesFound);
  }

  lemma CopiesJoin(name: string, j: nat, k: nat)
    ensures Copies(name, j) + Copies(name, k) == Copies(name, j + k)
  {
  }

  method ToKeys(found: seq<string>) returns (result: seq<string>)
    ensures result == found
  {
    result := [];
    if |found| > 0 {
      for i := 0 to |found|
        invariant result == found[..i]
      {
        result := result + [found[i]];
      }
    }
  }

  // A key is returned exactly for the States that refer to the object.
  lemma {:induction false} KeysAreReferences(states: seq<Listed>, dep: Dep, key: string)
    ensures key in Keys(states, dep) <==> exists i :: 0 <= i < |states| && states[i].name == key && Referenced(dep, states[i].spec)
  {
    if states == [] {
    } else {
      var front, last := states[..|states| - 1], states[|states| - 1];
      KeysAreReferences(front, dep, key);
      assert Times(dep, last.spec) > 0 <==> Referenced(dep, last.spec);
      assert key in Keys(states, dep) <==> key in Keys(front, dep) || key in Copies(last.name, Times(dep, last.spec));
      assert forall i :: 0 <= i < |front| ==> front[i] == states[i];
      if key in Keys(front, dep) {
        var i :| 0 <= i < |front| && front[i].name == key && Referenced(dep, front[i].spec);
        assert states[i].name == key;
      }
    }
  }

  // The stores agree on everything but one object, which the new one has.
  ghost predicate DifferIn(d: Deps, d': Deps, dep: Dep) {
    && Present(d', dep)
    && forall l: Lookup :: !l.LRef? && W.DepOf(l) != Some(dep) ==> Fetch(d', l) == Fetch(d, l)
  }

  lemma EveryLookupReferences(spec: StateSpec, l: Lookup)
    requires l in Lookups(spec)
    ensures l.LRef? || (W.DepOf(l).Some? && Referenced(W.DepOf(l).value, spec))
  {
  }

  // Completeness: a State the resolver leaves out reads the same values as before, so its
  // create hash and its environment are unchanged. Soundness: one it returns names the object.
  lemma ResolverComplete(d: Deps, d': Deps, dep: Dep, states: seq<Listed>, i: nat)
    requires DifferIn(d, d', dep) && i < |states| && IsInt32(states[i].spec.version)
    ensures states[i].name !in Keys(states, dep) ==>
      var spec := states[i].spec;
      && (forall l :: l in Lookups(spec) && !l.LRef? ==> Fetch(d', l) == Fetch(d, l))
      && (HashGatherable(d, spec) ==> HashGatherable(d', spec) && CreateHash(d', spec) == CreateHash(d, spec))
    ensures forall key :: key in Keys(states, dep) ==>
      exists j :: 0 <= j < |states| && states[j].name == key && Referenced(dep, states[j].spec)
  {
    hide Lookups, HashedLookups, Fetch, Referenced, CreateHash, Keys, W.DepOf;
    var spec := states[i].spec;
    forall key | key in Keys(states, dep)
      ensures exists j :: 0 <= j < |states| && states[j].name == key && Referenced(dep, states[j].spec)
    {
      KeysAreReferences(states, dep, key);
    }
    if states[i].name !in Keys(states, dep) {
      KeysAreReferences(states, dep, states[i].name);
      assert !Referenced(dep, spec);
      forall l | l in Lookups(spec) && !l.LRef? ensures Fetch(d', l) == Fetch(d, l) {
        EveryLookupReferences(spec, l);
      }
      if HashGatherable(d, spec) {
        forall k | 0 <= k < |HashedLookups(spec)|
          ensures Fetch(d', HashedLookups(spec)[k]) == Fetch(d, HashedLookups(spec)[k])
        {
          W.HashedNotRef(spec, k);
          assert HashedLookups(spec) <= Lookups(spec);
          assert HashedLookups(spec)[k] == Lookups(spec)[k];
        }
        W.SameFetchSameHash(d, d', spec);
      }
    }
  }
}
