// No work is lost: a State that nobody is going to look at again needs nothing done.
module Wakeups {
  import opened Basics
  import opened Inputs
  import opened Reconciler
  import Shape
  import E = Executor
  import M = ModuleController

  // The object a lookup reads, when it has a watch behind it.
  function DepOf(l: Lookup): Option<Dep> {
    match l
    case LModule(n) => Some(DModule(n))
    case LSecret(n) => Some(DSecret(n))
    case LConfig(n) => Some(DConfig(n))
    case LEnvSecret(n) => Some(DSecret(n))
    case LEnvConfig(n) => Some(DConfig(n))
    case LRef(_, _) => None
  }

  predicate Pending(events: set<Dep>, l: Lookup) {
    DepOf(l).Some? && DepOf(l).value in events
  }

  // The key is queued, or the informer still has a version to deliver, which queues it.
  predicate Woken(w: World) {
    w.queued || w.cached + 1 != |w.hist|
  }

  // What was read is what is there, or a resolver is still to look at it, or it is gone.
  predicate ItemFresh(d: Deps, events: set<Dep>, l: Lookup, item: Item) {
    Fetch(d, l) == Some(item) || Fetch(d, l).None? || Pending(events, l)
  }

  ghost predicate ItemsFresh(d: Deps, events: set<Dep>, spec: StateSpec, items: seq<Item>) {
    var ls := HashedLookups(spec);
    forall i :: 0 <= i < |items| && i < |ls| ==> ItemFresh(d, events, ls[i], items[i])
  }

  ghost predicate HashSettled(d: Deps, events: set<Dep>, s: State) {
    var ls := HashedLookups(s.spec);
    || (exists i :: 0 <= i < |ls| && Pending(events, ls[i]))
    || !HashGatherable(d, s.spec)
    || (IsInt32(s.spec.version) && CreateHash(d, s.spec) == s.status.lastRunHash)
  }

  predicate RunSettled(w: World, s: State) {
    s.Tracking() && RunApplied(w, s.status.executionName) ==> s.status.executionName in w.runEvents
  }

  ghost predicate Rested(w: World)
    requires w.hist != []
  {
    w.Gone() || (!w.Current().deleting && HashSettled(w.deps, w.depEvents, w.Current()) && RunSettled(w, w.Current()))
  }

  // The worker has the latest version in hand and what it has read is fresh.
  ghost predicate Working(w: World) {
    w.pc != Idle && !w.pc.obj.deleting ==>
      && (w.pc.Gathering? || w.pc.Checking? ==>
           Woken(w) || (w.pc.base + 1 == |w.hist| && w.pc.obj == w.hist[w.pc.base]
                        && ItemsFresh(w.deps, w.depEvents, w.pc.obj.spec, w.pc.items)))
      && (w.pc.Locking? ==> Woken(w) || w.pc.base + 1 == |w.hist|)
  }

  // Whatever the worker writes last differs from what it replaces, so it wakes the State.
  ghost predicate Writing(hist: seq<State>, pc: Pc) {
    pc != Idle && pc.base < |hist| && !pc.obj.deleting ==>
      match pc
      case Checking(_, obj, _) => obj == hist[pc.base] && obj.Tracking()
      case Gathering(_, obj, _) => obj == hist[pc.base]
      case Clearing(_, obj) => obj.status.jobDeployed != hist[pc.base].status.jobDeployed
      case Locking(_, obj, _, hash) => obj.status.lastRunHash == hist[pc.base].status.lastRunHash != hash
      case Deploying(_, _, _, hash, _) => hist[pc.base].status.lastRunHash != hash
      case Recording(_, obj, _) => obj.status.lastRunHash != hist[pc.base].status.lastRunHash
      case Releasing(_, _) => true
  }

  ghost predicate Inv(w: World) {
    && w.hist != []
    && Working(w)
    && Writing(w.hist, w.pc)
    && (w.pc == Idle ==> Woken(w) || w.lost || Rested(w))
  }

  // ---- Changes to what a State depends on.

  // Every change is announced, or leaves nothing to find.
  ghost predicate Announced(d: Deps, events: set<Dep>, d': Deps, events': set<Dep>) {
    && events <= events'
    && forall l :: Fetch(d', l) == Fetch(d, l) || Fetch(d', l).None? || Pending(events', l) || l.LRef?
  }

  lemma DepStepAnnounces(w: World, a: Action)
    requires Sane(w)
    ensures Announced(w.deps, w.depEvents, DepStep(w, a).deps, DepStep(w, a).depEvents)
  {
    hide Sane, DepStep, Announced;
    match a
    case SetConfig(_, _) => DataAnnounced(w, a);
    case SetSecret(_, _) => DataAnnounced(w, a);
    case NewModule(_, _, _) => ModulesAnnounced(w, a);
    case ModuleAct(_, _) => ModulesAnnounced(w, a);
    case DropModule(_) => ModulesAnnounced(w, a);
    case _ => NothingAnnounced(w, a);
  }

  // A Secret or ConfigMap that reads differently is either gone or announced.
  lemma DataChange(ms: map<string, Data>, n: string, data: Option<Data>, dep: Dep, m: string)
    ensures var before, after := FetchData(ms, m), FetchData(SetData(ms, n, data), m);
            after == before || after.None? || (m == n && dep in Touched(ms, n, data, dep))
  {
  }

  lemma DataAnnounced(w: World, a: Action)
    requires Sane(w) && (a.SetConfig? || a.SetSecret?)
    ensures Announced(w.deps, w.depEvents, DepStep(w, a).deps, DepStep(w, a).depEvents)
  {
    hide Sane, SetData, Touched, FetchData;
    var w' := DepStep(w, a);
    forall l: Lookup
      ensures Fetch(w'.deps, l) == Fetch(w.deps, l) || Fetch(w'.deps, l).None? || Pending(w'.depEvents, l) || l.LRef?
    {
      if a.SetConfig? && (l.LConfig? || l.LEnvConfig?) {
        DataChange(w.deps.configs, a.name, a.data, DConfig(a.name), l.name);
      } else if a.SetSecret? && (l.LSecret? || l.LEnvSecret?) {
        DataChange(w.deps.secrets, a.name, a.data, DSecret(a.name), l.name);
      }
    }
  }

  lemma ModulesAnnounced(w: World, a: Action)
    requires Sane(w) && (a.NewModule? || a.ModuleAct? || a.DropModule?)
    ensures Announced(w.deps, w.depEvents, DepStep(w, a).deps, DepStep(w, a).depEvents)
  {
    hide HistoryOk, PcOk, M.Step;
  }

  lemma NothingAnnounced(w: World, a: Action)
    requires Sane(w) && !a.SetConfig? && !a.SetSecret? && !a.NewModule? && !a.ModuleAct? && !a.DropModule?
    ensures Announced(w.deps, w.depEvents, DepStep(w, a).deps, DepStep(w, a).depEvents)
  {
    hide Sane;
  }

  lemma HashedNotRef(spec: StateSpec, i: nat)
    requires i < |HashedLookups(spec)|
    ensures !HashedLookups(spec)[i].LRef? && DepOf(HashedLookups(spec)[i]).Some?
    ensures Referenced(DepOf(HashedLookups(spec)[i]).value, spec)
  {
  }

  // The hash depends on what the hashed lookups fetch and on nothing else.
  lemma SameFetchSameHash(d: Deps, d': Deps, spec: StateSpec)
    requires HashGatherable(d, spec) && IsInt32(spec.version)
    requires forall i :: 0 <= i < |HashedLookups(spec)| ==> Fetch(d', HashedLookups(spec)[i]) == Fetch(d, HashedLookups(spec)[i])
    ensures HashGatherable(d', spec) && CreateHash(d', spec) == CreateHash(d, spec)
  {
    hide Fetch, HashedLookups;
    var ls := HashedLookups(spec);
    assert seq(|ls|, i requires 0 <= i < |ls| => FetchItem(d', ls[i]))
        == seq(|ls|, i requires 0 <= i < |ls| => FetchItem(d, ls[i]));
  }

  lemma AnnouncedKeepsHash(d: Deps, events: set<Dep>, d': Deps, events': set<Dep>, s: State)
    requires Announced(d, events, d', events') && HashSettled(d, events, s)
    ensures HashSettled(d', events', s)
  {
    hide Fetch, HashedLookups, CreateHash, Pending, DepOf;
    var ls := HashedLookups(s.spec);
    if exists i :: 0 <= i < |ls| && Pending(events, ls[i]) {
      var i :| 0 <= i < |ls| && Pending(events, ls[i]);
      assert Pending(events', ls[i]) by { PendingGrows(events, events', ls[i]); }
    } else if i :| 0 <= i < |ls| && Fetch(d', ls[i]) != Fetch(d, ls[i]) {
      HashedNotRef(s.spec, i);
      assert Fetch(d', ls[i]).None? || Pending(events', ls[i]);
    } else if HashGatherable(d, s.spec) {
      SameFetchSameHash(d, d', s.spec);
    } else {
      var l :| l in ls && Fetch(d, l).None?;
      assert Fetch(d', l).None?;
    }
  }

  lemma PendingGrows(events: set<Dep>, events': set<Dep>, l: Lookup)
    requires events <= events' && Pending(events, l)
    ensures Pending(events', l)
  {
  }

  lemma AnnouncedKeepsItems(d: Deps, events: set<Dep>, d': Deps, events': set<Dep>, spec: StateSpec, items: seq<Item>)
    requires Announced(d, events, d', events') && ItemsFresh(d, events, spec, items)
    ensures ItemsFresh(d', events', spec, items)
  {
    hide Fetch, HashedLookups, Pending, DepOf;
    var ls := HashedLookups(spec);
    forall i | 0 <= i < |items| && i < |ls| ensures ItemFresh(d', events', ls[i], items[i]) {
      HashedNotRef(spec, i);
      assert ItemFresh(d, events, ls[i], items[i]);
      if Pending(events, ls[i]) { PendingGrows(events, events', ls[i]); }
    }
  }

  lemma DepKeeps(w: World, a: Action)
    requires Inv(w) && Sane(w)
    ensures Inv(DepStep(w, a))
  {
    hide DepStep, Sane, Writing, HashSettled, ItemsFresh, Announced;
    var w' := DepStep(w, a);
    DepStepAnnounces(w, a);
    if w.pc == Idle {
      if !w.Current().deleting && HashSettled(w.deps, w.depEvents, w.Current()) {
        AnnouncedKeepsHash(w.deps, w.depEvents, w'.deps, w'.depEvents, w.Current());
      }
    } else if (w.pc.Gathering? || w.pc.Checking?) && ItemsFresh(w.deps, w.depEvents, w.pc.obj.spec, w.pc.items) {
      AnnouncedKeepsItems(w.deps, w.depEvents, w'.deps, w'.depEvents, w.pc.obj.spec, w.pc.items);
    }
  }

  // ---- Resolvers.

  // A resolver that does not wake the State had nothing of it to announce.
  lemma ResolveKeepsItem(w: World, dep: Dep, l: Lookup)
    requires w.hist != [] && Pending(w.depEvents, l)
    requires !Present(w.deps, dep) || DepOf(l) != Some(dep)
    ensures Pending(w.depEvents - {dep}, l) || Fetch(w.deps, l).None?
  {
  }

  lemma ResolveKeeps(w: World, dep: Dep)
    requires Inv(w) && Sane(w) && !w.queued && !Step(w, Resolve(dep)).queued && dep in w.depEvents
    requires w.pc != Idle && !w.pc.obj.deleting && w.pc.base + 1 == |w.hist| ==> !w.Current().deleting
    ensures Inv(Step(w, Resolve(dep)))
  {
    hide Sane, Writing, HashedLookups, Fetch, CreateHash, Pending, Present, Referenced, DepOf;
    var w' := Step(w, Resolve(dep));
    var spec := w.Current().spec;
    var ls := HashedLookups(spec);
    assert !Present(w.deps, dep) || w.Gone() || !Referenced(dep, spec);
    if !w.Gone() {
      forall i | 0 <= i < |ls| && Pending(w.depEvents, ls[i])
        ensures Pending(w'.depEvents, ls[i]) || Fetch(w.deps, ls[i]).None?
      {
        HashedNotRef(spec, i);
        ResolveKeepsItem(w, dep, ls[i]);
      }
      assert (exists i :: 0 <= i < |ls| && Pending(w.depEvents, ls[i])) ==>
          (exists i :: 0 <= i < |ls| && Pending(w'.depEvents, ls[i])) || !HashGatherable(w.deps, spec);
    }
  }

  lemma QueueKeeps(w: World, a: Action)
    requires Inv(w) && Sane(w)
    ensures Inv(QueueStep(w, a))
  {
    hide Sane, Writing, HashSettled, ItemsFresh, Referenced, Present;
    var w' := QueueStep(w, a);
    if a.Resolve? && !w'.queued && w' != w {
      HandInSync(w);
      ResolveKeeps(w, a.dep);
    } else if w' != w {
      assert Woken(w');
      assert Writing(w'.hist, w'.pc) by { IdleWrites(w.hist); }
    }
  }

  lemma IdleWrites(hist: seq<State>)
    ensures Writing(hist, Idle)
  {
  }

  lemma HandInSync(w: World)
    requires Sane(w) && w.hist != []
    ensures w.pc != Idle && !w.pc.obj.deleting && w.pc.base + 1 == |w.hist| ==> !w.Current().deleting
  {
  }

  // ---- Users, pods and the start of a pass.

  lemma UserKeeps(w: World, a: Action)
    requires Inv(w) && Sane(w)
    ensures Inv(UserStep(w, a))
  {
    hide Rerun, Rested, ItemsFresh;
    var w' := UserStep(w, a);
    if w' != w {
      assert Woken(w');
      assert w.hist <= w'.hist;
    }
  }

  lemma RunActKeeps(w: World, n: string, act: E.Action)
    requires Inv(w) && Sane(w)
    ensures forall n :: n in w.runs ==> w.runs[n].hist != []
    ensures Inv(RunActStep(w, n, act))
  {
    hide HistoryOk, PcOk, E.Step, Writing, HashSettled, ItemsFresh, External;
  }

  lemma StartKeeps(w: World)
    requires Inv(w) && Sane(w)
    ensures Inv(StartStep(w))
  {
    hide StoresOk, PcOk, HashSettled;
    var w' := StartStep(w);
    if w' != w && w'.pc == Idle && w.cached + 1 == |w.hist| {
      assert w'.Gone();
    }
  }

  // ---- The worker's calls.

  // A pass that ends because the hash is unchanged leaves the State settled.
  lemma DecideSettles(w: World, items: seq<Item>)
    requires w.hist != [] && !w.Current().deleting && IsInt32(w.Current().spec.version)
    requires var s := w.Current(); Matches(s.spec, items) && |items| == |Lookups(s.spec)|
    requires ItemsFresh(w.deps, w.depEvents, w.Current().spec, items)
    requires var s := w.Current();
             InputHash(Assemble(s.spec, items), Normal(s.spec.version), Create) == s.status.lastRunHash
    ensures HashSettled(w.deps, w.depEvents, w.Current())
  {
    hide Fetch, InputHash, Assemble, CreateHash, Pending, HashedLookups, Lookups, Matches, DepOf;
    var s := w.Current();
    var ls := HashedLookups(s.spec);
    if i :| 0 <= i < |ls| && Fetch(w.deps, ls[i]) != Some(items[i]) {
      assert ItemFresh(w.deps, w.depEvents, ls[i], items[i]);
    } else {
      CurrentItemsCurrentHash(w.deps, s.spec, items);
    }
  }

  lemma DecideKeeps(w: World, base: nat, obj: State, items: seq<Item>)
    requires Sane(w) && base < |w.hist| && IsInt32(obj.spec.version) && !obj.deleting
    requires Matches(obj.spec, items) && |items| == |Lookups(obj.spec)|
    requires obj == w.hist[base]
    requires Woken(w) || (base + 1 == |w.hist| && ItemsFresh(w.deps, w.depEvents, obj.spec, items))
    requires base + 1 == |w.hist| ==> RunSettled(w, obj)
    ensures Inv(Decide(w, base, obj, Assemble(obj.spec, items)))
  {
    hide Sane, InputHash, Assemble, ItemsFresh, Matches, Lookups, HashSettled;
    var input := Assemble(obj.spec, items);
    if InputHash(input, Normal(obj.spec.version), Create) == obj.status.lastRunHash && !Woken(w) {
      DecideSettles(w, items);
    }
  }

  lemma GatherKeeps(w: World, o: Outcome)
    requires Inv(w) && Sane(w) && w.pc.Gathering?
    ensures Inv(GatherCall(w, o, w.pc.base, w.pc.obj, w.pc.items))
  {
    hide HistoryOk, StoresOk, Fetch, Lookups, HashedLookups, Matches, AfterGather, Rested, Fits;
    var Gathering(base, obj, items) := w.pc;
    var l := Lookups(obj.spec)[|items|];
    if !o.Fail? && Fetch(w.deps, l).Some? {
      var items' := items + [Fetch(w.deps, l).value];
      Shape.ItemFits(obj.spec, items, w.deps);
      FetchedFresh(w.deps, w.depEvents, obj.spec, items);
      if |items'| == |Lookups(obj.spec)| { AfterGatherKeeps(w, base, obj, items'); }
    }
  }

  lemma FetchedFresh(d: Deps, events: set<Dep>, spec: StateSpec, items: seq<Item>)
    requires |items| < |Lookups(spec)| && Fetch(d, Lookups(spec)[|items|]).Some?
    ensures ItemsFresh(d, events, spec, items) ==>
              ItemsFresh(d, events, spec, items + [Fetch(d, Lookups(spec)[|items|]).value])
  {
    hide Fetch, HashedLookups, Lookups, Pending;
    var ls, all := HashedLookups(spec), Lookups(spec);
    assert ls <= all;
  }

  lemma AfterGatherKeeps(w: World, base: nat, obj: State, items: seq<Item>)
    requires Inv(w) && Sane(w) && base < |w.hist| && IsInt32(obj.spec.version)
    requires Matches(obj.spec, items) && |items| == |Lookups(obj.spec)|
    requires !obj.deleting ==> obj == w.hist[base]
    requires !obj.deleting ==>
      Woken(w) || (base + 1 == |w.hist| && ItemsFresh(w.deps, w.depEvents, obj.spec, items))
    ensures Inv(AfterGather(w, base, obj, items))
  {
    hide Sane, InputHash, Assemble, ItemsFresh, Matches, Lookups, Rested, Decide;
    if !obj.deleting && !obj.Tracking() { DecideKeeps(w, base, obj, items); }
  }

  lemma CheckKeeps(w: World, o: Outcome)
    requires Inv(w) && Sane(w) && w.pc.Checking?
    ensures Inv(CheckCall(w, o, w.pc.base, w.pc.obj, w.pc.items))
  {
    hide HistoryOk, StoresOk, Assemble, ItemsFresh, Matches, Lookups, Rested, Decide;
    var Checking(base, obj, items) := w.pc;
    if !obj.deleting && !RunApplied(w, obj.status.executionName) { DecideKeeps(w, base, obj, items); }
  }

  lemma UpdateKeeps(w: World, o: Outcome)
    requires Inv(w) && Sane(w) && (w.pc.Clearing? || w.pc.Recording? || w.pc.Releasing?)
    ensures Inv(CallStep(w, o))
  {
    hide GatherCall, CheckCall, DeployCall, LockCall, StoresOk, HashSettled, RunSettled;
  }

  lemma LockKeeps(w: World, o: Outcome)
    requires Inv(w) && Sane(w) && w.pc.Locking? && w.hist != []
    ensures Inv(LockCall(w, o, w.pc.base, w.pc.obj, w.pc.input, w.pc.hash))
  {
    hide StoresOk, HashSettled, RunSettled;
  }

  lemma DeployKeeps(w: World, o: Outcome)
    requires Inv(w) && Sane(w) && w.pc.Deploying?
    ensures var Deploying(base, obj, input, hash, stage) := w.pc;
            Inv(DeployCall(w, o, base, obj, input, hash, stage))
  {
    hide StageEffect, NextStage, HistoryOk, HashSettled, RunSettled;
  }

  lemma CallKeeps(w: World, o: Outcome)
    requires Inv(w) && Sane(w)
    ensures Inv(CallStep(w, o))
  {
    hide Inv, Sane, GatherCall, CheckCall, DeployCall, LockCall, Write;
    Shape.Indexed(w);
    match w.pc
    case Idle =>
    case Gathering(_, _, _) => GatherKeeps(w, o);
    case Checking(_, _, _) => CheckKeeps(w, o);
    case Deploying(_, _, _, _, _) => DeployKeeps(w, o);
    case Locking(_, _, _, _) => LockKeeps(w, o);
    case _ => UpdateKeeps(w, o);
  }

  lemma StepKeepsInv(w: World, a: Action)
    requires Inv(w) && Sane(w)
    ensures Inv(Step(w, a))
  {
    hide Inv, Sane, CallStep, UserStep, StartStep, QueueStep, RunActStep, DepStep;
    Shape.Indexed(w);
    match a
    case Call(o) => CallKeeps(w, o);
    case RunAct(n, act) => RunActKeeps(w, n, act);
    case EditSpec(_) => UserKeeps(w, a);
    case AddFinalizer => UserKeeps(w, a);
    case DeleteState => UserKeeps(w, a);
    case ResetRun(_) => UserKeeps(w, a);
    case ResetDeleted(_) => UserKeeps(w, a);
    case Start => StartKeeps(w);
    case Restart => QueueKeeps(w, a);
    case Deliver(_) => QueueKeeps(w, a);
    case Resolve(_) => QueueKeeps(w, a);
    case RunEvent(_) => QueueKeeps(w, a);
    case _ => DepKeeps(w, a);
  }
}
