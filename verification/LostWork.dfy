// The other half of NoLostWork: when the first Update of OnChange fails for a reason that
// is not a conflict, its error is dropped, nothing wakes the State, and it stays unsettled.
module LostWork {
  import opened Basics
  import opened Inputs
  import opened Reconciler
  import Shape
  import W = Wakeups
  import E = Executor

  // The store asks for another hash, or a resolver is still to say what changed, or there
  // is something missing to ask with.
  ghost predicate Unsettled(d: Deps, events: set<Dep>, s: State) {
    var ls := HashedLookups(s.spec);
    || (exists i :: 0 <= i < |ls| && W.Pending(events, ls[i]))
    || !HashGatherable(d, s.spec)
    || (IsInt32(s.spec.version) && CreateHash(d, s.spec) != s.status.lastRunHash)
  }

  ghost predicate Stuck(w: World)
    requires w.hist != []
  {
    W.Woken(w) || (!w.Current().deleting && Unsettled(w.deps, w.depEvents, w.Current()))
  }

  ghost predicate Inv(w: World) {
    && w.hist != []
    && (w.pc.Locking? && !w.pc.obj.deleting ==> Stuck(w))
    && (w.pc == Idle && w.lost ==> Stuck(w))
    && (w.pc != Idle ==> !w.lost)
  }

  // ---- The worker.

  // Deciding to run means the store asks for another hash than the last run's.
  lemma DecideUnsettles(w: World, items: seq<Item>)
    requires w.hist != [] && !w.Current().deleting && IsInt32(w.Current().spec.version)
    requires var s := w.Current(); Matches(s.spec, items) && |items| == |Lookups(s.spec)|
    requires W.ItemsFresh(w.deps, w.depEvents, w.Current().spec, items)
    requires var s := w.Current();
             InputHash(Assemble(s.spec, items), Normal(s.spec.version), Create) != s.status.lastRunHash
    ensures Unsettled(w.deps, w.depEvents, w.Current())
  {
    hide Fetch, InputHash, Assemble, CreateHash, W.Pending, HashedLookups, Lookups, Matches, W.DepOf;
    var s := w.Current();
    var ls := HashedLookups(s.spec);
    if i :| 0 <= i < |ls| && Fetch(w.deps, ls[i]) != Some(items[i]) {
      assert W.ItemFresh(w.deps, w.depEvents, ls[i], items[i]);
    } else {
      CurrentItemsCurrentHash(w.deps, s.spec, items);
    }
  }

  lemma DecideKeeps(w: World, base: nat, obj: State, items: seq<Item>)
    requires w.hist != [] && !w.lost && base < |w.hist| && IsInt32(obj.spec.version) && !obj.deleting
    requires Matches(obj.spec, items) && |items| == |Lookups(obj.spec)|
    requires obj == w.hist[base]
    requires W.Woken(w) || (base + 1 == |w.hist| && W.ItemsFresh(w.deps, w.depEvents, obj.spec, items))
    ensures Inv(Decide(w, base, obj, Assemble(obj.spec, items)))
  {
    hide InputHash, Assemble, W.ItemsFresh, Matches, Lookups, Unsettled;
    if InputHash(Assemble(obj.spec, items), Normal(obj.spec.version), Create) != obj.status.lastRunHash && !W.Woken(w) {
      DecideUnsettles(w, items);
    }
  }

  lemma GatherKeeps(w: World, o: Outcome)
    requires Inv(w) && W.Inv(w) && Sane(w) && w.pc.Gathering?
    ensures Inv(GatherCall(w, o, w.pc.base, w.pc.obj, w.pc.items))
  {
    hide HistoryOk, StoresOk, Fetch, Lookups, HashedLookups, Matches, AfterGather, W.Rested, Stuck, Fits;
    var Gathering(base, obj, items) := w.pc;
    if !o.Fail? && Fetch(w.deps, Lookups(obj.spec)[|items|]).Some? {
      var items' := items + [Fetch(w.deps, Lookups(obj.spec)[|items|]).value];
      Shape.ItemFits(obj.spec, items, w.deps);
      W.FetchedFresh(w.deps, w.depEvents, obj.spec, items);
      if |items'| == |Lookups(obj.spec)| { AfterGatherKeeps(w, base, obj, items'); }
    }
  }

  lemma AfterGatherKeeps(w: World, base: nat, obj: State, items: seq<Item>)
    requires w.hist != [] && !w.lost && base < |w.hist| && IsInt32(obj.spec.version)
    requires Matches(obj.spec, items) && |items| == |Lookups(obj.spec)|
    requires !obj.deleting ==> obj == w.hist[base]
    requires !obj.deleting ==>
      W.Woken(w) || (base + 1 == |w.hist| && W.ItemsFresh(w.deps, w.depEvents, obj.spec, items))
    ensures Inv(AfterGather(w, base, obj, items))
  {
    hide InputHash, Assemble, W.ItemsFresh, Matches, Lookups, Stuck, Decide;
    if !obj.deleting && !obj.Tracking() { DecideKeeps(w, base, obj, items); }
  }

  lemma CheckKeeps(w: World, o: Outcome)
    requires Inv(w) && W.Inv(w) && Sane(w) && w.pc.Checking?
    ensures Inv(CheckCall(w, o, w.pc.base, w.pc.obj, w.pc.items))
  {
    hide HistoryOk, StoresOk, Assemble, W.ItemsFresh, Matches, Lookups, W.Rested, Stuck, Decide;
    var Checking(base, obj, items) := w.pc;
    if !obj.deleting { DecideKeeps(w, base, obj, items); }
  }

  // The Update that takes the lock: only its silent failure leaves the State lost.
  lemma LockKeeps(w: World, o: Outcome)
    requires Inv(w) && w.pc.Locking?
    ensures Inv(LockCall(w, o, w.pc.base, w.pc.obj, w.pc.input, w.pc.hash))
  {
    hide Unsettled;
  }

  lemma OtherCallKeeps(w: World, o: Outcome)
    requires Inv(w) && Sane(w) && !w.pc.Gathering? && !w.pc.Checking? && !w.pc.Locking?
    ensures Inv(CallStep(w, o))
  {
    hide GatherCall, CheckCall, LockCall, HistoryOk, Stuck, StageEffect, NextStage, StageFails;
  }

  lemma CallKeeps(w: World, o: Outcome)
    requires Inv(w) && W.Inv(w) && Sane(w)
    ensures Inv(CallStep(w, o))
  {
    hide Inv, W.Inv, Sane, GatherCall, CheckCall, DeployCall, LockCall, Write;
    match w.pc
    case Gathering(_, _, _) => GatherKeeps(w, o);
    case Checking(_, _, _) => CheckKeeps(w, o);
    case Locking(_, _, _, _) => Shape.Indexed(w); LockKeeps(w, o);
    case _ => OtherCallKeeps(w, o);
  }

  // ---- Everybody else.

  lemma AnnouncedKeeps(d: Deps, events: set<Dep>, d': Deps, events': set<Dep>, s: State)
    requires W.Announced(d, events, d', events') && Unsettled(d, events, s)
    ensures Unsettled(d', events', s)
  {
    hide Fetch, HashedLookups, CreateHash, W.Pending, W.DepOf;
    var ls := HashedLookups(s.spec);
    if exists i :: 0 <= i < |ls| && W.Pending(events, ls[i]) {
      var i :| 0 <= i < |ls| && W.Pending(events, ls[i]);
      W.PendingGrows(events, events', ls[i]);
    } else if i :| 0 <= i < |ls| && Fetch(d', ls[i]) != Fetch(d, ls[i]) {
      W.HashedNotRef(s.spec, i);
      assert Fetch(d', ls[i]).None? || W.Pending(events', ls[i]);
    } else if HashGatherable(d, s.spec) {
      W.SameFetchSameHash(d, d', s.spec);
    } else {
      var l :| l in ls && Fetch(d, l).None?;
      assert Fetch(d', l).None?;
    }
  }

  lemma DepKeeps(w: World, a: Action)
    requires Inv(w) && Sane(w)
    ensures Inv(DepStep(w, a))
  {
    hide DepStep, Sane, Unsettled, W.Announced;
    var w' := DepStep(w, a);
    W.DepStepAnnounces(w, a);
    if Unsettled(w.deps, w.depEvents, w.Current()) {
      AnnouncedKeeps(w.deps, w.depEvents, w'.deps, w'.depEvents, w.Current());
    }
  }

  // A resolver that does not wake the State had nothing of it to announce.
  lemma ResolveKeeps(w: World, dep: Dep)
    requires w.hist != [] && !w.Current().deleting && Unsettled(w.deps, w.depEvents, w.Current())
    requires !Present(w.deps, dep) || !Referenced(dep, w.Current().spec)
    ensures Unsettled(w.deps, w.depEvents - {dep}, w.Current())
  {
    hide HashedLookups, Fetch, CreateHash, W.Pending, Present, Referenced, W.DepOf;
    var s := w.Current();
    var ls := HashedLookups(s.spec);
    if i :| 0 <= i < |ls| && W.Pending(w.depEvents, ls[i]) {
      W.HashedNotRef(s.spec, i);
      W.ResolveKeepsItem(w, dep, ls[i]);
      assert W.Pending(w.depEvents - {dep}, ls[i]) || Fetch(w.deps, ls[i]).None?;
    }
  }

  lemma QueueKeeps(w: World, a: Action)
    requires Inv(w) && Sane(w)
    ensures Inv(QueueStep(w, a))
  {
    hide Sane, Unsettled, Referenced, Present;
    var w' := QueueStep(w, a);
    if a.Resolve? && !w'.queued && w' != w && !w.Current().deleting && Unsettled(w.deps, w.depEvents, w.Current()) {
      ResolveKeeps(w, a.dep);
    }
  }

  lemma UserKeeps(w: World, a: Action)
    requires Inv(w) && Sane(w)
    ensures Inv(UserStep(w, a))
  {
    hide Rerun, Unsettled, StoresOk, PcOk;
    var w' := UserStep(w, a);
    if w' != w {
      assert W.Woken(w');
    }
  }

  lemma RunActKeeps(w: World, n: string, act: E.Action)
    requires Inv(w) && Sane(w)
    ensures forall n :: n in w.runs ==> w.runs[n].hist != []
    ensures Inv(RunActStep(w, n, act))
  {
    hide HistoryOk, PcOk, E.Step, Unsettled, External;
  }

  lemma StartKeeps(w: World)
    requires Inv(w) && w.cached < |w.hist|
    ensures Inv(StartStep(w))
  {
    hide Unsettled;
  }

  lemma StepKeepsInv(w: World, a: Action)
    requires Inv(w) && W.Inv(w) && Sane(w)
    ensures Inv(Step(w, a))
  {
    hide Inv, W.Inv, Sane, CallStep, UserStep, StartStep, QueueStep, RunActStep, DepStep;
    Shape.Indexed(w);
    match a
    case Call(o) => CallKeeps(w, o);
    case RunAct(n, act) => RunActKeeps(w, n, act);
    case EditSpec(_) => UserKeeps(w, a);
    case AddFinalizer => UserKeeps(w, a);
    case DeleteState => UserKeeps(w, a);
    case ResetRun(_) => UserKeeps(w, a);
    case ResetDeleted(_) => UserKeeps(w, a);
    case Start => StartKeeps(w);
    case Restart => QueueKeeps(w, a);
    case Deliver(_) => QueueKeeps(w, a);
    case Resolve(_) => QueueKeeps(w, a);
    case RunEvent(_) => QueueKeeps(w, a);
    case _ => DepKeeps(w, a);
  }
}
