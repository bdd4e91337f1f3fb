// The main results: what holds of every world any run of the system can reach, whatever
// users, pods, resolvers, conflicts, errors and crashes come between any two calls.
module Guarantees {
  import opened Basics
  import opened Inputs
  import opened RunHash
  import opened Reconciler
  import opened Shape
  import Deployment
  import Tracking
  import Wakeups
  import LostWork
  import Ownership
  import Removal
  import E = Executor
  import S = ExecutorSafety
  import M = ModuleController

  ghost predicate AllInv(w: World) {
    && Sane(w) && Deployment.Inv(w) && Tracking.Inv(w) && Wakeups.Inv(w) && LostWork.Inv(w)
    && Ownership.Inv(w) && Removal.Inv(w)
  }

  lemma InitInv(name: string, spec: StateSpec)
    requires IsInt32(spec.version)
    ensures AllInv(Init(name, spec))
  {
    hide Sane, Deployment.Inv, Tracking.Inv, Wakeups.Inv, LostWork.Inv, Ownership.Inv, Removal.Inv, Init;
    InitSane(name, spec);
    InitDeployed(name, spec);
    InitTracked(name, spec);
    InitWoken(name, spec);
    InitNotLost(name, spec);
    InitOwned(name, spec);
  }

  lemma InitDeployed(name: string, spec: StateSpec)
    ensures Deployment.Inv(Init(name, spec))
  {
  }

  lemma InitTracked(name: string, spec: StateSpec)
    ensures Tracking.Inv(Init(name, spec))
  {
  }

  lemma InitWoken(name: string, spec: StateSpec)
    ensures Wakeups.Inv(Init(name, spec))
  {
    hide Wakeups.HashSettled;
  }

  lemma InitNotLost(name: string, spec: StateSpec)
    ensures LostWork.Inv(Init(name, spec))
  {
  }

  lemma InitOwned(name: string, spec: StateSpec)
    ensures Ownership.Inv(Init(name, spec)) && Removal.Inv(Init(name, spec))
  {
  }

  lemma StepKeepsInv(w: World, a: Action)
    requires AllInv(w)
    ensures AllInv(Step(w, a))
  {
    hide Sane, Step, Deployment.Inv, Tracking.Inv, Wakeups.Inv, LostWork.Inv, Ownership.Inv, Removal.Inv;
    StepKeepsSane(w, a);
    Deployment.StepKeepsInv(w, a);
    Tracking.StepKeepsInv(w, a);
    Wakeups.StepKeepsInv(w, a);
    LostWork.StepKeepsInv(w, a);
    Ownership.StepKeepsInv(w, a);
    Removal.StepKeepsInv(w, a);
  }

  lemma {:induction false} RunKeepsInv(w: World, actions: seq<Action>)
    requires AllInv(w)
    ensures AllInv(Shape.Run(w, actions))
    decreases |actions|
  {
    hide Sane, Step, Deployment.Inv, Tracking.Inv, Wakeups.Inv, LostWork.Inv, Ownership.Inv, Removal.Inv;
    if actions == [] {
    } else {
      StepKeepsInv(w, actions[0]);
      StepKeepsSane(w, actions[0]);
      RunKeepsInv(Step(w, actions[0]), actions[1..]);
    }
  }

  lemma ReachableInv(w: World)
    requires Reachable(w)
    ensures AllInv(w)
  {
    hide Sane, Deployment.Inv, Tracking.Inv, Wakeups.Inv, LostWork.Inv, Ownership.Inv, Removal.Inv, Init, Shape.Run;
    var name: string, spec: StateSpec, actions: seq<Action> :|
      IsInt32(spec.version) && (InitSane(name, spec); w == Shape.Run(Init(name, spec), actions));
    InitInv(name, spec);
    RunKeepsInv(Init(name, spec), actions);
  }

  // ---- No lost work.

  // Nobody holds the key, and nothing is on its way that would queue it.
  ghost predicate Calm(w: World)
    requires w.hist != []
  {
    && w.pc == Idle && !w.queued && w.cached == w.Top()
    && (forall dep :: dep in w.depEvents ==> !Referenced(dep, w.Current().spec))
    && w.Current().status.executionName !in w.runEvents
  }

  // Removed; or not being deleted, with nothing finished still tracked, and either
  // something it names is missing or unhashed, or its last run is the one asked for now.
  ghost predicate Settled(w: World)
    requires w.hist != [] && IsInt32(w.Current().spec.version)
  {
    var s := w.Current();
    w.Gone() ||
    (&& !s.deleting
     && (HashGatherable(w.deps, s.spec) ==> CreateHash(w.deps, s.spec) == s.status.lastRunHash)
     && !(s.Tracking() && RunApplied(w, s.status.executionName)))
  }

  lemma NoEventPending(w: World)
    requires w.hist != [] && Calm(w)
    ensures forall i :: 0 <= i < |HashedLookups(w.Current().spec)| ==>
              !Wakeups.Pending(w.depEvents, HashedLookups(w.Current().spec)[i])
  {
    hide HashedLookups, Referenced;
    var spec := w.Current().spec;
    forall i | 0 <= i < |HashedLookups(spec)| ensures !Wakeups.Pending(w.depEvents, HashedLookups(spec)[i]) {
      Wakeups.HashedNotRef(spec, i);
    }
  }

  // A calm State is settled, unless its last pass ended in the first Update failing
  // for a reason other than a conflict, which OnChange does not report.
  lemma NoLostWork(w: World)
    requires Reachable(w)
    ensures w.hist != [] && IsInt32(w.Current().spec.version)
    ensures Calm(w) && !w.lost ==> Settled(w)
  {
    hide Deployment.Inv, Tracking.Inv, LostWork.Inv, Ownership.Inv, Removal.Inv, Wakeups.Working, Wakeups.Writing,
         HashedLookups,
         CreateHash, StoresOk, PcOk, Calm;
    ReachableInv(w);
    if Calm(w) && !w.lost {
      NoEventPending(w);
      CalmMeans(w);
    }
  }

  lemma CalmMeans(w: World)
    requires w.hist != [] && Calm(w)
    ensures w.pc == Idle && !w.queued && w.cached == w.Top() && w.Current().status.executionName !in w.runEvents
  {
  }

  // And exactly then: with its input there, a calm State that is not gone is settled if
  // and only if that silent failure is not how its last pass ended.
  lemma SettledUnlessLost(w: World)
    requires Reachable(w)
    ensures w.hist != [] && IsInt32(w.Current().spec.version)
    ensures Calm(w) && !w.Gone() && HashGatherable(w.deps, w.Current().spec) ==> (Settled(w) <==> !w.lost)
  {
    hide Sane, Deployment.Inv, Tracking.Inv, Wakeups.Inv, Ownership.Inv, Removal.Inv, HashedLookups, CreateHash,
         HashGatherable, Calm;
    NoLostWork(w);
    ReachableInv(w);
    if Calm(w) && w.lost && HashGatherable(w.deps, w.Current().spec) {
      NoEventPending(w);
      CalmMeans(w);
    }
  }

  // ---- Tracking.

  // At every version: a deployed job names a run of this State, and LastRunHash is its hash.
  lemma JobsAreTracked(w: World, i: nat)
    requires Reachable(w) && i < |w.hist| && w.hist[i].status.jobDeployed == IsTrue
    ensures var s := w.hist[i].status;
            && s.lastRunHash != "" && s.executionName != ""
            && s.executionName in w.runs
            && w.runs[s.executionName].name == s.executionName
            && w.runs[s.executionName].hist != []
            && w.runs[s.executionName].Current().spec.runHash == s.lastRunHash
            && w.runs[s.executionName].Current().spec.stateName == w.name
  {
    hide Sane, Wakeups.Inv, LostWork.Inv, Removal.Inv, Tracking.FollowsInv, Tracking.PcInv, Tracking.KindTracked,
         Deployment.Inv, Deployment.Honest, E.Inv;
    ReachableInv(w);
    Tracking.VersionIsOk(w, i);
    RunIsSound(w, w.hist[i].status.executionName);
  }

  // So OnRemove never finds its own hash on a State whose job flag it has to look at.
  lemma SecondHashGuardUnreachable(w: World, i: nat)
    requires Reachable(w) && i < |w.hist| && !w.hist[i].Tracking()
    ensures w.hist[i].status.jobDeployed != IsTrue
  {
    if w.hist[i].status.jobDeployed == IsTrue { JobsAreTracked(w, i); }
  }

  // ---- Destroy before removal.

  // terraform destroy succeeded with the authority it needs, or a user said no to it.
  predicate Destroyed(r: E.Run) {
    exists j :: 0 <= j < |r.log| &&
      match r.log[j]
      case Ran(_, auth, ok, _) => ok && E.AuthOk(r, auth)
      case Declined(_, v) => E.Said(r, v, "no")
  }

  lemma DestroyConcluded(r: E.Run)
    requires E.Inv(r) && r.kind.Destroy? && r.hist != [] && r.Current().applied
    ensures Destroyed(r)
  {
    hide E.Inv, Lower;
    var j := S.AppliedDestroy(r, |r.hist| - 1);
  }

  lemma TrackingHolds(w: World)
    requires Reachable(w)
    ensures Sane(w) && Deployment.Inv(w) && Tracking.Inv(w) && Removal.Inv(w)
  {
    hide Sane, Deployment.Inv, Tracking.Inv, Wakeups.Inv, LostWork.Inv, Ownership.Inv, Removal.Inv, Reachable;
    ReachableInv(w);
  }

  // A release: the finalizer comes off.
  predicate Releases(w: World, i: nat) {
    1 <= i < |w.hist| && w.hist[i - 1].finalizer && !w.hist[i].finalizer
  }

  // The finalizer comes off only a deleted State and, when DestroyOnDelete holds, only one
  // whose tracked run has been Applied. That run is a destroy which succeeded or was
  // declined by a user, if and only if it is not the run the State was deleted under.
  lemma DestroyBeforeRemoval(w: World, i: nat)
    requires Reachable(w) && Releases(w, i)
    ensures w.hist[i - 1].deleting
    ensures w.hist[i - 1].spec.destroyOnDelete ==>
      var n := w.hist[i - 1].status.executionName;
      && n in w.runs && w.runs[n].hist != [] && w.runs[n].Current().applied
      && ((w.runs[n].kind.Destroy? && Destroyed(w.runs[n]))
          <==> !Tracking.Stamped(Tracking.Stamp(w.hist, w.deletedAt), w.hist[i - 1]))
  {
    hide Sane, Deployment.Inv, Removal.Inv, Destroyed, Reachable, Tracking.Stamp, Tracking.Stamped;
    TrackingHolds(w);
    Released(w, i);
    if w.hist[i - 1].spec.destroyOnDelete {
      var n := w.hist[i - 1].status.executionName;
      RunIsSound(w, n);
      if w.runs[n].kind.Destroy? { DestroyConcluded(w.runs[n]); }
    }
  }

  lemma Released(w: World, i: nat)
    requires Tracking.Inv(w) && Releases(w, i)
    ensures Tracking.Releasable(w.runs, w.hist[i - 1])
    ensures Tracking.SameBut(w.hist[i].(finalizer := true), w.hist[i - 1])
    ensures Tracking.KindTracked(w.runs, Tracking.Stamp(w.hist, w.deletedAt), w.hist[i - 1])
  {
    hide Tracking.PcInv, Tracking.Stamp, Tracking.Stamped, Tracking.KindTracked, Tracking.Releasable;
    assert Tracking.FollowOk(w.runs, Tracking.Stamp(w.hist, w.deletedAt), w.hist[i - 1], w.hist[i]);
    assert Tracking.VersionOk(w.runs, Tracking.Stamp(w.hist, w.deletedAt), w.hist[i - 1]);
  }

  // A State that asked for a destroy and is gone: one has concluded if and only if its
  // finalizer was on when it was deleted and it did not go on the strength of the run it
  // was deleted under. Otherwise no destroy was ever deployed.
  lemma GoneAfterDestroy(w: World)
    requires Reachable(w) && w.hist != [] && w.Gone() && w.Current().spec.destroyOnDelete
    ensures w.deletedAt.Some? && w.deletedAt.value < |w.hist|
    ensures var kept := w.hist[w.deletedAt.value].finalizer
                        && !Tracking.Stamped(Tracking.Stamp(w.hist, w.deletedAt), w.Current());
            && ((exists n :: n in w.runs && w.runs[n].kind.Destroy? && Destroyed(w.runs[n])) <==> kept)
            && (!kept ==> forall n :: n in w.runs ==> w.runs[n].kind.Create?)
  {
    hide Deployment.Inv, Tracking.Inv, Removal.Inv, Destroyed, Reachable, Tracking.Stamp, Tracking.Stamped, StoresOk, PcOk;
    TrackingHolds(w);
    NoDestroyOtherwise(w);
    var d := w.deletedAt.value;
    if w.hist[d].finalizer && !Tracking.Stamped(Tracking.Stamp(w.hist, w.deletedAt), w.Current()) {
      GoneByRelease(w);
    }
  }

  lemma NoDestroyOtherwise(w: World)
    requires Removal.Inv(w) && w.hist != [] && w.deletedAt.Some? && w.deletedAt.value < |w.hist|
    ensures !(w.hist[w.deletedAt.value].finalizer
              && !Tracking.Stamped(Tracking.Stamp(w.hist, w.deletedAt), w.Current())) ==>
            forall n :: n in w.runs ==> w.runs[n].kind.Create?
  {
  }

  // Deleted with its finalizer on, a State goes by a release, on the run it then tracks.
  lemma GoneByRelease(w: World)
    requires Reachable(w) && Sane(w) && Deployment.Inv(w) && Tracking.Inv(w)
    requires w.hist != [] && w.Gone() && w.Current().spec.destroyOnDelete
    requires w.deletedAt.Some? && w.deletedAt.value < |w.hist| && w.hist[w.deletedAt.value].finalizer
    requires !Tracking.Stamped(Tracking.Stamp(w.hist, w.deletedAt), w.Current())
    ensures exists n :: n in w.runs && w.runs[n].kind.Destroy? && Destroyed(w.runs[n])
  {
    hide Deployment.Inv, Tracking.Inv, Destroyed, Reachable, Tracking.Stamp, StoresOk, PcOk;
    var top := w.Top();
    assert w.deletedAt.value < top;
    Removal.NotLast(w, top - 1);
    assert w.hist[top - 1].deleting;
    assert Releases(w, top);
    Released(w, top);
    DestroyBeforeRemoval(w, top);
    assert w.runs[w.hist[top - 1].status.executionName].kind.Destroy?;
  }

  // deletedAt is the first deleting version; before it none is, from it on all are.
  lemma DeletionStamp(w: World, i: nat)
    requires Reachable(w) && i < |w.hist|
    ensures w.hist[i].deleting <==> w.deletedAt.Some? && w.deletedAt.value <= i
    ensures w.deletedAt.Some? ==> 0 < w.deletedAt.value < |w.hist|
  {
    hide Deployment.Inv, Tracking.Inv, Wakeups.Inv, LostWork.Inv, Ownership.Inv, Removal.Inv, StoresOk, PcOk;
    ReachableInv(w);
  }

  // ---- Creation order.

  lemma RunIsSound(w: World, n: string)
    requires Deployment.Inv(w) && n in w.runs
    ensures E.Inv(w.runs[n]) && Deployment.Honest(w.runs[n]) && w.runs[n].name == n
    ensures w.runs[n].hist != []
    ensures w.runs[n].Current().spec.runHash == w.runs[n].hist[0].spec.runHash
    ensures w.runs[n].Current().spec.contentHash == w.runs[n].hist[0].spec.contentHash
    ensures w.runs[n].Current().spec.content == w.runs[n].hist[0].spec.content
    ensures w.runs[n].Current().spec.version == w.runs[n].hist[0].spec.version
    ensures w.runs[n].Current().spec.stateName == w.runs[n].hist[0].spec.stateName
  {
    hide Deployment.ModulesOk, Deployment.PcSourced, M.HashOfContent, RunHashOf;
    var r := w.runs[n];
    assert E.Inv(r) && Deployment.Honest(r);
    E.HasHistory(r);
    assert E.Past(r) by { hide Deployment.RunsOk, Deployment.Honest, E.Past; }
    E.SpecFixed(r, |r.hist| - 1);
  }

  // Whenever a Job exists, its Execution names the Secret that holds its variables, the
  // service account and binding exist, and the Execution's run hash is the hash of exactly
  // those variables with its own content hash, version and action. The Execution itself is
  // there unless a user deleted it or its State is gone.
  lemma JobsAreComplete(w: World, n: string)
    requires Reachable(w) && n in w.runs && w.runs[n].job.Some?
    ensures w.hist != []
    ensures var r := w.runs[n];
            && r.hist != []
            && r.Current().spec.secretName == "s-" + n
            && r.secret.Some? && r.account.Present? && r.binding.Present?
            && (r.deleted ==> r.userDeleted || w.Gone())
            && IsInt32(r.Current().spec.version)
            && r.Current().spec.runHash
               == RunHashOf(r.secret.value.vars, r.Current().spec.contentHash, r.Current().spec.version, r.job.value.kind)
            && HashesRun(r.Current().spec.runHash, r.secret.value.vars, r.Current().spec.contentHash, r.Current().spec.version,
                         r.job.value.kind)
  {
    hide Sane, Wakeups.Inv, LostWork.Inv, Removal.Inv, Tracking.Inv, E.Inv, RunHashOf, M.HashOfContent, HashesRun;
    ReachableInv(w);
    RunIsSound(w, n);
    ExecutionsCarryTheirContent(w, n);
    S.JobHasItsInputs(w.runs[n]);
    var r := w.runs[n];
    RunHashIs(r.secret.value.vars, r.Current().spec.contentHash, r.Current().spec.version, r.job.value.kind);
  }

  // Every Execution carries content that matches its content hash.
  lemma ExecutionsCarryTheirContent(w: World, n: string)
    requires Reachable(w) && n in w.runs
    ensures w.runs[n].hist != []
    ensures var spec := w.runs[n].Current().spec;
            spec.contentHash == M.HashOfContent(spec.content) && spec.contentHash != ""
  {
    hide Sane, Wakeups.Inv, LostWork.Inv, Ownership.Inv, Removal.Inv, Tracking.Inv, E.Inv, RunHashOf, M.HashOfContent;
    ReachableInv(w);
    RunIsSound(w, n);
  }

  // ---- Executors.

  // In every run of every world, terraform changed something only under AutoConfirm or
  // after a version of that very Execution was seen to be approved.
  lemma TerraformNeedsApproval(w: World, n: string, j: nat)
    requires Reachable(w) && n in w.runs && j < |w.runs[n].log| && w.runs[n].log[j].Ran?
    ensures var r := w.runs[n];
            match r.log[j].auth
            case Auto => forall i :: 0 <= i < |r.hist| ==> r.hist[i].spec.autoConfirm
            case Saw(v) => v < |r.hist| && r.hist[v].approved.Some? && Lower(r.hist[v].approved.value) == "yes"
  {
    hide Sane, Wakeups.Inv, LostWork.Inv, Ownership.Inv, Removal.Inv, Tracking.Inv, Deployment.Honest;
    ReachableInv(w);
    S.ApprovalSafety(w.runs[n], j);
  }

  // No write to an Execution ever undoes another's.
  lemma NoLostUpdates(w: World, n: string, i: nat)
    requires Reachable(w) && n in w.runs && 1 <= i < |w.runs[n].hist|
    ensures var r := w.runs[n];
            && |r.writers| == |r.hist|
            && S.ChangesOnly(r.writers[i], r.hist[i - 1], r.hist[i])
            && (r.writers[i] != E.User ==> r.hist[i].approved == r.hist[i - 1].approved)
            && (r.hist[i - 1].planned ==> r.hist[i].planned)
            && (r.hist[i - 1].applied ==> r.hist[i].applied)
  {
    hide Sane, Wakeups.Inv, LostWork.Inv, Ownership.Inv, Removal.Inv, Tracking.Inv, Deployment.Honest, E.Inv, S.ChangesOnly;
    ReachableInv(w);
    S.FieldsKept(w.runs[n], i);
  }

  // An Applied create Execution had its terraform apply first.
  lemma AppliedMeansApply(w: World, n: string, i: nat) returns (k: nat, j: nat)
    requires Reachable(w) && n in w.runs && w.runs[n].kind.Create?
    requires i < |w.runs[n].hist| && w.runs[n].hist[i].applied
    ensures var r := w.runs[n];
            && k <= i && j < |r.log| && r.log[j].Ran? && r.log[j].ok
            && |r.writers| == |r.hist| && r.writers[k] == E.Pod(r.log[j].epoch, E.Applied(r.log[j].output))
            && (r.hist[k].planned || E.Miss(r.log[j].epoch, E.Planned) in r.missed)
            && (r.hist[k].logs == r.log[j].output || E.Miss(r.log[j].epoch, E.Logs(r.log[j].output)) in r.missed)
  {
    hide Sane, Wakeups.Inv, LostWork.Inv, Ownership.Inv, Removal.Inv, Tracking.Inv, Deployment.Honest;
    ReachableInv(w);
    k, j := S.CompletionOrder(w.runs[n], i);
  }
}
