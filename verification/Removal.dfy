// When a State is gone, and when a destroy has come before that.
module Removal {
  import opened Basics
  import opened Inputs
  import opened Reconciler
  import opened Tracking
  import O = Ownership
  import Shape
  import E = Executor

  ghost predicate DestroyExists(runs: map<string, E.Run>) {
    exists n :: n in runs && runs[n].kind.Destroy?
  }

  // The worker is about to deploy a destroy, is deploying it, or is recording it.
  predicate Destroying(pc: Pc) {
    (pc.Locking? || pc.Deploying? || pc.Recording?) && pc.obj.deleting
  }

  // A destroy needs a State that was deleted with its finalizer on and no longer tracks
  // the run it was deleted under.
  ghost predicate MayDestroy(hist: seq<State>, deletedAt: Option<nat>) {
    && hist != [] && deletedAt.Some? && deletedAt.value < |hist|
    && hist[deletedAt.value].finalizer
    && !Stamped(Stamp(hist, deletedAt), hist[|hist| - 1])
  }

  ghost predicate Inv(w: World) {
    DestroyExists(w.runs) || Destroying(w.pc) ==> MayDestroy(w.hist, w.deletedAt)
  }

  // ---- Along the versions of a deleted State.

  lemma {:induction false} NeverResumed(w: World, i: nat, j: nat)
    requires Tracking.Inv(w) && Sane(w) && i <= j < |w.hist| && w.hist[i].deleting
    ensures Stamped(Stamp(w.hist, w.deletedAt), w.hist[j]) ==> Stamped(Stamp(w.hist, w.deletedAt), w.hist[i])
    decreases j
  {
    hide PcInv, VersionsInv, Stamped, Stamp, Sane;
    if i == j {
    } else {
      NeverResumed(w, i, j - 1);
      StillDeleting(w, i, j - 1);
      assert FollowOk(w.runs, Stamp(w.hist, w.deletedAt), w.hist[j - 1], w.hist[j]);
    }
  }

  lemma StillDeleting(w: World, i: nat, j: nat)
    requires Sane(w) && i <= j < |w.hist| && w.hist[i].deleting
    ensures w.hist[j].deleting && w.deletedAt.Some? && w.deletedAt.value <= i
  {
    hide StoresOk, PcOk;
  }

  // A version that something follows has not been removed.
  lemma NotLast(w: World, i: nat)
    requires Tracking.Inv(w) && i + 1 < |w.hist|
    ensures !Removed(w.hist[i])
  {
    hide PcInv, VersionsInv;
    assert FollowOk(w.runs, Stamp(w.hist, w.deletedAt), w.hist[i], w.hist[i + 1]);
  }

  // A worker that goes for a destroy holds what a destroy needs.
  lemma LockingMayDestroy(w: World)
    requires Tracking.Inv(w) && Sane(w) && w.pc.Locking? && w.pc.obj.deleting
    ensures MayDestroy(w.hist, w.deletedAt)
  {
    hide StoresOk, HistoryOk, HistoryInv, VersionOk;
    var b := w.pc.base;
    assert w.hist[b].deleting && w.hist[b].finalizer;
    StillDeleting(w, b, |w.hist| - 1);
    if w.deletedAt.value < b { NotLast(w, w.deletedAt.value); StampDeletes(w); }
    NeverResumed(w, b, |w.hist| - 1);
  }

  lemma StampDeletes(w: World)
    requires Sane(w) && w.deletedAt.Some?
    ensures w.deletedAt.value < |w.hist| && w.hist[w.deletedAt.value].deleting
  {
    hide StoresOk, PcOk;
  }

  // Once it may be destroyed, a State stays so.
  lemma MayStill(w: World, w': World)
    requires MayDestroy(w.hist, w.deletedAt) && Sane(w) && Tracking.Inv(w') && Sane(w')
    requires w'.deletedAt == w.deletedAt && w.hist <= w'.hist
    ensures MayDestroy(w'.hist, w'.deletedAt)
  {
    hide Sane, Tracking.Inv, Stamped;
    StampDeletes(w);
    assert w'.hist[|w.hist| - 1].deleting by { StillDeleting(w, w.deletedAt.value, |w.hist| - 1); }
    NeverResumed(w', |w.hist| - 1, |w'.hist| - 1);
  }

  // ---- Preservation.

  // The worker sets about a destroy only by going for the lock.
  lemma DestroyingBegins(w: World, o: Outcome)
    requires Sane(w)
    ensures Destroying(CallStep(w, o).pc) ==> Destroying(w.pc) || CallStep(w, o).pc.Locking?
  {
    hide Sane, GatherCall, CheckCall, DeployCall, LockCall, Write, Accepts;
    match w.pc
    case Gathering(_, _, _) => ReadingThenLocking(w, o);
    case Checking(_, _, _) => ReadingThenLocking(w, o);
    case Deploying(_, _, _, _, _) => DeployingStays(w, o);
    case Locking(_, _, _, _) => Shape.Indexed(w); LockingStays(w, o);
    case _ =>
  }

  lemma ReadingThenLocking(w: World, o: Outcome)
    requires Sane(w) && (w.pc.Gathering? || w.pc.Checking?)
    ensures var pc := CallStep(w, o).pc; !pc.Deploying? && !pc.Recording?
  {
    hide HistoryOk, StoresOk, Matches, InputHash, Lookups, Assemble, Fetch, LockCall, DeployCall;
  }

  lemma DeployingStays(w: World, o: Outcome)
    requires Sane(w) && w.pc.Deploying?
    ensures var pc := CallStep(w, o).pc;
            pc.Deploying? || pc.Recording? || pc == Idle
    ensures Destroying(CallStep(w, o).pc) ==> Destroying(w.pc)
  {
    hide HistoryOk, PcOk, StageEffect, StageFails, NextStage, LockCall, GatherCall, CheckCall;
  }

  lemma LockingStays(w: World, o: Outcome)
    requires w.hist != [] && w.pc.Locking?
    ensures var pc := LockCall(w, o, w.pc.base, w.pc.obj, w.pc.input, w.pc.hash).pc;
            Destroying(pc) ==> w.pc.obj.deleting
  {
    hide Write, Accepts;
  }

  lemma StepBegins(w: World, a: Action)
    requires Sane(w)
    ensures Destroying(Step(w, a).pc) ==> Destroying(w.pc) || Step(w, a).pc.Locking?
  {
    hide Sane, UserStep, StartStep, CallStep, RunActStep, QueueStep, DepStep, Destroying;
    Shape.Indexed(w);
    IdleDestroysNothing();
    match a
    case Call(o) => DestroyingBegins(w, o);
    case RunAct(n, act) => O.RunActEvolves(w, n, act); RunActKeepsPc(w, n, act);
    case Start => StartDestroysNothing(w);
    case EditSpec(_) => UserKeepsPc(w, a);
    case AddFinalizer => UserKeepsPc(w, a);
    case DeleteState => UserKeepsPc(w, a);
    case ResetRun(_) => UserKeepsPc(w, a);
    case ResetDeleted(_) => UserKeepsPc(w, a);
    case _ =>
  }

  lemma IdleDestroysNothing()
    ensures !Destroying(Idle)
  {
  }

  lemma RunActKeepsPc(w: World, n: string, act: E.Action)
    requires w.hist != [] && (forall n :: n in w.runs ==> w.runs[n].hist != [])
    ensures var w' := RunActStep(w, n, act); w'.pc == w.pc && w'.hist == w.hist && w'.deletedAt == w.deletedAt
  {
    hide E.Step, External;
  }

  lemma StartDestroysNothing(w: World)
    requires w.hist != [] && w.cached < |w.hist|
    ensures Destroying(StartStep(w).pc) ==> Destroying(w.pc)
    ensures StartStep(w).hist == w.hist && StartStep(w).deletedAt == w.deletedAt
  {
  }

  lemma UserKeepsPc(w: World, a: Action)
    requires Sane(w)
    ensures UserStep(w, a).pc == w.pc
  {
    hide HistoryOk, StoresOk, PcOk, Write, Rerun;
    Shape.Indexed(w);
    Shape.VersionsOk(w);
  }

  // Versions are only added, and a deletion is for good.
  lemma StepAdds(w: World, a: Action)
    requires Sane(w)
    ensures w.hist <= Step(w, a).hist && (w.deletedAt.Some? ==> Step(w, a).deletedAt == w.deletedAt)
  {
    hide Sane, UserStep, StartStep, CallStep, RunActStep, QueueStep, DepStep;
    Shape.Indexed(w);
    match a
    case Call(o) => CallAdds(w, o);
    case RunAct(n, act) => O.RunActEvolves(w, n, act); RunActKeepsPc(w, n, act);
    case Start => StartDestroysNothing(w);
    case EditSpec(_) => UserAdds(w, a);
    case AddFinalizer => UserAdds(w, a);
    case DeleteState => UserAdds(w, a);
    case ResetRun(_) => UserAdds(w, a);
    case ResetDeleted(_) => UserAdds(w, a);
    case _ =>
  }

  lemma UserAdds(w: World, a: Action)
    requires Sane(w)
    ensures w.hist <= UserStep(w, a).hist && (w.deletedAt.Some? ==> UserStep(w, a).deletedAt == w.deletedAt)
  {
    hide StoresOk, PcOk, Write, Rerun;
    Shape.Indexed(w);
    Shape.VersionsOk(w);
  }

  lemma CallAdds(w: World, o: Outcome)
    requires Sane(w)
    ensures w.hist <= CallStep(w, o).hist && CallStep(w, o).deletedAt == w.deletedAt
  {
    hide Sane, GatherCall, CheckCall, DeployCall, LockCall, Write, Accepts;
    Shape.Indexed(w);
    match w.pc
    case Gathering(_, _, _) => O.ReadingKeepsHist(w, o);
    case Checking(_, _, _) => O.ReadingKeepsHist(w, o);
    case Deploying(_, _, _, _, _) => O.DeployKeepsHist(w, o);
    case Locking(_, _, _, _) => LockAdds(w, o);
    case _ =>
  }

  lemma LockAdds(w: World, o: Outcome)
    requires w.hist != [] && w.pc.Locking?
    ensures var w' := LockCall(w, o, w.pc.base, w.pc.obj, w.pc.input, w.pc.hash);
            w.hist <= w'.hist && w'.deletedAt == w.deletedAt
  {
    hide Write, Accepts;
  }

  lemma StepKeepsInv(w: World, a: Action)
    requires Inv(w) && Sane(w) && Tracking.Inv(w) && Sane(Step(w, a)) && Tracking.Inv(Step(w, a))
    ensures Inv(Step(w, a))
  {
    hide Sane, Step, Tracking.Inv, MayDestroy;
    var w' := Step(w, a);
    StepAdds(w, a);
    StepBegins(w, a);
    O.StepEvolves(w, a);
    if DestroyExists(w.runs) || Destroying(w.pc) {
      assert w.deletedAt.Some? by { MayIsDeleted(w); }
      MayStill(w, w');
    } else if Destroying(w'.pc) {
      LockingMayDestroy(w');
    }
  }

  lemma MayIsDeleted(w: World)
    requires MayDestroy(w.hist, w.deletedAt)
    ensures w.deletedAt.Some?
  {
  }
}
