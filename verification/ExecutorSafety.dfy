// What holds of one Execution over every history of its pods, its users and its deployer.
module ExecutorSafety {
  import opened Basics
  import opened Executor

  // The deployer makes the Job last, with everything the pod needs in place.
  ghost predicate Deployed(r: Run, actions: seq<Action>)
    requires r.hist != []
    decreases |actions|
  {
    actions != [] ==>
      && (actions[0].MakeJob? ==> Ready(r) && actions[0].job.kind == r.kind)
      && Deployed(Step(r, actions[0]), actions[1..])
  }

  lemma {:induction false} StepsKeepInv(r: Run, actions: seq<Action>)
    requires Inv(r) && Deployed(r, actions)
    ensures Inv(Steps(r, actions))
    decreases |actions|
  {
    hide Inv, Step;
    assert r.hist != [] by { HasHistory(r); }
    if actions == [] {
    } else {
      StepKeepsInv(r, actions[0]);
      StepsKeepInv(Step(r, actions[0]), actions[1..]);
    }
  }

  // Approval safety: terraform apply and terraform destroy run only under AutoConfirm, or
  // after a version of this very Execution was seen whose approval says yes.
  lemma ApprovalSafety(r: Run, j: nat)
    requires Inv(r) && j < |r.log| && r.log[j].Ran?
    ensures match r.log[j].auth
            case Auto => forall i :: 0 <= i < |r.hist| ==> r.hist[i].spec.autoConfirm
            case Saw(v) => v < |r.hist| && r.hist[v].approved.Some? && Lower(r.hist[v].approved.value) == "yes"
  {
    hide Objects, Position;
    assert EventOk(r, r.log[j]);
    if r.log[j].auth.Auto? {
      forall i | 0 <= i < |r.hist| ensures r.hist[i].spec.autoConfirm { SpecFixed(r, i); }
    }
  }

  // What a writer changes, field by field.
  predicate ChangesOnly(w: Writer, e: Execution, e': Execution) {
    match w
    case Creator => false
    case Namer => e' == e.(spec := e.spec.(secretName := e'.spec.secretName))
    case User => e' == e.(approved := e'.approved)
    case Pod(_, rec) =>
      match rec
      case Planned => e' == e.(planned := true)
      case Logs(text) => e' == e.(logs := text)
      case Applied(_) => e' == e.(applied := true)
      case Outputs(text) => e' == e.(outputs := text)
  }

  // Lost-update freedom: every version is the one it replaced with its writer's own field changed.
  lemma LostUpdateFreedom(r: Run, i: nat)
    requires Inv(r) && 1 <= i < |r.hist|
    ensures |r.writers| == |r.hist| && ChangesOnly(r.writers[i], r.hist[i - 1], r.hist[i])
  {
    hide Objects, Position;
    assert OwnField(r.writers[i], r.hist[i - 1], r.hist[i]);
  }

  lemma FieldsKept(r: Run, i: nat)
    requires Inv(r) && 1 <= i < |r.hist|
    ensures |r.writers| == |r.hist| && ChangesOnly(r.writers[i], r.hist[i - 1], r.hist[i])
    ensures r.writers[i] != User ==> r.hist[i].approved == r.hist[i - 1].approved
    ensures r.hist[i - 1].planned ==> r.hist[i].planned
    ensures r.hist[i - 1].applied ==> r.hist[i].applied
  {
    hide Inv;
    LostUpdateFreedom(r, i);
  }

  // So an approval stands until another user write.
  lemma {:induction false} ApprovalPersists(r: Run, i: nat, j: nat)
    requires Inv(r) && i <= j < |r.hist| && |r.writers| == |r.hist|
    requires forall k :: i < k <= j ==> r.writers[k] != User
    ensures r.hist[j].approved == r.hist[i].approved
    decreases j
  {
    if i == j {
    } else {
      ApprovalPersists(r, i, j - 1);
      LostUpdateFreedom(r, j);
    }
  }

  // And what a pod has recorded is never taken back.
  lemma {:induction false} RecordsPersist(r: Run, i: nat, j: nat)
    requires Inv(r) && i <= j < |r.hist|
    ensures r.hist[i].applied ==> r.hist[j].applied
    ensures r.hist[i].planned ==> r.hist[j].planned
    decreases j
  {
    if i == j {
    } else {
      RecordsPersist(r, i, j - 1);
      LostUpdateFreedom(r, j);
    }
  }

  // An Execution marked Applied was marked so by a pod.
  lemma {:induction false} AppliedByPod(r: Run, i: nat) returns (k: nat)
    requires Inv(r) && i < |r.hist| && r.hist[i].applied
    ensures k <= i && |r.writers| == |r.hist|
    ensures r.writers[k].Pod? && r.writers[k].rec.Applied? && r.hist[k].applied
  {
    assert i != 0 by { hide Objects, Position, RecordOk; }
    LostUpdateFreedom(r, i);
    if r.hist[i - 1].applied { k := AppliedByPod(r, i - 1); } else { k := i; }
  }

  // Completion order. Behind an Applied create Execution there is a pod that first ran a
  // successful terraform apply; the version it marked already carried Planned and that
  // apply's logs, unless all four attempts at the earlier write conflicted.
  lemma CompletionOrder(r: Run, i: nat) returns (k: nat, j: nat)
    requires Inv(r) && r.kind.Create? && i < |r.hist| && r.hist[i].applied
    ensures k <= i && j < |r.log| && r.log[j].Ran? && r.log[j].ok
    ensures |r.writers| == |r.hist| && r.writers[k] == Pod(r.log[j].epoch, Applied(r.log[j].output))
    ensures r.hist[k].planned || Miss(r.log[j].epoch, Planned) in r.missed
    ensures r.hist[k].logs == r.log[j].output || Miss(r.log[j].epoch, Logs(r.log[j].output)) in r.missed
  {
    k := AppliedByPod(r, i);
    j := ActedBefore(r, k);
  }

  lemma ActedBefore(r: Run, k: nat) returns (j: nat)
    requires Inv(r) && k < |r.hist| == |r.writers| && r.writers[k].Pod? && r.writers[k].rec.Applied?
    ensures j < |r.log| && Concludes(r.kind, r.log[j], r.writers[k].epoch, r.writers[k].rec.output)
    ensures PlanRecorded(r, r.hist[k], r.writers[k].epoch)
    ensures LogsRecorded(r, r.hist[k], r.writers[k].epoch, r.writers[k].rec.output)
  {
    hide Objects, Position, History;
    assert RecordOk(r, r.writers[k].rec, r.hist[k], r.writers[k].epoch);
    j :| 0 <= j < |r.log| && Concludes(r.kind, r.log[j], r.writers[k].epoch, r.writers[k].rec.output);
  }

  // An Applied destroy Execution means terraform destroy succeeded, or a user said no to it.
  lemma AppliedDestroy(r: Run, i: nat) returns (j: nat)
    requires Inv(r) && r.kind.Destroy? && i < |r.hist| && r.hist[i].applied
    ensures j < |r.log|
    ensures match r.log[j]
            case Ran(_, auth, ok, _) => ok && AuthOk(r, auth)
            case Declined(_, v) => v < |r.hist| && r.hist[v].approved.Some? && Lower(r.hist[v].approved.value) == "no"
  {
    var k := AppliedByPod(r, i);
    j := ActedBefore(r, k);
    assert EventOk(r, r.log[j]) by { hide Objects, Position, History, RecordOk; }
  }

  // A Job can only exist beside everything its pods read.
  lemma JobHasItsInputs(r: Run)
    requires Inv(r) && r.job.Some?
    ensures r.Current().spec.secretName == "s-" + r.name
    ensures r.secret.Some? && r.secret.value.vars == r.vars
    ensures r.account.Present? && r.binding.Present? && r.job.value.kind == r.kind
  {
    hide Past, Position;
  }

  // Rounds of setting one owner reference, some of which conflict and do nothing.
  function AdoptRounds(r: Run, target: Target, oks: seq<bool>): (r': Run)
    requires r.hist != []
    ensures r'.hist != []
  {
    if oks == [] then r
    else
      var before := AdoptRounds(r, target, oks[..|oks| - 1]);
      if oks[|oks| - 1] then Step(before, Adopt(target)) else before
  }

  // The Execution is the object's owner.
  predicate Owns(r: Run, target: Target) {
    match target
    case Account => r.account == Present(true)
    case Binding => r.binding == Present(true)
    case Secret => r.secret.Some? && r.secret.value.owned
  }

  predicate Exists(r: Run, target: Target) {
    match target
    case Account => r.account.Present?
    case Binding => r.binding.Present?
    case Secret => r.secret.Some?
  }

  // A round that works makes the Execution the owner of that object, if it is there, and
  // changes nothing else: neither what the Secret holds nor who owns the others.
  lemma AdoptedIsOwned(r: Run, target: Target, other: Target)
    requires r.hist != []
    ensures var r' := Step(r, Adopt(target));
            && Owns(r', target) == Exists(r, target)
            && (other != target ==> Owns(r', other) == Owns(r, other))
            && Exists(r', other) == Exists(r, other)
            && (r.secret.Some? ==> r'.secret.value.vars == r.secret.value.vars)
            && r' == r.(account := r'.account, binding := r'.binding, secret := r'.secret)
  {
    hide GoStep;
  }

  // tryUpdate goes on after a success. However many of its rounds set the owner reference,
  // the store ends up as after one of them,
  lemma {:induction false} AdoptingAgain(r: Run, target: Target, oks: seq<bool>)
    requires r.hist != []
    ensures AdoptRounds(r, target, oks) == if true in oks then Step(r, Adopt(target)) else r
  {
    hide GoStep;
    if oks == [] {
    } else {
      var front := oks[..|oks| - 1];
      AdoptingAgain(r, target, front);
      assert oks == front + [oks[|oks| - 1]];
    }
  }

  // and neither does a further round of the runner's once one has won, if nobody
  // interferes: it reads the record back and stores the object it found.
  lemma RoundAfterSuccess(r: Run)
    requires Inv(r) && r.hist != [] && r.pc.Getting? && r.pc.won && !r.deleted
    ensures var r' := Step(Step(r, Go(true, "")), Go(true, ""));
            r'.hist == r.hist && r'.writers == r.writers && r'.log == r.log && r'.missed == r.missed
  {
    hide Past, Objects, RecordOk, Amend, Acted;
    var r1 := Step(r, Go(true, ""));
    assert r1 == r.(pc := Putting(r.pc.rec, r.pc.attempt, true, r.pc.seen, r.Top(), Amend(r.Current(), r.pc.rec)));
    assert Amend(r.Current(), r.pc.rec) == r.Current();
  }
}
