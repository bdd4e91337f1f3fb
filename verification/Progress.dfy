// A pod that is left alone gets there: a run whose Job is in place and that may go ahead
// is Applied after finitely many steps of its pod, all of which succeed.
module Progress {
  import opened Basics
  import opened Executor

  // A user's answer that settles the matter: yes, or no to a destroy.
  predicate Answers(kind: Kind, e: Execution) {
    e.approved.Some? && (Lower(e.approved.value) == "yes" || (kind.Destroy? && Lower(e.approved.value) == "no"))
  }

  predicate Settled(kind: Kind, e: Execution) {
    e.spec.autoConfirm || Answers(kind, e)
  }

  predicate SettledAt(r: Run, v: nat) {
    v < |r.hist| && Settled(r.kind, r.hist[v])
  }

  // Nobody is in the way of this pod.
  ghost predicate Clear(r: Run) {
    && Inv(r) && r.hist != [] && !r.deleted && r.job.Some? && SettledAt(r, r.Top()) && PcClear(r)
  }

  predicate PcClear(r: Run)
    requires r.hist != []
  {
    match r.pc
    case Booted(seen) => seen == r.Top()
    case Getting(rec, _, _, seen) => OnTheWay(r, rec, seen)
    case Putting(rec, _, _, seen, base, _) => OnTheWay(r, rec, seen) && base == r.Top()
    case Deciding(seen) => SettledAt(r, seen)
    case Waiting => Answers(r.kind, r.Current())
    case Answered(v) => v < |r.hist| && Answers(r.kind, r.hist[v])
    case Authorised(_) => true
    case _ => false
  }

  predicate OnTheWay(r: Run, rec: Record, seen: nat) {
    !rec.Outputs? && (rec.Planned? ==> SettledAt(r, seen))
  }

  function Left(pc: Pc): nat {
    match pc
    case Booted(_) => 42
    case Getting(rec, attempt, _, _) => Block(rec) + if attempt < 4 then 8 - 2 * attempt else 1
    case Putting(rec, attempt, _, _, _, _) => Block(rec) + if attempt < 4 then 7 - 2 * attempt else 0
    case Deciding(_) => 32
    case Waiting => 31
    case Answered(_) => 30
    case Authorised(_) => 29
    case _ => 0
  }

  function Block(rec: Record): nat {
    match rec
    case Planned => 33
    case Logs(_) => 20
    case Applied(_) => 11
    case Outputs(_) => 0
  }

  const GOOD := Go(true, "")

  // What the pod does next; one that waits is shown the latest version.
  function Next(r: Run): Action
    requires r.hist != []
  {
    if r.pc.Waiting? then Observe(r.Top()) else GOOD
  }

  // Everything that Clear reads, apart from the invariant.
  predicate Moved(r: Run, r': Run) {
    && r'.hist != [] && r'.kind == r.kind && r'.job == r.job && !r'.deleted
    && (r'.Current().applied || (SettledAt(r', r'.Top()) && PcClear(r') && Left(r'.pc) < Left(r.pc)))
  }

  lemma GoodGo(r: Run)
    requires Clear(r) && !r.Current().applied
    ensures var r' := Step(r, Next(r));
            && r'.hist != [] && r'.kind == r.kind && !r'.deleted
            && (r'.Current().applied || (Clear(r') && Left(r'.pc) < Left(r.pc)))
  {
    hide GoStep, Inv, Settled, Answers, Left;
    StepKeepsInv(r, Next(r));
    match r.pc
    case Getting(_, _, _, _) => GoodGet(r);
    case Putting(_, _, _, _, _, _) => GoodPut(r);
    case Waiting => GoodLook(r);
    case _ => GoodLocal(r);
  }

  lemma GoodGet(r: Run)
    requires r.hist != [] && r.pc.Getting? && !r.deleted && SettledAt(r, r.Top()) && PcClear(r)
    ensures Moved(r, GoStep(r, true, ""))
  {
    hide Settled, Amend;
  }

  lemma GoodPut(r: Run)
    requires Clear(r) && r.pc.Putting?
    ensures Moved(r, GoStep(r, true, ""))
  {
    hide Past, Objects, Acted, Settled;
    AmendKeepsAnswer(r.kind, r.hist[r.pc.base], r.pc.rec);
  }

  lemma AmendKeepsAnswer(kind: Kind, e: Execution, rec: Record)
    ensures Settled(kind, Amend(e, rec)) == Settled(kind, e)
  {
    hide Lower;
  }

  lemma GoodLook(r: Run)
    requires r.hist != [] && r.pc.Waiting? && !r.deleted && SettledAt(r, r.Top()) && PcClear(r)
    ensures Moved(r, Step(r, Observe(r.Top())))
  {
    hide Lower, GoStep;
    AnswersAreNotBlank(r.kind, r.Current());
  }

  lemma AnswersAreNotBlank(kind: Kind, e: Execution)
    requires Answers(kind, e)
    ensures !Blank(e.approved.value)
  {
    assert e.approved.value[0] in e.approved.value;
  }

  lemma GoodLocal(r: Run)
    requires Clear(r) && !r.pc.Getting? && !r.pc.Putting? && !r.pc.Waiting?
    ensures Moved(r, GoStep(r, true, ""))
  {
    hide Past, Acted, Lower, Write, NextAttempt;
  }

  // What pods do when their calls and commands work.
  predicate PodActions(actions: seq<Action>) {
    forall i :: 0 <= i < |actions| ==> actions[i].Boot? || (actions[i].Go? && actions[i].ok) || actions[i].Observe?
  }

  lemma {:induction false} PodFinishes(r: Run) returns (actions: seq<Action>)
    requires Clear(r)
    ensures PodActions(actions) && r.hist != []
    ensures var r' := Steps(r, actions); r'.hist != [] && !r'.deleted && r'.Current().applied
    decreases Left(r.pc)
  {
    hide Step, Inv, Left;
    if r.Current().applied {
      actions := [];
    } else {
      GoodGo(r);
      var r' := Step(r, Next(r));
      if r'.Current().applied {
        actions := [Next(r)];
        assert actions[1..] == [];
      } else {
        var rest := PodFinishes(r');
        actions := [Next(r)] + rest;
        assert actions[1..] == rest;
      }
    }
  }

  // From the Job to Applied, or from the answer a pod has been waiting for.
  lemma RunFinishes(r: Run) returns (actions: seq<Action>)
    requires Inv(r) && r.hist != [] && !r.deleted && r.job.Some?
    requires (r.pc == Down && Settled(r.kind, r.Current())) || (r.pc == Waiting && Answers(r.kind, r.Current()))
    ensures PodActions(actions)
    ensures var r' := Steps(r, actions); r'.hist != [] && !r'.deleted && r'.Current().applied
  {
    hide GoStep, Inv, Answers;
    if r.pc == Waiting {
      actions := PodFinishes(r);
    } else {
      StepKeepsInv(r, Boot);
      var rest := PodFinishes(Step(r, Boot));
      actions := [Boot] + rest;
      assert actions[1..] == rest;
    }
  }
}
