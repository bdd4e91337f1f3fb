// tryUpdate, as pkg/terraform/state/deploy.go and pkg/executor/runner/runner.go have it:
// four calls, a doubling pause after each retryable failure, and no early exit on success.
module Retry {
  import opened Basics

  datatype Answer = Fine | Conflict | NotFound | Other

  // The controller retries not-found as well; the executor does not.
  predicate Retryable(a: Answer, notFoundToo: bool) {
    a.Conflict? || (a.NotFound? && notFoundToo)
  }

  predicate Fatal(a: Answer, notFoundToo: bool) {
    !a.Fine? && !Retryable(a, notFoundToo)
  }

  function Failures(answers: seq<Answer>, notFoundToo: bool): nat {
    if answers == [] then 0
    else Failures(answers[..|answers| - 1], notFoundToo)
         + (if Retryable(answers[|answers| - 1], notFoundToo) then 1 else 0)
  }

  function Pow2(k: nat): nat {
    if k == 0 then 1 else 2 * Pow2(k - 1)
  }

  // `answers` are the results f would give to successive calls.
  method TryUpdate(answers: seq<Answer>, notFoundToo: bool) returns (err: Option<Answer>, calls: nat, slept: nat)
    requires |answers| >= 4
    ensures calls <= 4
    ensures err.None? <==> calls == 4 && forall i :: 0 <= i < 4 ==>
              answers[i] == Fine || answers[i] == Conflict || (answers[i] == NotFound && notFoundToo)
    ensures err.None? ==> (Fine !in answers[..4] <==> Failures(answers[..4], notFoundToo) == 4)
    ensures err.Some? ==> calls > 0 && err.value == answers[calls - 1] && Fatal(err.value, notFoundToo)
    ensures forall i :: 0 <= i < calls - 1 ==> !Fatal(answers[i], notFoundToo)
    ensures slept == 100 * (Pow2(Failures(answers[..calls], notFoundToo)) - 1)
    ensures slept <= 1500
  {
    var timeout := 100;
    slept := 0;
    calls := 0;
    for i := 0 to 4
      invariant calls == i
      invariant forall j :: 0 <= j < i ==> !Fatal(answers[j], notFoundToo)
      invariant timeout == 100 * Pow2(Failures(answers[..i], notFoundToo))
      invariant slept == timeout - 100
      invariant timeout <= 100 * Pow2(i)
    {
      var a := answers[i];
      calls := calls + 1;
      assert answers[..i + 1][..i] == answers[..i];
      if !a.Fine? {
        if Retryable(a, notFoundToo) {
          slept := slept + timeout;
          timeout := timeout * 2;
          continue;
        }
        return Some(a), calls, slept;
      }
    }
    assert Pow2(4) == 16;
    AllFailed(answers[..4], notFoundToo);
    err := None;
  }

  // Where nothing is fatal, every call failed exactly if none was fine.
  lemma {:induction false} AllFailed(answers: seq<Answer>, notFoundToo: bool)
    requires forall i :: 0 <= i < |answers| ==> !Fatal(answers[i], notFoundToo)
    ensures Failures(answers, notFoundToo) <= |answers|
    ensures Failures(answers, notFoundToo) == |answers| <==> Fine !in answers
  {
    if answers == [] {
    } else {
      var front := answers[..|answers| - 1];
      AllFailed(front, notFoundToo);
      assert answers == front + [answers[|answers| - 1]];
    }
  }

  // nil is not success: it is also what four conflicts come to.
  method NilIsNotSuccess(answers: seq<Answer>) returns (err: Option<Answer>, calls: nat, slept: nat)
    requires |answers| == 4 && forall i :: 0 <= i < 4 ==> answers[i].Conflict?
    ensures err == None && calls == 4 && slept == 1500
  {
    err, calls, slept := TryUpdate(answers, false);
    assert answers[..4] == answers;
    assert Pow2(4) == 16;
  }
}
