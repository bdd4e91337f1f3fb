// waitForApproval of pkg/executor/runner/runner.go: a watch that is reopened whenever it
// closes or delivers something that is not an Execution.
module Approval {
  import opened Basics

  datatype Event = Seen(name: string, approved: Option<string>) | Garbage

  // One watch: it could not be opened, or it delivered these events and then closed.
  datatype Session = Unopened | Opened(events: seq<Event>)

  datatype Outcome = Answer(text: string) | WatchFailed | StillWaiting

  predicate Answers(e: Event, name: string) {
    e.Seen? && e.name == name && e.approved.Some? && !Blank(e.approved.value)
  }

  // What reaches the reader of one session: nothing after an event it cannot read.
  function Readable(events: seq<Event>): (r: seq<Event>)
    ensures r <= events && Garbage !in r
    ensures r != events ==> events[|r|] == Garbage
  {
    if events == [] || events[0].Garbage? then [] else [events[0]] + Readable(events[1..])
  }

  // Everything read over all sessions, up to one that cannot be opened.
  function Delivered(sessions: seq<Session>): seq<Event> {
    if sessions == [] || sessions[0].Unopened? then []
    else Readable(sessions[0].events) + Delivered(sessions[1..])
  }

  predicate Broken(sessions: seq<Session>) {
    exists i :: 0 <= i < |sessions| && sessions[i].Unopened?
  }

  // The simple search: the first answering event of a list.
  function FirstAnswer(events: seq<Event>, name: string): (r: Option<string>)
    ensures r.None? <==> forall i :: 0 <= i < |events| ==> !Answers(events[i], name)
    ensures r.Some? ==> exists i ::
              && 0 <= i < |events| && Answers(events[i], name) && events[i].approved.value == r.value
              && forall j :: 0 <= j < i ==> !Answers(events[j], name)
  {
    if events == [] then None
    else if Answers(events[0], name) then Some(events[0].approved.value)
    else
      var r := FirstAnswer(events[1..], name);
      assert r.Some? ==> exists i ::
        && 0 <= i < |events| && Answers(events[i], name) && events[i].approved.value == r.value
        && forall j :: 0 <= j < i ==> !Answers(events[j], name)
      by {
        if r.Some? {
          var k :| 0 <= k < |events[1..]| && Answers(events[1..][k], name) && events[1..][k].approved.value == r.value
                   && forall j :: 0 <= j < k ==> !Answers(events[1..][j], name);
          assert events[k + 1] == events[1..][k];
          assert forall j :: 0 <= j < k + 1 ==> !Answers(events[j], name) by {
            assert forall j :: 1 <= j < k + 1 ==> events[j] == events[1..][j - 1];
          }
        }
      }
      r
  }

  lemma {:induction false} FirstAnswerAppend(a: seq<Event>, b: seq<Event>, name: string)
    ensures FirstAnswer(a + b, name) == if FirstAnswer(a, name).Some? then FirstAnswer(a, name) else FirstAnswer(b, name)
  {
    hide Answers;
    if a == [] {
      assert a + b == b;
    } else {
      var ab := a + b;
      FirstAnswerAppend(a[1..], b, name);
      assert ab[0] == a[0] && ab[1..] == a[1..] + b;
    }
  }

  // ---- The same in terms of sessions and events.

  // Everything before this event was an Execution, in watches that could all be opened.
  predicate Reached(sessions: seq<Session>, i: int, j: int) {
    && 0 <= i < |sessions| && (forall k :: 0 <= k <= i ==> sessions[k].Opened?)
    && 0 <= j < |sessions[i].events| && Garbage !in sessions[i].events[..j + 1]
  }

  predicate Says(sessions: seq<Session>, i: int, j: int, name: string, text: string)
    requires Reached(sessions, i, j)
  {
    sessions[i].events[j] == Seen(name, Some(text)) && Trim(text) != ""
  }

  ghost predicate NoneSaid(sessions: seq<Session>, name: string) {
    forall i, j, text :: Reached(sessions, i, j) ==> !Says(sessions, i, j, name, text)
  }

  ghost predicate FirstSaid(sessions: seq<Session>, i: int, j: int, name: string, text: string) {
    && Reached(sessions, i, j) && Says(sessions, i, j, name, text)
    && forall i', j', text' :: Reached(sessions, i', j') && (i' < i || (i' == i && j' < j)) ==>
         !Says(sessions, i', j', name, text')
  }

  lemma ReadableIsReached(sessions: seq<Session>, j: int)
    requires sessions != [] && sessions[0].Opened?
    ensures Reached(sessions, 0, j) <==> 0 <= j < |Readable(sessions[0].events)|
    ensures 0 <= j < |Readable(sessions[0].events)| ==> Readable(sessions[0].events)[j] == sessions[0].events[j]
  {
    var es, r := sessions[0].events, Readable(sessions[0].events);
    if 0 <= j < |r| {
      assert es[..j + 1] == r[..j + 1];
    } else if 0 <= j < |es| {
      assert es[..j + 1][|r|] == Garbage;
    }
  }

  lemma AnswersSay(sessions: seq<Session>, i: int, j: int, name: string)
    requires Reached(sessions, i, j)
    ensures forall text :: Says(sessions, i, j, name, text) ==> Answers(sessions[i].events[j], name)
    ensures Answers(sessions[i].events[j], name) ==> Says(sessions, i, j, name, sessions[i].events[j].approved.value)
  {
    hide Blank, Trim;
    var e := sessions[i].events[j];
    if e.Seen? && e.approved.Some? { BlankIsTrimmed(e.approved.value); }
  }

  lemma LaterSession(sessions: seq<Session>, i: int, j: int)
    requires sessions != [] && sessions[0].Opened? && i > 0
    ensures Reached(sessions, i, j) <==> Reached(sessions[1..], i - 1, j)
    ensures Reached(sessions, i, j) ==>
              forall name, text :: Says(sessions, i, j, name, text) <==> Says(sessions[1..], i - 1, j, name, text)
  {
    var rest := sessions[1..];
    assert forall k :: 0 <= k < |rest| ==> rest[k] == sessions[k + 1];
    if Reached(rest, i - 1, j) {
      forall k | 0 <= k <= i ensures sessions[k].Opened? {
        if k > 0 { assert rest[k - 1].Opened?; }
      }
    }
  }

  ghost predicate SaidFirst(sessions: seq<Session>, name: string, text: string) {
    exists i, j :: FirstSaid(sessions, i, j, name, text)
  }

  // The first answer delivered is the first said, and if none is nobody has said anything.
  lemma {:induction false} FirstReached(sessions: seq<Session>, name: string)
    ensures match FirstAnswer(Delivered(sessions), name)
            case Some(text) => SaidFirst(sessions, name, text)
            case None => NoneSaid(sessions, name)
  {
    hide Answers, SaidFirst, NoneSaid, FirstAnswer;
    if sessions == [] || sessions[0].Unopened? {
      NothingReached(sessions, name);
      assert Delivered(sessions) == [];
    } else {
      var here, rest := Readable(sessions[0].events), sessions[1..];
      FirstAnswerAppend(here, Delivered(rest), name);
      FirstReached(rest, name);
      if FirstAnswer(here, name).Some? {
        SaidHere(sessions, name, FirstAnswer(here, name).value);
      } else {
        NoneSaidLater(sessions, name);
        if FirstAnswer(Delivered(rest), name).Some? {
          SaidLater(sessions, name, FirstAnswer(Delivered(rest), name).value);
        }
      }
    }
  }

  lemma NothingReached(sessions: seq<Session>, name: string)
    requires sessions == [] || sessions[0].Unopened?
    ensures NoneSaid(sessions, name) && FirstAnswer([], name).None?
  {
    hide Says;
  }

  lemma SaidHere(sessions: seq<Session>, name: string, text: string)
    requires sessions != [] && sessions[0].Opened? && FirstAnswer(Readable(sessions[0].events), name) == Some(text)
    ensures SaidFirst(sessions, name, text)
  {
    hide Answers, Says, Reached, FirstAnswer;
    var here := Readable(sessions[0].events);
    var j := FirstIndex(here, name);
    ReadableIsReached(sessions, j);
    AnswersSay(sessions, 0, j, name);
    forall i', j', text': string | Reached(sessions, i', j') && (i' < 0 || (i' == 0 && j' < j))
      ensures !Says(sessions, i', j', name, text')
    {
      Indices(sessions, i', j');
      ReadableIsReached(sessions, j');
      AnswersSay(sessions, 0, j', name);
      assert !Answers(here[j'], name);
    }
    assert here[j] == sessions[0].events[j] && Says(sessions, 0, j, name, text);
    assert FirstSaid(sessions, 0, j, name, text);
  }

  lemma FirstIndex(events: seq<Event>, name: string) returns (j: nat)
    requires FirstAnswer(events, name).Some?
    ensures j < |events| && events[j].Seen? && Answers(events[j], name)
    ensures events[j].approved == FirstAnswer(events, name) && forall k :: 0 <= k < j ==> !Answers(events[k], name)
  {
    var r := FirstAnswer(events, name);
    j :| 0 <= j < |events| && Answers(events[j], name) && events[j].approved.value == r.value
         && forall k :: 0 <= k < j ==> !Answers(events[k], name);
  }

  lemma Indices(sessions: seq<Session>, i: int, j: int)
    requires Reached(sessions, i, j)
    ensures 0 <= i < |sessions| && 0 <= j < |sessions[i].events|
  {
  }

  lemma NotHere(sessions: seq<Session>, name: string, j: int, text: string)
    requires sessions != [] && sessions[0].Opened? && FirstAnswer(Readable(sessions[0].events), name).None?
    requires Reached(sessions, 0, j)
    ensures !Says(sessions, 0, j, name, text)
  {
    hide Answers, Says, Reached;
    ReadableIsReached(sessions, j);
    AnswersSay(sessions, 0, j, name);
  }

  lemma NoneSaidLater(sessions: seq<Session>, name: string)
    requires sessions != [] && sessions[0].Opened? && FirstAnswer(Readable(sessions[0].events), name).None?
    ensures NoneSaid(sessions[1..], name) ==> NoneSaid(sessions, name)
  {
    hide Answers, Says, Reached, FirstAnswer;
    if NoneSaid(sessions[1..], name) {
      forall i, j, text | Reached(sessions, i, j) ensures !Says(sessions, i, j, name, text) {
        Indices(sessions, i, j);
        if i == 0 { NotHere(sessions, name, j, text); } else { LaterSession(sessions, i, j); }
      }
    }
  }

  lemma SaidLater(sessions: seq<Session>, name: string, text: string)
    requires sessions != [] && sessions[0].Opened? && FirstAnswer(Readable(sessions[0].events), name).None?
    requires SaidFirst(sessions[1..], name, text)
    ensures SaidFirst(sessions, name, text)
  {
    hide Answers, Says, Reached, FirstAnswer;
    var rest := sessions[1..];
    var i, j :| FirstSaid(rest, i, j, name, text);
    Indices(rest, i, j);
    LaterSession(sessions, i + 1, j);
    forall i', j', text' | Reached(sessions, i', j') && (i' < i + 1 || (i' == i + 1 && j' < j))
      ensures !Says(sessions, i', j', name, text')
    {
      Indices(sessions, i', j');
      if i' == 0 { NotHere(sessions, name, j', text'); } else { LaterSession(sessions, i', j'); }
    }
    assert FirstSaid(sessions, i + 1, j, name, text);
  }

  // The recursive loop finds what the simple search finds in everything delivered; with
  // nothing to find it fails when a watch cannot be opened and otherwise waits on.
  method WaitForApproval(name: string, sessions: seq<Session>) returns (r: Outcome)
    ensures match FirstAnswer(Delivered(sessions), name)
            case Some(text) => r == Answer(text)
            case None => r == if Broken(sessions) then WatchFailed else StillWaiting
    ensures r.Answer? ==> SaidFirst(sessions, name, r.text)
    ensures !r.Answer? ==> NoneSaid(sessions, name)
    ensures r.StillWaiting? ==> forall i :: 0 <= i < |sessions| ==> sessions[i].Opened?
    decreases |sessions|
  {
    FirstReached(sessions, name);
    if sessions == [] {
      return StillWaiting;
    }
    if sessions[0].Unopened? {
      return WatchFailed;
    }
    var approval := ReadSession(name, sessions[0].events);
    FirstAnswerAppend(Readable(sessions[0].events), Delivered(sessions[1..]), name);
    BrokenTail(sessions);
    if approval.Some? {
      return Answer(approval.value);
    }
    r := WaitForApproval(name, sessions[1..]);
  }

  // The loop over one watch's events, up to an answer, the close, or something unreadable.
  method ReadSession(name: string, events: seq<Event>) returns (r: Option<string>)
    ensures r == FirstAnswer(Readable(events), name)
  {
    ghost var read := Readable(events);
    var i := 0;
    while i < |events|
      invariant 0 <= i <= |read|
      invariant forall j :: 0 <= j < i ==> !Answers(read[j], name)
    {
      var event := events[i];
      if event.Garbage? {
        assert i == |read|;
        return None;
      }
      assert i < |read| && read[i] == event;
      if event.name != name {
        i := i + 1;
        continue;
      }
      if event.approved.None? || Blank(event.approved.value) {
        i := i + 1;
        continue;
      }
      FirstIs(read, name, i);
      return Some(event.approved.value);
    }
    assert i == |read|;
    r := None;
  }

  lemma FirstIs(events: seq<Event>, name: string, i: nat)
    requires i < |events| && Answers(events[i], name) && forall j :: 0 <= j < i ==> !Answers(events[j], name)
    ensures FirstAnswer(events, name) == Some(events[i].approved.value)
  {
    var r := FirstAnswer(events, name);
    assert r.Some?;
    var k :| 0 <= k < |events| && Answers(events[k], name) && events[k].approved.value == r.value
             && forall j :: 0 <= j < k ==> !Answers(events[j], name);
    assert k == i;
  }

  lemma BrokenTail(sessions: seq<Session>)
    requires sessions != [] && sessions[0].Opened?
    ensures Broken(sessions) <==> Broken(sessions[1..])
  {
    if Broken(sessions) {
      var i :| 0 <= i < |sessions| && sessions[i].Unopened?;
      assert sessions[1..][i - 1].Unopened?;
    }
  }
}
