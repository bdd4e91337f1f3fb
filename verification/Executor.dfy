// One Execution and everything named after it: the objects the controller deploys
// around it, the executor pods that work on it (pkg/executor/main.go and
// pkg/executor/runner/runner.go), and the users who approve or deny it
// (pkg/cli/cmds/executions.go). Every action is one API call or one terraform command,
// so other actions may fall between any two steps of a pod.
module Executor {
  import opened Basics
  import opened Versioned
  import M = ModuleController

  datatype ExecutionSpec = ExecutionSpec(
    stateName: string, autoConfirm: bool, content: M.Content, contentHash: string,
    runHash: string, version: int, secretName: string)

  datatype Execution = Execution(
    spec: ExecutionSpec, approved: Option<string>, planned: bool, applied: bool, logs: string, outputs: string)

  // What one tryUpdate block of the runner writes. Applied carries the output it follows.
  datatype Record = Planned | Logs(text: string) | Applied(output: string) | Outputs(text: string)

  // The record, as a reader of the Execution finds it.
  predicate Carries(e: Execution, rec: Record) {
    match rec
    case Planned => e.planned
    case Logs(text) => e.logs == text
    case Applied(_) => e.applied
    case Outputs(text) => e.outputs == text
  }

  function Amend(e: Execution, rec: Record): (e': Execution)
    ensures Carries(e', rec)
    ensures Carries(e, rec) ==> e' == e
  {
    match rec
    case Planned => e.(planned := true)
    case Logs(text) => e.(logs := text)
    case Applied(_) => e.(applied := true)
    case Outputs(text) => e.(outputs := text)
  }

  datatype Writer = Creator | Namer | Pod(epoch: nat, rec: Record) | User

  // The one field a writer may touch.
  predicate OwnField(w: Writer, before: Execution, after: Execution) {
    match w
    case Creator => false
    case Namer => after == before.(spec := before.spec.(secretName := after.spec.secretName))
    case Pod(_, rec) => after == Amend(before, rec)
    case User => after == before.(approved := after.approved)
  }

  // Why a pod went ahead: AutoConfirm, or an approval read off a version of its Execution.
  datatype Auth = Auto | Saw(version: nat)

  datatype Event =
    | Ran(epoch: nat, auth: Auth, ok: bool, output: string)   // terraform apply or destroy
    | Declined(epoch: nat, version: nat)                      // a destroy answered with 'no'

  const DECLINED := "Annotation 'approved' set to 'no', no changes applied. Exiting job."
  const ATTEMPTS := 4

  datatype Pc =
    | Down
    | Booted(seen: nat)
    | Getting(rec: Record, attempt: nat, won: bool, seen: nat)
    | Putting(rec: Record, attempt: nat, won: bool, seen: nat, base: nat, obj: Execution)
    | Deciding(seen: nat)
    | Waiting
    | Answered(version: nat)
    | Authorised(auth: Auth)
    | FetchingOutputs
    | DeletingJob

  datatype Owned = Missing | Present(owned: bool)
  datatype VarSecret = VarSecret(vars: Data, owned: bool)
  datatype Job = Job(image: string, env: seq<Data>, kind: Kind)
  datatype Miss = Miss(epoch: nat, rec: Record)

  // kind and vars are what the deploying handler had in hand; made is the Job it made, for
  // good; log, missed and userDeleted are history.
  datatype Run = Run(
    name: string, kind: Kind, vars: Data,
    hist: seq<Execution>, writers: seq<Writer>, deleted: bool, userDeleted: bool,
    secret: Option<VarSecret>, account: Owned, binding: Owned, job: Option<Job>, made: Option<Job>,
    pc: Pc, epoch: nat, action: Kind, log: seq<Event>, missed: set<Miss>)
  {
    function Top(): nat
      requires hist != []
    {
      |hist| - 1
    }

    function Current(): Execution
      requires hist != []
    {
      hist[|hist| - 1]
    }

    function SecretName(): string {
      "s-" + name
    }
  }

  datatype Target = Account | Binding | Secret

  datatype Action =
    // the deploying controller
    | NameSecret | MakeSecret | MakeAccount | MakeBinding | MakeJob(job: Job) | Adopt(target: Target)
    // the job controller and the pod
    | Boot | Go(ok: bool, text: string) | Observe(version: nat) | Crash
    // users and the garbage collector
    | Annotate(base: nat, value: Option<string>) | Delete | Collect | CollectAll

  function NewRun(name: string, kind: Kind, vars: Data, spec: ExecutionSpec): Run {
    Run(name, kind, vars, [Execution(spec.(secretName := ""), Some(""), false, false, "", "")], [Creator], false, false,
        None, Missing, Missing, None, None, Down, 0, kind, [], {})
  }

  // A compare-and-swap on the Execution, signed by its writer.
  function Write(r: Run, w: Writer, base: nat, obj: Execution): (r': Run)
    requires r.hist != []
    ensures r.hist <= r'.hist
    ensures base != r.Top() ==> r' == r
    ensures r' == r.(hist := r'.hist, writers := r'.writers)
  {
    var hist := Cas(r.hist, base, obj);
    r.(hist := hist, writers := if |hist| > |r.hist| then r.writers + [w] else r.writers)
  }

  function Step(r: Run, a: Action): (r': Run)
    requires r.hist != []
    ensures r.hist <= r'.hist
    ensures r'.name == r.name && r'.kind == r.kind && r'.vars == r.vars
    ensures r.deleted ==> r'.deleted
    ensures if a.MakeJob? && r.made.None? then r'.made == Some(a.job) else r'.made == r.made
  {
    hide GoStep, Write, Adopted;
    match a
    case NameSecret =>
      if r.deleted then r
      else Write(r, Namer, 0, r.hist[0].(spec := r.hist[0].spec.(secretName := r.SecretName())))
    case MakeSecret => if r.secret.Some? then r else r.(secret := Some(VarSecret(r.vars, false)))
    case MakeAccount => if r.account.Present? then r else r.(account := Present(false))
    case MakeBinding => if r.binding.Present? then r else r.(binding := Present(false))
    case MakeJob(job) => if r.made.Some? then r else r.(job := Some(job), made := Some(job))
    case Adopt(target) => Adopted(r, target)
    case Boot =>
      if r.job.None? || r.deleted || r.pc != Down then r
      else r.(pc := Booted(r.Top()), epoch := r.epoch + 1, action := r.job.value.kind)
    case Go(ok, text) => GoStep(r, ok, text)
    case Observe(v) =>
      if r.pc.Waiting? && v < |r.hist| && r.hist[v].approved.Some? && !Blank(r.hist[v].approved.value)
      then r.(pc := Answered(v)) else r
    case Crash => r.(pc := Down)
    case Annotate(base, value) =>
      if r.deleted || base >= |r.hist| then r else Write(r, User, base, r.hist[base].(approved := value))
    case Delete => r.(deleted := true, userDeleted := true)
    case Collect =>
      if r.made.None? || r.job.Some? then r
      else r.(secret := if r.secret.Some? && r.secret.value.owned then None else r.secret,
              account := if r.account == Present(true) then Missing else r.account)
    case CollectAll => r.(deleted := true, job := None)
  }

  function Adopted(r: Run, target: Target): (r': Run)
    ensures r' == r.(secret := r'.secret, account := r'.account, binding := r'.binding)
  {
    match target
    case Account => if r.account.Present? then r.(account := Present(true)) else r
    case Binding => if r.binding.Present? then r.(binding := Present(true)) else r
    case Secret => if r.secret.Some? then r.(secret := Some(r.secret.value.(owned := true))) else r
  }

  // The pod's next step; `ok` says whether the call or command worked, `text` is its output.
  function GoStep(r: Run, ok: bool, text: string): (r': Run)
    requires r.hist != []
    ensures r.hist <= r'.hist
    ensures r' == r.(hist := r'.hist, writers := r'.writers, job := r'.job, pc := r'.pc, log := r'.log, missed := r'.missed)
  {
    hide NextAttempt, Write, Amend, Lower;
    match r.pc
    case Down => r
    case Booted(seen) =>
      // the variables secret, then clone, config, var file, init and plan
      if !ok || seen >= |r.hist| || r.secret.None? || r.hist[seen].spec.secretName != r.SecretName() then r.(pc := Down)
      else if r.action.Create? then r.(pc := Getting(Planned, 0, false, seen))
      else r.(pc := Deciding(seen))
    case Getting(rec, attempt, won, seen) =>
      if !ok || r.deleted then r.(pc := Down)
      else r.(pc := Putting(rec, attempt, won, seen, r.Top(), Amend(r.Current(), rec)))
    case Putting(rec, attempt, won, seen, base, obj) =>
      if !ok || r.deleted then r.(pc := Down)
      else if base != r.Top() then NextAttempt(r, rec, attempt, won, seen)
      else
        var r' := Write(r, Pod(r.epoch, rec), base, obj);
        NextAttempt(r', rec, attempt, true, r'.Top())
    case Deciding(seen) =>
      if seen >= |r.hist| then r.(pc := Down)
      else if r.hist[seen].spec.autoConfirm then r.(pc := Authorised(Auto))
      else if r.hist[seen].approved.None? || r.hist[seen].approved.value == "" then r.(pc := Waiting)
      else r.(pc := Answered(seen))
    case Waiting => if ok then r else r.(pc := Down)
    case Answered(v) =>
      if v >= |r.hist| || r.hist[v].approved.None? then r.(pc := Down)
      else
        var answer := Lower(r.hist[v].approved.value);
        if answer == "yes" then r.(pc := Authorised(Saw(v)))
        else if answer == "no" && r.action.Destroy? then
          r.(log := r.log + [Declined(r.epoch, v)], pc := Getting(Logs(DECLINED), 0, false, v))
        else r.(pc := Down)
    case Authorised(auth) =>
      r.(log := r.log + [Ran(r.epoch, auth, ok, text)],
         pc := if ok then Getting(Logs(text), 0, false, 0) else Down)
    case FetchingOutputs => if ok then r.(pc := Getting(Outputs(text), 0, false, 0)) else r.(pc := Down)
    case DeletingJob => if ok then r.(job := None, pc := Down) else r.(pc := Down)
  }

  // tryUpdate goes round four times whether or not it has already succeeded.
  function NextAttempt(r: Run, rec: Record, attempt: nat, won: bool, seen: nat): (r': Run)
    ensures r' == r.(pc := r'.pc, missed := r'.missed)
  {
    if attempt + 1 < ATTEMPTS then r.(pc := Getting(rec, attempt + 1, won, seen))
    else
      var r := if won then r else r.(missed := r.missed + {Miss(r.epoch, rec)});
      match rec
      case Planned => r.(pc := Deciding(seen))
      case Logs(output) => r.(pc := Getting(Applied(output), 0, false, seen))
      case Applied(_) => r.(pc := if r.action.Create? then FetchingOutputs else DeletingJob)
      case Outputs(_) => r.(pc := DeletingJob)
  }

  function Steps(r: Run, actions: seq<Action>): Run
    requires r.hist != []
    decreases |actions|
  {
    if actions == [] then r else Steps(Step(r, actions[0]), actions[1..])
  }

  // ---- The invariant.

  predicate SameSpec(e: Execution, f: Execution) {
    e.spec.(secretName := "") == f.spec.(secretName := "")
  }

  // Each version differs from the one it replaced only in its writer's own field.
  ghost predicate History(r: Run) {
    && |r.writers| == |r.hist| > 0
    && r.writers[0] == Creator
    && r.hist[0] == Execution(r.hist[0].spec, Some(""), false, false, "", "")
    && (forall i {:trigger r.writers[i]} :: 1 <= i < |r.hist| ==> OwnField(r.writers[i], r.hist[i - 1], r.hist[i]))
    && (forall i :: 0 <= i < |r.hist| ==> SameSpec(r.hist[i], r.hist[0]))
  }

  predicate Said(r: Run, v: nat, answer: string) {
    v < |r.hist| && r.hist[v].approved.Some? && Lower(r.hist[v].approved.value) == answer
  }

  predicate AuthOk(r: Run, auth: Auth) {
    match auth
    case Auto => r.hist != [] && r.hist[0].spec.autoConfirm
    case Saw(v) => Said(r, v, "yes")
  }

  predicate EventOk(r: Run, e: Event) {
    match e
    case Ran(_, auth, _, _) => AuthOk(r, auth)
    case Declined(_, v) => r.kind.Destroy? && Said(r, v, "no")
  }

  // In this epoch terraform succeeded with this output, or the destroy was declined.
  predicate Concludes(kind: Kind, e: Event, epoch: nat, output: string) {
    e.epoch == epoch &&
    match e
    case Ran(_, _, ok, out) => ok && out == output
    case Declined(_, _) => kind.Destroy? && output == DECLINED
  }

  ghost predicate Acted(r: Run, epoch: nat, output: string) {
    exists j :: 0 <= j < |r.log| && Concludes(r.kind, r.log[j], epoch, output)
  }

  ghost predicate PlanRecorded(r: Run, e: Execution, epoch: nat) {
    r.kind.Create? ==> e.planned || Miss(epoch, Planned) in r.missed
  }

  ghost predicate LogsRecorded(r: Run, e: Execution, epoch: nat, output: string) {
    e.logs == output || Miss(epoch, Logs(output)) in r.missed
  }

  // What must be true before a record is written.
  ghost predicate RecordOk(r: Run, rec: Record, e: Execution, epoch: nat) {
    match rec
    case Planned => r.kind.Create?
    case Logs(output) => PlanRecorded(r, e, epoch) && Acted(r, epoch, output)
    case Applied(output) =>
      PlanRecorded(r, e, epoch) && Acted(r, epoch, output) && LogsRecorded(r, e, epoch, output)
    case Outputs(_) => r.kind.Create?
  }

  ghost predicate PcOk(r: Run)
    requires r.hist != []
  {
    match r.pc
    case Down => true
    case Booted(seen) => seen < |r.hist|
    case Getting(rec, _, won, seen) =>
      seen < |r.hist| && RecordOk(r, rec, r.Current(), r.epoch) && (won ==> Amend(r.Current(), rec) == r.Current())
    case Putting(rec, _, won, seen, base, obj) =>
      && seen < |r.hist| && base < |r.hist| && obj == Amend(r.hist[base], rec)
      && RecordOk(r, rec, r.Current(), r.epoch) && (won ==> Amend(r.Current(), rec) == r.Current())
    case Deciding(seen) => seen < |r.hist| && PlanRecorded(r, r.Current(), r.epoch)
    case Waiting => PlanRecorded(r, r.Current(), r.epoch)
    case Answered(v) => v < |r.hist| && PlanRecorded(r, r.Current(), r.epoch)
    case Authorised(auth) => AuthOk(r, auth) && PlanRecorded(r, r.Current(), r.epoch)
    case FetchingOutputs => r.kind.Create?
    case DeletingJob => true
  }

  // Everything a pod relies on is in place.
  ghost predicate Ready(r: Run)
    requires r.hist != []
  {
    && r.Current().spec.secretName == r.SecretName()
    && r.secret.Some? && r.secret.value.vars == r.vars
    && r.account.Present? && r.binding.Present?
  }

  // What every stored version and every logged event answer for.
  ghost predicate Past(r: Run) {
    && History(r)
    && (forall j :: 0 <= j < |r.log| ==> EventOk(r, r.log[j]))
    && (forall i {:trigger r.writers[i]} :: 0 <= i < |r.hist| && r.writers[i].Pod? ==>
         RecordOk(r, r.writers[i].rec, r.hist[i], r.writers[i].epoch))
  }

  ghost predicate Objects(r: Run)
    requires r.hist != []
  {
    && (r.job.Some? ==> Ready(r) && r.job.value.kind == r.kind && r.job == r.made)
    && (r.secret.Some? ==> r.secret.value.vars == r.vars)
  }

  ghost predicate Position(r: Run)
    requires r.hist != []
  {
    (r.pc != Down ==> r.action == r.kind) && PcOk(r)
  }

  ghost predicate Inv(r: Run) {
    r.hist != [] && Past(r) && Objects(r) && Position(r)
  }

  // ---- Preservation.

  lemma HasHistory(r: Run)
    requires Inv(r)
    ensures r.hist != []
  {
  }

  // History facts survive growth of the history.
  ghost predicate Grows(r: Run, r': Run) {
    && r'.kind == r.kind && r.hist <= r'.hist && r.log <= r'.log && r.missed <= r'.missed
  }

  lemma ActedGrows(r: Run, r': Run)
    requires Grows(r, r')
    ensures forall epoch, out :: Acted(r, epoch, out) ==> Acted(r', epoch, out)
  {
    forall epoch, out | Acted(r, epoch, out) ensures Acted(r', epoch, out) {
      var j :| 0 <= j < |r.log| && Concludes(r.kind, r.log[j], epoch, out);
      assert r'.log[j] == r.log[j];
    }
  }

  lemma FactsGrow(r: Run, r': Run)
    requires Grows(r, r') && r.hist != []
    ensures forall e :: EventOk(r, e) ==> EventOk(r', e)
    ensures forall auth :: AuthOk(r, auth) ==> AuthOk(r', auth)
    ensures forall rec, e, epoch :: RecordOk(r, rec, e, epoch) ==> RecordOk(r', rec, e, epoch)
    ensures forall e, epoch :: PlanRecorded(r, e, epoch) ==> PlanRecorded(r', e, epoch)
    ensures forall epoch, out :: Acted(r, epoch, out) ==> Acted(r', epoch, out)
  {
    hide Acted, Lower;
    ActedGrows(r, r');
  }

  // A step that writes no version keeps the past.
  lemma PastKept(r: Run, r': Run)
    requires Past(r) && Grows(r, r') && r'.hist == r.hist && r'.writers == r.writers
    requires forall j :: |r.log| <= j < |r'.log| ==> EventOk(r', r'.log[j])
    ensures Past(r')
  {
    hide EventOk, RecordOk;
    FactsGrow(r, r');
  }

  // The version a write leaves on top keeps what the pods have recorded.
  lemma WriteTop(r: Run, w: Writer, base: nat, obj: Execution)
    requires r.hist != [] && base < |r.hist| && OwnField(w, r.hist[base], obj)
    ensures var e, e' := r.Current(), Write(r, w, base, obj).Current();
            && (e.planned ==> e'.planned)
            && (!(w.Pod? && w.rec.Logs?) ==> e'.logs == e.logs)
            && (base == r.Top() ==> e' == obj)
            && (base != r.Top() ==> e' == e)
            && (!w.Pod? ==> e' == e.(spec := e'.spec, approved := e'.approved))
  {
  }

  // A write by an author who respects its own field and its obligations keeps the past.
  lemma PastWritten(r: Run, w: Writer, base: nat, obj: Execution)
    requires Past(r) && base < |r.hist|
    requires OwnField(w, r.hist[base], obj)
    requires w.Pod? && base == r.Top() ==> RecordOk(r, w.rec, obj, w.epoch)
    ensures Past(Write(r, w, base, obj))
  {
    hide RecordOk, EventOk;
    var r' := Write(r, w, base, obj);
    FactsGrow(r, r');
    HistoryWritten(r, w, base, obj);
    forall i {:trigger r'.writers[i]} | 0 <= i < |r'.hist| && r'.writers[i].Pod?
      ensures RecordOk(r', r'.writers[i].rec, r'.hist[i], r'.writers[i].epoch)
    {
      if i < |r.hist| { assert r.writers[i] == r'.writers[i]; }
    }
  }

  lemma HistoryWritten(r: Run, w: Writer, base: nat, obj: Execution)
    requires History(r) && base < |r.hist| && OwnField(w, r.hist[base], obj)
    ensures History(Write(r, w, base, obj))
  {
    var r' := Write(r, w, base, obj);
    assert SameSpec(r.hist[base], r.hist[0]);
    forall i | 0 <= i < |r'.hist| ensures SameSpec(r'.hist[i], r'.hist[0]) {
      if i < |r.hist| { assert SameSpec(r.hist[i], r.hist[0]); }
    }
    forall i {:trigger r'.writers[i]} | 1 <= i < |r'.hist| ensures OwnField(r'.writers[i], r'.hist[i - 1], r'.hist[i]) {
      if i < |r.hist| { assert r.writers[i] == r'.writers[i]; }
    }
  }

  // Amending a version records what it says and disturbs no other obligation.
  lemma AmendKeepsRecord(r: Run, rec: Record)
    requires r.hist != [] && RecordOk(r, rec, r.Current(), r.epoch)
    ensures RecordOk(r, rec, Amend(r.Current(), rec), r.epoch)
    ensures Amend(Amend(r.Current(), rec), rec) == Amend(r.Current(), rec)
  {
    hide Acted;
  }

  lemma NextAttemptKeeps(r: Run, rec: Record, attempt: nat, won: bool, seen: nat)
    requires Past(r) && Objects(r) && r.action == r.kind && seen < |r.hist|
    requires RecordOk(r, rec, r.Current(), r.epoch) && (won ==> Amend(r.Current(), rec) == r.Current())
    ensures Inv(NextAttempt(r, rec, attempt, won, seen))
  {
    hide Acted, Past;
    var r' := NextAttempt(r, rec, attempt, won, seen);
    PastKept(r, r');
    AttemptPosition(r, rec, attempt, won, seen);
  }

  lemma AttemptPosition(r: Run, rec: Record, attempt: nat, won: bool, seen: nat)
    requires r.action == r.kind && seen < |r.hist|
    requires RecordOk(r, rec, r.Current(), r.epoch) && (won ==> Amend(r.Current(), rec) == r.Current())
    ensures Position(NextAttempt(r, rec, attempt, won, seen))
  {
    hide Lower, Acted, EventOk, AuthOk;
    FactsGrow(r, NextAttempt(r, rec, attempt, won, seen));
  }

  lemma PutKeeps(r: Run)
    requires Inv(r) && r.pc.Putting? && !r.deleted
    ensures Inv(GoStep(r, true, ""))
  {
    hide Acted, Past, RecordOk, Amend;
    var Putting(rec, attempt, won, seen, base, obj) := r.pc;
    if base != r.Top() {
      NextAttemptKeeps(r, rec, attempt, won, seen);
    } else {
      var w := Pod(r.epoch, rec);
      var r' := Write(r, w, base, obj);
      AmendKeepsRecord(r, rec);
      PastWritten(r, w, base, obj);
      WriteTop(r, w, base, obj);
      FactsGrow(r, r');
      assert Objects(r') by { hide Write; SpecKept(r, w, base, obj); }
      NextAttemptKeeps(r', rec, attempt, true, r'.Top());
    }
  }

  lemma SpecKept(r: Run, w: Writer, base: nat, obj: Execution)
    requires r.hist != [] && base < |r.hist| && OwnField(w, r.hist[base], obj)
    requires w.Namer? ==> obj.spec.secretName == r.SecretName()
    ensures var r' := Write(r, w, base, obj);
            && r'.Current().spec.secretName == (if w.Namer? && base == r.Top() then r.SecretName() else r.Current().spec.secretName)
            && r' == r.(hist := r'.hist, writers := r'.writers)
  {
  }

  // Terraform runs, with the authority the pod holds.
  lemma ActKeeps(r: Run, ok: bool, text: string)
    requires Inv(r) && r.pc.Authorised?
    ensures Inv(GoStep(r, ok, text))
  {
    hide History, Lower;
    var r' := GoStep(r, ok, text);
    assert EventOk(r', r'.log[|r.log|]);
    PastKept(r, r');
    FactsGrow(r, r');
    if ok {
      assert Concludes(r'.kind, r'.log[|r.log|], r'.epoch, text);
    }
  }

  // An answer is weighed: yes authorises, no declines a destroy, anything else ends the pod.
  lemma AnswerFrame(r: Run, ok: bool, text: string)
    requires r.hist != [] && r.pc.Answered? && r.pc.version < |r.hist|
    ensures var r', v := GoStep(r, ok, text), r.pc.version;
            && r' == r.(log := r'.log, pc := r'.pc)
            && (r'.log == r.log ==> r'.pc == Down || (r'.pc == Authorised(Saw(v)) && Said(r, v, "yes")))
            && (r'.log != r.log ==>
                 && r'.log == r.log + [Declined(r.epoch, v)] && r.action.Destroy? && Said(r, v, "no")
                 && r'.pc == Getting(Logs(DECLINED), 0, false, v))
  {
    hide Lower, Write, NextAttempt;
  }

  lemma AnswerKeeps(r: Run, ok: bool, text: string)
    requires Inv(r) && r.pc.Answered?
    ensures Inv(GoStep(r, ok, text))
  {
    hide Past, Lower, Amend, GoStep, Said, Write, NextAttempt;
    var r' := GoStep(r, ok, text);
    AnswerFrame(r, ok, text);
    assert Said(r, r.pc.version, "no") ==> Said(r', r.pc.version, "no") by { SaidGrows(r, r', r.pc.version, "no"); }
    assert |r'.log| > |r.log| ==> EventOk(r', r'.log[|r.log|]);
    PastKept(r, r');
    FactsGrow(r, r');
    SaidGrows(r, r', r.pc.version, "yes");
    if |r'.log| > |r.log| {
      assert Concludes(r'.kind, r'.log[|r.log|], r'.epoch, DECLINED);
    }
  }

  lemma SaidGrows(r: Run, r': Run, v: nat, answer: string)
    requires r.hist <= r'.hist
    ensures Said(r, v, answer) ==> Said(r', v, answer)
  {
  }

  lemma GoKeeps(r: Run, ok: bool, text: string)
    requires Inv(r)
    ensures Inv(GoStep(r, ok, text))
  {
    hide Past, Objects, Position, NextAttempt, Write;
    if r.pc.Putting? {
      if ok && !r.deleted { PutKeeps(r); } else { StopKeeps(r); }
    } else if r.pc.Authorised? {
      ActKeeps(r, ok, text);
    } else if r.pc.Answered? {
      AnswerKeeps(r, ok, text);
    } else if r.pc.Getting? {
      if ok && !r.deleted { GetKeeps(r); } else { StopKeeps(r); }
    } else if r.pc.Deciding? {
      DecideKeeps(r, ok, text);
    } else {
      LocalStepKeeps(r, ok, text);
    }
  }

  lemma LocalStepKeeps(r: Run, ok: bool, text: string)
    requires Inv(r) && !r.pc.Putting? && !r.pc.Authorised? && !r.pc.Answered? && !r.pc.Getting? && !r.pc.Deciding?
    ensures Inv(GoStep(r, ok, text))
  {
    hide Acted, Past, Amend, Lower, NextAttempt, Write, EventOk, AuthOk, LogsRecorded;
    var r' := GoStep(r, ok, text);
    PastKept(r, r');
    FactsGrow(r, r');
  }

  // AutoConfirm is read off one version and is the same on all of them.
  lemma DecideKeeps(r: Run, ok: bool, text: string)
    requires Inv(r) && r.pc.Deciding?
    ensures Inv(GoStep(r, ok, text))
  {
    hide Past, Lower, PlanRecorded;
    SpecFixed(r, r.pc.seen);
    PastKept(r, GoStep(r, ok, text));
    FactsGrow(r, GoStep(r, ok, text));
  }

  lemma SpecFixed(r: Run, i: nat)
    requires Past(r) && i < |r.hist|
    ensures SameSpec(r.hist[i], r.hist[0])
  {
  }

  lemma GetKeeps(r: Run)
    requires Inv(r) && r.pc.Getting? && !r.deleted
    ensures Inv(GoStep(r, true, ""))
  {
    hide Acted, Past, Lower, RecordOk;
    var r' := GoStep(r, true, "");
    PastKept(r, r');
    FactsGrow(r, r');
  }

  // A pod may vanish at any point.
  lemma StopKeeps(r: Run)
    requires Inv(r)
    ensures Inv(r.(pc := Down))
  {
    hide Past;
    PastKept(r, r.(pc := Down));
  }

  // Somebody else's write leaves the pod's position sound.
  lemma OtherWriteKeeps(r: Run, w: Writer, base: nat, obj: Execution)
    requires Inv(r) && base < |r.hist| && !w.Pod?
    requires OwnField(w, r.hist[base], obj)
    requires w.Namer? ==> obj.spec.secretName == r.SecretName()
    ensures Inv(Write(r, w, base, obj))
  {
    hide Acted, Past, Lower, Write, OwnField;
    var r' := Write(r, w, base, obj);
    PastWritten(r, w, base, obj);
    WriteTop(r, w, base, obj);
    SpecKept(r, w, base, obj);
    FactsGrow(r, r');
    RecordSurvives(r, r');
  }

  lemma RecordSurvives(r: Run, r': Run)
    requires r.hist != [] && Grows(r, r') && r'.epoch == r.epoch
    requires var e, e' := r.Current(), r'.Current(); e' == e.(spec := e'.spec, approved := e'.approved)
    ensures forall rec :: RecordOk(r, rec, r.Current(), r.epoch) ==> RecordOk(r', rec, r'.Current(), r'.epoch)
    ensures forall rec :: Amend(r.Current(), rec) == r.Current() ==> Amend(r'.Current(), rec) == r'.Current()
  {
    hide Acted;
    FactsGrow(r, r');
  }

  lemma StepKeepsInv(r: Run, a: Action)
    requires Inv(r)
    requires a.MakeJob? ==> Ready(r) && a.job.kind == r.kind
    ensures Inv(Step(r, a))
  {
    hide GoStep, Write, Past;
    match a
    case Go(ok, text) => GoKeeps(r, ok, text);
    case NameSecret =>
      if !r.deleted {
        OtherWriteKeeps(r, Namer, 0, r.hist[0].(spec := r.hist[0].spec.(secretName := r.SecretName())));
      }
    case Annotate(base, value) =>
      if !r.deleted && base < |r.hist| {
        OtherWriteKeeps(r, User, base, r.hist[base].(approved := value));
      }
    case Crash => StopKeeps(r);
    case Boot => PodStepKeeps(r, a);
    case Observe(_) => PodStepKeeps(r, a);
    case Delete => LossKeeps(r, a);
    case Collect => LossKeeps(r, a);
    case CollectAll => LossKeeps(r, a);
    case _ => DeployStepKeeps(r, a);
  }

  lemma PodStepKeeps(r: Run, a: Action)
    requires Inv(r) && (a.Boot? || a.Observe?)
    ensures Inv(Step(r, a))
  {
    hide GoStep, Write, Past, Acted, Lower, Amend, RecordOk, EventOk, PlanRecorded;
    var r' := Step(r, a);
    PastKept(r, r');
    FactsGrow(r, r');
  }

  lemma DeployStepKeeps(r: Run, a: Action)
    requires Inv(r)
    requires a.MakeSecret? || a.MakeAccount? || a.MakeBinding? || a.MakeJob? || a.Adopt?
    requires a.MakeJob? ==> Ready(r) && a.job.kind == r.kind
    ensures Inv(Step(r, a))
  {
    hide GoStep, Write, Past, Position, Objects, Step, Adopted;
    DeployStepFrame(r, a);
    PastKept(r, Step(r, a));
    PositionKept(r, Step(r, a));
    DeployStepObjects(r, a);
  }

  // A deploying step touches the objects around the Execution and nothing else.
  lemma DeployStepFrame(r: Run, a: Action)
    requires r.hist != []
    requires a.MakeSecret? || a.MakeAccount? || a.MakeBinding? || a.MakeJob? || a.Adopt?
    ensures var r' := Step(r, a);
            r' == r.(secret := r'.secret, account := r'.account, binding := r'.binding, job := r'.job, made := r'.made)
  {
    hide GoStep, Write;
  }

  lemma DeployStepObjects(r: Run, a: Action)
    requires r.hist != [] && Objects(r)
    requires a.MakeSecret? || a.MakeAccount? || a.MakeBinding? || a.MakeJob? || a.Adopt?
    requires a.MakeJob? ==> Ready(r) && a.job.kind == r.kind
    ensures Objects(Step(r, a))
  {
    hide GoStep, Write;
  }

  // Deletion and garbage collection.
  lemma LossKeeps(r: Run, a: Action)
    requires Inv(r) && (a.Delete? || a.Collect? || a.CollectAll?)
    ensures Inv(Step(r, a))
  {
    hide GoStep, Write, Past, Position;
    var r' := Step(r, a);
    PastKept(r, r');
    PositionKept(r, r');
  }

  lemma PositionKept(r: Run, r': Run)
    requires r.hist != [] && Position(r)
    requires r' == r.(deleted := r'.deleted, userDeleted := r'.userDeleted, secret := r'.secret,
                      account := r'.account, binding := r'.binding,
                      job := r'.job, made := r'.made)
    ensures Position(r')
  {
    hide Acted, Lower, Amend;
    FactsGrow(r, r');
  }
}
