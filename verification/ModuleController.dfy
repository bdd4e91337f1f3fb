// pkg/terraform/module/handler.go: polling a git ref and publishing content with its hash.
module ModuleController {
  import opened Basics
  import opened Digest
  import opened Versioned
  import opened GitRef

  datatype Git = Git(url: string, branch: string, tag: string, commit: string, secretName: string, interval: int)
  datatype Content = Content(data: map<string, string>, git: Git)
  datatype Status = Status(checkTime: Option<int>, checked: Option<Git>, content: Content, contentHash: string, gitUpdated: Cond)
  datatype Module = Module(spec: Content, status: Status)

  const NO_GIT := Git("", "", "", "", "", 0)
  const NO_CONTENT := Content(map[], NO_GIT)
  const NO_STATUS := Status(None, None, NO_CONTENT, "", Absent)

  predicate IsPolling(spec: Content) {
    |spec.data| == 0 && spec.git.url != "" && spec.git.commit == ""
  }

  predicate NeedsPoll(m: Module, now: int) {
    || NeedsUpdate(now, m.status.checkTime, m.spec.git.interval)
    || m.status.gitUpdated == IsFalse
    || m.status.checked.None?
    || m.status.checked.value.url != m.spec.git.url
    || m.status.checked.value.branch != m.spec.git.branch
  }

  ghost function HashOfRef(url: string, key: string, ref: string): string {
    MapDigest(map["url" := url, key := ref])
  }

  // The rules of computeHash applied to content alone.
  ghost function HashOfContent(c: Content): (h: string)
    ensures h == "" || IsDigest(h)
  {
    if |c.data| > 0 then MapDigest(c.data)
    else if c.git.url == "" then ""
    else if c.git.commit != "" then HashOfRef(c.git.url, "commit", c.git.commit)
    else if c.git.tag != "" then HashOfRef(c.git.url, "tag", c.git.tag)
    else ""
  }

  // What a module stands for: its spec, with the polled commit filled in.
  function Resolved(m: Module): Content {
    if IsPolling(m.spec) && m.status.checked.Some? then
      m.spec.(git := m.spec.git.(commit := m.status.checked.value.commit))
    else m.spec
  }

  function DefaultInterval(m: Module): Module {
    if m.spec.git.interval == 0 then m.(spec := m.spec.(git := m.spec.git.(interval := DEFAULT_INTERVAL))) else m
  }

  // The object OnChange hands to Update, given the clock it read, what git printed
  // (None when git or its secret failed) and when that answer came back.
  ghost function Reconciled(m0: Module, now: int, lines: Option<seq<string>>, checkedAt: int): Option<Module> {
    var m := DefaultInterval(m0);
    if IsPolling(m.spec) && NeedsPoll(m, now) then
      if lines.None? || FirstField(lines.value).None? then None
      else Some(m.(status := m.status.(
                     checked := Some(m.spec.git.(commit := FirstField(lines.value).value)),
                     checkTime := Some(checkedAt),
                     gitUpdated := IsTrue)))
    else if m.status.contentHash != HashOfContent(Resolved(m)) then
      Some(m.(status := m.status.(content := Resolved(m), contentHash := HashOfContent(Resolved(m)))))
    else Some(m)
  }

  // computeHash, branch by branch as the handler takes them.
  method ComputeHash(m: Module) returns (hash: string)
    ensures hash == HashOfContent(Resolved(m))
  {
    if |m.spec.data| > 0 {
      hash := SHA256Map(m.spec.data);
      return;
    }
    var git := m.spec.git;
    if git.url == "" {
      return "";
    }
    if IsPolling(m.spec) && m.status.checked.Some? {
      git := git.(commit := m.status.checked.value.commit);
    }
    if git.commit != "" {
      hash := SHA256Map(map["url" := git.url, "commit" := git.commit]);
      return;
    }
    if git.tag != "" {
      hash := SHA256Map(map["url" := git.url, "tag" := git.tag]);
      return;
    }
    return "";
  }

  // The modules client: the versions one Module has had.
  class Client {
    var hist: seq<Module>

    constructor (m: Module)
      ensures hist == [m]
    {
      hist := [m];
    }

    method Update(base: nat, m: Module) returns (ok: bool)
      requires |hist| > 0
      modifies this
      ensures ok == (base == |old(hist)| - 1)
      ensures hist == Cas(old(hist), base, m)
    {
      ok := base == |hist| - 1;
      if ok && m != hist[base] {
        hist := hist + [m];
      }
    }
  }

  // OnChange, with updateCommit and updateHash in line. `base` is the cached version it
  // was handed; `lines` and `checkedAt` are what git and the clock will answer.
  method OnChange(client: Client, base: nat, now: int, lines: Option<seq<string>>, checkedAt: int)
    returns (ok: bool, requeue: Option<int>)
    requires base < |client.hist|
    modifies client
    ensures var r := Reconciled(old(client.hist)[base], now, lines, checkedAt);
            && client.hist == (if r.Some? then Cas(old(client.hist), base, r.value) else old(client.hist))
            && ok == (r.Some? && base == |old(client.hist)| - 1)
    // a pass that finds its module up to date asks for another one interval later
    ensures var m := DefaultInterval(old(client.hist)[base]);
            var settled := !(IsPolling(m.spec) && NeedsPoll(m, now)) && m.status.contentHash == HashOfContent(Resolved(m));
            requeue == if settled then Some(m.spec.git.interval) else None
  {
    requeue := None;
    var m := client.hist[base];
    if m.spec.git.interval == 0 {
      m := m.(spec := m.spec.(git := m.spec.git.(interval := DEFAULT_INTERVAL)));
    }
    if IsPolling(m.spec) && NeedsPoll(m, now) {
      if lines.None? {
        return false, None;
      }
      var commit := FirstField(lines.value);
      if commit.None? {
        return false, None;
      }
      var checked := m.spec.git;
      checked := checked.(commit := commit.value);
      m := m.(status := m.status.(checked := Some(checked)));
      m := m.(status := m.status.(checkTime := Some(checkedAt)));
      m := m.(status := m.status.(gitUpdated := IsTrue));
      ok := client.Update(base, m);
      return;
    }
    var hash := ComputeHash(m);
    if m.status.contentHash != hash {
      m := m.(status := m.status.(content := m.spec));
      m := m.(status := m.status.(contentHash := hash));
      if IsPolling(m.spec) && m.status.checked.Some? {
        var git := m.status.content.git.(commit := m.status.checked.value.commit);
        m := m.(status := m.status.(content := m.status.content.(git := git)));
      }
    } else {
      requeue := Some(m.spec.git.interval);
    }
    ok := client.Update(base, m);
  }

  // ---- One Module over time: users, the clock, git and the handler.

  // A question to git, what git printed, and when that answer was in.
  datatype Poll = Poll(url: string, ref: string, answer: seq<string>, at: int)

  // A write of Status.Content: the version it made, and the clock reading behind it.
  datatype Publication = Publication(version: nat, at: int)

  datatype World = World(hist: seq<Module>, now: int, polls: set<Poll>, published: set<Publication>) {
    function Current(): Module
      requires hist != []
    {
      hist[|hist| - 1]
    }
  }

  datatype Action =
    | Tick(seconds: nat)
    | EditSpec(spec: Content)
    | ForceUpdate
    | Handle(base: nat, lines: Option<seq<string>>, delay: nat)

  function Init(spec: Content, now: int): World {
    World([Module(spec, NO_STATUS)], now, {}, {})
  }

  ghost function Step(w: World, a: Action): (w': World)
    requires w.hist != []
    ensures w.hist <= w'.hist
  {
    var top := |w.hist| - 1;
    match a
    case Tick(s) => w.(now := w.now + s)
    case EditSpec(spec) => w.(hist := Cas(w.hist, top, w.hist[top].(spec := spec)))
    case ForceUpdate =>
      w.(hist := Cas(w.hist, top, w.hist[top].(status := w.hist[top].status.(gitUpdated := IsFalse))))
    case Handle(base, lines, delay) =>
      if base > top then w else HandleStep(w, base, lines, delay)
  }

  ghost function HandleStep(w: World, base: nat, lines: Option<seq<string>>, delay: nat): World
    requires base < |w.hist|
  {
    var m := DefaultInterval(w.hist[base]);
    var later := w.now + delay;
    var r := Reconciled(w.hist[base], w.now, lines, later);
    var polling := IsPolling(m.spec) && NeedsPoll(m, w.now);
    var hist := if r.Some? then Cas(w.hist, base, r.value) else w.hist;
    var polls := NextPolls(w, w.hist[base], lines, delay);
    var publishes := !polling && |hist| > |w.hist| && m.status.contentHash != HashOfContent(Resolved(m));
    var published := if publishes then w.published + {Publication(|w.hist|, w.now)} else w.published;
    w.(hist := hist, now := later, polls := polls, published := published)
  }

  function Asked(git: Git, answer: seq<string>, at: int): Poll {
    Poll(git.url, PolledRef(git.branch, git.tag), answer, at)
  }

  // What git printed begins with this word.
  ghost predicate Answered(answer: seq<string>, commit: string) {
    answer != [] && IsFirstWord(answer[0], commit)
  }

  ghost function Run(w: World, actions: seq<Action>): (r: World)
    requires w.hist != []
    ensures w.hist <= r.hist
    decreases |actions|
  {
    if actions == [] then w else Run(Step(w, actions[0]), actions[1..])
  }

  // ---- Invariants.

  // Hashing the published content by the rules of computeHash gives the published hash.
  ghost predicate Coherent(m: Module) {
    m.status.contentHash == HashOfContent(m.status.content)
  }

  // GitChecked is only ever the outcome of a poll that found a commit.
  ghost predicate Checked(w: World, m: Module) {
    m.status.checked.Some? ==>
      && m.status.checkTime.Some?
      && var git, at := m.status.checked.value, m.status.checkTime.value;
         git.commit != "" && exists answer :: Asked(git, answer, at) in w.polls && Answered(answer, git.commit)
  }

  // What a publication of git content must be.
  ghost predicate Fresh(w: World, p: Publication)
    requires p.version < |w.hist|
  {
    var m := w.hist[p.version];
    var git := m.spec.git;
    |m.spec.data| == 0 && git.url != "" ==>
      && m.status.content.git.commit != ""
      && (git.commit != "" ==> m.status.content == m.spec)
      && (git.commit == "" ==>
        && m.status.checked.Some?
        && m.status.content == m.spec.(git := git.(commit := m.status.content.git.commit))
        && exists answer, at ::
             Polled(w.polls, git, m.status.checked.value.tag, m.status.content.git.commit, p.at, answer, at))
  }

  // One of the polls was for this URL and branch, or that tag; git printed this commit first;
  // and no more than one interval has gone by since.
  ghost predicate Polled(polls: set<Poll>, git: Git, tag: string, commit: string, now: int, answer: seq<string>, at: int) {
    && Poll(git.url, PolledRef(git.branch, tag), answer, at) in polls
    && answer != [] && IsFirstWord(answer[0], commit)
    && now <= at + git.interval
  }

  ghost predicate Inv(w: World) {
    && w.hist != []
    && (forall i :: 0 <= i < |w.hist| ==> Coherent(w.hist[i]) && Checked(w, w.hist[i]))
    && (forall p :: p in w.published ==> p.version < |w.hist| && Fresh(w, p))
  }

  lemma InitInv(spec: Content, now: int)
    ensures Inv(Init(spec, now))
  {
  }

  lemma ReconciledKeeps(w: World, m0: Module, lines: Option<seq<string>>, delay: nat)
    requires Coherent(m0) && Checked(w, m0)
    ensures var r := Reconciled(m0, w.now, lines, w.now + delay);
            r.Some? ==> Coherent(r.value) && Checked(w.(polls := NextPolls(w, m0, lines, delay)), r.value)
  {
    hide MapDigest, Fields, FirstField, IsFirstWord, PolledRef, NeedsPoll, IsPolling;
    var m, r := DefaultInterval(m0), Reconciled(m0, w.now, lines, w.now + delay);
    if IsPolling(m.spec) && NeedsPoll(m, w.now) && r.Some? {
      assert Asked(m.spec.git, lines.value, w.now + delay) == Asked(r.value.status.checked.value, lines.value, w.now + delay);
      assert Answered(lines.value, r.value.status.checked.value.commit);
    }
  }

  ghost function NextPolls(w: World, m0: Module, lines: Option<seq<string>>, delay: nat): set<Poll> {
    var m := DefaultInterval(m0);
    if IsPolling(m.spec) && NeedsPoll(m, w.now) && lines.Some? then
      w.polls + {Asked(m.spec.git, lines.value, w.now + delay)}
    else w.polls
  }

  lemma StaysFresh(w: World, w': World, p: Publication)
    requires p.version < |w.hist| && Fresh(w, p) && w.hist <= w'.hist && w.polls <= w'.polls
    ensures Fresh(w', p)
  {
    hide IsFirstWord, PolledRef;
    var m := w.hist[p.version];
    if |m.spec.data| == 0 && m.spec.git.url != "" && m.spec.git.commit == "" {
      var answer, at :| Polled(w.polls, m.spec.git, m.status.checked.value.tag, m.status.content.git.commit, p.at, answer, at);
      assert Polled(w'.polls, m.spec.git, m.status.checked.value.tag, m.status.content.git.commit, p.at, answer, at);
    }
  }

  // What a pass that does not poll stores as new content.
  lemma NowFresh(w: World, w': World, m0: Module, p: Publication)
    requires Checked(w, m0) && w.polls <= w'.polls && p.at == w.now && p.version < |w'.hist|
    requires var m := DefaultInterval(m0);
             && !(IsPolling(m.spec) && NeedsPoll(m, w.now))
             && w'.hist[p.version].spec == m.spec && w'.hist[p.version].status.checked == m.status.checked
             && w'.hist[p.version].status.content == Resolved(m)
    ensures Fresh(w', p)
  {
    hide IsFirstWord, PolledRef;
    var m := DefaultInterval(m0);
    if IsPolling(m.spec) {
      var git, at := m.status.checked.value, m.status.checkTime.value;
      var answer :| Asked(git, answer, at) in w.polls && Answered(answer, git.commit);
      assert Polled(w'.polls, m.spec.git, git.tag, git.commit, p.at, answer, at);
    }
  }

  lemma HandleKeepsInv(w: World, base: nat, lines: Option<seq<string>>, delay: nat)
    requires Inv(w) && base < |w.hist|
    ensures Inv(HandleStep(w, base, lines, delay))
  {
    hide HashOfContent, FirstField, IsFirstWord, PolledRef, Coherent;
    var w' := HandleStep(w, base, lines, delay);
    var r := Reconciled(w.hist[base], w.now, lines, w.now + delay);
    ReconciledKeeps(w, w.hist[base], lines, delay);
    forall i | 0 <= i < |w'.hist| ensures Coherent(w'.hist[i]) && Checked(w', w'.hist[i]) {
      if i < |w.hist| { assert Checked(w, w.hist[i]); }
    }
    forall p | p in w'.published ensures p.version < |w'.hist| && Fresh(w', p) {
      if p in w.published {
        assert Fresh(w, p) && w'.hist[p.version] == w.hist[p.version];
        StaysFresh(w, w', p);
      } else {
        assert w'.hist[p.version] == r.value;
        assert Checked(w, w.hist[base]);
        NowFresh(w, w', w.hist[base], p);
      }
    }
  }

  lemma StepKeepsInv(w: World, a: Action)
    requires Inv(w)
    ensures Inv(Step(w, a))
  {
    hide HashOfContent, FirstField, PolledRef, HandleStep;
    var w' := Step(w, a);
    if a.Handle? && a.base < |w.hist| {
      HandleKeepsInv(w, a.base, a.lines, a.delay);
    } else {
      assert Coherent(w.Current()) && Checked(w, w.Current());
      forall i | 0 <= i < |w'.hist| ensures Coherent(w'.hist[i]) && Checked(w', w'.hist[i]) {
        if i < |w.hist| { assert Checked(w, w.hist[i]); }
      }
      forall p | p in w'.published ensures Fresh(w', p) {
        assert Fresh(w, p) && w'.hist[p.version] == w.hist[p.version];
      }
    }
  }

  lemma {:induction false} RunKeepsInv(w: World, actions: seq<Action>)
    requires Inv(w)
    ensures Inv(Run(w, actions))
    decreases |actions|
  {
    if actions == [] {
    } else {
      StepKeepsInv(w, actions[0]);
      RunKeepsInv(Step(w, actions[0]), actions[1..]);
    }
  }

  // ---- Main results.

  // Every version ever stored carries a hash that matches its own content.
  lemma StatusCoherence(spec: Content, now: int, actions: seq<Action>, i: nat)
    requires i < |Run(Init(spec, now), actions).hist|
    ensures var m := Run(Init(spec, now), actions).hist[i];
            HashOfContent(m.status.content) == m.status.contentHash
  {
    RunKeepsInv(Init(spec, now), actions);
  }

  // Every publication of git content names a real commit; a polled one was resolved for
  // the module's own URL and branch no more than one interval before it was published.
  lemma PublishedCommitsAreFresh(spec: Content, now: int, actions: seq<Action>, p: Publication)
    requires p in Run(Init(spec, now), actions).published
    ensures p.version < |Run(Init(spec, now), actions).hist| && Fresh(Run(Init(spec, now), actions), p)
  {
    RunKeepsInv(Init(spec, now), actions);
  }

  // The poll behind a publication was for today's ref exactly when the tag has not moved since.
  lemma TagMayLag(spec: Content, now: int, actions: seq<Action>, p: Publication)
    requires p in Run(Init(spec, now), actions).published
    ensures p.version < |Run(Init(spec, now), actions).hist|
    ensures var m := Run(Init(spec, now), actions).hist[p.version];
            IsPolling(m.spec) ==>
              && m.status.checked.Some?
              && (PolledRef(m.spec.git.branch, m.status.checked.value.tag) == PolledRef(m.spec.git.branch, m.spec.git.tag)
                  <==> m.status.checked.value.tag == m.spec.git.tag)
  {
    PublishedCommitsAreFresh(spec, now, actions, p);
    var m := Run(Init(spec, now), actions).hist[p.version];
    if IsPolling(m.spec) {
      PolledRefChoice(m.spec.git.branch, m.status.checked.value.tag, m.spec.git.branch, m.spec.git.tag);
    }
  }

  // And it does lag: a tag moved between the poll and the publication goes unnoticed.
  function Tagged(tag: string): Content {
    Content(map[], Git("u", "", tag, "", "", DEFAULT_INTERVAL))
  }

  const LAGGING := [Handle(0, Some(["c"]), 0), EditSpec(Tagged("v2")), Handle(2, None, 0)]

  function Looked(): Module {
    Module(Tagged("v1"), NO_STATUS.(checkTime := Some(0), checked := Some(Tagged("v1").git.(commit := "c")), gitUpdated := IsTrue))
  }

  ghost function Published(): Module {
    var content := Tagged("v2").(git := Tagged("v2").git.(commit := "c"));
    Looked().(spec := Tagged("v2"), status := Looked().status.(content := content, contentHash := HashOfContent(content)))
  }

  lemma TagLags()
    ensures var w := Run(Init(Tagged("v1"), 0), LAGGING);
            && w.hist != [] && Publication(3, 0) in w.published && |w.hist| == 4 && w.hist[3] == Published()
            && w.hist[3].status.checked.value.tag == "v1" && w.hist[3].spec.git.tag == "v2"
            && w.hist[3].status.content.git.commit == "c"
  {
    hide Step, Published;
    LagSteps();
    var w0 := Init(Tagged("v1"), 0);
    var w1 := Step(w0, LAGGING[0]);
    var w2 := Step(w1, LAGGING[1]);
    var w3 := Step(w2, LAGGING[2]);
    assert LAGGING[1..][1..] == [LAGGING[2]] && LAGGING[1..][0] == LAGGING[1];
    assert Run(w2, [LAGGING[2]]) == w3;
    assert Run(w1, LAGGING[1..]) == w3;
    assert Published().status.checked.value.tag == "v1" && Published().spec.git.tag == "v2"
        && Published().status.content.git.commit == "c" by { PublishedIs(); }
  }

  lemma PublishedIs()
    ensures Published().status.checked.Some? && Published().status.checked.value.tag == "v1"
    ensures Published().spec.git.tag == "v2" && Published().status.content.git.commit == "c"
  {
  }

  lemma LagSteps()
    ensures var w0 := Init(Tagged("v1"), 0);
            var w1 := Step(w0, LAGGING[0]);
            var w2 := Step(w1, LAGGING[1]);
            var w3 := Step(w2, LAGGING[2]);
            && w3.hist == [Module(Tagged("v1"), NO_STATUS), Looked(), Looked().(spec := Tagged("v2")), Published()]
            && Publication(3, 0) in w3.published
  {
    hide Published, Looked, HandleStep, DefaultInterval, IsPolling, NeedsPoll, HashOfContent, Resolved, Reconciled, Tagged;
    LagPolls();
    LagPublishes();
    var w0 := Init(Tagged("v1"), 0);
    var w1 := Step(w0, LAGGING[0]);
    HandleStores(w0, 0, Some(["c"]), Looked());
    LookedIs();
    var w2 := Step(w1, LAGGING[1]);
    assert w2.hist == w1.hist + [Looked().(spec := Tagged("v2"))] && w2.now == 0;
    HandleStores(w2, 2, None, Published());
  }

  lemma LookedIs()
    ensures Looked().spec == Tagged("v1") && Tagged("v1") != Tagged("v2")
  {
    assert Tagged("v1").git.tag != Tagged("v2").git.tag;
  }

  // A pass on the latest version that has something new to store.
  lemma HandleStores(w: World, base: nat, lines: Option<seq<string>>, m: Module)
    requires base + 1 == |w.hist| && Reconciled(w.hist[base], w.now, lines, w.now) == Some(m) && m != w.hist[base]
    ensures var w', given := HandleStep(w, base, lines, 0), DefaultInterval(w.hist[base]);
            && w'.hist == w.hist + [m] && w'.now == w.now
            && (!(IsPolling(given.spec) && NeedsPoll(given, w.now)) && given.status.contentHash != HashOfContent(Resolved(given))
                ==> Publication(|w.hist|, w.now) in w'.published)
  {
    hide Reconciled, HashOfContent, PolledRef;
  }

  lemma LagPolls()
    ensures Reconciled(Module(Tagged("v1"), NO_STATUS), 0, Some(["c"]), 0) == Some(Looked())
    ensures Looked() != Module(Tagged("v1"), NO_STATUS)
  {
    hide Fields, FirstField, IsFirstWord, SpaceFree, PolledRef;
    WordC();
  }

  lemma WordC()
    ensures FirstField(["c"]) == Some("c")
  {
    hide IsFirstWord, SpaceFree, AllSpace;
    assert WordLength("c") == 1 && "c"[..1] == "c" && "c"[1..] == "";
  }

  lemma LagPublishes()
    ensures var m := Looked().(spec := Tagged("v2"));
            && Reconciled(m, 0, None, 0) == Some(Published()) && Published() != m
            && m.status.contentHash != HashOfContent(Resolved(m)) && !(IsPolling(m.spec) && NeedsPoll(m, 0))
            && DefaultInterval(m) == m
  {
    hide MapDigest;
    var m := map["url" := "u", "commit" := "c"];
    assert "url" in m;
  }

  // When OnChange reaches computeHash for a module with a git URL, a commit is known:
  // the tag-only branch and the final empty return are for other callers.
  lemma HashedWithCommit(w: World, i: nat)
    requires Inv(w) && i < |w.hist|
    requires var m := DefaultInterval(w.hist[i]);
             |m.spec.data| == 0 && m.spec.git.url != "" && !(IsPolling(m.spec) && NeedsPoll(m, w.now))
    ensures Resolved(DefaultInterval(w.hist[i])).git.commit != ""
  {
    assert Checked(w, w.hist[i]);
  }

  // With spec and ref fixed, polls that succeed and the clock inside the interval, the
  // second call leaves a module whose hash is right, and every later call changes nothing.
  lemma Converges(m: Module, t1: int, t2: int, t3: int, lines: seq<string>, c1: int, c2: int, c3: int)
    requires FirstField(lines).Some?
    requires m.status.checked.Some? ==> m.status.checkTime.Some?
    requires var m1 := Reconciled(m, t1, Some(lines), c1);
             m1.Some? && (IsPolling(m.spec) ==>
               && !NeedsUpdate(t2, m1.value.status.checkTime, m1.value.spec.git.interval)
               && !NeedsUpdate(t3, m1.value.status.checkTime, m1.value.spec.git.interval))
    ensures var m2 := Reconciled(Reconciled(m, t1, Some(lines), c1).value, t2, Some(lines), c2);
            && m2.Some?
            && m2.value.status.contentHash == HashOfContent(Resolved(m2.value))
            && Reconciled(m2.value, t3, Some(lines), c3) == Some(m2.value)
  {
    hide HashOfContent, FirstField;
  }

  // ---- The url/commit digest.

  // Commits of one length (forty digits, say) keep url and commit apart.
  lemma CommitPreimageInjective(u: string, c: string, u': string, c': string)
    requires |c| == |c'|
    ensures MapPreimage(map["url" := u, "commit" := c]) == MapPreimage(map["url" := u', "commit" := c']) <==>
              u == u' && c == c'
  {
    CommitPreimage(u, c);
    CommitPreimage(u', c');
    var a, b := map["url" := u, "commit" := c], map["url" := u', "commit" := c'];
    assert a["url"] == u && a["commit"] == c && b["url"] == u' && b["commit"] == c';
    if |u| == |u'| { EqualLengthsInjective(a, b); }
  }

  lemma CommitPreimage(u: string, c: string)
    ensures MapPreimage(map["url" := u, "commit" := c]) == "commit" + c + "url" + u
  {
    assert map["url" := u, "commit" := c] == map["commit" := c, "url" := u];
    PreimageOfTwo("commit", c, "url", u);
  }

  // Without the equal lengths it fails.
  lemma CommitPreimageCollides()
    ensures MapPreimage(map["url" := "urlb", "commit" := "a"]) == MapPreimage(map["url" := "b", "commit" := "aurl"])
  {
    CommitPreimage("urlb", "a");
    CommitPreimage("b", "aurl");
    assert "commit" + "a" + "url" + "urlb" == "commitaurlurlb" == "commit" + "aurl" + "url" + "b";
  }

  // ---- What a pass does, in terms of the module's own fields.

  // git is asked exactly for a module with neither content nor commit of its own, if it has
  // never been asked, not for longer than the interval, not for this URL or branch, or if an
  // update has been called for: those are the passes that fail when git does.
  lemma AsksGit(m: Module, now: int, at: int)
    ensures Reconciled(m, now, None, at).None? <==>
      && m.spec.data == map[] && m.spec.git.url != "" && m.spec.git.commit == ""
      && var s, g := m.status, m.spec.git;
         || s.checkTime.None? || now - s.checkTime.value > (if g.interval == 0 then 1800 else g.interval)
         || s.gitUpdated == IsFalse
         || s.checked.None? || s.checked.value.url != g.url || s.checked.value.branch != g.branch
  {
    hide HashOfContent;
    assert m.spec.data == map[] <==> |m.spec.data| == 0;
  }

  // Such a pass stores the first word git printed with the settings it was asked for, and the
  // time, and leaves what is published alone.
  lemma StoresAnswer(m: Module, now: int, lines: seq<string>, at: int)
    requires Reconciled(m, now, None, at).None? && Reconciled(m, now, Some(lines), at).Some?
    ensures var r := Reconciled(m, now, Some(lines), at).value;
            && r.status == m.status.(checked := r.status.checked, checkTime := Some(at), gitUpdated := IsTrue)
            && r.status.checked.Some? && lines != [] && IsFirstWord(lines[0], r.status.checked.value.commit)
            && r.spec == m.spec.(git := r.spec.git)
            && r.status.checked.value == r.spec.git.(commit := r.status.checked.value.commit)
            && r.spec.git == m.spec.git.(interval := if m.spec.git.interval == 0 then 1800 else m.spec.git.interval)
  {
    hide HashOfContent, FirstField, IsFirstWord, NeedsUpdate;
    var f := FirstField(lines);
  }

  // Any other pass publishes the content, with the commit git gave if it has none of its
  // own, unless the published hash is right already; it leaves what git said alone.
  lemma Publishes(m: Module, now: int, at: int)
    requires Reconciled(m, now, None, at).Some?
    ensures var r, g := Reconciled(m, now, None, at).value, m.spec.git;
            && r.spec == m.spec.(git := g.(interval := if g.interval == 0 then 1800 else g.interval))
            && r.status == m.status.(content := r.status.content, contentHash := r.status.contentHash)
            && (r.status.contentHash == m.status.contentHash ==> r.status.content == m.status.content)
            && (r.status.contentHash != m.status.contentHash ==>
                 r.status.content == if m.spec.data == map[] && g.url != "" && g.commit == "" && m.status.checked.Some?
                                     then r.spec.(git := r.spec.git.(commit := m.status.checked.value.commit)) else r.spec)
            && (m.spec.data == map[] && g.url != "" && g.commit == "" && m.status.checked.Some? ==>
                 r.status.contentHash == HashOfContent(r.spec.(git := r.spec.git.(commit := m.status.checked.value.commit))))
            && (m.spec.data != map[] || g.url == "" || g.commit != "" ==> r.status.contentHash == HashOfContent(r.spec))
  {
    hide HashOfContent, NeedsPoll;
    assert m.spec.data == map[] <==> |m.spec.data| == 0;
  }

  // The hash of content: that of its files if it has any, else of commit and URL, else of
  // tag and URL, else none.
  lemma ContentHashIs(c: Content)
    ensures c.data != map[] ==> HashOfContent(c) == MapDigest(c.data)
    ensures c.data == map[] && c.git.url != "" && c.git.commit != "" ==>
              HashOfContent(c) == Sha256Hex("commit" + c.git.commit + "url" + c.git.url)
    ensures c.data == map[] && c.git.url != "" && c.git.commit == "" && c.git.tag != "" ==>
              HashOfContent(c) == Sha256Hex("tag" + c.git.tag + "url" + c.git.url)
    ensures c.data == map[] && (c.git.url == "" || (c.git.commit == "" && c.git.tag == "")) ==> HashOfContent(c) == ""
  {
    hide MapPreimage, IsDigest;
    assert c.data == map[] <==> |c.data| == 0;
    KeyedHash(c.git.url, "commit", c.git.commit);
    KeyedHash(c.git.url, "tag", c.git.tag);
  }

  lemma KeyedHash(url: string, key: string, ref: string)
    requires key == "commit" || key == "tag"
    ensures MapDigest(map["url" := url, key := ref]) == Sha256Hex(key + ref + "url" + url)
  {
    assert map["url" := url, key := ref] == map[key := ref, "url" := url];
    assert "url" in map["url" := url, key := ref];
    PreimageOfTwo(key, ref, "url", url);
  }
}
