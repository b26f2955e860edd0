/** What holds in every run of discovery and the document publisher, whatever the modules answer and
    whenever they are lost, restarted, replaced or re-read. */
module DiscoveryTheorems {
  import opened Prelude
  import opened BridgeConfigs
  import opened ModuleViews
  import opened Discoveries
  import opened DocPublishers
  import opened DiscoveryRuns
  import opened DiscoveryInvariants
  import opened DiscoverySteps
  import opened DocumentInvariants

  ghost function Run(cfg: seq<ExposedModule>, revalidate: bool, run: seq<Action>): Sys {
    if run == [] then Start(cfg, revalidate)
    else Step(cfg, Run(cfg, revalidate, run[..|run| - 1]), run[|run| - 1])
  }

  ghost predicate Inv(cfg: seq<ExposedModule>, s: Sys) {
    SlotsInv(cfg, s) && ViewsInv(cfg, s) && DocsInv(cfg, s)
  }

  lemma Configured(cfg: seq<ExposedModule>, m: string)
    ensures (exists em | em in cfg :: em.name == m) <==> Find(cfg, m) < |cfg|
  {
    if Find(cfg, m) < |cfg| {
      assert cfg[Find(cfg, m)] in cfg;
    }
  }

  lemma StartSlots(cfg: seq<ExposedModule>, revalidate: bool)
    ensures SlotsInv(cfg, Start(cfg, revalidate))
  {
    var s := Start(cfg, revalidate);
    forall m ensures (m in s.slots <==> Find(cfg, m) < |cfg|) && SlotOk(s, m) {
      Configured(cfg, m);
      if m in s.slots {
        assert QueuedAt(s, Find(cfg, m), m);
      }
    }
    forall t ensures JobOk(s, t) {}
    forall t, u, m ensures PairOk(s, t, u, m) {}
  }

  lemma StartViews(cfg: seq<ExposedModule>, revalidate: bool)
    ensures ViewsInv(cfg, Start(cfg, revalidate)) && DocsInv(cfg, Start(cfg, revalidate))
  {
    var s := Start(cfg, revalidate);
    forall m ensures ViewOk(cfg, s, m) {}
    StoredKey(None, Inputs(cfg, s.slots));
  }

  lemma {:induction false} RunKeeps(cfg: seq<ExposedModule>, self: string, revalidate: bool, run: seq<Action>)
    requires GoodModules(cfg, self)
    ensures Inv(cfg, Run(cfg, revalidate, run))
  {
    if run == [] {
      StartSlots(cfg, revalidate);
      StartViews(cfg, revalidate);
    } else {
      var s := Run(cfg, revalidate, run[..|run| - 1]);
      var a := run[|run| - 1];
      RunKeeps(cfg, self, revalidate, run[..|run| - 1]);
      Fresh(cfg, s);
      hide SlotsInv, ViewsInv, DocsInv, Step;
      StepKeepsSlots(cfg, self, s, a);
      StepViews(cfg, s, a);
      StepDocs(cfg, s, a);
    }
  }

  lemma Fresh(cfg: seq<ExposedModule>, s: Sys)
    requires SlotsInv(cfg, s)
    ensures s.next !in s.jobs
  {
    assert JobOk(s, s.next);
  }

  // ---------------------------------------------------------------------------
  // No module gets stuck
  // ---------------------------------------------------------------------------

  /** A module is never both being discovered and waiting to be; it has one call of its current attempt
      out exactly when it is being discovered; and while it is pending or stale, such a call, a refresh
      timer or a queued refresh is on its way to it. */
  lemma {:induction false} NoModuleStuck(cfg: seq<ExposedModule>, self: string, revalidate: bool, run: seq<Action>, em: ExposedModule)
    requires GoodModules(cfg, self) && em in cfg
    ensures
      var s := Run(cfg, revalidate, run);
      em.name in s.slots &&
      var x := s.slots[em.name];
      && !(x.inFlight && x.retryArmed)
      && (x.inFlight <==> exists t :: Flies(s, t, em.name))
      && (forall t, u | Flies(s, t, em.name) && Flies(s, u, em.name) :: t == u)
      && (x.view.status == Pending || x.view.stale ==> x.inFlight || Due(s, em.name))
  {
    RunKeeps(cfg, self, revalidate, run);
    var s := Run(cfg, revalidate, run);
    var m := em.name;
    Configured(cfg, m);
    assert m in s.slots && SlotOk(s, m);
    var x := s.slots[m];
    if Waiting(x) {
      var t :| QueuedAt(s, t, m);
      assert Feeds(s, t, m);
    }
    forall t | Flies(s, t, m) ensures x.inFlight {
      assert JobOk(s, t);
    }
    forall t, u | Flies(s, t, m) && Flies(s, u, m) ensures t == u {
      assert PairOk(s, t, u, m);
    }
  }

  /** A module's timer stays set until it fires: the fixed keys of revalidation and of the publisher
      never displace it. */
  lemma {:induction false} ModuleTimersKept(cfg: seq<ExposedModule>, self: string, revalidate: bool, run: seq<Action>, a: Action, em: ExposedModule)
    requires GoodModules(cfg, self) && em in cfg && em.name in Run(cfg, revalidate, run).timers
    ensures em.name in Step(cfg, Run(cfg, revalidate, run), a).timers <==> a != Fire(em.name)
  {
    RunKeeps(cfg, self, revalidate, run);
    var s := Run(cfg, revalidate, run);
    Configured(cfg, em.name);
    FixedKeys(cfg, self, s);
    assert em.name in s.slots;
    hide SlotsInv, ViewsInv, DocsInv, Step, Run;
    if a.Fire? {
      FireTakes(cfg, s, a.key, em.name);
    } else {
      TimersGrow(cfg, s, a);
    }
  }

  lemma FireTakes(cfg: seq<ExposedModule>, s: Sys, key: string, m: string)
    requires m in s.timers && m != RevalidateTimer && m != DocsTimer
    ensures m in Step(cfg, s, Fire(key)).timers <==> key != m
  {
    hide Go, Answered;
  }

  lemma TimersGrow(cfg: seq<ExposedModule>, s: Sys, a: Action)
    requires !a.Fire?
    ensures s.timers <= Step(cfg, s, a).timers
  {
    hide Go, BuildStep, Answered;
    match a
    case Advance(t) => if t in s.jobs { GoOutside(cfg, s, t); }
    case Build(throws) => BuildFrame(cfg, s, throws);
    case Answer(t, r) => if t in s.jobs { AnswerFrame(s, t, r); }
    case _ =>
  }

  /** What a job's step leaves alone: timers are only set, and the served documents stay. */
  ghost predicate Outside(s: Sys, s': Sys) {
    s.timers <= s'.timers && s'.docs == s.docs
  }

  lemma HandleOutside(cfg: seq<ExposedModule>, s: Sys, t: nat)
    requires t in s.jobs && s.jobs[t].Handling? && s.jobs[t].name in s.slots && Fits(s.jobs[t].stage, s.jobs[t].reply)
    ensures Outside(s, Handle(cfg, s, t))
  {
    hide OnAnswer, Fits, Exposed, Missed, Published;
    match OnAnswer(s.slots[s.jobs[t].name].view, s.jobs[t].stage, s.jobs[t].reply)
    case Miss =>
    case Ask(_) =>
    case Publish(_, _) =>
  }

  lemma CompareOutside(s: Sys, t: nat)
    requires t in s.jobs && s.jobs[t].Comparing? && s.jobs[t].name in s.slots
    ensures Outside(s, Compare(s, t))
  {
    hide Revalidate, CallUnavailable, Reread;
    match Revalidate(s.jobs[t].seen, s.jobs[t].report)
    case Keep =>
    case MarkStale =>
    case Refresh =>
  }

  lemma ReadOutside(s: Sys, t: nat)
    requires t in s.jobs && s.jobs[t].Checked? && s.jobs[t].name in s.slots
    ensures Outside(s, EndRead(s, t))
  {
    hide CheckEnded;
  }

  lemma VisitOutside(s: Sys, t: nat, names: seq<string>)
    requires names != []
    ensures Outside(s, Visit(s, t, names))
  {
    hide CheckStarted;
  }

  lemma ContinueOutside(s: Sys, v: Sys, t: nat, m: string, next: Then)
    requires Outside(s, v)
    ensures Outside(s, Continue(v, t, m, next))
  {
    match next
    case Done =>
    case ToArm =>
    case ToHandle(_, _, _) =>
  }

  lemma GoOutside(cfg: seq<ExposedModule>, s: Sys, t: nat)
    requires t in s.jobs
    ensures Outside(s, Go(cfg, s, t))
  {
    hide Handle, Compare, EndRead, Visit, Continue, Fits;
    match s.jobs[t]
    case Refreshing(_) =>
    case Resuming(_, _, _, _, _) =>
    case Handling(m, _, _, stage, r) => if m in s.slots && Fits(stage, r) { HandleOutside(cfg, s, t); }
    case Notifying(m, next) => ContinueOutside(s, s, t, m, next);
    case Requesting(m, next) => ContinueOutside(s, s.(timers := s.timers + {DocsTimer}), t, m, next);
    case Arming(_) =>
    case Rounding(names) => if names != [] { VisitOutside(s, t, names); }
    case Checked(m, _, _, _) => if m in s.slots { ReadOutside(s, t); }
    case Comparing(m, _, _, _, _) => if m in s.slots { CompareOutside(s, t); }
    case _ =>
  }

  // ---------------------------------------------------------------------------
  // What a view is made of
  // ---------------------------------------------------------------------------

  /** Every view: its exposure is its module's, its generation counts the publishes, and it is what the last
      answer of an attempt makes of what that attempt read. */
  lemma {:induction false} ViewsSound(cfg: seq<ExposedModule>, self: string, revalidate: bool, run: seq<Action>, em: ExposedModule)
    requires GoodModules(cfg, self) && em in cfg
    ensures
      var s := Run(cfg, revalidate, run);
      em.name in s.slots &&
      var v := s.slots[em.name].view;
      && v.name == em.name && v.exposure == ExposureOf(em, v) && v.generation == s.Publishes(em.name)
      && (v.status == Ok ==> v.contract.Some? && Consistent(v.contract.value, v.live))
      && (v.stale ==> v.status != Pending)
      && (v.status != Pending ==> Made(v))
  {
    hide Made;
    RunKeeps(cfg, self, revalidate, run);
    var s := Run(cfg, revalidate, run);
    Configured(cfg, em.name);
    assert em.name in s.slots && ViewOk(cfg, s, em.name);
    EveryViewMade(cfg, self, revalidate, run, em.name);
    var i :| 0 <= i < |cfg| && cfg[i] == em;
    assert Find(cfg, em.name) == i;
  }

  /** In every run the gate and the listing of a typed module agree. */
  lemma {:induction false} TypedGatesAgree(cfg: seq<ExposedModule>, self: string, revalidate: bool, run: seq<Action>, em: ExposedModule, name: string)
    requires GoodModules(cfg, self) && em in cfg
    ensures
      var s := Run(cfg, revalidate, run);
      em.name in s.slots &&
      var v := s.slots[em.name].view;
      && (v.status == Ok ==>
            && (MethodPermitted(Some(em), v, name) <==> name in v.exposure.methods)
            && (EventPermitted(Some(em), v, name) <==> name in v.exposure.events))
      && (name in v.exposure.methods ==> MethodPermitted(Some(em), v, name))
      && (name in v.exposure.events ==> EventPermitted(Some(em), v, name))
  {
    ViewsSound(cfg, self, revalidate, run, em);
    var v := Run(cfg, revalidate, run).slots[em.name].view;
    hide Consistent;
    ListedIsPermitted(em, v, name);
    if v.status == Ok {
      TypedGate(em, v, name);
    }
  }

  /** What an attempt's last answer makes of what it has read: untyped without lidl(); invalid without a contract;
      with one, ok exactly when the running module answers it. */
  ghost predicate MadeOf(v: View, stage: Stage, r: Reply) {
    match stage
    case Interface =>
      && r.OfInterface? && r.interface.Report? && v.live == r.interface.live && !LidlPresent(v.live)
      && v.status == Untyped && v.contract.None?
    case Lidl(live) =>
      && r.OfLidl? && v.live == live && v.status == Invalid && v.contract.None?
      && (match r.lidl
          case CallFailed => v.error == LidlCallFailed && v.contractSha256 == ""
          case NotText(error) => v.error == error && v.contractSha256 == ""
          case Unreadable(sha, error) => v.error == error && v.contractSha256 == sha
          case Contract(_, _) => false)
    case Version(live, c, sha) =>
      && r.OfVersion? && v.live == live && v.contractSha256 == sha
      && v.crossCheck == Some(CrossCheckOf(c, live, r.runtime))
      && if Consistent(c, live) then v.status == Ok && v.contract == Some(c) && v.interfaceSha256 == c.interfaceSha256
         else v.status == Invalid && v.contract.None? && v.error == InconsistentContract
  }

  /** The view published by a job: its attempt is still the module's, no loss, restart or replacement has been
      processed since it began, and the view is made of what the attempt read. */
  ghost predicate FromAttempt(s: Sys, t: nat, m: string, v: View) {
    && m in s.slots && t in s.jobs && s.jobs[t].Handling?
    && var j := s.jobs[t];
       && j.name == m && j.attempt == s.slots[m].attempt && j.stamp == s.Resets(m)
       && MadeOf(v, j.stage, j.reply) && !v.stale && v.generation == s.slots[m].view.generation + 1
  }

  /** A new view appears only when an attempt's own answers are published. */
  lemma {:induction false} PublishedFromOneAttempt(cfg: seq<ExposedModule>, self: string, revalidate: bool, run: seq<Action>, a: Action, m: string)
    requires GoodModules(cfg, self)
    requires
      var s := Run(cfg, revalidate, run);
      m in s.slots && m in Step(cfg, s, a).slots && !OrStale(s.slots[m].view, Step(cfg, s, a).slots[m].view)
    ensures
      var s := Run(cfg, revalidate, run);
      a.Advance? && FromAttempt(s, a.job, m, Step(cfg, s, a).slots[m].view)
  {
    RunKeeps(cfg, self, revalidate, run);
    var s := Run(cfg, revalidate, run);
    if !a.Advance? {
      hide OrStale, Inv;
      OutsideView(cfg, s, a, m);
    } else {
      assert JobOk(s, a.job);
      hide Inv;
      GoPublishes(cfg, s, a.job, m);
    }
  }

  lemma GoPublishes(cfg: seq<ExposedModule>, s: Sys, t: nat, m: string)
    requires t in s.jobs ==> JobOk(s, t)
    requires t in s.jobs && m in s.slots && m in Go(cfg, s, t).slots && !OrStale(s.slots[m].view, Go(cfg, s, t).slots[m].view)
    ensures FromAttempt(s, t, m, Go(cfg, s, t).slots[m].view)
  {
    if !s.jobs[t].Handling? {
      hide OrStale, Go;
      OtherView(cfg, s, t, m);
    } else if s.jobs[t].name in s.slots {
      hide OrStale;
      HandlePublishes(cfg, s, t, m);
    }
  }

  ghost predicate Made(v: View) {
    exists stage, r :: MadeOf(v, stage, r)
  }

  lemma MadeStays(v: View, w: View)
    requires Made(v) && SameMade(v, w)
    ensures Made(w)
  {
    var stage, r :| MadeOf(v, stage, r);
    SameMaking(v, w, stage, r);
    hide MadeOf;
  }

  lemma {:induction false} EveryViewMade(cfg: seq<ExposedModule>, self: string, revalidate: bool, run: seq<Action>, m: string)
    requires GoodModules(cfg, self) && m in Run(cfg, revalidate, run).slots
    ensures Run(cfg, revalidate, run).slots[m].view.Resolved() ==> Made(Run(cfg, revalidate, run).slots[m].view)
  {
    hide Inv, Step, Made;
    if run != [] {
      var (before, a) := (run[..|run| - 1], run[|run| - 1]);
      var (s, s') := (Run(cfg, revalidate, before), Run(cfg, revalidate, run));
      RunKeeps(cfg, self, revalidate, before);
      RunKeeps(cfg, self, revalidate, run);
      SameModules(cfg, s, s', m);
      EveryViewMade(cfg, self, revalidate, before, m);
      if OrStale(s.slots[m].view, s'.slots[m].view) {
        if s.slots[m].view.Resolved() {
          MadeStays(s.slots[m].view, s'.slots[m].view);
        }
      } else {
        PublishedFromOneAttempt(cfg, self, revalidate, before, a, m);
        MakingMade(s'.slots[m].view, s.jobs[a.job].stage, s.jobs[a.job].reply);
      }
    }
  }

  lemma MakingMade(v: View, stage: Stage, r: Reply)
    requires MadeOf(v, stage, r)
    ensures Made(v)
  {
  }

  lemma SameModules(cfg: seq<ExposedModule>, s: Sys, s': Sys, m: string)
    requires Inv(cfg, s) && Inv(cfg, s')
    ensures m in s.slots <==> m in s'.slots
  {
  }

  lemma AnswerMadeOf(prev: View, stage: Stage, r: Reply)
    requires Fits(stage, r)
    ensures var next := OnAnswer(prev, stage, r); next.Publish? ==> MadeOf(next.view, stage, r)
  {
    if stage.Version? {
      ErrorsExactly(stage.contract, stage.live, r.runtime);
    }
    hide CrossCheckOf, HasErrors, Consistent, LidlPresent;
  }

  lemma HandlePublishes(cfg: seq<ExposedModule>, s: Sys, t: nat, m: string)
    requires t in s.jobs && JobOk(s, t) && s.jobs[t].Handling? && s.jobs[t].name in s.slots && Fits(s.jobs[t].stage, s.jobs[t].reply)
    requires m in s.slots && !OrStale(s.slots[m].view, Handle(cfg, s, t).slots[m].view)
    ensures FromAttempt(s, t, m, Handle(cfg, s, t).slots[m].view)
  {
    var j := s.jobs[t];
    AnswerMadeOf(s.slots[j.name].view, j.stage, j.reply);
    MissMakesNone(s, t, m);
    hide OrStale, OnAnswer, MissReport, MadeOf, SameMade, PublishStep, JobOk;
    match OnAnswer(s.slots[j.name].view, j.stage, j.reply)
    case Miss =>
    case Ask(stage) =>
    case Publish(v, retry) =>
      PublishMakes(cfg, s, t, v, retry, m);
      SameMaking(v, Handle(cfg, s, t).slots[m].view, j.stage, j.reply);
  }

  lemma MissMakesNone(s: Sys, t: nat, m: string)
    requires t in s.jobs && s.jobs[t].Handling? && s.jobs[t].name in s.slots && m in s.slots
    ensures OrStale(s.slots[m].view, MissReport(s, t).slots[m].view) && OrStale(s.slots[m].view, s.slots[m].view)
  {
    SlotViews(s.slots[m], s.jobs[t].attempt, 0);
    hide OrStale;
  }

  lemma SameMaking(v: View, w: View, stage: Stage, r: Reply)
    requires MadeOf(v, stage, r) && SameMade(v, w)
    ensures MadeOf(w, stage, r)
  {
    hide CrossCheckOf, Consistent, LidlPresent;
  }

  /** The same view, but for what publishing writes. */
  predicate SameMade(v: View, w: View) {
    w == v.(exposure := w.exposure, generation := w.generation, stale := w.stale)
  }

  lemma PublishMakes(cfg: seq<ExposedModule>, s: Sys, t: nat, v: View, retry: bool, m: string)
    requires t in s.jobs && JobOk(s, t) && s.jobs[t].Handling? && s.jobs[t].name in s.slots && m in s.slots
    requires !OrStale(s.slots[m].view, PublishStep(cfg, s, t, v, retry).slots[m].view)
    ensures
      var (j, w) := (s.jobs[t], PublishStep(cfg, s, t, v, retry).slots[m].view);
      && j.name == m && j.attempt == s.slots[m].attempt && j.stamp == s.Resets(m)
      && SameMade(v, w) && !w.stale && w.generation == s.slots[m].view.generation + 1
  {
    SlotViews(s.slots[m], 0, 0);
    hide OrStale;
    assert Exposed(cfg, s.jobs[t].name, v) == v.(exposure := Exposed(cfg, s.jobs[t].name, v).exposure);
    hide Exposed;
  }

  // ---------------------------------------------------------------------------
  // The served documents
  // ---------------------------------------------------------------------------

  /** Nothing is asked of the publisher and no build is queued or running. */
  ghost predicate Settled(s: Sys) {
    !s.pending && s.builder == Idle && forall t | t in s.jobs :: !s.jobs[t].Notifying? && !s.jobs[t].Building?
  }

  /** Once settled, and unless the last build threw, the served snapshot is keyed by the current views: no change
      before, during or after a build is lost. A pending request always has a build on its way. */
  lemma {:induction false} ServedDocsCurrent(cfg: seq<ExposedModule>, self: string, revalidate: bool, run: seq<Action>)
    requires GoodModules(cfg, self)
    ensures
      var s := Run(cfg, revalidate, run);
      && s.docs.Some? && s.docs.value.key == InputsKey(s.docs.value.inputs)
      && (Settled(s) && !s.thrown ==> s.docs.value.key == InputsKey(Inputs(cfg, s.slots)))
      && PendingOk(s)
  {
    RunKeeps(cfg, self, revalidate, run);
    hide InputsKey, Inputs;
  }

  /** A new snapshot is the next generation and differs in its key from the one it replaces. */
  lemma {:induction false} SnapshotsAdvance(cfg: seq<ExposedModule>, self: string, revalidate: bool, run: seq<Action>, a: Action)
    requires GoodModules(cfg, self)
    ensures
      var (s, s') := (Run(cfg, revalidate, run), Step(cfg, Run(cfg, revalidate, run), a));
      && s.docs.Some? && s'.docs.Some?
      && (s'.docs != s.docs ==>
            s'.docs.value.generation == s.docs.value.generation + 1 && s'.docs.value.key != s.docs.value.key)
  {
    RunKeeps(cfg, self, revalidate, run);
    var s := Run(cfg, revalidate, run);
    hide Inv;
    DocsChange(cfg, s, a);
    hide Step;
  }

  lemma DocsChange(cfg: seq<ExposedModule>, s: Sys, a: Action)
    requires s.docs.Some?
    ensures
      var d := Step(cfg, s, a).docs;
      d == s.docs || (d.Some? && d.value.generation == s.docs.value.generation + 1 && d.value.key != s.docs.value.key)
  {
    hide Go, Answered, FireTimer, InputsKey, Inputs;
    match a
    case Build(throws) =>
    case Advance(t) => if t in s.jobs { GoOutside(cfg, s, t); }
    case Answer(t, r) => if t in s.jobs { AnswerFrame(s, t, r); }
    case Fire(key) => DocsFire(cfg, s, key);
    case _ =>
  }

  lemma DocsFire(cfg: seq<ExposedModule>, s: Sys, key: string)
    ensures FireTimer(cfg, s, key).docs == s.docs
  {
  }
}
