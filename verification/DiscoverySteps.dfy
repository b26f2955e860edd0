/** Every step of DiscoveryRuns keeps the slots and the views in order. */
module DiscoverySteps {
  import opened Prelude
  import opened BridgeConfigs
  import opened ModuleViews
  import opened Discoveries
  import opened DocPublishers
  import opened DiscoveryRuns
  import opened DiscoveryInvariants

  // ---------------------------------------------------------------------------
  // The slots
  // ---------------------------------------------------------------------------

  /** A job that concerns no configured module becomes j. */
  lemma StrayKeeps(cfg: seq<ExposedModule>, s: Sys, s': Sys, t: nat, m: string, j: Option<Job>, n: Option<Job>)
    requires SlotsInv(cfg, s) && m !in s.slots
    requires s'.slots == s.slots && s'.resets == s.resets && s'.publishes == s.publishes
    requires s'.jobs == JobsAfter(s, t, j, n) && s'.next == s.next + B(n.Some?)
    requires forall k | k in s.timers && k in s.slots :: k in s'.timers
    requires (t in s.jobs ==> About(s.jobs[t], m)) && (j.Some? ==> About(j.value, m)) && (n.Some? ==> About(n.value, m))
    requires (t in s.jobs || (t == s.next && j == None)) && JobOk(s', t) && (n.Some? ==> JobOk(s', s.next))
    ensures SlotsInv(cfg, s')
  {
    assert JobOk(s, s.next);
    assert n.None? ==> s.next !in s'.jobs;
    hide SlotsInv, Good;
    StrayGood(s, s', t, m, j, n);
    GoodKeeps(cfg, s, s', t, m);
  }

  lemma GoKeepsNamed(cfg: seq<ExposedModule>, s: Sys, t: nat, m: string)
    requires SlotsInv(cfg, s) && t in s.jobs && !s.jobs[t].Rounding? && !s.jobs[t].Building?
    requires m == s.jobs[t].name && m in s.slots
    ensures Good(s, Go(cfg, s, t), t, m)
  {
    Visible(cfg, s, t, m);
    hide SlotsInv, Good, Handle, EndRead, Compare, Continue, RunRefresh;
    match s.jobs[t]
    case Refreshing(_) => RefreshGood(s, t, m);
    case Resuming(_, _, _, _, _) => ResumeGood(cfg, s, t, m);
    case Handling(_, _, _, stage, r) => HandleGood(cfg, s, t, m);
    case Notifying(_, _) => NotifyGood(cfg, s, t, m);
    case Requesting(_, _) => NotifyGood(cfg, s, t, m);
    case Arming(_) => ArmingGood(cfg, s, t, m);
    case Checked(_, _, _, _) => ReadGood(s, t, m);
    case Comparing(_, _, _, _, _) => CompareGood(s, t, m);
    case Calling(_, _, _, _) => Unchanged(s, t, m);
    case Checking(_, _, _) => Unchanged(s, t, m);
  }

  lemma AnswerResolves(prev: View, stage: Stage, r: Reply)
    requires Fits(stage, r)
    ensures var next := OnAnswer(prev, stage, r); next.Publish? ==> next.view.Resolved()
  {
  }

  lemma HandleGood(cfg: seq<ExposedModule>, s: Sys, t: nat, m: string)
    requires Ready(s, t, m) && t in s.jobs && s.jobs[t].Handling?
    ensures Good(s, Go(cfg, s, t), t, m)
  {
    var j := s.jobs[t];
    assert Fits(j.stage, j.reply);
    AnswerResolves(s.slots[m].view, j.stage, j.reply);
    hide OnAnswer, Fits, Good, PublishStep, MissReport, Ready;
    match OnAnswer(s.slots[m].view, j.stage, j.reply)
    case Miss => MissGood(s, t, m);
    case Ask(stage) => AskGood(s, t, m, stage);
    case Publish(v, retry) => PublishGood(cfg, s, t, m, v, retry);
  }

  ghost predicate SameSlots(s: Sys, s': Sys) {
    s'.slots == s.slots && s'.resets == s.resets && s'.publishes == s.publishes && s'.next == s.next
  }

  ghost predicate StrayStep(s: Sys, s': Sys, t: nat, m: string) {
    && SameSlots(s, s') && s'.jobs == JobsAfter(s, t, At(s', t), None) && s.timers <= s'.timers
    && JobOk(s', t) && (t in s'.jobs ==> About(s'.jobs[t], m))
  }

  lemma StrayContinue(s: Sys, s': Sys, t: nat, m: string, next: Then)
    requires t in s.jobs && (s.jobs[t] == Notifying(m, next) || s.jobs[t] == Requesting(m, next)) && m !in s.slots && JobOk(s, t)
    requires s' == s || s' == s.(timers := s.timers + {DocsTimer})
    ensures StrayStep(s, Continue(s', t, m, next), t, m)
  {
  }

  lemma StrayStays(s: Sys, t: nat, m: string)
    requires t in s.jobs && About(s.jobs[t], m) && JobOk(s, t)
    ensures StrayStep(s, s, t, m) && StrayStep(s, Drop(s, t), t, m)
  {
    assert s.jobs == s.jobs[t := s.jobs[t]];
  }

  lemma GoStray(cfg: seq<ExposedModule>, s: Sys, t: nat, m: string)
    requires t in s.jobs && !s.jobs[t].Rounding? && !s.jobs[t].Building? && m == s.jobs[t].name && m !in s.slots && JobOk(s, t)
    ensures StrayStep(s, Go(cfg, s, t), t, m)
  {
    StrayStays(s, t, m);
    match s.jobs[t]
    case Notifying(_, next) => if s.pending { StrayContinue(s, s, t, m, next); }
    case Requesting(_, next) => StrayContinue(s, s.(timers := s.timers + {DocsTimer}), t, m, next);
    case Arming(_) =>
    case _ =>
      hide RunRefresh, Handle, Visit, EndRead, Compare, StrayStep, Continue;
  }

  lemma GoKeepsStray(cfg: seq<ExposedModule>, s: Sys, t: nat, m: string)
    requires SlotsInv(cfg, s) && t in s.jobs && !s.jobs[t].Rounding? && !s.jobs[t].Building?
    requires m == s.jobs[t].name && m !in s.slots
    ensures SlotsInv(cfg, Go(cfg, s, t))
  {
    assert JobOk(s, t);
    var s' := Go(cfg, s, t);
    GoStray(cfg, s, t, m);
    hide SlotsInv, Go, JobOk;
    StrayKeeps(cfg, s, s', t, m, At(s', t), None);
  }

  lemma RoundGoes(cfg: seq<ExposedModule>, s: Sys, t: nat)
    requires t in s.jobs && s.jobs[t].Rounding? && s.jobs[t].names != []
    ensures Go(cfg, s, t) == Visit(s, t, s.jobs[t].names)
  {
    hide Handle, Compare, EndRead, RunRefresh, Visit, Continue;
  }

  lemma RoundKeeps(cfg: seq<ExposedModule>, s: Sys, t: nat)
    requires SlotsInv(cfg, s) && t in s.jobs && s.jobs[t].Rounding? && RevalidateTimer !in s.slots
    ensures SlotsInv(cfg, Go(cfg, s, t))
  {
    hide SlotsInv, Visit, Good, JobOk, Go, Ready;
    var names := s.jobs[t].names;
    if names != [] && names[0] in s.slots {
      Visible(cfg, s, t, names[0]);
      VisitGood(s, t, names);
      RoundGoes(cfg, s, t);
      GoodKeeps(cfg, s, Visit(s, t, names), t, names[0]);
    } else {
      RoundStray(cfg, s, t);
    }
  }

  lemma RoundStray(cfg: seq<ExposedModule>, s: Sys, t: nat)
    requires SlotsInv(cfg, s) && t in s.jobs && s.jobs[t].Rounding? && RevalidateTimer !in s.slots
    requires s.jobs[t].names == [] || s.jobs[t].names[0] !in s.slots
    ensures SlotsInv(cfg, Go(cfg, s, t))
  {
    var names := s.jobs[t].names;
    assert JobOk(s, t);
    hide SlotsInv;
    var j := if names == [] then None else Some(Rounding(names[1..]));
    StrayKeeps(cfg, s, Go(cfg, s, t), t, RevalidateTimer, j, None);
  }

  lemma GoKeeps(cfg: seq<ExposedModule>, s: Sys, t: nat)
    requires SlotsInv(cfg, s) && t in s.jobs && RevalidateTimer !in s.slots
    ensures SlotsInv(cfg, Go(cfg, s, t))
  {
    hide SlotsInv, Good;
    if s.jobs[t].Rounding? {
      RoundKeeps(cfg, s, t);
    } else if !s.jobs[t].Building? {
      hide Go;
      if s.jobs[t].name in s.slots {
        GoKeepsNamed(cfg, s, t, s.jobs[t].name);
        GoodKeeps(cfg, s, Go(cfg, s, t), t, s.jobs[t].name);
      } else {
        GoKeepsStray(cfg, s, t, s.jobs[t].name);
      }
    }
  }

  lemma AnswerKeeps(cfg: seq<ExposedModule>, s: Sys, t: nat, r: Reply)
    requires SlotsInv(cfg, s) && t in s.jobs
    ensures SlotsInv(cfg, Answered(s, t, r))
  {
    assert JobOk(s, t);
    if s.jobs[t].Calling? || s.jobs[t].Checking? {
      Visible(cfg, s, t, s.jobs[t].name);
      hide SlotsInv, Good, Answered;
      AnsweredGood(s, t, r, s.jobs[t].name);
      GoodKeeps(cfg, s, Answered(s, t, r), t, s.jobs[t].name);
    }
  }

  lemma FireStrayKeeps(cfg: seq<ExposedModule>, s: Sys, key: string, j: Job)
    requires SlotsInv(cfg, s) && key !in s.slots && (j.Rounding? || j.Building? || j == Refreshing(key))
    ensures SlotsInv(cfg, Spawn(s, j)) && SlotsInv(cfg, Spawn(s.(timers := s.timers - {key}), j))
  {
    assert JobOk(s, s.next);
    hide SlotsInv;
    StrayKeeps(cfg, s, Spawn(s, j), s.next, key, None, Some(j));
    StrayKeeps(cfg, s, Spawn(s.(timers := s.timers - {key}), j), s.next, key, None, Some(j));
  }

  lemma FireKeeps(cfg: seq<ExposedModule>, s: Sys, key: string)
    requires SlotsInv(cfg, s) && key in s.timers && RevalidateTimer !in s.slots && DocsTimer !in s.slots
    ensures SlotsInv(cfg, FireTimer(cfg, s, key))
  {
    var s' := FireTimer(cfg, s, key);
    assert JobOk(s, s.next);
    if key in s.slots {
      Visible(cfg, s, s.next, key);
      hide SlotsInv, Good, FireTimer;
      FireGood(cfg, s, key);
      GoodKeeps(cfg, s, s', s.next, key);
    } else {
      assert SlotOk(s, key);
      FireStrayKeeps(cfg, s, key, if key == RevalidateTimer then Rounding(Names(cfg)) else if key == DocsTimer then Building
                                  else Refreshing(key));
    }
  }

  lemma OutsideKeeps(cfg: seq<ExposedModule>, s: Sys, a: Action, m: string)
    requires SlotsInv(cfg, s) && m in s.slots
    requires a.ProviderLost? || a.ProviderArmed? || a.ClientReplacement? || a.FoundUnavailable?
    requires m == a.name
    ensures SlotsInv(cfg, Step(cfg, s, a))
  {
    assert JobOk(s, s.next);
    Visible(cfg, s, s.next, m);
    hide SlotsInv, Good, LoseProvider, ArmProvider, ReplaceClient, GoUnavailable;
    match a
    case ProviderLost(_) => LoseGood(s, m); GoodKeeps(cfg, s, LoseProvider(s, m), s.next, m);
    case ProviderArmed(_, g) => ArmGood(s, m, g); GoodKeeps(cfg, s, ArmProvider(s, m, g), s.next, m);
    case ClientReplacement(_) => ReplaceGood(s, m); GoodKeeps(cfg, s, ReplaceClient(s, m), s.next, m);
    case FoundUnavailable(_) => UnavailableGood(s, m); GoodKeeps(cfg, s, GoUnavailable(s, m), s.next, m);
  }

  lemma BuildFrame(cfg: seq<ExposedModule>, s: Sys, throws: bool)
    ensures
      var s' := BuildStep(cfg, s, throws);
      SameSlots(s, s') && s'.jobs == s.jobs && s'.timers == s.timers
  {
    hide Stored, Inputs;
    match s.builder
    case Idle =>
    case Locked =>
    case Cleared =>
    case Holding(_) =>
  }

  lemma BuildKeeps(cfg: seq<ExposedModule>, s: Sys, throws: bool)
    requires SlotsInv(cfg, s) && RevalidateTimer !in s.slots
    ensures SlotsInv(cfg, BuildStep(cfg, s, throws))
  {
    BuildFrame(cfg, s, throws);
    assert JobOk(s, s.next);
    hide SlotsInv, BuildStep;
    StrayKeeps(cfg, s, BuildStep(cfg, s, throws), s.next, RevalidateTimer, None, None);
  }

  lemma LockKeeps(cfg: seq<ExposedModule>, s: Sys, t: nat)
    requires SlotsInv(cfg, s) && RevalidateTimer !in s.slots && t in s.jobs && s.jobs[t].Building?
    ensures SlotsInv(cfg, Drop(s, t).(builder := Locked))
  {
    var s' := Drop(s, t).(builder := Locked);
    hide SlotsInv;
    StrayKeeps(cfg, s, s', t, RevalidateTimer, None, None);
  }

  lemma StepKeepsSlots(cfg: seq<ExposedModule>, self: string, s: Sys, a: Action)
    requires GoodModules(cfg, self) && SlotsInv(cfg, s)
    ensures SlotsInv(cfg, Step(cfg, s, a))
  {
    FixedKeys(cfg, self, s);
    hide SlotsInv, Go, FireTimer, Answered, LoseProvider, ArmProvider, ReplaceClient, GoUnavailable, BuildStep;
    match a
    case Fire(key) => if key in s.timers { FireKeeps(cfg, s, key); }
    case Lock(t) => if t in s.jobs && s.jobs[t].Building? { LockKeeps(cfg, s, t); }
    case Build(throws) => BuildKeeps(cfg, s, throws);
    case Answer(t, r) => if t in s.jobs { AnswerKeeps(cfg, s, t, r); }
    case Advance(t) => if t in s.jobs { GoKeeps(cfg, s, t); }
    case _ => if a.name in s.slots { OutsideKeeps(cfg, s, a, a.name); }
  }

  // ---------------------------------------------------------------------------
  // The views
  // ---------------------------------------------------------------------------

  ghost predicate OrStale(v: View, w: View) {
    w == v || w == StaleView(v)
  }

  /** The module's view, publish count and name-keyed history are as before, but for staleness. */
  ghost predicate KeepsView(s: Sys, s': Sys, n: string) {
    && (n in s'.slots <==> n in s.slots) && s'.Publishes(n) == s.Publishes(n)
    && (n in s.slots ==> OrStale(s.slots[n].view, s'.slots[n].view))
  }

  lemma StaleOk(cfg: seq<ExposedModule>, s: Sys, s': Sys, n: string)
    requires KeepsView(s, s', n) && ViewOk(cfg, s, n)
    ensures ViewOk(cfg, s', n)
  {
    if n in s.slots {
      var v := s.slots[n].view;
      assert ExposureKept(cfg, n, v, StaleView(v));
    }
  }

  /** Exposure does not depend on staleness, generation, or the exposure recorded so far. */
  ghost predicate ExposureKept(cfg: seq<ExposedModule>, m: string, v: View, w: View) {
    (v.status, v.live, v.contract) == (w.status, w.live, w.contract) && (v.exposure == w.exposure) ==>
      (v.exposure == Exposed(cfg, m, v).exposure <==> w.exposure == Exposed(cfg, m, w).exposure)
  }

  lemma AnswerSound(prev: View, stage: Stage, r: Reply)
    requires Fits(stage, r)
    ensures
      var next := OnAnswer(prev, stage, r);
      next.Publish? ==>
        var v := next.view;
        && v.name == prev.name && v.Resolved() && v.exposure == Hidden
        && (v.status == Ok ==> v.contract.Some? && Consistent(v.contract.value, v.live))
  {
    match stage
    case Interface =>
    case Lidl(_) =>
    case Version(live, c, sha) =>
      ErrorsExactly(c, live, r.runtime);
      hide HasErrors, CrossCheckOf, Consistent;
  }

  lemma PublishedSound(cfg: seq<ExposedModule>, m: string, v: View, generation: nat)
    requires v.name == m && v.exposure == Hidden && (v.status == Ok ==> v.contract.Some? && Consistent(v.contract.value, v.live))
    ensures Sound(cfg, m, Exposed(cfg, m, v).(generation := generation, stale := false))
    requires Find(cfg, m) < |cfg|
  {
    hide Consistent;
  }

  lemma PublishView(cfg: seq<ExposedModule>, s: Sys, t: nat, v: View, retry: bool, n: string)
    requires t in s.jobs && s.jobs[t].Handling? && s.jobs[t].name in s.slots && ViewOk(cfg, s, n)
    requires v.name == s.jobs[t].name && v.exposure == Hidden
    requires v.status == Ok ==> v.contract.Some? && Consistent(v.contract.value, v.live)
    requires Find(cfg, v.name) < |cfg|
    ensures ViewOk(cfg, PublishStep(cfg, s, t, v, retry), n)
  {
    var m := s.jobs[t].name;
    var s' := PublishStep(cfg, s, t, v, retry);
    PublishedSound(cfg, m, v, s.slots[m].view.generation + 1);
    PublishedSlots(cfg, s, t, v, retry);
    hide Sound, Exposed, Consistent, PublishStep;
    if s.slots[m].attempt != s.jobs[t].attempt {
      SameView(s, s', n);
      StaleOk(cfg, s, s', n);
    }
  }

  lemma PublishedSlots(cfg: seq<ExposedModule>, s: Sys, t: nat, v: View, retry: bool)
    requires t in s.jobs && s.jobs[t].Handling? && s.jobs[t].name in s.slots
    ensures
      var (m, s') := (s.jobs[t].name, PublishStep(cfg, s, t, v, retry));
      if s.slots[m].attempt != s.jobs[t].attempt then s'.slots == s.slots && s'.publishes == s.publishes
      else
        && m in s'.slots && s'.slots == s.slots[m := s'.slots[m]] && s'.publishes == s.publishes[m := s.Publishes(m) + 1]
        && s'.slots[m].view == Exposed(cfg, m, v).(generation := s.slots[m].view.generation + 1, stale := false)
  {
    hide Exposed;
  }

  lemma HandleView(cfg: seq<ExposedModule>, s: Sys, t: nat, n: string)
    requires SlotsInv(cfg, s) && ViewsInv(cfg, s)
    requires t in s.jobs && s.jobs[t].Handling? && s.jobs[t].name in s.slots && Fits(s.jobs[t].stage, s.jobs[t].reply)
    ensures ViewOk(cfg, Handle(cfg, s, t), n)
  {
    var j := s.jobs[t];
    assert ViewOk(cfg, s, n) && ViewOk(cfg, s, j.name);
    AnswerSound(s.slots[j.name].view, j.stage, j.reply);
    assert Find(cfg, j.name) < |cfg|;
    MissView(s, t, n);
    hide SlotsInv, ViewsInv, ViewOk, KeepsView, OnAnswer, Fits, PublishStep, MissReport, Consistent, Exposed;
    match OnAnswer(s.slots[j.name].view, j.stage, j.reply)
    case Miss => StaleOk(cfg, s, MissReport(s, t), n);
    case Ask(stage) =>
      var s' := Put(s, t, Calling(j.name, j.attempt, j.stamp, stage));
      SameView(s, s', n);
      StaleOk(cfg, s, s', n);
    case Publish(v, retry) => PublishView(cfg, s, t, v, retry, n);
  }

  lemma MissView(s: Sys, t: nat, n: string)
    requires t in s.jobs && s.jobs[t].Handling? && s.jobs[t].name in s.slots
    ensures KeepsView(s, MissReport(s, t), n)
  {
    var (m, s') := (s.jobs[t].name, MissReport(s, t));
    var (y, go) := Missed(s.slots[m], s.jobs[t].attempt);
    SlotViews(s.slots[m], s.jobs[t].attempt, 0);
    hide KeepsView, OrStale, Missed;
    if go { PutView(s, s', m, y, n); } else { SameView(s, s', n); }
  }

  lemma GoView(cfg: seq<ExposedModule>, s: Sys, t: nat, n: string)
    requires SlotsInv(cfg, s) && ViewsInv(cfg, s) && t in s.jobs
    ensures ViewOk(cfg, Go(cfg, s, t), n)
  {
    assert ViewOk(cfg, s, n);
    if s.jobs[t].Handling? {
      if s.jobs[t].name in s.slots && Fits(s.jobs[t].stage, s.jobs[t].reply) { HandleView(cfg, s, t, n); }
    } else {
      hide SlotsInv, ViewsInv, ViewOk;
      OtherView(cfg, s, t, n);
      StaleOk(cfg, s, Go(cfg, s, t), n);
    }
  }

  /** Only Published() makes a new view. */
  lemma SlotViews(x: Slot, attempt: nat, generation: nat)
    ensures OrStale(x.view, x.view)
    ensures OrStale(x.view, Refreshed(x).view) && OrStale(x.view, Lost(x).view) && OrStale(x.view, Missed(x, attempt).0.view)
    ensures OrStale(x.view, CheckStarted(x).0.view) && OrStale(x.view, CheckEnded(x, attempt).0.view)
    ensures OrStale(x.view, Armed(x, generation).0.view) && OrStale(x.view, ClientReplaced(x).0.view)
    ensures OrStale(x.view, CallUnavailable(x).0.view) && OrStale(x.view, Reread(x, attempt).0.view)
  {
    hide StaleView;
  }

  lemma SameView(s: Sys, s': Sys, n: string)
    requires s'.slots == s.slots && s'.publishes == s.publishes
    ensures KeepsView(s, s', n)
  {
  }

  lemma PutView(s: Sys, s': Sys, m: string, y: Slot, n: string)
    requires m in s.slots && s'.slots == s.slots[m := y] && s'.publishes == s.publishes && OrStale(s.slots[m].view, y.view)
    ensures KeepsView(s, s', n)
  {
    if n in s.slots && n != m {
      assert OrStale(s.slots[n].view, s'.slots[n].view);
    }
  }

  lemma QuietView(cfg: seq<ExposedModule>, s: Sys, t: nat, n: string)
    requires t in s.jobs
    requires var j := s.jobs[t]; j.Resuming? || j.Notifying? || j.Requesting? || j.Arming? || j.Calling? || j.Checking? || j.Building?
    ensures KeepsView(s, Go(cfg, s, t), n)
  {
    hide KeepsView, Handle, RunRefresh, Visit, EndRead, Compare;
    SameView(s, Go(cfg, s, t), n);
  }

  lemma OtherView(cfg: seq<ExposedModule>, s: Sys, t: nat, n: string)
    requires t in s.jobs && !s.jobs[t].Handling?
    ensures KeepsView(s, Go(cfg, s, t), n)
  {
    hide KeepsView, OrStale, Handle, RunRefresh, Visit, EndRead, Compare, Continue;
    SameView(s, Drop(s, t), n);
    hide Drop, Put;
    match s.jobs[t]
    case Refreshing(m) => if m in s.slots { RefreshView(s, t, m, n); }
    case Comparing(m, _, _, _, _) => if m in s.slots { CompareView(s, t, n); }
    case Checked(m, _, _, _) => if m in s.slots { ReadView(s, t, n); }
    case Rounding(names) => if names != [] { VisitView(s, t, names, n); }
    case Handling(_, _, _, _, _) =>
    case _ => QuietView(cfg, s, t, n);
  }

  lemma RefreshView(s: Sys, t: nat, m: string, n: string)
    requires m in s.slots
    ensures KeepsView(s, RunRefresh(s, t, m), n)
  {
    SlotViews(s.slots[m], 0, 0);
    PutView(s, RunRefresh(s, t, m), m, Refreshed(s.slots[m]), n);
  }

  lemma VisitView(s: Sys, t: nat, names: seq<string>, n: string)
    requires names != []
    ensures KeepsView(s, Visit(s, t, names), n)
  {
    var m := names[0];
    hide KeepsView, OrStale, CheckStarted;
    if m in s.slots && CheckStarted(s.slots[m]).1 {
      SlotViews(s.slots[m], 0, 0);
      PutView(s, Visit(s, t, names), m, CheckStarted(s.slots[m]).0, n);
    } else {
      SameView(s, Visit(s, t, names), n);
    }
  }

  lemma ReadView(s: Sys, t: nat, n: string)
    requires t in s.jobs && s.jobs[t].Checked? && s.jobs[t].name in s.slots
    ensures KeepsView(s, EndRead(s, t), n)
  {
    var j := s.jobs[t];
    hide KeepsView, OrStale, CheckEnded;
    SlotViews(s.slots[j.name], j.attempt, 0);
    PutView(s, EndRead(s, t), j.name, CheckEnded(s.slots[j.name], j.attempt).0, n);
  }

  lemma CompareView(s: Sys, t: nat, n: string)
    requires t in s.jobs && s.jobs[t].Comparing? && s.jobs[t].name in s.slots
    ensures KeepsView(s, Compare(s, t), n)
  {
    var (j, s') := (s.jobs[t], Compare(s, t));
    hide KeepsView, OrStale, Revalidate, CallUnavailable, Reread;
    SlotViews(s.slots[j.name], j.attempt, 0);
    match Revalidate(j.seen, j.report)
    case Keep => SameView(s, s', n);
    case MarkStale =>
      var (y, go) := CallUnavailable(s.slots[j.name]);
      if go { PutView(s, s', j.name, y, n); } else { SameView(s, s', n); }
    case Refresh =>
      var (y, go) := Reread(s.slots[j.name], j.attempt);
      if go { PutView(s, s', j.name, y, n); } else { SameView(s, s', n); }
  }

  lemma StepViews(cfg: seq<ExposedModule>, s: Sys, a: Action)
    requires SlotsInv(cfg, s) && ViewsInv(cfg, s)
    ensures ViewsInv(cfg, Step(cfg, s, a))
  {
    var s' := Step(cfg, s, a);
    forall n ensures ViewOk(cfg, s', n) {
      assert ViewOk(cfg, s, n);
      if a.Advance? {
        if a.job in s.jobs { GoView(cfg, s, a.job, n); }
      } else {
        hide SlotsInv, ViewsInv, ViewOk;
        OutsideView(cfg, s, a, n);
        StaleOk(cfg, s, s', n);
      }
    }
  }

  lemma OutsideView(cfg: seq<ExposedModule>, s: Sys, a: Action, n: string)
    requires !a.Advance?
    ensures KeepsView(s, Step(cfg, s, a), n)
  {
    var s' := Step(cfg, s, a);
    hide KeepsView, OrStale, Go, Answered, FireTimer, BuildStep, LoseProvider, ArmProvider, ReplaceClient, GoUnavailable;
    match a
    case Build(throws) => BuildFrame(cfg, s, throws); SameView(s, s', n);
    case Answer(t, r) => if t in s.jobs { AnswerFrame(s, t, r); } SameView(s, s', n);
    case Fire(key) => FireFrame(cfg, s, key); SameView(s, s', n);
    case Lock(_) => SameView(s, s', n);
    case Advance(_) =>
    case _ => if a.name in s.slots { LossView(s, a, n); } else { SameView(s, s', n); }
  }

  lemma AnswerFrame(s: Sys, t: nat, r: Reply)
    requires t in s.jobs
    ensures Answered(s, t, r) == s.(jobs := Answered(s, t, r).jobs)
  {
    hide Fits;
  }

  lemma FireFrame(cfg: seq<ExposedModule>, s: Sys, key: string)
    ensures FireTimer(cfg, s, key).slots == s.slots && FireTimer(cfg, s, key).publishes == s.publishes
  {
  }

  lemma LossView(s: Sys, a: Action, n: string)
    requires a.ProviderLost? || a.ProviderArmed? || a.ClientReplacement? || a.FoundUnavailable?
    requires a.name in s.slots
    ensures KeepsView(s, LoseProvider(s, a.name), n) && KeepsView(s, ReplaceClient(s, a.name), n)
    ensures KeepsView(s, GoUnavailable(s, a.name), n)
    ensures a.ProviderArmed? ==> KeepsView(s, ArmProvider(s, a.name, a.generation), n)
  {
    var (m, x) := (a.name, s.slots[a.name]);
    hide KeepsView, OrStale, Lost, ClientReplaced;
    SlotViews(x, 0, 0);
    PutView(s, LoseProvider(s, m), m, Lost(x), n);
    PutView(s, ReplaceClient(s, m), m, ClientReplaced(x).0, n);
    UnavailableView(s, m, n);
    if a.ProviderArmed? {
      ArmView(s, m, a.generation, n);
    }
  }

  lemma UnavailableView(s: Sys, m: string, n: string)
    requires m in s.slots
    ensures KeepsView(s, GoUnavailable(s, m), n)
  {
    SlotViews(s.slots[m], 0, 0);
    hide KeepsView, OrStale, CallUnavailable;
    if CallUnavailable(s.slots[m]).1 {
      PutView(s, GoUnavailable(s, m), m, CallUnavailable(s.slots[m]).0, n);
    } else {
      SameView(s, GoUnavailable(s, m), n);
    }
  }

  lemma ArmView(s: Sys, m: string, g: nat, n: string)
    requires m in s.slots
    ensures KeepsView(s, ArmProvider(s, m, g), n)
  {
    SlotViews(s.slots[m], 0, g);
    hide KeepsView, OrStale, Armed;
    PutView(s, ArmProvider(s, m, g), m, Armed(s.slots[m], g).0, n);
  }
}
