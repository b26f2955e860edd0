/** Revalidation: every settled module is read again, one read at a time. */
module DiscoveryReads {
  import opened Prelude
  import opened BridgeConfigs
  import opened ModuleViews
  import opened Discoveries
  import opened DocPublishers
  import opened DiscoveryRuns
  import opened DiscoveryInvariants
  import opened DiscoverySteps
  import opened DiscoveryTheorems
  import opened DiscoveryHistory

  // ---------------------------------------------------------------------------
  // Revalidation reads
  // ---------------------------------------------------------------------------

  predicate IsRead(j: Job, m: string) {
    (j.Checking? || j.Checked?) && j.name == m
  }

  ghost predicate ReadsAt(s: Sys, t: nat, m: string) {
    t in s.jobs && IsRead(s.jobs[t], m)
  }

  /** A module being checked has one read out, and no other module has any. */
  ghost predicate ReadOk(s: Sys, m: string) {
    && (forall t, u | ReadsAt(s, t, m) && ReadsAt(s, u, m) :: t == u)
    && (m in s.slots ==> (s.slots[m].checking <==> exists t :: ReadsAt(s, t, m)))
  }

  predicate SameChecking(s: Sys, s': Sys, m: string) {
    (m in s'.slots <==> m in s.slots) && (m in s.slots ==> s'.slots[m].checking == s.slots[m].checking)
  }

  /** One job moved, a new one came, and none of them reads the module. */
  ghost predicate NoNewRead(s: Sys, s': Sys, t: nat, m: string) {
    && SameChecking(s, s', m) && !ReadsAt(s, t, m) && !ReadsAt(s', t, m) && !ReadsAt(s, s.next, m) && !ReadsAt(s', s.next, m)
    && (forall u {:trigger u in s'.jobs} {:trigger u in s.jobs} ::
          u != t && u != s.next ==> (u in s'.jobs <==> u in s.jobs) && (u in s.jobs ==> s'.jobs[u] == s.jobs[u]))
  }

  lemma SameReads(s: Sys, s': Sys, t: nat, m: string)
    requires ReadOk(s, m) && NoNewRead(s, s', t, m)
    ensures ReadOk(s', m)
  {
    forall u ensures ReadsAt(s', u, m) <==> ReadsAt(s, u, m) {
      if u != t && u != s.next {
        assert u in s'.jobs <==> u in s.jobs;
      }
    }
  }

  /** A slot changed, and at most one job came. */
  lemma SlotReads(s: Sys, s': Sys, n: string, y: Slot, m: string)
    requires n in s.slots && s'.slots == s.slots[n := y] && y.checking == s.slots[n].checking && s.next !in s.jobs
    requires s'.jobs == s.jobs || (s.next in s'.jobs && s'.jobs == s.jobs[s.next := s'.jobs[s.next]] && !IsRead(s'.jobs[s.next], m))
    ensures NoNewRead(s, s', s.next, m)
  {
  }

  lemma LoseReads(s: Sys, n: string, m: string)
    requires s.next !in s.jobs && n in s.slots
    ensures NoNewRead(s, LoseProvider(s, n), s.next, m)
  {
    SlotChecks(s.slots[n], 0);
    hide Lost, NoNewRead;
    SlotReads(s, LoseProvider(s, n), n, Lost(s.slots[n]), m);
  }

  lemma ArmReads(s: Sys, n: string, g: nat, m: string)
    requires s.next !in s.jobs && n in s.slots
    ensures NoNewRead(s, ArmProvider(s, n, g), s.next, m)
  {
    SlotChecks(s.slots[n], g);
    hide Armed, NoNewRead;
    SlotReads(s, ArmProvider(s, n, g), n, Armed(s.slots[n], g).0, m);
  }

  lemma ReplaceReads(s: Sys, n: string, m: string)
    requires s.next !in s.jobs && n in s.slots
    ensures NoNewRead(s, ReplaceClient(s, n), s.next, m)
  {
    SlotChecks(s.slots[n], 0);
    hide ClientReplaced, NoNewRead;
    SlotReads(s, ReplaceClient(s, n), n, ClientReplaced(s.slots[n]).0, m);
  }

  lemma UnavailableReads(s: Sys, n: string, m: string)
    requires s.next !in s.jobs && n in s.slots
    ensures NoNewRead(s, GoUnavailable(s, n), s.next, m)
  {
    var x := s.slots[n];
    SlotChecks(x, 0);
    assert s.slots == s.slots[n := x];
    hide CallUnavailable, NoNewRead;
    SlotReads(s, GoUnavailable(s, n), n, if CallUnavailable(x).1 then CallUnavailable(x).0 else x, m);
  }

  lemma LossReads(cfg: seq<ExposedModule>, s: Sys, a: Action, m: string)
    requires s.next !in s.jobs
    requires a.ProviderLost? || a.ProviderArmed? || a.ClientReplacement? || a.FoundUnavailable?
    requires a.name in s.slots
    ensures NoNewRead(s, Step(cfg, s, a), s.next, m)
  {
    hide Go, Answered, FireTimer, BuildStep, LoseProvider, ArmProvider, ReplaceClient, GoUnavailable, NoNewRead;
    match a
    case ProviderLost(n) => LoseReads(s, n, m);
    case ProviderArmed(n, g) => ArmReads(s, n, g, m);
    case ClientReplacement(n) => ReplaceReads(s, n, m);
    case FoundUnavailable(n) => UnavailableReads(s, n, m);
    case _ =>
  }

  lemma SlotChecks(x: Slot, generation: nat)
    ensures Lost(x).checking == x.checking && Armed(x, generation).0.checking == x.checking
    ensures ClientReplaced(x).0.checking == x.checking && CallUnavailable(x).0.checking == x.checking
  {
  }

  lemma FireReads(cfg: seq<ExposedModule>, s: Sys, key: string, m: string)
    requires s.next !in s.jobs
    ensures NoNewRead(s, FireTimer(cfg, s, key), s.next, m)
  {
  }

  lemma LockReads(cfg: seq<ExposedModule>, s: Sys, t: nat, m: string)
    requires s.next !in s.jobs && t in s.jobs && s.jobs[t].Building? && s.builder.Idle?
    ensures NoNewRead(s, Step(cfg, s, Lock(t)), t, m)
  {
  }

  lemma AnsweredReads(s: Sys, t: nat, r: Reply, m: string)
    requires t in s.jobs && ReadOk(s, m)
    ensures ReadOk(Answered(s, t, r), m)
  {
    hide Fits;
    var s' := Answered(s, t, r);
    forall u ensures ReadsAt(s', u, m) <==> ReadsAt(s, u, m) {
    }
  }

  lemma HandleReads(cfg: seq<ExposedModule>, s: Sys, t: nat, m: string)
    requires s.next !in s.jobs
    requires t in s.jobs && s.jobs[t].Handling? && s.jobs[t].name in s.slots && Fits(s.jobs[t].stage, s.jobs[t].reply)
    ensures NoNewRead(s, Handle(cfg, s, t), t, m)
  {
    hide OnAnswer, Fits, Exposed;
    match OnAnswer(s.slots[s.jobs[t].name].view, s.jobs[t].stage, s.jobs[t].reply)
    case Miss =>
    case Ask(_) =>
    case Publish(v, retry) => PublishReads(cfg, s, t, v, retry, m); hide PublishStep;
  }

  lemma PublishReads(cfg: seq<ExposedModule>, s: Sys, t: nat, v: View, retry: bool, m: string)
    requires s.next !in s.jobs && t in s.jobs && s.jobs[t].Handling? && s.jobs[t].name in s.slots
    ensures NoNewRead(s, PublishStep(cfg, s, t, v, retry), t, m)
  {
    hide Exposed;
  }

  lemma CompareReads(s: Sys, t: nat, m: string)
    requires s.next !in s.jobs && t in s.jobs && s.jobs[t].Comparing? && s.jobs[t].name in s.slots
    ensures NoNewRead(s, Compare(s, t), t, m)
  {
    hide Revalidate, StaleView;
    match Revalidate(s.jobs[t].seen, s.jobs[t].report)
    case Keep =>
    case MarkStale =>
    case Refresh =>
  }

  lemma RefreshReads(s: Sys, t: nat, n: string, m: string)
    requires s.next !in s.jobs && t in s.jobs && s.jobs[t].Refreshing? && n in s.slots
    ensures NoNewRead(s, RunRefresh(s, t, n), t, m)
  {
  }

  lemma ContinueReads(s: Sys, timers: set<string>, t: nat, n: string, next: Then, m: string)
    requires s.next !in s.jobs && t in s.jobs && !ReadsAt(s, t, m)
    ensures NoNewRead(s, Continue(s.(timers := timers), t, n, next), t, m)
  {
  }

  /** A settled module that is not being read is read now; any other is left alone. */
  lemma VisitOutcome(s: Sys, t: nat, names: seq<string>)
    requires s.next !in s.jobs && t in s.jobs && names != []
    ensures
      var (m, s') := (names[0], Visit(s, t, names));
      && t in s'.jobs && s'.jobs[t] == Rounding(names[1..])
      && if m in s.slots && AtRest(s.slots[m]) && !s.slots[m].checking && s.slots[m].view.Resolved() then
           && s'.slots == s.slots[m := s.slots[m].(checking := true)]
           && s'.jobs == s.jobs[t := Rounding(names[1..])][s.next := Checking(m, s.slots[m].attempt, s.Resets(m))]
         else s'.slots == s.slots && s'.jobs == s.jobs[t := Rounding(names[1..])]
  {
  }

  /** The read is compared with the view of the moment only when no attempt began since it did and none is due. */
  lemma ReadOutcome(s: Sys, t: nat)
    requires t in s.jobs && s.jobs[t].Checked? && s.jobs[t].name in s.slots
    ensures
      var (j, s') := (s.jobs[t], EndRead(s, t));
      var x := s.slots[j.name];
      && s'.slots == s.slots[j.name := x.(checking := false)]
      && s'.jobs == if x.attempt == j.attempt && AtRest(x) then
                      s.jobs[t := Comparing(j.name, j.attempt, j.stamp, x.view, j.report)]
                    else s.jobs - {t}
  {
    var x := s.slots[s.jobs[t].name];
    assert CheckEnded(x, s.jobs[t].attempt) == (x.(checking := false), x.attempt == s.jobs[t].attempt && AtRest(x));
    hide CheckEnded, AtRest;
  }

  lemma VisitReads(s: Sys, t: nat, names: seq<string>, m: string)
    requires s.next !in s.jobs && t in s.jobs && s.jobs[t].Rounding? && names != [] && ReadOk(s, m)
    ensures ReadOk(Visit(s, t, names), m)
  {
    var s' := Visit(s, t, names);
    VisitOutcome(s, t, names);
    hide Visit, AtRest;
    if s'.slots == s.slots || names[0] != m {
      SameReads(s, s', t, m);
    } else {
      assert ReadsAt(s', s.next, m);
      forall u ensures u != s.next ==> (ReadsAt(s', u, m) <==> ReadsAt(s, u, m)) {
      }
    }
  }

  lemma EndReads(s: Sys, t: nat, m: string)
    requires s.next !in s.jobs && t in s.jobs && s.jobs[t].Checked? && s.jobs[t].name in s.slots && ReadOk(s, m)
    ensures ReadOk(EndRead(s, t), m)
  {
    var s' := EndRead(s, t);
    ReadOutcome(s, t);
    hide EndRead, AtRest;
    if s.jobs[t].name == m {
      assert ReadsAt(s, t, m);
      forall u ensures u != t ==> (ReadsAt(s', u, m) <==> ReadsAt(s, u, m)) {
      }
    } else {
      SameReads(s, s', t, m);
    }
  }

  lemma GoReads(cfg: seq<ExposedModule>, s: Sys, t: nat, m: string)
    requires s.next !in s.jobs && t in s.jobs && ReadOk(s, m)
    requires s.jobs[t].Checked? ==> s.jobs[t].name in s.slots
    ensures ReadOk(Go(cfg, s, t), m)
  {
    hide Handle, Compare, EndRead, Visit, RunRefresh, Continue, Fits, ReadOk, NoNewRead;
    match s.jobs[t]
    case Refreshing(n) => if n in s.slots { RefreshReads(s, t, n, m); SameReads(s, RunRefresh(s, t, n), t, m); } else { DropReads(s, t, m); }
    case Resuming(_, _, _, _, _) => MoveReads(cfg, s, t, m);
    case Handling(n, _, _, stage, r) =>
      if n in s.slots && Fits(stage, r) { HandleReads(cfg, s, t, m); SameReads(s, Handle(cfg, s, t), t, m); } else { DropReads(s, t, m); }
    case Notifying(n, next) =>
      if s.pending {
        ContinueReads(s, s.timers, t, n, next, m);
        SameReads(s, Continue(s, t, n, next), t, m);
      } else {
        MoveReads(cfg, s, t, m);
      }
    case Requesting(n, next) =>
      ContinueReads(s, s.timers + {DocsTimer}, t, n, next, m);
      SameReads(s, Continue(s.(timers := s.timers + {DocsTimer}), t, n, next), t, m);
    case Arming(_) => MoveReads(cfg, s, t, m);
    case Rounding(names) => if names != [] { VisitReads(s, t, names, m); } else { DropReads(s, t, m); }
    case Checked(_, _, _, _) => EndReads(s, t, m);
    case Comparing(n, _, _, _, _) =>
      if n in s.slots { CompareReads(s, t, m); SameReads(s, Compare(s, t), t, m); } else { DropReads(s, t, m); }
    case _ =>
  }

  lemma DropReads(s: Sys, t: nat, m: string)
    requires s.next !in s.jobs && t in s.jobs && !s.jobs[t].Checking? && !s.jobs[t].Checked? && ReadOk(s, m)
    ensures ReadOk(Drop(s, t), m)
  {
    SameReads(s, Drop(s, t), t, m);
  }

  lemma MoveReads(cfg: seq<ExposedModule>, s: Sys, t: nat, m: string)
    requires s.next !in s.jobs && t in s.jobs && ReadOk(s, m)
    requires s.jobs[t].Resuming? || (s.jobs[t].Notifying? && !s.pending) || s.jobs[t].Arming?
    ensures ReadOk(Go(cfg, s, t), m)
  {
    hide Handle, Compare, EndRead, Visit, RunRefresh, Continue, Fits;
    SameReads(s, Go(cfg, s, t), t, m);
  }

  lemma StepReads(cfg: seq<ExposedModule>, s: Sys, a: Action, m: string)
    requires SlotsInv(cfg, s) && ReadOk(s, m)
    ensures ReadOk(Step(cfg, s, a), m)
  {
    Fresh(cfg, s);
    if a.Advance? { ReadsOfModules(cfg, s, a.job); }
    hide SlotsInv, ReadOk, NoNewRead, Go, Answered, FireTimer, BuildStep, LoseProvider, ArmProvider, ReplaceClient, GoUnavailable;
    match a
    case Advance(t) => if t in s.jobs { GoReads(cfg, s, t, m); }
    case Build(throws) => BuildFrame(cfg, s, throws); SameJobs(s, Step(cfg, s, a), m);
    case Answer(t, r) => if t in s.jobs { AnsweredReads(s, t, r, m); }
    case Fire(key) => if key in s.timers { FireReads(cfg, s, key, m); SameReads(s, FireTimer(cfg, s, key), s.next, m); }
    case Lock(t) =>
      if t in s.jobs && s.jobs[t].Building? && s.builder.Idle? { LockReads(cfg, s, t, m); SameReads(s, Step(cfg, s, a), t, m); }
    case _ => if a.name in s.slots { LossReads(cfg, s, a, m); SameReads(s, Step(cfg, s, a), s.next, m); }
  }

  lemma ReadsOfModules(cfg: seq<ExposedModule>, s: Sys, t: nat)
    requires SlotsInv(cfg, s)
    ensures t in s.jobs && s.jobs[t].Checked? ==> s.jobs[t].name in s.slots
  {
    assert JobOk(s, t);
  }

  lemma SameJobs(s: Sys, s': Sys, m: string)
    requires ReadOk(s, m) && s'.jobs == s.jobs && s'.slots == s.slots
    ensures ReadOk(s', m)
  {
    assert forall t :: ReadsAt(s', t, m) <==> ReadsAt(s, t, m);
  }

  /** At every moment at most one revalidation read of a module is out, and one is exactly while the module says it
      is being checked: no read is doubled and no module is left unread for good. */
  lemma {:induction false} OneReadEach(cfg: seq<ExposedModule>, self: string, revalidate: bool, run: seq<Action>, m: string)
    requires GoodModules(cfg, self)
    ensures ReadOk(Run(cfg, revalidate, run), m)
  {
    if run == [] {
      assert forall t :: !ReadsAt(Start(cfg, revalidate), t, m);
    } else {
      hide ReadOk, Step, Inv;
      RunKeeps(cfg, self, revalidate, run[..|run| - 1]);
      OneReadEach(cfg, self, revalidate, run[..|run| - 1], m);
      InvSlots(cfg, Run(cfg, revalidate, run[..|run| - 1]));
      StepReads(cfg, Run(cfg, revalidate, run[..|run| - 1]), run[|run| - 1], m);
    }
  }

  lemma InvSlots(cfg: seq<ExposedModule>, s: Sys)
    requires Inv(cfg, s)
    ensures SlotsInv(cfg, s)
  {
  }

  /** Once revalidation is on, its timer is always set, and firing it starts a round over every module. */
  lemma {:induction false} RevalidationStaysOn(cfg: seq<ExposedModule>, run: seq<Action>)
    ensures
      var s := Run(cfg, true, run);
      && RevalidateTimer in s.timers
      && s.next in Step(cfg, s, Fire(RevalidateTimer)).jobs
      && Step(cfg, s, Fire(RevalidateTimer)).jobs[s.next] == Rounding(Names(cfg))
  {
    if run != [] {
      var (before, a) := (run[..|run| - 1], run[|run| - 1]);
      RevalidationStaysOn(cfg, before);
      TimerStays(cfg, Run(cfg, true, before), a);
      hide Step;
      FireRounds(cfg, Run(cfg, true, run));
    }
  }

  lemma TimerStays(cfg: seq<ExposedModule>, s: Sys, a: Action)
    requires RevalidateTimer in s.timers
    ensures RevalidateTimer in Step(cfg, s, a).timers
  {
    hide Go, BuildStep, Answered;
    if !a.Fire? {
      TimersGrow(cfg, s, a);
      hide Step;
    }
  }

  lemma FireRounds(cfg: seq<ExposedModule>, s: Sys)
    requires RevalidateTimer in s.timers
    ensures
      var s' := Step(cfg, s, Fire(RevalidateTimer));
      s.next in s'.jobs && s'.jobs[s.next] == Rounding(Names(cfg))
  {
    hide Go, BuildStep, Answered;
  }
}
