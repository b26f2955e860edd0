/** What a module's slot says of its past, read off the events alone: which answers an attempt had, and what put
    the module in doubt since. */
module DiscoveryHistory {
  import opened Prelude
  import opened BridgeConfigs
  import opened ModuleViews
  import opened Discoveries
  import opened DocPublishers
  import opened DiscoveryRuns
  import opened DiscoveryInvariants
  import opened DiscoverySteps
  import opened DocumentInvariants
  import opened DiscoveryTheorems

  /** Why a module's view is in doubt. */
  datatype Doubt = Gone | Restarted | Replaced | Unreachable | Changed

  /** What a step means for one module. */
  datatype Event = Nothing | InDoubt(why: Doubt) | NoReport | Shown(retry: bool)

  predicate AtRest(x: Slot) {
    !x.inFlight && !x.retryArmed
  }

  predicate IsUnreachable(error: string) {
    error == "object_unavailable" || error == "timeout" || error == "transport_error"
  }

  /** A re-read report of a settled module: no answer or nonsense, or another report than the view's. */
  predicate Unanswered(r: InterfaceReply) {
    r.NotAList? || (r.Failed? && IsUnreachable(r.error))
  }

  predicate Differs(seen: View, r: InterfaceReply) {
    r.Report? && r.live.digest != seen.live.digest
  }

  /** What an attempt asks next: lidl() when it is listed, then version() of a contract that reads. */
  function Question(stage: Stage, r: Reply): Option<Stage> {
    match r
    case OfInterface(i) => if i.Report? && LidlPresent(i.live) then Some(Lidl(i.live)) else None
    case OfLidl(l) => if stage.Lidl? && l.Contract? then Some(Version(stage.live, l.contract, l.sha256)) else None
    case OfVersion(_) => None
  }

  /** The last answer an attempt waits for shows a view; no report at all misses it. */
  function Answers(stage: Stage, r: Reply): Event {
    if Question(stage, r).Some? then Nothing
    else if r.OfInterface? && !r.interface.Report? then NoReport
    else Shown(r.OfLidl? && r.lidl.CallFailed?)
  }

  function JobEvent(x: Slot, j: Job, m: string): Event {
    match j
    case Handling(n, attempt, _, stage, r) =>
      if n == m && attempt == x.attempt && Fits(stage, r) then Answers(stage, r) else Nothing
    case Comparing(n, attempt, _, seen, r) =>
      if n != m || !AtRest(x) || !seen.Resolved() then Nothing
      else if Unanswered(r) then InDoubt(Unreachable)
      else if Differs(seen, r) && attempt == x.attempt then InDoubt(Changed)
      else Nothing
    case _ => Nothing
  }

  function EventOf(s: Sys, a: Action, m: string): Event
    requires m in s.slots
  {
    var x := s.slots[m];
    match a
    case ProviderLost(n) => if n == m then InDoubt(Gone) else Nothing
    case ProviderArmed(n, g) => if n == m && 0 < x.armedGeneration < g then InDoubt(Restarted) else Nothing
    case ClientReplacement(n) => if n == m then InDoubt(Replaced) else Nothing
    case FoundUnavailable(n) => if n == m && AtRest(x) then InDoubt(Unreachable) else Nothing
    case Advance(t) => if t in s.jobs then JobEvent(x, s.jobs[t], m) else Nothing
    case _ => Nothing
  }

  function FailuresAfter(failures: nat, e: Event): nat {
    match e
    case InDoubt(why) => if why == Gone || why == Unreachable then 1 else failures
    case NoReport => failures + 1
    case Shown(retry) => if retry then failures + 1 else 0
    case Nothing => failures
  }

  function ArmedAfter(armed: nat, a: Action, m: string): nat {
    if a == ClientReplacement(m) then 0
    else if a.ProviderArmed? && a.name == m && a.generation > armed then a.generation
    else armed
  }

  /** The slot moved as the event says. */
  ghost predicate Follows(x: Slot, y: Slot, e: Event, armed: nat) {
    && (y.view.Resolved() <==> x.view.Resolved() || e.Shown?)
    && y.view.stale == (if e.InDoubt? then x.view.Resolved() else if e.Shown? then false else x.view.stale)
    && y.failures == FailuresAfter(x.failures, e)
    && y.armedGeneration == armed
  }

  ghost predicate Moved(s: Sys, s': Sys, a: Action, m: string)
    requires m in s.slots
  {
    m in s'.slots && Follows(s.slots[m], s'.slots[m], EventOf(s, a, m), ArmedAfter(s.slots[m].armedGeneration, a, m))
  }

  // ---------------------------------------------------------------------------
  // Every step follows its event
  // ---------------------------------------------------------------------------

  lemma StillMoved(s: Sys, s': Sys, a: Action, m: string)
    requires m in s.slots && m in s'.slots && s'.slots[m] == s.slots[m]
    requires EventOf(s, a, m) == Nothing && ArmedAfter(s.slots[m].armedGeneration, a, m) == s.slots[m].armedGeneration
    ensures Moved(s, s', a, m)
  {
  }

  lemma SlotFollows(x: Slot, generation: nat)
    requires x.view.stale ==> x.view.Resolved()
    ensures Follows(x, Lost(x), InDoubt(Gone), x.armedGeneration)
    ensures Follows(x, ClientReplaced(x).0, InDoubt(Replaced), 0)
    ensures AtRest(x) ==> Follows(x, CallUnavailable(x).0, InDoubt(Unreachable), x.armedGeneration)
    ensures !AtRest(x) ==> CallUnavailable(x).0 == x
    ensures Follows(x, Armed(x, generation).0, if 0 < x.armedGeneration < generation then InDoubt(Restarted) else Nothing,
                    if generation > x.armedGeneration then generation else x.armedGeneration)
  {
  }

  /** The view is in doubt only once it has been shown. */
  predicate DoubtsOnlyShown(x: Slot) {
    x.view.stale ==> x.view.Resolved()
  }

  lemma LostMoved(cfg: seq<ExposedModule>, s: Sys, m: string)
    requires m in s.slots && DoubtsOnlyShown(s.slots[m])
    ensures Moved(s, LoseProvider(s, m), ProviderLost(m), m)
  {
    SlotFollows(s.slots[m], 0);
    hide Follows, Lost;
  }

  lemma ArmedMoved(cfg: seq<ExposedModule>, s: Sys, m: string, g: nat)
    requires m in s.slots && DoubtsOnlyShown(s.slots[m])
    ensures Moved(s, ArmProvider(s, m, g), ProviderArmed(m, g), m)
  {
    SlotFollows(s.slots[m], g);
    hide Follows, Armed;
  }

  lemma ReplacedMoved(cfg: seq<ExposedModule>, s: Sys, m: string)
    requires m in s.slots && DoubtsOnlyShown(s.slots[m])
    ensures Moved(s, ReplaceClient(s, m), ClientReplacement(m), m)
  {
    SlotFollows(s.slots[m], 0);
    hide Follows, ClientReplaced;
  }

  lemma UnavailableMoved(cfg: seq<ExposedModule>, s: Sys, m: string)
    requires m in s.slots && DoubtsOnlyShown(s.slots[m])
    ensures Moved(s, GoUnavailable(s, m), FoundUnavailable(m), m)
  {
    SlotFollows(s.slots[m], 0);
    UnavailableGoes(s.slots[m]);
    hide CallUnavailable;
    if AtRest(s.slots[m]) {
      hide Follows;
    }
  }

  lemma UnavailableGoes(x: Slot)
    ensures CallUnavailable(x).1 <==> AtRest(x)
  {
  }

  lemma OutsideMoved(cfg: seq<ExposedModule>, s: Sys, a: Action, m: string)
    requires m in s.slots && DoubtsOnlyShown(s.slots[m])
    requires a.ProviderLost? || a.ProviderArmed? || a.ClientReplacement? || a.FoundUnavailable?
    ensures Moved(s, Step(cfg, s, a), a, m)
  {
    hide Moved, LoseProvider, ArmProvider, ReplaceClient, GoUnavailable, Go, Answered, FireTimer, BuildStep;
    if a.name != m {
      OutsideOther(cfg, s, a, m);
      hide Step;
      StillMoved(s, Step(cfg, s, a), a, m);
    } else {
      match a
      case ProviderLost(_) => LostMoved(cfg, s, m);
      case ProviderArmed(_, g) => ArmedMoved(cfg, s, m, g);
      case ClientReplacement(_) => ReplacedMoved(cfg, s, m);
      case FoundUnavailable(_) => UnavailableMoved(cfg, s, m);
      case _ =>
    }
  }

  lemma OutsideOther(cfg: seq<ExposedModule>, s: Sys, a: Action, m: string)
    requires a.ProviderLost? || a.ProviderArmed? || a.ClientReplacement? || a.FoundUnavailable?
    requires m in s.slots && a.name != m
    ensures m in Step(cfg, s, a).slots && Step(cfg, s, a).slots[m] == s.slots[m]
  {
    hide Lost, ClientReplaced, CallUnavailable, Armed, Go, Answered, FireTimer, BuildStep;
  }

  // ---------------------------------------------------------------------------
  // An attempt's answers
  // ---------------------------------------------------------------------------

  /** The slot once a view has been published from the answer. */
  ghost predicate PublishedAs(x: Slot, y: Slot, stage: Stage, r: Reply, retry: bool) {
    && y == x.(view := y.view, inFlight := false, failures := if retry then x.failures + 1 else 0, retryArmed := retry)
    && MadeOf(y.view, stage, r) && y.view.generation == x.view.generation + 1 && !y.view.stale
  }

  /** What the answer of a current attempt leads to: a retry when there is no report, the next question while there
      is one to ask, and otherwise the view, with a retry only when the lidl() call failed. */
  ghost predicate Outcome(s: Sys, s': Sys, t: nat)
    requires t in s.jobs && s.jobs[t].Handling? && s.jobs[t].name in s.slots && Fits(s.jobs[t].stage, s.jobs[t].reply)
  {
    var j := s.jobs[t];
    var x := s.slots[j.name];
    && j.name in s'.slots && t in s'.jobs
    && match Answers(j.stage, j.reply)
       case NoReport =>
         && s'.slots[j.name] == x.(inFlight := false, failures := x.failures + 1, retryArmed := true)
         && s'.jobs[t] == Arming(j.name)
       case Shown(retry) =>
         && PublishedAs(x, s'.slots[j.name], j.stage, j.reply, retry)
         && s'.jobs[t] == Notifying(j.name, if retry then ToArm else Done)
       case InDoubt(_) => false
       case Nothing =>
         && s'.slots == s.slots && Question(j.stage, j.reply).Some?
         && s'.jobs[t] == Calling(j.name, j.attempt, j.stamp, Question(j.stage, j.reply).value)
  }

  lemma AnswerOutcome(prev: View, stage: Stage, r: Reply)
    requires Fits(stage, r)
    ensures
      match Answers(stage, r)
      case NoReport => OnAnswer(prev, stage, r).Miss?
      case Shown(retry) => OnAnswer(prev, stage, r).Publish? && OnAnswer(prev, stage, r).retry == retry
      case InDoubt(_) => false
      case Nothing => Question(stage, r).Some? && OnAnswer(prev, stage, r) == Ask(Question(stage, r).value)
  {
    hide CheckedView, LidlPresent;
  }

  lemma PublishOutcome(cfg: seq<ExposedModule>, s: Sys, t: nat, v: View, retry: bool)
    requires t in s.jobs && s.jobs[t].Handling? && s.jobs[t].name in s.slots
    requires s.jobs[t].attempt == s.slots[s.jobs[t].name].attempt && MadeOf(v, s.jobs[t].stage, s.jobs[t].reply)
    ensures
      var (j, s') := (s.jobs[t], PublishStep(cfg, s, t, v, retry));
      && s'.slots == s.slots[j.name := Published(s.slots[j.name], j.attempt, Exposed(cfg, j.name, v), retry).0]
      && PublishedAs(s.slots[j.name], s'.slots[j.name], j.stage, j.reply, retry)
      && t in s'.jobs && s'.jobs[t] == Notifying(j.name, if retry then ToArm else Done)
  {
    var (j, s') := (s.jobs[t], PublishStep(cfg, s, t, v, retry));
    var w := Published(s.slots[j.name], j.attempt, Exposed(cfg, j.name, v), retry).0.view;
    assert SameMade(v, w);
    SameMaking(v, w, j.stage, j.reply);
    hide Exposed, MadeOf;
  }

  /** Every step of a current attempt has its outcome. */
  lemma AttemptOutcome(cfg: seq<ExposedModule>, s: Sys, t: nat)
    requires t in s.jobs && s.jobs[t].Handling? && s.jobs[t].name in s.slots && Fits(s.jobs[t].stage, s.jobs[t].reply)
    requires s.jobs[t].attempt == s.slots[s.jobs[t].name].attempt
    ensures Outcome(s, Handle(cfg, s, t), t)
    ensures forall n | n in s.slots && n != s.jobs[t].name :: n in Handle(cfg, s, t).slots && Handle(cfg, s, t).slots[n] == s.slots[n]
  {
    var j := s.jobs[t];
    var prev := s.slots[j.name].view;
    AnswerOutcome(prev, j.stage, j.reply);
    AnswerMadeOf(prev, j.stage, j.reply);
    hide OnAnswer, MadeOf, Answers, PublishStep, PublishedAs;
    match OnAnswer(prev, j.stage, j.reply)
    case Miss =>
    case Ask(_) =>
    case Publish(v, retry) => PublishOutcome(cfg, s, t, v, retry);
  }

  lemma StrayOutcome(cfg: seq<ExposedModule>, s: Sys, t: nat)
    requires t in s.jobs && s.jobs[t].Handling? && s.jobs[t].name in s.slots && Fits(s.jobs[t].stage, s.jobs[t].reply)
    requires s.jobs[t].attempt != s.slots[s.jobs[t].name].attempt
    ensures Handle(cfg, s, t).slots == s.slots
  {
    hide OnAnswer, Exposed;
  }

  lemma HandleMoved(cfg: seq<ExposedModule>, s: Sys, t: nat, m: string)
    requires m in s.slots
    requires t in s.jobs && s.jobs[t].Handling? && s.jobs[t].name in s.slots && Fits(s.jobs[t].stage, s.jobs[t].reply)
    ensures Moved(s, Handle(cfg, s, t), Advance(t), m)
  {
    hide Handle, MadeOf, Answers;
    if s.jobs[t].attempt == s.slots[s.jobs[t].name].attempt {
      AttemptOutcome(cfg, s, t);
    } else {
      StrayOutcome(cfg, s, t);
    }
    if s.jobs[t].name == m {
      ShownResolved(s, t);
    }
  }

  /** Only a shown view follows from an answer that shows one. */
  lemma ShownResolved(s: Sys, t: nat)
    requires t in s.jobs && s.jobs[t].Handling?
    ensures forall v :: MadeOf(v, s.jobs[t].stage, s.jobs[t].reply) ==> v.Resolved()
    ensures !Answers(s.jobs[t].stage, s.jobs[t].reply).InDoubt?
  {
    hide CrossCheckOf, Consistent, LidlPresent;
  }

  lemma CompareMoved(s: Sys, t: nat, m: string)
    requires m in s.slots && t in s.jobs && s.jobs[t].Comparing? && s.jobs[t].name in s.slots && DoubtsOnlyShown(s.slots[m])
    ensures Moved(s, Compare(s, t), Advance(t), m)
  {
    var j := s.jobs[t];
    RevalidateSays(j.seen, j.report);
    if j.name != m {
      CompareOther(s, t, m);
      hide Compare;
      StillMoved(s, Compare(s, t), Advance(t), m);
    } else {
      hide Compare, Moved, Follows, Unanswered, Differs;
      CompareOwn(s, t);
    }
  }

  lemma RevalidateSays(seen: View, r: InterfaceReply)
    ensures
      Revalidate(seen, r) ==
      if !seen.Resolved() then Keep else if Unanswered(r) then MarkStale else if Differs(seen, r) then Revalidation.Refresh else Keep
  {
  }

  lemma CompareOther(s: Sys, t: nat, m: string)
    requires m in s.slots && t in s.jobs && s.jobs[t].Comparing? && s.jobs[t].name in s.slots && m != s.jobs[t].name
    ensures m in Compare(s, t).slots && Compare(s, t).slots[m] == s.slots[m]
  {
    hide Revalidate, CallUnavailable, Reread;
  }

  lemma CompareOwn(s: Sys, t: nat)
    requires t in s.jobs && s.jobs[t].Comparing? && s.jobs[t].name in s.slots && DoubtsOnlyShown(s.slots[s.jobs[t].name])
    ensures Moved(s, Compare(s, t), Advance(t), s.jobs[t].name)
  {
    var j := s.jobs[t];
    var x := s.slots[j.name];
    RevalidateSays(j.seen, j.report);
    SlotFollows(x, 0);
    UnavailableGoes(x);
    RereadFollows(x, j.attempt);
    StillFollows(x);
    hide Revalidate, CallUnavailable, Reread, Follows, AtRest, Unanswered, Differs, DoubtsOnlyShown;
    match Revalidate(j.seen, j.report)
    case Keep =>
    case MarkStale =>
    case Refresh =>
  }

  lemma StillFollows(x: Slot)
    ensures Follows(x, x, Nothing, x.armedGeneration)
  {
  }

  lemma RereadFollows(x: Slot, attempt: nat)
    requires DoubtsOnlyShown(x)
    ensures Reread(x, attempt).1 <==> AtRest(x) && x.attempt == attempt
    ensures Reread(x, attempt).1 ==> Follows(x, Reread(x, attempt).0, InDoubt(Changed), x.armedGeneration)
    ensures !Reread(x, attempt).1 ==> Reread(x, attempt).0 == x
  {
  }

  /** A changed report starts a new attempt on itself. */
  lemma ChangedRereads(s: Sys, t: nat)
    requires t in s.jobs && s.jobs[t].Comparing? && s.jobs[t].name in s.slots
    requires JobEvent(s.slots[s.jobs[t].name], s.jobs[t], s.jobs[t].name) == InDoubt(Changed)
    ensures
      var (j, s') := (s.jobs[t], Compare(s, t));
      && j.name in s'.slots && s'.slots[j.name].attempt == s.slots[j.name].attempt + 1 && s'.slots[j.name].inFlight
      && t in s'.jobs
      && s'.jobs[t] == Notifying(j.name, ToHandle(s'.slots[j.name].attempt, j.stamp, OfInterface(j.report)))
  {
    RevalidateSays(s.jobs[t].seen, s.jobs[t].report);
    hide Revalidate;
  }

  lemma RoundMoved(s: Sys, t: nat, names: seq<string>, m: string)
    requires m in s.slots && t in s.jobs && s.jobs[t].Rounding? && names != []
    ensures Moved(s, Visit(s, t, names), Advance(t), m)
  {
  }

  lemma ReadMoved(s: Sys, t: nat, m: string)
    requires m in s.slots && t in s.jobs && s.jobs[t].Checked? && s.jobs[t].name in s.slots
    ensures Moved(s, EndRead(s, t), Advance(t), m)
  {
  }

  lemma RefreshMoved(s: Sys, t: nat, n: string, m: string)
    requires m in s.slots && t in s.jobs && s.jobs[t].Refreshing? && n in s.slots
    ensures Moved(s, RunRefresh(s, t, n), Advance(t), m)
  {
  }

  lemma QuietMoved(cfg: seq<ExposedModule>, s: Sys, t: nat, m: string)
    requires m in s.slots && t in s.jobs
    requires Go(cfg, s, t).slots == s.slots && JobEvent(s.slots[m], s.jobs[t], m) == Nothing
    ensures Moved(s, Go(cfg, s, t), Advance(t), m)
  {
    hide Go, JobEvent;
  }

  lemma QuietGoes(cfg: seq<ExposedModule>, s: Sys, t: nat)
    requires t in s.jobs
    requires
      match s.jobs[t]
      case Refreshing(n) => n !in s.slots
      case Handling(n, _, _, stage, r) => n !in s.slots || !Fits(stage, r)
      case Rounding(names) => names == []
      case Checked(n, _, _, _) => n !in s.slots
      case Comparing(n, _, _, _, _) => n !in s.slots
      case _ => true
    ensures Go(cfg, s, t).slots == s.slots
  {
    hide Handle, Compare, EndRead, Visit, RunRefresh, Fits;
  }

  lemma GoMoved(cfg: seq<ExposedModule>, s: Sys, t: nat, m: string)
    requires m in s.slots && t in s.jobs && DoubtsOnlyShown(s.slots[m])
    ensures Moved(s, Go(cfg, s, t), Advance(t), m)
  {
    hide Moved, Handle, Compare, EndRead, Visit, RunRefresh, Continue, Fits, Answers, DoubtsOnlyShown, LidlPresent;
    match s.jobs[t]
    case Refreshing(n) => if n in s.slots { RefreshMoved(s, t, n, m); } else { QuietGoes(cfg, s, t); QuietMoved(cfg, s, t, m); }
    case Handling(n, _, _, stage, r) =>
      if n in s.slots && Fits(stage, r) { HandleMoved(cfg, s, t, m); } else { QuietGoes(cfg, s, t); QuietMoved(cfg, s, t, m); }
    case Rounding(names) =>
      if names != [] { RoundMoved(s, t, names, m); } else { QuietGoes(cfg, s, t); QuietMoved(cfg, s, t, m); }
    case Checked(n, _, _, _) => if n in s.slots { ReadMoved(s, t, m); } else { QuietGoes(cfg, s, t); QuietMoved(cfg, s, t, m); }
    case Comparing(n, _, _, _, _) =>
      if n in s.slots { CompareMoved(s, t, m); } else { QuietGoes(cfg, s, t); QuietMoved(cfg, s, t, m); }
    case _ => QuietGoes(cfg, s, t); QuietMoved(cfg, s, t, m);
  }

  lemma StepMoved(cfg: seq<ExposedModule>, s: Sys, a: Action, m: string)
    requires m in s.slots && DoubtsOnlyShown(s.slots[m])
    ensures Moved(s, Step(cfg, s, a), a, m)
  {
    hide Moved, Go, Answered, FireTimer, BuildStep, LoseProvider, ArmProvider, ReplaceClient, GoUnavailable, DoubtsOnlyShown;
    match a
    case Advance(t) => if t in s.jobs { GoMoved(cfg, s, t, m); } else { StillMoved(s, s, a, m); }
    case Build(throws) => BuildFrame(cfg, s, throws); StillMoved(s, Step(cfg, s, a), a, m);
    case Answer(t, r) => if t in s.jobs { AnswerFrame(s, t, r); } StillMoved(s, Step(cfg, s, a), a, m);
    case Fire(key) => FireFrame(cfg, s, key); StillMoved(s, Step(cfg, s, a), a, m);
    case Lock(_) => StillMoved(s, Step(cfg, s, a), a, m);
    case _ => OutsideMoved(cfg, s, a, m);
  }

  // ---------------------------------------------------------------------------
  // Runs
  // ---------------------------------------------------------------------------

  /** Whether a view has been shown and nothing has put it in doubt since, how many attempts have failed since the
      module was last shown or lost, and the newest generation armed on its client: from the events alone. */
  datatype Past = Past(clean: bool, failures: nat, armed: nat)

  ghost function History(cfg: seq<ExposedModule>, revalidate: bool, run: seq<Action>, m: string): Past {
    if run == [] then Past(false, 0, 0)
    else
      var (before, a) := (run[..|run| - 1], run[|run| - 1]);
      var (p, s) := (History(cfg, revalidate, before, m), Run(cfg, revalidate, before));
      if m !in s.slots then p
      else
        var e := EventOf(s, a, m);
        Past(if e.Shown? then true else if e.InDoubt? then false else p.clean, FailuresAfter(p.failures, e),
             ArmedAfter(p.armed, a, m))
  }

  ghost predicate Remembers(x: Slot, p: Past) {
    && (x.view.Resolved() ==> (x.view.stale <==> !p.clean))
    && (p.clean ==> x.view.Resolved())
    && x.failures == p.failures && x.armedGeneration == p.armed
  }

  /** In every run a view once shown is stale exactly when a loss, a restart, a replacement, a failed call or a
      changed report has put it in doubt since; the failures and the armed generation count what they say. */
  lemma {:induction false} SlotRemembers(cfg: seq<ExposedModule>, self: string, revalidate: bool, run: seq<Action>, m: string)
    requires GoodModules(cfg, self) && m in Run(cfg, revalidate, run).slots
    ensures Remembers(Run(cfg, revalidate, run).slots[m], History(cfg, revalidate, run, m))
  {
    hide Inv, Step, EventOf, ArmedAfter, FailuresAfter;
    if run != [] {
      var (before, a) := (run[..|run| - 1], run[|run| - 1]);
      var (s, s') := (Run(cfg, revalidate, before), Run(cfg, revalidate, run));
      RunKeeps(cfg, self, revalidate, before);
      RunKeeps(cfg, self, revalidate, run);
      SameModules(cfg, s, s', m);
      SlotRemembers(cfg, self, revalidate, before, m);
      ShownFirst(cfg, s, m);
      StepMoved(cfg, s, a, m);
    }
  }

  lemma ShownFirst(cfg: seq<ExposedModule>, s: Sys, m: string)
    requires Inv(cfg, s) && m in s.slots
    ensures DoubtsOnlyShown(s.slots[m])
  {
    assert ViewOk(cfg, s, m);
  }
}
