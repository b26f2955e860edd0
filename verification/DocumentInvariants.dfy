/** The served documents follow the views through every step of DiscoveryRuns. */
module DocumentInvariants {
  import opened Prelude
  import opened BridgeConfigs
  import opened ModuleViews
  import opened Discoveries
  import opened DocPublishers
  import opened DiscoveryRuns
  import opened DiscoveryInvariants
  import opened DiscoverySteps

  ghost predicate NotifyingAt(s: Sys, t: nat) {
    t in s.jobs && s.jobs[t].Notifying?
  }

  ghost predicate RequestingAt(s: Sys, t: nat) {
    t in s.jobs && s.jobs[t].Requesting?
  }

  ghost predicate BuildingAt(s: Sys, t: nat) {
    t in s.jobs && s.jobs[t].Building?
  }

  /** Some build has yet to read the views. */
  ghost predicate Coming(s: Sys) {
    || s.pending || s.builder == Locked || s.builder == Cleared
    || (exists t :: NotifyingAt(s, t)) || (exists t :: BuildingAt(s, t))
  }

  /** A pending request has a build on its way: being scheduled, timed, posted, or not yet cleared. */
  ghost predicate PendingOk(s: Sys) {
    s.pending ==>
      || DocsTimer in s.timers || s.builder == Locked
      || (exists t :: RequestingAt(s, t)) || (exists t :: BuildingAt(s, t))
  }

  ghost predicate ServedOk(cfg: seq<ExposedModule>, s: Sys) {
    && s.docs.Some? && s.docs.value.key == InputsKey(s.docs.value.inputs)
    && (!Coming(s) ==>
          match s.builder
          case Idle => s.thrown || s.docs.value.key == InputsKey(Inputs(cfg, s.slots))
          case Holding(inputs) => InputsKey(inputs) == InputsKey(Inputs(cfg, s.slots))
          case _ => true)
  }

  ghost predicate DocsInv(cfg: seq<ExposedModule>, s: Sys) {
    PendingOk(s) && ServedOk(cfg, s)
  }

  ghost predicate SameDocs(s: Sys, s': Sys) {
    s'.pending == s.pending && s'.builder == s.builder && s'.docs == s.docs && s'.thrown == s.thrown
  }

  /** Job t is not one of the publisher's, and does not become one but by swapping a view. */
  ghost predicate Apart(s: Sys, s': Sys, t: nat) {
    && (forall u {:trigger SameJob(s, s', u)} :: u != t && u != s.next ==> SameJob(s, s', u))
    && !NotifyingAt(s, t) && !RequestingAt(s, t) && !BuildingAt(s, t)
    && s.next !in s.jobs
    && (DocsTimer in s.timers ==> DocsTimer in s'.timers)
  }

  ghost predicate SameViews(cfg: seq<ExposedModule>, s: Sys, s': Sys) {
    Inputs(cfg, s'.slots) == Inputs(cfg, s.slots)
  }

  lemma ApartDocs(cfg: seq<ExposedModule>, s: Sys, s': Sys, t: nat)
    requires DocsInv(cfg, s) && SameDocs(s, s') && Apart(s, s', t)
    requires SameViews(cfg, s, s') || NotifyingAt(s', t) || NotifyingAt(s', s.next)
    ensures DocsInv(cfg, s')
  {
    hide InputsKey, Inputs;
    forall u | NotifyingAt(s, u) ensures NotifyingAt(s', u) { assert SameJob(s, s', u); }
    forall u | RequestingAt(s, u) ensures RequestingAt(s', u) { assert SameJob(s, s', u); }
    forall u | BuildingAt(s, u) ensures BuildingAt(s', u) { assert SameJob(s, s', u); }
  }

  lemma PutSame(cfg: seq<ExposedModule>, s: Sys, s': Sys, m: string, y: Slot)
    requires m in s.slots && s'.slots == s.slots[m := y] && y.view == s.slots[m].view
    ensures SameViews(cfg, s, s')
  {
    assert forall i | 0 <= i < |cfg| :: Inputs(cfg, s'.slots)[i] == Inputs(cfg, s.slots)[i];
  }

  // ---------------------------------------------------------------------------
  // Steps apart from the publisher
  // ---------------------------------------------------------------------------

  /** What ApartDocs() needs of a step that turns job t into j and adds n. */
  ghost predicate Plain(s: Sys, s': Sys, t: nat, j: Option<Job>, n: Option<Job>) {
    && SameDocs(s, s') && s.next !in s.jobs && (t in s.jobs || t == s.next)
    && s'.jobs == JobsAfter(s, t, j, n)
    && (DocsTimer in s.timers ==> DocsTimer in s'.timers)
    && (t in s.jobs ==> !s.jobs[t].Notifying? && !s.jobs[t].Requesting? && !s.jobs[t].Building?)
  }

  lemma PlainDocs(cfg: seq<ExposedModule>, s: Sys, s': Sys, t: nat, j: Option<Job>, n: Option<Job>)
    requires DocsInv(cfg, s) && Plain(s, s', t, j, n)
    requires s'.slots == s.slots || SameViews(cfg, s, s') || (t in s.jobs && j.Some? && j.value.Notifying?) || (n.Some? && n.value.Notifying?)
    ensures DocsInv(cfg, s')
  {
    forall u | u != t && u != s.next ensures SameJob(s, s', u) {}
    assert n.Some? && n.value.Notifying? ==> NotifyingAt(s', s.next);
    assert t in s.jobs && j.Some? && j.value.Notifying? && n.None? ==> NotifyingAt(s', t);
    assert t in s.jobs && j.Some? && j.value.Notifying? && n.Some? ==> NotifyingAt(s', t);
    hide DocsInv;
    ApartDocs(cfg, s, s', t);
  }

  lemma LoseDocs(cfg: seq<ExposedModule>, s: Sys, m: string)
    requires DocsInv(cfg, s) && s.next !in s.jobs && m in s.slots
    ensures DocsInv(cfg, LoseProvider(s, m))
  {
    hide DocsInv, SameViews, Lost, StaleView;
    PlainDocs(cfg, s, LoseProvider(s, m), s.next, None, Some(Notifying(m, ToArm)));
  }

  lemma ReplaceDocs(cfg: seq<ExposedModule>, s: Sys, m: string)
    requires DocsInv(cfg, s) && s.next !in s.jobs && m in s.slots
    ensures DocsInv(cfg, ReplaceClient(s, m))
  {
    hide DocsInv, SameViews, StaleView;
    if ClientReplaced(s.slots[m]).1 {
      PlainDocs(cfg, s, ReplaceClient(s, m), s.next, None, Some(Notifying(m, ToArm)));
    } else {
      PutSame(cfg, s, ReplaceClient(s, m), m, ClientReplaced(s.slots[m]).0);
      PlainDocs(cfg, s, ReplaceClient(s, m), s.next, None, Some(Arming(m)));
    }
  }

  lemma UnavailableDocs(cfg: seq<ExposedModule>, s: Sys, m: string)
    requires DocsInv(cfg, s) && s.next !in s.jobs && m in s.slots
    ensures DocsInv(cfg, GoUnavailable(s, m))
  {
    hide DocsInv, SameViews, StaleView;
    if CallUnavailable(s.slots[m]).1 {
      PlainDocs(cfg, s, GoUnavailable(s, m), s.next, None, Some(Notifying(m, ToArm)));
    }
  }

  lemma OutsideDocs(cfg: seq<ExposedModule>, s: Sys, a: Action, m: string)
    requires DocsInv(cfg, s) && s.next !in s.jobs && m in s.slots
    ensures DocsInv(cfg, LoseProvider(s, m)) && DocsInv(cfg, ReplaceClient(s, m)) && DocsInv(cfg, GoUnavailable(s, m))
    ensures a.ProviderArmed? ==> DocsInv(cfg, ArmProvider(s, m, a.generation))
  {
    hide DocsInv, LoseProvider, ReplaceClient, GoUnavailable, ArmProvider;
    LoseDocs(cfg, s, m);
    ReplaceDocs(cfg, s, m);
    UnavailableDocs(cfg, s, m);
    if a.ProviderArmed? {
      ArmedDocs(cfg, s, m, a.generation);
    }
  }

  lemma ArmedDocs(cfg: seq<ExposedModule>, s: Sys, m: string, g: nat)
    requires DocsInv(cfg, s) && s.next !in s.jobs && m in s.slots
    ensures DocsInv(cfg, ArmProvider(s, m, g))
  {
    hide DocsInv, SameViews, StaleView;
    var s' := ArmProvider(s, m, g);
    if Armed(s.slots[m], g).1 {
      PlainDocs(cfg, s, s', s.next, None, Some(Notifying(m, ToArm)));
    } else {
      PutSame(cfg, s, s', m, Armed(s.slots[m], g).0);
      PlainDocs(cfg, s, s', s.next, None, None);
    }
  }

  lemma FireDocs(cfg: seq<ExposedModule>, s: Sys, key: string)
    requires DocsInv(cfg, s) && s.next !in s.jobs && key in s.timers
    ensures DocsInv(cfg, FireTimer(cfg, s, key))
  {
    hide DocsInv, Names;
    if key == DocsTimer {
      PostedDocs(cfg, s);
    } else {
      var s' := FireTimer(cfg, s, key);
      PlainDocs(cfg, s, s', s.next, None, Some(s'.jobs[s.next]));
    }
  }

  lemma PostedDocs(cfg: seq<ExposedModule>, s: Sys)
    requires DocsInv(cfg, s)
    ensures DocsInv(cfg, Spawn(s.(timers := s.timers - {DocsTimer}), Building))
  {
    var s' := Spawn(s.(timers := s.timers - {DocsTimer}), Building);
    hide InputsKey, Inputs;
    assert BuildingAt(s', s.next);
    forall u | u != s.next ensures SameJob(s, s', u) {}
  }

  lemma AnswerDocs(cfg: seq<ExposedModule>, s: Sys, t: nat, r: Reply)
    requires DocsInv(cfg, s) && s.next !in s.jobs && t in s.jobs
    ensures DocsInv(cfg, Answered(s, t, r))
  {
    AnswerFrame(s, t, r);
    hide DocsInv, Fits;
    if Answered(s, t, r) != s {
      PlainDocs(cfg, s, Answered(s, t, r), t, Some(Answered(s, t, r).jobs[t]), None);
    }
  }

  // ---------------------------------------------------------------------------
  // The publisher's own steps
  // ---------------------------------------------------------------------------

  lemma LockDocs(cfg: seq<ExposedModule>, s: Sys, t: nat)
    requires DocsInv(cfg, s) && t in s.jobs && s.jobs[t].Building? && s.builder.Idle?
    ensures DocsInv(cfg, Drop(s, t).(builder := Locked))
  {
    hide InputsKey, Inputs;
  }

  lemma BuildDocs(cfg: seq<ExposedModule>, s: Sys, throws: bool)
    requires DocsInv(cfg, s)
    ensures DocsInv(cfg, BuildStep(cfg, s, throws))
  {
    var s' := BuildStep(cfg, s, throws);
    BuildFrame(cfg, s, throws);
    hide InputsKey, Inputs;
    forall u | NotifyingAt(s, u) ensures NotifyingAt(s', u) {}
    forall u | RequestingAt(s, u) ensures RequestingAt(s', u) {}
    forall u | BuildingAt(s, u) ensures BuildingAt(s', u) {}
    match s.builder
    case Idle =>
    case Locked =>
    case Cleared => assert s'.builder == Holding(Inputs(cfg, s'.slots)) && s'.docs == s.docs;
    case Holding(inputs) => if !throws { StoredKey(s.docs, inputs); }
  }

  lemma StoredKey(docs: Option<DocSet>, inputs: seq<ModuleDoc>)
    requires docs.Some? ==> docs.value.key == InputsKey(docs.value.inputs)
    ensures var d := Stored(docs, inputs); d.Some? && d.value.key == InputsKey(inputs) == InputsKey(d.value.inputs)
  {
  }

  /** Telling the publisher: a request already pending, or a new one. */
  lemma NotifyDocs(cfg: seq<ExposedModule>, s: Sys, t: nat)
    requires DocsInv(cfg, s) && t in s.jobs && (s.jobs[t].Notifying? || s.jobs[t].Requesting?)
    ensures DocsInv(cfg, Go(cfg, s, t))
  {
    hide Go, DocsInv, Told;
    NotifyFrame(cfg, s, t);
    NotifiedDocs(cfg, s, Go(cfg, s, t), t);
  }

  ghost predicate Told(s: Sys, s': Sys, t: nat) {
    && (forall u {:trigger SameJob(s, s', u)} :: u != t ==> SameJob(s, s', u))
    && s'.slots == s.slots && s'.builder == s.builder && s'.docs == s.docs && s'.thrown == s.thrown
    && (t in s'.jobs ==> !s'.jobs[t].Notifying? && !s'.jobs[t].Building?)
    && if t in s.jobs && s.jobs[t].Requesting? then s'.pending == s.pending && DocsTimer in s'.timers
       else s'.pending && s'.timers == s.timers && (!s.pending ==> t in s'.jobs && s'.jobs[t].Requesting?)
  }

  lemma ContinueFrame(s: Sys, v: Sys, t: nat, m: string, next: Then)
    requires v.jobs == s.jobs
    ensures
      var s' := Continue(v, t, m, next);
      && (forall u {:trigger SameJob(s, s', u)} :: u != t ==> SameJob(s, s', u)) && s' == v.(jobs := s'.jobs)
      && (t in s'.jobs ==> !s'.jobs[t].Notifying? && !s'.jobs[t].Building? && !s'.jobs[t].Requesting?)
  {
    match next
    case Done =>
    case ToArm =>
    case ToHandle(_, _, _) =>
  }

  lemma NotifyFrame(cfg: seq<ExposedModule>, s: Sys, t: nat)
    requires t in s.jobs && (s.jobs[t].Notifying? || s.jobs[t].Requesting?)
    ensures Told(s, Go(cfg, s, t), t)
  {
    hide RunRefresh, Handle, Visit, EndRead, Compare, Continue;
    match s.jobs[t]
    case Notifying(m, next) => if s.pending { ContinueFrame(s, s, t, m, next); }
    case Requesting(m, next) => ContinueFrame(s, s.(timers := s.timers + {DocsTimer}), t, m, next);
    case _ =>
  }

  lemma NotifiedDocs(cfg: seq<ExposedModule>, s: Sys, s': Sys, t: nat)
    requires DocsInv(cfg, s) && Told(s, s', t) && t in s.jobs && (s.jobs[t].Notifying? || s.jobs[t].Requesting?)
    ensures DocsInv(cfg, s')
  {
    hide InputsKey, Inputs;
    forall u | u != t && NotifyingAt(s, u) ensures NotifyingAt(s', u) { assert SameJob(s, s', u); }
    forall u | u != t && RequestingAt(s, u) ensures RequestingAt(s', u) { assert SameJob(s, s', u); }
    forall u | u != t && BuildingAt(s, u) ensures BuildingAt(s', u) { assert SameJob(s, s', u); }
    assert RequestingAt(s', t) || s.pending || s.jobs[t].Requesting?;
  }

  // ---------------------------------------------------------------------------
  // The other jobs
  // ---------------------------------------------------------------------------

  lemma HandleDocs(cfg: seq<ExposedModule>, s: Sys, t: nat)
    requires DocsInv(cfg, s) && s.next !in s.jobs
    requires t in s.jobs && s.jobs[t].Handling? && s.jobs[t].name in s.slots && Fits(s.jobs[t].stage, s.jobs[t].reply)
    ensures DocsInv(cfg, Handle(cfg, s, t))
  {
    var j := s.jobs[t];
    hide DocsInv, SameViews, OnAnswer, Fits, PublishStep, MissReport;
    match OnAnswer(s.slots[j.name].view, j.stage, j.reply)
    case Miss => MissDocs(cfg, s, t);
    case Ask(stage) =>
      var call := Calling(j.name, j.attempt, j.stamp, stage);
      PlainDocs(cfg, s, Put(s, t, call), t, Some(call), None);
    case Publish(v, retry) => PublishDocs(cfg, s, t, v, retry);
  }

  lemma MissDocs(cfg: seq<ExposedModule>, s: Sys, t: nat)
    requires DocsInv(cfg, s) && s.next !in s.jobs && t in s.jobs && s.jobs[t].Handling? && s.jobs[t].name in s.slots
    ensures DocsInv(cfg, MissReport(s, t))
  {
    hide DocsInv, SameViews;
    var (m, s') := (s.jobs[t].name, MissReport(s, t));
    var (y, go) := Missed(s.slots[m], s.jobs[t].attempt);
    if go {
      PutSame(cfg, s, s', m, y);
      PlainDocs(cfg, s, s', t, Some(Arming(m)), None);
    } else {
      PlainDocs(cfg, s, s', t, None, None);
    }
  }

  lemma PublishDocs(cfg: seq<ExposedModule>, s: Sys, t: nat, v: View, retry: bool)
    requires DocsInv(cfg, s) && s.next !in s.jobs && t in s.jobs && s.jobs[t].Handling? && s.jobs[t].name in s.slots
    ensures DocsInv(cfg, PublishStep(cfg, s, t, v, retry))
  {
    hide DocsInv, SameViews, Exposed;
    var (m, s') := (s.jobs[t].name, PublishStep(cfg, s, t, v, retry));
    if s.slots[m].attempt == s.jobs[t].attempt {
      PlainDocs(cfg, s, s', t, Some(Notifying(m, if retry then ToArm else Done)), None);
    } else {
      PlainDocs(cfg, s, s', t, None, None);
    }
  }

  lemma RefreshDocs(cfg: seq<ExposedModule>, s: Sys, t: nat, m: string)
    requires DocsInv(cfg, s) && s.next !in s.jobs && t in s.jobs && s.jobs[t] == Refreshing(m) && m in s.slots
    ensures DocsInv(cfg, RunRefresh(s, t, m))
  {
    hide DocsInv, SameViews;
    var y := Refreshed(s.slots[m]);
    PutSame(cfg, s, RunRefresh(s, t, m), m, y);
    PlainDocs(cfg, s, RunRefresh(s, t, m), t, Some(Calling(m, y.attempt, s.Resets(m), Interface)), None);
  }

  lemma VisitDocs(cfg: seq<ExposedModule>, s: Sys, t: nat, names: seq<string>)
    requires DocsInv(cfg, s) && s.next !in s.jobs && t in s.jobs && s.jobs[t] == Rounding(names) && names != []
    ensures DocsInv(cfg, Visit(s, t, names))
  {
    hide DocsInv, SameViews;
    var (m, s') := (names[0], Visit(s, t, names));
    if m in s.slots && CheckStarted(s.slots[m]).1 {
      PutSame(cfg, s, s', m, CheckStarted(s.slots[m]).0);
      PlainDocs(cfg, s, s', t, Some(Rounding(names[1..])), Some(Checking(m, s.slots[m].attempt, s.Resets(m))));
    } else {
      PlainDocs(cfg, s, s', t, Some(Rounding(names[1..])), None);
    }
  }

  lemma ReadDocs(cfg: seq<ExposedModule>, s: Sys, t: nat)
    requires DocsInv(cfg, s) && s.next !in s.jobs && t in s.jobs && s.jobs[t].Checked? && s.jobs[t].name in s.slots
    ensures DocsInv(cfg, EndRead(s, t))
  {
    hide DocsInv, SameViews;
    var s' := EndRead(s, t);
    PutSame(cfg, s, s', s.jobs[t].name, CheckEnded(s.slots[s.jobs[t].name], s.jobs[t].attempt).0);
    PlainDocs(cfg, s, s', t, At(s', t), None);
  }

  lemma ComparePlain(cfg: seq<ExposedModule>, s: Sys, t: nat)
    requires s.next !in s.jobs && t in s.jobs && s.jobs[t].Comparing? && s.jobs[t].name in s.slots
    ensures
      var s' := Compare(s, t);
      Plain(s, s', t, At(s', t), None) && (s'.slots == s.slots || (At(s', t).Some? && At(s', t).value.Notifying?))
  {
    hide Revalidate, CallUnavailable, Reread;
    match Revalidate(s.jobs[t].seen, s.jobs[t].report)
    case Keep =>
    case MarkStale =>
    case Refresh =>
  }

  lemma CompareDocs(cfg: seq<ExposedModule>, s: Sys, t: nat)
    requires DocsInv(cfg, s) && s.next !in s.jobs && t in s.jobs && s.jobs[t].Comparing? && s.jobs[t].name in s.slots
    ensures DocsInv(cfg, Compare(s, t))
  {
    hide DocsInv, SameViews, Compare, Plain;
    ComparePlain(cfg, s, t);
    PlainDocs(cfg, s, Compare(s, t), t, At(Compare(s, t), t), None);
  }

  lemma DropDocs(cfg: seq<ExposedModule>, s: Sys, t: nat)
    requires DocsInv(cfg, s) && s.next !in s.jobs && t in s.jobs
    requires !s.jobs[t].Notifying? && !s.jobs[t].Requesting? && !s.jobs[t].Building?
    ensures DocsInv(cfg, Drop(s, t))
  {
    hide DocsInv;
    PlainDocs(cfg, s, Drop(s, t), t, None, None);
  }

  lemma PassDocs(cfg: seq<ExposedModule>, s: Sys, t: nat)
    requires DocsInv(cfg, s) && s.next !in s.jobs && t in s.jobs && (s.jobs[t].Resuming? || s.jobs[t].Arming?)
    ensures DocsInv(cfg, Go(cfg, s, t))
  {
    hide DocsInv, Handle, Visit, EndRead, Compare, RunRefresh, Continue;
    PlainDocs(cfg, s, Go(cfg, s, t), t, At(Go(cfg, s, t), t), None);
  }

  lemma GoDocs(cfg: seq<ExposedModule>, s: Sys, t: nat)
    requires DocsInv(cfg, s) && s.next !in s.jobs && t in s.jobs
    ensures DocsInv(cfg, Go(cfg, s, t))
  {
    hide DocsInv, RunRefresh, Handle, Visit, EndRead, Compare, Continue, Fits, Drop, Put;
    match s.jobs[t]
    case Refreshing(m) => if m in s.slots { RefreshDocs(cfg, s, t, m); } else { DropDocs(cfg, s, t); }
    case Resuming(_, _, _, _, _) => PassDocs(cfg, s, t);
    case Handling(m, _, _, stage, r) => if m in s.slots && Fits(stage, r) { HandleDocs(cfg, s, t); } else { DropDocs(cfg, s, t); }
    case Notifying(_, _) => NotifyDocs(cfg, s, t);
    case Requesting(_, _) => NotifyDocs(cfg, s, t);
    case Arming(m) => PassDocs(cfg, s, t);
    case Rounding(names) => if names != [] { VisitDocs(cfg, s, t, names); } else { DropDocs(cfg, s, t); }
    case Checked(m, _, _, _) => if m in s.slots { ReadDocs(cfg, s, t); } else { DropDocs(cfg, s, t); }
    case Comparing(m, _, _, _, _) => if m in s.slots { CompareDocs(cfg, s, t); } else { DropDocs(cfg, s, t); }
    case _ =>
  }

  lemma StepDocs(cfg: seq<ExposedModule>, s: Sys, a: Action)
    requires DocsInv(cfg, s) && s.next !in s.jobs
    ensures DocsInv(cfg, Step(cfg, s, a))
  {
    hide DocsInv, Go, Answered, FireTimer, BuildStep, LoseProvider, ArmProvider, ReplaceClient, GoUnavailable;
    match a
    case Fire(key) => if key in s.timers { FireDocs(cfg, s, key); }
    case Lock(t) => if t in s.jobs && s.jobs[t].Building? && s.builder.Idle? { LockDocs(cfg, s, t); }
    case Build(throws) => BuildDocs(cfg, s, throws);
    case Answer(t, r) => if t in s.jobs { AnswerDocs(cfg, s, t, r); }
    case Advance(t) => if t in s.jobs { GoDocs(cfg, s, t); }
    case _ => if a.name in s.slots { OutsideDocs(cfg, s, a, a.name); }
  }
}
