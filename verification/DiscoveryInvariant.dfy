/** What every step of DiscoveryRuns keeps. */
module DiscoveryInvariants {
  import opened Prelude
  import opened BridgeConfigs
  import opened ModuleViews
  import opened Discoveries
  import opened DocPublishers
  import opened DiscoveryRuns

  /** The job carries on the module's attempt number `attempt`. */
  predicate Carries(j: Job, m: string, attempt: nat) {
    match j
    case Calling(n, a, _, _) => n == m && a == attempt
    case Resuming(n, a, _, _, _) => n == m && a == attempt
    case Handling(n, a, _, _, _) => n == m && a == attempt
    case Notifying(n, next) => n == m && next.ToHandle? && next.attempt == attempt
    case Requesting(n, next) => n == m && next.ToHandle? && next.attempt == attempt
    case _ => false
  }

  /** The job ends in a refresh of the module. */
  predicate Brings(j: Job, m: string) {
    match j
    case Refreshing(n) => n == m
    case Arming(n) => n == m
    case Notifying(n, next) => n == m && next == ToArm
    case Requesting(n, next) => n == m && next == ToArm
    case _ => false
  }

  ghost predicate Flies(s: Sys, t: nat, m: string) {
    m in s.slots && t in s.jobs && Carries(s.jobs[t], m, s.slots[m].attempt)
  }

  ghost predicate Feeds(s: Sys, t: nat, m: string) {
    t in s.jobs && Brings(s.jobs[t], m)
  }

  ghost predicate QueuedAt(s: Sys, t: nat, m: string) {
    t in s.jobs && s.jobs[t] == Refreshing(m)
  }

  ghost predicate InFlight(s: Sys, m: string) {
    exists t :: Flies(s, t, m)
  }

  ghost predicate Due(s: Sys, m: string) {
    m in s.timers || exists t :: Feeds(s, t, m)
  }

  ghost predicate Queued(s: Sys, m: string) {
    exists t :: QueuedAt(s, t, m)
  }

  predicate Unsettled(v: View) {
    !v.Resolved() || v.stale
  }

  /** Nothing in the slot says a refresh is on its way. */
  predicate Waiting(x: Slot) {
    Unsettled(x.view) && !x.inFlight && !x.retryArmed
  }

  ghost predicate SlotOk(s: Sys, m: string) {
    m in s.slots ==>
      var x := s.slots[m];
      && !(x.inFlight && x.retryArmed)
      && (x.inFlight ==> InFlight(s, m))
      && (x.retryArmed ==> Due(s, m))
      && (Waiting(x) ==> Queued(s, m))
  }

  /** The view was built by a publish, or is the first pending one; only staleness changed since. */
  ghost predicate Sound(cfg: seq<ExposedModule>, m: string, v: View) {
    && v.name == m
    && v.exposure == Exposed(cfg, m, v).exposure
    && (v.status == Ok ==> v.contract.Some? && Consistent(v.contract.value, v.live))
    && (v.stale ==> v.Resolved())
  }

  ghost predicate ViewOk(cfg: seq<ExposedModule>, s: Sys, m: string) {
    m in s.slots ==>
      && Sound(cfg, m, s.slots[m].view)
      && s.slots[m].view.generation == s.Publishes(m)
  }

  /** An attempt's work: not newer than the slot, and while it is the slot's attempt, nothing was lost,
      restarted or replaced since it began. */
  ghost predicate AttemptOk(s: Sys, m: string, attempt: nat, stamp: nat, flying: bool) {
    && m in s.slots && attempt <= s.slots[m].attempt
    && (attempt == s.slots[m].attempt ==> stamp == s.Resets(m) && (flying ==> s.slots[m].inFlight))
  }

  ghost predicate NextOk(s: Sys, m: string, next: Then) {
    next.ToHandle? ==> AttemptOk(s, m, next.attempt, next.stamp, true) && next.reply.OfInterface?
  }

  ghost predicate JobOk(s: Sys, t: nat) {
    t in s.jobs ==>
      && t < s.next
      && match s.jobs[t]
         case Calling(m, a, stamp, _) => AttemptOk(s, m, a, stamp, true)
         case Resuming(m, a, stamp, stage, r) => AttemptOk(s, m, a, stamp, true) && Fits(stage, r)
         case Handling(m, a, stamp, stage, r) => AttemptOk(s, m, a, stamp, true) && Fits(stage, r)
         case Notifying(m, next) => NextOk(s, m, next)
         case Requesting(m, next) => NextOk(s, m, next)
         case Checking(m, a, stamp) => AttemptOk(s, m, a, stamp, false)
         case Checked(m, a, stamp, _) => AttemptOk(s, m, a, stamp, false)
         case Comparing(m, a, stamp, _, _) => AttemptOk(s, m, a, stamp, false)
         case _ => true
  }

  ghost predicate PairOk(s: Sys, t: nat, u: nat, m: string) {
    t != u ==> !(Flies(s, t, m) && Flies(s, u, m))
  }

  ghost predicate SlotsInv(cfg: seq<ExposedModule>, s: Sys) {
    && (forall m {:trigger m in s.slots} :: m in s.slots <==> Find(cfg, m) < |cfg|)
    && (forall m {:trigger SlotOk(s, m)} :: SlotOk(s, m))
    && (forall t {:trigger JobOk(s, t)} :: JobOk(s, t))
    && (forall t, u, m {:trigger PairOk(s, t, u, m)} :: PairOk(s, t, u, m))
  }

  ghost predicate ViewsInv(cfg: seq<ExposedModule>, s: Sys) {
    forall m {:trigger ViewOk(cfg, s, m)} :: ViewOk(cfg, s, m)
  }

  // ---------------------------------------------------------------------------
  // Steps that touch one module
  // ---------------------------------------------------------------------------

  predicate About(j: Job, m: string) {
    j.Rounding? || j.Building? || j.name == m
  }

  ghost predicate SameFor(s: Sys, s': Sys, n: string) {
    && (n in s.slots <==> n in s'.slots) && (n in s.slots ==> s'.slots[n] == s.slots[n])
    && s'.Resets(n) == s.Resets(n) && s'.Publishes(n) == s.Publishes(n)
    && (n in s.timers && n in s.slots ==> n in s'.timers)
  }

  ghost predicate SameJob(s: Sys, s': Sys, u: nat) {
    (u in s'.jobs <==> u in s.jobs) && (u in s.jobs ==> s'.jobs[u] == s.jobs[u])
  }

  /** Only module m, job t and a new job are concerned. */
  ghost predicate Moves(s: Sys, s': Sys, t: nat, m: string) {
    && (m in s.slots <==> m in s'.slots)
    && (forall n {:trigger SameFor(s, s', n)} :: n != m ==> SameFor(s, s', n))
    && (forall u {:trigger SameJob(s, s', u)} :: u != t && u != s.next ==> SameJob(s, s', u))
    && s.next <= s'.next
    && (t in s.jobs ==> About(s.jobs[t], m)) && (t in s'.jobs ==> About(s'.jobs[t], m))
    && (s.next in s'.jobs ==> About(s'.jobs[s.next], m))
  }

  /** How the attempt in flight changes: superseded, answered for good, or carried on. */
  ghost predicate Turns(s: Sys, s': Sys, t: nat, m: string) {
    m in s.slots && m in s'.slots ==>
      var (x, y) := (s.slots[m], s'.slots[m]);
      var (at, new') := (Flies(s', t, m), t != s.next && Flies(s', s.next, m));
      || (y.attempt == x.attempt + 1 && !(at && new') && (y.inFlight ==> at || new'))
      || (&& y.attempt == x.attempt && s'.Resets(m) == s.Resets(m) && !new'
          && if x.inFlight && !y.inFlight then Flies(s, t, m) && !at else y.inFlight == x.inFlight && at == Flies(s, t, m))
  }

  /** Whatever was to bring a refresh still does, and whoever asks for one brings it. */
  ghost predicate KeepsDue(s: Sys, s': Sys, t: nat, m: string) {
    m in s.slots && m in s'.slots && s'.slots[m].retryArmed ==>
      || m in s'.timers || Feeds(s', t, m) || Feeds(s', s.next, m)
      || (s.slots[m].retryArmed && !Feeds(s, t, m) && m !in s.timers)
  }

  ghost predicate KeepsQueued(s: Sys, s': Sys, t: nat, m: string) {
    m in s.slots && m in s'.slots && Waiting(s'.slots[m]) ==>
      || QueuedAt(s', t, m) || QueuedAt(s', s.next, m)
      || (Waiting(s.slots[m]) && !QueuedAt(s, t, m))
  }

  ghost predicate Good(s: Sys, s': Sys, t: nat, m: string) {
    && Moves(s, s', t, m) && Turns(s, s', t, m) && KeepsDue(s, s', t, m) && KeepsQueued(s, s', t, m)
    && JobOk(s', t) && JobOk(s', s.next)
    && (m in s'.slots ==> !(s'.slots[m].inFlight && s'.slots[m].retryArmed))
  }

  lemma OtherSlots(s: Sys, s': Sys, t: nat, m: string, n: string)
    requires Moves(s, s', t, m) && n != m && SlotOk(s, n) && JobOk(s, s.next)
    ensures SlotOk(s', n)
  {
    assert SameFor(s, s', n);
    if n in s'.slots {
      var x := s.slots[n];
      if x.inFlight {
        var u :| Flies(s, u, n);
        assert SameJob(s, s', u);
        assert Flies(s', u, n);
      }
      if x.retryArmed && n !in s.timers {
        var u :| Feeds(s, u, n);
        assert SameJob(s, s', u);
        assert Feeds(s', u, n);
      }
      if Waiting(x) {
        var u :| QueuedAt(s, u, n);
        assert SameJob(s, s', u);
        assert QueuedAt(s', u, n);
      }
    }
  }

  lemma OwnFlight(s: Sys, s': Sys, t: nat, m: string)
    requires Moves(s, s', t, m) && Turns(s, s', t, m) && SlotOk(s, m) && JobOk(s, s.next)
    requires m in s'.slots && s'.slots[m].inFlight
    ensures InFlight(s', m)
  {
    if !Flies(s', t, m) && !Flies(s', s.next, m) {
      var u :| Flies(s, u, m);
      assert SameJob(s, s', u);
      assert Flies(s', u, m);
    }
  }

  lemma OwnSlot(s: Sys, s': Sys, t: nat, m: string)
    requires Good(s, s', t, m) && SlotOk(s, m) && JobOk(s, s.next)
    ensures SlotOk(s', m)
  {
    if m in s'.slots {
      var y := s'.slots[m];
      if y.inFlight {
        OwnFlight(s, s', t, m);
      }
      if y.retryArmed && m !in s'.timers && !Feeds(s', t, m) && !Feeds(s', s.next, m) {
        var u :| Feeds(s, u, m);
        assert SameJob(s, s', u);
        assert Feeds(s', u, m);
      }
      if Waiting(y) && !QueuedAt(s', t, m) && !QueuedAt(s', s.next, m) {
        var u :| QueuedAt(s, u, m);
        assert SameJob(s, s', u);
        assert QueuedAt(s', u, m);
      }
    }
  }

  lemma OtherJobs(s: Sys, s': Sys, t: nat, m: string, u: nat)
    requires Moves(s, s', t, m) && Turns(s, s', t, m) && u != t && u != s.next
    requires JobOk(s, u) && JobOk(s, t) && PairOk(s, t, u, m)
    ensures JobOk(s', u)
  {
    assert SameJob(s, s', u);
    if u in s'.jobs && !s'.jobs[u].Rounding? && !s'.jobs[u].Building? {
      assert SameFor(s, s', s'.jobs[u].name) || s'.jobs[u].name == m;
      assert s'.jobs[u].name == m ==> !(Flies(s, t, m) && Flies(s, u, m));
    }
  }

  lemma Pairs(s: Sys, s': Sys, t: nat, m: string, u: nat, v: nat, n: string)
    requires Moves(s, s', t, m) && Turns(s, s', t, m)
    requires JobOk(s, u) && JobOk(s, v) && JobOk(s, s.next) && PairOk(s, u, v, n)
    ensures PairOk(s', u, v, n)
  {
    assert n != m ==> SameFor(s, s', n);
    assert u != t && u != s.next ==> SameJob(s, s', u);
    assert v != t && v != s.next ==> SameJob(s, s', v);
  }

  lemma GoodKeeps(cfg: seq<ExposedModule>, s: Sys, s': Sys, t: nat, m: string)
    requires SlotsInv(cfg, s) && Good(s, s', t, m)
    ensures SlotsInv(cfg, s')
  {
    hide SlotOk, JobOk, PairOk, Turns, KeepsDue, KeepsQueued;
    assert JobOk(s, s.next);
    forall n ensures n in s'.slots <==> n in s.slots { assert n == m || SameFor(s, s', n); }
    forall n ensures SlotOk(s', n) {
      assert SlotOk(s, n);
      if n == m { OwnSlot(s, s', t, m); } else { OtherSlots(s, s', t, m, n); }
    }
    forall u ensures JobOk(s', u) {
      assert JobOk(s, u) && JobOk(s, t) && PairOk(s, t, u, m);
      if u != t && u != s.next { OtherJobs(s, s', t, m, u); }
    }
    forall u, v, n ensures PairOk(s', u, v, n) {
      assert JobOk(s, u) && JobOk(s, v) && PairOk(s, u, v, n);
      Pairs(s, s', t, m, u, v, n);
    }
  }

  // ---------------------------------------------------------------------------
  // Each step is such a step
  // ---------------------------------------------------------------------------

  /** The jobs after job t, if it is one, becomes j and n is added. */
  function JobsAfter(s: Sys, t: nat, j: Option<Job>, n: Option<Job>): map<nat, Job> {
    var jobs := if t !in s.jobs then s.jobs else if j.Some? then s.jobs[t := j.value] else s.jobs - {t};
    if n.Some? then jobs[s.next := n.value] else jobs
  }

  function CarriesNow(j: Option<Job>, m: string, attempt: nat): bool {
    j.Some? && Carries(j.value, m, attempt)
  }

  function BringsNow(j: Option<Job>, m: string): bool {
    j.Some? && Brings(j.value, m)
  }

  function At(s: Sys, t: nat): Option<Job> {
    if t in s.jobs then Some(s.jobs[t]) else None
  }

  /** s' is s with m's slot now y, job t now j, and n added. */
  ghost predicate Shape(s: Sys, s': Sys, t: nat, m: string, y: Slot, j: Option<Job>, n: Option<Job>) {
    && m in s.slots && s'.slots == s.slots[m := y]
    && (s'.resets == s.resets || s'.resets == s.resets[m := s.Resets(m) + 1])
    && (s'.publishes == s.publishes || s'.publishes == s.publishes[m := s.Publishes(m) + 1])
    && s'.jobs == JobsAfter(s, t, j, n) && s'.next == s.next + B(n.Some?)
    && s.timers - {m} <= s'.timers
    && (t in s.jobs ==> About(s.jobs[t], m)) && (j.Some? ==> About(j.value, m)) && (n.Some? ==> About(n.value, m))
    && s.next !in s.jobs
  }

  lemma ShapeMoves(s: Sys, s': Sys, t: nat, m: string, y: Slot, j: Option<Job>, n: Option<Job>)
    requires Shape(s, s', t, m, y, j, n)
    ensures Moves(s, s', t, m)
    ensures t in s.jobs ==> At(s', t) == j
    ensures n.Some? ==> At(s', s.next) == n
  {
  }

  ghost predicate TurnsTo(s: Sys, s': Sys, m: string, y: Slot, i: Option<Job>, j: Option<Job>, n: Option<Job>)
    requires m in s.slots
  {
    var x := s.slots[m];
    var (at, new') := (CarriesNow(j, m, y.attempt), CarriesNow(n, m, y.attempt));
    || (y.attempt == x.attempt + 1 && !(at && new') && (y.inFlight ==> at || new'))
    || (&& y.attempt == x.attempt && s'.Resets(m) == s.Resets(m) && !new'
        && var was := CarriesNow(i, m, x.attempt);
           if x.inFlight && !y.inFlight then was && !at else y.inFlight == x.inFlight && at == was)
  }

  ghost predicate Brought(s: Sys, s': Sys, m: string, y: Slot, i: Option<Job>, j: Option<Job>, n: Option<Job>)
    requires m in s.slots
  {
    && (y.retryArmed ==> m in s'.timers || BringsNow(j, m) || BringsNow(n, m) ||
                         (s.slots[m].retryArmed && !BringsNow(i, m) && m !in s.timers))
    && (Waiting(y) ==> n == Some(Refreshing(m)) || j == Some(Refreshing(m)) ||
                       (Waiting(s.slots[m]) && i != Some(Refreshing(m))))
  }

  lemma ShapeGood(s: Sys, s': Sys, t: nat, m: string, y: Slot, j: Option<Job>, n: Option<Job>)
    requires Shape(s, s', t, m, y, j, n) && (t in s.jobs || (t == s.next && j == None))
    requires TurnsTo(s, s', m, y, At(s, t), j, n) && Brought(s, s', m, y, At(s, t), j, n)
    requires !(y.inFlight && y.retryArmed) && JobOk(s', t) && JobOk(s', s.next)
    ensures Good(s, s', t, m)
  {
    ShapeMoves(s, s', t, m, y, j, n);
    hide Shape, Moves;
    assert s'.slots[m] == y;
  }

  ghost predicate Ready(s: Sys, t: nat, m: string) {
    && m in s.slots && SlotOk(s, m) && JobOk(s, s.next)
    && (t in s.jobs ==> JobOk(s, t) && About(s.jobs[t], m)) && (t !in s.jobs ==> t == s.next)
  }

  lemma LoseGood(s: Sys, m: string)
    requires Ready(s, s.next, m)
    ensures Good(s, LoseProvider(s, m), s.next, m)
  {
    ShapeGood(s, LoseProvider(s, m), s.next, m, Lost(s.slots[m]), None, Some(Notifying(m, ToArm)));
  }

  lemma ArmGood(s: Sys, m: string, g: nat)
    requires Ready(s, s.next, m)
    ensures Good(s, ArmProvider(s, m, g), s.next, m)
  {
    var (y, go) := Armed(s.slots[m], g);
    ShapeGood(s, ArmProvider(s, m, g), s.next, m, y, None, if go then Some(Notifying(m, ToArm)) else None);
  }

  lemma ReplaceGood(s: Sys, m: string)
    requires Ready(s, s.next, m)
    ensures Good(s, ReplaceClient(s, m), s.next, m)
  {
    var (y, swapped) := ClientReplaced(s.slots[m]);
    ShapeGood(s, ReplaceClient(s, m), s.next, m, y, None, Some(if swapped then Notifying(m, ToArm) else Arming(m)));
  }

  lemma Unchanged(s: Sys, t: nat, m: string)
    requires Ready(s, t, m)
    ensures Good(s, s, t, m)
  {
    assert s.slots == s.slots[m := s.slots[m]];
    assert t in s.jobs ==> s.jobs == s.jobs[t := s.jobs[t]];
    ShapeGood(s, s, t, m, s.slots[m], At(s, t), None);
  }

  lemma UnavailableGood(s: Sys, m: string)
    requires Ready(s, s.next, m)
    ensures Good(s, GoUnavailable(s, m), s.next, m)
  {
    var (y, go) := CallUnavailable(s.slots[m]);
    if go {
      ShapeGood(s, GoUnavailable(s, m), s.next, m, y, None, Some(Notifying(m, ToArm)));
    } else {
      Unchanged(s, s.next, m);
    }
  }

  lemma FireGood(cfg: seq<ExposedModule>, s: Sys, m: string)
    requires Ready(s, s.next, m) && m in s.timers && m != RevalidateTimer && m != DocsTimer
    ensures Good(s, FireTimer(cfg, s, m), s.next, m)
  {
    assert s.slots == s.slots[m := s.slots[m]];
    ShapeGood(s, FireTimer(cfg, s, m), s.next, m, s.slots[m], None, Some(Refreshing(m)));
  }

  lemma RefreshGood(s: Sys, t: nat, m: string)
    requires Ready(s, t, m) && t in s.jobs && s.jobs[t] == Refreshing(m)
    ensures Good(s, RunRefresh(s, t, m), t, m)
  {
    var y := Refreshed(s.slots[m]);
    ShapeGood(s, RunRefresh(s, t, m), t, m, y, Some(Calling(m, y.attempt, s.Resets(m), Interface)), None);
  }

  /** Job t becomes j and nothing else happens, but for timers. */
  lemma PassGood(s: Sys, s': Sys, t: nat, m: string, j: Option<Job>)
    requires Ready(s, t, m) && t in s.jobs && (j.Some? ==> About(j.value, m))
    requires s'.slots == s.slots && s'.resets == s.resets && s'.publishes == s.publishes && s'.next == s.next
    requires s'.jobs == JobsAfter(s, t, j, None) && s.timers <= s'.timers
    requires CarriesNow(j, m, s.slots[m].attempt) == Carries(s.jobs[t], m, s.slots[m].attempt)
    requires Brings(s.jobs[t], m) ==> BringsNow(j, m) || m in s'.timers
    requires !s.jobs[t].Refreshing? && JobOk(s', t)
    ensures Good(s, s', t, m)
  {
    assert s.slots == s.slots[m := s.slots[m]];
    ShapeGood(s, s', t, m, s.slots[m], j, None);
  }

  lemma CallAnswered(s: Sys, t: nat, r: Reply, m: string)
    requires Ready(s, t, m) && t in s.jobs && s.jobs[t].Calling? && Fits(s.jobs[t].stage, r)
    ensures Good(s, Answered(s, t, r), t, m)
  {
    hide Good, Fits;
    var j := s.jobs[t];
    PassGood(s, Answered(s, t, r), t, m, Some(Resuming(j.name, j.attempt, j.stamp, j.stage, r)));
  }

  lemma CheckAnswered(s: Sys, t: nat, r: Reply, m: string)
    requires Ready(s, t, m) && t in s.jobs && s.jobs[t].Checking? && r.OfInterface?
    ensures Good(s, Answered(s, t, r), t, m)
  {
    hide Good, Fits;
    var j := s.jobs[t];
    PassGood(s, Answered(s, t, r), t, m, Some(Checked(j.name, j.attempt, j.stamp, r.interface)));
  }

  lemma AnsweredGood(s: Sys, t: nat, r: Reply, m: string)
    requires Ready(s, t, m) && t in s.jobs
    ensures Good(s, Answered(s, t, r), t, m)
  {
    hide Good, Fits, Ready;
    match s.jobs[t]
    case Calling(_, _, _, stage) => if Fits(stage, r) { CallAnswered(s, t, r, m); } else { Unchanged(s, t, m); }
    case Checking(_, _, _) => if r.OfInterface? { CheckAnswered(s, t, r, m); } else { Unchanged(s, t, m); }
    case _ => Unchanged(s, t, m);
  }

  /** An attempt found superseded is dropped; one found current goes on. */
  lemma ResumeGood(cfg: seq<ExposedModule>, s: Sys, t: nat, m: string)
    requires Ready(s, t, m) && t in s.jobs && s.jobs[t].Resuming?
    ensures Good(s, Go(cfg, s, t), t, m)
  {
    PassGood(s, Go(cfg, s, t), t, m, At(Go(cfg, s, t), t));
  }

  lemma ContinueHandles(s: Sys, s': Sys, t: nat, m: string, attempt: nat, stamp: nat, r: Reply)
    requires var next := ToHandle(attempt, stamp, r);
      && Ready(s, t, m) && t in s.jobs && (s.jobs[t] == Notifying(m, next) || s.jobs[t] == Requesting(m, next))
      && (s' == s || s' == s.(timers := s.timers + {DocsTimer}))
    ensures Good(s, Continue(s', t, m, ToHandle(attempt, stamp, r)), t, m)
  {
    hide Good;
    PassGood(s, Continue(s', t, m, ToHandle(attempt, stamp, r)), t, m, Some(Handling(m, attempt, stamp, Interface, r)));
  }

  lemma ContinueGood(s: Sys, s': Sys, t: nat, m: string, next: Then)
    requires Ready(s, t, m) && t in s.jobs && (s.jobs[t] == Notifying(m, next) || s.jobs[t] == Requesting(m, next))
    requires s' == s || s' == s.(timers := s.timers + {DocsTimer})
    ensures Good(s, Continue(s', t, m, next), t, m)
  {
    hide Good;
    match next
    case Done => PassGood(s, Continue(s', t, m, next), t, m, None);
    case ToArm => PassGood(s, Continue(s', t, m, next), t, m, Some(Arming(m)));
    case ToHandle(attempt, stamp, r) => ContinueHandles(s, s', t, m, attempt, stamp, r);
  }

  lemma NotifyGood(cfg: seq<ExposedModule>, s: Sys, t: nat, m: string)
    requires Ready(s, t, m) && t in s.jobs && (s.jobs[t].Notifying? || s.jobs[t].Requesting?)
    ensures Good(s, Go(cfg, s, t), t, m)
  {
    hide Continue;
    match s.jobs[t]
    case Notifying(_, next) =>
      if s.pending { ContinueGood(s, s, t, m, next); } else { PassGood(s, Go(cfg, s, t), t, m, Some(Requesting(m, next))); }
    case Requesting(_, next) => ContinueGood(s, s.(timers := s.timers + {DocsTimer}), t, m, next);
  }

  lemma ArmingGood(cfg: seq<ExposedModule>, s: Sys, t: nat, m: string)
    requires Ready(s, t, m) && t in s.jobs && s.jobs[t].Arming?
    ensures Good(s, Go(cfg, s, t), t, m)
  {
    PassGood(s, Go(cfg, s, t), t, m, None);
  }

  lemma MissGood(s: Sys, t: nat, m: string)
    requires Ready(s, t, m) && t in s.jobs && s.jobs[t].Handling?
    ensures Good(s, MissReport(s, t), t, m)
  {
    var (y, go) := Missed(s.slots[m], s.jobs[t].attempt);
    if go {
      ShapeGood(s, MissReport(s, t), t, m, y, Some(Arming(m)), None);
    } else {
      PassGood(s, MissReport(s, t), t, m, None);
    }
  }

  lemma AskGood(s: Sys, t: nat, m: string, stage: Stage)
    requires Ready(s, t, m) && t in s.jobs && s.jobs[t].Handling?
    ensures Good(s, Put(s, t, Calling(m, s.jobs[t].attempt, s.jobs[t].stamp, stage)), t, m)
  {
    var j := Calling(m, s.jobs[t].attempt, s.jobs[t].stamp, stage);
    PassGood(s, Put(s, t, j), t, m, Some(j));
  }

  lemma PublishGood(cfg: seq<ExposedModule>, s: Sys, t: nat, m: string, v: View, retry: bool)
    requires Ready(s, t, m) && t in s.jobs && s.jobs[t].Handling? && v.Resolved()
    ensures Good(s, PublishStep(cfg, s, t, v, retry), t, m)
  {
    var s' := PublishStep(cfg, s, t, v, retry);
    assert Exposed(cfg, m, v).status == v.status;
    var w := Exposed(cfg, m, v);
    hide Exposed;
    if s.slots[m].attempt != s.jobs[t].attempt {
      PassGood(s, s', t, m, None);
    } else {
      PublishedGood(s, s', t, m, Published(s.slots[m], s.jobs[t].attempt, w, retry).0, retry);
    }
  }

  lemma PublishedGood(s: Sys, s': Sys, t: nat, m: string, y: Slot, retry: bool)
    requires Ready(s, t, m) && t in s.jobs && s.jobs[t].Handling? && s.jobs[t].attempt == s.slots[m].attempt
    requires y.attempt == s.slots[m].attempt && !y.inFlight && y.retryArmed == retry && !Unsettled(y.view)
    requires s' == s.(slots := s.slots[m := y], publishes := s.publishes[m := s.Publishes(m) + 1],
                      jobs := s.jobs[t := Notifying(m, if retry then ToArm else Done)])
    ensures Good(s, s', t, m)
  {
    ShapeGood(s, s', t, m, y, Some(s'.jobs[t]), None);
  }

  lemma VisitStarts(s: Sys, t: nat, names: seq<string>)
    requires names != [] && t in s.jobs && s.jobs[t] == Rounding(names) && Ready(s, t, names[0])
    requires CheckStarted(s.slots[names[0]]).1
    ensures Good(s, Visit(s, t, names), t, names[0])
  {
    hide Good;
    var m := names[0];
    ShapeGood(s, Visit(s, t, names), t, m, CheckStarted(s.slots[m]).0, Some(Rounding(names[1..])),
              Some(Checking(m, s.slots[m].attempt, s.Resets(m))));
  }

  lemma VisitGood(s: Sys, t: nat, names: seq<string>)
    requires names != [] && t in s.jobs && s.jobs[t] == Rounding(names) && Ready(s, t, names[0])
    ensures Good(s, Visit(s, t, names), t, names[0])
  {
    hide Good;
    if CheckStarted(s.slots[names[0]]).1 {
      VisitStarts(s, t, names);
    } else {
      PassGood(s, Visit(s, t, names), t, names[0], Some(Rounding(names[1..])));
    }
  }

  lemma ReadGood(s: Sys, t: nat, m: string)
    requires Ready(s, t, m) && t in s.jobs && s.jobs[t].Checked?
    ensures Good(s, EndRead(s, t), t, m)
  {
    hide Good;
    ShapeGood(s, EndRead(s, t), t, m, CheckEnded(s.slots[m], s.jobs[t].attempt).0, At(EndRead(s, t), t), None);
  }

  lemma CompareGood(s: Sys, t: nat, m: string)
    requires Ready(s, t, m) && t in s.jobs && s.jobs[t].Comparing?
    ensures Good(s, Compare(s, t), t, m)
  {
    hide Revalidate, CallUnavailable, Reread;
    var (j, s') := (s.jobs[t], Compare(s, t));
    match Revalidate(j.seen, j.report)
    case Keep => PassGood(s, s', t, m, None);
    case MarkStale => if CallUnavailable(s.slots[m]).1 { MarkStaleGood(s, s', t, m); } else { PassGood(s, s', t, m, None); }
    case Refresh => if Reread(s.slots[m], j.attempt).1 { RereadGood(s, s', t, m); } else { PassGood(s, s', t, m, None); }
  }

  lemma MarkStaleGood(s: Sys, s': Sys, t: nat, m: string)
    requires Ready(s, t, m) && t in s.jobs && s.jobs[t].Comparing? && CallUnavailable(s.slots[m]).1
    requires s' == Put(s.(slots := s.slots[m := CallUnavailable(s.slots[m]).0]), t, Notifying(m, ToArm))
    ensures Good(s, s', t, m)
  {
    ShapeGood(s, s', t, m, CallUnavailable(s.slots[m]).0, Some(Notifying(m, ToArm)), None);
  }

  lemma RereadGood(s: Sys, s': Sys, t: nat, m: string)
    requires Ready(s, t, m) && t in s.jobs && s.jobs[t].Comparing? && Reread(s.slots[m], s.jobs[t].attempt).1
    requires
      var (j, y) := (s.jobs[t], Reread(s.slots[m], s.jobs[t].attempt).0);
      s' == Put(s.(slots := s.slots[m := y]), t, Notifying(m, ToHandle(y.attempt, j.stamp, OfInterface(j.report))))
    ensures Good(s, s', t, m)
  {
    ShapeGood(s, s', t, m, Reread(s.slots[m], s.jobs[t].attempt).0, Some(s'.jobs[t]), None);
  }

  /** A step that concerns no configured module. */
  lemma StrayGood(s: Sys, s': Sys, t: nat, m: string, j: Option<Job>, n: Option<Job>)
    requires m !in s.slots && s'.slots == s.slots && s'.resets == s.resets && s'.publishes == s.publishes
    requires s'.jobs == JobsAfter(s, t, j, n) && s'.next == s.next + B(n.Some?) && JobOk(s, s.next)
    requires forall k | k in s.timers && k in s.slots :: k in s'.timers
    requires (t in s.jobs ==> About(s.jobs[t], m)) && (j.Some? ==> About(j.value, m)) && (n.Some? ==> About(n.value, m))
    requires (t in s.jobs || (t == s.next && j == None)) && JobOk(s', t) && JobOk(s', s.next)
    ensures Good(s, s', t, m)
  {
    hide JobOk, Turns, KeepsDue, KeepsQueued;
    assert s.next !in s.jobs by { StrayNext(s); }
    StrayRest(s, s', t, m);
  }

  lemma StrayNext(s: Sys)
    requires JobOk(s, s.next)
    ensures s.next !in s.jobs
  {
  }

  lemma StrayRest(s: Sys, s': Sys, t: nat, m: string)
    requires m !in s.slots && m !in s'.slots
    ensures Turns(s, s', t, m) && KeepsDue(s, s', t, m) && KeepsQueued(s, s', t, m)
  {
  }

  // ---------------------------------------------------------------------------
  // Every step
  // ---------------------------------------------------------------------------

  lemma Visible(cfg: seq<ExposedModule>, s: Sys, t: nat, m: string)
    requires SlotsInv(cfg, s) && m in s.slots
    requires if t in s.jobs then About(s.jobs[t], m) else t == s.next
    ensures Ready(s, t, m)
  {
    assert SlotOk(s, m) && JobOk(s, t) && JobOk(s, s.next);
  }

  /** No configured module is named like a fixed timer: their keys contain a space. */
  lemma FixedKeys(cfg: seq<ExposedModule>, self: string, s: Sys)
    requires GoodModules(cfg, self) && SlotsInv(cfg, s)
    ensures RevalidateTimer !in s.slots && DocsTimer !in s.slots
  {
    assert RevalidateTimer[10] == ' ' && DocsTimer[7] == ' ';
    forall i | 0 <= i < |cfg| ensures ' ' !in cfg[i].name {
      assert GoodModule(cfg[i], self) && Refused(' ');
    }
    assert RevalidateTimer in s.slots <==> Find(cfg, RevalidateTimer) < |cfg|;
    assert DocsTimer in s.slots <==> Find(cfg, DocsTimer) < |cfg|;
  }
}
