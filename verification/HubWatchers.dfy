/** A loss is heard: in every run the watch marks stay within the module's epoch, and once nothing is running
    the one status callback whose reports count is that of the module's current client. */
module HubWatchers {
  import opened Prelude
  import opened ClientRegistries
  import RegistryRuns
  import opened SubscriptionHubs
  import opened HubRuns
  import opened HubTheorems

  /** The marks follow the module's clients, and the installed one has its callback. */
  ghost predicate MarksOk(s: Sys, m: string)
    requires s.Linked()
  {
    && Installed(s, m) <= Accept(s, m) <= s.Ep(m)
    && (Installed(s, m) > 0 ==> s.watchers[(m, Installed(s, m))] > 0)
  }

  /** Whatever client a subscription was bound to, or was refused by, had its watcher installed first. */
  ghost predicate UpWatched(s: Sys, u: nat) {
    u in s.hub.heap ==>
      s.hub.heap[u].epoch <= Installed(s, s.hub.heap[u].name) && s.Refused(u) <= Installed(s, s.hub.heap[u].name)
  }

  ghost predicate ThreadWatched(s: Sys, t: nat)
    requires s.Linked()
  {
    t in s.threads ==>
      match s.threads[t]
      case Retiring(m, e) => e <= s.Ep(m)
      case Binding(u, _, lease, pc, _, _) =>
        u in s.hub.heap && (pc.AtSubscribe? || pc.AtCommit? ==> lease <= Installed(s, s.hub.heap[u].name))
      case _ => true
  }

  ghost predicate Watchful(s: Sys) {
    && s.Linked()
    && (forall m {:trigger MarksOk(s, m)} :: MarksOk(s, m))
    && (forall u {:trigger UpWatched(s, u)} :: UpWatched(s, u))
    && (forall t {:trigger ThreadWatched(s, t)} :: ThreadWatched(s, t))
  }

  /** Nothing about watching moved, but for new subscriptions. */
  ghost predicate Still(s: Sys, s': Sys) {
    && s'.world == s.world && s'.hub.watch == s.hub.watch && s'.watchers == s.watchers && s'.refused == s.refused
    && (forall u | u in s.hub.heap :: u in s'.hub.heap && s'.hub.heap[u].name == s.hub.heap[u].name)
    && (forall u | u in s'.hub.heap ::
          if u in s.hub.heap then s'.hub.heap[u].epoch == s.hub.heap[u].epoch
          else s'.hub.heap[u].epoch == 0 && s.Refused(u) == 0)
  }

  predicate Harmless(s: Sys, th: Thread) {
    !th.Retiring? && (th.Binding? ==> th.up in s.hub.heap && !th.pc.AtSubscribe? && !th.pc.AtCommit?)
  }

  ghost predicate HarmlessMoves(s: Sys, s': Sys) {
    forall t | t in s'.threads :: (t in s.threads && s'.threads[t] == s.threads[t]) || Harmless(s', s'.threads[t])
  }

  lemma StillWatchful(s: Sys, s': Sys)
    requires Watchful(s) && Still(s, s') && s'.Linked() && HarmlessMoves(s, s')
    ensures Watchful(s')
  {
    forall m ensures MarksOk(s', m) { assert MarksOk(s, m); }
    forall u ensures UpWatched(s', u) { assert UpWatched(s, u); }
    forall t ensures ThreadWatched(s', t) { assert ThreadWatched(s, t); }
  }

  /** The registry's epochs only grow. */
  lemma WorldWatchful(s: Sys, w: RegistryRuns.World)
    requires Watchful(s) && w.reg.Linked() && forall m :: s.Ep(m) <= w.reg.Epoch(m)
    ensures Watchful(s.(world := w))
  {
    var s' := s.(world := w);
    forall m ensures MarksOk(s', m) { assert MarksOk(s, m); }
    forall u ensures UpWatched(s', u) { assert UpWatched(s, u); }
    forall t ensures ThreadWatched(s', t) { assert ThreadWatched(s, t); }
  }

  lemma RegistryWatchful(s: Sys, a: RegistryRuns.Action)
    requires Watchful(s) && RegistryRuns.Inv(s.world)
    ensures Watchful(s.(world := RegistryRuns.Step(s.world, a)))
  {
    hide RegistryRuns.Step, RegistryRuns.Inv, Watchful;
    WatchfulLinked(s);
    var w := RegistryRuns.Step(s.world, a);
    RegistryRuns.EpochGrows(s.world, a, "");
    forall m ensures s.Ep(m) <= w.reg.Epoch(m) { RegistryRuns.EpochGrows(s.world, a, m); }
    WorldWatchful(s, w);
  }

  lemma WatchfulLinked(s: Sys)
    requires Watchful(s)
    ensures s.Linked()
  {
  }

  lemma MoveWatchful(s: Sys, t: nat, th: Thread)
    requires Watchful(s) && ThreadWatched(s.(threads := s.threads[t := th]), t)
    ensures Watchful(s.(threads := s.threads[t := th]))
  {
    var s' := s.(threads := s.threads[t := th]);
    forall m ensures MarksOk(s', m) { assert MarksOk(s, m); }
    forall u ensures UpWatched(s', u) { assert UpWatched(s, u); }
    forall x ensures ThreadWatched(s', x) { assert ThreadWatched(s, x); }
  }

  lemma ReplacingWatchful(s: Sys, m: string, e: nat, now: int)
    requires Watchful(s) && RegistryRuns.Inv(s.world)
    ensures Watchful(Replacing(s, m, e, now))
  {
    hide RegistryRuns.Step, RegistryRuns.Inv, Watchful, Replace;
    WatchfulLinked(s);
    if Replace(s.world.reg, m, e, now).1 {
      var a := RegistryRuns.Swap(m, e, now);
      var v := s.(world := RegistryRuns.Step(s.world, a));
      RegistryWatchful(s, a);
      RegistryRuns.EpochGrows(s.world, a, m);
      ReplacedEpoch(s.world.reg, m, e, now);
      var n := v.(next := v.next + 1);
      NextWatchful(v);
      MoveWatchful(n, v.next, Retiring(m, e + 1));
    }
  }

  lemma ReplacedEpoch(r: Reg, m: string, e: nat, now: int)
    requires r.Linked() && Replace(r, m, e, now).1
    ensures r.Epoch(m) == e
  {
  }

  lemma NextWatchful(s: Sys)
    requires Watchful(s)
    ensures Watchful(s.(next := s.next + 1))
  {
    var s' := s.(next := s.next + 1);
    forall m ensures MarksOk(s', m) { assert MarksOk(s, m); }
    forall u ensures UpWatched(s', u) { assert UpWatched(s, u); }
    forall t ensures ThreadWatched(s', t) { assert ThreadWatched(s, t); }
  }

  lemma AddStill(s: Sys, m: string, ev: string, id: nat)
    requires s.Linked() && UpOk(s, s.hub.next)
    ensures Still(s, Adding(s, m, ev, id))
  {
    AddHubStill(s.hub, m, ev, id);
    AddingHub(s, m, ev, id);
    hide Hub.Add, Adding;
  }

  lemma AddingHub(s: Sys, m: string, ev: string, id: nat)
    requires s.hub.Linked()
    ensures
      var s' := Adding(s, m, ev, id);
      && s'.world == s.world && s'.hub == s.hub.Add(m, ev, id).0 && s'.watchers == s.watchers && s'.refused == s.refused
  {
    hide Hub.Add;
  }

  lemma AddMoves(s: Sys, m: string, ev: string, id: nat)
    requires s.hub.Linked()
    ensures HarmlessMoves(s, Adding(s, m, ev, id))
  {
    AddHubStill(s.hub, m, ev, id);
    hide Hub.Add;
  }

  lemma AddHubStill(hub: Hub, m: string, ev: string, id: nat)
    requires hub.Linked()
    ensures
      var (hub', u, created) := hub.Add(m, ev, id);
      && hub'.watch == hub.watch && u in hub'.heap && (created ==> u == hub.next)
      && (forall v | v in hub.heap :: v in hub'.heap && hub'.heap[v].name == hub.heap[v].name && hub'.heap[v].epoch == hub.heap[v].epoch)
      && (forall v | v in hub'.heap && v !in hub.heap :: v == hub.next && hub'.heap[v].epoch == 0)
  {
  }

  lemma QuietStill(s: Sys, a: Action)
    requires s.Linked() && (a.Remove? || a.Report? || a.ProviderChanged? || a.ClearHub?)
    ensures Still(s, Step(s, a))
  {
    hide Go, Replacing, Adding, RegistryRuns.Step, Still;
    match a
    case Remove(m, ev, id) => RemoveStill(s, m, ev, id);
    case Report(_, _, _) => StillSame(s, Step(s, a));
    case ProviderChanged(_) => StillSame(s, Step(s, a));
    case ClearHub => ClearStill(s);
    case _ =>
  }

  lemma RemoveStill(s: Sys, m: string, ev: string, id: nat)
    requires s.hub.Linked()
    ensures Still(s, s.(hub := s.hub.Remove(m, ev, id)))
  {
  }

  lemma ClearStill(s: Sys)
    requires s.Linked()
    ensures Still(s, Step(s, ClearHub))
  {
  }

  lemma QuietMoves(s: Sys, a: Action)
    requires s.Linked() && (a.Remove? || a.Report? || a.ProviderChanged? || a.ClearHub?)
    ensures HarmlessMoves(s, Step(s, a))
  {
    hide Go, Replacing, Adding, RegistryRuns.Step;
    match a
    case Remove(_, _, _) =>
    case Report(_, _, _) =>
    case ProviderChanged(_) =>
    case ClearHub =>
    case _ =>
  }

  lemma TakeStill(s: Sys, t: nat)
    requires s.Linked() && t in s.threads && s.threads[t].Losing?
    ensures Still(s, Take(s, t)) && HarmlessMoves(s, Take(s, t))
  {
    var th := s.threads[t];
    if th.events != [] {
      TakeHubStill(s.hub, th.name, th.events[0]);
    }
    hide Hub.TakeSubscribers;
  }

  lemma TakeHubStill(hub: Hub, m: string, ev: string)
    requires hub.Linked()
    ensures
      var hub' := hub.TakeSubscribers(m, ev).0;
      && hub'.watch == hub.watch && hub'.heap.Keys == hub.heap.Keys
      && (forall v | v in hub.heap :: hub'.heap[v].name == hub.heap[v].name && hub'.heap[v].epoch == hub.heap[v].epoch)
  {
  }

  lemma TellStill(s: Sys, t: nat)
    requires t in s.threads && s.threads[t].Losing? && s.threads[t].ids != []
    ensures Still(s, Tell(s, t)) && HarmlessMoves(s, Tell(s, t))
  {
    hide Still;
    StillSame(s, Tell(s, t));
  }

  lemma ListStill(s: Sys, t: nat, ups: seq<nat>)
    requires s.Linked() && t in s.threads && s.threads[t].Listing?
    ensures Still(s, List(s, t, ups)) && HarmlessMoves(s, List(s, t, ups))
  {
    hide Still;
    StillSame(s, List(s, t, ups));
    if s.hub.Lists(s.threads[t].name, ups) && ups != [] {
      assert ups[0] in ups;
    }
  }

  lemma ListEventsStill(s: Sys, t: nat, ups: seq<nat>)
    requires s.Linked() && t in s.threads && s.threads[t].Lost?
    ensures Still(s, ListEvents(s, t, ups)) && HarmlessMoves(s, ListEvents(s, t, ups))
  {
    hide Still;
    StillSame(s, ListEvents(s, t, ups));
  }

  lemma ForgetStill(s: Sys, t: nat)
    requires s.Linked() && t in s.threads && s.threads[t].Forgetting? && s.threads[t].up in s.hub.heap
    ensures
      var s' := SetThread(s.(hub := s.hub.Forget(s.threads[t].up)), t, None);
      Still(s, s') && HarmlessMoves(s, s')
  {
  }

  lemma RetireWatchful(s: Sys, t: nat)
    requires Watchful(s) && t in s.threads && s.threads[t].Retiring?
    ensures
      var th := s.threads[t];
      Watchful(SetThread(s.(hub := s.hub.Retire(th.name, th.epoch)), t, Some(Listing(th.name))))
  {
    var th := s.threads[t];
    var s' := SetThread(s.(hub := s.hub.Retire(th.name, th.epoch)), t, Some(Listing(th.name)));
    assert ThreadWatched(s, t);
    forall m ensures MarksOk(s', m) { assert MarksOk(s, m); }
    forall u ensures UpWatched(s', u) { assert UpWatched(s, u); }
    forall x ensures ThreadWatched(s', x) { assert ThreadWatched(s, x); }
  }

  // ---------------------------------------------------------------------------
  // bind()
  // ---------------------------------------------------------------------------

  lemma LeaseWatchful(s: Sys, t: nat, now: int)
    requires Watchful(s) && Ready(s, t) && RegistryRuns.Inv(s.world) && ThreadOk(s, t)
    ensures Watchful(LeaseStep(s, t, now))
  {
    hide RegistryRuns.Step, RegistryRuns.Inv, Watchful, Still;
    var th := s.threads[t];
    var m := s.hub.heap[th.up].name;
    var v := s.(world := RegistryRuns.Step(s.world, RegistryRuns.Lookup(m, now)));
    RegistryWatchful(s, RegistryRuns.Lookup(m, now));
    WatchfulLinked(v);
    var s' := LeaseStep(s, t, now);
    FinishHarmless(v, th);
    StillSame(v, s');
    StillWatchful(v, s');
  }

  /** Only threads and handles differ. */
  lemma StillSame(s: Sys, s': Sys)
    requires s'.world == s.world && s'.hub == s.hub && s'.watchers == s.watchers && s'.refused == s.refused
    ensures Still(s, s')
  {
  }

  lemma FinishHarmless(s: Sys, th: Thread)
    requires th.Binding? && th.up in s.hub.heap && forall r | r in th.rest :: r in s.hub.heap
    ensures forall ok :: Finish(th, ok).Some? ==> Harmless(s, Finish(th, ok).value)
  {
    if th.rest != [] {
      assert th.rest[0] in th.rest;
    }
  }

  /** The steps that only move the thread on. */
  lemma MovingWatchful(s: Sys, t: nat, s': Sys)
    requires Watchful(s) && Ready(s, t) && ThreadOk(s, t)
    requires s' == Check(s, t) || s' == Recheck(s, t) || (s.threads[t].pc.AtDestroy? && s' == Destroy(s, t))
    ensures Watchful(s')
  {
    hide Watchful, Still;
    WatchfulLinked(s);
    FinishHarmless(s, s.threads[t]);
    StillSame(s, s');
    StillWatchful(s, s');
  }

  lemma RefusedWatchful(s: Sys, t: nat, ok: bool)
    requires Watchful(s) && Ready(s, t) && ThreadOk(s, t)
    ensures Watchful(SetThread(s, t, Finish(s.threads[t], ok)))
  {
    hide Watchful, Still;
    WatchfulLinked(s);
    FinishHarmless(s, s.threads[t]);
    StillSame(s, SetThread(s, t, Finish(s.threads[t], ok)));
    StillWatchful(s, SetThread(s, t, Finish(s.threads[t], ok)));
  }

  lemma WatchWatchful(s: Sys, t: nat)
    requires Watchful(s) && Ready(s, t) && ThreadOk(s, t) && s.threads[t].pc.AtWatch?
    ensures Watchful(WatchStep(s, t))
  {
    var s' := WatchStep(s, t);
    var n := s.hub.heap[s.threads[t].up].name;
    assert 1 <= s.threads[t].lease <= s.Ep(n);
    assert s'.Linked();
    forall m ensures MarksOk(s', m) { assert MarksOk(s, m); }
    forall u ensures UpWatched(s', u) { assert UpWatched(s, u) && MarksOk(s, n); }
    forall x ensures ThreadWatched(s', x) { assert ThreadWatched(s, x) && MarksOk(s, n); }
  }

  lemma SubscribeWatchful(s: Sys, t: nat)
    requires Watchful(s) && Ready(s, t) && s.threads[t].pc.AtSubscribe?
    ensures Watchful(Got(s, t)) && Watchful(Refuse(s, t))
  {
    assert ThreadWatched(s, t);
    var (g, r) := (Got(s, t), Refuse(s, t));
    forall m ensures MarksOk(g, m) && MarksOk(r, m) { assert MarksOk(s, m); }
    forall u ensures UpWatched(g, u) && UpWatched(r, u) { assert UpWatched(s, u); }
    forall x ensures ThreadWatched(g, x) && ThreadWatched(r, x) { assert ThreadWatched(s, x); }
  }

  lemma CommitWatchful(s: Sys, t: nat)
    requires Watchful(s) && Ready(s, t) && s.threads[t].pc.AtCommit?
    ensures Watchful(Commit(s, t))
  {
    assert ThreadWatched(s, t);
    var s' := Commit(s, t);
    assert s'.Linked();
    forall m ensures MarksOk(s', m) { assert MarksOk(s, m); }
    forall u ensures UpWatched(s', u) { assert UpWatched(s, u); }
    forall x ensures ThreadWatched(s', x) { assert ThreadWatched(s, x); }
  }

  lemma BindWatchful(s: Sys, t: nat, now: int, ok: bool)
    requires Watchful(s) && Ready(s, t) && ThreadOk(s, t) && RegistryRuns.Inv(s.world)
    ensures Watchful(Bind(s, t, now, ok))
  {
    hide LeaseStep, Check, WatchStep, Got, Refuse, Commit, Destroy, Recheck, RegistryRuns.Inv, Watchful, ThreadOk;
    match s.threads[t].pc
    case AtGet => LeaseWatchful(s, t, now);
    case AtCheck => MovingWatchful(s, t, Check(s, t));
    case AtWatch => WatchWatchful(s, t);
    case AtSubscribe => SubscribeWatchful(s, t);
    case AtRefused => RefusedWatchful(s, t, s.hub.heap[s.threads[t].up].epoch != 0);
    case AtCommit(_) => CommitWatchful(s, t);
    case AtDestroy(_, _) => MovingWatchful(s, t, Destroy(s, t));
    case AtRecheck => MovingWatchful(s, t, Recheck(s, t));
  }

  // ---------------------------------------------------------------------------
  // Runs
  // ---------------------------------------------------------------------------

  lemma GoWatchful(s: Sys, t: nat, now: int, ok: bool, ups: seq<nat>)
    requires Watchful(s) && s.Linked() && t in s.threads && ThreadOk(s, t) && RegistryRuns.Inv(s.world)
    ensures Watchful(Go(s, t, now, ok, ups))
  {
    hide Bind, Tell, Take, List, ListEvents, RegistryRuns.Inv, Watchful, Still, HarmlessMoves, ThreadOk, Forward;
    GoForward(s, t, now, ok, ups, "", 0);
    match s.threads[t]
    case Retiring(_, _) => RetireWatchful(s, t);
    case Listing(_) => ListStill(s, t, ups); StillWatchful(s, List(s, t, ups));
    case Lost(_) => ListEventsStill(s, t, ups); StillWatchful(s, ListEvents(s, t, ups));
    case Forgetting(u) =>
      if u in s.hub.heap {
        ForgetStill(s, t);
        StillWatchful(s, SetThread(s.(hub := s.hub.Forget(u)), t, None));
      }
    case Losing(_, _, ids) =>
      if ids != [] { TellStill(s, t); StillWatchful(s, Tell(s, t)); } else { TakeStill(s, t); StillWatchful(s, Take(s, t)); }
    case Binding(u, _, _, _, _, _) => if u in s.hub.heap { BindWatchful(s, t, now, ok); }
  }

  lemma StepWatchful(s: Sys, a: Action)
    requires s.Linked() && Watchful(s) && RegistryRuns.Inv(s.world) && UpOk(s, s.hub.next)
    requires a.Advance? ==> ThreadOk(s, a.thread)
    ensures Watchful(Step(s, a))
  {
    hide Go, Replacing, Adding, Reporting, RegistryRuns.Step, RegistryRuns.Inv, Watchful, ThreadOk, UpOk;
    match a
    case Registry(b) => RegistryWatchful(s, b);
    case Replaced(m, e, now) => ReplacingWatchful(s, m, e, now);
    case Add(m, ev, id) => AddWatchful(s, m, ev, id);
    case Advance(t, now, ok, ups) => if t in s.threads { GoWatchful(s, t, now, ok, ups); }
    case Remove(_, _, _) => QuietWatchful(s, a);
    case Report(_, _, _) => QuietWatchful(s, a);
    case ProviderChanged(_) => QuietWatchful(s, a);
    case ClearHub => QuietWatchful(s, a);
  }

  lemma AddWatchful(s: Sys, m: string, ev: string, id: nat)
    requires s.Linked() && Watchful(s) && UpOk(s, s.hub.next)
    ensures Watchful(Adding(s, m, ev, id))
  {
    hide Adding, Watchful, Still, HarmlessMoves, UpOk;
    AddStill(s, m, ev, id);
    AddMoves(s, m, ev, id);
    AddLinked(s, m, ev, id);
    StillWatchful(s, Adding(s, m, ev, id));
  }

  lemma AddLinked(s: Sys, m: string, ev: string, id: nat)
    requires s.Linked()
    ensures Adding(s, m, ev, id).Linked()
  {
    hide Forward;
    AddingForward(s, m, ev, id, "", 0);
  }

  lemma QuietWatchful(s: Sys, a: Action)
    requires s.Linked() && Watchful(s) && (a.Remove? || a.Report? || a.ProviderChanged? || a.ClearHub?)
    ensures Watchful(Step(s, a))
  {
    hide Step, Watchful, Still, HarmlessMoves, Forward;
    QuietStill(s, a);
    QuietMoves(s, a);
    QuietForward(s, a, "", 0);
    StillWatchful(s, Step(s, a));
  }

  lemma {:induction false} WatchfulKept(run: seq<Action>)
    ensures Watchful(Run(run))
  {
    if run == [] {
      StartWatchful();
    } else {
      var (before, a) := (run[..|run| - 1], run[|run| - 1]);
      WatchfulKept(before);
      RunKeeps(before);
      assert UpOk(Run(before), Run(before).hub.next);
      assert a.Advance? ==> ThreadOk(Run(before), a.thread);
      hide BindInv, Step, Watchful, RegistryRuns.Inv, UpOk, ThreadOk;
      StepWatchful(Run(before), a);
    }
  }

  lemma StartWatchful()
    ensures Watchful(Start)
  {
    forall m ensures MarksOk(Start, m) {}
    forall u ensures UpWatched(Start, u) {}
    forall t ensures ThreadWatched(Start, t) {}
  }

  /** Once no add, bind, replacement hook or loss is running and both halves are open, a report of a loss by the
      current client of a module with a live subscription is heard: it starts the thread that will tell the
      module's subscribers. */
  lemma {:induction false} LossIsHeard(run: seq<Action>, m: string, ev: string)
    requires Run(run).threads == map[] && !Run(run).world.reg.closed
    requires (m, ev) in Run(run).hub.live
    ensures
      var s := Run(run);
      && s.Linked() && s.hub.Accepts(m, s.Ep(m)) && s.watchers[(m, s.Ep(m))] == 1
      && Step(s, Report(m, s.Ep(m), true)).threads == map[s.next := Lost(m)]
      && Step(s, ProviderChanged(m)).threads == map[s.next := Lost(m)]
  {
    var s := Run(run);
    QuiescentOnCurrentClient(run, m, ev);
    WatchfulKept(run);
    RunKeeps(run);
    OneWatcherPerClient(run, m, s.Ep(m));
    HeardAtRest(s, m, ev);
  }

  lemma HeardAtRest(s: Sys, m: string, ev: string)
    requires Watchful(s) && (m, ev) in s.hub.live && s.threads == map[] && WatchOk(s, m, s.Ep(m))
    requires s.hub.closed ==> s.hub.live == map[]
    requires
      var u := s.hub.live[(m, ev)];
      1 <= s.Ep(m) && (s.hub.heap[u].epoch == s.Ep(m) || s.Refused(u) == s.Ep(m))
    ensures s.hub.Accepts(m, s.Ep(m)) && s.watchers[(m, s.Ep(m))] == 1
    ensures Step(s, Report(m, s.Ep(m), true)).threads == map[s.next := Lost(m)]
    ensures Step(s, ProviderChanged(m)).threads == map[s.next := Lost(m)]
  {
    assert MarksOk(s, m) && UpWatched(s, s.hub.live[(m, ev)]);
  }

  /** At every moment no mark runs ahead of the module's current client, and a report counts only from a client
      that the watch accepts. */
  lemma {:induction false} MarksWithinEpoch(run: seq<Action>, m: string)
    ensures Run(run).Linked() && Installed(Run(run), m) <= Accept(Run(run), m) <= Run(run).Ep(m)
  {
    WatchfulKept(run);
    assert MarksOk(Run(run), m);
  }
}
