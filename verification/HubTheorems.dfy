/** What every run of the registry and the hub guarantees. */
module HubTheorems {
  import opened Prelude
  import opened ClientRegistries
  import RegistryRuns
  import opened SubscriptionHubs
  import opened HubRuns

  // ---------------------------------------------------------------------------
  // Subscriptions end up on the current client
  // ---------------------------------------------------------------------------

  /** Once no add, bind, replacement hook or loss is running, every live subscription is bound, and
      to its module's current client unless that very client refused it. bind()'s limit on rounds
      makes no difference. */
  lemma {:induction false} QuiescentOnCurrentClient(run: seq<Action>, m: string, ev: string)
    requires Run(run).threads == map[] && !Run(run).world.reg.closed
    requires (m, ev) in Run(run).hub.live
    ensures
      var s := Run(run);
      var u := s.hub.live[(m, ev)];
      && s.Linked() && 1 <= s.hub.heap[u].epoch <= s.Ep(m)
      && (s.hub.heap[u].epoch == s.Ep(m) || s.Refused(u) == s.Ep(m))
  {
    RunKeeps(run);
    var s := Run(run);
    var u := s.hub.live[(m, ev)];
    assert UpOk(s, u) && NeedOk(s, u) && NewOk(s, u);
    assert forall t :: !Creates(s, t, u) && !Covers(s, t, u);
  }

  /** At every moment a subscription is on no later client than its module's current one. */
  lemma {:induction false} NeverAhead(run: seq<Action>, u: nat)
    requires u in Run(run).hub.heap
    ensures Run(run).Linked() && Run(run).hub.heap[u].epoch <= Run(run).Ep(Run(run).hub.heap[u].name)
  {
    RunKeeps(run);
    assert UpOk(Run(run), u);
  }

  lemma BindRefuses(s: Sys, t: nat, now: int)
    requires Ready(s, t)
    ensures Bind(s, t, now, true).refused == s.refused
  {
    match s.threads[t].pc
    case AtGet => hide RegistryRuns.Step;
    case AtCommit(_) =>
    case _ =>
  }

  /** Only a subscribe that gives an invalid handle is remembered as a refusal. */
  lemma StepRefuses(s: Sys, a: Action)
    requires s.Linked() && (a.Advance? ==> a.ok)
    ensures Step(s, a).refused == s.refused
  {
    hide Bind, Tell, Take, List, ListEvents, Go, Adding, Replacing, Reporting, RegistryRuns.Step;
    match a
    case Advance(t, now, ok, ups) =>
      if t in s.threads {
        if s.threads[t].Binding? && s.threads[t].up in s.hub.heap { BindRefuses(s, t, now); }
        GoRefuses(s, t, now, ups);
      }
    case Add(m, ev, id) => AddRefuses(s, m, ev, id);
    case Replaced(m, e, now) => ReplacingRefuses(s, m, e, now);
    case Report(m, e, lost) => ReportRefuses(s, m, e, lost);
    case _ =>
  }

  lemma AddRefuses(s: Sys, m: string, ev: string, id: nat)
    requires s.hub.Linked()
    ensures Adding(s, m, ev, id).refused == s.refused
  {
  }

  lemma ReplacingRefuses(s: Sys, m: string, e: nat, now: int)
    requires s.Linked()
    ensures Replacing(s, m, e, now).refused == s.refused
  {
    hide RegistryRuns.Step, Replace;
  }

  lemma ReportRefuses(s: Sys, m: string, e: nat, lost: bool)
    ensures Reporting(s, m, e, lost).refused == s.refused
  {
  }

  lemma GoRefuses(s: Sys, t: nat, now: int, ups: seq<nat>)
    requires s.Linked() && t in s.threads
    requires s.threads[t].Binding? && s.threads[t].up in s.hub.heap ==> Bind(s, t, now, true).refused == s.refused
    ensures Go(s, t, now, true, ups).refused == s.refused
  {
    hide Bind;
  }

  lemma {:induction false} NeverRefused(run: seq<Action>)
    requires forall i | 0 <= i < |run| && run[i].Advance? :: run[i].ok
    ensures Run(run).refused == map[]
  {
    if run != [] {
      var before := run[..|run| - 1];
      NeverRefused(before);
      RunKeeps(before);
      hide BindInv, Step;
      assert Run(before).Linked();
      StepRefuses(Run(before), run[|run| - 1]);
    }
  }

  /** With valid handles every live subscription ends up on its module's current client. */
  lemma {:induction false} QuiescentWithValidHandles(run: seq<Action>, m: string, ev: string)
    requires forall i | 0 <= i < |run| && run[i].Advance? :: run[i].ok
    requires Run(run).threads == map[] && !Run(run).world.reg.closed && (m, ev) in Run(run).hub.live
    ensures
      var s := Run(run);
      s.Linked() && s.hub.heap[s.hub.live[(m, ev)]].epoch == s.Ep(m)
  {
    QuiescentOnCurrentClient(run, m, ev);
    NeverRefused(run);
  }

  /** And the handles alive are exactly those of the live subscriptions, one each: none leaked, none
      destroyed twice. */
  lemma {:induction false} QuiescentHandles(run: seq<Action>)
    requires Run(run).threads == map[]
    ensures
      var s := Run(run);
      && s.Linked()
      && (forall h | h in s.handles ::
            s.handles[h].ByUp? && s.handles[h].up in s.hub.heap && s.hub.Live(s.handles[h].up) &&
            s.hub.heap[s.handles[h].up].handle == Some(h))
      && (!s.world.reg.closed ==> forall k | k in s.hub.live ::
            s.hub.heap[s.hub.live[k]].handle.Some? &&
            s.hub.heap[s.hub.live[k]].handle.value in s.handles &&
            s.handles[s.hub.heap[s.hub.live[k]].handle.value] == ByUp(s.hub.live[k]))
  {
    RunKeeps(run);
    var s := Run(run);
    forall h | h in s.handles
      ensures s.handles[h].ByUp? && s.handles[h].up in s.hub.heap && s.hub.Live(s.handles[h].up) &&
              s.hub.heap[s.handles[h].up].handle == Some(h)
    {
      assert HandleOk(s, h);
      assert s.handles[h].ByUp? ==> UpOk(s, s.handles[h].up);
    }
    if !s.world.reg.closed {
      forall k | k in s.hub.live
        ensures s.hub.heap[s.hub.live[k]].handle.Some? &&
                s.hub.heap[s.hub.live[k]].handle.value in s.handles &&
                s.handles[s.hub.heap[s.hub.live[k]].handle.value] == ByUp(s.hub.live[k])
      {
        QuiescentOnCurrentClient(run, k.0, k.1);
        assert UpOk(s, s.hub.live[k]);
      }
    }
  }

  /** At every moment each handle alive has one owner that knows it: a subscription or a thread. */
  lemma {:induction false} OneHandleOwner(run: seq<Action>, h: nat, u: nat, t: nat)
    requires u in Run(run).hub.heap
    ensures
      var s := Run(run);
      && (s.hub.heap[u].handle == Some(h) <==> h in s.handles && s.handles[h] == ByUp(u))
      && (Holding(At(s, t)) == Some(h) <==> h in s.handles && s.handles[h] == ByThread(t))
  {
    RunKeeps(run);
    var s := Run(run);
    assert HandleOk(s, h) && UpOk(s, u) && ThreadOk(s, t);
  }

  // ---------------------------------------------------------------------------
  // What only moves forward
  // ---------------------------------------------------------------------------

  function Accept(s: Sys, m: string): nat {
    if m in s.hub.watch then s.hub.watch[m].accept else 0
  }

  function Installed(s: Sys, m: string): nat {
    if m in s.hub.watch then s.hub.watch[m].installed else 0
  }

  /** A subscription leaves the table by the hub's close or unbound, never comes back, and is not bound then. */
  ghost predicate Leaves(hub: Hub, hub': Hub, u: nat)
    requires u in hub.heap && u in hub'.heap
  {
    if hub.Live(u) then hub'.Live(u) || hub'.closed || hub'.heap[u].epoch == 0
    else !hub'.Live(u) && hub'.heap[u].epoch == hub.heap[u].epoch
  }

  /** One action never moves a subscription to an older client, a module to an older epoch, or a
      watch backwards. */
  ghost predicate Forward(s: Sys, s': Sys, m: string, u: nat)
    requires s.Linked() && s'.Linked()
  {
    && s.Ep(m) <= s'.Ep(m)
    && Accept(s, m) <= Accept(s', m) && Installed(s, m) <= Installed(s', m)
    && (s.hub.closed ==> s'.hub.closed)
    && (u in s.hub.heap ==>
          u in s'.hub.heap && s.hub.heap[u].epoch <= s'.hub.heap[u].epoch && Leaves(s.hub, s'.hub, u))
  }

  lemma LeaseForward(s: Sys, t: nat, now: int, m: string, u: nat)
    requires Ready(s, t) && RegistryRuns.Inv(s.world)
    ensures LeaseStep(s, t, now).Linked() && Forward(s, LeaseStep(s, t, now), m, u)
  {
    RegistryRuns.EpochGrows(s.world, RegistryRuns.Lookup(s.hub.heap[s.threads[t].up].name, now), m);
  }

  lemma CommitForward(s: Sys, t: nat, m: string, u: nat)
    requires Ready(s, t) && s.threads[t].pc.AtCommit?
    ensures Commit(s, t).Linked() && Forward(s, Commit(s, t), m, u)
  {
  }

  lemma WatchForward(s: Sys, t: nat, m: string, u: nat)
    requires Ready(s, t)
    ensures WatchStep(s, t).Linked() && Forward(s, WatchStep(s, t), m, u)
  {
  }

  lemma OtherForward(s: Sys, t: nat, now: int, ok: bool, m: string, u: nat)
    requires Ready(s, t)
    requires var pc := s.threads[t].pc; !pc.AtGet? && !pc.AtWatch? && !pc.AtCommit?
    ensures Bind(s, t, now, ok).Linked() && Forward(s, Bind(s, t, now, ok), m, u)
  {
    hide LeaseStep, WatchStep, Commit;
    assert Bind(s, t, now, ok).hub == s.hub && Bind(s, t, now, ok).world == s.world;
  }

  lemma BindForward(s: Sys, t: nat, now: int, ok: bool, m: string, u: nat)
    requires Ready(s, t) && RegistryRuns.Inv(s.world)
    ensures Bind(s, t, now, ok).Linked() && Forward(s, Bind(s, t, now, ok), m, u)
  {
    hide LeaseStep, WatchStep, Commit, Check, Got, Refuse, Destroy, Recheck, Forward, RegistryRuns.Inv;
    match s.threads[t].pc
    case AtGet => LeaseForward(s, t, now, m, u);
    case AtCommit(_) => CommitForward(s, t, m, u);
    case AtWatch => WatchForward(s, t, m, u);
    case _ => OtherForward(s, t, now, ok, m, u);
  }

  lemma TakeForward(s: Sys, t: nat, m: string, u: nat)
    requires s.Linked() && t in s.threads && s.threads[t].Losing?
    ensures Take(s, t).Linked() && Forward(s, Take(s, t), m, u)
  {
    var th := s.threads[t];
    if th.events != [] {
      var hub := s.hub.TakeSubscribers(th.name, th.events[0]).0;
      assert hub.Linked() && hub.watch == s.hub.watch;
      assert u in s.hub.heap ==> u in hub.heap && hub.heap[u].epoch == s.hub.heap[u].epoch;
    }
  }

  lemma TellForward(s: Sys, t: nat, m: string, u: nat)
    requires s.Linked() && t in s.threads && s.threads[t].Losing? && s.threads[t].ids != []
    ensures Tell(s, t).Linked() && Forward(s, Tell(s, t), m, u)
  {
  }

  lemma LosingForward(s: Sys, t: nat, m: string, u: nat)
    requires s.Linked() && t in s.threads && s.threads[t].Losing?
    ensures Take(s, t).Linked() && Forward(s, Take(s, t), m, u)
    ensures s.threads[t].ids != [] ==> Tell(s, t).Linked() && Forward(s, Tell(s, t), m, u)
  {
    hide Take, Tell, Forward;
    TakeForward(s, t, m, u);
    if s.threads[t].ids != [] {
      TellForward(s, t, m, u);
    }
  }

  lemma GoForward(s: Sys, t: nat, now: int, ok: bool, ups: seq<nat>, m: string, u: nat)
    requires s.Linked() && t in s.threads && RegistryRuns.Inv(s.world)
    ensures Go(s, t, now, ok, ups).Linked() && Forward(s, Go(s, t, now, ok, ups), m, u)
  {
    hide Bind, Tell, Take, List, RegistryRuns.Inv;
    match s.threads[t]
    case Binding(v, _, _, _, _, _) => if v in s.hub.heap { BindForward(s, t, now, ok, m, u); }
    case Losing(_, _, _) => LosingForward(s, t, m, u);
    case Lost(_) => ForwardSelf(s, m, u);
    case Listing(_) => ListForward(s, t, ups, m, u);
    case Forgetting(v) => if v in s.hub.heap { ForgetForward(s, t, m, u); }
    case Retiring(_, _) =>
  }

  lemma ListForward(s: Sys, t: nat, ups: seq<nat>, m: string, u: nat)
    requires s.Linked() && t in s.threads && s.threads[t].Listing?
    ensures List(s, t, ups).Linked() && Forward(s, List(s, t, ups), m, u)
  {
  }

  lemma ForgetForward(s: Sys, t: nat, m: string, u: nat)
    requires s.Linked() && t in s.threads && s.threads[t].Forgetting? && s.threads[t].up in s.hub.heap
    ensures
      var s' := SetThread(s.(hub := s.hub.Forget(s.threads[t].up)), t, None);
      s'.Linked() && Forward(s, s', m, u)
  {
  }

  lemma ReplacingForward(s: Sys, n: string, e: nat, now: int, m: string, u: nat)
    requires s.Linked() && RegistryRuns.Inv(s.world)
    ensures Replacing(s, n, e, now).Linked() && Forward(s, Replacing(s, n, e, now), m, u)
  {
    hide RegistryRuns.Step, RegistryRuns.Inv, Replace;
    RegistryRuns.EpochGrows(s.world, RegistryRuns.Swap(n, e, now), m);
  }

  lemma AddForward(hub: Hub, n: string, ev: string, id: nat, u: nat)
    requires hub.Linked()
    ensures
      var hub' := hub.Add(n, ev, id).0;
      && hub'.Linked() && hub'.watch == hub.watch && hub'.closed == hub.closed
      && (u in hub.heap ==> u in hub'.heap && hub'.heap[u].epoch == hub.heap[u].epoch && Leaves(hub, hub', u))
  {
  }

  lemma AddingForward(s: Sys, n: string, ev: string, id: nat, m: string, u: nat)
    requires s.Linked()
    ensures Adding(s, n, ev, id).Linked() && Forward(s, Adding(s, n, ev, id), m, u)
  {
    hide Hub.Add, Leaves;
    AddForward(s.hub, n, ev, id, u);
  }

  lemma StepForward(s: Sys, a: Action, m: string, u: nat)
    requires s.Linked() && RegistryRuns.Inv(s.world)
    ensures Step(s, a).Linked() && Forward(s, Step(s, a), m, u)
  {
    hide Go, Replacing, Adding, RegistryRuns.Inv, Forward, RegistryRuns.Step;
    match a
    case Registry(b) => if b.Swap? { ForwardSelf(s, m, u); } else { RegistryForward(s, b, m, u); }
    case Replaced(n, e, now) => ReplacingForward(s, n, e, now, m, u);
    case Add(n, ev, id) => if s.hub.closed || id in s.places { ForwardSelf(s, m, u); } else { AddingForward(s, n, ev, id, m, u); }
    case Advance(t, now, ok, ups) => if t in s.threads { GoForward(s, t, now, ok, ups, m, u); } else { ForwardSelf(s, m, u); }
    case _ => QuietForward(s, a, m, u);
  }

  lemma RegistryForward(s: Sys, b: RegistryRuns.Action, m: string, u: nat)
    requires s.Linked() && RegistryRuns.Inv(s.world)
    ensures var v := s.(world := RegistryRuns.Step(s.world, b)); v.Linked() && Forward(s, v, m, u)
  {
    hide RegistryRuns.Inv, RegistryRuns.Step;
    RegistryRuns.EpochGrows(s.world, b, m);
  }

  lemma QuietForward(s: Sys, a: Action, m: string, u: nat)
    requires s.Linked() && (a.Remove? || a.Report? || a.ProviderChanged? || a.ClearHub?)
    ensures Step(s, a).Linked() && Forward(s, Step(s, a), m, u)
  {
    hide Go, Replacing, Adding, RegistryRuns.Step;
    match a
    case Remove(_, _, _) =>
    case Report(_, _, _) =>
    case ProviderChanged(_) =>
    case ClearHub =>
    case _ =>
  }

  lemma {:induction false} RunLinked(run: seq<Action>)
    ensures Run(run).Linked() && RegistryRuns.Inv(Run(run).world)
  {
    RunKeeps(run);
  }

  lemma ForwardSelf(s: Sys, m: string, u: nat)
    requires s.Linked()
    ensures Forward(s, s, m, u)
  {
  }

  lemma ForwardTwice(a: Sys, b: Sys, c: Sys, m: string, u: nat)
    requires a.Linked() && b.Linked() && c.Linked() && Forward(a, b, m, u) && Forward(b, c, m, u)
    ensures Forward(a, c, m, u)
  {
  }

  lemma {:induction false} RunForward(run: seq<Action>, more: seq<Action>, m: string, u: nat)
    ensures Run(run).Linked() && Run(run + more).Linked() && Forward(Run(run), Run(run + more), m, u)
  {
    hide Forward, Step, Run, RegistryRuns.Inv;
    RunLinked(run);
    RunLinked(run + more);
    if more == [] {
      assert run + more == run;
      ForwardSelf(Run(run), m, u);
    } else {
      var (rest, a) := (more[..|more| - 1], more[|more| - 1]);
      assert run + more == (run + rest) + [a];
      RunLinked(run + rest);
      RunForward(run, rest, m, u);
      RunMore(run + rest, a);
      StepForward(Run(run + rest), a, m, u);
      ForwardTwice(Run(run), Run(run + rest), Run(run + more), m, u);
    }
  }

  lemma RunMore(run: seq<Action>, a: Action)
    requires Run(run).Linked()
    ensures Run(run + [a]) == Step(Run(run), a)
  {
    hide Step;
    assert (run + [a])[..|run|] == run;
  }

  // ---------------------------------------------------------------------------
  // Watchers
  // ---------------------------------------------------------------------------

  ghost predicate WatchOk(s: Sys, m: string, e: nat) {
    && Installed(s, m) <= Accept(s, m)
    && s.watchers[(m, e)] <= 1
    && (s.watchers[(m, e)] > 0 ==> 1 <= e <= Installed(s, m))
  }

  lemma WatchStepWatch(s: Sys, t: nat, m: string, e: nat)
    requires Ready(s, t) && s.threads[t].lease >= 1 && WatchOk(s, m, e)
    ensures WatchOk(WatchStep(s, t), m, e)
  {
  }

  lemma BindWatch(s: Sys, t: nat, now: int, ok: bool, m: string, e: nat)
    requires Ready(s, t) && ThreadOk(s, t) && WatchOk(s, m, e)
    ensures WatchOk(Bind(s, t, now, ok), m, e)
  {
    if s.threads[t].pc.AtWatch? {
      LeaseTaken(s, t);
      WatchStepWatch(s, t, m, e);
      hide WatchStep;
    } else {
      QuietWatch(s, t, now, ok);
      hide Bind;
    }
  }

  lemma LeaseTaken(s: Sys, t: nat)
    requires Ready(s, t) && ThreadOk(s, t) && s.threads[t].pc.AtWatch?
    ensures s.threads[t].lease >= 1
  {
  }

  lemma QuietWatch(s: Sys, t: nat, now: int, ok: bool)
    requires Ready(s, t) && !s.threads[t].pc.AtWatch?
    ensures Bind(s, t, now, ok).hub.watch == s.hub.watch && Bind(s, t, now, ok).watchers == s.watchers
  {
    hide WatchStep, RegistryRuns.Step, Finish;
    match s.threads[t].pc
    case AtGet =>
    case AtCheck =>
    case AtSubscribe =>
    case AtRefused =>
    case AtCommit(_) =>
    case AtDestroy(_, _) =>
    case AtRecheck =>
    case _ =>
  }

  lemma GoWatch(s: Sys, t: nat, now: int, ok: bool, ups: seq<nat>, m: string, e: nat)
    requires s.Linked() && t in s.threads && ThreadOk(s, t) && WatchOk(s, m, e)
    ensures WatchOk(Go(s, t, now, ok, ups), m, e)
  {
    hide Bind;
    if s.threads[t].Binding? && s.threads[t].up in s.hub.heap {
      BindWatch(s, t, now, ok, m, e);
    }
  }

  lemma StepWatch(s: Sys, a: Action, m: string, e: nat)
    requires BindInv(s) && WatchOk(s, m, e)
    ensures WatchOk(Step(s, a), m, e)
  {
    hide Go;
    match a
    case Advance(t, now, ok, ups) =>
      assert ThreadOk(s, t);
      hide BindInv;
      if t in s.threads { GoWatch(s, t, now, ok, ups, m, e); }
    case _ =>
  }

  /** Each client gets at most one loss watcher, and reports never count before it is installed. */
  lemma {:induction false} OneWatcherPerClient(run: seq<Action>, m: string, e: nat)
    ensures WatchOk(Run(run), m, e)
  {
    if run != [] {
      OneWatcherPerClient(run[..|run| - 1], m, e);
      RunKeeps(run[..|run| - 1]);
      StepWatch(Run(run[..|run| - 1]), run[|run| - 1], m, e);
    }
  }

  /** Once the hook of a replacement by `epoch` has called retire(), a status report of any older
      client changes nothing, at any later point of the run. */
  lemma {:induction false} StaleReportsIgnored(run: seq<Action>, step: Action, more: seq<Action>, stale: nat, lost: bool)
    requires step.Advance? && step.thread in Run(run).threads && Run(run).threads[step.thread].Retiring?
    requires stale < Run(run).threads[step.thread].epoch
    ensures
      var s := Run(run + [step] + more);
      s.Linked() && Step(s, Report(Run(run).threads[step.thread].name, stale, lost)) == s
  {
    RunKeeps(run + [step] + more);
    var th := Run(run).threads[step.thread];
    RetireSticks(run, step, more);
    OldReportIgnored(Run(run + [step] + more), th.name, stale, lost);
  }

  lemma OldReportIgnored(s: Sys, m: string, e: nat, lost: bool)
    requires s.Linked() && Accept(s, m) > e
    ensures Step(s, Report(m, e, lost)) == s
  {
  }

  lemma {:induction false} RetireSticks(run: seq<Action>, step: Action, more: seq<Action>)
    requires step.Advance? && step.thread in Run(run).threads && Run(run).threads[step.thread].Retiring?
    ensures Accept(Run(run + [step] + more), Run(run).threads[step.thread].name) >= Run(run).threads[step.thread].epoch
  {
    RunKeeps(run);
    hide BindInv, Step;
    var retired := run + [step];
    assert retired[..|retired| - 1] == run && retired[|retired| - 1] == step;
    RetiringAccepts(Run(run), step);
    RunForward(retired, more, Run(run).threads[step.thread].name, 0);
  }

  lemma RetiringAccepts(s: Sys, a: Action)
    requires s.Linked() && a.Advance? && a.thread in s.threads && s.threads[a.thread].Retiring?
    ensures Accept(Step(s, a), s.threads[a.thread].name) >= s.threads[a.thread].epoch
  {
  }
}
