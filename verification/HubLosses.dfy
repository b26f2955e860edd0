/** Who is told of a loss: in every run of the registry and the hub each subscriber id is in one list, has
    been removed, is being told by one thread, or has been told once. */
module HubLosses {
  import opened Prelude
  import RegistryRuns
  import opened SubscriptionHubs
  import opened HubRuns
  import opened HubTheorems

  // ---------------------------------------------------------------------------
  // Where an id is
  // ---------------------------------------------------------------------------

  /** Every subscriber id is in one place: the list it was added to, the list a loss took, or told. */
  ghost predicate SubOk(s: Sys, u: nat, id: nat) {
    u in s.hub.heap ==>
      && multiset(s.hub.heap[u].subs)[id] <= 1
      && (id in s.hub.heap[u].subs ==> id in s.places && s.places[id] == InUp(u))
  }

  ghost predicate TellOk(s: Sys, t: nat, id: nat) {
    t in s.threads ==>
      && multiset(Telling(s.threads[t]))[id] <= 1
      && (id in Telling(s.threads[t]) ==> id in s.places && s.places[id] == InThread(t))
  }

  ghost predicate ToldOk(s: Sys, id: nat) {
    s.told[id] <= 1 && (s.told[id] > 0 ==> id in s.places && s.places[id] == Told)
  }

  ghost predicate LossInv(s: Sys, id: nat) {
    && (forall u {:trigger SubOk(s, u, id)} :: SubOk(s, u, id))
    && (forall t {:trigger TellOk(s, t, id)} :: TellOk(s, t, id))
    && ToldOk(s, id)
  }

  /** Nothing about losses moved: the lists are the same, and so are the threads telling of a loss. */
  ghost predicate SameLists(s: Sys, s': Sys) {
    && s'.places == s.places && s'.told == s.told
    && s'.hub.heap.Keys == s.hub.heap.Keys
    && (forall u | u in s.hub.heap :: SameList(s.hub.heap[u], s'.hub.heap[u]))
    && (forall t | t in s'.threads :: Telling(s'.threads[t]) == [] || (t in s.threads && s'.threads[t] == s.threads[t]))
    && (forall t | t in s.threads && s.threads[t].Losing? :: t in s'.threads && s'.threads[t] == s.threads[t])
  }

  predicate SameList(up: Up, up': Up) {
    up'.name == up.name && up'.event == up.event && up'.subs == up.subs && up'.generation == up.generation
  }

  predicate Fresh(s: Sys) {
    s.next !in s.threads
  }

  lemma SameLosses(s: Sys, s': Sys, id: nat)
    requires LossInv(s, id) && SameLists(s, s')
    ensures LossInv(s', id)
  {
    forall u ensures SubOk(s', u, id) { assert SubOk(s, u, id); }
    forall t ensures TellOk(s', t, id) { assert TellOk(s, t, id); }
  }

  lemma AddLosses(s: Sys, m: string, ev: string, sub: nat, id: nat)
    requires s.hub.Linked() && LossInv(s, id) && sub !in s.places
    ensures LossInv(Adding(s, m, ev, sub), id)
  {
    hide SubOk, TellOk;
    var s' := Adding(s, m, ev, sub);
    forall u ensures SubOk(s', u, id) {
      assert SubOk(s, u, id);
      AddSubs(s, m, ev, sub, u, id);
    }
    assert ToldOk(s', id);
    forall t ensures TellOk(s', t, id) {
      assert TellOk(s, t, id);
      AddTells(s, m, ev, sub, t, id);
    }
  }

  lemma AddSubs(s: Sys, m: string, ev: string, sub: nat, u: nat, id: nat)
    requires s.hub.Linked() && SubOk(s, u, id) && sub !in s.places
    ensures SubOk(Adding(s, m, ev, sub), u, id)
  {
    var hub := s.hub.Add(m, ev, sub).0;
    assert u in hub.heap && u in s.hub.heap ==> hub.heap[u].subs == s.hub.heap[u].subs || hub.heap[u].subs == s.hub.heap[u].subs + [sub];
  }

  lemma AddTells(s: Sys, m: string, ev: string, sub: nat, t: nat, id: nat)
    requires s.hub.Linked() && TellOk(s, t, id) && sub !in s.places
    ensures TellOk(Adding(s, m, ev, sub), t, id)
  {
  }

  lemma RemoveLosses(s: Sys, m: string, ev: string, sub: nat, id: nat)
    requires s.hub.Linked() && LossInv(s, id)
    ensures LossInv(s.(hub := s.hub.Remove(m, ev, sub)), id)
  {
    var s' := s.(hub := s.hub.Remove(m, ev, sub));
    forall u ensures SubOk(s', u, id) { assert SubOk(s, u, id); }
    forall t ensures TellOk(s', t, id) { assert TellOk(s, t, id); }
  }

  lemma TellLosses(s: Sys, t: nat, id: nat)
    requires LossInv(s, id) && t in s.threads && s.threads[t].Losing? && s.threads[t].ids != []
    ensures LossInv(Tell(s, t), id)
  {
    var s' := Tell(s, t);
    var th := s.threads[t];
    assert th.ids == [th.ids[0]] + th.ids[1..];
    assert TellOk(s, t, id);
    forall u ensures SubOk(s', u, id) { assert SubOk(s, u, id); }
    forall x ensures TellOk(s', x, id) { assert TellOk(s, x, id); }
  }

  lemma TakeLosses(s: Sys, t: nat, id: nat)
    requires s.hub.Linked() && LossInv(s, id) && t in s.threads && s.threads[t].Losing? && s.threads[t].ids == []
    ensures LossInv(Take(s, t), id)
  {
    hide SubOk, TellOk, Take;
    var th := s.threads[t];
    var taken := if th.events != [] && (th.name, th.events[0]) in s.hub.live then s.hub.live[(th.name, th.events[0])] else 0;
    assert SubOk(s, taken, id);
    TakeTold(s, t, taken, id);
    forall u ensures SubOk(Take(s, t), u, id) { assert SubOk(s, u, id); TakeSubs(s, t, taken, u, id); }
    forall x ensures TellOk(Take(s, t), x, id) { assert TellOk(s, x, id); TakeTells(s, t, taken, x, id); }
  }

  ghost predicate Takes(s: Sys, t: nat, u: nat)
    requires t in s.threads && s.threads[t].Losing?
  {
    var th := s.threads[t];
    th.events != [] && (th.name, th.events[0]) in s.hub.live ==> u == s.hub.live[(th.name, th.events[0])]
  }

  lemma TakeTold(s: Sys, t: nat, taken: nat, id: nat)
    requires s.hub.Linked() && ToldOk(s, id) && t in s.threads && s.threads[t].Losing? && Takes(s, t, taken) && SubOk(s, taken, id)
    ensures ToldOk(Take(s, t), id)
  {
  }

  lemma TakeSubs(s: Sys, t: nat, taken: nat, u: nat, id: nat)
    requires s.hub.Linked() && SubOk(s, u, id) && t in s.threads && s.threads[t].Losing? && Takes(s, t, taken) && SubOk(s, taken, id)
    ensures SubOk(Take(s, t), u, id)
  {
  }

  lemma TakeTells(s: Sys, t: nat, taken: nat, x: nat, id: nat)
    requires s.hub.Linked() && TellOk(s, x, id) && t in s.threads && s.threads[t].Losing? && s.threads[t].ids == []
    requires Takes(s, t, taken) && SubOk(s, taken, id)
    ensures TellOk(Take(s, t), x, id)
  {
  }

  lemma BindLists(s: Sys, t: nat, now: int, ok: bool)
    requires Ready(s, t)
    ensures SameLists(s, Bind(s, t, now, ok))
  {
    hide LeaseStep, Commit, WatchStep, Check, Destroy, Recheck, SameLists;
    if s.threads[t].pc.AtCommit? {
      CommitLists(s, t);
    } else if s.threads[t].pc.AtGet? {
      LeaseLists(s, t, now);
    } else if s.threads[t].pc.AtWatch? {
      WatchLists(s, t);
    } else {
      OtherLists(s, t, now, ok);
    }
  }

  lemma WatchLists(s: Sys, t: nat)
    requires Ready(s, t)
    ensures SameLists(s, WatchStep(s, t))
  {
  }

  lemma OtherLists(s: Sys, t: nat, now: int, ok: bool)
    requires Ready(s, t) && !s.threads[t].pc.AtGet? && !s.threads[t].pc.AtWatch? && !s.threads[t].pc.AtCommit?
    ensures SameLists(s, Bind(s, t, now, ok))
  {
    hide SameLists, Check, Recheck, Destroy, Refuse, Got;
    match s.threads[t].pc
    case AtCheck => CheckLists(s, t);
    case AtRecheck => CheckLists(s, t);
    case AtDestroy(_, _) => DestroyLists(s, t);
    case AtSubscribe => SubscribeLists(s, t);
    case AtRefused => ThreadLists(s, t, Bind(s, t, now, ok));
  }

  lemma CheckLists(s: Sys, t: nat)
    requires Ready(s, t)
    ensures SameLists(s, Check(s, t)) && SameLists(s, Recheck(s, t))
  {
    hide SameLists;
    ThreadLists(s, t, Check(s, t));
    ThreadLists(s, t, Recheck(s, t));
  }

  lemma DestroyLists(s: Sys, t: nat)
    requires Ready(s, t) && s.threads[t].pc.AtDestroy?
    ensures SameLists(s, Destroy(s, t))
  {
    hide SameLists;
    ThreadLists(s, t, Destroy(s, t));
  }

  lemma SubscribeLists(s: Sys, t: nat)
    requires Ready(s, t)
    ensures SameLists(s, Got(s, t)) && SameLists(s, Refuse(s, t))
  {
    hide SameLists;
    ThreadLists(s, t, Got(s, t));
    ThreadLists(s, t, Refuse(s, t));
  }

  lemma ThreadLists(s: Sys, t: nat, s': Sys)
    requires s'.hub == s.hub && s'.places == s.places && s'.told == s.told
    requires s'.threads - {t} == s.threads - {t} && (t in s'.threads ==> Telling(s'.threads[t]) == [])
    requires t in s.threads ==> !s.threads[t].Losing?
    ensures SameLists(s, s')
  {
    forall x | x in s'.threads && x != t ensures x in s.threads && s'.threads[x] == s.threads[x] {
      assert x in s'.threads - {t};
      assert (s'.threads - {t})[x] == (s.threads - {t})[x];
    }
    forall x | x in s.threads && x != t ensures x in s'.threads {
      assert x in s.threads - {t};
    }
  }

  lemma LeaseLists(s: Sys, t: nat, now: int)
    requires Ready(s, t)
    ensures SameLists(s, LeaseStep(s, t, now))
  {
    hide RegistryRuns.Step;
  }

  lemma CommitLists(s: Sys, t: nat)
    requires Ready(s, t) && s.threads[t].pc.AtCommit?
    ensures SameLists(s, Commit(s, t))
  {
  }

  lemma GoLists(s: Sys, t: nat, now: int, ok: bool, ups: seq<nat>)
    requires s.Linked() && t in s.threads && !s.threads[t].Losing?
    ensures SameLists(s, Go(s, t, now, ok, ups))
  {
    hide Bind, List, ListEvents, SameLists;
    match s.threads[t]
    case Binding(u, _, _, _, _, _) => if u in s.hub.heap { BindLists(s, t, now, ok); } else { StillLists(s); }
    case Listing(_) => ListLists(s, t, ups);
    case Lost(_) => ListEventsLists(s, t, ups);
    case Forgetting(_) => ForgetLists(s, t, now, ok, ups);
    case Retiring(_, _) => ForgetLists(s, t, now, ok, ups);
  }

  lemma StillLists(s: Sys)
    ensures SameLists(s, s)
  {
  }

  lemma ListLists(s: Sys, t: nat, ups: seq<nat>)
    requires t in s.threads && s.threads[t].Listing?
    ensures SameLists(s, List(s, t, ups))
  {
    hide SameLists;
    ThreadLists(s, t, List(s, t, ups));
  }

  lemma ListEventsLists(s: Sys, t: nat, ups: seq<nat>)
    requires t in s.threads && s.threads[t].Lost?
    ensures SameLists(s, ListEvents(s, t, ups))
  {
    hide SameLists;
    ThreadLists(s, t, ListEvents(s, t, ups));
  }

  lemma ForgetLists(s: Sys, t: nat, now: int, ok: bool, ups: seq<nat>)
    requires s.Linked() && t in s.threads && (s.threads[t].Forgetting? || s.threads[t].Retiring?)
    ensures SameLists(s, Go(s, t, now, ok, ups))
  {
  }

  /** Every step but an addition, a removal, and a loss callback's own. */
  lemma StepLists(s: Sys, a: Action)
    requires s.Linked() && Fresh(s) && !a.Add? && !a.Remove?
    requires a.Advance? ==> a.thread !in s.threads || !s.threads[a.thread].Losing?
    ensures SameLists(s, Step(s, a))
  {
    if a.Advance? && a.thread !in s.threads {
      StillLists(s);
    } else if a.Advance? {
      GoLists(s, a.thread, a.now, a.ok, a.ups);
      hide SameLists, Go;
    } else {
      QuietLists(s, a);
    }
  }

  lemma QuietLists(s: Sys, a: Action)
    requires s.Linked() && Fresh(s) && !a.Add? && !a.Remove? && !a.Advance?
    ensures SameLists(s, Step(s, a))
  {
    hide Go, Adding, RegistryRuns.Step, SameLists, Replacing, Reporting;
    match a
    case Registry(b) => StillLists(s); WorldLists(s, RegistryRuns.Step(s.world, b));
    case Replaced(m, e, now) => ReplacedLists(s, m, e, now);
    case Report(m, e, lost) => ReportLists(s, m, e, lost);
    case ProviderChanged(m) => SpawnLists(s, Lost(m));
    case ClearHub => ClearLists(s);
    case _ =>
  }

  lemma WorldLists(s: Sys, w: RegistryRuns.World)
    ensures SameLists(s, s.(world := w))
  {
  }

  lemma SpawnLists(s: Sys, th: Thread)
    requires Telling(th) == [] && Fresh(s)
    ensures SameLists(s, Spawn(s, th))
  {
  }

  lemma ReplacedLists(s: Sys, m: string, e: nat, now: int)
    requires s.Linked() && Fresh(s)
    ensures SameLists(s, Replacing(s, m, e, now))
  {
    hide RegistryRuns.Step;
  }

  lemma ReportLists(s: Sys, m: string, e: nat, lost: bool)
    requires Fresh(s)
    ensures SameLists(s, Reporting(s, m, e, lost))
  {
  }

  lemma ClearLists(s: Sys)
    requires s.Linked()
    ensures SameLists(s, Step(s, ClearHub))
  {
  }

  lemma StepLosses(s: Sys, a: Action, id: nat)
    requires s.Linked() && Fresh(s) && LossInv(s, id)
    ensures LossInv(Step(s, a), id)
  {
    hide Go, Adding, LossInv, SameLists, Tell, Take;
    match a
    case Add(m, ev, sub) => if !s.hub.closed && sub !in s.places { AddLosses(s, m, ev, sub, id); }
    case Remove(m, ev, sub) => RemoveLosses(s, m, ev, sub, id);
    case Advance(t, now, ok, ups) => if t in s.threads { AdvanceLosses(s, t, now, ok, ups, id); }
    case _ => StepLists(s, a); SameLosses(s, Step(s, a), id);
  }

  lemma AdvanceLosses(s: Sys, t: nat, now: int, ok: bool, ups: seq<nat>, id: nat)
    requires s.Linked() && t in s.threads && LossInv(s, id)
    ensures LossInv(Go(s, t, now, ok, ups), id)
  {
    hide LossInv, SameLists, Tell, Take, Bind, List;
    if !s.threads[t].Losing? {
      GoLists(s, t, now, ok, ups);
      SameLosses(s, Go(s, t, now, ok, ups), id);
    } else if s.threads[t].ids != [] {
      TellLosses(s, t, id);
    } else {
      TakeLosses(s, t, id);
    }
  }

  lemma {:induction false} RunFresh(run: seq<Action>)
    ensures Run(run).Linked() && Fresh(Run(run))
  {
    RunKeeps(run);
    assert ThreadOk(Run(run), Run(run).next);
  }

  lemma {:induction false} LossesKept(run: seq<Action>, id: nat)
    ensures LossInv(Run(run), id)
  {
    if run == [] {
      forall u ensures SubOk(Start, u, id) {}
      forall t ensures TellOk(Start, t, id) {}
    } else {
      LossesKept(run[..|run| - 1], id);
      RunFresh(run[..|run| - 1]);
      StepLosses(Run(run[..|run| - 1]), run[|run| - 1], id);
    }
  }

  // ---------------------------------------------------------------------------
  // Nobody gets lost
  // ---------------------------------------------------------------------------

  /** A removal that takes the id out of a live list. */
  predicate Removes(s: Sys, a: Action, id: nat)
    requires s.hub.Linked()
  {
    a.Remove? && a.id == id && (a.name, a.event) in s.hub.live && id in s.hub.heap[s.hub.live[(a.name, a.event)]].subs
  }

  /** A loss callback's step for the live subscription of its next event. */
  predicate TakesFrom(s: Sys, a: Action, u: nat)
    requires s.hub.Linked()
  {
    && a.Advance? && a.thread in s.threads && s.threads[a.thread].Losing?
    && var th := s.threads[a.thread];
       th.ids == [] && th.events != [] && (th.name, th.events[0]) in s.hub.live && s.hub.live[(th.name, th.events[0])] == u
  }

  /** An id added is still listed where it was added unless it was removed, is in the list of the thread
      telling it, or has been told. */
  ghost predicate Placed(s: Sys, id: nat, removed: bool) {
    id in s.places ==>
      match s.places[id]
      case InUp(u) => u in s.hub.heap && (id in s.hub.heap[u].subs <==> !removed)
      case InThread(t) => t in s.threads && id in Telling(s.threads[t]) && !removed
      case Told => s.told[id] == 1 && !removed
  }

  lemma SamePlaced(s: Sys, s': Sys, id: nat, removed: bool)
    requires SameLists(s, s') && Placed(s, id, removed)
    ensures Placed(s', id, removed)
  {
  }

  lemma AddPlaced(s: Sys, m: string, ev: string, sub: nat, id: nat, removed: bool)
    requires s.hub.Linked() && Fresh(s) && sub !in s.places && Placed(s, id, removed) && (removed ==> id in s.places)
    ensures Placed(Adding(s, m, ev, sub), id, removed)
  {
    var s' := Adding(s, m, ev, sub);
    AddedThreads(s, m, ev, sub);
    hide Adding;
    if id != sub && id in s.places && s.places[id].InUp? {
      AddedLists(s, m, ev, sub, s.places[id].up, id);
    }
  }

  /** The new id is listed where `places` says; threads only come. */
  lemma AddedThreads(s: Sys, m: string, ev: string, sub: nat)
    requires s.hub.Linked() && Fresh(s) && sub !in s.places
    ensures
      var s' := Adding(s, m, ev, sub);
      && s'.told == s.told && s'.places.Keys == s.places.Keys + {sub}
      && (forall id | id in s.places :: s'.places[id] == s.places[id])
      && s'.places[sub].InUp? && s'.places[sub].up in s'.hub.heap && sub in s'.hub.heap[s'.places[sub].up].subs
      && (forall t | t in s.threads :: t in s'.threads && s'.threads[t] == s.threads[t])
  {
  }

  lemma AddedLists(s: Sys, m: string, ev: string, sub: nat, u: nat, id: nat)
    requires s.hub.Linked() && u in s.hub.heap && id != sub
    ensures
      var s' := Adding(s, m, ev, sub);
      u in s'.hub.heap && (id in s'.hub.heap[u].subs <==> id in s.hub.heap[u].subs)
  {
  }

  lemma RemovePlaced(s: Sys, a: Action, id: nat, removed: bool)
    requires s.Linked() && a.Remove? && Placed(s, id, removed) && LossInv(s, id)
    ensures Placed(Step(s, a), id, removed || Removes(s, a, id))
  {
    if (a.name, a.event) in s.hub.live {
      assert SubOk(s, s.hub.live[(a.name, a.event)], id);
    }
  }

  lemma TellPlaced(s: Sys, t: nat, id: nat, removed: bool)
    requires LossInv(s, id) && t in s.threads && s.threads[t].Losing? && s.threads[t].ids != [] && Placed(s, id, removed)
    ensures Placed(Tell(s, t), id, removed)
  {
    var th := s.threads[t];
    assert th.ids == [th.ids[0]] + th.ids[1..];
    assert TellOk(s, t, id);
  }

  lemma TakePlaced(s: Sys, t: nat, id: nat, removed: bool)
    requires s.hub.Linked() && LossInv(s, id) && t in s.threads && s.threads[t].Losing? && s.threads[t].ids == []
    requires Placed(s, id, removed)
    ensures Placed(Take(s, t), id, removed)
  {
    var th := s.threads[t];
    if th.events != [] && (th.name, th.events[0]) in s.hub.live {
      assert SubOk(s, s.hub.live[(th.name, th.events[0])], id);
    }
  }

  lemma StepPlaced(s: Sys, a: Action, id: nat, removed: bool)
    requires s.Linked() && Fresh(s) && LossInv(s, id) && Placed(s, id, removed) && (removed ==> id in s.places)
    ensures Placed(Step(s, a), id, removed || Removes(s, a, id))
  {
    hide Go, Adding, LossInv, SameLists, Tell, Take, Placed;
    if a.Add? {
      if !s.hub.closed && a.id !in s.places { AddPlaced(s, a.name, a.event, a.id, id, removed); }
    } else if a.Remove? {
      RemovePlaced(s, a, id, removed);
    } else if a.Advance? && a.thread in s.threads && s.threads[a.thread].Losing? {
      LosingPlaced(s, a, id, removed);
    } else {
      StepLists(s, a);
      SamePlaced(s, Step(s, a), id, removed);
    }
  }

  lemma LosingPlaced(s: Sys, a: Action, id: nat, removed: bool)
    requires s.Linked() && LossInv(s, id) && Placed(s, id, removed)
    requires a.Advance? && a.thread in s.threads && s.threads[a.thread].Losing?
    ensures Placed(Step(s, a), id, removed)
  {
    hide LossInv, Tell, Take, Placed;
    if s.threads[a.thread].ids != [] {
      TellPlaced(s, a.thread, id, removed);
    } else {
      TakePlaced(s, a.thread, id, removed);
    }
  }

  /** Some step of the run removed the id from a live list. */
  ghost predicate EverRemoved(run: seq<Action>, id: nat) {
    exists i | 0 <= i < |run| :: RemovesAt(Run(run[..i]), run[i], id)
  }

  ghost predicate RemovesAt(s: Sys, a: Action, id: nat) {
    s.Linked() && Removes(s, a, id)
  }

  lemma RemovedSplit(before: seq<Action>, a: Action, id: nat)
    ensures EverRemoved(before + [a], id) <==> EverRemoved(before, id) || RemovesAt(Run(before), a, id)
  {
    hide Run, RemovesAt;
    var run := before + [a];
    assert run[..|before|] == before && run[|before|] == a;
    assert forall i | 0 <= i < |before| :: run[..i] == before[..i] && run[i] == before[i];
  }

  lemma RemovesPlaced(s: Sys, a: Action, id: nat)
    requires s.Linked() && LossInv(s, id) && Removes(s, a, id)
    ensures id in s.places
  {
    assert SubOk(s, s.hub.live[(a.name, a.event)], id);
  }

  lemma StepPlaces(s: Sys, a: Action, id: nat)
    requires s.Linked() && id in s.places
    ensures id in Step(s, a).places
  {
    hide Bind, RegistryRuns.Step;
    if a.Advance? && a.thread in s.threads && s.threads[a.thread].Binding? && s.threads[a.thread].up in s.hub.heap {
      BindLists(s, a.thread, a.now, a.ok);
    }
  }

  lemma {:induction false} PlacedKept(run: seq<Action>, id: nat)
    ensures Placed(Run(run), id, EverRemoved(run, id))
    ensures EverRemoved(run, id) ==> id in Run(run).places
  {
    hide EverRemoved, Placed, Removes, Run, Step, LossInv;
    if run == [] {
      NoneRemoved(id);
    } else {
      var (before, a) := (run[..|run| - 1], run[|run| - 1]);
      assert run == before + [a];
      PlacedKept(before, id);
      LossesKept(before, id);
      RunFresh(before);
      RunMore(before, a);
      RemovedSplit(before, a, id);
      StepPlaced(Run(before), a, id, EverRemoved(before, id));
      if Removes(Run(before), a, id) { RemovesPlaced(Run(before), a, id); }
      if id in Run(before).places { StepPlaces(Run(before), a, id); }
    }
  }

  lemma NoneRemoved(id: nat)
    ensures !EverRemoved([], id) && Run([]) == Start && Placed(Run([]), id, false)
  {
  }

  ghost predicate Listed(s: Sys, id: nat) {
    exists u :: u in s.hub.heap && id in s.hub.heap[u].subs
  }

  ghost predicate BeingTold(s: Sys, id: nat) {
    exists t :: t in s.threads && id in Telling(s.threads[t])
  }

  /** Conservation: every id ever added is exactly one of removed, listed, about to be told by a thread, and
      told; and it is told once at most. */
  lemma {:induction false} OnePlaceEach(run: seq<Action>, id: nat)
    requires id in Run(run).places
    ensures
      var s := Run(run);
      B(EverRemoved(run, id)) + B(Listed(s, id)) + B(BeingTold(s, id)) + s.told[id] == 1
  {
    PlacedKept(run, id);
    LossesKept(run, id);
    OnePlace(Run(run), id, EverRemoved(run, id));
  }

  lemma OnePlace(s: Sys, id: nat, removed: bool)
    requires LossInv(s, id) && Placed(s, id, removed) && id in s.places
    ensures B(removed) + B(Listed(s, id)) + B(BeingTold(s, id)) + s.told[id] == 1
  {
    if Listed(s, id) {
      var u :| u in s.hub.heap && id in s.hub.heap[u].subs;
      assert SubOk(s, u, id);
    }
    if BeingTold(s, id) {
      var t :| t in s.threads && id in Telling(s.threads[t]);
      assert TellOk(s, t, id);
    }
  }

  /** Who leaves a list is removed from it, or handed, with the whole list in its order, to the thread that is
      going to tell it. */
  lemma HandedOver(s: Sys, a: Action, u: nat, id: nat)
    requires s.Linked() && Fresh(s) && u in s.hub.heap && id in s.hub.heap[u].subs
    ensures
      var s' := Step(s, a);
      && u in s'.hub.heap
      && (id !in s'.hub.heap[u].subs ==>
            || (Removes(s, a, id) && s.hub.live[(a.name, a.event)] == u)
            || (TakesFrom(s, a, u) && a.thread in s'.threads && Telling(s'.threads[a.thread]) == s.hub.heap[u].subs))
  {
    hide Go, Adding, SameLists, Tell, Take;
    if a.Add? {
      if !s.hub.closed && a.id !in s.places { AddHands(s, a.name, a.event, a.id, u, id); }
    } else if a.Remove? {
      RemoveHands(s, a, u, id);
    } else if a.Advance? && a.thread in s.threads && s.threads[a.thread].Losing? {
      LosingHands(s, a, u, id);
    } else {
      StepLists(s, a);
      SameHands(s, Step(s, a), u);
    }
  }

  lemma SameHands(s: Sys, s': Sys, u: nat)
    requires SameLists(s, s') && u in s.hub.heap
    ensures u in s'.hub.heap && SameList(s.hub.heap[u], s'.hub.heap[u])
  {
  }

  lemma AddHands(s: Sys, m: string, ev: string, sub: nat, u: nat, id: nat)
    requires s.hub.Linked() && u in s.hub.heap && id in s.hub.heap[u].subs
    ensures var s' := Adding(s, m, ev, sub); u in s'.hub.heap && id in s'.hub.heap[u].subs
  {
  }

  lemma RemoveHands(s: Sys, a: Action, u: nat, id: nat)
    requires s.Linked() && a.Remove? && u in s.hub.heap && id in s.hub.heap[u].subs
    ensures
      var s' := Step(s, a);
      u in s'.hub.heap &&
      (id !in s'.hub.heap[u].subs ==> Removes(s, a, id) && s.hub.live[(a.name, a.event)] == u)
  {
  }

  lemma LosingHands(s: Sys, a: Action, u: nat, id: nat)
    requires s.Linked() && a.Advance? && a.thread in s.threads && s.threads[a.thread].Losing?
    requires u in s.hub.heap && id in s.hub.heap[u].subs
    ensures
      var s' := Step(s, a);
      u in s'.hub.heap &&
      (id !in s'.hub.heap[u].subs ==>
         TakesFrom(s, a, u) && a.thread in s'.threads && Telling(s'.threads[a.thread]) == s.hub.heap[u].subs)
  {
  }

  // ---------------------------------------------------------------------------
  // Told exactly when detached
  // ---------------------------------------------------------------------------

  /** The step detaches a live subscription's list with the id in it. */
  ghost predicate Detaches(s: Sys, a: Action, id: nat) {
    s.Linked() && exists u :: u in s.hub.heap && TakesFrom(s, a, u) && id in s.hub.heap[u].subs
  }

  predicate Away(s: Sys, id: nat) {
    id in s.places && !s.places[id].InUp?
  }

  lemma TellAway(s: Sys, t: nat, id: nat)
    requires LossInv(s, id) && t in s.threads && s.threads[t].Losing? && s.threads[t].ids != []
    ensures Away(Tell(s, t), id) <==> Away(s, id)
  {
    assert TellOk(s, t, id);
  }

  lemma TakeAway(s: Sys, a: Action, id: nat)
    requires s.Linked() && LossInv(s, id)
    requires a.Advance? && a.thread in s.threads && s.threads[a.thread].Losing? && s.threads[a.thread].ids == []
    ensures Away(Take(s, a.thread), id) <==> Away(s, id) || Detaches(s, a, id)
  {
    var th := s.threads[a.thread];
    if th.events != [] && (th.name, th.events[0]) in s.hub.live {
      var u := s.hub.live[(th.name, th.events[0])];
      assert SubOk(s, u, id) && TakesFrom(s, a, u);
    }
  }

  lemma AddAway(s: Sys, m: string, ev: string, sub: nat, id: nat)
    requires s.hub.Linked() && sub !in s.places
    ensures Away(Adding(s, m, ev, sub), id) <==> Away(s, id)
  {
  }

  lemma StepAway(s: Sys, a: Action, id: nat)
    requires s.Linked() && Fresh(s) && LossInv(s, id)
    ensures Away(Step(s, a), id) <==> Away(s, id) || Detaches(s, a, id)
  {
    hide Go, Adding, LossInv, SameLists, Tell, Take, Away;
    if a.Add? {
      if !s.hub.closed && a.id !in s.places { AddAway(s, a.name, a.event, a.id, id); }
    } else if a.Advance? && a.thread in s.threads && s.threads[a.thread].Losing? {
      if s.threads[a.thread].ids != [] { TellAway(s, a.thread, id); } else { TakeAway(s, a, id); }
      LosingGoes(s, a);
    } else if a.Remove? {
      SameAway(s, Step(s, a), id);
    } else {
      StepLists(s, a);
      SamePlaces(s, Step(s, a));
      SameAway(s, Step(s, a), id);
    }
  }

  lemma LosingGoes(s: Sys, a: Action)
    requires s.Linked() && a.Advance? && a.thread in s.threads && s.threads[a.thread].Losing?
    ensures Step(s, a) == if s.threads[a.thread].ids != [] then Tell(s, a.thread) else Take(s, a.thread)
  {
    hide Tell, Take;
  }

  lemma SamePlaces(s: Sys, s': Sys)
    requires SameLists(s, s')
    ensures s'.places == s.places
  {
  }

  lemma SameAway(s: Sys, s': Sys, id: nat)
    requires s'.places == s.places
    ensures Away(s', id) == Away(s, id)
  {
  }

  /** Some step of the run detached a list with the id in it. */
  ghost predicate InSnapshot(run: seq<Action>, id: nat) {
    exists i | 0 <= i < |run| :: Detaches(Run(run[..i]), run[i], id)
  }

  lemma SnapshotSplit(before: seq<Action>, a: Action, id: nat)
    ensures InSnapshot(before + [a], id) <==> InSnapshot(before, id) || Detaches(Run(before), a, id)
  {
    hide Run, Detaches;
    var run := before + [a];
    assert run[..|before|] == before && run[|before|] == a;
    assert forall i | 0 <= i < |before| :: run[..i] == before[..i] && run[i] == before[i];
  }

  lemma {:induction false} AwayKept(run: seq<Action>, id: nat)
    ensures Away(Run(run), id) <==> InSnapshot(run, id)
  {
    if run == [] {
      assert !InSnapshot([], id);
    } else {
      hide Away, InSnapshot, Detaches, Step, Run, LossInv;
      var (before, a) := (run[..|run| - 1], run[|run| - 1]);
      assert run == before + [a];
      AwayKept(before, id);
      LossesKept(before, id);
      RunFresh(before);
      RunMore(before, a);
      StepAway(Run(before), a, id);
      SnapshotSplit(before, a, id);
    }
  }

  /** A subscriber has been told of its loss, or is about to be by exactly one thread, exactly when some step
      detached a list it was in; it is told once at most, and once it is, nobody tells it again. */
  lemma {:induction false} ToldExactlyOnce(run: seq<Action>, id: nat)
    ensures Run(run).told[id] + B(BeingTold(Run(run), id)) == B(InSnapshot(run, id))
  {
    AwayKept(run, id);
    PlacedKept(run, id);
    LossesKept(run, id);
    AwayTold(Run(run), id, EverRemoved(run, id));
  }

  lemma AwayTold(s: Sys, id: nat, removed: bool)
    requires LossInv(s, id) && Placed(s, id, removed)
    ensures s.told[id] + B(BeingTold(s, id)) == B(Away(s, id))
  {
    if BeingTold(s, id) {
      var t :| t in s.threads && id in Telling(s.threads[t]);
      assert TellOk(s, t, id);
    }
  }

  // ---------------------------------------------------------------------------
  // A loss reaches everyone
  // ---------------------------------------------------------------------------

  /** As long as the id is listed with a live subscription, the thread still has its event to report on. */
  ghost predicate Due(s: Sys, t: nat, u: nat, id: nat) {
    && id in s.places && (s.places[id].InUp? ==> s.places[id].up == u) && u in s.hub.heap
    && (s.hub.Live(u) && id in s.hub.heap[u].subs ==>
          && t in s.threads && s.threads[t].Losing? && s.threads[t].name == s.hub.heap[u].name
          && s.hub.heap[u].event in s.threads[t].events)
  }

  lemma SameDue(s: Sys, s': Sys, t: nat, u: nat, id: nat)
    requires Due(s, t, u, id) && SameLists(s, s') && (u in s'.hub.heap && s'.hub.Live(u) ==> s.hub.Live(u))
    ensures Due(s', t, u, id)
  {
  }

  lemma AddDue(s: Sys, m: string, ev: string, sub: nat, t: nat, u: nat, id: nat)
    requires s.hub.Linked() && Fresh(s) && sub !in s.places && Due(s, t, u, id)
    ensures Due(Adding(s, m, ev, sub), t, u, id)
  {
    AddedThreads(s, m, ev, sub);
    AddedLists(s, m, ev, sub, u, id);
    AddedLive(s, m, ev, sub, u);
    hide Adding;
  }

  lemma AddedLive(s: Sys, m: string, ev: string, sub: nat, u: nat)
    requires s.hub.Linked() && u in s.hub.heap
    ensures
      var s' := Adding(s, m, ev, sub);
      && u in s'.hub.heap && s'.hub.heap[u].name == s.hub.heap[u].name && s'.hub.heap[u].event == s.hub.heap[u].event
      && s'.hub.Live(u) == s.hub.Live(u)
  {
  }

  lemma RemoveDue(s: Sys, a: Action, t: nat, u: nat, id: nat)
    requires s.Linked() && a.Remove? && Due(s, t, u, id)
    ensures Due(Step(s, a), t, u, id)
  {
  }

  lemma TellDue(s: Sys, x: nat, t: nat, u: nat, id: nat)
    requires x in s.threads && s.threads[x].Losing? && s.threads[x].ids != [] && Due(s, t, u, id)
    ensures Due(Tell(s, x), t, u, id)
  {
  }

  lemma TakeDue(s: Sys, x: nat, t: nat, u: nat, id: nat)
    requires s.hub.Linked() && x in s.threads && s.threads[x].Losing? && Due(s, t, u, id)
    ensures Due(Take(s, x), t, u, id)
  {
  }

  lemma StepDue(s: Sys, a: Action, t: nat, u: nat, id: nat)
    requires s.Linked() && Fresh(s) && RegistryRuns.Inv(s.world) && Due(s, t, u, id)
    ensures Due(Step(s, a), t, u, id)
  {
    hide Go, Adding, SameLists, Tell, Take, Due, RegistryRuns.Inv;
    if a.Add? {
      if !s.hub.closed && a.id !in s.places { AddDue(s, a.name, a.event, a.id, t, u, id); }
    } else if a.Advance? && a.thread in s.threads && s.threads[a.thread].Losing? {
      if s.threads[a.thread].ids != [] { TellDue(s, a.thread, t, u, id); } else { TakeDue(s, a.thread, t, u, id); }
      LosingGoes(s, a);
    } else if a.Remove? {
      RemoveDue(s, a, t, u, id);
    } else {
      StepLists(s, a);
      NotRevived(s, a, t, u, id);
      SameDue(s, Step(s, a), t, u, id);
    }
  }

  lemma NotRevived(s: Sys, a: Action, t: nat, u: nat, id: nat)
    requires s.Linked() && RegistryRuns.Inv(s.world) && Due(s, t, u, id)
    ensures u in Step(s, a).hub.heap && Step(s, a).hub.Live(u) ==> s.hub.Live(u)
  {
    hide Step, RegistryRuns.Inv;
    StepForward(s, a, "", u);
  }

  lemma {:induction false} StaysDue(run: seq<Action>, more: seq<Action>, t: nat, u: nat, id: nat)
    requires Due(Run(run), t, u, id)
    ensures Due(Run(run + more), t, u, id)
  {
    hide Due, Step, Run, RegistryRuns.Inv;
    if more == [] {
      assert run + more == run;
    } else {
      var (rest, a) := (more[..|more| - 1], more[|more| - 1]);
      assert run + more == (run + rest) + [a];
      StaysDue(run, rest, t, u, id);
      RunLinked(run + rest);
      RunFresh(run + rest);
      RunMore(run + rest, a);
      StepDue(Run(run + rest), a, t, u, id);
    }
  }

  lemma ListedDue(s: Sys, a: Action, ev: string, id: nat)
    requires s.Linked() && LossInv(s, id)
    requires a.Advance? && a.thread in s.threads && s.threads[a.thread].Lost? && s.hub.Lists(s.threads[a.thread].name, a.ups)
    requires (s.threads[a.thread].name, ev) in s.hub.live && id in s.hub.heap[s.hub.live[(s.threads[a.thread].name, ev)]].subs
    ensures Due(Step(s, a), a.thread, s.hub.live[(s.threads[a.thread].name, ev)], id)
  {
    var u := s.hub.live[(s.threads[a.thread].name, ev)];
    assert SubOk(s, u, id);
    assert u in a.ups;
    var i :| 0 <= i < |a.ups| && a.ups[i] == u;
    assert EventsOf(s.hub, a.ups)[i] == ev;
  }

  /** Once the thread that listed a lost module's events has finished, everyone subscribed at the listing has
      been told, is being told by another thread, or was removed; or the hub has closed, or the subscription
      was never bound. */
  lemma {:induction false} LossReachesAll(run: seq<Action>, a: Action, more: seq<Action>, ev: string, id: nat)
    requires a.Advance? && a.thread in Run(run).threads && Run(run).threads[a.thread].Lost?
    requires Run(run).hub.Lists(Run(run).threads[a.thread].name, a.ups)
    requires (Run(run).threads[a.thread].name, ev) in Run(run).hub.live
    requires Run(run).hub.Linked() && id in Run(run).hub.heap[Run(run).hub.live[(Run(run).threads[a.thread].name, ev)]].subs
    requires a.thread !in Run(run + [a] + more).threads
    ensures
      var u := Run(run).hub.live[(Run(run).threads[a.thread].name, ev)];
      var s := Run(run + [a] + more);
      || s.told[id] == 1
      || BeingTold(s, id)
      || EverRemoved(run + [a] + more, id)
      || (u in s.hub.heap && !s.hub.Live(u) && (s.hub.closed || s.hub.heap[u].epoch == 0))
  {
    hide Run, Step, EverRemoved, RegistryRuns.Inv, LossInv;
    RunLinked(run);
    LossesKept(run, id);
    RunMore(run, a);
    var u := Run(run).hub.live[(Run(run).threads[a.thread].name, ev)];
    ListedDue(Run(run), a, ev, id);
    StaysDue(run + [a], more, a.thread, u, id);
    var whole := run + [a] + more;
    assert whole == run + ([a] + more);
    RunForward(run, [a] + more, "", u);
    PlacedKept(whole, id);
    LossesKept(whole, id);
    ReachedOrListed(Run(whole), a.thread, u, id, EverRemoved(whole, id));
  }

  lemma ReachedOrListed(s: Sys, t: nat, u: nat, id: nat, removed: bool)
    requires Due(s, t, u, id) && t !in s.threads && Placed(s, id, removed) && LossInv(s, id)
    ensures s.told[id] == 1 || BeingTold(s, id) || removed || !s.hub.Live(u)
  {
  }

  // ---------------------------------------------------------------------------
  // Generations
  // ---------------------------------------------------------------------------

  function Generation(s: Sys, u: nat): nat {
    if u in s.hub.heap then s.hub.heap[u].generation else 1
  }

  lemma StepGeneration(s: Sys, a: Action, u: nat)
    requires s.Linked() && Fresh(s)
    ensures Generation(Step(s, a), u) == Generation(s, u) + B(TakesFrom(s, a, u))
  {
    hide Go, Adding, SameLists, Tell, Take, Generation;
    if a.Add? {
      SameGeneration(s, s, u);
      if !s.hub.closed && a.id !in s.places { AddGeneration(s, a.name, a.event, a.id, u); }
    } else if a.Remove? {
      RemoveGeneration(s, a, u);
    } else if a.Advance? && a.thread in s.threads && s.threads[a.thread].Losing? {
      LosingGeneration(s, a, u);
    } else {
      StepLists(s, a);
      SameGeneration(s, Step(s, a), u);
    }
  }

  lemma SameGeneration(s: Sys, s': Sys, u: nat)
    requires s' == s || SameLists(s, s')
    ensures Generation(s', u) == Generation(s, u)
  {
  }

  lemma AddGeneration(s: Sys, m: string, ev: string, sub: nat, u: nat)
    requires s.hub.Linked()
    ensures Generation(Adding(s, m, ev, sub), u) == Generation(s, u)
  {
  }

  lemma RemoveGeneration(s: Sys, a: Action, u: nat)
    requires s.Linked() && a.Remove?
    ensures Generation(Step(s, a), u) == Generation(s, u)
  {
  }

  lemma LosingGeneration(s: Sys, a: Action, u: nat)
    requires s.Linked() && a.Advance? && a.thread in s.threads && s.threads[a.thread].Losing?
    ensures Generation(Step(s, a), u) == Generation(s, u) + B(TakesFrom(s, a, u))
  {
  }

  /** How often a loss has taken the subscription's list. */
  ghost function Losses(run: seq<Action>, u: nat): nat {
    if run == [] then 0
    else
      var (before, a) := (run[..|run| - 1], run[|run| - 1]);
      Losses(before, u) + B(Run(before).Linked() && TakesFrom(Run(before), a, u))
  }

  /** A subscription's generation is one more than the losses taken from it. */
  lemma {:induction false} GenerationCounts(run: seq<Action>, u: nat)
    ensures Generation(Run(run), u) == 1 + Losses(run, u)
  {
    if run != [] {
      hide Step, Generation, TakesFrom;
      var (before, a) := (run[..|run| - 1], run[|run| - 1]);
      GenerationCounts(before, u);
      RunFresh(before);
      StepGeneration(Run(before), a, u);
    }
  }
}
