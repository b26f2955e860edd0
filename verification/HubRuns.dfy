/** Every run of the client registry together with the subscription hub: adds, binds, replacements
    with their retire-and-rebind hook, provider losses and both closes, one lock region or unlocked
    call at a time, in any order. A disabled action changes nothing. */
module HubRuns {
  import opened Prelude
  import opened ClientRegistries
  import RegistryRuns
  import opened SubscriptionHubs

  const BIND_ROUNDS := 4

  /** Where bind() is in its current round. */
  datatype Pc =
    | AtGet | AtCheck | AtWatch | AtSubscribe | AtRefused
    | AtCommit(handle: nat) | AtDestroy(handle: nat, bound: bool) | AtRecheck

  datatype Thread =
    | Retiring(name: string, epoch: nat)   // replace() returned; the hook has not called retire() yet
    | Listing(name: string)                // retire() done; rebind() has not copied the subscriptions yet
    | Binding(up: nat, round: nat, lease: nat, pc: Pc, rest: seq<nat>, adding: bool)
    | Forgetting(up: nat)                  // add() whose bind failed
    | Lost(name: string)                   // a loss is reported; its events are not listed yet
    | Losing(name: string, events: seq<string>, ids: seq<nat>)

  datatype Owner = ByThread(thread: nat) | ByUp(up: nat)
  datatype Place = InUp(up: nat) | InThread(thread: nat) | Told

  /** `handles`: the upstream handles alive, with their owner; `refused`: the newest client whose
      subscribe gave an invalid handle, per subscription; `watchers`: status callbacks installed;
      `places` and `told`: where each subscriber id went, and the losses reported to it. */
  datatype Sys = Sys(world: RegistryRuns.World, hub: Hub, threads: map<nat, Thread>, next: nat,
                     handles: map<nat, Owner>, made: nat, refused: map<nat, nat>,
                     watchers: multiset<(string, nat)>, places: map<nat, Place>, told: multiset<nat>)
  {
    ghost predicate Linked() {
      world.reg.Linked() && hub.Linked()
    }

    function Ep(m: string): nat
      requires world.reg.Linked()
    {
      world.reg.Epoch(m)
    }

    function Refused(u: nat): nat {
      if u in refused then refused[u] else 0
    }
  }

  ghost const Start := Sys(RegistryRuns.Start, SubscriptionHubs.Empty, map[], 0, map[], 0, map[], multiset{}, map[], multiset{})

  datatype Action =
    | Registry(a: RegistryRuns.Action)
    | Replaced(name: string, epoch: nat, now: int)
    | Add(name: string, event: string, id: nat)
    | Remove(name: string, event: string, id: nat)
    | Report(name: string, epoch: nat, lost: bool)   // a watcher's status callback
    | ProviderChanged(name: string)
    | ClearHub
    | Advance(thread: nat, now: int, ok: bool, ups: seq<nat>)   // ok: the handle is valid; ups: what a listing finds

  function Spawn(s: Sys, th: Thread): Sys {
    s.(threads := s.threads[s.next := th], next := s.next + 1)
  }

  function SetThread(s: Sys, t: nat, th: Option<Thread>): Sys {
    s.(threads := if th.Some? then s.threads[t := th.value] else s.threads - {t})
  }

  function FirstBind(ups: seq<nat>): Option<Thread> {
    if ups == [] then None else Some(Binding(ups[0], 0, 0, AtGet, ups[1..], false))
  }

  /** What a thread does once bind() has returned `ok`. */
  function Finish(th: Thread, ok: bool): Option<Thread>
    requires th.Binding?
  {
    if !th.adding then FirstBind(th.rest) else if ok then None else Some(Forgetting(th.up))
  }

  ghost function Step(s: Sys, a: Action): Sys
    requires s.Linked()
  {
    match a
    case Registry(a) => if a.Swap? then s else s.(world := RegistryRuns.Step(s.world, a))
    case Replaced(m, e, now) => Replacing(s, m, e, now)
    case Add(m, ev, id) => if s.hub.closed || id in s.places then s else Adding(s, m, ev, id)
    case Remove(m, ev, id) => s.(hub := s.hub.Remove(m, ev, id))
    case Report(m, e, lost) => Reporting(s, m, e, lost)
    case ProviderChanged(m) => Spawn(s, Lost(m))
    case ClearHub =>
      s.(hub := s.hub.Clear(), handles := map h | h in s.handles && s.handles[h].ByThread? :: s.handles[h])
    case Advance(t, now, ok, ups) => if t in s.threads then Go(s, t, now, ok, ups) else s
  }

  ghost function Replacing(s: Sys, m: string, e: nat, now: int): Sys
    requires s.Linked()
  {
    if !Replace(s.world.reg, m, e, now).1 then s
    else Spawn(s.(world := RegistryRuns.Step(s.world, RegistryRuns.Swap(m, e, now))), Retiring(m, e + 1))
  }

  function Adding(s: Sys, m: string, ev: string, id: nat): Sys
    requires s.hub.Linked()
  {
    var (hub, u, created) := s.hub.Add(m, ev, id);
    var s := s.(hub := hub, places := s.places[id := InUp(u)]);
    if created then Spawn(s, Binding(u, 0, 0, AtGet, [], true)) else s
  }

  function Reporting(s: Sys, m: string, e: nat, lost: bool): Sys {
    if s.watchers[(m, e)] > 0 && s.hub.Accepts(m, e) && lost then Spawn(s, Lost(m)) else s
  }

  ghost function Go(s: Sys, t: nat, now: int, ok: bool, ups: seq<nat>): Sys
    requires s.Linked() && t in s.threads
  {
    match s.threads[t]
    case Retiring(m, e) => SetThread(s.(hub := s.hub.Retire(m, e)), t, Some(Listing(m)))
    case Listing(m) => List(s, t, ups)
    case Forgetting(u) => if u in s.hub.heap then SetThread(s.(hub := s.hub.Forget(u)), t, None) else s
    case Lost(_) => ListEvents(s, t, ups)
    case Losing(_, _, ids) => if ids != [] then Tell(s, t) else Take(s, t)
    case Binding(u, _, _, _, _, _) => if u in s.hub.heap then Bind(s, t, now, ok) else s
  }

  /** rebind() copies the module's subscriptions. */
  ghost function List(s: Sys, t: nat, ups: seq<nat>): Sys
    requires t in s.threads && s.threads[t].Listing?
  {
    if s.hub.closed then SetThread(s, t, None)
    else if s.hub.Lists(s.threads[t].name, ups) then SetThread(s, t, FirstBind(ups))
    else s
  }

  function EventsOf(hub: Hub, ups: seq<nat>): seq<string>
    requires forall u | u in ups :: u in hub.heap
  {
    seq(|ups|, i requires 0 <= i < |ups| => hub.heap[ups[i]].event)
  }

  /** notifyModuleLost() lists the module's events. */
  ghost function ListEvents(s: Sys, t: nat, ups: seq<nat>): Sys
    requires t in s.threads && s.threads[t].Lost?
  {
    var m := s.threads[t].name;
    if s.hub.Lists(m, ups) then SetThread(s, t, Some(Losing(m, EventsOf(s.hub, ups), []))) else s
  }

  /** notifyLost() for one event detaches its subscribers; each is told outside the lock. */
  function Take(s: Sys, t: nat): Sys
    requires s.hub.Linked() && t in s.threads && s.threads[t].Losing?
  {
    var th := s.threads[t];
    if th.events == [] then SetThread(s, t, None)
    else
      var (hub, ids) := s.hub.TakeSubscribers(th.name, th.events[0]);
      SetThread(s.(hub := hub, places := map id | id in s.places :: if id in ids then InThread(t) else s.places[id]), t,
                Some(Losing(th.name, th.events[1..], ids)))
  }

  function Tell(s: Sys, t: nat): Sys
    requires t in s.threads && s.threads[t].Losing? && s.threads[t].ids != []
  {
    var th := s.threads[t];
    SetThread(s.(told := s.told + multiset{th.ids[0]}, places := s.places[th.ids[0] := Told]), t,
              Some(th.(ids := th.ids[1..])))
  }

  ghost predicate Ready(s: Sys, t: nat) {
    s.Linked() && t in s.threads && s.threads[t].Binding? && s.threads[t].up in s.hub.heap
  }

  /** One region of bind(). */
  ghost function Bind(s: Sys, t: nat, now: int, ok: bool): Sys
    requires Ready(s, t)
  {
    match s.threads[t].pc
    case AtGet => LeaseStep(s, t, now)
    case AtCheck => Check(s, t)
    case AtWatch => WatchStep(s, t)
    case AtSubscribe => if ok then Got(s, t) else Refuse(s, t)
    case AtRefused => SetThread(s, t, Finish(s.threads[t], s.hub.heap[s.threads[t].up].epoch != 0))
    case AtCommit(_) => Commit(s, t)
    case AtDestroy(_, _) => Destroy(s, t)
    case AtRecheck => Recheck(s, t)
  }

  ghost function LeaseStep(s: Sys, t: nat, now: int): Sys
    requires Ready(s, t)
  {
    var th := s.threads[t];
    var m := s.hub.heap[th.up].name;
    var lease := Get(s.world.reg, m, now).1;
    SetThread(s.(world := RegistryRuns.Step(s.world, RegistryRuns.Lookup(m, now))), t,
              if lease.None? then Finish(th, false) else Some(th.(lease := lease.value.epoch, pc := AtCheck)))
  }

  ghost function Check(s: Sys, t: nat): Sys
    requires Ready(s, t)
  {
    var th := s.threads[t];
    SetThread(s, t,
              if s.hub.closed || !s.hub.Live(th.up) then Finish(th, false)
              else if s.hub.heap[th.up].epoch >= th.lease then Finish(th, true)
              else Some(th.(pc := AtWatch)))
  }

  /** bind() has made sure of the watcher and has not moved on yet. */
  function Watched(s: Sys, t: nat): Sys
    requires Ready(s, t)
  {
    var th := s.threads[t];
    var m := s.hub.heap[th.up].name;
    var (hub, install) := s.hub.EnsureWatcher(m, th.lease);
    s.(hub := hub, watchers := if install then s.watchers + multiset{(m, th.lease)} else s.watchers)
  }

  function WatchStep(s: Sys, t: nat): Sys
    requires Ready(s, t)
  {
    SetThread(Watched(s, t), t, Some(s.threads[t].(pc := AtSubscribe)))
  }

  ghost function Got(s: Sys, t: nat): Sys
    requires Ready(s, t)
  {
    SetThread(s.(handles := s.handles[s.made := ByThread(t)], made := s.made + 1), t,
              Some(s.threads[t].(pc := AtCommit(s.made))))
  }

  ghost function Refuse(s: Sys, t: nat): Sys
    requires Ready(s, t)
  {
    var th := s.threads[t];
    SetThread(s.(refused := s.refused[th.up := Max(s.Refused(th.up), th.lease)]), t, Some(th.(pc := AtRefused)))
  }

  /** The handle is committed, or left to the thread together with the reason it was not. */
  ghost function Commit(s: Sys, t: nat): Sys
    requires Ready(s, t) && s.threads[t].pc.AtCommit?
  {
    var th := s.threads[t];
    var h := th.pc.handle;
    var (hub, dead) := s.hub.Commit(th.up, th.lease, h);
    var handles := if dead == Some(h) then s.handles else s.handles[h := ByUp(th.up)];
    SetThread(s.(hub := hub, handles := if dead.Some? then handles[dead.value := ByThread(t)] else handles), t,
              Some(th.(pc := if dead.Some? then AtDestroy(dead.value, !s.hub.closed && s.hub.Live(th.up)) else AtRecheck)))
  }

  ghost function Destroy(s: Sys, t: nat): Sys
    requires Ready(s, t) && s.threads[t].pc.AtDestroy?
  {
    var th := s.threads[t];
    SetThread(s.(handles := s.handles - {th.pc.handle}), t,
              if th.pc.bound then Some(th.(pc := AtRecheck)) else Finish(th, false))
  }

  ghost function Recheck(s: Sys, t: nat): Sys
    requires Ready(s, t)
  {
    var th := s.threads[t];
    SetThread(s, t,
              if s.Ep(s.hub.heap[th.up].name) == th.lease || th.round + 1 == BIND_ROUNDS then Finish(th, true)
              else Some(th.(round := th.round + 1, pc := AtGet)))
  }

  // ---------------------------------------------------------------------------
  // The invariant
  // ---------------------------------------------------------------------------

  /** The handle a thread must still commit or destroy. */
  function Holds(th: Thread): Option<nat> {
    match th
    case Binding(_, _, _, AtCommit(h), _, _) => Some(h)
    case Binding(_, _, _, AtDestroy(h, _), _, _) => Some(h)
    case _ => None
  }

  function Telling(th: Thread): seq<nat> {
    if th.Losing? then th.ids else []
  }

  /** Epochs: a subscription and a lease never run ahead of the registry. */
  ghost predicate UpOk(s: Sys, u: nat)
    requires s.Linked()
  {
    && (u !in s.hub.heap ==> s.Refused(u) == 0)
    && (u in s.hub.heap ==>
      var up := s.hub.heap[u];
      && up.epoch <= s.Ep(up.name) && s.Refused(u) <= s.Ep(up.name)
      && (up.handle.Some? ==> s.hub.Live(u) && up.handle.value in s.handles && s.handles[up.handle.value] == ByUp(u))
      && (s.hub.Live(u) ==> (up.epoch == 0 <==> up.handle.None?)))
  }

  ghost predicate BindOk(s: Sys, th: Thread)
    requires s.Linked()
  {
    match th
    case Forgetting(u) => u in s.hub.heap
    case Binding(u, round, lease, pc, rest, adding) =>
      && u in s.hub.heap && round < BIND_ROUNDS && (adding ==> rest == [])
      && (forall r | r in rest :: r in s.hub.heap)
      && (!pc.AtGet? ==> 1 <= lease <= s.Ep(s.hub.heap[u].name))
      && (s.hub.Live(u) && (pc.AtRecheck? || (pc.AtDestroy? && pc.bound)) ==> s.hub.heap[u].epoch >= lease)
      && (pc.AtDestroy? && !pc.bound ==> !s.hub.Live(u))
      && (pc.AtRefused? ==> s.Refused(u) >= lease)
    case _ => true
  }

  ghost predicate ThreadOk(s: Sys, t: nat)
    requires s.Linked()
  {
    t in s.threads ==>
      var th := s.threads[t];
      && t < s.next && BindOk(s, th)
      && (Holds(th).Some? ==> Holds(th).value in s.handles && s.handles[Holds(th).value] == ByThread(t))
  }

  ghost predicate HandleOk(s: Sys, h: nat) {
    h in s.handles ==>
      && h < s.made
      && match s.handles[h]
         case ByUp(u) => u in s.hub.heap && s.hub.heap[u].handle == Some(h)
         case ByThread(t) => t in s.threads && Holds(s.threads[t]) == Some(h)
  }

  /** Not yet on its module's current client. */
  predicate Behind(s: Sys, u: nat)
    requires s.Linked()
  {
    && u in s.hub.heap && s.hub.Live(u) && !s.world.reg.closed
    && (s.hub.heap[u].epoch == 0 || s.hub.heap[u].epoch < s.Ep(s.hub.heap[u].name))
  }

  /** `th` is still going to bind `u` to its module's current client. */
  predicate WillBind(s: Sys, th: Thread, u: nat)
    requires s.Linked() && u in s.hub.heap
  {
    match th
    case Retiring(m, _) => m == s.hub.heap[u].name
    case Listing(m) => m == s.hub.heap[u].name
    case Binding(v, _, lease, pc, rest, _) =>
      || u in rest
      || (u == v && (pc.AtGet? || (lease == s.Ep(s.hub.heap[u].name) &&
                                   (pc.AtCheck? || pc.AtWatch? || pc.AtSubscribe? || pc.AtCommit?))))
    case _ => false
  }

  ghost predicate Covers(s: Sys, t: nat, u: nat)
    requires s.Linked() && u in s.hub.heap
  {
    t in s.threads && WillBind(s, s.threads[t], u)
  }

  /** The module's current client itself refused the subscription. */
  predicate RefusedNow(s: Sys, u: nat)
    requires s.Linked() && u in s.hub.heap
  {
    s.Refused(u) == s.Ep(s.hub.heap[u].name) && s.Refused(u) > 0
  }

  ghost predicate NeedOk(s: Sys, u: nat)
    requires s.Linked()
  {
    Behind(s, u) ==> (exists t :: Covers(s, t, u)) || RefusedNow(s, u)
  }

  predicate Creating(th: Thread, u: nat) {
    (th.Binding? && th.adding && th.up == u) || (th.Forgetting? && th.up == u)
  }

  ghost predicate Creates(s: Sys, t: nat, u: nat) {
    t in s.threads && Creating(s.threads[t], u)
  }

  /** A subscription nobody has bound yet still has its creator. */
  ghost predicate NewOk(s: Sys, u: nat)
    requires s.Linked()
  {
    u in s.hub.heap && s.hub.Live(u) && s.hub.heap[u].epoch == 0 ==> exists t :: Creates(s, t, u)
  }

  ghost predicate BindInv(s: Sys) {
    && s.Linked() && RegistryRuns.Inv(s.world) && (s.hub.closed ==> s.hub.live == map[])
    && (forall u {:trigger UpOk(s, u)} :: UpOk(s, u))
    && (forall t {:trigger ThreadOk(s, t)} :: ThreadOk(s, t))
    && (forall h {:trigger HandleOk(s, h)} :: HandleOk(s, h))
    && (forall u {:trigger NeedOk(s, u)} :: NeedOk(s, u))
    && (forall u {:trigger NewOk(s, u)} :: NewOk(s, u))
  }

  // ---------------------------------------------------------------------------
  // Threads moving on
  // ---------------------------------------------------------------------------

  function At(s: Sys, t: nat): Option<Thread> {
    if t in s.threads then Some(s.threads[t]) else None
  }

  function Holding(th: Option<Thread>): Option<nat> {
    if th.Some? then Holds(th.value) else None
  }

  /** Everything thread `t` had promised to do, `th` will do. */
  ghost predicate TakesOver(s: Sys, t: nat, th: Option<Thread>)
    requires s.Linked()
  {
    t in s.threads ==>
      && (forall u | u in s.hub.heap && WillBind(s, s.threads[t], u) && Behind(s, u) ::
            (th.Some? && WillBind(s, th.value, u)) || RefusedNow(s, u))
      && (forall u | u in s.hub.heap && Creating(s.threads[t], u) && s.hub.Live(u) && s.hub.heap[u].epoch == 0 ::
            th.Some? && Creating(th.value, u))
  }

  lemma PromiseMoves(s: Sys, t: nat, th: Option<Thread>, u: nat)
    requires s.Linked() && TakesOver(s, t, th) && NeedOk(s, u) && NewOk(s, u)
    ensures NeedOk(SetThread(s, t, th), u) && NewOk(SetThread(s, t, th), u)
  {
    var s' := SetThread(s, t, th);
    if Behind(s, u) && !RefusedNow(s, u) {
      var x :| Covers(s, x, u);
      assert Covers(s', x, u);
    }
    if u in s.hub.heap && s.hub.Live(u) && s.hub.heap[u].epoch == 0 {
      var x :| Creates(s, x, u);
      assert Creates(s', x, u);
    }
  }

  lemma MoveOn(s: Sys, t: nat, th: Option<Thread>)
    requires BindInv(s) && t < s.next && TakesOver(s, t, th)
    requires th.Some? ==> BindOk(s, th.value)
    requires Holding(th) == Holding(At(s, t))
    ensures BindInv(SetThread(s, t, th))
  {
    var s' := SetThread(s, t, th);
    forall u ensures UpOk(s', u) { assert UpOk(s, u); }
    forall x ensures ThreadOk(s', x) { assert ThreadOk(s, x) && ThreadOk(s, t); }
    forall h ensures HandleOk(s', h) { assert HandleOk(s, h); }
    forall u ensures NeedOk(s', u) && NewOk(s', u) {
      assert NeedOk(s, u) && NewOk(s, u);
      PromiseMoves(s, t, th, u);
    }
  }

  lemma SpawnKeeps(s: Sys, th: Thread)
    requires BindInv(s) && BindOk(s, th) && Holds(th).None?
    ensures BindInv(Spawn(s, th))
  {
    assert ThreadOk(s, s.next);
    var s' := s.(next := s.next + 1);
    forall u ensures UpOk(s', u) { assert UpOk(s, u); }
    forall x ensures ThreadOk(s', x) { assert ThreadOk(s, x); }
    forall h ensures HandleOk(s', h) { assert HandleOk(s, h); }
    forall u ensures NeedOk(s', u) && NewOk(s', u) {
      assert NeedOk(s, u) && NewOk(s, u);
      if Behind(s, u) && !RefusedNow(s, u) { var x :| Covers(s, x, u); assert Covers(s', x, u); }
      if u in s.hub.heap && s.hub.Live(u) && s.hub.heap[u].epoch == 0 { var x :| Creates(s, x, u); assert Creates(s', x, u); }
    }
    MoveOn(s', s.next, Some(th));
  }

  // ---------------------------------------------------------------------------
  // The registry moves
  // ---------------------------------------------------------------------------

  /** Epochs grow, but for a first client only where a hook is about to move the subscriptions; a
      closed registry stays closed. */
  ghost predicate Grows(s: Sys, w: RegistryRuns.World, hook: nat)
    requires s.Linked()
  {
    && RegistryRuns.Inv(w)
    && (forall m {:trigger w.reg.Epoch(m)} ::
          || w.reg.Epoch(m) == s.Ep(m)
          || (s.Ep(m) == 0 && w.reg.Epoch(m) == 1)
          || (w.reg.Epoch(m) > s.Ep(m) && hook in s.threads && s.threads[hook].Retiring? && s.threads[hook].name == m))
    && (s.world.reg.closed ==> w.reg.closed)
  }

  lemma GrowsThread(s: Sys, w: RegistryRuns.World, hook: nat, t: nat)
    requires s.Linked() && Grows(s, w, hook) && ThreadOk(s, t)
    ensures ThreadOk(s.(world := w), t)
  {
  }

  lemma GrowsNeed(s: Sys, w: RegistryRuns.World, hook: nat, u: nat)
    requires BindInv(s) && Grows(s, w, hook)
    ensures NeedOk(s.(world := w), u)
  {
    var s' := s.(world := w);
    if Behind(s', u) {
      var m := s.hub.heap[u].name;
      assert NeedOk(s, u) && UpOk(s, u);
      if w.reg.Epoch(m) > s.Ep(m) && s.Ep(m) > 0 {
        assert Covers(s', hook, u);
      } else if !RefusedNow(s, u) {
        var t :| Covers(s, t, u);
        assert ThreadOk(s, t);
        assert Covers(s', t, u);
      }
    }
  }

  lemma GrowKeeps(s: Sys, w: RegistryRuns.World, hook: nat)
    requires BindInv(s) && Grows(s, w, hook)
    ensures BindInv(s.(world := w))
  {
    var s' := s.(world := w);
    forall u ensures UpOk(s', u) { assert UpOk(s, u); }
    forall t ensures ThreadOk(s', t) { assert ThreadOk(s, t); GrowsThread(s, w, hook, t); }
    forall h ensures HandleOk(s', h) { assert HandleOk(s, h); }
    forall u ensures NeedOk(s', u) { GrowsNeed(s, w, hook, u); }
    forall u ensures NewOk(s', u) {
      assert NewOk(s, u);
      if u in s.hub.heap && s.hub.Live(u) && s.hub.heap[u].epoch == 0 { var x :| Creates(s, x, u); assert Creates(s', x, u); }
    }
  }

  lemma RegistryKeeps(s: Sys, a: RegistryRuns.Action)
    requires BindInv(s) && !a.Swap?
    ensures BindInv(s.(world := RegistryRuns.Step(s.world, a)))
  {
    var w := RegistryRuns.Step(s.world, a);
    RegistryRuns.StepKeeps(s.world, a);
    forall m ensures w.reg.Epoch(m) == s.Ep(m) || (s.Ep(m) == 0 && w.reg.Epoch(m) == 1) {
      RegistryRuns.EpochGrows(s.world, a, m);
    }
    GrowKeeps(s, w, s.next);
  }

  /** A replacement leaves its module's subscriptions behind, and its hook to move them. */
  lemma ReplacingKeeps(s: Sys, m: string, e: nat, now: int)
    requires BindInv(s)
    ensures BindInv(Replacing(s, m, e, now))
  {
    if Replace(s.world.reg, m, e, now).1 {
      var v := Spawn(s, Retiring(m, e + 1));
      SpawnKeeps(s, Retiring(m, e + 1));
      var w := SwappedWorld(s, m, e, now, v);
      assert Replacing(s, m, e, now) == v.(world := w);
      GrowKeeps(v, w, s.next);
    }
  }

  lemma SwappedWorld(s: Sys, m: string, e: nat, now: int, v: Sys) returns (w: RegistryRuns.World)
    requires s.Linked() && RegistryRuns.Inv(s.world) && v == Spawn(s, Retiring(m, e + 1))
    ensures w == RegistryRuns.Step(s.world, RegistryRuns.Swap(m, e, now))
    ensures Grows(v, w, s.next)
  {
    var a := RegistryRuns.Swap(m, e, now);
    w := RegistryRuns.Step(s.world, a);
    RegistryRuns.StepKeeps(s.world, a);
    forall n ensures w.reg.Epoch(n) == s.Ep(n) || (w.reg.Epoch(n) > s.Ep(n) && n == m) {
      RegistryRuns.EpochGrows(s.world, a, n);
    }
  }

  // ---------------------------------------------------------------------------
  // The hub moves
  // ---------------------------------------------------------------------------

  /** Only subscribers, watches and their history differ. */
  ghost predicate SameBinding(s: Sys, s': Sys) {
    && s' == s.(hub := s'.hub, watchers := s'.watchers, places := s'.places, told := s'.told)
    && s'.hub == s.hub.(heap := s'.hub.heap, watch := s'.hub.watch)
    && s'.hub.heap.Keys == s.hub.heap.Keys
    && (forall u {:trigger s'.hub.heap[u]} | u in s.hub.heap ::
          s'.hub.heap[u] == s.hub.heap[u].(subs := s'.hub.heap[u].subs, generation := s'.hub.heap[u].generation))
  }

  lemma SameKeeps(s: Sys, s': Sys)
    requires BindInv(s) && SameBinding(s, s')
    ensures BindInv(s')
  {
    assert s'.Linked();
    forall u ensures UpOk(s', u) { assert UpOk(s, u); }
    forall t ensures ThreadOk(s', t) { assert ThreadOk(s, t); }
    forall h ensures HandleOk(s', h) { assert HandleOk(s, h); }
    forall u ensures NeedOk(s', u) {
      assert NeedOk(s, u);
      if Behind(s', u) && !RefusedNow(s, u) { var t :| Covers(s, t, u); assert Covers(s', t, u); }
    }
    forall u ensures NewOk(s', u) {
      assert NewOk(s, u);
      if u in s'.hub.heap && s'.hub.Live(u) && s'.hub.heap[u].epoch == 0 { var x :| Creates(s, x, u); assert Creates(s', x, u); }
    }
  }

  /** A new subscription comes with the thread that will bind it. */
  ghost function Added(s: Sys, m: string, ev: string, id: nat): Sys {
    var u := s.hub.next;
    Spawn(s.(hub := s.hub.(heap := s.hub.heap[u := Up(m, ev, None, 0, [id], 1)], live := s.hub.live[(m, ev) := u], next := u + 1),
             places := s.places[id := InUp(u)]),
          Binding(u, 0, 0, AtGet, [], true))
  }

  lemma AddedNeed(s: Sys, m: string, ev: string, id: nat, v: nat)
    requires s.Linked() && (m, ev) !in s.hub.live && NeedOk(s, v) && NewOk(s, v) && ThreadOk(s, s.next)
    ensures Added(s, m, ev, id).Linked()
    ensures NeedOk(Added(s, m, ev, id), v) && NewOk(Added(s, m, ev, id), v)
  {
    var s' := Added(s, m, ev, id);
    if v == s.hub.next {
      assert Covers(s', s.next, v) && Creates(s', s.next, v);
    } else {
      if Behind(s', v) && !RefusedNow(s, v) { var t :| Covers(s, t, v); assert Covers(s', t, v); }
      if v in s.hub.heap && s.hub.Live(v) && s.hub.heap[v].epoch == 0 { var x :| Creates(s, x, v); assert Creates(s', x, v); }
    }
  }

  lemma AddedUp(s: Sys, m: string, ev: string, id: nat, v: nat)
    requires s.Linked() && (m, ev) !in s.hub.live && UpOk(s, v) && UpOk(s, s.hub.next)
    ensures Added(s, m, ev, id).Linked() && UpOk(Added(s, m, ev, id), v)
  {
  }

  lemma AddedThread(s: Sys, m: string, ev: string, id: nat, t: nat)
    requires s.Linked() && (m, ev) !in s.hub.live && ThreadOk(s, t)
    ensures Added(s, m, ev, id).Linked() && ThreadOk(Added(s, m, ev, id), t)
  {
  }

  lemma AddedHandle(s: Sys, m: string, ev: string, id: nat, h: nat)
    requires s.Linked() && HandleOk(s, h) && ThreadOk(s, s.next)
    ensures HandleOk(Added(s, m, ev, id), h)
  {
  }

  lemma AddedKeeps(s: Sys, m: string, ev: string, id: nat)
    requires BindInv(s) && (m, ev) !in s.hub.live && !s.hub.closed
    ensures BindInv(Added(s, m, ev, id))
  {
    hide UpOk, ThreadOk, HandleOk, NeedOk, NewOk;
    var s' := Added(s, m, ev, id);
    assert s'.Linked();
    assert UpOk(s, s.hub.next) && ThreadOk(s, s.next);
    forall v ensures UpOk(s', v) { assert UpOk(s, v); AddedUp(s, m, ev, id, v); }
    forall t ensures ThreadOk(s', t) { assert ThreadOk(s, t); AddedThread(s, m, ev, id, t); }
    forall h ensures HandleOk(s', h) { assert HandleOk(s, h); AddedHandle(s, m, ev, id, h); }
    forall v ensures NeedOk(s', v) && NewOk(s', v) {
      assert NeedOk(s, v) && NewOk(s, v);
      AddedNeed(s, m, ev, id, v);
    }
  }

  lemma ForgetNeed(s: Sys, u: nat, v: nat)
    requires s.Linked() && u in s.hub.heap && NeedOk(s, v) && NewOk(s, v)
    ensures NeedOk(s.(hub := s.hub.Forget(u)), v) && NewOk(s.(hub := s.hub.Forget(u)), v)
  {
    var s' := s.(hub := s.hub.Forget(u));
    if Behind(s', v) && !RefusedNow(s, v) { var t :| Covers(s, t, v); assert Covers(s', t, v); }
    if v in s.hub.heap && s'.hub.Live(v) && s.hub.heap[v].epoch == 0 { var x :| Creates(s, x, v); assert Creates(s', x, v); }
  }

  lemma ForgetUp(s: Sys, u: nat, v: nat)
    requires s.Linked() && u in s.hub.heap && UpOk(s, v)
    ensures s.(hub := s.hub.Forget(u)).Linked() && UpOk(s.(hub := s.hub.Forget(u)), v)
  {
  }

  lemma ForgetKeeps(s: Sys, u: nat)
    requires BindInv(s) && u in s.hub.heap
    ensures BindInv(s.(hub := s.hub.Forget(u)))
    ensures s.hub.Forget(u).Live(u) ==> s.hub.heap[u].epoch != 0
  {
    hide UpOk, NeedOk, NewOk;
    var s' := s.(hub := s.hub.Forget(u));
    forall v ensures UpOk(s', v) { assert UpOk(s, v); ForgetUp(s, u, v); }
    forall t ensures ThreadOk(s', t) { assert ThreadOk(s, t); }
    forall h ensures HandleOk(s', h) { assert HandleOk(s, h); }
    forall v ensures NeedOk(s', v) && NewOk(s', v) {
      assert NeedOk(s, v) && NewOk(s, v);
      ForgetNeed(s, u, v);
    }
  }

  lemma ClearKeeps(s: Sys)
    requires BindInv(s)
    ensures BindInv(Step(s, ClearHub))
  {
    var s' := Step(s, ClearHub);
    forall u ensures UpOk(s', u) { assert UpOk(s, u); }
    forall t ensures ThreadOk(s', t) { assert ThreadOk(s, t); }
    forall h ensures HandleOk(s', h) { assert HandleOk(s, h); }
    forall u ensures NeedOk(s', u) && NewOk(s', u) {}
  }

  // ---------------------------------------------------------------------------
  // bind()
  // ---------------------------------------------------------------------------

  ghost predicate InBind(s: Sys, t: nat) {
    BindInv(s) && Ready(s, t)
  }

  lemma GotPromises(s: Sys, t: nat, u: nat)
    requires Ready(s, t) && s.threads[t].pc.AtSubscribe?
    requires NeedOk(s, u) && NewOk(s, u)
    ensures NeedOk(Got(s, t), u) && NewOk(Got(s, t), u)
  {
    var s' := Got(s, t);
    if Behind(s, u) && !RefusedNow(s, u) { var x :| Covers(s, x, u); assert Covers(s', x, u); }
    if u in s.hub.heap && s.hub.Live(u) && s.hub.heap[u].epoch == 0 { var x :| Creates(s, x, u); assert Creates(s', x, u); }
  }

  lemma GotUp(s: Sys, t: nat, u: nat)
    requires Ready(s, t) && UpOk(s, u) && HandleOk(s, s.made)
    ensures UpOk(Got(s, t), u)
  {
  }

  lemma GotThread(s: Sys, t: nat, x: nat)
    requires Ready(s, t) && ThreadOk(s, t) && ThreadOk(s, x) && HandleOk(s, s.made) && s.threads[t].pc.AtSubscribe?
    ensures ThreadOk(Got(s, t), x)
  {
  }

  lemma GotHandle(s: Sys, t: nat, h: nat)
    requires Ready(s, t) && HandleOk(s, h) && s.threads[t].pc.AtSubscribe?
    ensures HandleOk(Got(s, t), h)
  {
  }

  lemma GotKeeps(s: Sys, t: nat)
    requires InBind(s, t) && s.threads[t].pc.AtSubscribe?
    ensures BindInv(Got(s, t))
  {
    hide UpOk, ThreadOk, HandleOk, NeedOk, NewOk;
    assert ThreadOk(s, t) && HandleOk(s, s.made);
    var s' := Got(s, t);
    forall u ensures UpOk(s', u) { assert UpOk(s, u); GotUp(s, t, u); }
    forall x ensures ThreadOk(s', x) { assert ThreadOk(s, x); GotThread(s, t, x); }
    forall h ensures HandleOk(s', h) { assert HandleOk(s, h); GotHandle(s, t, h); }
    forall u ensures NeedOk(s', u) && NewOk(s', u) {
      assert NeedOk(s, u) && NewOk(s, u);
      GotPromises(s, t, u);
    }
  }

  /** An invalid handle: from here on the subscription's lag is the current client's doing. */
  lemma RefusedKeeps(s: Sys, u: nat, lease: nat)
    requires BindInv(s) && u in s.hub.heap && lease <= s.Ep(s.hub.heap[u].name)
    ensures BindInv(s.(refused := s.refused[u := Max(s.Refused(u), lease)]))
  {
    var s' := s.(refused := s.refused[u := Max(s.Refused(u), lease)]);
    forall v ensures UpOk(s', v) { assert UpOk(s, v); }
    forall x ensures ThreadOk(s', x) { assert ThreadOk(s, x); }
    forall h ensures HandleOk(s', h) { assert HandleOk(s, h); }
    forall v ensures NeedOk(s', v) && NewOk(s', v) {
      assert NeedOk(s, v) && NewOk(s, v) && UpOk(s, v);
      if Behind(s, v) && !RefusedNow(s, v) { var x :| Covers(s, x, v); assert Covers(s', x, v); }
      if v in s.hub.heap && s.hub.Live(v) && s.hub.heap[v].epoch == 0 { var x :| Creates(s, x, v); assert Creates(s', x, v); }
    }
  }

  /** The thread's new handle becomes the subscription's; the old one is left to the thread. */
  ghost function Won(s: Sys, t: nat): Sys
    requires s.Linked() && t in s.threads && s.threads[t].Binding? && s.threads[t].pc.AtCommit?
    requires s.threads[t].up in s.hub.heap
  {
    var th := s.threads[t];
    var up := s.hub.heap[th.up];
    var handles := s.handles[th.pc.handle := ByUp(th.up)];
    s.(hub := s.hub.(heap := s.hub.heap[th.up := up.(handle := Some(th.pc.handle), epoch := th.lease)]),
       handles := if up.handle.Some? then handles[up.handle.value := ByThread(t)] else handles,
       threads := s.threads[t := th.(pc := if up.handle.Some? then AtDestroy(up.handle.value, true) else AtRecheck)])
  }

  ghost predicate AboutToWin(s: Sys, t: nat) {
    && s.Linked() && t in s.threads && s.threads[t].Binding? && s.threads[t].pc.AtCommit?
    && s.threads[t].up in s.hub.heap && s.hub.Live(s.threads[t].up)
    && s.hub.heap[s.threads[t].up].epoch < s.threads[t].lease
    && ThreadOk(s, t) && UpOk(s, s.threads[t].up)
  }

  lemma WonUp(s: Sys, t: nat, u: nat)
    requires AboutToWin(s, t) && UpOk(s, u)
    ensures Won(s, t).Linked() && UpOk(Won(s, t), u)
  {
  }

  lemma WonThread(s: Sys, t: nat, x: nat)
    requires AboutToWin(s, t) && ThreadOk(s, x)
    ensures Won(s, t).Linked() && ThreadOk(Won(s, t), x)
  {
  }

  lemma WonHandle(s: Sys, t: nat, h: nat)
    requires AboutToWin(s, t) && HandleOk(s, h) && HandleOk(s, s.threads[t].pc.handle)
    requires s.hub.heap[s.threads[t].up].handle.Some? ==> HandleOk(s, s.hub.heap[s.threads[t].up].handle.value)
    ensures HandleOk(Won(s, t), h)
  {
  }

  lemma WonNeed(s: Sys, t: nat, u: nat)
    requires AboutToWin(s, t) && NeedOk(s, u) && NewOk(s, u)
    ensures Won(s, t).Linked() && NeedOk(Won(s, t), u) && NewOk(Won(s, t), u)
  {
    var s' := Won(s, t);
    if Behind(s', u) && !RefusedNow(s, u) { var x :| Covers(s, x, u); assert Covers(s', x, u); }
    if u in s'.hub.heap && s'.hub.Live(u) && s'.hub.heap[u].epoch == 0 { var x :| Creates(s, x, u); assert Creates(s', x, u); }
  }

  lemma WonKeeps(s: Sys, t: nat)
    requires BindInv(s) && AboutToWin(s, t)
    ensures BindInv(Won(s, t))
  {
    var s' := Won(s, t);
    var up := s.hub.heap[s.threads[t].up];
    WonUp(s, t, s.threads[t].up);
    forall u ensures UpOk(s', u) { assert UpOk(s, u); WonUp(s, t, u); }
    forall x ensures ThreadOk(s', x) { assert ThreadOk(s, x); WonThread(s, t, x); }
    forall h ensures HandleOk(s', h) {
      assert HandleOk(s, h) && HandleOk(s, s.threads[t].pc.handle);
      if up.handle.Some? { assert HandleOk(s, up.handle.value); }
      WonHandle(s, t, h);
    }
    forall u ensures NeedOk(s', u) && NewOk(s', u) { assert NeedOk(s, u) && NewOk(s, u); WonNeed(s, t, u); }
  }

  lemma LetGoUp(s: Sys, t: nat, th: Option<Thread>, u: nat)
    requires s.Linked() && t in s.threads && ThreadOk(s, t) && UpOk(s, u) && Holds(s.threads[t]).Some?
    ensures UpOk(LetGone(s, t, th), u)
  {
  }

  lemma LetGoThread(s: Sys, t: nat, th: Option<Thread>, x: nat)
    requires s.Linked() && t in s.threads && ThreadOk(s, t) && ThreadOk(s, x)
    requires Holds(s.threads[t]).Some? && Holding(th).None? && (th.Some? ==> BindOk(s, th.value))
    ensures ThreadOk(LetGone(s, t, th), x)
  {
  }

  lemma LetGoHandle(s: Sys, t: nat, th: Option<Thread>, h: nat)
    requires s.Linked() && t in s.threads && ThreadOk(s, t) && HandleOk(s, h) && Holds(s.threads[t]).Some?
    ensures HandleOk(LetGone(s, t, th), h)
  {
  }

  function LetGone(s: Sys, t: nat, th: Option<Thread>): Sys
    requires t in s.threads && Holds(s.threads[t]).Some?
  {
    SetThread(s.(handles := s.handles - {Holds(s.threads[t]).value}), t, th)
  }

  /** The thread's handle is destroyed and the thread moves on. */
  lemma LetGo(s: Sys, t: nat, th: Option<Thread>)
    requires BindInv(s) && t in s.threads && TakesOver(s, t, th)
    requires Holds(s.threads[t]).Some? && Holding(th).None?
    requires th.Some? ==> BindOk(s, th.value)
    ensures BindInv(LetGone(s, t, th))
  {
    hide UpOk, ThreadOk, HandleOk, NeedOk, NewOk, TakesOver, BindOk;
    var s' := LetGone(s, t, th);
    assert ThreadOk(s, t);
    forall u ensures UpOk(s', u) { assert UpOk(s, u); LetGoUp(s, t, th, u); }
    forall x ensures ThreadOk(s', x) { assert ThreadOk(s, x); LetGoThread(s, t, th, x); }
    forall h ensures HandleOk(s', h) { assert HandleOk(s, h); LetGoHandle(s, t, th, h); }
    forall u ensures NeedOk(s', u) && NewOk(s', u) {
      assert NeedOk(s, u) && NewOk(s, u);
      PromiseMoves(s, t, th, u);
      LetGoNeeds(SetThread(s, t, th), s', u);
    }
  }

  lemma LetGoNeeds(s: Sys, s': Sys, u: nat)
    requires s.Linked() && s' == s.(handles := s'.handles) && NeedOk(s, u) && NewOk(s, u)
    ensures NeedOk(s', u) && NewOk(s', u)
  {
    if u in s.hub.heap {
      if exists x :: Covers(s, x, u) { var x :| Covers(s, x, u); assert Covers(s', x, u); }
    }
    if exists x :: Creates(s, x, u) { var x :| Creates(s, x, u); assert Creates(s', x, u); }
  }

  /** Ending a bind: the thread's other subscriptions, or add()'s failure path, are still ahead. */
  lemma FinishKeeps(s: Sys, t: nat, ok: bool)
    requires BindInv(s) && t in s.threads && s.threads[t].Binding? && Holds(s.threads[t]).None?
    requires s.threads[t].up in s.hub.heap
    requires
      var th := s.threads[t];
      Behind(s, th.up) && WillBind(s, th.(rest := []), th.up) ==> RefusedNow(s, th.up)
    requires ok && s.hub.Live(s.threads[t].up) ==> s.hub.heap[s.threads[t].up].epoch != 0
    ensures BindInv(SetThread(s, t, Finish(s.threads[t], ok)))
  {
    assert ThreadOk(s, t);
    FinishTakesOver(s, t, ok);
    MoveOn(s, t, Finish(s.threads[t], ok));
  }

  lemma FinishTakesOver(s: Sys, t: nat, ok: bool)
    requires s.Linked() && t in s.threads && s.threads[t].Binding? && BindOk(s, s.threads[t])
    requires
      var th := s.threads[t];
      Behind(s, th.up) && WillBind(s, th.(rest := []), th.up) ==> RefusedNow(s, th.up)
    requires ok && s.hub.Live(s.threads[t].up) ==> s.hub.heap[s.threads[t].up].epoch != 0
    ensures TakesOver(s, t, Finish(s.threads[t], ok))
    ensures var th := Finish(s.threads[t], ok); (th.Some? ==> BindOk(s, th.value)) && Holding(th).None?
  {
    var th := s.threads[t];
    if th.rest != [] {
      assert th.rest == [th.rest[0]] + th.rest[1..];
    }
  }

  lemma LeaseKeeps(s: Sys, t: nat, now: int)
    requires InBind(s, t) && s.threads[t].pc.AtGet?
    ensures BindInv(LeaseStep(s, t, now))
  {
    var th := s.threads[t];
    var m := s.hub.heap[th.up].name;
    var a := RegistryRuns.Lookup(m, now);
    var v := s.(world := RegistryRuns.Step(s.world, a));
    RegistryKeeps(s, a);
    LeaseIsCurrent(s.world, m, now);
    assert ThreadOk(v, t);
    var lease := Get(s.world.reg, m, now).1;
    if lease.None? {
      FinishKeeps(v, t, false);
    } else {
      MoveOn(v, t, Some(th.(lease := lease.value.epoch, pc := AtCheck)));
    }
  }

  /** A lease is the module's current client; there is none only once the registry is closed. */
  lemma LeaseIsCurrent(w: RegistryRuns.World, m: string, now: int)
    requires RegistryRuns.Inv(w)
    ensures
      var lease := Get(w.reg, m, now).1;
      var w' := RegistryRuns.Step(w, RegistryRuns.Lookup(m, now));
      w'.reg.Linked() && if lease.None? then w'.reg.closed else lease.value.epoch == w'.reg.Epoch(m) >= 1
  {
    RegistryRuns.StepKeeps(w, RegistryRuns.Lookup(m, now));
    assert RegistryRuns.ModuleOk(w.reg, m);
    if m in w.reg.modules {
      assert RegistryRuns.SlotOk(w, w.reg.modules[m].current);
    }
  }

  lemma CheckKeeps(s: Sys, t: nat)
    requires InBind(s, t) && s.threads[t].pc.AtCheck?
    ensures BindInv(Check(s, t))
  {
    var th := s.threads[t];
    assert ThreadOk(s, t);
    if s.hub.closed || !s.hub.Live(th.up) {
      FinishKeeps(s, t, false);
    } else if s.hub.heap[th.up].epoch >= th.lease {
      FinishKeeps(s, t, true);
    } else {
      MoveOn(s, t, Some(th.(pc := AtWatch)));
    }
  }

  lemma WatchedSame(s: Sys, t: nat)
    requires Ready(s, t)
    ensures SameBinding(s, Watched(s, t)) && Watched(s, t).threads == s.threads && Watched(s, t).next == s.next
  {
  }

  lemma WatchMoves(s: Sys, t: nat)
    requires Ready(s, t) && ThreadOk(s, t) && s.threads[t].pc.AtWatch?
    ensures
      var th := s.threads[t].(pc := AtSubscribe);
      TakesOver(s, t, Some(th)) && BindOk(s, th) && Holding(Some(th)) == Holding(At(s, t)) && t < s.next
  {
  }

  lemma WatchKeeps(s: Sys, t: nat)
    requires InBind(s, t) && s.threads[t].pc.AtWatch?
    ensures BindInv(WatchStep(s, t))
  {
    assert ThreadOk(s, t);
    var v := Watched(s, t);
    WatchedSame(s, t);
    hide Watched, SameBinding, TakesOver, BindOk;
    SameKeeps(s, v);
    assert Ready(v, t) && ThreadOk(v, t);
    WatchMoves(v, t);
    hide BindInv, ThreadOk;
    MoveOn(v, t, Some(s.threads[t].(pc := AtSubscribe)));
  }

  lemma RefuseKeeps(s: Sys, t: nat)
    requires InBind(s, t) && s.threads[t].pc.AtSubscribe?
    ensures BindInv(Refuse(s, t))
  {
    var th := s.threads[t];
    assert ThreadOk(s, t);
    RefusedKeeps(s, th.up, th.lease);
    var v := s.(refused := s.refused[th.up := Max(s.Refused(th.up), th.lease)]);
    assert UpOk(v, th.up);
    MoveOn(v, t, Some(th.(pc := AtRefused)));
  }

  lemma CommitKeeps(s: Sys, t: nat)
    requires InBind(s, t) && s.threads[t].pc.AtCommit?
    ensures BindInv(Commit(s, t))
  {
    var th := s.threads[t];
    var h := th.pc.handle;
    assert ThreadOk(s, t) && UpOk(s, th.up) && HandleOk(s, h);
    if !s.hub.closed && s.hub.Live(th.up) && s.hub.heap[th.up].epoch < th.lease {
      WonKeeps(s, t);
      assert Commit(s, t) == Won(s, t);
    } else {
      assert s.handles == s.handles[h := ByThread(t)];
      MoveOn(s, t, Some(th.(pc := AtDestroy(h, !s.hub.closed && s.hub.Live(th.up)))));
    }
  }

  lemma DestroyKeeps(s: Sys, t: nat)
    requires InBind(s, t) && s.threads[t].pc.AtDestroy?
    ensures BindInv(Destroy(s, t))
  {
    var th := s.threads[t];
    assert ThreadOk(s, t);
    if !th.pc.bound {
      FinishTakesOver(s, t, false);
    }
    LetGo(s, t, if th.pc.bound then Some(th.(pc := AtRecheck)) else Finish(th, false));
  }

  lemma RecheckKeeps(s: Sys, t: nat)
    requires InBind(s, t) && s.threads[t].pc.AtRecheck?
    ensures BindInv(Recheck(s, t))
  {
    var th := s.threads[t];
    assert ThreadOk(s, t);
    if s.Ep(s.hub.heap[th.up].name) == th.lease || th.round + 1 == BIND_ROUNDS {
      FinishKeeps(s, t, true);
    } else {
      MoveOn(s, t, Some(th.(round := th.round + 1, pc := AtGet)));
    }
  }

  lemma BindKeeps(s: Sys, t: nat, now: int, ok: bool)
    requires InBind(s, t)
    ensures BindInv(Bind(s, t, now, ok))
  {
    hide LeaseStep, Check, WatchStep, Got, Refuse, Commit, Destroy, Recheck, BindInv;
    match s.threads[t].pc
    case AtGet => LeaseKeeps(s, t, now);
    case AtCheck => CheckKeeps(s, t);
    case AtWatch => WatchKeeps(s, t);
    case AtSubscribe => if ok { GotKeeps(s, t); } else { RefuseKeeps(s, t); }
    case AtRefused => FinishKeeps(s, t, s.hub.heap[s.threads[t].up].epoch != 0);
    case AtCommit(_) => CommitKeeps(s, t);
    case AtDestroy(_, _) => DestroyKeeps(s, t);
    case AtRecheck => RecheckKeeps(s, t);
  }

  // ---------------------------------------------------------------------------
  // The other threads
  // ---------------------------------------------------------------------------

  lemma TellKeeps(s: Sys, t: nat)
    requires BindInv(s) && t in s.threads && s.threads[t].Losing? && s.threads[t].ids != []
    ensures BindInv(Tell(s, t))
  {
    var th := s.threads[t];
    assert ThreadOk(s, t);
    var v := s.(told := s.told + multiset{th.ids[0]}, places := s.places[th.ids[0] := Told]);
    SameKeeps(s, v);
    MoveOn(v, t, Some(th.(ids := th.ids[1..])));
  }

  lemma TakeKeeps(s: Sys, t: nat)
    requires BindInv(s) && t in s.threads && s.threads[t].Losing?
    ensures BindInv(Take(s, t))
  {
    var th := s.threads[t];
    assert ThreadOk(s, t);
    if th.events == [] {
      MoveOn(s, t, None);
    } else {
      var (hub, ids) := s.hub.TakeSubscribers(th.name, th.events[0]);
      var v := s.(hub := hub, places := map id | id in s.places :: if id in ids then InThread(t) else s.places[id]);
      SameKeeps(s, v);
      MoveOn(v, t, Some(Losing(th.name, th.events[1..], ids)));
    }
  }

  lemma RetiringKeeps(s: Sys, t: nat)
    requires BindInv(s) && t in s.threads && s.threads[t].Retiring?
    ensures
      var th := s.threads[t];
      BindInv(SetThread(s.(hub := s.hub.Retire(th.name, th.epoch)), t, Some(Listing(th.name))))
  {
    var th := s.threads[t];
    assert ThreadOk(s, t);
    var v := s.(hub := s.hub.Retire(th.name, th.epoch));
    SameKeeps(s, v);
    MoveOn(v, t, Some(Listing(th.name)));
  }

  lemma ListKeeps(s: Sys, t: nat, ups: seq<nat>)
    requires BindInv(s) && t in s.threads && s.threads[t].Listing?
    ensures BindInv(List(s, t, ups))
  {
    assert ThreadOk(s, t);
    if s.hub.closed {
      MoveOn(s, t, None);
    } else if s.hub.Lists(s.threads[t].name, ups) {
      if ups != [] {
        assert ups == [ups[0]] + ups[1..];
      }
      MoveOn(s, t, FirstBind(ups));
    }
  }

  lemma ListEventsKeeps(s: Sys, t: nat, ups: seq<nat>)
    requires BindInv(s) && t in s.threads && s.threads[t].Lost?
    ensures BindInv(ListEvents(s, t, ups))
  {
    assert ThreadOk(s, t);
    if s.hub.Lists(s.threads[t].name, ups) {
      MoveOn(s, t, Some(Losing(s.threads[t].name, EventsOf(s.hub, ups), [])));
    }
  }

  lemma ForgettingKeeps(s: Sys, t: nat)
    requires BindInv(s) && t in s.threads && s.threads[t].Forgetting? && s.threads[t].up in s.hub.heap
    ensures BindInv(SetThread(s.(hub := s.hub.Forget(s.threads[t].up)), t, None))
  {
    assert ThreadOk(s, t);
    ForgetKeeps(s, s.threads[t].up);
    MoveOn(s.(hub := s.hub.Forget(s.threads[t].up)), t, None);
  }

  // ---------------------------------------------------------------------------
  // Runs
  // ---------------------------------------------------------------------------

  lemma GoKeeps(s: Sys, t: nat, now: int, ok: bool, ups: seq<nat>)
    requires BindInv(s) && t in s.threads
    ensures BindInv(Go(s, t, now, ok, ups))
  {
    hide Bind, Tell, Take, List, ListEvents;
    match s.threads[t]
    case Retiring(_, _) => RetiringKeeps(s, t);
    case Listing(_) => ListKeeps(s, t, ups);
    case Lost(_) => ListEventsKeeps(s, t, ups);
    case Forgetting(u) => if u in s.hub.heap { ForgettingKeeps(s, t); }
    case Losing(_, _, ids) => if ids != [] { TellKeeps(s, t); } else { TakeKeeps(s, t); }
    case Binding(u, _, _, _, _, _) => if u in s.hub.heap { BindKeeps(s, t, now, ok); }
  }

  lemma StepKeeps(s: Sys, a: Action)
    requires BindInv(s)
    ensures BindInv(Step(s, a))
  {
    hide Go, Replacing, Adding, Reporting;
    match a
    case Registry(a) => if !a.Swap? { RegistryKeeps(s, a); }
    case Replaced(m, e, now) => ReplacingKeeps(s, m, e, now);
    case Add(m, ev, id) => if !s.hub.closed && id !in s.places { AddingKeeps(s, m, ev, id); }
    case Remove(m, ev, id) => SameKeeps(s, Step(s, a));
    case Report(m, e, lost) => ReportingKeeps(s, m, e, lost);
    case ProviderChanged(m) => SpawnKeeps(s, Lost(m));
    case ClearHub => ClearKeeps(s);
    case Advance(t, now, ok, ups) => if t in s.threads { GoKeeps(s, t, now, ok, ups); }
  }

  lemma ReportingKeeps(s: Sys, m: string, e: nat, lost: bool)
    requires BindInv(s)
    ensures BindInv(Reporting(s, m, e, lost))
  {
    SpawnKeeps(s, Lost(m));
  }

  lemma AddingKeeps(s: Sys, m: string, ev: string, id: nat)
    requires BindInv(s) && !s.hub.closed
    ensures BindInv(Adding(s, m, ev, id))
  {
    if (m, ev) in s.hub.live {
      SameKeeps(s, Adding(s, m, ev, id));
    } else {
      AddedKeeps(s, m, ev, id);
    }
  }

  ghost function Run(run: seq<Action>): Sys {
    if run == [] then Start
    else
      var s := Run(run[..|run| - 1]);
      if s.Linked() then Step(s, run[|run| - 1]) else s
  }

  lemma {:induction false} RunKeeps(run: seq<Action>)
    ensures BindInv(Run(run))
  {
    if run == [] {
      StartOk();
    } else {
      RunKeeps(run[..|run| - 1]);
      StepKeeps(Run(run[..|run| - 1]), run[|run| - 1]);
    }
  }

  lemma StartOk()
    ensures BindInv(Start)
  {
    RegistryRuns.StartOk();
    forall u ensures UpOk(Start, u) && NeedOk(Start, u) && NewOk(Start, u) {}
    forall t ensures ThreadOk(Start, t) {}
    forall h ensures HandleOk(Start, h) {}
  }
}
