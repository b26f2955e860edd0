/** One upstream subscription per (module, event), fanned out to subscribers.

    `heap` holds the shared subscription objects by id and `live` is m_up, so an id keeps naming the
    object a thread holds after its key was erased or rebound to another one. Handles are ids too;
    a handle leaving a region is destroyed after the lock is released. */
module SubscriptionHubs {
  import opened Prelude

  datatype Up = Up(name: string, event: string, handle: Option<nat>, epoch: nat, subs: seq<nat>, generation: nat)

  /** The client epoch whose watcher is installed, and the one whose reports count. */
  datatype Watch = Watch(installed: nat, accept: nat)

  function Max(a: nat, b: nat): nat {
    if a >= b then a else b
  }

  datatype Hub = Hub(heap: map<nat, Up>, live: map<(string, string), nat>, watch: map<string, Watch>, closed: bool, next: nat)
  {
    ghost predicate Linked() {
      && (forall k | k in live :: live[k] in heap && (heap[live[k]].name, heap[live[k]].event) == k)
      && (forall u | u in heap :: u < next)
    }

    predicate Live(u: nat)
      requires u in heap
    {
      var k := (heap[u].name, heap[u].event);
      k in live && live[k] == u
    }

    /** The subscription for the key, created when there is none; true when it needs binding. */
    function Add(m: string, ev: string, id: nat): (Hub, nat, bool)
      requires Linked()
    {
      if (m, ev) in live then
        var u := live[(m, ev)];
        var subs := heap[u].subs;
        (this.(heap := heap[u := heap[u].(subs := if id in subs then subs else subs + [id])]), u, false)
      else
        (this.(heap := heap[next := Up(m, ev, None, 0, [id], 1)], live := live[(m, ev) := next], next := next + 1),
         next, true)
    }

    /** After a failed first bind: the subscription goes, unless someone else has bound it. */
    function Forget(u: nat): Hub
      requires u in heap
    {
      if Live(u) && heap[u].epoch == 0 then this.(live := live - {(heap[u].name, heap[u].event)}) else this
    }

    function Remove(m: string, ev: string, id: nat): Hub
      requires Linked()
    {
      if (m, ev) !in live then this
      else
        var u := live[(m, ev)];
        this.(heap := heap[u := heap[u].(subs := Without(heap[u].subs, id))])
    }

    function Retire(m: string, epoch: nat): Hub {
      var w := if m in watch then watch[m] else Watch(0, 0);
      this.(watch := watch[m := w.(accept := Max(w.accept, epoch))])
    }

    /** This lease's loss watcher is to be installed, unless it or a later one is. */
    function EnsureWatcher(m: string, epoch: nat): (Hub, bool) {
      var w := if m in watch then watch[m] else Watch(0, 0);
      if w.installed >= epoch then (this.(watch := watch[m := w]), false)
      else (this.(watch := watch[m := Watch(epoch, Max(w.accept, epoch))]), true)
    }

    /** Exactly the module's subscriptions, each once, in some order. */
    ghost predicate Lists(m: string, ups: seq<nat>) {
      && (forall u :: u in ups <==> u in heap && heap[u].name == m && Live(u))
      && (forall i, j | 0 <= i < j < |ups| :: ups[i] != ups[j])
    }

    /** The new handle takes over unless the hub closed, the subscription is gone, or a newer client
        already serves it; the second result is the handle left to destroy. */
    function Commit(u: nat, epoch: nat, handle: nat): (Hub, Option<nat>)
      requires u in heap
    {
      if closed || !Live(u) || heap[u].epoch >= epoch then (this, Some(handle))
      else (this.(heap := heap[u := heap[u].(handle := Some(handle), epoch := epoch)]), heap[u].handle)
    }

    /** The subscribers to tell, now detached. */
    function TakeSubscribers(m: string, ev: string): (Hub, seq<nat>)
      requires Linked()
    {
      if (m, ev) !in live then (this, [])
      else
        var u := live[(m, ev)];
        (this.(heap := heap[u := heap[u].(subs := [], generation := heap[u].generation + 1)]), heap[u].subs)
    }

    predicate Accepts(m: string, epoch: nat) {
      !closed && m in watch && watch[m].accept == epoch
    }

    /** Every handle moves out with its subscription. */
    function Clear(): Hub {
      Hub(map u | u in heap :: heap[u].(handle := None), map[], watch, true, next)
    }
  }

  const Empty := Hub(map[], map[], map[], false, 0)

  // ---------------------------------------------------------------------------
  // The hub object, one method per lock region
  // ---------------------------------------------------------------------------

  class SubscriptionHub {
    var heap: map<nat, Up>
    var live: map<(string, string), nat>
    var watch: map<string, Watch>
    var closed: bool
    var next: nat

    function Value(): Hub
      reads this
    {
      Hub(heap, live, watch, closed, next)
    }

    constructor ()
      ensures Value() == Empty
    {
      heap, live, watch, closed, next := map[], map[], map[], false, 0;
    }

    method AddSubscriber(m: string, ev: string, id: nat) returns (ok: bool, up: nat, needsSubscribe: bool)
      requires Value().Linked()
      modifies this
      ensures Value().Linked() && ok == !old(closed)
      ensures if ok then (Value(), up, needsSubscribe) == old(Value()).Add(m, ev, id) else Value() == old(Value())
    {
      if closed {
        return false, 0, false;
      }
      ok := true;
      if (m, ev) !in live {
        up, needsSubscribe := next, true;
        heap := heap[up := Up(m, ev, None, 0, [id], 1)];
        live := live[(m, ev) := up];
        next := next + 1;
      } else {
        up, needsSubscribe := live[(m, ev)], false;
        if id !in heap[up].subs {
          heap := heap[up := heap[up].(subs := heap[up].subs + [id])];
        } else {
          assert heap == heap[up := heap[up].(subs := heap[up].subs)];
        }
      }
    }

    method RemoveSubscriber(m: string, ev: string, id: nat)
      requires Value().Linked()
      modifies this
      ensures Value() == old(Value()).Remove(m, ev, id) && Value().Linked()
    {
      if (m, ev) !in live {
        return;
      }
      var up := heap[live[(m, ev)]];
      var kept := [];
      var i := 0;
      while i < |up.subs|
        invariant i <= |up.subs|
        invariant kept + Without(up.subs[i..], id) == Without(up.subs, id)
      {
        assert up.subs[i..] == [up.subs[i]] + up.subs[i + 1..];
        if up.subs[i] != id {
          assert kept + ([up.subs[i]] + Without(up.subs[i + 1..], id)) ==
                 (kept + [up.subs[i]]) + Without(up.subs[i + 1..], id);
          kept := kept + [up.subs[i]];
        }
        i := i + 1;
      }
      assert up.subs[i..] == [] && kept + [] == kept;
      heap := heap[live[(m, ev)] := up.(subs := kept)];
    }

    method RetireClient(m: string, epoch: nat)
      modifies this
      ensures Value() == old(Value()).Retire(m, epoch)
    {
      var w := if m in watch then watch[m] else Watch(0, 0);
      watch := watch[m := w.(accept := if w.accept >= epoch then w.accept else epoch)];
    }

    /** The subscriptions rebind() is to move. */
    method ListModule(m: string) returns (ups: seq<nat>)
      requires Value().Linked()
      ensures Value().Lists(m, ups)
    {
      ups := [];
      var keys := live.Keys;
      while keys != {}
        invariant keys <= live.Keys
        invariant forall u :: u in ups <==> u in heap && heap[u].name == m && Value().Live(u) && (m, heap[u].event) !in keys
        invariant forall i, j | 0 <= i < j < |ups| :: ups[i] != ups[j]
        decreases |keys|
      {
        var k :| k in keys;
        keys := keys - {k};
        if heap[live[k]].name == m {
          ups := ups + [live[k]];
        }
      }
    }

    method CommitHandle(u: nat, epoch: nat, handle: nat) returns (dead: Option<nat>)
      requires Value().Linked() && u in heap
      modifies this
      ensures (Value(), dead) == old(Value()).Commit(u, epoch, handle) && Value().Linked()
    {
      var k := (heap[u].name, heap[u].event);
      if closed || k !in live || live[k] != u || heap[u].epoch >= epoch {
        return Some(handle);
      }
      dead := heap[u].handle;
      heap := heap[u := heap[u].(handle := Some(handle), epoch := epoch)];
    }

    method TakeLost(m: string, ev: string) returns (ids: seq<nat>)
      requires Value().Linked()
      modifies this
      ensures (Value(), ids) == old(Value()).TakeSubscribers(m, ev) && Value().Linked()
    {
      if (m, ev) !in live {
        return [];
      }
      var u := live[(m, ev)];
      ids := heap[u].subs;
      heap := heap[u := heap[u].(generation := heap[u].generation + 1)];
      heap := heap[u := heap[u].(subs := [])];
      assert heap == old(heap)[u := old(heap)[u].(subs := [], generation := old(heap)[u].generation + 1)];
    }
  }
}
