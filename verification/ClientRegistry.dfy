/** One client per target module, replaced when it wedges.

    Slots are shared objects in the program; here a slot is an id into `slots`, and since each
    slot builds exactly one client the id names that client too. Every lock region reads the
    clock once. Clients leaving a region in a `dead` sequence are destroyed after the lock is
    released. */
module ClientRegistries {
  import opened Prelude
  import opened Backoff

  const RETIRED_DEADLINE := 300000

  datatype ErrorCode = NoError | Unauthorized | ObjectUnavailable | OtherError

  /** `held`: the slot still holds the registry's reference to its client. */
  datatype Slot = Slot(name: string, held: bool, epoch: nat, inFlight: int, retired: bool, retiredAt: int)
  datatype Module = Module(current: nat, lastEpoch: nat, policy: Policy)
  datatype Lease = Lease(client: nat, epoch: nat)

  datatype Reg = Reg(slots: map<nat, Slot>, next: nat, modules: map<string, Module>, retired: seq<nat>,
                     unreleased: seq<nat>, replacements: nat, closed: bool)
  {
    /** The ids the registry stores name slots. */
    ghost predicate Linked() {
      && (forall m | m in modules :: modules[m].current in slots)
      && (forall c | c in retired :: c in slots)
      && (forall c | c in slots :: c < next)
    }

    function Epoch(m: string): nat
      requires Linked()
    {
      if m in modules then slots[modules[m].current].epoch else 0
    }
  }

  const Empty := Reg(map[], 0, map[], [], [], 0, false)

  // ---------------------------------------------------------------------------
  // The lock regions, as functions
  // ---------------------------------------------------------------------------

  /** The module's entry, with a first client when it has none. */
  function WithCurrent(r: Reg, m: string, now: int): Reg {
    if m in r.modules then r
    else r.(slots := r.slots[r.next := Slot(m, true, 1, 0, false, 0)], next := r.next + 1,
            modules := r.modules[m := Module(r.next, 1, Created(now))])
  }

  function Get(r: Reg, m: string, now: int): (Reg, Option<Lease>)
    requires r.Linked()
  {
    if r.closed then (r, None)
    else
      var r := WithCurrent(r, m, now);
      var c := r.modules[m].current;
      (r, if r.slots[c].held then Some(Lease(c, r.slots[c].epoch)) else None)
  }

  predicate Expired(s: Slot, now: int) {
    now - s.retiredAt >= RETIRED_DEADLINE
  }

  function Sweep(slots: map<nat, Slot>, q: seq<nat>, now: int): (map<nat, Slot>, seq<nat>, seq<nat>)
    requires forall c | c in q :: c in slots
  {
    if q == [] then (slots, [], [])
    else
      var s := slots[q[0]];
      if !Expired(s, now) then
        var (slots', kept, dead) := Sweep(slots, q[1..], now);
        (slots', [q[0]] + kept, dead)
      else
        var (slots', kept, dead) := Sweep(slots[q[0] := s.(held := false)], q[1..], now);
        (slots', kept, (if s.held then [q[0]] else []) + dead)
  }

  function Swept(r: Reg, now: int): (out: (Reg, seq<nat>))
    requires r.Linked()
    ensures out.0 == r.(slots := out.0.slots, retired := out.0.retired)
  {
    var (slots, kept, dead) := Sweep(r.slots, r.retired, now);
    (r.(slots := slots, retired := kept), dead)
  }

  /** One more unanswered call through the module's current client. */
  function Counting(r: Reg, m: string): Reg
    requires r.Linked() && m in r.modules
  {
    var c := r.modules[m].current;
    r.(slots := r.slots[c := r.slots[c].(inFlight := r.slots[c].inFlight + 1)])
  }

  /** The slot the call goes through, or None once closed. */
  function Invoke(r: Reg, m: string, now: int): (Reg, Option<nat>, seq<nat>)
    requires r.Linked()
  {
    if r.closed then (r, None, [])
    else
      var r := Counting(WithCurrent(r, m, now), m);
      var (swept, dead) := Swept(r, now);
      (swept, Some(r.modules[m].current), dead)
  }

  /** The module's client makes way for the next epoch's; an idle one is let go at once. */
  function Retire(r: Reg, m: string, now: int): (Reg, seq<nat>)
    requires r.Linked() && m in r.modules
  {
    var c := r.modules[m].current;
    var s := r.slots[c].(retired := true, retiredAt := now);
    var idle := s.inFlight == 0;
    var lastEpoch := r.modules[m].lastEpoch + 1;
    (r.(slots := r.slots[c := if idle then s.(held := false) else s][r.next := Slot(m, true, lastEpoch, 0, false, 0)],
        next := r.next + 1,
        modules := r.modules[m := r.modules[m].(current := r.next, lastEpoch := lastEpoch)],
        retired := if idle then r.retired else r.retired + [c],
        replacements := r.replacements + 1),
     if idle && s.held then [c] else [])
  }

  function Replace(r: Reg, m: string, epoch: nat, now: int): (Reg, bool, seq<nat>)
    requires r.Linked()
  {
    if r.closed || m !in r.modules || r.slots[r.modules[m].current].epoch != epoch then (r, false, [])
    else
      var (retired, dying) := Retire(r, m, now);
      var (swept, dead) := Swept(retired, now);
      (swept, true, dying + dead)
  }

  /** An answer through the module's current client feeds its policy; others are not counted. */
  function Judge(r: Reg, c: nat, code: ErrorCode, now: int): (out: (map<string, Module>, bool))
    requires r.Linked() && c in r.slots
    ensures out.0.Keys == r.modules.Keys
    ensures forall m | m in r.modules :: out.0[m] == r.modules[m].(policy := out.0[m].policy)
    ensures forall m | m in r.modules && m != r.slots[c].name :: out.0[m] == r.modules[m]
  {
    var m := r.slots[c].name;
    if r.closed || m !in r.modules || r.modules[m].current != c then (r.modules, false)
    else
      var policy := r.modules[m].policy;
      var (policy', replace) :=
        if code == ObjectUnavailable then OnUnavailable(policy, now)
        else if code == NoError || code == Unauthorized then (OnReached(policy), false)
        else (policy, false);
      (r.modules[m := r.modules[m].(policy := policy')], replace)
  }

  /** A call's answer: the client to release on the pump, and the epoch to replace. */
  function Finished(r: Reg, c: nat, code: ErrorCode, now: int): (Reg, Option<nat>, Option<nat>)
    requires r.Linked() && c in r.slots
  {
    var s := r.slots[c].(inFlight := r.slots[c].inFlight - 1);
    var (modules, replace) := Judge(r, c, code, now);
    var done := s.retired && s.inFlight == 0 && s.held;
    (r.(slots := r.slots[c := if done then s.(held := false) else s], modules := modules,
        retired := if done then Without(r.retired, c) else r.retired),
     if done then Some(c) else None,
     if replace then Some(s.epoch) else None)
  }

  /** A refused post leaves the dying client with the registry. */
  function Keep(r: Reg, c: nat): Reg {
    r.(unreleased := r.unreleased + [c])
  }

  /** Destroys every client the registry holds. */
  function Close(r: Reg): (Reg, set<nat>)
    requires r.Linked()
  {
    (r.(slots := map c | c in r.slots :: r.slots[c].(held := false), retired := [], unreleased := [], closed := true),
     (set c | c in r.slots && r.slots[c].held) + (set c | c in r.unreleased))
  }

  /** A sweep that has already kept `kept` and taken `dead`, with `q` still to visit. */
  ghost function SweepFrom(slots: map<nat, Slot>, kept: seq<nat>, q: seq<nat>, dead: seq<nat>, now: int)
    : (map<nat, Slot>, seq<nat>, seq<nat>)
    requires forall c | c in q :: c in slots
  {
    var s := Sweep(slots, q, now);
    (s.0, kept + s.1, dead + s.2)
  }

  lemma SweepFromStart(slots: map<nat, Slot>, q: seq<nat>, now: int)
    requires forall c | c in q :: c in slots
    ensures SweepFrom(slots, [], q, [], now) == Sweep(slots, q, now)
  {
    var s := Sweep(slots, q, now);
    assert [] + s.1 == s.1 && [] + s.2 == s.2;
  }

  lemma SweepFromEnd(slots: map<nat, Slot>, kept: seq<nat>, dead: seq<nat>, now: int)
    ensures SweepFrom(slots, kept, [], dead, now) == (slots, kept, dead)
  {
    assert kept + [] == kept && dead + [] == dead;
  }

  lemma SweepFromStep(slots: map<nat, Slot>, kept: seq<nat>, q: seq<nat>, dead: seq<nat>, now: int)
    requires q != [] && forall c | c in q :: c in slots
    ensures
      var s := slots[q[0]];
      SweepFrom(slots, kept, q, dead, now) ==
      if !Expired(s, now) then SweepFrom(slots, kept + [q[0]], q[1..], dead, now)
      else SweepFrom(slots[q[0] := s.(held := false)], kept, q[1..], if s.held then dead + [q[0]] else dead, now)
  {
    var s := slots[q[0]];
    if !Expired(s, now) {
      assert kept + ([q[0]] + Sweep(slots, q[1..], now).1) == (kept + [q[0]]) + Sweep(slots, q[1..], now).1;
    } else {
      var later := Sweep(slots[q[0] := s.(held := false)], q[1..], now).2;
      assert dead + ([q[0]] + later) == (dead + [q[0]]) + later && [] + later == later;
    }
  }

  // ---------------------------------------------------------------------------
  // The registry object
  // ---------------------------------------------------------------------------

  class ClientRegistry {
    var slots: map<nat, Slot>
    var next: nat
    var modules: map<string, Module>
    var retired: seq<nat>
    var unreleased: seq<nat>
    var replacements: nat
    var closed: bool

    function Value(): Reg
      reads this
    {
      Reg(slots, next, modules, retired, unreleased, replacements, closed)
    }

    constructor ()
      ensures Value() == Empty
    {
      slots, next, modules, retired, unreleased := map[], 0, map[], [], [];
      replacements, closed := 0, false;
    }

    method CurrentLocked(m: string, now: int) returns (c: nat)
      requires Value().Linked()
      modifies this
      ensures Value() == WithCurrent(old(Value()), m, now) && Value().Linked()
      ensures m in modules && c == modules[m].current
    {
      if m !in modules {
        slots := slots[next := Slot(m, true, 1, 0, false, 0)];
        modules := modules[m := Module(next, 1, Created(now))];
        next := next + 1;
      }
      c := modules[m].current;
    }

    method GetLease(m: string, now: int) returns (lease: Option<Lease>)
      requires Value().Linked()
      modifies this
      ensures (Value(), lease) == Get(old(Value()), m, now) && Value().Linked()
    {
      if closed {
        return None;
      }
      var c := CurrentLocked(m, now);
      lease := if slots[c].held then Some(Lease(c, slots[c].epoch)) else None;
    }

    /** Drops the retired clients whose calls never all came back in time. */
    method SweepLocked(now: int) returns (dead: seq<nat>)
      requires Value().Linked()
      modifies `slots, `retired
      ensures (Value(), dead) == Swept(old(Value()), now) && Value().Linked()
    {
      dead := [];
      var i := 0;
      assert retired[0..] == retired;
      SweepFromStart(slots, retired, now);
      while i < |retired|
        invariant 0 <= i <= |retired| && Value().Linked()
        invariant SweepFrom(slots, retired[..i], retired[i..], dead, now) == Sweep(old(slots), old(retired), now)
        decreases |retired| - i
      {
        var c := retired[i];
        SweepFromStep(slots, retired[..i], retired[i..], dead, now);
        assert retired[i..][1..] == retired[i + 1..];
        if !Expired(slots[c], now) {
          assert retired[..i + 1] == retired[..i] + [c];
          i := i + 1;
        } else {
          if slots[c].held {
            dead := dead + [c];
          }
          ghost var before := retired;
          slots := slots[c := slots[c].(held := false)];
          retired := retired[..i] + retired[i + 1..];
          assert retired[i..] == before[i + 1..] && retired[..i] == before[..i];
        }
      }
      SweepFromEnd(slots, retired, dead, now);
      assert retired[i..] == [] && retired[..i] == retired;
    }

    method InvokeCall(m: string, now: int) returns (slot: Option<nat>, dead: seq<nat>)
      requires Value().Linked()
      modifies this
      ensures (Value(), slot, dead) == Invoke(old(Value()), m, now) && Value().Linked()
    {
      if closed {
        return None, [];
      }
      var c := CurrentLocked(m, now);
      slots := slots[c := slots[c].(inFlight := slots[c].inFlight + 1)];
      slot := Some(c);
      dead := SweepLocked(now);
    }

    method ReplaceClient(m: string, epoch: nat, now: int) returns (ok: bool, dead: seq<nat>)
      requires Value().Linked()
      modifies this
      ensures (Value(), ok, dead) == Replace(old(Value()), m, epoch, now) && Value().Linked()
    {
      if closed || m !in modules || slots[modules[m].current].epoch != epoch {
        return false, [];
      }
      var c := modules[m].current;
      var lastEpoch := modules[m].lastEpoch + 1;
      var dying := [];
      slots := slots[c := slots[c].(retired := true, retiredAt := now)];
      if slots[c].inFlight == 0 {
        dying := if slots[c].held then [c] else [];
        slots := slots[c := slots[c].(held := false)];
      } else {
        retired := retired + [c];
      }
      slots := slots[next := Slot(m, true, lastEpoch, 0, false, 0)];
      modules := modules[m := modules[m].(current := next, lastEpoch := lastEpoch)];
      next := next + 1;
      replacements := replacements + 1;
      assert Value() == Retire(old(Value()), m, now).0 by {
        var r := old(slots);
        var s := r[c].(retired := true, retiredAt := now);
        assert slots == r[c := if s.inFlight == 0 then s.(held := false) else s][next - 1 := slots[next - 1]];
      }
      dead := SweepLocked(now);
      ok, dead := true, dying + dead;
    }

    /** The half of an answer that concerns the module's policy; true when it asks for a replacement. */
    method TellPolicy(c: nat, code: ErrorCode, now: int) returns (due: bool)
      requires Value().Linked() && c in slots
      modifies `modules
      ensures (modules, due) == Judge(old(Value()), c, code, now)
    {
      due := false;
      var m := slots[c].name;
      if !closed && m in modules && modules[m].current == c {
        var policy := modules[m].policy;
        if code == ObjectUnavailable {
          policy, due := OnUnavailable(policy, now).0, OnUnavailable(policy, now).1;
        } else if code == NoError || code == Unauthorized {
          policy := OnReached(policy);
        }
        modules := modules[m := modules[m].(policy := policy)];
      }
    }

    method FinishCall(c: nat, code: ErrorCode, now: int) returns (dying: Option<nat>, replace: Option<nat>)
      requires Value().Linked() && c in slots
      modifies this
      ensures (Value(), dying, replace) == Finished(old(Value()), c, code, now) && Value().Linked()
    {
      hide Judge, Without;
      dying, replace := None, None;
      var due := TellPolicy(c, code, now);
      var s := slots[c].(inFlight := slots[c].inFlight - 1);
      slots := slots[c := s];
      if due {
        replace := Some(s.epoch);
      }
      if s.retired && s.inFlight == 0 && s.held {
        dying := Some(c);
        slots := slots[c := s.(held := false)];
        assert slots == old(slots)[c := s.(held := false)];
        retired := Without(retired, c);
      }
    }

    method CloseAll() returns (dead: set<nat>)
      requires Value().Linked()
      modifies this
      ensures (Value(), dead) == Close(old(Value())) && Value().Linked()
    {
      dead := (set c | c in slots && slots[c].held) + (set c | c in unreleased);
      slots := map c | c in slots :: slots[c].(held := false);
      retired, unreleased, closed := [], [], true;
    }
  }
}
