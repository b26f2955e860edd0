/** Every run of the client registry: lock regions, answers and queued release jobs interleaved in
    any order. A disabled action changes nothing, so a run is any sequence of actions. */
module RegistryRuns {
  import opened Prelude
  import opened Backoff
  import opened ClientRegistries

  datatype Action =
    | Lookup(name: string, now: int)
    | Call(name: string, now: int)
    | Answered(slot: nat, code: ErrorCode, now: int)
    | HandOff(slot: nat, posted: bool)   // posted: the pump took the release job
    | RunRelease(slot: nat)              // run, or dropped by the stopping pump
    | Swap(name: string, epoch: nat, now: int)   // replace(), run by a queued job or called directly
    | DropJob(name: string, epoch: nat)          // a replacement job the pump refuses or drops
    | Shut
    | Destroy(slot: nat)                 // the destructor of a client that was let go has run

  /** `calls`: unanswered calls by slot; `handing`: clients an answer has taken from the registry but
      not yet offered to the pump; `releasing`: clients held by queued jobs; `dropped`: clients let go to
      be destroyed; `gone`: destroyed, and their callbacks with them; `swapped`, `made` and `answered`:
      every replaced epoch, every call and every answer so far; `asked`: the replacement jobs answers have
      asked for and that have not run. */
  datatype World = World(reg: Reg, calls: multiset<nat>, handing: multiset<nat>, releasing: multiset<nat>,
                         dropped: multiset<nat>, gone: set<nat>, swapped: multiset<(string, nat)>,
                         made: multiset<nat>, answered: multiset<nat>, asked: multiset<(string, nat)>)
  {
    /** An answer through the client can still come. */
    predicate Comes(c: nat) {
      calls[c] > 0 && c in reg.slots && c !in gone
    }
  }

  const Start := World(Empty, multiset{}, multiset{}, multiset{}, multiset{}, {}, multiset{}, multiset{}, multiset{}, multiset{})

  function Step(w: World, a: Action): World
    requires w.reg.Linked()
  {
    match a
    case Lookup(m, now) => w.(reg := Get(w.reg, m, now).0)
    case Call(m, now) =>
      var (reg, slot, dead) := Invoke(w.reg, m, now);
      w.(reg := reg, calls := if slot.Some? then w.calls + multiset{slot.value} else w.calls,
         made := if slot.Some? then w.made + multiset{slot.value} else w.made,
         dropped := w.dropped + multiset(dead))
    case Answered(c, code, now) =>
      if !w.Comes(c) then w
      else
        var (reg, dying, due) := Finished(w.reg, c, code, now);
        w.(reg := reg, calls := w.calls - multiset{c}, answered := w.answered + multiset{c},
           handing := if dying.Some? then w.handing + multiset{c} else w.handing,
           asked := if due.Some? then w.asked + multiset{(w.reg.slots[c].name, due.value)} else w.asked)
    case HandOff(c, posted) =>
      if w.handing[c] == 0 then w
      else if posted then w.(handing := w.handing - multiset{c}, releasing := w.releasing + multiset{c})
      else w.(handing := w.handing - multiset{c}, reg := Keep(w.reg, c))
    case RunRelease(c) =>
      if w.releasing[c] == 0 then w
      else w.(releasing := w.releasing - multiset{c}, dropped := w.dropped + multiset{c})
    case Swap(m, epoch, now) =>
      var (reg, ok, dead) := Replace(w.reg, m, epoch, now);
      var w := w.(asked := w.asked - multiset{(m, epoch)});
      if ok then w.(reg := reg, dropped := w.dropped + multiset(dead), swapped := w.swapped + multiset{(m, epoch)})
      else w
    case DropJob(m, epoch) => w.(asked := w.asked - multiset{(m, epoch)})
    case Shut =>
      var (reg, dead) := Close(w.reg);
      w.(reg := reg, dropped := w.dropped + multiset(dead))
    case Destroy(c) => if w.dropped[c] == 0 then w else w.(gone := w.gone + {c})
  }

  // ---------------------------------------------------------------------------
  // The invariant
  // ---------------------------------------------------------------------------

  /** How many places have a client: its slot, an answer's hands, a queued job, m_unreleased, or the
      ones let go. */
  ghost function Owners(w: World, c: nat): nat {
    B(c in w.reg.slots && w.reg.slots[c].held) + w.handing[c] + w.releasing[c] +
    multiset(w.reg.unreleased)[c] + w.dropped[c]
  }

  /** One owner per client; a module's other slots are retired and older; m_retired lists exactly
      the replaced slots that still have a client, all of them with calls out. */
  ghost predicate SlotOk(w: World, c: nat) {
    var r := w.reg;
    var queued := multiset(r.retired)[c];
    && Owners(w, c) == B(c in r.slots)
    && queued <= 1
    && (c !in r.slots ==> w.calls[c] == 0 && queued == 0)
    && (c in r.retired <==> queued == 1)
    && (c in r.slots ==>
          var s := r.slots[c];
          && s.inFlight == w.calls[c]
          && s.name in r.modules && 1 <= s.epoch <= r.modules[s.name].lastEpoch
          && (s.retired <==> c != r.modules[s.name].current)
          && (s.retired <==> s.epoch != r.modules[s.name].lastEpoch)
          && (queued == 1 <==> s.retired && s.held)
          && (queued == 1 ==> s.inFlight > 0)
          && (w.handing[c] + w.releasing[c] + multiset(r.unreleased)[c] > 0 ==> s.retired && s.inFlight == 0)
          && (!s.retired ==> (s.held <==> !r.closed))
          && (r.closed ==> !s.held))
  }

  ghost predicate ModuleOk(r: Reg, m: string) {
    m in r.modules ==>
      && r.modules[m].current in r.slots
      && r.slots[r.modules[m].current].name == m
      && r.slots[r.modules[m].current].epoch == r.modules[m].lastEpoch
  }

  /** Each superseded epoch was replaced once, and no other epoch was. */
  ghost predicate SwapOk(w: World, m: string, e: nat) {
    w.swapped[(m, e)] == B(m in w.reg.modules && 1 <= e < w.reg.modules[m].lastEpoch)
  }

  ghost predicate Inv(w: World) {
    && w.reg.Linked()
    && (forall c {:trigger SlotOk(w, c)} :: SlotOk(w, c))
    && (forall m {:trigger ModuleOk(w.reg, m)} :: ModuleOk(w.reg, m))
    && (forall m, e: nat {:trigger SwapOk(w, m, e)} :: SwapOk(w, m, e))
    && w.reg.replacements == |w.swapped|
  }

  // ---------------------------------------------------------------------------
  // Sweeping
  // ---------------------------------------------------------------------------

  /** What a sweep of `q` does to one slot. */
  ghost predicate Took(slots: map<nat, Slot>, q: seq<nat>, now: int, out: (map<nat, Slot>, seq<nat>, seq<nat>), c: nat) {
    && (c in out.0 <==> c in slots)
    && (c in slots ==> out.0[c] == slots[c].(held := slots[c].held && !(c in q && Expired(slots[c], now))))
    && multiset(out.1)[c] == B(c in q && c in slots && !Expired(slots[c], now))
    && multiset(out.2)[c] == B(c in q && c in slots && Expired(slots[c], now))
  }

  /** The expired clients are taken once each; the rest stays. */
  lemma {:induction false} SweepTakes(slots: map<nat, Slot>, q: seq<nat>, now: int, c: nat)
    requires forall d | d in q :: d in slots && slots[d].held && multiset(q)[d] <= 1
    ensures Took(slots, q, now, Sweep(slots, q, now), c)
  {
    if q != [] {
      var s := slots[q[0]];
      assert q == [q[0]] + q[1..];
      assert multiset(q) == multiset{q[0]} + multiset(q[1..]);
      var rest := if Expired(s, now) then slots[q[0] := s.(held := false)] else slots;
      SweepTakes(rest, q[1..], now, c);
    }
  }

  lemma TookKeepsSlot(w: World, now: int, reg: Reg, dead: seq<nat>, c: nat)
    requires SlotOk(w, c) && reg == w.reg.(slots := reg.slots, retired := reg.retired)
    requires Took(w.reg.slots, w.reg.retired, now, (reg.slots, reg.retired, dead), c)
    ensures SlotOk(w.(reg := reg, dropped := w.dropped + multiset(dead)), c)
  {
    assert c in reg.retired <==> multiset(reg.retired)[c] > 0;
  }

  lemma SweptKeeps(w: World, now: int)
    requires Inv(w)
    ensures
      var (reg, dead) := Swept(w.reg, now);
      Inv(w.(reg := reg, dropped := w.dropped + multiset(dead)))
  {
    var (reg, dead) := Swept(w.reg, now);
    var w' := w.(reg := reg, dropped := w.dropped + multiset(dead));
    var out := Sweep(w.reg.slots, w.reg.retired, now);
    forall d | d in w.reg.retired ensures d in w.reg.slots && w.reg.slots[d].held && multiset(w.reg.retired)[d] <= 1 {
      assert SlotOk(w, d);
    }
    forall c ensures Took(w.reg.slots, w.reg.retired, now, out, c) {
      SweepTakes(w.reg.slots, w.reg.retired, now, c);
    }
    forall c | c in reg.slots || c in reg.retired ensures c in reg.slots && c < reg.next {
      assert Took(w.reg.slots, w.reg.retired, now, out, c);
    }
    forall m | m in reg.modules ensures reg.modules[m].current in reg.slots {
      assert Took(w.reg.slots, w.reg.retired, now, out, reg.modules[m].current);
    }
    forall c ensures SlotOk(w', c) {
      assert Took(w.reg.slots, w.reg.retired, now, out, c);
      assert SlotOk(w, c);
      TookKeepsSlot(w, now, reg, dead, c);
    }
    forall m ensures ModuleOk(reg, m) {
      assert ModuleOk(w.reg, m);
      if m in reg.modules {
        assert Took(w.reg.slots, w.reg.retired, now, out, reg.modules[m].current);
      }
    }
    forall m, e: nat ensures SwapOk(w', m, e) {
      assert SwapOk(w, m, e);
    }
  }

  // ---------------------------------------------------------------------------
  // Every action keeps the invariant
  // ---------------------------------------------------------------------------

  lemma FirstKeeps(w: World, m: string, now: int)
    requires Inv(w) && !w.reg.closed
    ensures Inv(w.(reg := WithCurrent(w.reg, m, now)))
  {
    var w' := w.(reg := WithCurrent(w.reg, m, now));
    forall c ensures SlotOk(w', c) {
      assert SlotOk(w, c);
    }
    forall n ensures ModuleOk(w'.reg, n) {
      assert ModuleOk(w.reg, n);
    }
    forall n, e: nat ensures SwapOk(w', n, e) {
      assert SwapOk(w, n, e);
    }
  }

  /** One more call through module m's current client. */
  function Counted(w: World, m: string): World
    requires w.reg.Linked() && m in w.reg.modules
  {
    var c := w.reg.modules[m].current;
    w.(reg := Counting(w.reg, m), calls := w.calls + multiset{c}, made := w.made + multiset{c})
  }

  lemma CountingKeeps(w: World, m: string)
    requires Inv(w) && m in w.reg.modules && !w.reg.closed
    ensures Inv(Counted(w, m))
  {
    var w' := Counted(w, m);
    assert ModuleOk(w.reg, m);
    forall c ensures SlotOk(w', c) {
      assert SlotOk(w, c);
    }
    forall n ensures ModuleOk(w'.reg, n) {
      assert ModuleOk(w.reg, n);
    }
    forall n, e: nat ensures SwapOk(w', n, e) {
      assert SwapOk(w, n, e);
    }
  }

  lemma CallKeeps(w: World, m: string, now: int)
    requires Inv(w)
    ensures Inv(Step(w, Call(m, now)))
  {
    if w.reg.closed {
      assert w.dropped + multiset([]) == w.dropped;
    } else {
      FirstKeeps(w, m, now);
      var v := w.(reg := WithCurrent(w.reg, m, now));
      CountingKeeps(v, m);
      var u := Counted(v, m);
      SweptKeeps(u, now);
    }
  }

  lemma AnsweredKeepsSlot(w: World, c: nat, code: ErrorCode, now: int, d: nat)
    requires w.reg.Linked() && SlotOk(w, c) && SlotOk(w, d)
    ensures SlotOk(Step(w, Answered(c, code, now)), d)
  {
    hide Judge;
  }

  lemma AnsweredKeeps(w: World, c: nat, code: ErrorCode, now: int)
    requires Inv(w)
    ensures Inv(Step(w, Answered(c, code, now)))
  {
    var w' := Step(w, Answered(c, code, now));
    forall d ensures SlotOk(w', d) {
      assert SlotOk(w, c) && SlotOk(w, d);
      AnsweredKeepsSlot(w, c, code, now, d);
    }
    AnsweredModules(w, c, code, now);
  }

  lemma AnsweredModules(w: World, c: nat, code: ErrorCode, now: int)
    requires Inv(w)
    ensures
      var w' := Step(w, Answered(c, code, now));
      && w'.reg.Linked() && (forall m {:trigger ModuleOk(w'.reg, m)} :: ModuleOk(w'.reg, m))
      && (forall m, e: nat {:trigger SwapOk(w', m, e)} :: SwapOk(w', m, e)) && w'.reg.replacements == |w'.swapped|
  {
    var w' := Step(w, Answered(c, code, now));
    AnsweredWrites(w, c, code, now);
    hide SlotOk;
    forall m ensures ModuleOk(w'.reg, m) {
      assert ModuleOk(w.reg, m);
    }
    forall m, e: nat ensures SwapOk(w', m, e) {
      assert SwapOk(w, m, e);
    }
  }

  lemma HandOffKeeps(w: World, c: nat, posted: bool)
    requires Inv(w)
    ensures Inv(Step(w, HandOff(c, posted)))
  {
    var w' := Step(w, HandOff(c, posted));
    forall d ensures SlotOk(w', d) {
      assert SlotOk(w, d);
    }
    forall m ensures ModuleOk(w'.reg, m) {
      assert ModuleOk(w.reg, m);
    }
    forall m, e: nat ensures SwapOk(w', m, e) {
      assert SwapOk(w, m, e);
    }
  }

  lemma RetireKeepsSlot(w: World, m: string, now: int, c: nat)
    requires w.reg.Linked() && m in w.reg.modules && !w.reg.closed && ModuleOk(w.reg, m)
    requires SlotOk(w, c) && SlotOk(w, w.reg.modules[m].current)
    ensures
      var (reg, dying) := Retire(w.reg, m, now);
      SlotOk(w.(reg := reg, dropped := w.dropped + multiset(dying),
                swapped := w.swapped + multiset{(m, w.reg.modules[m].lastEpoch)}), c)
  {
  }

  lemma RetireKeeps(w: World, m: string, now: int)
    requires Inv(w) && m in w.reg.modules && !w.reg.closed
    ensures
      var (reg, dying) := Retire(w.reg, m, now);
      Inv(w.(reg := reg, dropped := w.dropped + multiset(dying),
             swapped := w.swapped + multiset{(m, w.reg.modules[m].lastEpoch)}))
  {
    var r := w.reg;
    var (reg, dying) := Retire(r, m, now);
    var w' := w.(reg := reg, dropped := w.dropped + multiset(dying),
                 swapped := w.swapped + multiset{(m, r.modules[m].lastEpoch)});
    assert ModuleOk(r, m);
    forall c ensures SlotOk(w', c) {
      assert SlotOk(w, c) && SlotOk(w, r.modules[m].current);
      RetireKeepsSlot(w, m, now, c);
    }
    assert SlotOk(w, r.modules[m].current);
    forall n ensures ModuleOk(reg, n) {
      assert ModuleOk(r, n);
    }
    forall n, e: nat ensures SwapOk(w', n, e) {
      assert SwapOk(w, n, e);
    }
  }

  /** The replacement jobs waiting are no part of the invariant. */
  lemma AskedKeeps(w: World, asked: multiset<(string, nat)>)
    requires Inv(w)
    ensures Inv(w.(asked := asked))
  {
    var w' := w.(asked := asked);
    forall c ensures SlotOk(w', c) {
      assert SlotOk(w, c);
    }
    forall m, e: nat ensures SwapOk(w', m, e) {
      assert SwapOk(w, m, e);
    }
  }

  lemma SwapKeeps(w: World, m: string, epoch: nat, now: int)
    requires Inv(w)
    ensures Inv(Step(w, Swap(m, epoch, now)))
  {
    AskedKeeps(w, w.asked - multiset{(m, epoch)});
    var w := w.(asked := w.asked - multiset{(m, epoch)});
    if Replace(w.reg, m, epoch, now).1 {
      assert ModuleOk(w.reg, m);
      RetireKeeps(w, m, now);
      var (reg, dying) := Retire(w.reg, m, now);
      var u := w.(reg := reg, dropped := w.dropped + multiset(dying), swapped := w.swapped + multiset{(m, epoch)});
      SweptKeeps(u, now);
      var dead := Swept(reg, now).1;
      assert u.dropped + multiset(dead) == w.dropped + multiset(dying + dead);
    }
  }

  lemma ShutKeeps(w: World)
    requires Inv(w)
    ensures Inv(Step(w, Shut))
  {
    var w' := Step(w, Shut);
    var dead: set<nat> := Close(w.reg).1;
    forall c ensures SlotOk(w', c) {
      assert SlotOk(w, c);
      assert multiset(dead)[c] == B(c in dead);
    }
    forall m ensures ModuleOk(w'.reg, m) {
      assert ModuleOk(w.reg, m);
    }
    forall m, e: nat ensures SwapOk(w', m, e) {
      assert SwapOk(w, m, e);
    }
  }

  lemma ReleaseKeeps(w: World, c: nat)
    requires Inv(w)
    ensures Inv(Step(w, RunRelease(c)))
  {
    var w' := Step(w, RunRelease(c));
    forall d ensures SlotOk(w', d) {
      assert SlotOk(w, d);
    }
    forall m, e: nat ensures SwapOk(w', m, e) {
      assert SwapOk(w, m, e);
    }
  }

  lemma DestroyKeeps(w: World, c: nat)
    requires Inv(w)
    ensures Inv(Step(w, Destroy(c)))
  {
    var w' := Step(w, Destroy(c));
    forall d ensures SlotOk(w', d) {
      assert SlotOk(w, d);
    }
    forall m, e: nat ensures SwapOk(w', m, e) {
      assert SwapOk(w, m, e);
    }
  }

  lemma StepKeeps(w: World, a: Action)
    requires Inv(w)
    ensures Inv(Step(w, a))
  {
    match a
    case Lookup(m, now) =>
      if !w.reg.closed {
        FirstKeeps(w, m, now);
      }
    case Call(m, now) => CallKeeps(w, m, now);
    case Answered(c, code, now) => AnsweredKeeps(w, c, code, now);
    case HandOff(c, posted) => HandOffKeeps(w, c, posted);
    case RunRelease(c) => ReleaseKeeps(w, c);
    case Swap(m, epoch, now) => SwapKeeps(w, m, epoch, now);
    case DropJob(m, epoch) => AskedKeeps(w, w.asked - multiset{(m, epoch)});
    case Shut => ShutKeeps(w);
    case Destroy(c) => DestroyKeeps(w, c);
  }

  // ---------------------------------------------------------------------------
  // Runs
  // ---------------------------------------------------------------------------

  ghost function Run(run: seq<Action>): World {
    if run == [] then Start
    else
      var w := Run(run[..|run| - 1]);
      if w.reg.Linked() then Step(w, run[|run| - 1]) else w
  }

  lemma {:induction false} RunKeeps(run: seq<Action>)
    ensures Inv(Run(run))
  {
    if run == [] {
      StartOk();
    } else {
      RunKeeps(run[..|run| - 1]);
      StepKeeps(Run(run[..|run| - 1]), run[|run| - 1]);
    }
  }

  lemma StartOk()
    ensures Inv(Start)
  {
    forall c ensures SlotOk(Start, c) {}
    forall m ensures ModuleOk(Start.reg, m) {}
    forall m, e: nat ensures SwapOk(Start, m, e) {}
  }

  /** Every client ever built is in exactly one place: its module's current slot, m_retired (with
      calls still out), the answer that is releasing it, a queued release job, m_unreleased, or
      let go to be destroyed, and that once. */
  lemma {:induction false} OneOwner(run: seq<Action>, c: nat)
    requires c in Run(run).reg.slots
    ensures
      var w := Run(run);
      var r := w.reg;
      var s := r.slots[c];
      var current := s.held && s.name in r.modules && r.modules[s.name].current == c;
      var retired := s.held && c in r.retired;
      && B(current) + B(retired) + w.handing[c] + w.releasing[c] + multiset(r.unreleased)[c] + w.dropped[c] == 1
      && multiset(r.retired)[c] <= 1
      && (c in r.retired ==> s.held && s.inFlight > 0)
      && s.inFlight == w.calls[c]
  {
    RunKeeps(run);
    assert SlotOk(Run(run), c);
  }

  /** The steps that let go of a client the registry still holds with calls out: close(), and the sweep of a
      later call or replacement once the client's deadline has passed. */
  predicate Takes(w: World, a: Action, c: nat)
    requires w.reg.Linked()
  {
    c in w.reg.slots && w.reg.slots[c].held &&
    match a
    case Shut => true
    case Call(m, now) => !w.reg.closed && c in w.reg.retired && now - w.reg.slots[c].retiredAt >= 300000
    case Swap(m, epoch, now) => Replace(w.reg, m, epoch, now).1 && c in w.reg.retired && now - w.reg.slots[c].retiredAt >= 300000
    case _ => false
  }

  /** Whatever the step lets go of with calls out, it lets go of in one of those ways, and conversely. */
  ghost predicate DropsAsTaken(w: World, a: Action, c: nat)
    requires w.reg.Linked()
  {
    (Step(w, a).dropped[c] > w.dropped[c] && w.calls[c] > 0) <==> (Takes(w, a, c) && w.calls[c] > 0)
  }

  /** A client whose calls are still unanswered is let go by close() or by a sweep past its deadline, and by
      nothing else. */
  lemma {:induction false} DropsWaitForAnswers(run: seq<Action>, a: Action, c: nat)
    ensures Run(run).reg.Linked() && DropsAsTaken(Run(run), a, c)
  {
    RunKeeps(run);
    StepDrops(Run(run), a, c);
  }

  lemma StepDrops(w: World, a: Action, c: nat)
    requires Inv(w)
    ensures DropsAsTaken(w, a, c)
  {
    assert SlotOk(w, c);
    match a
    case Call(m, now) => if !w.reg.closed { CallDrops(w, m, now, c); }
    case Swap(m, epoch, now) => if Replace(w.reg, m, epoch, now).1 { SwapDrops(w, m, epoch, now, c); }
    case Shut => ShutDrops(w, c);
    case _ =>
  }

  lemma ShutDrops(w: World, c: nat)
    requires Inv(w)
    ensures DropsAsTaken(w, Shut, c)
  {
    assert SlotOk(w, c);
    var dead: set<nat> := Close(w.reg).1;
    assert multiset(dead)[c] == B(c in dead);
  }

  lemma CallDrops(w: World, m: string, now: int, c: nat)
    requires Inv(w) && !w.reg.closed
    ensures DropsAsTaken(w, Call(m, now), c)
  {
    FirstKeeps(w, m, now);
    var v := w.(reg := WithCurrent(w.reg, m, now));
    CountingKeeps(v, m);
    var u := Counted(v, m);
    SweptTakes(u, now, c);
    assert SlotOk(w, c) && SlotOk(u, c);
  }

  lemma SwapDrops(w: World, m: string, epoch: nat, now: int, c: nat)
    requires Inv(w) && Replace(w.reg, m, epoch, now).1
    ensures DropsAsTaken(w, Swap(m, epoch, now), c)
  {
    assert ModuleOk(w.reg, m) && SlotOk(w, w.reg.modules[m].current);
    RetireKeeps(w, m, now);
    var (reg, dying) := Retire(w.reg, m, now);
    var u := w.(reg := reg, dropped := w.dropped + multiset(dying), swapped := w.swapped + multiset{(m, epoch)});
    SweptTakes(u, now, c);
    assert multiset(dying + Swept(reg, now).1) == multiset(dying) + multiset(Swept(reg, now).1);
    assert SlotOk(w, c);
    assert !Expired(reg.slots[w.reg.modules[m].current], now);
  }

  lemma SweptTakes(w: World, now: int, c: nat)
    requires Inv(w)
    ensures multiset(Swept(w.reg, now).1)[c] == B(c in w.reg.retired && Expired(w.reg.slots[c], now))
  {
    forall d | d in w.reg.retired ensures d in w.reg.slots && w.reg.slots[d].held && multiset(w.reg.retired)[d] <= 1 {
      assert SlotOk(w, d);
    }
    SweepTakes(w.reg.slots, w.reg.retired, now, c);
  }

  // ---------------------------------------------------------------------------
  // What becomes of a call
  // ---------------------------------------------------------------------------

  /** Calls through the client whose answer can still come, and those whose callback died with it. */
  function Waiting(w: World, c: nat): nat {
    if c in w.gone then 0 else w.calls[c]
  }

  function Lost(w: World, c: nat): nat {
    if c in w.gone then w.calls[c] else 0
  }

  ghost predicate Accounts(w: World, c: nat) {
    w.made[c] == w.answered[c] + w.calls[c] && (c in w.gone ==> w.dropped[c] > 0)
  }

  /** The step destroys the client while calls through it are out. */
  predicate Loses(w: World, a: Action, c: nat) {
    a == Destroy(c) && w.dropped[c] > 0 && w.calls[c] > 0
  }

  lemma StepAccounts(w: World, a: Action, c: nat)
    requires Inv(w) && Accounts(w, c)
    ensures Accounts(Step(w, a), c)
    ensures Lost(Step(w, a), c) > 0 <==> Lost(w, c) > 0 || Loses(w, a, c)
  {
    match a
    case Call(m, now) => CallAccounts(w, m, now, c);
    case Answered(d, code, now) => AnsweredAccounts(w, d, code, now, c);
    case Swap(m, epoch, now) => SwapAccounts(w, m, epoch, now, c);
    case _ => OtherAccounts(w, a, c);
  }

  lemma OtherAccounts(w: World, a: Action, c: nat)
    requires w.reg.Linked() && Accounts(w, c) && !a.Call? && !a.Answered? && !a.Swap?
    ensures Accounts(Step(w, a), c)
    ensures Lost(Step(w, a), c) > 0 <==> Lost(w, c) > 0 || Loses(w, a, c)
  {
    hide Get, Close;
  }

  lemma AnsweredAccounts(w: World, d: nat, code: ErrorCode, now: int, c: nat)
    requires w.reg.Linked() && Accounts(w, c)
    ensures Accounts(Step(w, Answered(d, code, now)), c)
    ensures Lost(Step(w, Answered(d, code, now)), c) == Lost(w, c)
  {
    hide Finished;
  }

  lemma SwapAccounts(w: World, m: string, epoch: nat, now: int, c: nat)
    requires w.reg.Linked() && Accounts(w, c)
    ensures Accounts(Step(w, Swap(m, epoch, now)), c)
    ensures Lost(Step(w, Swap(m, epoch, now)), c) == Lost(w, c)
  {
    hide Replace;
  }

  lemma CallAccounts(w: World, m: string, now: int, c: nat)
    requires Inv(w) && Accounts(w, c)
    ensures Accounts(Step(w, Call(m, now)), c)
    ensures Lost(Step(w, Call(m, now)), c) == Lost(w, c)
  {
    hide Sweep;
    assert SlotOk(w, c) && ModuleOk(w.reg, m);
  }

  lemma {:induction false} RunAccounts(run: seq<Action>, c: nat)
    ensures Accounts(Run(run), c)
  {
    if run != [] {
      RunAccounts(run[..|run| - 1], c);
      RunKeeps(run[..|run| - 1]);
      StepAccounts(Run(run[..|run| - 1]), run[|run| - 1], c);
    }
  }

  /** Every call made through a client is exactly one of answered, waiting or lost. */
  lemma {:induction false} CallsAccounted(run: seq<Action>, c: nat)
    ensures var w := Run(run); w.made[c] == w.answered[c] + Waiting(w, c) + Lost(w, c)
  {
    RunAccounts(run, c);
  }

  /** At some step of the run the client is destroyed with calls out. */
  ghost predicate EverLoses(run: seq<Action>, c: nat) {
    exists i | 0 <= i < |run| :: Loses(Run(run[..i]), run[i], c)
  }

  lemma LosesSplit(before: seq<Action>, a: Action, c: nat)
    ensures EverLoses(before + [a], c) <==> EverLoses(before, c) || Loses(Run(before), a, c)
  {
    hide Run, Loses;
    var run := before + [a];
    assert run[..|before|] == before && run[|before|] == a;
    assert forall i | 0 <= i < |before| :: run[..i] == before[..i] && run[i] == before[i];
  }

  /** A client's calls are lost exactly when, at some step of the run, it is destroyed with calls out. */
  lemma {:induction false} LostExactly(run: seq<Action>, c: nat)
    ensures Lost(Run(run), c) > 0 <==> EverLoses(run, c)
  {
    hide EverLoses;
    if run == [] {
      NeverLoses(c);
    } else {
      var (before, a) := (run[..|run| - 1], run[|run| - 1]);
      assert run == before + [a];
      LostExactly(before, c);
      LosesSplit(before, a, c);
      RunAccounts(before, c);
      RunKeeps(before);
      StepAccounts(Run(before), a, c);
      hide Step, Lost, Loses, Accounts, Inv;
    }
  }

  lemma NeverLoses(c: nat)
    ensures !EverLoses([], c)
  {
  }

  /** At some step of the run close() or a sweep past the deadline takes the client with calls out. */
  ghost predicate EverTaken(run: seq<Action>, c: nat) {
    exists i | 0 <= i < |run| :: TakenAt(Run(run[..i]), run[i], c)
  }

  ghost predicate TakenAt(w: World, a: Action, c: nat) {
    w.reg.Linked() && w.calls[c] > 0 && Takes(w, a, c)
  }

  lemma TakenSplit(before: seq<Action>, a: Action, c: nat)
    requires EverTaken(before, c) || TakenAt(Run(before), a, c)
    ensures EverTaken(before + [a], c)
  {
    hide Run, TakenAt;
    var run := before + [a];
    assert run[..|before|] == before && run[|before|] == a;
    if EverTaken(before, c) {
      var i :| 0 <= i < |before| && TakenAt(Run(before[..i]), before[i], c);
      assert run[..i] == before[..i] && run[i] == before[i];
    }
  }

  /** A client whose calls are out when it has been let go was taken that way before. */
  lemma {:induction false} LostWereTaken(run: seq<Action>, c: nat)
    requires Run(run).dropped[c] > 0 && Run(run).calls[c] > 0
    ensures EverTaken(run, c)
  {
    if run == [] {
      assert false;
    } else {
      hide EverTaken, Step, TakenAt, Inv;
      var (before, a) := (run[..|run| - 1], run[|run| - 1]);
      assert run == before + [a];
      RunKeeps(before);
      InvLinked(Run(before));
      StepTaken(Run(before), a, c);
      if Run(before).dropped[c] > 0 {
        LostWereTaken(before, c);
      }
      TakenSplit(before, a, c);
    }
  }

  lemma InvLinked(w: World)
    requires Inv(w)
    ensures w.reg.Linked()
  {
  }

  lemma StepTaken(w: World, a: Action, c: nat)
    requires Inv(w) && w.reg.Linked() && Step(w, a).dropped[c] > 0 && Step(w, a).calls[c] > 0
    ensures w.calls[c] > 0 && (w.dropped[c] > 0 || TakenAt(w, a, c))
  {
    hide Inv, Takes, Step;
    StepDrops(w, a, c);
    CallsStay(w, a, c);
  }

  /** A client that is let go, or is being let go, gets no new calls. */
  lemma CallsStay(w: World, a: Action, c: nat)
    requires Inv(w) && Step(w, a).dropped[c] > 0
    ensures Step(w, a).calls[c] <= w.calls[c]
  {
    StepKeeps(w, a);
    assert SlotOk(w, c) && SlotOk(Step(w, a), c);
    match a
    case Call(m, now) => CallStays(w, m, now, c);
    case _ =>
  }

  lemma CallStays(w: World, m: string, now: int, c: nat)
    requires Inv(w) && SlotOk(Step(w, Call(m, now)), c) && Step(w, Call(m, now)).dropped[c] > 0
    ensures Step(w, Call(m, now)).calls[c] <= w.calls[c]
  {
    StepKeeps(w, Call(m, now));
    assert ModuleOk(Step(w, Call(m, now)).reg, m) && ModuleOk(w.reg, m);
    hide Sweep;
  }

  const Called := World(Reg(map[0 := Slot("m", true, 1, 1, false, 0)], 1, map["m" := Module(0, 1, Created(0))], [], [], 0, false),
                        multiset{0}, multiset{}, multiset{}, multiset{}, {}, multiset{}, multiset{0}, multiset{}, multiset{})

  const Replaced := World(Reg(map[0 := Slot("m", true, 1, 1, true, 0), 1 := Slot("m", true, 2, 0, false, 0)], 2,
                              map["m" := Module(1, 2, Created(0))], [0], [], 1, false),
                          multiset{0}, multiset{}, multiset{}, multiset{}, {}, multiset{("m", 1)}, multiset{0}, multiset{}, multiset{})

  lemma FirstCall()
    ensures Start.reg.Linked() && Step(Start, Call("m", 0)) == Called
  {
  }

  lemma FirstSwap()
    ensures Called.reg.Linked() && Step(Called, Swap("m", 1, 0)) == Replaced
  {
    var (reg, dying) := Retire(Called.reg, "m", 0);
    assert reg.slots == Replaced.reg.slots && reg.modules == Replaced.reg.modules && reg == Replaced.reg && dying == [];
    assert [0][1..] == [] && [0] + [] == [0];
    assert Sweep(reg.slots, [0][1..], 0) == (reg.slots, [], []);
    assert Sweep(reg.slots, [0], 0) == (reg.slots, [0], []);
    hide Retire, Sweep;
    assert dying + [] == [];
    assert Replace(Called.reg, "m", 1, 0) == (Replaced.reg, true, []);
  }

  lemma LateCall()
    ensures Replaced.reg.Linked()
    ensures var w := Step(Replaced, Call("m", RETIRED_DEADLINE)); w.reg.Linked() && w.dropped[0] == 1 && w.calls[0] == 1 && w.answered[0] == 0
  {
    var r := Counting(Replaced.reg, "m");
    assert Sweep(r.slots, [0], RETIRED_DEADLINE).2 == [0] by {
      assert [0][1..] == [];
    }
  }

  /** A call whose `done` never runs, though the registry is never closed: its client is replaced, outlives
      its deadline, and is swept by the next call. */
  lemma LossExample()
    ensures
      var w := Run([Call("m", 0), Swap("m", 1, 0), Call("m", RETIRED_DEADLINE), Destroy(0)]);
      Waiting(w, 0) == 0 && w.answered[0] == 0 && Lost(w, 0) == 1
  {
    hide Run, Step, Waiting, Lost;
    var before := [Call("m", 0)] + [Swap("m", 1, 0)] + [Call("m", RETIRED_DEADLINE)];
    LateRun();
    RunMore(before, Destroy(0));
    assert [Call("m", 0), Swap("m", 1, 0), Call("m", RETIRED_DEADLINE), Destroy(0)] == before + [Destroy(0)];
    DestroyedLose(Run(before), 0);
  }

  lemma DestroyedLose(w: World, c: nat)
    requires w.reg.Linked() && w.dropped[c] > 0
    ensures var v := Step(w, Destroy(c)); Waiting(v, c) == 0 && v.answered == w.answered && Lost(v, c) == w.calls[c]
  {
  }

  lemma LateRun()
    ensures
      var w := Run([Call("m", 0)] + [Swap("m", 1, 0)] + [Call("m", RETIRED_DEADLINE)]);
      w.reg.Linked() && w.dropped[0] == 1 && w.calls[0] == 1 && w.answered[0] == 0
  {
    FirstCall();
    FirstSwap();
    LateCall();
    RunMore([], Call("m", 0));
    RunMore([Call("m", 0)], Swap("m", 1, 0));
    RunMore([Call("m", 0)] + [Swap("m", 1, 0)], Call("m", RETIRED_DEADLINE));
    assert Run([]) == Start;
    hide Run, Step;
    assert [] + [Call("m", 0)] == [Call("m", 0)];
  }

  lemma RunMore(run: seq<Action>, a: Action)
    ensures Run(run).reg.Linked() && Run(run + [a]) == Step(Run(run), a)
  {
    RunKeeps(run);
    assert (run + [a])[..|run|] == run;
  }

  /** replace(m, e) succeeds exactly once for each epoch e the module has left behind, and never
      for the current one. */
  lemma {:induction false} SwapsOncePerEpoch(run: seq<Action>, m: string, e: nat)
    ensures
      var w := Run(run);
      && w.reg.Linked() && w.swapped[(m, e)] == B(1 <= e < w.reg.Epoch(m))
      && w.reg.replacements == |w.swapped|
  {
    RunKeeps(run);
    assert SwapOk(Run(run), m, e) && ModuleOk(Run(run).reg, m);
  }

  /** Epochs past the first, over all modules. */
  ghost function Superseded(modules: map<string, Module>): int {
    if modules == map[] then 0
    else
      var m :| m in modules;
      modules[m].lastEpoch - 1 + Superseded(modules - {m})
  }

  lemma {:induction false} SupersededSplit(modules: map<string, Module>, m: string)
    requires m in modules
    ensures Superseded(modules) == modules[m].lastEpoch - 1 + Superseded(modules - {m})
    decreases |modules|
  {
    var k :| k in modules && Superseded(modules) == modules[k].lastEpoch - 1 + Superseded(modules - {k});
    if k != m {
      SupersededSplit(modules - {k}, m);
      SupersededSplit(modules - {m}, k);
      assert modules - {k} - {m} == modules - {m} - {k};
    }
  }

  lemma SupersededUpdate(modules: map<string, Module>, m: string, v: Module)
    ensures Superseded(modules[m := v]) ==
            Superseded(modules) + v.lastEpoch - (if m in modules then modules[m].lastEpoch else 1)
  {
    SupersededSplit(modules[m := v], m);
    assert modules[m := v] - {m} == modules - {m};
    if m in modules {
      SupersededSplit(modules, m);
    } else {
      assert modules - {m} == modules;
    }
  }

  lemma CallWrites(w: World, m: string, now: int)
    requires w.reg.Linked()
    ensures
      var (before, after) := (w.reg.modules, Step(w, Call(m, now)).reg.modules);
      if w.reg.closed || m in before then after == before
      else m in after && after[m].lastEpoch == 1 && after == before[m := after[m]]
  {
  }

  lemma SwapWrites(w: World, m: string, epoch: nat, now: int)
    requires w.reg.Linked()
    ensures
      var (before, after) := (w.reg.modules, Step(w, Swap(m, epoch, now)).reg.modules);
      if !Replace(w.reg, m, epoch, now).1 then after == before
      else m in after && after[m].lastEpoch == before[m].lastEpoch + 1 && after == before[m := after[m]]
  {
  }

  lemma AnsweredWrites(w: World, c: nat, code: ErrorCode, now: int)
    requires w.reg.Linked()
    ensures
      var (before, after) := (w.reg.modules, Step(w, Answered(c, code, now)).reg.modules);
      if c in w.reg.slots && w.reg.slots[c].name in before then
        var m := w.reg.slots[c].name;
        m in after && after[m].lastEpoch == before[m].lastEpoch && after == before[m := after[m]]
      else after == before
  {
    if w.Comes(c) {
      JudgeWrites(w.reg, c, code, now);
    }
    hide Judge, Without;
  }

  lemma JudgeWrites(r: Reg, c: nat, code: ErrorCode, now: int)
    requires r.Linked() && c in r.slots
    ensures
      var (before, after, m) := (r.modules, Judge(r, c, code, now).0, r.slots[c].name);
      if m in before then m in after && after[m].lastEpoch == before[m].lastEpoch && after == before[m := after[m]]
      else after == before
  {
    var after := Judge(r, c, code, now).0;
    hide Judge;
    if r.slots[c].name in r.modules {
      assert after == r.modules[r.slots[c].name := after[r.slots[c].name]];
    } else {
      assert after == r.modules;
    }
  }

  lemma CallSuperseded(w: World, m: string, now: int)
    requires w.reg.Linked() && w.reg.replacements == Superseded(w.reg.modules)
    ensures Step(w, Call(m, now)).reg.replacements == Superseded(Step(w, Call(m, now)).reg.modules)
  {
    CallWrites(w, m, now);
    if m !in w.reg.modules && !w.reg.closed {
      SupersededUpdate(w.reg.modules, m, Step(w, Call(m, now)).reg.modules[m]);
    }
  }

  lemma AnsweredSuperseded(w: World, c: nat, code: ErrorCode, now: int)
    requires w.reg.Linked() && w.reg.replacements == Superseded(w.reg.modules)
    ensures
      var w' := Step(w, Answered(c, code, now));
      w'.reg.replacements == Superseded(w'.reg.modules)
  {
    AnsweredWrites(w, c, code, now);
    if c in w.reg.slots && w.reg.slots[c].name in w.reg.modules {
      SupersededUpdate(w.reg.modules, w.reg.slots[c].name,
                       Step(w, Answered(c, code, now)).reg.modules[w.reg.slots[c].name]);
    }
  }

  lemma SwapSuperseded(w: World, m: string, epoch: nat, now: int)
    requires w.reg.Linked() && w.reg.replacements == Superseded(w.reg.modules)
    ensures
      var w' := Step(w, Swap(m, epoch, now));
      w'.reg.replacements == Superseded(w'.reg.modules)
  {
    SwapWrites(w, m, epoch, now);
    if Replace(w.reg, m, epoch, now).1 {
      SupersededUpdate(w.reg.modules, m, Step(w, Swap(m, epoch, now)).reg.modules[m]);
    }
  }

  lemma StepSuperseded(w: World, a: Action)
    requires w.reg.Linked() && w.reg.replacements == Superseded(w.reg.modules)
    ensures Step(w, a).reg.replacements == Superseded(Step(w, a).reg.modules)
  {
    hide Superseded;
    match a
    case Lookup(m, now) => SupersededUpdate(w.reg.modules, m, Module(w.reg.next, 1, Created(now)));
    case Call(m, now) => CallSuperseded(w, m, now);
    case Answered(c, code, now) => AnsweredSuperseded(w, c, code, now);
    case Swap(m, epoch, now) => SwapSuperseded(w, m, epoch, now);
    case _ =>
  }

  /** The replacement counter is the number of epochs the modules have left behind. */
  lemma {:induction false} ReplacementsSum(run: seq<Action>)
    ensures Run(run).reg.replacements == Superseded(Run(run).reg.modules)
  {
    if run != [] {
      ReplacementsSum(run[..|run| - 1]);
      RunKeeps(run);
      RunKeeps(run[..|run| - 1]);
      StepSuperseded(Run(run[..|run| - 1]), run[|run| - 1]);
    }
  }

  /** Epochs only grow: by a first client, or by one in a successful replacement. */
  lemma EpochGrows(w: World, a: Action, m: string)
    requires Inv(w)
    ensures Step(w, a).reg.Linked()
    ensures
      Step(w, a).reg.Epoch(m) ==
      if a.Swap? && a.name == m && Replace(w.reg, m, a.epoch, a.now).1 then w.reg.Epoch(m) + 1
      else if (a.Call? || a.Lookup?) && a.name == m && m !in w.reg.modules && !w.reg.closed then 1
      else w.reg.Epoch(m)
  {
    hide Step, Inv;
    StepKeeps(w, a);
    EpochOf(w, m);
    EpochOf(Step(w, a), m);
    hide Replace;
    match a
    case Call(n, now) => CallWrites(w, n, now);
    case Answered(c, code, now) => AnsweredWrites(w, c, code, now);
    case Swap(n, epoch, now) => SwapWrites(w, n, epoch, now);
    case _ => OtherPolicies(w, a);
  }

  lemma EpochOf(w: World, m: string)
    requires Inv(w)
    ensures w.reg.Linked() && w.reg.Epoch(m) == if m in w.reg.modules then w.reg.modules[m].lastEpoch else 0
  {
    assert ModuleOk(w.reg, m);
  }

  // ---------------------------------------------------------------------------
  // When replacements are decided
  // ---------------------------------------------------------------------------

  /** What an action tells module m's policy: an answer through its current client, of a kind that counts. */
  function Told(w: World, a: Action, m: string): seq<Answer>
    requires w.reg.Linked()
  {
    if a.Answered? && w.Comes(a.slot) && w.reg.slots[a.slot].name == m &&
       !w.reg.closed && m in w.reg.modules && w.reg.modules[m].current == a.slot then
      if a.code == ObjectUnavailable then [Unavailable(a.now)]
      else if a.code == NoError || a.code == Unauthorized then [Reached]
      else []
    else []
  }

  ghost function Heard(run: seq<Action>, m: string): seq<Answer> {
    if run == [] then []
    else
      var (before, a) := (run[..|run| - 1], run[|run| - 1]);
      Heard(before, m) + if Run(before).reg.Linked() then Told(Run(before), a, m) else []
  }

  /** The times at which an answer queues a replacement of module m's current client. */
  function Asked(w: World, a: Action, m: string): seq<int>
    requires w.reg.Linked()
  {
    var job := (m, w.reg.Epoch(m));
    if a.Answered? && Step(w, a).asked[job] > w.asked[job] then [a.now] else []
  }

  ghost function AllAsked(run: seq<Action>, m: string): seq<int> {
    if run == [] then []
    else
      var (before, a) := (run[..|run| - 1], run[|run| - 1]);
      AllAsked(before, m) + if Run(before).reg.Linked() then Asked(Run(before), a, m) else []
  }

  /** When m's first client was created. */
  ghost function BornAt(run: seq<Action>, m: string): int {
    if run == [] then 0
    else
      var (before, a) := (run[..|run| - 1], run[|run| - 1]);
      if m in Run(before).reg.modules then BornAt(before, m) else if a.Lookup? || a.Call? then a.now else 0
  }

  /** One action on one module's policy. */
  lemma StepPolicy(w: World, a: Action, m: string)
    requires w.reg.Linked()
    ensures
      var (before, after) := (w.reg.modules, Step(w, a).reg.modules);
      && (m in before ==> m in after && after[m].policy == Afters(before[m].policy, Told(w, a, m))
                          && Asked(w, a, m) == (if Told(w, a, m) == [] then [] else Decided(before[m].policy, Told(w, a, m)[0])))
      && (m !in before ==> Told(w, a, m) == [] && Asked(w, a, m) == [])
      && (m !in before && m in after ==> (a.Lookup? || a.Call?) && after[m].policy == Created(a.now))
  {
    hide Step, Afters;
    AftersNone();
    match a
    case Answered(c, code, now) => AnsweredPolicy(w, c, code, now, m);
    case Call(n, now) => CallPolicies(w, n, now);
    case Swap(n, epoch, now) => SwapPolicies(w, n, epoch, now);
    case _ => OtherPolicies(w, a);
  }

  lemma AftersNone()
    ensures forall p :: Afters(p, []) == p
  {
  }

  lemma CallPolicies(w: World, n: string, now: int)
    requires w.reg.Linked()
    ensures
      var (before, after) := (w.reg.modules, Step(w, Call(n, now)).reg.modules);
      after == if w.reg.closed || n in before then before else before[n := Module(w.reg.next, 1, Created(now))]
  {
    hide Sweep;
  }

  lemma SwapPolicies(w: World, n: string, epoch: nat, now: int)
    requires w.reg.Linked()
    ensures
      var (before, after) := (w.reg.modules, Step(w, Swap(n, epoch, now)).reg.modules);
      after == before || (n in before && n in after && after == before[n := after[n]] && after[n].policy == before[n].policy)
  {
    hide Sweep;
  }

  lemma OtherPolicies(w: World, a: Action)
    requires w.reg.Linked() && !a.Call? && !a.Answered? && !a.Swap?
    ensures
      var (before, after) := (w.reg.modules, Step(w, a).reg.modules);
      if a.Lookup? && !w.reg.closed && a.name !in before then after == before[a.name := Module(w.reg.next, 1, Created(a.now))]
      else after == before
  {
    hide Created, Invoke, Replace, Finished;
    if a.Lookup? {
      LookupPolicies(w, a.name, a.now);
      hide Get;
    } else {
      StillPolicies(w, a);
      hide Step;
    }
  }

  lemma LookupPolicies(w: World, n: string, now: int)
    requires w.reg.Linked()
    ensures
      Get(w.reg, n, now).0.modules ==
      if w.reg.closed || n in w.reg.modules then w.reg.modules else w.reg.modules[n := Module(w.reg.next, 1, Created(now))]
  {
  }

  lemma StillPolicies(w: World, a: Action)
    requires w.reg.Linked() && (a.HandOff? || a.RunRelease? || a.Shut? || a.Destroy? || a.DropJob?)
    ensures Step(w, a).reg.modules == w.reg.modules
  {
    hide Step;
    match a
    case HandOff(c, posted) => HandOffPolicies(w, c, posted);
    case RunRelease(c) => LeavingPolicies(w, c);
    case Shut => ShutPolicies(w);
    case Destroy(c) => LeavingPolicies(w, c);
    case DropJob(m, epoch) => DropPolicies(w, m, epoch);
    case _ =>
  }

  lemma DropPolicies(w: World, m: string, epoch: nat)
    requires w.reg.Linked()
    ensures Step(w, DropJob(m, epoch)).reg == w.reg
  {
  }

  lemma HandOffPolicies(w: World, c: nat, posted: bool)
    requires w.reg.Linked()
    ensures Step(w, HandOff(c, posted)).reg.modules == w.reg.modules
  {
  }

  lemma LeavingPolicies(w: World, c: nat)
    requires w.reg.Linked()
    ensures Step(w, RunRelease(c)).reg == w.reg && Step(w, Destroy(c)).reg == w.reg
  {
  }

  lemma ShutPolicies(w: World)
    requires w.reg.Linked()
    ensures Step(w, Shut).reg.modules == w.reg.modules
  {
  }

  lemma AnsweredPolicy(w: World, c: nat, code: ErrorCode, now: int, m: string)
    requires w.reg.Linked()
    ensures
      var a := Answered(c, code, now);
      var (before, after) := (w.reg.modules, Step(w, a).reg.modules);
      && after.Keys == before.Keys
      && (m in before ==> after[m].policy == Afters(before[m].policy, Told(w, a, m))
                          && Asked(w, a, m) == (if Told(w, a, m) == [] then [] else Decided(before[m].policy, Told(w, a, m)[0])))
      && (m !in before ==> Told(w, a, m) == [] && Asked(w, a, m) == [])
  {
    var told := Told(w, Answered(c, code, now), m);
    if c in w.reg.slots {
      JudgeTells(w.reg, c, code, now, m);
    }
    hide Judge, Without;
    if told != [] {
      AftersOne(w.reg.modules[m].policy, told[0]);
    }
  }

  lemma AftersOne(p: Policy, e: Answer)
    ensures Afters(p, [e]) == After(p, e) && Afters(p, []) == p
  {
    assert [e][..0] == [];
  }

  lemma JudgeTells(r: Reg, c: nat, code: ErrorCode, now: int, m: string)
    requires r.Linked() && c in r.slots
    ensures
      var (modules, replace) := Judge(r, c, code, now);
      var hears := !r.closed && r.slots[c].name == m && m in r.modules && r.modules[m].current == c;
      && (m in r.modules ==>
            modules[m].policy ==
            if !hears then r.modules[m].policy
            else if code == ObjectUnavailable then After(r.modules[m].policy, Unavailable(now))
            else if code == NoError || code == Unauthorized then After(r.modules[m].policy, Reached)
            else r.modules[m].policy)
      && (r.slots[c].name == m ==>
            (replace <==> hears && code == ObjectUnavailable && OnUnavailable(r.modules[m].policy, now).1))
  {
  }

  /** Each module's policy hears exactly its current client's answers, across all its clients. */
  lemma {:induction false} PolicyHears(run: seq<Action>, m: string)
    requires m in Run(run).reg.modules
    ensures Run(run).reg.modules[m].policy == Afters(Created(BornAt(run, m)), Heard(run, m))
    ensures AllAsked(run, m) == Decisions(Created(BornAt(run, m)), Heard(run, m))
  {
    if run != [] {
      var (before, a) := (run[..|run| - 1], run[|run| - 1]);
      var w := Run(before);
      RunKeeps(before);
      StepPolicy(w, a, m);
      if m in w.reg.modules {
        PolicyHears(before, m);
        HeardMore(Created(BornAt(before, m)), Heard(before, m), Told(w, a, m));
      } else {
        Unheard(before, m);
      }
    }
  }

  lemma HeardMore(p: Policy, es: seq<Answer>, more: seq<Answer>)
    requires |more| <= 1
    ensures Afters(p, es + more) == Afters(Afters(p, es), more)
    ensures Decisions(p, es + more) == Decisions(p, es) + if more == [] then [] else Decided(Afters(p, es), more[0])
  {
    if more == [] {
      assert es + more == es;
    } else {
      assert more == [more[0]] && (es + more)[..|es|] == es && more[..0] == [];
      DecisionsLast(p, es, more[0]);
    }
  }

  lemma {:induction false} Unheard(run: seq<Action>, m: string)
    requires m !in Run(run).reg.modules
    ensures Heard(run, m) == [] && AllAsked(run, m) == []
  {
    if run != [] {
      var before := run[..|run| - 1];
      RunKeeps(before);
      StepPolicy(Run(before), run[|run| - 1], m);
      Unheard(before, m);
    }
  }

  /** In every run a module's replacements are asked for at least FIRST_GAP apart, the first one at least
      that long after its first client was created; and while none of its clients is ever answered, the
      waits double from 2 s to 60 s. */
  lemma {:induction false} ReplacementsSpaced(run: seq<Action>, m: string, i: nat)
    requires m in Run(run).reg.modules && i < |AllAsked(run, m)|
    ensures
      var asked := AllAsked(run, m);
      asked[i] - (if i == 0 then BornAt(run, m) else asked[i - 1]) >= FIRST_GAP
    ensures
      (forall e | e in Heard(run, m) :: e.Unavailable?) ==>
        && AllAsked(run, m)[i] >= BornAt(run, m) + GapSum(0, i + 1)
        && (i > 0 ==> AllAsked(run, m)[i] - AllAsked(run, m)[i - 1] >= Gap(i))
  {
    hide Run, AllAsked, Heard, BornAt, Decisions, Afters, GapSum, Gap;
    PolicyHears(run, m);
    var (p, es) := (Created(BornAt(run, m)), Heard(run, m));
    DecisionsSpaced(p, es, i);
    if forall e | e in es :: e.Unavailable? {
      SilentFromStart(BornAt(run, m), es, i);
    }
  }

  lemma SilentFromStart(born: int, es: seq<Answer>, i: nat)
    requires (forall e | e in es :: e.Unavailable?) && i < |Decisions(Created(born), es)|
    ensures
      var asked := Decisions(Created(born), es);
      asked[i] >= born + GapSum(0, i + 1) && (i > 0 ==> asked[i] - asked[i - 1] >= Gap(i))
  {
    hide Decisions, GapSum, Afters;
    assert Pow2(0) == 1;
    SilentDecisions(Created(born), 0, es, i);
  }

  // ---------------------------------------------------------------------------
  // Replacement jobs
  // ---------------------------------------------------------------------------

  /** The answer makes the policy of the client's module, which it goes to, decide on a replacement. */
  predicate Decides(w: World, a: Action, m: string)
    requires w.reg.Linked()
  {
    Told(w, a, m) != [] && Decided(w.reg.modules[m].policy, Told(w, a, m)[0]) != []
  }

  /** A job for (m, e) is queued exactly when an answer makes m's policy decide while e is m's current epoch;
      it leaves by replace() or by being dropped. */
  lemma JobsAsked(w: World, a: Action, m: string, e: nat)
    requires Inv(w)
    ensures
      Step(w, a).asked[(m, e)] ==
      if Decides(w, a, m) && e == w.reg.Epoch(m) then w.asked[(m, e)] + 1
      else if (a.Swap? || a.DropJob?) && a.name == m && a.epoch == e && w.asked[(m, e)] > 0 then w.asked[(m, e)] - 1
      else w.asked[(m, e)]
  {
    hide Inv;
    match a
    case Answered(c, code, now) => AnsweredAsks(w, c, code, now, m, e);
    case Swap(_, _, _) => hide Replace;
    case Call(_, _) => hide Invoke;
    case _ => hide Get, Close;
  }

  lemma AnsweredAsks(w: World, c: nat, code: ErrorCode, now: int, m: string, e: nat)
    requires Inv(w)
    ensures
      Step(w, Answered(c, code, now)).asked[(m, e)] ==
      w.asked[(m, e)] + B(Decides(w, Answered(c, code, now), m) && e == w.reg.Epoch(m))
  {
    if w.Comes(c) {
      JudgeTells(w.reg, c, code, now, m);
      hide Judge, Without;
    }
  }

  /** Between two points of a run, how often replace() moved module m on. */
  ghost function Moves(run: seq<Action>, more: seq<Action>, m: string): nat {
    if more == [] then 0
    else
      var (w, a) := (Run(run + more[..|more| - 1]), more[|more| - 1]);
      Moves(run, more[..|more| - 1], m) +
      B(w.reg.Linked() && a.Swap? && a.name == m && Replace(w.reg, m, a.epoch, a.now).1)
  }

  lemma {:induction false} EpochCounts(run: seq<Action>, more: seq<Action>, m: string)
    requires Run(run).reg.Linked() && m in Run(run).reg.modules
    ensures
      var w := Run(run + more);
      w.reg.Linked() && m in w.reg.modules && w.reg.Epoch(m) == Run(run).reg.Epoch(m) + Moves(run, more, m)
  {
    hide Run, Step, Replace;
    if more == [] {
      assert run + more == run;
    } else {
      var (rest, a) := (more[..|more| - 1], more[|more| - 1]);
      assert run + more == (run + rest) + [a];
      EpochCounts(run, rest, m);
      RunKeeps(run + rest);
      RunMore(run + rest, a);
      EpochGrows(Run(run + rest), a, m);
      ModulesStay(Run(run + rest), a, m);
    }
  }

  lemma ModulesStay(w: World, a: Action, m: string)
    requires w.reg.Linked() && m in w.reg.modules
    ensures m in Step(w, a).reg.modules
  {
    hide Step;
    StepPolicy(w, a, m);
  }

  /** A replacement job asked for the epoch that was current then. Whenever it runs, it succeeds exactly when
      the registry is still open and no replacement of the module came in between. */
  lemma {:induction false} JobSucceeds(run: seq<Action>, a: Action, more: seq<Action>, m: string, e: nat, now: int)
    requires Run(run).reg.Linked() && Step(Run(run), a).asked[(m, e)] > Run(run).asked[(m, e)]
    ensures e == Run(run).reg.Epoch(m)
    ensures
      var w := Run(run + [a] + more);
      w.reg.Linked() && (Replace(w.reg, m, e, now).1 <==> !w.reg.closed && Moves(run + [a], more, m) == 0)
  {
    hide Run, Step, Moves, Inv;
    RunKeeps(run);
    JobsAsked(Run(run), a, m, e);
    RunMore(run, a);
    assert m in Run(run).reg.modules;
    ModulesStay(Run(run), a, m);
    EpochGrows(Run(run), a, m);
    RunKeeps(run + [a]);
    InvLinked(Run(run + [a]));
    EpochCounts(run + [a], more, m);
    ReplaceSucceeds(Run(run + [a] + more).reg, m, e, now);
  }

  lemma ReplaceSucceeds(r: Reg, m: string, e: nat, now: int)
    requires r.Linked() && m in r.modules
    ensures Replace(r, m, e, now).1 <==> !r.closed && r.Epoch(m) == e
  {
  }

  /** Every job waiting is for an epoch its module has had, the current one or one since replaced. */
  lemma {:induction false} JobsAreOfPastEpochs(run: seq<Action>, m: string, e: nat)
    requires Run(run).asked[(m, e)] > 0
    ensures Run(run).reg.Linked() && 1 <= e <= Run(run).reg.Epoch(m)
  {
    hide Step, Decides;
    RunKeeps(run);
    if run != [] {
      var (before, a) := (run[..|run| - 1], run[|run| - 1]);
      var w := Run(before);
      RunKeeps(before);
      JobsAsked(w, a, m, e);
      EpochGrows(w, a, m);
      if w.asked[(m, e)] > 0 {
        JobsAreOfPastEpochs(before, m, e);
      } else {
        DecidesCurrent(w, a, m);
      }
    }
  }

  lemma DecidesCurrent(w: World, a: Action, m: string)
    requires Inv(w) && Decides(w, a, m)
    ensures w.reg.Epoch(m) >= 1 && Step(w, a).reg.Linked()
  {
    StepKeeps(w, a);
    assert SlotOk(w, w.reg.modules[m].current);
  }
}
