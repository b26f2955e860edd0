/** The discovery slots, one lock region at a time, and the retry timers. Discovery runs two pump
    threads, the timer thread, client callbacks and the replacement hook against these slots. */
module Discoveries {
  import opened Prelude
  import opened Backoff
  import opened BridgeConfigs
  import opened ModuleViews

  datatype Slot = Slot(view: View, attempt: nat, inFlight: bool, retryArmed: bool, checking: bool, failures: nat,
                       armedGeneration: nat)

  function NewSlot(m: string): Slot {
    Slot(PendingView(m), 0, false, false, false, 0, 0)
  }

  // ---------------------------------------------------------------------------
  // The lock regions, as functions; the second result says whether the caller goes on
  // ---------------------------------------------------------------------------

  function Refreshed(s: Slot): Slot {
    s.(attempt := s.attempt + 1, inFlight := true, retryArmed := false)
  }

  function Lost(s: Slot): Slot {
    s.(attempt := s.attempt + 1, inFlight := false, view := StaleView(s.view), failures := 1, retryArmed := true)
  }

  function Armed(s: Slot, generation: nat): (Slot, bool) {
    var restarted := s.armedGeneration != 0 && generation > s.armedGeneration;
    var s := if generation > s.armedGeneration then s.(armedGeneration := generation) else s;
    if !restarted && !s.view.stale then (s, false)
    else (s.(attempt := s.attempt + 1, inFlight := false, retryArmed := true, view := StaleView(s.view)), true)
  }

  /** The second result: whether the view was swapped. */
  function ClientReplaced(s: Slot): (Slot, bool) {
    var swapped := s.view.Resolved() && !s.view.stale;
    (s.(attempt := s.attempt + 1, inFlight := false, retryArmed := true, armedGeneration := 0,
        view := if swapped then StaleView(s.view) else s.view), swapped)
  }

  function CallUnavailable(s: Slot): (Slot, bool) {
    if s.inFlight || s.retryArmed then (s, false)
    else (s.(view := StaleView(s.view), failures := 1, retryArmed := true), true)
  }

  function Missed(s: Slot, attempt: nat): (Slot, bool) {
    if s.attempt != attempt then (s, false)
    else (s.(inFlight := false, failures := s.failures + 1, retryArmed := true), true)
  }

  /** What the view lets clients use, as the module is configured. */
  function Exposed(config: seq<ExposedModule>, m: string, v: View): View {
    var i := Find(config, m);
    if i < |config| then WithExposure(config[i], v) else v
  }

  function Published(s: Slot, attempt: nat, next: View, retry: bool): (Slot, bool) {
    if s.attempt != attempt then (s, false)
    else
      (s.(view := next.(generation := s.view.generation + 1, stale := false), inFlight := false,
          failures := if retry then s.failures + 1 else 0, retryArmed := retry), true)
  }

  /** A revalidation read starts only on a settled module. */
  function CheckStarted(s: Slot): (Slot, bool) {
    if s.inFlight || s.retryArmed || s.checking || !s.view.Resolved() then (s, false)
    else (s.(checking := true), true)
  }

  function CheckEnded(s: Slot, attempt: nat): (Slot, bool) {
    (s.(checking := false), s.attempt == attempt && !s.inFlight && !s.retryArmed)
  }

  /** The report changed: stale now, and a new attempt on the report already in hand. */
  function Reread(s: Slot, attempt: nat): (Slot, bool) {
    if s.attempt != attempt || s.inFlight || s.retryArmed then (s, false)
    else (s.(attempt := s.attempt + 1, inFlight := true, view := StaleView(s.view)), true)
  }

  // ---------------------------------------------------------------------------
  // What an attempt does with each answer
  // ---------------------------------------------------------------------------

  /** lidl(): the call failed; the answer is not servable text; the text does not read; or it reads. */
  datatype LidlReply = CallFailed | NotText(error: string) | Unreadable(sha256: string, error: string)
                     | Contract(sha256: string, contract: TypedContract)

  const LidlCallFailed := "lidl() call failed"

  datatype Stage = Interface | Lidl(live: LiveReport) | Version(live: LiveReport, contract: TypedContract, sha256: string)
  datatype Reply = OfInterface(interface: InterfaceReply) | OfLidl(lidl: LidlReply) | OfVersion(runtime: Option<string>)

  datatype Next = Miss | Ask(stage: Stage) | Publish(view: View, retry: bool)

  predicate Fits(stage: Stage, r: Reply) {
    match stage
    case Interface => r.OfInterface?
    case Lidl(_) => r.OfLidl?
    case Version(_, _, _) => r.OfVersion?
  }

  function OnInterface(prev: View, r: InterfaceReply): Next {
    if !r.Report? then Miss
    else if !LidlPresent(r.live) then Publish(UntypedView(prev, r.live), false)
    else Ask(Lidl(r.live))
  }

  function OnContract(prev: View, live: LiveReport, r: LidlReply): Next {
    match r
    case CallFailed => Publish(InvalidView(prev, live, LidlCallFailed), true)
    case NotText(error) => Publish(InvalidView(prev, live, error), false)
    case Unreadable(sha, error) => Publish(InvalidView(prev, live, error).(contractSha256 := sha), false)
    case Contract(sha, c) => Ask(Version(live, c, sha))
  }

  function OnAnswer(prev: View, stage: Stage, r: Reply): Next
    requires Fits(stage, r)
  {
    match stage
    case Interface => OnInterface(prev, r.interface)
    case Lidl(live) => OnContract(prev, live, r.lidl)
    case Version(live, c, sha) => Publish(CheckedView(prev, live, c, r.runtime, sha), false)
  }

  // ---------------------------------------------------------------------------
  // The discovery object, one method per lock region
  // ---------------------------------------------------------------------------

  class Discovery {
    const config: seq<ExposedModule>
    var slots: map<string, Slot>

    constructor (config: seq<ExposedModule>)
      ensures this.config == config
      ensures slots == map em | em in config :: em.name := NewSlot(em.name)
    {
      this.config := config;
      slots := map em | em in config :: em.name := NewSlot(em.name);
    }

    method Refresh(m: string) returns (attempt: nat, go: bool)
      modifies this
      ensures m !in old(slots) ==> slots == old(slots)
      ensures m in old(slots) ==> slots == old(slots)[m := Refreshed(old(slots)[m])]
      ensures go == (m in slots) && (go ==> attempt == slots[m].attempt)
    {
      if m !in slots {
        return 0, false;
      }
      var s := slots[m];
      attempt := s.attempt + 1;
      slots := slots[m := s.(attempt := attempt, inFlight := true, retryArmed := false)];
      go := true;
    }

    method OnProviderLost(m: string) returns (delay: int, go: bool)
      modifies this
      ensures m !in old(slots) ==> slots == old(slots)
      ensures m in old(slots) ==> slots == old(slots)[m := Lost(old(slots)[m])]
      ensures go == (m in slots) && delay == RETRY_BASE
    {
      if m !in slots {
        return RETRY_BASE, false;
      }
      var s := slots[m];
      s := s.(attempt := s.attempt + 1, inFlight := false);
      s := s.(view := StaleView(s.view), failures := 1, retryArmed := true);
      slots := slots[m := s];
      delay := RetryDelay(s.failures);
      go := true;
    }

    method OnProviderArmed(m: string, generation: nat) returns (go: bool)
      modifies this
      ensures m !in old(slots) ==> slots == old(slots)
      ensures m in old(slots) ==> slots == old(slots)[m := Armed(old(slots)[m], generation).0]
      ensures go == (m in slots && Armed(old(slots)[m], generation).1)
    {
      if m !in slots {
        return false;
      }
      var s := slots[m];
      var restarted := s.armedGeneration != 0 && generation > s.armedGeneration;
      if generation > s.armedGeneration {
        s := s.(armedGeneration := generation);
      }
      if !restarted && !s.view.stale {
        slots := slots[m := s];
        return false;
      }
      slots := slots[m := s.(attempt := s.attempt + 1, inFlight := false, retryArmed := true, view := StaleView(s.view))];
      return true;
    }

    method OnClientReplaced(m: string) returns (swapped: bool, go: bool)
      modifies this
      ensures m !in old(slots) ==> slots == old(slots)
      ensures m in old(slots) ==> slots == old(slots)[m := ClientReplaced(old(slots)[m]).0]
      ensures go == (m in slots) && swapped == (go && ClientReplaced(old(slots)[m]).1)
    {
      if m !in slots {
        return false, false;
      }
      var s := slots[m];
      s := s.(attempt := s.attempt + 1, inFlight := false, retryArmed := true, armedGeneration := 0);
      if s.view.Resolved() && !s.view.stale {
        s := s.(view := StaleView(s.view));
        swapped := true;
      } else {
        swapped := false;
      }
      slots := slots[m := s];
      go := true;
    }

    method OnCallUnavailable(m: string) returns (delay: int, go: bool)
      modifies this
      ensures m !in old(slots) ==> slots == old(slots)
      ensures m in old(slots) ==> slots == old(slots)[m := CallUnavailable(old(slots)[m]).0]
      ensures go == (m in slots && CallUnavailable(old(slots)[m]).1) && delay == RETRY_BASE
    {
      if m !in slots || slots[m].inFlight || slots[m].retryArmed {
        assert m in slots ==> slots == slots[m := slots[m]];
        return RETRY_BASE, false;
      }
      var s := slots[m];
      s := s.(view := StaleView(s.view), failures := 1, retryArmed := true);
      slots := slots[m := s];
      delay := RetryDelay(s.failures);
      go := true;
    }

    method MissedReport(m: string, attempt: nat) returns (delay: int, go: bool)
      modifies this
      ensures m !in old(slots) ==> slots == old(slots)
      ensures m in old(slots) ==> slots == old(slots)[m := Missed(old(slots)[m], attempt).0]
      ensures go == (m in slots && Missed(old(slots)[m], attempt).1)
      ensures go ==> delay == RetryDelayOf(slots[m].failures)
    {
      if m !in slots || slots[m].attempt != attempt {
        assert m in slots ==> slots == slots[m := slots[m]];
        return 0, false;
      }
      var s := slots[m];
      s := s.(inFlight := false, failures := s.failures + 1, retryArmed := true);
      slots := slots[m := s];
      delay := RetryDelay(s.failures);
      go := true;
    }

    /** `next` comes from an answer; the region counts the generation itself. */
    method PublishView(m: string, attempt: nat, next: View, retry: bool) returns (delay: int, go: bool)
      modifies this
      ensures m !in old(slots) ==> slots == old(slots)
      ensures m in old(slots) ==>
        slots == old(slots)[m := Published(old(slots)[m], attempt, Exposed(config, m, next), retry).0]
      ensures go == (m in slots && old(slots)[m].attempt == attempt)
      ensures go ==> delay == RetryDelayOf(slots[m].failures)
    {
      var next := Exposed(config, m, next);
      hide Exposed;
      if m !in slots || slots[m].attempt != attempt {
        assert m in slots ==> slots == slots[m := slots[m]];
        return 0, false;
      }
      var s := slots[m];
      next := next.(generation := s.view.generation + 1, stale := false);
      s := s.(view := next, inFlight := false);
      s := s.(failures := if retry then s.failures + 1 else 0, retryArmed := retry);
      slots := slots[m := s];
      delay := RetryDelay(s.failures);
      go := true;
    }

    method StartCheck(m: string) returns (attempt: nat, go: bool)
      modifies this
      ensures m !in old(slots) ==> slots == old(slots)
      ensures m in old(slots) ==> slots == old(slots)[m := CheckStarted(old(slots)[m]).0]
      ensures go == (m in slots && CheckStarted(old(slots)[m]).1) && (go ==> attempt == slots[m].attempt)
    {
      if m !in slots || slots[m].inFlight || slots[m].retryArmed || slots[m].checking || !slots[m].view.Resolved() {
        assert m in slots ==> slots == slots[m := slots[m]];
        return 0, false;
      }
      slots := slots[m := slots[m].(checking := true)];
      return slots[m].attempt, true;
    }

    /** The view the read is compared with, when no refresh started meanwhile. */
    method EndCheck(m: string, attempt: nat) returns (seen: Option<View>)
      modifies this
      ensures m !in old(slots) ==> slots == old(slots)
      ensures m in old(slots) ==> slots == old(slots)[m := CheckEnded(old(slots)[m], attempt).0]
      ensures seen == if m in slots && CheckEnded(old(slots)[m], attempt).1 then Some(slots[m].view) else None
    {
      if m !in slots {
        return None;
      }
      slots := slots[m := slots[m].(checking := false)];
      var s := slots[m];
      seen := if s.attempt != attempt || s.inFlight || s.retryArmed then None else Some(s.view);
    }

    method RefreshOnReport(m: string, attempt: nat) returns (next: nat, go: bool)
      modifies this
      ensures m !in old(slots) ==> slots == old(slots)
      ensures m in old(slots) ==> slots == old(slots)[m := Reread(old(slots)[m], attempt).0]
      ensures go == (m in slots && Reread(old(slots)[m], attempt).1) && (go ==> next == slots[m].attempt)
    {
      if m !in slots || slots[m].attempt != attempt || slots[m].inFlight || slots[m].retryArmed {
        assert m in slots ==> slots == slots[m := slots[m]];
        return 0, false;
      }
      var s := slots[m];
      next := s.attempt + 1;
      slots := slots[m := s.(attempt := next, inFlight := true, view := StaleView(s.view))];
      go := true;
    }
  }

  // ---------------------------------------------------------------------------
  // Timers
  // ---------------------------------------------------------------------------

  const RevalidateTimer := "revalidate modules"
  const DocsTimer := "publish documents"

  class RetryScheduler {
    var timers: map<string, int>   // when each key's job is due
    var stopped: bool

    constructor ()
      ensures timers == map[] && stopped
    {
      timers, stopped := map[], true;
    }

    method Start()
      modifies this
      ensures !stopped && timers == old(timers)
    {
      stopped := false;
    }

    method Stop()
      modifies this
      ensures stopped && timers == map[]
    {
      stopped, timers := true, map[];
    }

    /** Replaces the key's timer, and leaves every other key's alone. */
    method Schedule(key: string, now: int, delay: int) returns (ok: bool)
      modifies this
      ensures stopped == old(stopped) && ok == !stopped
      ensures timers == if ok then old(timers)[key := now + delay] else old(timers)
    {
      if stopped {
        return false;
      }
      timers := timers[key := now + delay];
      return true;
    }

    /** One turn of the timer thread: the earliest timer, taken only when it is due. */
    method TakeDue(now: int) returns (key: Option<string>)
      modifies this
      ensures stopped == old(stopped)
      ensures key.Some? ==> key.value in old(timers) && old(timers)[key.value] <= now
      ensures key.Some? ==> forall k | k in old(timers) :: old(timers)[key.value] <= old(timers)[k]
      ensures key.None? ==> stopped || forall k | k in timers :: timers[k] > now
      ensures timers == if key.Some? then old(timers) - {key.value} else old(timers)
    {
      if stopped || timers == map[] {
        return None;
      }
      var keys := timers.Keys;
      var best :| best in keys;
      keys := keys - {best};
      while keys != {}
        invariant keys <= timers.Keys && best in timers
        invariant forall k | k in timers && k !in keys :: timers[best] <= timers[k]
        decreases |keys|
      {
        var k :| k in keys;
        keys := keys - {k};
        if timers[k] < timers[best] {
          best := k;
        }
      }
      if timers[best] > now {
        return None;
      }
      timers := timers - {best};
      return Some(best);
    }
  }
}
