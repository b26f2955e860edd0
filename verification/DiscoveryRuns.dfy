/** Every run of discovery with its timers and the document publisher: answers, losses, restarts,
    client replacements, failed calls, revalidation rounds and builds, one lock region at a time and
    in any order. A disabled action changes nothing. A timer may fire at any moment. */
module DiscoveryRuns {
  import opened Prelude
  import opened BridgeConfigs
  import opened ModuleViews
  import opened Discoveries
  import opened DocPublishers

  /** `stamp`: how many losses, restarts and replacements of the module had been processed when the
      attempt (or the revalidation read) began. */
  datatype Then = Done | ToArm | ToHandle(attempt: nat, stamp: nat, reply: Reply)

  datatype Job =
    | Refreshing(name: string)                                          // a refresh posted, or its timer fired
    | Calling(name: string, attempt: nat, stamp: nat, stage: Stage)     // an upstream call
    | Resuming(name: string, attempt: nat, stamp: nat, stage: Stage, reply: Reply)   // answered, posted
    | Handling(name: string, attempt: nat, stamp: nat, stage: Stage, reply: Reply)   // found current
    | Notifying(name: string, next: Then)     // the view was swapped; the publisher is not told yet
    | Requesting(name: string, next: Then)    // pending is set; the build is not scheduled yet
    | Arming(name: string)                    // scheduleRefresh not called yet
    | Rounding(names: seq<string>)            // a revalidation round, with modules still to visit
    | Checking(name: string, attempt: nat, stamp: nat)
    | Checked(name: string, attempt: nat, stamp: nat, report: InterfaceReply)
    | Comparing(name: string, attempt: nat, stamp: nat, seen: View, report: InterfaceReply)
    | Building                                // a build posted, or its timer fired

  /** Who holds the build lock, and how far the build is. */
  datatype Builder = Idle | Locked | Cleared | Holding(inputs: seq<ModuleDoc>)

  /** `resets`, `publishes`: per module, the losses, restarts and replacements processed, and the
      views published. `thrown`: the last build threw. */
  datatype Sys = Sys(slots: map<string, Slot>, jobs: map<nat, Job>, next: nat, timers: set<string>, pending: bool,
                     builder: Builder, docs: Option<DocSet>, thrown: bool, resets: map<string, nat>,
                     publishes: map<string, nat>)
  {
    function Resets(m: string): nat { if m in resets then resets[m] else 0 }
    function Publishes(m: string): nat { if m in publishes then publishes[m] else 0 }
  }

  datatype Action =
    | ProviderLost(name: string)
    | ProviderArmed(name: string, generation: nat)
    | ClientReplacement(name: string)
    | FoundUnavailable(name: string)
    | Fire(key: string)
    | Lock(job: nat)
    | Build(throws: bool)                                        // the build's next step
    | Answer(job: nat, reply: Reply)
    | Advance(job: nat)

  function Names(cfg: seq<ExposedModule>): seq<string> {
    seq(|cfg|, i requires 0 <= i < |cfg| => cfg[i].name)
  }

  function Inputs(cfg: seq<ExposedModule>, slots: map<string, Slot>): seq<ModuleDoc> {
    seq(|cfg|, i requires 0 <= i < |cfg| =>
      ToModuleDoc(if cfg[i].name in slots then slots[cfg[i].name].view else PendingView(cfg[i].name)))
  }

  /** start(): the documents built from pending views, a refresh posted per module, revalidation armed. */
  ghost function Start(cfg: seq<ExposedModule>, revalidate: bool): Sys {
    var slots := map em | em in cfg :: em.name := NewSlot(em.name);
    Sys(slots, map i: nat | i < |cfg| :: Refreshing(cfg[i].name), |cfg|, if revalidate then {RevalidateTimer} else {},
        false, Idle, Stored(None, Inputs(cfg, slots)), false, map[], map[])
  }

  // ---------------------------------------------------------------------------
  // Steps
  // ---------------------------------------------------------------------------

  function Spawn(s: Sys, j: Job): Sys {
    s.(jobs := s.jobs[s.next := j], next := s.next + 1)
  }

  function Put(s: Sys, t: nat, j: Job): Sys {
    s.(jobs := s.jobs[t := j])
  }

  function Drop(s: Sys, t: nat): Sys {
    s.(jobs := s.jobs - {t})
  }

  function Reset(s: Sys, m: string, slot: Slot): Sys {
    s.(slots := s.slots[m := slot], resets := s.resets[m := s.Resets(m) + 1])
  }

  ghost function Step(cfg: seq<ExposedModule>, s: Sys, a: Action): Sys {
    match a
    case ProviderLost(m) => if m in s.slots then LoseProvider(s, m) else s
    case ProviderArmed(m, g) => if m in s.slots then ArmProvider(s, m, g) else s
    case ClientReplacement(m) => if m in s.slots then ReplaceClient(s, m) else s
    case FoundUnavailable(m) => if m in s.slots then GoUnavailable(s, m) else s
    case Fire(key) => if key in s.timers then FireTimer(cfg, s, key) else s
    case Lock(t) =>
      if t in s.jobs && s.jobs[t].Building? && s.builder.Idle? then Drop(s, t).(builder := Locked) else s
    case Build(throws) => BuildStep(cfg, s, throws)
    case Answer(t, r) => if t in s.jobs then Answered(s, t, r) else s
    case Advance(t) => if t in s.jobs then Go(cfg, s, t) else s
  }

  function LoseProvider(s: Sys, m: string): Sys
    requires m in s.slots
  {
    Spawn(Reset(s, m, Lost(s.slots[m])), Notifying(m, ToArm))
  }

  function ArmProvider(s: Sys, m: string, g: nat): Sys
    requires m in s.slots
  {
    var (slot, go) := Armed(s.slots[m], g);
    if go then Spawn(Reset(s, m, slot), Notifying(m, ToArm)) else s.(slots := s.slots[m := slot])
  }

  function ReplaceClient(s: Sys, m: string): Sys
    requires m in s.slots
  {
    var (slot, swapped) := ClientReplaced(s.slots[m]);
    Spawn(Reset(s, m, slot), if swapped then Notifying(m, ToArm) else Arming(m))
  }

  function GoUnavailable(s: Sys, m: string): Sys
    requires m in s.slots
  {
    var (slot, go) := CallUnavailable(s.slots[m]);
    if go then Spawn(s.(slots := s.slots[m := slot]), Notifying(m, ToArm)) else s
  }

  /** The revalidation timer re-arms itself before it posts its round. */
  function FireTimer(cfg: seq<ExposedModule>, s: Sys, key: string): Sys {
    if key == RevalidateTimer then Spawn(s, Rounding(Names(cfg)))
    else Spawn(s.(timers := s.timers - {key}), if key == DocsTimer then Building else Refreshing(key))
  }

  function BuildStep(cfg: seq<ExposedModule>, s: Sys, throws: bool): Sys {
    match s.builder
    case Idle => s
    case Locked => s.(builder := Cleared, pending := false)
    case Cleared => s.(builder := Holding(Inputs(cfg, s.slots)))
    case Holding(inputs) => s.(builder := Idle, thrown := throws, docs := if throws then s.docs else Stored(s.docs, inputs))
  }

  function Answered(s: Sys, t: nat, r: Reply): Sys
    requires t in s.jobs
  {
    match s.jobs[t]
    case Calling(m, attempt, stamp, stage) => if Fits(stage, r) then Put(s, t, Resuming(m, attempt, stamp, stage, r)) else s
    case Checking(m, attempt, stamp) => if r.OfInterface? then Put(s, t, Checked(m, attempt, stamp, r.interface)) else s
    case _ => s
  }

  ghost function Go(cfg: seq<ExposedModule>, s: Sys, t: nat): Sys
    requires t in s.jobs
  {
    match s.jobs[t]
    case Refreshing(m) => if m in s.slots then RunRefresh(s, t, m) else Drop(s, t)
    case Resuming(m, attempt, stamp, stage, r) =>
      if m in s.slots && s.slots[m].attempt == attempt then Put(s, t, Handling(m, attempt, stamp, stage, r)) else Drop(s, t)
    case Handling(m, _, _, stage, r) => if m in s.slots && Fits(stage, r) then Handle(cfg, s, t) else Drop(s, t)
    case Notifying(m, next) =>
      if s.pending then Continue(s, t, m, next) else Put(s.(pending := true), t, Requesting(m, next))
    case Requesting(m, next) => Continue(s.(timers := s.timers + {DocsTimer}), t, m, next)
    case Arming(m) => Drop(s.(timers := s.timers + {m}), t)
    case Rounding(names) => if names == [] then Drop(s, t) else Visit(s, t, names)
    case Checked(m, _, _, _) => if m in s.slots then EndRead(s, t) else Drop(s, t)
    case Comparing(m, _, _, _, _) => if m in s.slots then Compare(s, t) else Drop(s, t)
    case _ => s
  }

  function RunRefresh(s: Sys, t: nat, m: string): Sys
    requires m in s.slots
  {
    var slot := Refreshed(s.slots[m]);
    Put(s.(slots := s.slots[m := slot]), t, Calling(m, slot.attempt, s.Resets(m), Interface))
  }

  /** What follows changed(): nothing, the retry, or the attempt's own next step. */
  function Continue(s: Sys, t: nat, m: string, next: Then): Sys {
    match next
    case Done => Drop(s, t)
    case ToArm => Put(s, t, Arming(m))
    case ToHandle(attempt, stamp, r) => Put(s, t, Handling(m, attempt, stamp, Interface, r))
  }

  ghost function Handle(cfg: seq<ExposedModule>, s: Sys, t: nat): Sys
    requires t in s.jobs && s.jobs[t].Handling? && s.jobs[t].name in s.slots && Fits(s.jobs[t].stage, s.jobs[t].reply)
  {
    var j := s.jobs[t];
    match OnAnswer(s.slots[j.name].view, j.stage, j.reply)
    case Miss => MissReport(s, t)
    case Ask(stage) => Put(s, t, Calling(j.name, j.attempt, j.stamp, stage))
    case Publish(v, retry) => PublishStep(cfg, s, t, v, retry)
  }

  function MissReport(s: Sys, t: nat): Sys
    requires t in s.jobs && s.jobs[t].Handling? && s.jobs[t].name in s.slots
  {
    var m := s.jobs[t].name;
    var (slot, go) := Missed(s.slots[m], s.jobs[t].attempt);
    if go then Put(s.(slots := s.slots[m := slot]), t, Arming(m)) else Drop(s, t)
  }

  ghost function PublishStep(cfg: seq<ExposedModule>, s: Sys, t: nat, v: View, retry: bool): Sys
    requires t in s.jobs && s.jobs[t].Handling? && s.jobs[t].name in s.slots
  {
    var m := s.jobs[t].name;
    var (slot, go) := Published(s.slots[m], s.jobs[t].attempt, Exposed(cfg, m, v), retry);
    if !go then Drop(s, t)
    else
      Put(s.(slots := s.slots[m := slot], publishes := s.publishes[m := s.Publishes(m) + 1]), t,
          Notifying(m, if retry then ToArm else Done))
  }

  function Visit(s: Sys, t: nat, names: seq<string>): Sys
    requires names != []
  {
    var m := names[0];
    var s := Put(s, t, Rounding(names[1..]));
    if m !in s.slots || !CheckStarted(s.slots[m]).1 then s
    else
      Spawn(s.(slots := s.slots[m := CheckStarted(s.slots[m]).0]), Checking(m, s.slots[m].attempt, s.Resets(m)))
  }

  function EndRead(s: Sys, t: nat): Sys
    requires t in s.jobs && s.jobs[t].Checked? && s.jobs[t].name in s.slots
  {
    var j := s.jobs[t];
    var (slot, go) := CheckEnded(s.slots[j.name], j.attempt);
    var s := s.(slots := s.slots[j.name := slot]);
    if go then Put(s, t, Comparing(j.name, j.attempt, j.stamp, slot.view, j.report)) else Drop(s, t)
  }

  function Compare(s: Sys, t: nat): Sys
    requires t in s.jobs && s.jobs[t].Comparing? && s.jobs[t].name in s.slots
  {
    var j := s.jobs[t];
    match Revalidate(j.seen, j.report)
    case Keep => Drop(s, t)
    case MarkStale =>
      var (slot, go) := CallUnavailable(s.slots[j.name]);
      if go then Put(s.(slots := s.slots[j.name := slot]), t, Notifying(j.name, ToArm)) else Drop(s, t)
    case Refresh =>
      var (slot, go) := Reread(s.slots[j.name], j.attempt);
      if go then
        Put(s.(slots := s.slots[j.name := slot]), t, Notifying(j.name, ToHandle(slot.attempt, j.stamp, OfInterface(j.report))))
      else Drop(s, t)
  }
}
