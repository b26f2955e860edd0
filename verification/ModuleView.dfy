/** What discovery knows of one module, the cross-check of its contract, and what follows for
    exposure and gating. Findings keep their severity, code and member; the detail text is not
    modelled. A contract's interface is the reader's JSON text. */
module ModuleViews {
  import opened Prelude
  import opened BridgeConfigs

  datatype LiveMember = LiveMember(name: string, params: seq<string>)
  datatype LiveReport = LiveReport(eventsDeclared: bool, digest: string, methods: seq<LiveMember>, events: seq<LiveMember>)
  const NoReport := LiveReport(false, "", [], [])

  datatype Param = Param(name: string, optional: bool)
  datatype ContractMethod = ContractMethod(name: string, derived: bool, params: seq<Param>)
  datatype ContractEvent = ContractEvent(name: string, params: seq<Param>)
  datatype TypedContract = TypedContract(version: string, methods: seq<ContractMethod>, events: seq<ContractEvent>,
                                         warnings: seq<string>, lint: seq<string>, interface: string, interfaceSha256: string)

  predicate LidlPresent(live: LiveReport) {
    exists m | m in live.methods :: m.name == "lidl" && m.params == []
  }

  predicate IsReservedIntrospection(m: string) {
    m == "getPluginInterface" || m == "getPluginMethods" || m == "getPluginEvents"
  }

  // ---------------------------------------------------------------------------
  // The cross-check, on the first n members of each list
  // ---------------------------------------------------------------------------

  datatype Severity = Error | Warning | Info
  datatype Finding = Finding(severity: Severity, code: string, member: string)

  function Named(live: seq<LiveMember>, name: string): (r: seq<LiveMember>)
    ensures forall l :: l in r <==> l in live && l.name == name
  {
    if live == [] then []
    else
      var rest := Named(live[..|live| - 1], name);
      var l := live[|live| - 1];
      if l.name == name then rest + [l] else rest
  }

  /** The first entry declaring that many parameters. */
  function SameArity(entries: seq<LiveMember>, arity: nat): (r: Option<LiveMember>)
    ensures r.Some? ==> r.value in entries && |r.value.params| == arity
    ensures r.None? ==> forall l | l in entries :: |l.params| != arity
  {
    if entries == [] then None
    else if |entries[0].params| == arity then Some(entries[0])
    else SameArity(entries[1..], arity)
  }

  predicate NamesDiffer(declared: seq<Param>, live: seq<string>)
    requires |declared| == |live|
  {
    exists i | 0 <= i < |live| :: live[i] != "" && live[i] != declared[i].name
  }

  function MemberFindings(kind: string, name: string, declared: seq<Param>, entries: seq<LiveMember>): seq<Finding> {
    match SameArity(entries, |declared|)
    case None => [Finding(Error, kind + "_arity_mismatch", name)]
    case Some(l) => if NamesDiffer(declared, l.params) then [Finding(Warning, "param_names_differ", name)] else []
  }

  function MethodFindings(m: ContractMethod, live: LiveReport): seq<Finding> {
    var entries := Named(live.methods, m.name);
    if entries != [] then MemberFindings("method", m.name, m.params, entries)
    else if m.derived then [Finding(Info, "derived_method_unlisted", m.name)]
    else [Finding(Error, "declared_method_missing", m.name)]
  }

  function EventFindings(e: ContractEvent, live: LiveReport): seq<Finding> {
    var entries := Named(live.events, e.name);
    if entries != [] then MemberFindings("event", e.name, e.params, entries)
    else [Finding(Error, "declared_event_missing", e.name)]
  }

  predicate DeclaresMethod(c: TypedContract, name: string) {
    exists m | m in c.methods :: m.name == name
  }

  predicate DeclaresEvent(c: TypedContract, name: string) {
    exists e | e in c.events :: e.name == name
  }

  function DeclaredMethods(c: TypedContract, live: LiveReport, n: nat): seq<Finding>
    requires n <= |c.methods|
  {
    if n == 0 then [] else DeclaredMethods(c, live, n - 1) + MethodFindings(c.methods[n - 1], live)
  }

  /** One warning per undeclared name, at its first live entry. */
  function UndeclaredMethods(c: TypedContract, live: LiveReport, n: nat): seq<Finding>
    requires n <= |live.methods|
  {
    if n == 0 then []
    else
      var name := live.methods[n - 1].name;
      UndeclaredMethods(c, live, n - 1) +
      if DeclaresMethod(c, name) || IsReservedIntrospection(name) ||
         (exists i | 0 <= i < n - 1 :: live.methods[i].name == name) then []
      else [Finding(Warning, "undeclared_method", name)]
  }

  function DeclaredEvents(c: TypedContract, live: LiveReport, n: nat): seq<Finding>
    requires n <= |c.events|
  {
    if n == 0 then [] else DeclaredEvents(c, live, n - 1) + EventFindings(c.events[n - 1], live)
  }

  function UndeclaredEvents(c: TypedContract, live: LiveReport, n: nat): seq<Finding>
    requires n <= |live.events|
  {
    if n == 0 then []
    else
      UndeclaredEvents(c, live, n - 1) +
      if DeclaresEvent(c, live.events[n - 1].name) then []
      else [Finding(Warning, "undeclared_event", live.events[n - 1].name)]
  }

  function EventPart(c: TypedContract, live: LiveReport): seq<Finding> {
    if live.eventsDeclared then DeclaredEvents(c, live, |c.events|) + UndeclaredEvents(c, live, |live.events|)
    else if c.events != [] then [Finding(Info, "events_untagged", "")]
    else []
  }

  function ReaderPart(c: TypedContract): seq<Finding> {
    seq(|c.warnings|, i requires 0 <= i < |c.warnings| => Finding(Warning, c.warnings[i], "")) +
    seq(|c.lint|, i requires 0 <= i < |c.lint| => Finding(Warning, "contract_lint", ""))
  }

  /** `runtime`: what version() answered, when it answered a string. */
  function VersionPart(c: TypedContract, runtime: Option<string>): seq<Finding> {
    if runtime.None? then [Finding(Info, "runtime_version_unavailable", "version")]
    else if c.version != "" && runtime.value != c.version then [Finding(Warning, "version_mismatch", "version")]
    else []
  }

  function CrossCheckOf(c: TypedContract, live: LiveReport, runtime: Option<string>): seq<Finding> {
    DeclaredMethods(c, live, |c.methods|) + UndeclaredMethods(c, live, |live.methods|) + EventPart(c, live) +
    ReaderPart(c) + VersionPart(c, runtime)
  }

  predicate HasErrors(findings: seq<Finding>) {
    exists f | f in findings :: f.severity == Error
  }

  // ---------------------------------------------------------------------------
  // The cross-check's loops
  // ---------------------------------------------------------------------------

  method LiveEntries(live: seq<LiveMember>, name: string) returns (r: seq<LiveMember>)
    ensures r == Named(live, name)
  {
    r := [];
    for i := 0 to |live|
      invariant r == Named(live[..i], name)
    {
      assert live[..i + 1][..i] == live[..i];
      if live[i].name == name {
        r := r + [live[i]];
      }
    }
    assert live[..|live|] == live;
  }

  method CheckMember(kind: string, name: string, declared: seq<Param>, entries: seq<LiveMember>)
    returns (r: seq<Finding>)
    ensures r == MemberFindings(kind, name, declared, entries)
  {
    var sameArity: Option<LiveMember> := None;
    for i := 0 to |entries|
      invariant SameArity(entries, |declared|) == if sameArity.Some? then sameArity else SameArity(entries[i..], |declared|)
    {
      if |entries[i].params| == |declared| && sameArity.None? {
        sameArity := Some(entries[i]);
      }
    }
    if sameArity.None? {
      return [Finding(Error, kind + "_arity_mismatch", name)];
    }
    var live := sameArity.value.params;
    for i := 0 to |declared|
      invariant forall j | 0 <= j < i :: live[j] == "" || live[j] == declared[j].name
    {
      if live[i] == "" || live[i] == declared[i].name {
        continue;
      }
      return [Finding(Warning, "param_names_differ", name)];
    }
    return [];
  }

  method UndeclaredMethodNames(c: TypedContract, live: LiveReport) returns (r: seq<Finding>)
    ensures r == UndeclaredMethods(c, live, |live.methods|)
  {
    r := [];
    var undeclared: seq<string> := [];
    for i := 0 to |live.methods|
      invariant r == UndeclaredMethods(c, live, i)
      invariant forall n :: n in undeclared <==>
        !DeclaresMethod(c, n) && !IsReservedIntrospection(n) && exists j | 0 <= j < i :: live.methods[j].name == n
    {
      var name := live.methods[i].name;
      if DeclaresMethod(c, name) || IsReservedIntrospection(name) || name in undeclared {
        continue;
      }
      undeclared := undeclared + [name];
      r := r + [Finding(Warning, "undeclared_method", name)];
    }
  }

  method UndeclaredEventNames(c: TypedContract, live: LiveReport) returns (r: seq<Finding>)
    ensures r == UndeclaredEvents(c, live, |live.events|)
  {
    r := [];
    for i := 0 to |live.events|
      invariant r == UndeclaredEvents(c, live, i)
    {
      if DeclaresEvent(c, live.events[i].name) {
        continue;
      }
      r := r + [Finding(Warning, "undeclared_event", live.events[i].name)];
    }
  }

  method CrossCheckEvents(c: TypedContract, live: LiveReport) returns (out: seq<Finding>)
    ensures out == EventPart(c, live)
  {
    out := [];
    if !live.eventsDeclared {
      if c.events != [] {
        out := [Finding(Info, "events_untagged", "")];
      }
      return;
    }
    for i := 0 to |c.events|
      invariant out == DeclaredEvents(c, live, i)
    {
      var entries := LiveEntries(live.events, c.events[i].name);
      if entries == [] {
        out := out + [Finding(Error, "declared_event_missing", c.events[i].name)];
      } else {
        var r := CheckMember("event", c.events[i].name, c.events[i].params, entries);
        out := out + r;
      }
    }
    var undeclared := UndeclaredEventNames(c, live);
    out := out + undeclared;
  }

  method ReaderFindings(c: TypedContract) returns (out: seq<Finding>)
    ensures out == ReaderPart(c)
  {
    out := [];
    for i := 0 to |c.warnings|
      invariant out == ReaderPart(c)[..i]
    {
      out := out + [Finding(Warning, c.warnings[i], "")];
    }
    for i := 0 to |c.lint|
      invariant out == ReaderPart(c)[..|c.warnings| + i]
    {
      out := out + [Finding(Warning, "contract_lint", "")];
    }
  }

  method CrossCheck(c: TypedContract, live: LiveReport, runtime: Option<string>) returns (out: seq<Finding>)
    ensures out == CrossCheckOf(c, live, runtime)
  {
    out := [];
    for i := 0 to |c.methods|
      invariant out == DeclaredMethods(c, live, i)
    {
      var entries := LiveEntries(live.methods, c.methods[i].name);
      if entries == [] {
        out := out + [if c.methods[i].derived then Finding(Info, "derived_method_unlisted", c.methods[i].name)
                      else Finding(Error, "declared_method_missing", c.methods[i].name)];
        continue;
      }
      var r := CheckMember("method", c.methods[i].name, c.methods[i].params, entries);
      out := out + r;
    }
    var undeclared := UndeclaredMethodNames(c, live);
    out := out + undeclared;
    var events := CrossCheckEvents(c, live);
    out := out + events;
    var reader := ReaderFindings(c);
    out := out + reader;
    if runtime.None? {
      out := out + [Finding(Info, "runtime_version_unavailable", "version")];
    } else if c.version != "" && runtime.value != c.version {
      out := out + [Finding(Warning, "version_mismatch", "version")];
    }
  }

  // ---------------------------------------------------------------------------
  // What an error means
  // ---------------------------------------------------------------------------

  /** A live entry answers to the name with this many parameters. */
  ghost predicate Answers(live: seq<LiveMember>, name: string, arity: nat) {
    exists l | l in live :: l.name == name && |l.params| == arity
  }

  ghost predicate Listed(live: seq<LiveMember>, name: string) {
    exists l | l in live :: l.name == name
  }

  /** Every declared method is answered live with its arity, except host-answered built-ins that are
      not listed; so is every declared event, when the host tags events at all. */
  ghost predicate Consistent(c: TypedContract, live: LiveReport) {
    AnsweredMethods(c, live) && AnsweredEvents(c, live)
  }

  ghost predicate AnsweredMethods(c: TypedContract, live: LiveReport) {
    forall m | m in c.methods ::
      Answers(live.methods, m.name, |m.params|) || (m.derived && !Listed(live.methods, m.name))
  }

  ghost predicate AnsweredEvents(c: TypedContract, live: LiveReport) {
    live.eventsDeclared ==> forall e | e in c.events :: Answers(live.events, e.name, |e.params|)
  }

  lemma MethodFindingsErrors(m: ContractMethod, live: LiveReport)
    ensures HasErrors(MethodFindings(m, live)) <==>
            !(Answers(live.methods, m.name, |m.params|) || (m.derived && !Listed(live.methods, m.name)))
  {
    var entries := Named(live.methods, m.name);
    var found := MethodFindings(m, live);
    if entries == [] {
      assert forall l | l in live.methods && l.name == m.name :: l in entries;
    } else {
      assert entries[0] in entries;
      MemberErrors("method", m.name, m.params, live.methods);
    }
    if found != [] { assert found[0] in found; }
  }

  lemma MemberErrors(kind: string, name: string, declared: seq<Param>, live: seq<LiveMember>)
    ensures HasErrors(MemberFindings(kind, name, declared, Named(live, name))) <==> !Answers(live, name, |declared|)
  {
    var entries := Named(live, name);
    var found := MemberFindings(kind, name, declared, entries);
    if found != [] { assert found[0] in found; }
    match SameArity(entries, |declared|)
    case Some(l) => assert l in entries;
    case None => assert forall l | l in live && l.name == name :: l in entries;
  }

  lemma EventFindingsErrors(e: ContractEvent, live: LiveReport)
    ensures HasErrors(EventFindings(e, live)) <==> !Answers(live.events, e.name, |e.params|)
  {
    MemberErrors("event", e.name, e.params, live.events);
    var found := EventFindings(e, live);
    if Named(live.events, e.name) == [] {
      assert found[0] in found;
      assert forall l | l in live.events && l.name == e.name :: l in Named(live.events, e.name);
    }
  }

  lemma ErrorsOfSum(a: seq<Finding>, b: seq<Finding>)
    ensures HasErrors(a + b) <==> HasErrors(a) || HasErrors(b)
  {
    forall f | f in a || f in b ensures f in a + b {}
  }

  lemma NoFindings()
    ensures !HasErrors([])
  {
  }

  lemma {:induction false} DeclaredMethodsErrors(c: TypedContract, live: LiveReport, n: nat)
    requires n <= |c.methods|
    ensures HasErrors(DeclaredMethods(c, live, n)) <==> exists i | 0 <= i < n :: HasErrors(MethodFindings(c.methods[i], live))
  {
    NoFindings();
    hide HasErrors, MethodFindings, EventFindings;
    if n > 0 {
      DeclaredMethodsErrors(c, live, n - 1);
      ErrorsOfSum(DeclaredMethods(c, live, n - 1), MethodFindings(c.methods[n - 1], live));
    }
  }

  lemma {:induction false} DeclaredEventsErrors(c: TypedContract, live: LiveReport, n: nat)
    requires n <= |c.events|
    ensures HasErrors(DeclaredEvents(c, live, n)) <==> exists i | 0 <= i < n :: HasErrors(EventFindings(c.events[i], live))
  {
    NoFindings();
    hide HasErrors, MethodFindings, EventFindings;
    if n > 0 {
      DeclaredEventsErrors(c, live, n - 1);
      ErrorsOfSum(DeclaredEvents(c, live, n - 1), EventFindings(c.events[n - 1], live));
    }
  }

  lemma {:induction false} UndeclaredAreWarnings(c: TypedContract, live: LiveReport, m: nat, e: nat)
    requires m <= |live.methods| && e <= |live.events|
    ensures !HasErrors(UndeclaredMethods(c, live, m)) && !HasErrors(UndeclaredEvents(c, live, e))
  {
    if m > 0 {
      UndeclaredAreWarnings(c, live, m - 1, 0);
    }
    if e > 0 {
      UndeclaredAreWarnings(c, live, 0, e - 1);
    }
  }

  lemma MethodPartErrors(c: TypedContract, live: LiveReport)
    ensures HasErrors(DeclaredMethods(c, live, |c.methods|)) <==> !AnsweredMethods(c, live)
  {
    DeclaredMethodsErrors(c, live, |c.methods|);
    forall i | 0 <= i < |c.methods| { MethodFindingsErrors(c.methods[i], live); }
    hide HasErrors, MethodFindings, DeclaredMethods, Answers, Listed;
  }

  lemma EventPartErrors(c: TypedContract, live: LiveReport)
    ensures HasErrors(EventPart(c, live)) <==> !AnsweredEvents(c, live)
  {
    if live.eventsDeclared {
      DeclaredEventsErrors(c, live, |c.events|);
      forall i | 0 <= i < |c.events| { EventFindingsErrors(c.events[i], live); }
      UndeclaredAreWarnings(c, live, 0, |live.events|);
      ErrorsOfSum(DeclaredEvents(c, live, |c.events|), UndeclaredEvents(c, live, |live.events|));
      hide HasErrors, EventFindings, DeclaredEvents, UndeclaredEvents, Answers;
    }
  }

  lemma ReaderAndVersion(c: TypedContract, runtime: Option<string>)
    ensures !HasErrors(ReaderPart(c)) && !HasErrors(VersionPart(c, runtime))
  {
  }

  /** The cross-check refuses a contract exactly when the running module does not answer it; every
      other disagreement is a warning or a note. */
  lemma ErrorsExactly(c: TypedContract, live: LiveReport, runtime: Option<string>)
    ensures HasErrors(CrossCheckOf(c, live, runtime)) <==> !Consistent(c, live)
  {
    MethodPartErrors(c, live);
    EventPartErrors(c, live);
    UndeclaredAreWarnings(c, live, |live.methods|, 0);
    ReaderAndVersion(c, runtime);
    hide HasErrors, EventPart, ReaderPart, VersionPart, AnsweredMethods, AnsweredEvents;
    var (m, u, e, r, v) := (DeclaredMethods(c, live, |c.methods|), UndeclaredMethods(c, live, |live.methods|),
                            EventPart(c, live), ReaderPart(c), VersionPart(c, runtime));
    ErrorsOfSum(m, u);
    ErrorsOfSum(m + u, e);
    ErrorsOfSum(m + u + e, r);
    ErrorsOfSum(m + u + e + r, v);
  }

  // ---------------------------------------------------------------------------
  // Views
  // ---------------------------------------------------------------------------

  datatype Status = Pending | Ok | Untyped | Invalid
  datatype Exposure = Exposure(methods: seq<string>, events: seq<string>)

  datatype View = View(name: string, status: Status, live: LiveReport, generation: nat, stale: bool, error: string,
                       contract: Option<TypedContract>, contractSha256: string, interfaceSha256: string,
                       crossCheck: Option<seq<Finding>>, exposure: Exposure)
  {
    predicate Resolved() { status != Pending }
    predicate Typed() { status == Ok && contract.Some? }
  }

  const Hidden := Exposure([], [])

  function PendingView(m: string): View {
    View(m, Pending, NoReport, 0, false, "", None, "", "", None, Hidden)
  }

  function NextView(prev: View, status: Status, live: LiveReport): View {
    View(prev.name, status, live, prev.generation + 1, false, "", None, "", "", None, Hidden)
  }

  function UntypedView(prev: View, live: LiveReport): View {
    NextView(prev, Untyped, live)
  }

  function InvalidView(prev: View, live: LiveReport, error: string): View {
    NextView(prev, Invalid, live).(error := error)
  }

  function OkView(prev: View, live: LiveReport, c: TypedContract): View {
    NextView(prev, Ok, live).(contract := Some(c), interfaceSha256 := c.interfaceSha256)
  }

  const InconsistentContract := "the contract does not match the running module (see cross_check)"

  function CheckedView(prev: View, live: LiveReport, c: TypedContract, runtime: Option<string>, sha: string): View {
    var findings := CrossCheckOf(c, live, runtime);
    var v := if HasErrors(findings) then InvalidView(prev, live, InconsistentContract) else OkView(prev, live, c);
    v.(crossCheck := Some(findings), contractSha256 := sha)
  }

  function StaleView(prev: View): View {
    prev.(stale := prev.Resolved())
  }

  // ---------------------------------------------------------------------------
  // Exposure
  // ---------------------------------------------------------------------------

  /** Each name once, at its first occurrence, when it is allowed. */
  function Kept(names: seq<string>, allowed: string -> bool): (r: seq<string>)
    ensures forall n :: n in r <==> n in names && allowed(n)
  {
    if names == [] then []
    else
      var (rest, n) := (Kept(names[..|names| - 1], allowed), names[|names| - 1]);
      if allowed(n) && n !in rest then rest + [n] else rest
  }

  lemma KeptMore(names: seq<string>, n: string, allowed: string -> bool)
    ensures
      var r := Kept(names, allowed);
      Kept(names + [n], allowed) == if allowed(n) && n !in r then r + [n] else r
  {
    assert (names + [n])[..|names|] == names;
  }

  lemma {:induction false} KeptOnce(names: seq<string>, allowed: string -> bool, n: string)
    ensures multiset(Kept(names, allowed))[n] == B(n in names && allowed(n))
  {
    if names != [] {
      var last := |names| - 1;
      KeptOnce(names[..last], allowed, n);
      assert names == names[..last] + [names[last]];
      assert names[last] !in Kept(names[..last], allowed) ==> multiset(Kept(names[..last], allowed))[names[last]] == 0;
    }
  }

  /** Later names only add to the end, so allowed names stay in the order of their first occurrences. */
  lemma {:induction false} KeptPrefix(names: seq<string>, allowed: string -> bool, k: nat)
    requires k <= |names|
    ensures Kept(names[..k], allowed) <= Kept(names, allowed)
  {
    if k == |names| {
      assert names[..k] == names;
    } else {
      KeptPrefix(names[..|names| - 1], allowed, k);
      assert names[..|names| - 1][..k] == names[..k];
    }
  }

  function DeclaredExposure(em: ExposedModule, methods: seq<string>, events: seq<string>): Exposure {
    Exposure(Kept(methods, m => !IsReservedIntrospection(m) && em.MethodAllowed(m)), Kept(events, e => em.events.Permits(e)))
  }

  /** Untagged live events cannot be listed; an explicit allow list stands in for them. */
  function LiveExposure(em: ExposedModule, live: LiveReport): Exposure {
    var standIn := if !live.eventsDeclared && !em.events.unconstrained then em.events.allow else [];
    DeclaredExposure(em, LiveNames(live.methods), LiveNames(live.events) + standIn)
  }

  function LiveNames(ms: seq<LiveMember>): seq<string> {
    seq(|ms|, i requires 0 <= i < |ms| => ms[i].name)
  }

  function MethodNames(ms: seq<ContractMethod>): seq<string> {
    seq(|ms|, i requires 0 <= i < |ms| => ms[i].name)
  }

  function EventNames(es: seq<ContractEvent>): seq<string> {
    seq(|es|, i requires 0 <= i < |es| => es[i].name)
  }

  function ExposureOf(em: ExposedModule, v: View): Exposure {
    if v.Typed() then DeclaredExposure(em, MethodNames(v.contract.value.methods), EventNames(v.contract.value.events))
    else if !v.Resolved() then Hidden
    else LiveExposure(em, v.live)
  }

  function WithExposure(em: ExposedModule, v: View): View {
    v.(exposure := ExposureOf(em, v))
  }

  method AddOnce(names: seq<string>, n: string) returns (r: seq<string>)
    ensures r == if n in names then names else names + [n]
  {
    r := if n in names then names else names + [n];
  }

  method ExposeDeclared(em: ExposedModule, methods: seq<string>, events: seq<string>) returns (x: Exposure)
    ensures x == DeclaredExposure(em, methods, events)
  {
    var ms := [];
    for i := 0 to |methods|
      invariant ms == Kept(methods[..i], m => !IsReservedIntrospection(m) && em.MethodAllowed(m))
    {
      assert methods[..i + 1][..i] == methods[..i];
      if !IsReservedIntrospection(methods[i]) && em.MethodAllowed(methods[i]) {
        ms := AddOnce(ms, methods[i]);
      }
    }
    assert methods[..|methods|] == methods;
    var es := ExposeEvents(em, [], [], events);
    assert [] + events == events;
    return Exposure(ms, es);
  }

  /** Appends the permitted events of `more` to those already kept of `before`. */
  method ExposeEvents(em: ExposedModule, before: seq<string>, kept: seq<string>, more: seq<string>)
    returns (es: seq<string>)
    requires kept == Kept(before, e => em.events.Permits(e))
    ensures es == Kept(before + more, e => em.events.Permits(e))
  {
    es := kept;
    assert before + [] == before;
    for i := 0 to |more|
      invariant es == Kept(before + more[..i], e => em.events.Permits(e))
    {
      assert before + more[..i + 1] == before + more[..i] + [more[i]];
      KeptMore(before + more[..i], more[i], e => em.events.Permits(e));
      if em.events.Permits(more[i]) {
        es := AddOnce(es, more[i]);
      }
    }
    assert more[..|more|] == more;
  }

  method ExposeLive(em: ExposedModule, live: LiveReport) returns (x: Exposure)
    ensures x == LiveExposure(em, live)
  {
    x := ExposeDeclared(em, LiveNames(live.methods), LiveNames(live.events));
    if !live.eventsDeclared && !em.events.unconstrained {
      var es := ExposeEvents(em, LiveNames(live.events), x.events, em.events.allow);
      x := x.(events := es);
    } else {
      assert LiveNames(live.events) + [] == LiveNames(live.events);
    }
  }

  // ---------------------------------------------------------------------------
  // Gating
  // ---------------------------------------------------------------------------

  predicate HasMember(ms: seq<LiveMember>, name: string) {
    exists m | m in ms :: m.name == name
  }

  predicate MethodPermitted(em: Option<ExposedModule>, v: View, m: string) {
    em.Some? && !IsReservedIntrospection(m) && em.value.MethodAllowed(m) &&
    if v.Typed() then DeclaresMethod(v.contract.value, m)
    else !v.Resolved() || v.live.methods == [] || HasMember(v.live.methods, m)
  }

  predicate EventPermitted(em: Option<ExposedModule>, v: View, e: string) {
    em.Some? && em.value.events.Permits(e) &&
    if v.Typed() then DeclaresEvent(v.contract.value, e)
    else !v.Resolved() || !v.live.eventsDeclared || HasMember(v.live.events, e)
  }

  /** On a typed view the gate and the listing agree, for methods and for events. */
  lemma TypedGate(em: ExposedModule, v: View, name: string)
    requires v.Typed() && v.exposure == ExposureOf(em, v)
    ensures MethodPermitted(Some(em), v, name) <==> name in v.exposure.methods
    ensures EventPermitted(Some(em), v, name) <==> name in v.exposure.events
  {
    var c := v.contract.value;
    assert forall i | 0 <= i < |c.methods| :: MethodNames(c.methods)[i] == c.methods[i].name;
    assert forall i | 0 <= i < |c.events| :: EventNames(c.events)[i] == c.events[i].name;
  }

  /** On any view, whatever is listed passes the gate. */
  lemma ListedIsPermitted(em: ExposedModule, v: View, name: string)
    requires v.exposure == ExposureOf(em, v)
    ensures name in v.exposure.methods ==> MethodPermitted(Some(em), v, name)
    ensures name in v.exposure.events ==> EventPermitted(Some(em), v, name)
  {
    if v.Typed() {
      TypedGate(em, v, name);
    } else if v.Resolved() {
      assert forall i | 0 <= i < |v.live.methods| :: LiveNames(v.live.methods)[i] == v.live.methods[i].name;
      assert forall i | 0 <= i < |v.live.events| :: LiveNames(v.live.events)[i] == v.live.events[i].name;
    }
  }

  /** The introspection methods and whatever no module is exposed for are never permitted, on any view. */
  lemma NeverPermitted(em: Option<ExposedModule>, v: View, name: string)
    requires em.None? || name in {"getPluginInterface", "getPluginMethods", "getPluginEvents"}
    ensures !MethodPermitted(em, v, name)
    ensures em.None? ==> !EventPermitted(em, v, name)
  {
  }

  predicate PolicyAllows(em: ExposedModule, name: string) {
    && name !in {"getPluginInterface", "getPluginMethods", "getPluginEvents"}
    && (name in {"lidl", "name", "version"} || em.methods.Permits(name))
  }

  /** Until a view is resolved policy alone decides, and nothing is listed. */
  lemma PendingGate(em: ExposedModule, v: View, name: string)
    requires !v.Resolved() && v.exposure == ExposureOf(em, v)
    ensures MethodPermitted(Some(em), v, name) <==> PolicyAllows(em, name)
    ensures EventPermitted(Some(em), v, name) <==> em.events.Permits(name)
    ensures v.exposure.methods == [] && v.exposure.events == []
  {
  }

  /** On a view without a contract the gate and the listing agree wherever the report says something; where it
      lists no methods, or tags no events, policy alone decides, and an explicit allow list is listed in its place. */
  lemma UntypedGate(em: ExposedModule, v: View, name: string)
    requires v.Resolved() && !v.Typed() && v.exposure == ExposureOf(em, v)
    ensures v.live.methods != [] ==> (MethodPermitted(Some(em), v, name) <==> name in v.exposure.methods)
    ensures v.live.methods == [] ==> (MethodPermitted(Some(em), v, name) <==> PolicyAllows(em, name))
    ensures v.live.eventsDeclared || !em.events.unconstrained ==> (EventPermitted(Some(em), v, name) <==> name in v.exposure.events)
    ensures !v.live.eventsDeclared ==> (EventPermitted(Some(em), v, name) <==> em.events.Permits(name))
  {
    assert forall i | 0 <= i < |v.live.methods| :: LiveNames(v.live.methods)[i] == v.live.methods[i].name;
    assert forall i | 0 <= i < |v.live.events| :: LiveNames(v.live.events)[i] == v.live.events[i].name;
  }

  // ---------------------------------------------------------------------------
  // Revalidation
  // ---------------------------------------------------------------------------

  /** What getPluginInterface answered: an error code, something that is not a list, or a report. */
  datatype InterfaceReply = Failed(error: string) | NotAList | Report(live: LiveReport)
  datatype Revalidation = Keep | Refresh | MarkStale

  function Revalidate(v: View, r: InterfaceReply): Revalidation {
    if !v.Resolved() then Keep
    else
      match r
      case Failed(e) =>
        if e == "object_unavailable" || e == "timeout" || e == "transport_error" then MarkStale else Keep
      case NotAList => MarkStale
      case Report(live) => if live.digest == v.live.digest then Keep else Refresh
  }
}
