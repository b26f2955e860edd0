/** What the cross-check of a contract against the running module reports, finding by finding. */
module CrossChecks {
  import opened Prelude
  import opened ModuleViews

  /** The i-th entry is the first of that name with that many parameters. */
  ghost predicate FirstAnswer(live: seq<LiveMember>, name: string, arity: nat, i: nat) {
    && i < |live| && live[i].name == name && |live[i].params| == arity
    && forall j | 0 <= j < i :: !(live[j].name == name && |live[j].params| == arity)
  }

  /** A listed member no entry of which has its arity, or whose first entry that has it names parameters otherwise. */
  ghost predicate MemberExpected(kind: string, name: string, declared: seq<Param>, live: seq<LiveMember>, f: Finding) {
    || (Listed(live, name) && !Answers(live, name, |declared|) && f == Finding(Error, kind + "_arity_mismatch", name))
    || (f == Finding(Warning, "param_names_differ", name) &&
        exists i: nat :: FirstAnswer(live, name, |declared|, i) && NamesDiffer(declared, live[i].params))
  }

  ghost predicate MethodExpected(m: ContractMethod, live: LiveReport, f: Finding) {
    || MemberExpected("method", m.name, m.params, live.methods, f)
    || (!Listed(live.methods, m.name) &&
        f == if m.derived then Finding(Info, "derived_method_unlisted", m.name) else Finding(Error, "declared_method_missing", m.name))
  }

  ghost predicate EventExpected(e: ContractEvent, live: LiveReport, f: Finding) {
    || MemberExpected("event", e.name, e.params, live.events, f)
    || (!Listed(live.events, e.name) && f == Finding(Error, "declared_event_missing", e.name))
  }

  ghost predicate UndeclaredMethodExpected(c: TypedContract, live: LiveReport, f: Finding) {
    && f == Finding(Warning, "undeclared_method", f.member) && Listed(live.methods, f.member)
    && (forall m | m in c.methods :: m.name != f.member)
    && f.member !in {"getPluginInterface", "getPluginMethods", "getPluginEvents"}
  }

  ghost predicate UndeclaredEventExpected(c: TypedContract, live: LiveReport, f: Finding) {
    && f == Finding(Warning, "undeclared_event", f.member) && Listed(live.events, f.member)
    && (forall e | e in c.events :: e.name != f.member)
  }

  ghost predicate EventsExpected(c: TypedContract, live: LiveReport, f: Finding) {
    if live.eventsDeclared then (exists e | e in c.events :: EventExpected(e, live, f)) || UndeclaredEventExpected(c, live, f)
    else c.events != [] && f == Finding(Info, "events_untagged", "")
  }

  ghost predicate ReaderExpected(c: TypedContract, f: Finding) {
    f.severity == Warning && f.member == "" && (f.code in c.warnings || (f.code == "contract_lint" && c.lint != []))
  }

  ghost predicate VersionExpected(c: TypedContract, runtime: Option<string>, f: Finding) {
    match runtime
    case None => f == Finding(Info, "runtime_version_unavailable", "version")
    case Some(v) => c.version != "" && v != c.version && f == Finding(Warning, "version_mismatch", "version")
  }

  ghost predicate Expected(c: TypedContract, live: LiveReport, runtime: Option<string>, f: Finding) {
    || (exists m | m in c.methods :: MethodExpected(m, live, f))
    || UndeclaredMethodExpected(c, live, f)
    || EventsExpected(c, live, f)
    || ReaderExpected(c, f)
    || VersionExpected(c, runtime, f)
  }

  // ---------------------------------------------------------------------------
  // Part by part
  // ---------------------------------------------------------------------------

  lemma {:induction false} SameArityOfSum(a: seq<LiveMember>, b: seq<LiveMember>, n: nat)
    ensures SameArity(a + b, n) == if SameArity(a, n).Some? then SameArity(a, n) else SameArity(b, n)
  {
    if a == [] {
      assert a + b == b;
    } else {
      assert (a + b)[1..] == a[1..] + b;
      SameArityOfSum(a[1..], b, n);
    }
  }

  /** Among the entries of a name, the first with the arity is the first of both in the whole list. */
  lemma {:induction false} SameArityFirst(live: seq<LiveMember>, name: string, n: nat, i: nat)
    requires FirstAnswer(live, name, n, i)
    ensures SameArity(Named(live, name), n) == Some(live[i])
  {
    var (rest, l) := (live[..|live| - 1], live[|live| - 1]);
    SameArityOfSum(Named(rest, name), [l], n);
    if i < |rest| {
      SameArityFirst(rest, name, n, i);
    } else {
      assert SameArity([l], n) == Some(l);
      assert forall j | 0 <= j < |rest| :: rest[j] == live[j];
      NoAnswer(rest, name, n);
    }
  }

  lemma NoAnswer(live: seq<LiveMember>, name: string, n: nat)
    requires forall j | 0 <= j < |live| :: !(live[j].name == name && |live[j].params| == n)
    ensures SameArity(Named(live, name), n) == None
  {
    hide SameArity, Named;
  }

  lemma SomeFirst(live: seq<LiveMember>, name: string, n: nat) returns (i: nat)
    requires Answers(live, name, n)
    ensures FirstAnswer(live, name, n, i)
  {
    var l :| l in live && l.name == name && |l.params| == n;
    var k :| 0 <= k < |live| && live[k] == l;
    i := 0;
    while !(live[i].name == name && |live[i].params| == n)
      invariant i <= k && forall j | 0 <= j < i :: !(live[j].name == name && |live[j].params| == n)
      decreases k - i
    {
      i := i + 1;
    }
  }

  lemma MemberMeans(kind: string, name: string, declared: seq<Param>, live: seq<LiveMember>, f: Finding)
    requires Listed(live, name)
    ensures f in MemberFindings(kind, name, declared, Named(live, name)) <==> MemberExpected(kind, name, declared, live, f)
  {
    var n := |declared|;
    if Answers(live, name, n) {
      var i := SomeFirst(live, name, n);
      SameArityFirst(live, name, n, i);
      forall j: nat | FirstAnswer(live, name, n, j) ensures j == i {
      }
    } else {
      forall i: nat | i < |live| ensures !(live[i].name == name && |live[i].params| == n) {
        assert live[i] in live;
      }
      NoAnswer(live, name, n);
    }
    hide NamesDiffer, SameArity, Named;
  }

  lemma NotListed(kind: string, name: string, declared: seq<Param>, live: seq<LiveMember>, f: Finding)
    requires !Listed(live, name)
    ensures !MemberExpected(kind, name, declared, live, f) && Named(live, name) == []
  {
    if Named(live, name) != [] {
      assert Named(live, name)[0] in Named(live, name);
    }
    forall i: nat | i < |live| ensures live[i].name != name {
      assert live[i] in live;
    }
    hide NamesDiffer;
  }

  lemma ListedNamed(live: seq<LiveMember>, name: string)
    requires Listed(live, name)
    ensures Named(live, name) != []
  {
    var l :| l in live && l.name == name;
    assert l in Named(live, name);
  }

  lemma MethodMeans(m: ContractMethod, live: LiveReport, f: Finding)
    ensures f in MethodFindings(m, live) <==> MethodExpected(m, live, f)
  {
    if Listed(live.methods, m.name) {
      ListedNamed(live.methods, m.name);
      MemberMeans("method", m.name, m.params, live.methods, f);
    } else {
      NotListed("method", m.name, m.params, live.methods, f);
    }
    hide MemberExpected, MemberFindings, Named, Listed;
  }

  lemma EventMeans(e: ContractEvent, live: LiveReport, f: Finding)
    ensures f in EventFindings(e, live) <==> EventExpected(e, live, f)
  {
    if Listed(live.events, e.name) {
      ListedNamed(live.events, e.name);
      MemberMeans("event", e.name, e.params, live.events, f);
    } else {
      NotListed("event", e.name, e.params, live.events, f);
    }
    hide MemberExpected, MemberFindings, Named, Listed;
  }

  lemma {:induction false} DeclaredMethodsMean(c: TypedContract, live: LiveReport, n: nat, f: Finding)
    requires n <= |c.methods|
    ensures f in DeclaredMethods(c, live, n) <==> exists i | 0 <= i < n :: MethodExpected(c.methods[i], live, f)
  {
    hide MethodExpected, MethodFindings;
    if n > 0 {
      DeclaredMethodsMean(c, live, n - 1, f);
      MethodMeans(c.methods[n - 1], live, f);
    }
  }

  lemma {:induction false} DeclaredEventsMean(c: TypedContract, live: LiveReport, n: nat, f: Finding)
    requires n <= |c.events|
    ensures f in DeclaredEvents(c, live, n) <==> exists i | 0 <= i < n :: EventExpected(c.events[i], live, f)
  {
    hide EventExpected, EventFindings;
    if n > 0 {
      DeclaredEventsMean(c, live, n - 1, f);
      EventMeans(c.events[n - 1], live, f);
    }
  }

  ghost predicate NamedUpTo(ms: seq<LiveMember>, n: nat, name: string)
    requires n <= |ms|
  {
    exists i | 0 <= i < n :: ms[i].name == name
  }

  /** One warning per name, however often the name is listed. */
  lemma {:induction false} UndeclaredOnce(c: TypedContract, live: LiveReport, n: nat, name: string)
    requires n <= |live.methods|
    ensures
      multiset(UndeclaredMethods(c, live, n))[Finding(Warning, "undeclared_method", name)] ==
      B(NamedUpTo(live.methods, n, name) && !DeclaresMethod(c, name) && !IsReservedIntrospection(name))
  {
    hide DeclaresMethod, IsReservedIntrospection;
    if n > 0 {
      UndeclaredOnce(c, live, n - 1, name);
      var (before, last) := (UndeclaredMethods(c, live, n - 1), live.methods[n - 1].name);
      assert NamedUpTo(live.methods, n, name) <==> NamedUpTo(live.methods, n - 1, name) || last == name;
      assert NamedUpTo(live.methods, n - 1, last) <==> exists i | 0 <= i < n - 1 :: live.methods[i].name == last;
      UndeclaredLast(c, live, n);
      hide UndeclaredMethods, NamedUpTo;
    }
  }

  lemma UndeclaredLast(c: TypedContract, live: LiveReport, n: nat)
    requires 0 < n <= |live.methods|
    ensures
      var (before, last) := (UndeclaredMethods(c, live, n - 1), live.methods[n - 1].name);
      var isNew := !DeclaresMethod(c, last) && !IsReservedIntrospection(last) && !NamedUpTo(live.methods, n - 1, last);
      multiset(UndeclaredMethods(c, live, n)) ==
      multiset(before) + if isNew then multiset{Finding(Warning, "undeclared_method", last)} else multiset{}
  {
    hide DeclaresMethod, IsReservedIntrospection;
    var before := UndeclaredMethods(c, live, n - 1);
    assert before + [] == before;
  }

  lemma {:induction false} UndeclaredForm(c: TypedContract, live: LiveReport, n: nat)
    requires n <= |live.methods|
    ensures forall f | f in UndeclaredMethods(c, live, n) :: f == Finding(Warning, "undeclared_method", f.member)
  {
    hide DeclaresMethod, IsReservedIntrospection;
    if n > 0 {
      UndeclaredForm(c, live, n - 1);
    }
  }

  lemma {:induction false} UndeclaredEventsMean(c: TypedContract, live: LiveReport, n: nat, f: Finding)
    requires n <= |live.events|
    ensures
      f in UndeclaredEvents(c, live, n) <==>
      f == Finding(Warning, "undeclared_event", f.member) && NamedUpTo(live.events, n, f.member) && !DeclaresEvent(c, f.member)
  {
    hide DeclaresEvent;
    if n > 0 {
      UndeclaredEventsMean(c, live, n - 1, f);
    }
  }

  lemma MethodPartMeans(c: TypedContract, live: LiveReport, f: Finding)
    ensures f in DeclaredMethods(c, live, |c.methods|) <==> exists m | m in c.methods :: MethodExpected(m, live, f)
    ensures f in UndeclaredMethods(c, live, |live.methods|) <==> UndeclaredMethodExpected(c, live, f)
  {
    DeclaredMethodsMean(c, live, |c.methods|, f);
    UndeclaredOnce(c, live, |live.methods|, f.member);
    UndeclaredForm(c, live, |live.methods|);
    var found := UndeclaredMethods(c, live, |live.methods|);
    assert f in found <==> multiset(found)[f] > 0;
    hide MethodExpected, DeclaredMethods, UndeclaredMethods;
  }

  lemma EventPartMeans(c: TypedContract, live: LiveReport, f: Finding)
    ensures f in EventPart(c, live) <==> EventsExpected(c, live, f)
  {
    DeclaredEventsMean(c, live, |c.events|, f);
    UndeclaredEventsMean(c, live, |live.events|, f);
    hide EventExpected, DeclaredEvents, UndeclaredEvents;
  }

  lemma ReaderMeans(c: TypedContract, f: Finding)
    ensures f in ReaderPart(c) <==> ReaderExpected(c, f)
  {
    var (w, l) := (|c.warnings|, |c.lint|);
    var found := ReaderPart(c);
    if ReaderExpected(c, f) {
      if f.code in c.warnings {
        var i :| 0 <= i < w && c.warnings[i] == f.code;
        assert found[i] == f;
      } else {
        assert found[w] == f;
      }
    }
  }

  /** The cross-check reports exactly what is expected of the contract and the report. */
  lemma FindingsExactly(c: TypedContract, live: LiveReport, runtime: Option<string>, f: Finding)
    ensures f in CrossCheckOf(c, live, runtime) <==> Expected(c, live, runtime, f)
  {
    MethodPartMeans(c, live, f);
    EventPartMeans(c, live, f);
    ReaderMeans(c, f);
    VersionMeans(c, runtime, f);
    hide MethodExpected, UndeclaredMethodExpected, EventsExpected, ReaderExpected, VersionExpected;
    hide DeclaredMethods, UndeclaredMethods, EventPart, ReaderPart, VersionPart;
  }

  lemma VersionMeans(c: TypedContract, runtime: Option<string>, f: Finding)
    ensures f in VersionPart(c, runtime) <==> VersionExpected(c, runtime, f)
  {
  }
}
