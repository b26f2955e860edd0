/** The operations a document lists, and what listing one promises: the name is an alias that reaches the
    same call as rpc.call and passes the gate. */
module DocEntries {
  import opened Prelude
  import opened BridgeConfigs
  import opened ModuleViews
  import opened DocPublishers
  import opened Utf8s
  import Dispatchers
  import JsonSchemas

  /** Typed, or names only; a pending module has no operations. */
  predicate HasOperations(m: ModuleDoc) {
    m.status != Pending
  }

  /** Non-empty names, each once, in exposure order. */
  function Listed(names: seq<string>): (r: seq<string>)
    ensures forall n :: n in r <==> n in names && n != ""
  {
    if names == [] then []
    else
      var (rest, n) := (Listed(names[..|names| - 1]), names[|names| - 1]);
      if n == "" || n in rest then rest else rest + [n]
  }

  /** The methods listed, each with its module, modules in configuration order. */
  function MethodEntriesOf(docs: seq<ModuleDoc>): seq<(ModuleDoc, string)> {
    if docs == [] then []
    else
      var m := docs[|docs| - 1];
      MethodEntriesOf(docs[..|docs| - 1]) + if HasOperations(m) then Pairs(m, Listed(m.exposedMethods)) else []
  }

  function EventEntriesOf(docs: seq<ModuleDoc>): seq<(ModuleDoc, string)> {
    if docs == [] then []
    else
      var m := docs[|docs| - 1];
      EventEntriesOf(docs[..|docs| - 1]) + if HasOperations(m) then Pairs(m, Listed(m.exposedEvents)) else []
  }

  function Pairs(m: ModuleDoc, names: seq<string>): seq<(ModuleDoc, string)> {
    seq(|names|, i requires 0 <= i < |names| => (m, names[i]))
  }

  method ListModule(m: ModuleDoc, names: seq<string>, before: seq<(ModuleDoc, string)>) returns (out: seq<(ModuleDoc, string)>)
    ensures out == before + Pairs(m, Listed(names))
  {
    out := before;
    var seen: set<string> := {};
    for i := 0 to |names|
      invariant out == before + Pairs(m, Listed(names[..i]))
      invariant forall n :: n in seen <==> n in Listed(names[..i])
    {
      assert names[..i + 1][..i] == names[..i];
      if names[i] == "" || names[i] in seen {
        continue;
      }
      seen := seen + {names[i]};
      out := out + [(m, names[i])];
    }
    assert names[..|names|] == names;
  }

  method MethodEntries(docs: seq<ModuleDoc>) returns (out: seq<(ModuleDoc, string)>)
    ensures out == MethodEntriesOf(docs)
  {
    out := [];
    for i := 0 to |docs|
      invariant out == MethodEntriesOf(docs[..i])
    {
      assert docs[..i + 1][..i] == docs[..i];
      if HasOperations(docs[i]) {
        out := ListModule(docs[i], docs[i].exposedMethods, out);
      }
    }
    assert docs[..|docs|] == docs;
  }

  method EventEntries(docs: seq<ModuleDoc>) returns (out: seq<(ModuleDoc, string)>)
    ensures out == EventEntriesOf(docs)
  {
    out := [];
    for i := 0 to |docs|
      invariant out == EventEntriesOf(docs[..i])
    {
      assert docs[..i + 1][..i] == docs[..i];
      if HasOperations(docs[i]) {
        out := ListModule(docs[i], docs[i].exposedEvents, out);
      }
    }
    assert docs[..|docs|] == docs;
  }

  /** Each name is listed once, and later names only add to the end. */
  lemma {:induction false} ListedOnce(names: seq<string>, n: string, k: nat)
    requires k <= |names|
    ensures multiset(Listed(names))[n] == B(n in names && n != "")
    ensures Listed(names[..k]) <= Listed(names)
  {
    if names != [] {
      var last := |names| - 1;
      ListedOnce(names[..last], n, if k <= last then k else last);
      assert names == names[..last] + [names[last]];
      assert k <= last ==> names[..last][..k] == names[..k];
      assert k > last ==> names[..k] == names;
      assert names[last] !in Listed(names[..last]) ==> multiset(Listed(names[..last]))[names[last]] == 0;
    }
  }

  function Operations(m: ModuleDoc, names: seq<string>): seq<(ModuleDoc, string)> {
    if HasOperations(m) then Pairs(m, Listed(names)) else []
  }

  lemma EntriesMore(docs: seq<ModuleDoc>, m: ModuleDoc)
    ensures MethodEntriesOf(docs + [m]) == MethodEntriesOf(docs) + Operations(m, m.exposedMethods)
    ensures EventEntriesOf(docs + [m]) == EventEntriesOf(docs) + Operations(m, m.exposedEvents)
  {
    hide Pairs, Listed, HasOperations;
    assert (docs + [m])[..|docs|] == docs;
  }

  /** Modules are listed one after the other. */
  lemma {:induction false} EntriesInOrder(a: seq<ModuleDoc>, b: seq<ModuleDoc>)
    ensures MethodEntriesOf(a + b) == MethodEntriesOf(a) + MethodEntriesOf(b)
    ensures EventEntriesOf(a + b) == EventEntriesOf(a) + EventEntriesOf(b)
  {
    if b == [] {
      assert a + b == a;
    } else {
      hide MethodEntriesOf, EventEntriesOf, Operations;
      var (rest, m) := (b[..|b| - 1], b[|b| - 1]);
      assert b == rest + [m] && a + b == (a + rest) + [m];
      EntriesInOrder(a, rest);
      EntriesMore(a + rest, m);
      EntriesMore(rest, m);
    }
  }

  lemma {:induction false} ListedMethods(docs: seq<ModuleDoc>, d: ModuleDoc, n: string)
    ensures (d, n) in MethodEntriesOf(docs) <==> d in docs && HasOperations(d) && n in d.exposedMethods && n != ""
  {
    if docs != [] {
      var (rest, last) := (docs[..|docs| - 1], docs[|docs| - 1]);
      ListedMethods(rest, d, n);
      PairsOf(last, Listed(last.exposedMethods), d, n);
      assert docs == rest + [last];
    }
  }

  lemma {:induction false} ListedEvents(docs: seq<ModuleDoc>, d: ModuleDoc, n: string)
    ensures (d, n) in EventEntriesOf(docs) <==> d in docs && HasOperations(d) && n in d.exposedEvents && n != ""
  {
    if docs != [] {
      var (rest, last) := (docs[..|docs| - 1], docs[|docs| - 1]);
      ListedEvents(rest, d, n);
      PairsOf(last, Listed(last.exposedEvents), d, n);
      assert docs == rest + [last];
    }
  }

  lemma PairsOf(m: ModuleDoc, names: seq<string>, d: ModuleDoc, n: string)
    ensures (d, n) in Pairs(m, names) <==> d == m && n in names
  {
    if d == m && n in names {
      var i :| 0 <= i < |names| && names[i] == n;
      assert Pairs(m, names)[i] == (d, n);
    }
  }

  // ---------------------------------------------------------------------------
  // Names
  // ---------------------------------------------------------------------------

  function BytesOf(s: string): seq<Byte> {
    seq(|s|, i requires 0 <= i < |s| => s[i] as int % 256)
  }

  /** The documented name of an operation: both parts made UTF-8 clean. */
  function Qualified(m: string, member: string): seq<Byte> {
    Sanitized(BytesOf(m)) + [0x2E] + Sanitized(BytesOf(member))
  }

  /** For valid UTF-8 names the documented name is the alias, byte for byte. */
  lemma QualifiedIsAlias(m: string, member: string)
    requires Valid(BytesOf(m)) && Valid(BytesOf(member))
    ensures Qualified(m, member) == BytesOf(m + "." + member)
  {
    SanitizedValid(BytesOf(m));
    SanitizedValid(BytesOf(member));
    hide Sanitized, Valid;
    var (a, b) := (BytesOf(m), BytesOf(member));
    assert '.' as int == 0x2E;
    assert a + [0x2E] + b == BytesOf(m + "." + member);
  }

  // ---------------------------------------------------------------------------
  // What is documented
  // ---------------------------------------------------------------------------

  /** The view of an exposed module, as every discovery step keeps it. */
  ghost predicate Current(em: ExposedModule, v: View) {
    v.name == em.name && v.exposure == ExposureOf(em, v) && (v.status == Ok ==> v.contract.Some?)
  }

  /** A documented method name is not a bridge operation, splits back into its module and method, makes the very
      call rpc.call makes, and is permitted on that view. */
  lemma DocumentedIsCallable(em: ExposedModule, v: View, callee: string, id: JsonSchemas.Json, params: Option<JsonSchemas.Json>)
    requires Current(em, v) && GoodName(em.name) && (params.Some? ==> Dispatchers.IsContainer(params.value))
    requires (ToModuleDoc(v), callee) in MethodEntriesOf([ToModuleDoc(v)])
    requires Valid(BytesOf(em.name)) && Valid(BytesOf(callee))
    ensures
      var name := em.name + "." + callee;
      && Qualified(em.name, callee) == BytesOf(name)
      && !Dispatchers.IsBridgeOp(name) && Dispatchers.SplitAlias(name) == Some((em.name, callee))
      && Dispatchers.AliasTarget(Dispatchers.Request(id, false, name, params)) ==
         Dispatchers.CallTargetOf(Dispatchers.AsCall(em.name, callee, params))
      && MethodPermitted(Some(em), v, callee)
  {
    QualifiedIsAlias(em.name, callee);
    ListedMethods([ToModuleDoc(v)], ToModuleDoc(v), callee);
    ListedIsPermitted(em, v, callee);
    Dispatchers.AliasIsCall(em.name, callee, id, params);
  }

  /** Of a typed module exactly the permitted members with a name are documented, methods and events alike. */
  lemma DocumentedIffPermitted(em: ExposedModule, v: View, name: string)
    requires Current(em, v) && v.status == Ok && name != ""
    ensures (ToModuleDoc(v), name) in MethodEntriesOf([ToModuleDoc(v)]) <==> MethodPermitted(Some(em), v, name)
    ensures (ToModuleDoc(v), name) in EventEntriesOf([ToModuleDoc(v)]) <==> EventPermitted(Some(em), v, name)
  {
    var d := ToModuleDoc(v);
    ListedMethods([d], d, name);
    ListedEvents([d], d, name);
    assert d in [d];
    TypedGate(em, v, name);
  }
}
