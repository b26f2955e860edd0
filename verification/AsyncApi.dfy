/** The AsyncAPI document: its messages with their payloads, its operations, its schema components, and the
    references between them. What only describes (titles, summaries, tags) is left out. */
module AsyncApis {
  import opened Prelude
  import opened JsonSchemas
  import opened SchemaCompilers
  import opened SchemaTheorems
  import opened SchemaDocuments
  import opened DocPublishers
  import DocEntries
  import ModuleViews
  import Utf8s

  /** What the builder reads from a typed module's interface. A method's result is its return type. */
  datatype MethodDecl = MethodDecl(name: string, params: seq<Slot>, result: Option<Slot>)
  datatype EventDecl = EventDecl(name: string, params: seq<Slot>)
  datatype Interface = Interface(records: seq<Record>, methods: seq<MethodDecl>, events: seq<EventDecl>)

  /** The documented modules; `read` turns an interface's dump into the interface. */
  datatype Context = Context(docs: seq<ModuleDoc>, read: string -> Interface)
  {
    predicate IsTyped(m: ModuleDoc) {
      m.status == ModuleViews.Ok && m.interface.Some?
    }

    function Module(m: ModuleDoc): Contract
      requires IsTyped(m)
    {
      Contract(m.name, read(m.interface.value).records)
    }

    function ScopeFor(m: ModuleDoc): Scope {
      if IsTyped(m) then Module(m).Scope() else Scope(m.name, {})
    }

    function MethodDeclOf(m: ModuleDoc, n: string): Option<MethodDecl> {
      if IsTyped(m) then FindMethod(read(m.interface.value).methods, n) else None
    }

    function EventDeclOf(m: ModuleDoc, n: string): Option<EventDecl> {
      if IsTyped(m) then FindEvent(read(m.interface.value).events, n) else None
    }
  }

  /** The first of that name, if there is one. */
  function FindMethod(ms: seq<MethodDecl>, n: string): (r: Option<MethodDecl>)
    ensures r.None? ==> forall i | 0 <= i < |ms| :: ms[i].name != n
    ensures r.Some? ==> exists i | 0 <= i < |ms| :: ms[i] == r.value && ms[i].name == n && forall j | 0 <= j < i :: ms[j].name != n
  {
    if ms == [] then None else if ms[0].name == n then Some(ms[0]) else FindMethod(ms[1..], n)
  }

  /** The first of that name, if there is one. */
  function FindEvent(es: seq<EventDecl>, n: string): (r: Option<EventDecl>)
    ensures r.None? ==> forall i | 0 <= i < |es| :: es[i].name != n
    ensures r.Some? ==> exists i | 0 <= i < |es| :: es[i] == r.value && es[i].name == n && forall j | 0 <= j < i :: es[j].name != n
  {
    if es == [] then None else if es[0].name == n then Some(es[0]) else FindEvent(es[1..], n)
  }

  /** The typed modules, whose records become components. */
  function Typed(ctx: Context, docs: seq<ModuleDoc>): seq<Contract> {
    if docs == [] then []
    else
      var (rest, m) := (docs[..|docs| - 1], docs[|docs| - 1]);
      Typed(ctx, rest) + if ctx.IsTyped(m) then [ctx.Module(m)] else []
  }

  function Text(bytes: seq<Byte>): string {
    seq(|bytes|, i requires 0 <= i < |bytes| => bytes[i] as char)
  }

  function Safe(s: string): string {
    Text(Utf8s.Sanitized(DocEntries.BytesOf(s)))
  }

  function NameOf(m: ModuleDoc, n: string): string {
    Text(DocEntries.Qualified(m.name, n))
  }

  // ---------------------------------------------------------------------------
  // Payloads
  // ---------------------------------------------------------------------------

  function Const(s: string): Schema {
    Anything.(allowed := Some([JStr(s)]))
  }

  const AnyText := Anything.(typ := Some(TString))

  /** Later entries overwrite. */
  function Put<V>(base: map<string, V>, entries: seq<(string, V)>): map<string, V> {
    if entries == [] then base
    else
      var e := entries[|entries| - 1];
      Put(base, entries[..|entries| - 1])[e.0 := e.1]
  }

  function ClosedObject(properties: seq<(string, Schema)>, required: seq<string>): Schema {
    Anything.(typ := Some(TObject), properties := Put(map[], properties), required := required, additionalProperties := Some(Never))
  }

  function RequestPayload(name: string, params: Schema, needed: bool): Schema {
    ClosedObject([("jsonrpc", Const("2.0")), ("id", Ref("JsonRpcId")), ("method", Const(name)), ("params", params)],
                 ["jsonrpc", "id", "method"] + if needed then ["params"] else [])
  }

  function ResultPayload(result: Schema): Schema {
    ClosedObject([("jsonrpc", Const("2.0")), ("id", Ref("JsonRpcId")), ("result", result)], ["jsonrpc", "id", "result"])
  }

  function NotificationPayload(name: string, params: Schema): Schema {
    ClosedObject([("jsonrpc", Const("2.0")), ("method", Const(name)), ("params", params)], ["jsonrpc", "method", "params"])
  }

  const ErrorPayload :=
    ClosedObject([("jsonrpc", Const("2.0")), ("id", Ref("JsonRpcId")), ("error", Ref("JsonRpcError"))], ["jsonrpc", "id", "error"])

  /** By name or by position; a method without parameters takes neither. */
  function ParamsSchema(decl: Option<MethodDecl>, scope: Scope): Schema {
    if decl.None? then Anything
    else if decl.value.params == [] then Ref("NoParams")
    else Anything.(oneOf := [ParamsObjectOf(decl.value.params, scope), ParamsTupleOf(decl.value.params, scope, Draft07)])
  }

  predicate ParamsNeeded(decl: Option<MethodDecl>) {
    decl.Some? && decl.value.params != []
  }

  /** `void` is the legacy spelling of no result. */
  predicate Returns(result: Option<Slot>) {
    result.Some? &&
    !((result.value.declared.Is("primitive") || result.value.declared.Is("named")) && result.value.declared.name == "void" &&
      result.value.declared.elements == [])
  }

  function ReturnSchema(result: Option<Slot>, scope: Scope): Schema {
    if Returns(result) then SlotSchema(result.value, scope) else Anything.(allowed := Some([JBool(true)]))
  }

  function MethodResult(decl: Option<MethodDecl>, scope: Scope): Schema {
    if decl.None? then Anything else ResultSchema(ReturnSchema(decl.value.result, scope))
  }

  function SubscribeParams(m: string, ev: string): Schema {
    ClosedObject([("subscription", Ref("SubscriptionId")), ("module", Const(m)), ("event", Const(ev))],
                 ["subscription", "module", "event"])
  }

  function SubscribeReply(m: string, ev: string): Schema {
    ClosedObject([("subscription", Ref("SubscriptionId")), ("operation", Const("subscribe")), ("module", Const(m)),
                  ("event", Const(ev)), ("state", Ref("SubscriptionState"))],
                 ["subscription", "operation", "module", "event", "state"])
  }

  function EventData(decl: Option<EventDecl>, scope: Scope): Schema {
    Describe(if decl.Some? then ParamsTupleOf(decl.value.params, scope, Draft07) else Anything,
             "The event's parameters, by position.")
  }

  function EventParams(m: string, ev: string, data: Schema): Schema {
    ClosedObject([("subscription", Ref("SubscriptionId")), ("module", Const(m)), ("event", Const(ev)), ("data", data),
                  ("generation", Ref("EventGeneration")), ("ts", Ref("EventTimestamp"))],
                 ["subscription", "module", "event", "data", "generation", "ts"])
  }

  const UnsubscribeParams := ClosedObject([("subscription", Ref("SubscriptionId"))], ["subscription"])

  const UnsubscribeReply :=
    ClosedObject([("subscription", Ref("SubscriptionId")), ("operation", Const("unsubscribe"))], ["subscription", "operation"])

  const TerminatedParams :=
    ClosedObject([("subscription", Ref("SubscriptionId")), ("module", AnyText), ("event", AnyText), ("reason", AnyText)],
                 ["subscription", "module", "event", "reason"])

  // ---------------------------------------------------------------------------
  // The document
  // ---------------------------------------------------------------------------

  const CHANNEL := "#/channels/ws/messages/"
  const COMPONENTS := "#/components/messages/"
  const CORRELATIONS := "#/components/correlationIds/"
  const ERROR := "rpc.error"
  const UNSUBSCRIBE := "rpc.unsubscribe"
  const UNSUBSCRIBED := "rpc.unsubscribed"
  const TERMINATED := "rpc.subscription_terminated"
  const BY_REQUEST := "requestId"
  const BY_SUBSCRIPTION := "subscriptionId"

  datatype Message = Message(key: string, payload: Schema, correlation: string)
  datatype Operation = Operation(receives: bool, messages: seq<string>, replies: seq<string>)   // by reference

  /** `channel`: each message of the channel, by reference to its component. */
  datatype Document = Document(channel: map<string, string>, messages: map<string, Message>, operations: map<string, Operation>,
                               schemas: map<string, Schema>, correlations: set<string>)

  function MessageRef(key: string): string {
    CHANNEL + key
  }

  function Named(key: string, payload: Schema, correlation: string): (string, Message) {
    (key, Message(key, payload, CORRELATIONS + correlation))
  }

  function ReceiveWithReply(request: string, reply: string): Operation {
    Operation(true, [MessageRef(request)], [MessageRef(reply), MessageRef(ERROR)])
  }

  function SendOnly(notification: string): Operation {
    Operation(false, [MessageRef(notification)], [])
  }

  type Entry = (ModuleDoc, string)

  function MethodMessages(ctx: Context, e: Entry): seq<(string, Message)> {
    var (name, decl, scope) := (NameOf(e.0, e.1), ctx.MethodDeclOf(e.0, e.1), ctx.ScopeFor(e.0));
    var key := ComponentKeyOf(name);
    [Named(key + ".request", RequestPayload(name, ParamsSchema(decl, scope), ParamsNeeded(decl)), BY_REQUEST),
     Named(key + ".result", ResultPayload(MethodResult(decl, scope)), BY_REQUEST)]
  }

  function MethodOperations(e: Entry): seq<(string, Operation)> {
    var key := ComponentKeyOf(NameOf(e.0, e.1));
    [(key, ReceiveWithReply(key + ".request", key + ".result"))]
  }

  function EventMessages(ctx: Context, e: Entry): seq<(string, Message)> {
    var (m, ev, key) := (Safe(e.0.name), Safe(e.1), ComponentKeyOf(NameOf(e.0, e.1)));
    var data := EventData(ctx.EventDeclOf(e.0, e.1), ctx.ScopeFor(e.0));
    [Named(key + ".subscribe", RequestPayload("rpc.subscribe", SubscribeParams(m, ev), true), BY_REQUEST),
     Named(key + ".subscribed", ResultPayload(SubscribeReply(m, ev)), BY_REQUEST),
     Named(key + ".event", NotificationPayload("rpc.event", EventParams(m, ev, data)), BY_SUBSCRIPTION)]
  }

  function EventOperations(e: Entry): seq<(string, Operation)> {
    var key := ComponentKeyOf(NameOf(e.0, e.1));
    [(key + ".subscribe", ReceiveWithReply(key + ".subscribe", key + ".subscribed")), (key + ".event", SendOnly(key + ".event"))]
  }

  const SharedMessages: seq<(string, Message)> :=
    [Named(ERROR, ErrorPayload, BY_REQUEST),
     Named(UNSUBSCRIBE, RequestPayload(UNSUBSCRIBE, UnsubscribeParams, true), BY_REQUEST),
     Named(UNSUBSCRIBED, ResultPayload(UnsubscribeReply), BY_REQUEST),
     Named(TERMINATED, NotificationPayload(TERMINATED, TerminatedParams), BY_SUBSCRIPTION)]

  const SharedOperations: seq<(string, Operation)> :=
    [(UNSUBSCRIBE, ReceiveWithReply(UNSUBSCRIBE, UNSUBSCRIBED)), (TERMINATED, SendOnly(TERMINATED))]

  function ForAll<V>(entries: seq<Entry>, f: Entry -> seq<(string, V)>): seq<(string, V)> {
    if entries == [] then []
    else ForAll(entries[..|entries| - 1], f) + f(entries[|entries| - 1])
  }

  function PerMethod(ctx: Context): Entry -> seq<(string, Message)> {
    e => MethodMessages(ctx, e)
  }

  function PerEvent(ctx: Context): Entry -> seq<(string, Message)> {
    e => EventMessages(ctx, e)
  }

  function Messages(ctx: Context): seq<(string, Message)> {
    ForAll(DocEntries.MethodEntriesOf(ctx.docs), PerMethod(ctx)) + ForAll(DocEntries.EventEntriesOf(ctx.docs), PerEvent(ctx)) +
    SharedMessages
  }

  function Operations(ctx: Context): seq<(string, Operation)> {
    ForAll(DocEntries.MethodEntriesOf(ctx.docs), MethodOperations) +
    ForAll(DocEntries.EventEntriesOf(ctx.docs), EventOperations) + SharedOperations
  }

  function OpenObject(properties: seq<(string, Schema)>, required: seq<string>): Schema {
    Anything.(typ := Some(TObject), properties := Put(map[], properties), required := required)
  }

  const AnyInteger := Anything.(typ := Some(TInteger))

  const ErrorDetailSchema := OpenObject([("reason", AnyText), ("path", AnyText)], ["reason"])

  const ErrorDataSchema :=
    OpenObject([("logos_error_code", AnyInteger), ("logos_error_name", AnyText), ("invalid_params_detail", ErrorDetailSchema)],
               ["logos_error_code", "logos_error_name"])

  const ErrorSchema := OpenObject([("code", AnyInteger), ("message", AnyText), ("data", ErrorDataSchema)], ["code", "message"])

  const NoParamsSchema :=
    Anything.(oneOf := [Anything.(typ := Some(TObject), maxProperties := Some(0)), Anything.(typ := Some(TArray), maxItems := Some(0))])

  const StateSchema := Anything.(typ := Some(TString), allowed := Some([JStr("registered"), JStr("active")]))
  const CounterSchema := Anything.(typ := Some(TInteger), minimum := Some(0.0))

  const IdSchema := Anything.(typ := Some(Among([TString, TNumber, TNull])))
  const SubscriptionSchema := Anything.(typ := Some(Among([TString, TNumber])))

  const OwnComponents: seq<(string, Schema)> :=
    [("JsonRpcError", ErrorSchema), ("JsonRpcId", IdSchema), ("SubscriptionId", SubscriptionSchema),
     ("SubscriptionState", StateSchema), ("NoParams", NoParamsSchema), ("EventGeneration", CounterSchema),
     ("EventTimestamp", CounterSchema)]

  /** The ten components a document starts from, before any record is added. */
  const AsyncComponents: map<string, Schema> := Put(SharedComponents, OwnComponents)

  function AsyncApiOf(ctx: Context): Document {
    var messages := Put(map[], Messages(ctx));
    Document(map k | k in messages :: COMPONENTS + k, messages, Put(map[], Operations(ctx)),
             Components(AsyncComponents, Typed(ctx, ctx.docs)), {BY_REQUEST, BY_SUBSCRIPTION})
  }

  // ---------------------------------------------------------------------------
  // The builder
  // ---------------------------------------------------------------------------

  lemma {:induction false} PutSum<V>(base: map<string, V>, a: seq<(string, V)>, b: seq<(string, V)>)
    ensures Put(base, a + b) == Put(Put(base, a), b)
  {
    if b == [] {
      assert a + b == a;
    } else {
      assert (a + b)[..|a + b| - 1] == a + b[..|b| - 1];
      PutSum(base, a, b[..|b| - 1]);
    }
  }

  lemma PutOne<V>(base: map<string, V>, rest: seq<(string, V)>, e: (string, V))
    ensures Put(base, [e]) == base[e.0 := e.1] && Put(base, rest + [e]) == Put(base, rest)[e.0 := e.1]
  {
    assert (rest + [e])[..|rest|] == rest && [e][..0] == [];
  }

  /** A method's parameters, whether a request needs them, and its result. */
  method CallSchemas(decl: Option<MethodDecl>, scope: Scope) returns (params: Schema, needed: bool, result: Schema)
    ensures params == ParamsSchema(decl, scope) && needed == ParamsNeeded(decl) && result == MethodResult(decl, scope)
  {
    params, needed, result := Anything, false, Anything;
    if decl.Some? {
      if decl.value.params == [] {
        params := Ref("NoParams");
      } else {
        var byName := ParamsObject(decl.value.params, scope);
        var byPosition := ParamsTuple(decl.value.params, scope, Draft07);
        params, needed := Anything.(oneOf := [byName, byPosition]), true;
      }
      result := ResultSchema(ReturnSchema(decl.value.result, scope));
    }
  }

  class Builder {
    const ctx: Context
    var messages: map<string, Message>
    var operations: map<string, Operation>

    constructor (ctx: Context)
      ensures this.ctx == ctx && messages == map[] && operations == map[]
    {
      this.ctx, messages, operations := ctx, map[], map[];
    }

    method AddMethod(e: Entry)
      modifies this
      ensures messages == Put(old(messages), MethodMessages(ctx, e)) && operations == Put(old(operations), MethodOperations(e))
    {
      hide RequestPayload, ResultPayload, ParamsSchema, MethodResult, NameOf, ComponentKeyOf;
      var name, decl, scope := NameOf(e.0, e.1), ctx.MethodDeclOf(e.0, e.1), ctx.ScopeFor(e.0);
      var key := ComponentKeyOf(name);
      var params, needed, result := CallSchemas(decl, scope);
      ghost var es := MethodMessages(ctx, e);
      PutTwo(old(messages), es[0], es[1]);
      PutOne(old(operations), [], MethodOperations(e)[0]);
      AddMessage(key + ".request", RequestPayload(name, params, needed), BY_REQUEST);
      AddMessage(key + ".result", ResultPayload(result), BY_REQUEST);
      operations := operations[key := ReceiveWithReply(key + ".request", key + ".result")];
    }

    method AddMessage(key: string, payload: Schema, correlation: string)
      modifies `messages
      ensures messages == old(messages)[key := Message(key, payload, CORRELATIONS + correlation)]
    {
      messages := messages[key := Message(key, payload, CORRELATIONS + correlation)];
    }

    method AddEvent(e: Entry)
      modifies this
      ensures messages == Put(old(messages), EventMessages(ctx, e)) && operations == Put(old(operations), EventOperations(e))
    {
      hide RequestPayload, ResultPayload, NotificationPayload, SubscribeParams, SubscribeReply, EventParams, NameOf, ComponentKeyOf, Safe;
      var m, ev, key := Safe(e.0.name), Safe(e.1), ComponentKeyOf(NameOf(e.0, e.1));
      var decl, data := ctx.EventDeclOf(e.0, e.1), Anything;
      if decl.Some? {
        data := ParamsTuple(decl.value.params, ctx.ScopeFor(e.0), Draft07);
      }
      data := Describe(data, "The event's parameters, by position.");
      ghost var es := EventMessages(ctx, e);
      PutThree(old(messages), es[0], es[1], es[2]);
      PutTwo(old(operations), EventOperations(e)[0], EventOperations(e)[1]);
      AddMessage(key + ".subscribe", RequestPayload("rpc.subscribe", SubscribeParams(m, ev), true), BY_REQUEST);
      AddMessage(key + ".subscribed", ResultPayload(SubscribeReply(m, ev)), BY_REQUEST);
      AddMessage(key + ".event", NotificationPayload("rpc.event", EventParams(m, ev, data)), BY_SUBSCRIPTION);
      operations := operations[key + ".subscribe" := ReceiveWithReply(key + ".subscribe", key + ".subscribed")];
      operations := operations[key + ".event" := SendOnly(key + ".event")];
    }

    method AddShared()
      modifies this
      ensures messages == Put(old(messages), SharedMessages) && operations == Put(old(operations), SharedOperations)
    {
      PutFour(old(messages), SharedMessages[0], SharedMessages[1], SharedMessages[2], SharedMessages[3]);
      PutTwo(old(operations), SharedOperations[0], SharedOperations[1]);
      AddMessage(ERROR, ErrorPayload, BY_REQUEST);
      AddMessage(UNSUBSCRIBE, RequestPayload(UNSUBSCRIBE, UnsubscribeParams, true), BY_REQUEST);
      AddMessage(UNSUBSCRIBED, ResultPayload(UnsubscribeReply), BY_REQUEST);
      AddMessage(TERMINATED, NotificationPayload(TERMINATED, TerminatedParams), BY_SUBSCRIPTION);
      operations := operations[UNSUBSCRIBE := ReceiveWithReply(UNSUBSCRIBE, UNSUBSCRIBED)];
      operations := operations[TERMINATED := SendOnly(TERMINATED)];
    }
  }

  lemma PutTwo<V>(base: map<string, V>, a: (string, V), b: (string, V))
    ensures Put(base, [a, b]) == base[a.0 := a.1][b.0 := b.1]
  {
    assert [a, b] == [a] + [b];
    PutOne(base, [a], b);
    PutOne(base, [], a);
  }

  lemma PutThree<V>(base: map<string, V>, a: (string, V), b: (string, V), c: (string, V))
    ensures Put(base, [a, b, c]) == base[a.0 := a.1][b.0 := b.1][c.0 := c.1]
  {
    assert [a, b, c] == [a, b] + [c];
    PutTwo(base, a, b);
    PutOne(base, [a, b], c);
  }

  lemma PutFour<V>(base: map<string, V>, a: (string, V), b: (string, V), c: (string, V), d: (string, V))
    ensures Put(base, [a, b, c, d]) == base[a.0 := a.1][b.0 := b.1][c.0 := c.1][d.0 := d.1]
  {
    assert [a, b, c, d] == [a, b, c] + [d];
    PutThree(base, a, b, c);
    PutOne(base, [a, b, c], d);
  }

  lemma ForAllMore<V>(entries: seq<Entry>, i: nat, f: Entry -> seq<(string, V)>)
    requires i < |entries|
    ensures ForAll(entries[..i + 1], f) == ForAll(entries[..i], f) + f(entries[i])
  {
    assert entries[..i + 1][..i] == entries[..i];
  }

  method AddMethods(b: Builder, methods: seq<Entry>)
    requires b.messages == map[] && b.operations == map[]
    modifies b
    ensures b.messages == Put(map[], ForAll(methods, PerMethod(b.ctx)))
    ensures b.operations == Put(map[], ForAll(methods, MethodOperations))
  {
    hide MethodMessages, MethodOperations;
    ghost var f := PerMethod(b.ctx);
    for i := 0 to |methods|
      invariant b.messages == Put(map[], ForAll(methods[..i], f)) && b.operations == Put(map[], ForAll(methods[..i], MethodOperations))
    {
      ForAllMore(methods, i, f);
      ForAllMore(methods, i, MethodOperations);
      PutSum(map[], ForAll(methods[..i], f), f(methods[i]));
      PutSum(map[], ForAll(methods[..i], MethodOperations), MethodOperations(methods[i]));
      b.AddMethod(methods[i]);
    }
    assert methods[..|methods|] == methods;
  }

  method AddEvents(b: Builder, events: seq<Entry>, ghost ms: seq<(string, Message)>, ghost os: seq<(string, Operation)>)
    requires b.messages == Put(map[], ms) && b.operations == Put(map[], os)
    modifies b
    ensures b.messages == Put(map[], ms + ForAll(events, PerEvent(b.ctx)))
    ensures b.operations == Put(map[], os + ForAll(events, EventOperations))
  {
    hide EventMessages, EventOperations;
    ghost var f := PerEvent(b.ctx);
    assert ms + [] == ms && os + [] == os;
    for i := 0 to |events|
      invariant b.messages == Put(map[], ms + ForAll(events[..i], f)) && b.operations == Put(map[], os + ForAll(events[..i], EventOperations))
    {
      ForAllMore(events, i, f);
      ForAllMore(events, i, EventOperations);
      PutMore(ms, ForAll(events[..i], f), f(events[i]));
      PutMore(os, ForAll(events[..i], EventOperations), EventOperations(events[i]));
      b.AddEvent(events[i]);
    }
    assert events[..|events|] == events;
  }

  method SchemaComponents(ctx: Context) returns (schemas: map<string, Schema>)
    ensures schemas == Components(AsyncComponents, Typed(ctx, ctx.docs))
  {
    schemas := AsyncComponents;
    for i := 0 to |ctx.docs|
      invariant schemas == Components(AsyncComponents, Typed(ctx, ctx.docs[..i]))
    {
      assert ctx.docs[..i + 1][..i] == ctx.docs[..i] && Typed(ctx, ctx.docs[..i]) + [] == Typed(ctx, ctx.docs[..i]);
      if ctx.IsTyped(ctx.docs[i]) {
        var c := ctx.Module(ctx.docs[i]);
        ComponentsMore(AsyncComponents, Typed(ctx, ctx.docs[..i]), c);
        schemas := AddRecordComponents(schemas, c.name, c.records);
      }
    }
    assert ctx.docs[..|ctx.docs|] == ctx.docs;
  }

  method BuildAsyncApi(ctx: Context) returns (d: Document)
    ensures d == AsyncApiOf(ctx)
  {
    var b := new Builder(ctx);
    var methods := DocEntries.MethodEntries(ctx.docs);
    var events := DocEntries.EventEntries(ctx.docs);
    ghost var (ms, os) := (ForAll(methods, PerMethod(ctx)), ForAll(methods, MethodOperations));
    ghost var (es, eos) := (ForAll(events, PerEvent(ctx)), ForAll(events, EventOperations));
    AddMethods(b, methods);
    AddEvents(b, events, ms, os);
    PutSum(map[], ms + es, SharedMessages);
    PutSum(map[], os + eos, SharedOperations);
    b.AddShared();
    var schemas := SchemaComponents(ctx);
    hide Put, ForAll, Components;
    d := Document(map k | k in b.messages :: COMPONENTS + k, b.messages, b.operations, schemas, {BY_REQUEST, BY_SUBSCRIPTION});
  }

  lemma PutMore<V>(a: seq<(string, V)>, b: seq<(string, V)>, c: seq<(string, V)>)
    ensures Put(map[], a + (b + c)) == Put(Put(map[], a + b), c)
  {
    assert a + (b + c) == (a + b) + c;
    PutSum(map[], a + b, c);
  }

  lemma ComponentsMore(shared: map<string, Schema>, contracts: seq<Contract>, c: Contract)
    ensures Components(shared, contracts + [c]) == WithRecords(Components(shared, contracts), c.Scope(), c.records)
  {
    assert (contracts + [c])[..|contracts|] == contracts;
  }

  // ---------------------------------------------------------------------------
  // What was put stands
  // ---------------------------------------------------------------------------

  /** What is in the map was put there or was in it before, and every entry's key is in it. */
  lemma {:induction false} PutKeeps<V>(base: map<string, V>, entries: seq<(string, V)>)
    ensures forall k | k in Put(base, entries) :: (k, Put(base, entries)[k]) in entries || (k in base && Put(base, entries)[k] == base[k])
    ensures forall k | k in base :: k in Put(base, entries)
    ensures forall e | e in entries :: e.0 in Put(base, entries)
    ensures forall k | k in base && (forall e | e in entries :: e.0 != k) :: Put(base, entries)[k] == base[k]
  {
    if entries != [] {
      var (rest, last) := (entries[..|entries| - 1], entries[|entries| - 1]);
      PutKeeps(base, rest);
      assert entries == rest + [last];
    }
  }

  lemma {:induction false} InForAll<V>(entries: seq<Entry>, f: Entry -> seq<(string, V)>, x: (string, V))
    ensures x in ForAll(entries, f) <==> exists e | e in entries :: x in f(e)
  {
    if entries != [] {
      var (rest, last) := (entries[..|entries| - 1], entries[|entries| - 1]);
      InForAll(rest, f, x);
      assert entries == rest + [last];
    }
  }

  /** A message is a method's, an event's, or shared. */
  lemma MessageFrom(ctx: Context, x: (string, Message))
    ensures x in Messages(ctx) <==>
            || (exists e | e in DocEntries.MethodEntriesOf(ctx.docs) :: x in MethodMessages(ctx, e))
            || (exists e | e in DocEntries.EventEntriesOf(ctx.docs) :: x in EventMessages(ctx, e))
            || x in SharedMessages
  {
    hide MethodMessages, EventMessages;
    InForAll(DocEntries.MethodEntriesOf(ctx.docs), PerMethod(ctx), x);
    InForAll(DocEntries.EventEntriesOf(ctx.docs), PerEvent(ctx), x);
  }

  lemma OperationFrom(ctx: Context, x: (string, Operation))
    ensures x in Operations(ctx) <==>
            || (exists e | e in DocEntries.MethodEntriesOf(ctx.docs) :: x in MethodOperations(e))
            || (exists e | e in DocEntries.EventEntriesOf(ctx.docs) :: x in EventOperations(e))
            || x in SharedOperations
  {
    hide MethodOperations, EventOperations;
    InForAll(DocEntries.MethodEntriesOf(ctx.docs), MethodOperations, x);
    InForAll(DocEntries.EventEntriesOf(ctx.docs), EventOperations, x);
  }

  // ---------------------------------------------------------------------------
  // References
  // ---------------------------------------------------------------------------

  predicate SafeKey(key: string) {
    '~' !in key && '/' !in key
  }

  /** The reference leads through the channel to a component, with no character to unescape. */
  ghost predicate ResolvesTo(d: Document, ref: string, k: string) {
    ref == CHANNEL + k && SafeKey(k) && k in d.channel && d.channel[k] == COMPONENTS + k && k in d.messages
  }

  ghost predicate OperationResolves(d: Document, o: Operation) {
    forall ref | ref in o.messages + o.replies :: exists k :: ResolvesTo(d, ref, k)
  }

  /** The payload's schema references resolve, and so does the correlation id's. */
  ghost predicate MessageResolves(d: Document, m: Message) {
    Resolves(d.schemas, m.payload) && exists id :: id in d.correlations && m.correlation == CORRELATIONS + id
  }

  // ---------------------------------------------------------------------------
  // Operations
  // ---------------------------------------------------------------------------

  /** The key of a member's message needs no escaping. */
  lemma MemberKey(raw: string, suffix: string)
    requires SafeKey(suffix)
    ensures SafeKey(ComponentKeyOf(raw) + suffix)
  {
    KeysAreSafe(raw);
  }

  lemma MessagePut(ctx: Context, x: (string, Message))
    requires x in Messages(ctx) && SafeKey(x.0)
    ensures ResolvesTo(AsyncApiOf(ctx), MessageRef(x.0), x.0)
  {
    PutKeeps(map[], Messages(ctx));
    hide Put, Messages, Components, AsyncComponents;
  }

  lemma SafeKeys()
    ensures SafeKey(ERROR) && SafeKey(UNSUBSCRIBE) && SafeKey(UNSUBSCRIBED) && SafeKey(TERMINATED)
  {
  }

  /** The shared messages, under the keys that operations refer to. */
  lemma SharedPut(ctx: Context)
    ensures forall k | k in [ERROR, UNSUBSCRIBE, UNSUBSCRIBED, TERMINATED] :: ResolvesTo(AsyncApiOf(ctx), MessageRef(k), k)
  {
    SafeKeys();
    hide AsyncApiOf, ResolvesTo, MessageRef, Messages, SafeKey;
    hide RequestPayload, ResultPayload, NotificationPayload, ErrorPayload, UnsubscribeParams, UnsubscribeReply, TerminatedParams;
    forall i | 0 <= i < 4 ensures ResolvesTo(AsyncApiOf(ctx), MessageRef(SharedMessages[i].0), SharedMessages[i].0) {
      assert SharedMessages[i] in SharedMessages;
      MessageFrom(ctx, SharedMessages[i]);
      MessagePut(ctx, SharedMessages[i]);
    }
    assert SharedMessages[0].0 == ERROR && SharedMessages[1].0 == UNSUBSCRIBE && SharedMessages[2].0 == UNSUBSCRIBED &&
           SharedMessages[3].0 == TERMINATED;
  }

  lemma MethodPut(ctx: Context, e: Entry, i: nat, suffix: string)
    requires e in DocEntries.MethodEntriesOf(ctx.docs) && i < 2 && suffix == [".request", ".result"][i]
    ensures
      var k := ComponentKeyOf(NameOf(e.0, e.1)) + suffix;
      ResolvesTo(AsyncApiOf(ctx), MessageRef(k), k)
  {
    hide AsyncApiOf, ResolvesTo, RequestPayload, ResultPayload, ParamsSchema, MethodResult, NameOf, ComponentKeyOf, Messages;
    var x := MethodMessages(ctx, e)[i];
    assert x in MethodMessages(ctx, e) && x.0 == ComponentKeyOf(NameOf(e.0, e.1)) + suffix;
    MessageFrom(ctx, x);
    MemberKey(NameOf(e.0, e.1), suffix);
    MessagePut(ctx, x);
  }

  lemma EventPut(ctx: Context, e: Entry, i: nat, suffix: string)
    requires e in DocEntries.EventEntriesOf(ctx.docs) && i < 3 && suffix == [".subscribe", ".subscribed", ".event"][i]
    ensures
      var k := ComponentKeyOf(NameOf(e.0, e.1)) + suffix;
      ResolvesTo(AsyncApiOf(ctx), MessageRef(k), k)
  {
    hide AsyncApiOf, ResolvesTo, RequestPayload, ResultPayload, NotificationPayload, EventData, NameOf, ComponentKeyOf, Messages;
    hide SubscribeParams, SubscribeReply, EventParams;
    var x := EventMessages(ctx, e)[i];
    assert x in EventMessages(ctx, e) && x.0 == ComponentKeyOf(NameOf(e.0, e.1)) + suffix;
    MessageFrom(ctx, x);
    MemberKey(NameOf(e.0, e.1), suffix);
    MessagePut(ctx, x);
  }

  lemma ReceiveResolves(d: Document, request: string, reply: string)
    requires ResolvesTo(d, MessageRef(request), request) && ResolvesTo(d, MessageRef(reply), reply)
    requires ResolvesTo(d, MessageRef(ERROR), ERROR)
    ensures OperationResolves(d, ReceiveWithReply(request, reply))
  {
    hide ResolvesTo, MessageRef;
  }

  lemma SendResolves(d: Document, key: string)
    requires ResolvesTo(d, MessageRef(key), key)
    ensures OperationResolves(d, SendOnly(key))
  {
    hide ResolvesTo, MessageRef;
  }

  lemma MethodOperationResolves(ctx: Context, e: Entry, x: (string, Operation))
    requires e in DocEntries.MethodEntriesOf(ctx.docs) && x in MethodOperations(e)
    ensures OperationResolves(AsyncApiOf(ctx), x.1)
  {
    hide AsyncApiOf, ResolvesTo, ReceiveWithReply, OperationResolves, NameOf, ComponentKeyOf;
    var key := ComponentKeyOf(NameOf(e.0, e.1));
    MethodPut(ctx, e, 0, ".request");
    MethodPut(ctx, e, 1, ".result");
    SharedPut(ctx);
    ReceiveResolves(AsyncApiOf(ctx), key + ".request", key + ".result");
  }

  lemma EventOperationResolves(ctx: Context, e: Entry, x: (string, Operation))
    requires e in DocEntries.EventEntriesOf(ctx.docs) && x in EventOperations(e)
    ensures OperationResolves(AsyncApiOf(ctx), x.1)
  {
    hide AsyncApiOf, ResolvesTo, ReceiveWithReply, SendOnly, OperationResolves, NameOf, ComponentKeyOf;
    var key := ComponentKeyOf(NameOf(e.0, e.1));
    EventPut(ctx, e, 0, ".subscribe");
    EventPut(ctx, e, 1, ".subscribed");
    EventPut(ctx, e, 2, ".event");
    SharedPut(ctx);
    ReceiveResolves(AsyncApiOf(ctx), key + ".subscribe", key + ".subscribed");
    SendResolves(AsyncApiOf(ctx), key + ".event");
  }

  lemma SharedOperationResolves(ctx: Context, x: (string, Operation))
    requires x in SharedOperations
    ensures OperationResolves(AsyncApiOf(ctx), x.1)
  {
    hide AsyncApiOf, ResolvesTo, ReceiveWithReply, SendOnly, OperationResolves;
    SharedPut(ctx);
    ReceiveResolves(AsyncApiOf(ctx), UNSUBSCRIBE, UNSUBSCRIBED);
    SendResolves(AsyncApiOf(ctx), TERMINATED);
  }

  lemma OperationsResolve(ctx: Context, o: string)
    requires o in AsyncApiOf(ctx).operations
    ensures OperationResolves(AsyncApiOf(ctx), AsyncApiOf(ctx).operations[o])
  {
    hide OperationResolves, SharedOperations, Operations, MethodOperations, EventOperations;
    OperationIn(ctx, o);
    hide AsyncApiOf;
    var x := (o, AsyncApiOf(ctx).operations[o]);
    OperationFrom(ctx, x);
    if x in SharedOperations {
      SharedOperationResolves(ctx, x);
    } else if exists e :: e in DocEntries.MethodEntriesOf(ctx.docs) && x in MethodOperations(e) {
      var e :| e in DocEntries.MethodEntriesOf(ctx.docs) && x in MethodOperations(e);
      MethodOperationResolves(ctx, e, x);
    } else {
      var e :| e in DocEntries.EventEntriesOf(ctx.docs) && x in EventOperations(e);
      EventOperationResolves(ctx, e, x);
    }
  }

  lemma OperationIn(ctx: Context, o: string)
    requires o in AsyncApiOf(ctx).operations
    ensures (o, AsyncApiOf(ctx).operations[o]) in Operations(ctx)
  {
    hide Operations, Messages, Components, AsyncComponents;
    PutKeeps(map[], Operations(ctx));
  }

  lemma MessageIn(ctx: Context, k: string)
    requires k in AsyncApiOf(ctx).messages
    ensures (k, AsyncApiOf(ctx).messages[k]) in Messages(ctx)
  {
    hide Operations, Messages, Components, AsyncComponents;
    PutKeeps(map[], Messages(ctx));
  }

  // ---------------------------------------------------------------------------
  // Components
  // ---------------------------------------------------------------------------

  lemma ObjectResolves(defs: map<string, Schema>, s: Schema, properties: seq<(string, Schema)>)
    requires s.Keywords? && s == Anything.(typ := s.typ, properties := Put(map[], properties), required := s.required,
                                           additionalProperties := s.additionalProperties)
    requires s.additionalProperties.None? || s.additionalProperties.value == Never
    requires forall p | p in properties :: Resolves(defs, p.1)
    ensures Resolves(defs, s) && !Refers(s)
  {
    PutKeeps(map[], properties);
    hide Put;
    forall k | k in s.properties ensures Resolves(defs, s.properties[k]) {
      assert (k, s.properties[k]) in properties;
    }
  }

  lemma OpenResolves(defs: map<string, Schema>, properties: seq<(string, Schema)>, required: seq<string>)
    requires forall p | p in properties :: Resolves(defs, p.1)
    ensures Resolves(defs, OpenObject(properties, required)) && !Refers(OpenObject(properties, required))
  {
    ObjectResolves(defs, OpenObject(properties, required), properties);
  }

  lemma ClosedResolves(defs: map<string, Schema>, properties: seq<(string, Schema)>, required: seq<string>)
    requires forall p | p in properties :: Resolves(defs, p.1)
    ensures Resolves(defs, ClosedObject(properties, required))
  {
    ObjectResolves(defs, ClosedObject(properties, required), properties);
  }

  lemma ErrorDataResolves(defs: map<string, Schema>)
    ensures Resolves(defs, ErrorDataSchema) && Resolves(defs, AnyText) && Resolves(defs, AnyInteger)
  {
    LeafResolves(defs, AnyText);
    LeafResolves(defs, AnyInteger);
    hide Resolves, OpenObject, AnyText, AnyInteger;
    OpenResolves(defs, [("reason", AnyText), ("path", AnyText)], ["reason"]);
    OpenResolves(defs, [("logos_error_code", AnyInteger), ("logos_error_name", AnyText), ("invalid_params_detail", ErrorDetailSchema)],
                 ["logos_error_code", "logos_error_name"]);
  }

  lemma ErrorResolves(defs: map<string, Schema>)
    ensures Resolves(defs, ErrorSchema) && !Refers(ErrorSchema)
  {
    hide Resolves, OpenObject, Refers, AnyText, AnyInteger, ErrorDataSchema;
    ErrorDataResolves(defs);
    OpenResolves(defs, [("code", AnyInteger), ("message", AnyText), ("data", ErrorDataSchema)], ["code", "message"]);
  }

  lemma NoParamsResolves(defs: map<string, Schema>)
    ensures Resolves(defs, NoParamsSchema) && !Refers(NoParamsSchema)
  {
    var (a, b) := (Anything.(typ := Some(TObject), maxProperties := Some(0)), Anything.(typ := Some(TArray), maxItems := Some(0)));
    LeafResolves(defs, a);
    LeafResolves(defs, b);
    AnyOfResolves(defs, a, b);
    hide Resolves;
    assert NoParamsSchema == Anything.(oneOf := [a, b]);
  }

  lemma OwnResolve(defs: map<string, Schema>, e: (string, Schema))
    requires e in OwnComponents
    ensures Resolves(defs, e.1) && !Refers(e.1)
  {
    hide Resolves, Refers, ErrorSchema, NoParamsSchema, StateSchema, CounterSchema, IdSchema, SubscriptionSchema;
    ErrorResolves(defs);
    NoParamsResolves(defs);
    PlainResolve(defs);
  }

  lemma PlainResolve(defs: map<string, Schema>)
    ensures forall s | s in [StateSchema, CounterSchema, IdSchema, SubscriptionSchema] :: Resolves(defs, s) && !Refers(s)
  {
    forall s | s in [StateSchema, CounterSchema, IdSchema, SubscriptionSchema] ensures Resolves(defs, s) && !Refers(s) {
      assert s == Anything.(typ := s.typ, minimum := s.minimum, allowed := s.allowed);
      LeafResolves(defs, s);
    }
  }

  lemma OwnKey(e: (string, Schema))
    requires e in OwnComponents
    ensures e.0 != "" && (forall c | c in e.0 :: KeyChar(c)) && '.' !in e.0 && e.0 !in SharedComponents
  {
    hide ErrorSchema, NoParamsSchema, StateSchema, CounterSchema, IdSchema, SubscriptionSchema;
    OwnName(e);
    forall k | k in SharedComponents ensures k != e.0 {
      SharedName(k);
      assert |e.0| == 17 ==> e.0[0] == 'S';
      assert |k| == 17 ==> k[0] == 'P';
    }
  }

  lemma SharedName(k: string)
    requires k in SharedComponents
    ensures (k == "Bytes" && |k| == 5) || (k == "LogosResult" && |k| == 11) || (k == "ProviderRejection" && |k| == 17)
  {
    SharedKey(k);
  }

  lemma OwnName(e: (string, Schema))
    requires e in OwnComponents
    ensures |e.0| !in {5, 11} && (|e.0| == 17 ==> e.0 == "SubscriptionState") && e.0 != ""
    ensures (forall c | c in e.0 :: KeyChar(c)) && '.' !in e.0
  {
    hide ErrorSchema, NoParamsSchema, StateSchema, CounterSchema, IdSchema, SubscriptionSchema;
  }

  lemma SharedResolve(defs: map<string, Schema>, k: string)
    requires k in SharedComponents
    ensures Resolves(defs, SharedComponents[k])
  {
    SharedName(k);
    FlatResolves(defs, BytesSchema);
    FlatResolves(defs, LogosResultSchema);
    FlatResolves(defs, ProviderRejectionSchema);
    hide Resolves, BytesSchema, LogosResultSchema, ProviderRejectionSchema;
  }

  /** An object whose properties lead nowhere. */
  lemma FlatResolves(defs: map<string, Schema>, s: Schema)
    requires s in [BytesSchema, LogosResultSchema, ProviderRejectionSchema]
    ensures Resolves(defs, s)
  {
    assert s == Anything.(typ := s.typ, properties := s.properties, required := s.required, additionalProperties := s.additionalProperties);
    forall k | k in s.properties ensures Resolves(defs, s.properties[k]) {
      var p := s.properties[k];
      assert p == Anything.(typ := p.typ, base64url := p.base64url);
      LeafResolves(defs, p);
    }
    AnythingResolves(defs);
  }

  /** The ten components are a document's start: no dots, keys that stay as they are, and no references. */
  lemma ComponentsShared()
    ensures Shared(AsyncComponents)
    ensures forall n | n in AsyncComponents :: Resolves(AsyncComponents, AsyncComponents[n])
  {
    hide Resolves, OwnComponents, SharedComponents, Refers;
    ComponentsBound();
    forall k | k in AsyncComponents
      ensures '.' !in k && ComponentKeyOf(k) == k && !Refers(AsyncComponents[k]) && Resolves(AsyncComponents, AsyncComponents[k]) {
      PutKeeps(SharedComponents, OwnComponents);
      KeysAreSafe(k);
      if k in SharedComponents {
        SharedKey(k);
        SharedResolve(AsyncComponents, k);
      } else {
        OwnKey((k, AsyncComponents[k]));
        OwnResolve(AsyncComponents, (k, AsyncComponents[k]));
      }
    }
  }

  lemma ComponentsBound()
    ensures SharedBound(AsyncComponents)
    ensures forall e | e in OwnComponents :: e.0 in AsyncComponents
  {
    hide OwnComponents, SharedComponents;
    PutKeeps(SharedComponents, OwnComponents);
    forall e | e in OwnComponents ensures e.0 !in SharedComponents {
      OwnKey(e);
    }
  }

  lemma SchemasResolve(ctx: Context, k: string)
    requires k in AsyncApiOf(ctx).schemas
    ensures Resolves(AsyncApiOf(ctx).schemas, AsyncApiOf(ctx).schemas[k]) && !Refers(AsyncApiOf(ctx).schemas[k])
  {
    hide Resolves, Shared, AsyncComponents, Components, Messages, Operations;
    ComponentsShared();
    ComponentsResolve(AsyncComponents, Typed(ctx, ctx.docs), k);
  }

  // ---------------------------------------------------------------------------
  // Payloads
  // ---------------------------------------------------------------------------

  lemma {:induction false} InTyped(ctx: Context, docs: seq<ModuleDoc>, m: ModuleDoc)
    requires m in docs && ctx.IsTyped(m)
    ensures ctx.Module(m) in Typed(ctx, docs)
  {
    var last := |docs| - 1;
    if docs[last] != m {
      InTyped(ctx, docs[..last], m);
    }
  }

  /** Every reference to one of the document's own components resolves. */
  ghost predicate OwnRefs(defs: map<string, Schema>) {
    && Resolves(defs, Ref("JsonRpcError")) && Resolves(defs, Ref("JsonRpcId")) && Resolves(defs, Ref("SubscriptionId"))
    && Resolves(defs, Ref("SubscriptionState")) && Resolves(defs, Ref("NoParams")) && Resolves(defs, Ref("EventGeneration"))
    && Resolves(defs, Ref("EventTimestamp"))
  }

  /** The components hold their own and every record a module's types can name. */
  lemma ModuleCovered(ctx: Context, m: ModuleDoc)
    requires m in ctx.docs
    ensures Covers(AsyncApiOf(ctx).schemas, ctx.ScopeFor(m))
  {
    hide Shared, AsyncComponents, Components, Messages, Operations;
    ComponentsShared();
    if ctx.IsTyped(m) {
      InTyped(ctx, ctx.docs, m);
      ContractCovered(AsyncComponents, Typed(ctx, ctx.docs), ctx.Module(m));
    } else {
      SharedKept(AsyncComponents, Typed(ctx, ctx.docs));
    }
  }

  lemma OwnCovered(ctx: Context)
    ensures OwnRefs(AsyncApiOf(ctx).schemas)
  {
    hide Shared, AsyncComponents, Components, Messages, Operations, Resolves, OwnComponents, OwnRefs;
    ComponentsShared();
    ComponentsBound();
    SharedKept(AsyncComponents, Typed(ctx, ctx.docs));
    forall e | e in OwnComponents ensures Resolves(AsyncApiOf(ctx).schemas, Ref(e.0)) {
      OwnKey(e);
      KeysAreSafe(e.0);
      RefResolves(AsyncApiOf(ctx).schemas, e.0);
    }
    OwnAll(AsyncApiOf(ctx).schemas);
  }

  lemma OwnAll(defs: map<string, Schema>)
    requires forall e | e in OwnComponents :: Resolves(defs, Ref(e.0))
    ensures OwnRefs(defs)
  {
    hide Resolves, Ref, ErrorSchema, NoParamsSchema, StateSchema, CounterSchema, IdSchema, SubscriptionSchema;
    var own := OwnComponents;
    assert own[0] in own && own[1] in own && own[2] in own && own[3] in own && own[4] in own && own[5] in own && own[6] in own;
  }

  lemma ConstResolves(defs: map<string, Schema>, s: string)
    ensures Resolves(defs, Const(s)) && Resolves(defs, AnyText)
  {
    LeafResolves(defs, Const(s));
    LeafResolves(defs, AnyText);
  }

  lemma RequestResolves(defs: map<string, Schema>, name: string, params: Schema, needed: bool)
    requires OwnRefs(defs) && Resolves(defs, params)
    ensures Resolves(defs, RequestPayload(name, params, needed))
  {
    hide Resolves, Const, Ref, ClosedObject;
    ConstResolves(defs, "2.0");
    ConstResolves(defs, name);
    ClosedResolves(defs, [("jsonrpc", Const("2.0")), ("id", Ref("JsonRpcId")), ("method", Const(name)), ("params", params)],
                   ["jsonrpc", "id", "method"] + if needed then ["params"] else []);
  }

  lemma ResultResolves(defs: map<string, Schema>, result: Schema)
    requires OwnRefs(defs) && Resolves(defs, result)
    ensures Resolves(defs, ResultPayload(result))
  {
    hide Resolves, Const, Ref, ClosedObject;
    ConstResolves(defs, "2.0");
    ClosedResolves(defs, [("jsonrpc", Const("2.0")), ("id", Ref("JsonRpcId")), ("result", result)], ["jsonrpc", "id", "result"]);
  }

  lemma NotificationResolves(defs: map<string, Schema>, name: string, params: Schema)
    requires Resolves(defs, params)
    ensures Resolves(defs, NotificationPayload(name, params))
  {
    hide Resolves, Const, ClosedObject;
    ConstResolves(defs, "2.0");
    ConstResolves(defs, name);
    ClosedResolves(defs, [("jsonrpc", Const("2.0")), ("method", Const(name)), ("params", params)], ["jsonrpc", "method", "params"]);
  }

  lemma ErrorPayloadResolves(defs: map<string, Schema>)
    requires OwnRefs(defs)
    ensures Resolves(defs, ErrorPayload)
  {
    hide Resolves, Const, Ref, ClosedObject;
    ConstResolves(defs, "2.0");
    ClosedResolves(defs, [("jsonrpc", Const("2.0")), ("id", Ref("JsonRpcId")), ("error", Ref("JsonRpcError"))], ["jsonrpc", "id", "error"]);
  }

  lemma ParamsSchemaResolves(defs: map<string, Schema>, scope: Scope, decl: Option<MethodDecl>)
    requires OwnRefs(defs) && Covers(defs, scope)
    ensures Resolves(defs, ParamsSchema(decl, scope))
  {
    AnythingResolves(defs);
    hide Resolves, Covers, Ref;
    if decl.Some? && decl.value.params != [] {
      ParamsResolve(defs, scope, decl.value.params);
      TupleResolves(defs, scope, decl.value.params, Draft07);
      AnyOfResolves(defs, ParamsObjectOf(decl.value.params, scope), ParamsTupleOf(decl.value.params, scope, Draft07));
    }
  }

  lemma MethodResultResolves(defs: map<string, Schema>, scope: Scope, decl: Option<MethodDecl>)
    requires Covers(defs, scope)
    ensures Resolves(defs, MethodResult(decl, scope))
  {
    AnythingResolves(defs);
    hide Resolves;
    if decl.Some? {
      ReturnResolves(defs, scope, decl.value.result);
      WrappedResolve(defs, ReturnSchema(decl.value.result, scope), "");
    }
  }

  lemma ReturnResolves(defs: map<string, Schema>, scope: Scope, result: Option<Slot>)
    requires Covers(defs, scope)
    ensures Resolves(defs, ReturnSchema(result, scope))
  {
    LeafResolves(defs, Anything.(allowed := Some([JBool(true)])));
    hide Resolves;
    if Returns(result) {
      SlotsResolve(defs, scope, result.value);
    }
  }

  lemma EventDataResolves(defs: map<string, Schema>, scope: Scope, decl: Option<EventDecl>)
    requires Covers(defs, scope)
    ensures Resolves(defs, EventData(decl, scope))
  {
    AnythingResolves(defs);
    hide Resolves, Covers, Describe;
    if decl.Some? {
      TupleResolves(defs, scope, decl.value.params, Draft07);
    }
    DescribedResolves(defs, if decl.Some? then ParamsTupleOf(decl.value.params, scope, Draft07) else Anything,
                      "The event's parameters, by position.");
  }

  lemma SubscribeResolves(defs: map<string, Schema>, m: string, ev: string)
    requires OwnRefs(defs)
    ensures Resolves(defs, SubscribeParams(m, ev)) && Resolves(defs, SubscribeReply(m, ev))
  {
    hide Resolves, Const, Ref, ClosedObject;
    ConstResolves(defs, m);
    ConstResolves(defs, ev);
    ConstResolves(defs, "subscribe");
    ClosedResolves(defs, [("subscription", Ref("SubscriptionId")), ("module", Const(m)), ("event", Const(ev))],
                   ["subscription", "module", "event"]);
    ClosedResolves(defs, [("subscription", Ref("SubscriptionId")), ("operation", Const("subscribe")), ("module", Const(m)),
                          ("event", Const(ev)), ("state", Ref("SubscriptionState"))],
                   ["subscription", "operation", "module", "event", "state"]);
  }

  lemma EventParamsResolve(defs: map<string, Schema>, m: string, ev: string, data: Schema)
    requires OwnRefs(defs) && Resolves(defs, data)
    ensures Resolves(defs, EventParams(m, ev, data))
  {
    hide Resolves, Const, Ref, ClosedObject;
    ConstResolves(defs, m);
    ConstResolves(defs, ev);
    ClosedResolves(defs, [("subscription", Ref("SubscriptionId")), ("module", Const(m)), ("event", Const(ev)), ("data", data),
                          ("generation", Ref("EventGeneration")), ("ts", Ref("EventTimestamp"))],
                   ["subscription", "module", "event", "data", "generation", "ts"]);
  }

  lemma EndingResolves(defs: map<string, Schema>)
    requires OwnRefs(defs)
    ensures Resolves(defs, UnsubscribeParams) && Resolves(defs, UnsubscribeReply) && Resolves(defs, TerminatedParams)
  {
    hide Resolves, Const, Ref, ClosedObject, AnyText;
    ConstResolves(defs, "unsubscribe");
    ClosedResolves(defs, [("subscription", Ref("SubscriptionId"))], ["subscription"]);
    ClosedResolves(defs, [("subscription", Ref("SubscriptionId")), ("operation", Const("unsubscribe"))], ["subscription", "operation"]);
    ClosedResolves(defs, [("subscription", Ref("SubscriptionId")), ("module", AnyText), ("event", AnyText), ("reason", AnyText)],
                   ["subscription", "module", "event", "reason"]);
  }

  ghost predicate Carried(defs: map<string, Schema>, x: (string, Message)) {
    x.1.key == x.0 && Resolves(defs, x.1.payload) && x.1.correlation in [CORRELATIONS + BY_REQUEST, CORRELATIONS + BY_SUBSCRIPTION]
  }

  lemma MethodCarried(ctx: Context, e: Entry, x: (string, Message))
    requires e.0 in ctx.docs && x in MethodMessages(ctx, e)
    ensures Carried(AsyncApiOf(ctx).schemas, x)
  {
    hide AsyncApiOf, Resolves, ParamsSchema, MethodResult, RequestPayload, ResultPayload, NameOf, ComponentKeyOf, OwnRefs, Covers;
    var (defs, name, decl, scope) := (AsyncApiOf(ctx).schemas, NameOf(e.0, e.1), ctx.MethodDeclOf(e.0, e.1), ctx.ScopeFor(e.0));
    OwnCovered(ctx);
    ModuleCovered(ctx, e.0);
    ParamsSchemaResolves(defs, scope, decl);
    MethodResultResolves(defs, scope, decl);
    RequestResolves(defs, name, ParamsSchema(decl, scope), ParamsNeeded(decl));
    ResultResolves(defs, MethodResult(decl, scope));
  }

  lemma EventCarried(ctx: Context, e: Entry, x: (string, Message))
    requires e.0 in ctx.docs && x in EventMessages(ctx, e)
    ensures Carried(AsyncApiOf(ctx).schemas, x)
  {
    hide AsyncApiOf, Resolves, EventData, SubscribeParams, SubscribeReply, EventParams, RequestPayload, ResultPayload;
    hide NotificationPayload, NameOf, ComponentKeyOf, OwnRefs, Covers, Safe;
    var (defs, m, ev) := (AsyncApiOf(ctx).schemas, Safe(e.0.name), Safe(e.1));
    var data := EventData(ctx.EventDeclOf(e.0, e.1), ctx.ScopeFor(e.0));
    OwnCovered(ctx);
    ModuleCovered(ctx, e.0);
    EventDataResolves(defs, ctx.ScopeFor(e.0), ctx.EventDeclOf(e.0, e.1));
    SubscribeResolves(defs, m, ev);
    EventParamsResolve(defs, m, ev, data);
    RequestResolves(defs, "rpc.subscribe", SubscribeParams(m, ev), true);
    ResultResolves(defs, SubscribeReply(m, ev));
    NotificationResolves(defs, "rpc.event", EventParams(m, ev, data));
  }

  lemma SharedCarried(ctx: Context, x: (string, Message))
    requires x in SharedMessages
    ensures Carried(AsyncApiOf(ctx).schemas, x)
  {
    hide AsyncApiOf, Resolves, RequestPayload, ResultPayload, NotificationPayload, ErrorPayload, OwnRefs;
    hide UnsubscribeParams, UnsubscribeReply, TerminatedParams;
    var defs := AsyncApiOf(ctx).schemas;
    OwnCovered(ctx);
    EndingResolves(defs);
    ErrorPayloadResolves(defs);
    RequestResolves(defs, UNSUBSCRIBE, UnsubscribeParams, true);
    ResultResolves(defs, UnsubscribeReply);
    NotificationResolves(defs, TERMINATED, TerminatedParams);
  }

  lemma MessagesResolve(ctx: Context, k: string)
    requires k in AsyncApiOf(ctx).messages
    ensures AsyncApiOf(ctx).messages[k].key == k && MessageResolves(AsyncApiOf(ctx), AsyncApiOf(ctx).messages[k])
  {
    hide AsyncApiOf, Messages, SharedMessages, MethodMessages, EventMessages, Carried, MessageResolves;
    MessageIn(ctx, k);
    var x := (k, AsyncApiOf(ctx).messages[k]);
    MessageFrom(ctx, x);
    if x in SharedMessages {
      SharedCarried(ctx, x);
    } else if exists e :: e in DocEntries.MethodEntriesOf(ctx.docs) && x in MethodMessages(ctx, e) {
      var e :| e in DocEntries.MethodEntriesOf(ctx.docs) && x in MethodMessages(ctx, e);
      DocEntries.ListedMethods(ctx.docs, e.0, e.1);
      MethodCarried(ctx, e, x);
    } else {
      var e :| e in DocEntries.EventEntriesOf(ctx.docs) && x in EventMessages(ctx, e);
      DocEntries.ListedEvents(ctx.docs, e.0, e.1);
      EventCarried(ctx, e, x);
    }
    CarriedResolves(ctx, x);
  }

  lemma CarriedResolves(ctx: Context, x: (string, Message))
    requires Carried(AsyncApiOf(ctx).schemas, x)
    ensures x.1.key == x.0 && MessageResolves(AsyncApiOf(ctx), x.1)
  {
    hide Messages, Operations, Components, AsyncComponents, Resolves;
    assert BY_REQUEST in AsyncApiOf(ctx).correlations && BY_SUBSCRIPTION in AsyncApiOf(ctx).correlations;
  }

  /** Every reference of the document, in its operations, its messages' payloads and its schema components,
      stands alone and resolves within it, whatever names and records the modules use; and following
      references between components always ends. */
  lemma DocumentResolves(ctx: Context)
    ensures
      var d := AsyncApiOf(ctx);
      && (forall o | o in d.operations :: OperationResolves(d, d.operations[o]))
      && (forall k | k in d.messages :: d.messages[k].key == k && MessageResolves(d, d.messages[k]))
      && (forall k | k in d.schemas :: Resolves(d.schemas, d.schemas[k]) && !Refers(d.schemas[k]))
  {
    var d := AsyncApiOf(ctx);
    hide AsyncApiOf, Resolves, OperationResolves, MessageResolves, AsyncComponents;
    forall o | o in d.operations ensures OperationResolves(d, d.operations[o]) {
      OperationsResolve(ctx, o);
    }
    forall k | k in d.messages ensures d.messages[k].key == k && MessageResolves(d, d.messages[k]) {
      MessagesResolve(ctx, k);
    }
    forall k | k in d.schemas ensures Resolves(d.schemas, d.schemas[k]) && !Refers(d.schemas[k]) {
      SchemasResolve(ctx, k);
    }
  }

  // ---------------------------------------------------------------------------
  // What is listed is documented
  // ---------------------------------------------------------------------------

  ghost predicate Alone<V>(entries: seq<(string, V)>, x: (string, V)) {
    forall z | z in entries && z.0 == x.0 :: z == x
  }

  ghost predicate Documented(ctx: Context, messages: seq<(string, Message)>, operations: seq<(string, Operation)>) {
    var d := AsyncApiOf(ctx);
    && (forall x | x in messages :: x.0 in d.messages && (Alone(Messages(ctx), x) ==> d.messages[x.0] == x.1))
    && (forall y | y in operations :: y.0 in d.operations && (Alone(Operations(ctx), y) ==> d.operations[y.0] == y.1))
  }

  lemma PutDocumented(ctx: Context, messages: seq<(string, Message)>, operations: seq<(string, Operation)>)
    requires (forall x | x in messages :: x in Messages(ctx)) && (forall y | y in operations :: y in Operations(ctx))
    ensures Documented(ctx, messages, operations)
  {
    hide Put, Messages, Operations, Components, AsyncComponents;
    PutKeeps(map[], Messages(ctx));
    PutKeeps(map[], Operations(ctx));
  }

  /** Each listed method and event has its messages and operations in the document under their keys; they are
      its own where no other entry has the same key. */
  lemma ListedDocumented(ctx: Context, e: Entry)
    ensures e in DocEntries.MethodEntriesOf(ctx.docs) ==> Documented(ctx, MethodMessages(ctx, e), MethodOperations(e))
    ensures e in DocEntries.EventEntriesOf(ctx.docs) ==> Documented(ctx, EventMessages(ctx, e), EventOperations(e))
  {
    hide Documented, Messages, Operations, MethodMessages, MethodOperations, EventMessages, EventOperations;
    forall x { MessageFrom(ctx, x); }
    forall y { OperationFrom(ctx, y); }
    if e in DocEntries.MethodEntriesOf(ctx.docs) {
      PutDocumented(ctx, MethodMessages(ctx, e), MethodOperations(e));
    }
    if e in DocEntries.EventEntriesOf(ctx.docs) {
      PutDocumented(ctx, EventMessages(ctx, e), EventOperations(e));
    }
  }

  // ---------------------------------------------------------------------------
  // What a request's parameters may be
  // ---------------------------------------------------------------------------

  lemma OneOfValid(defs: map<string, Schema>, a: Schema, b: Schema, v: Json)
    ensures
      Valid(defs, Draft07, Anything.(oneOf := [a, b]), v) <==> (Valid(defs, Draft07, a, v) <==> !Valid(defs, Draft07, b, v))
  {
    var s := Anything.(oneOf := [a, b]);
    OneOfSome(defs, s, v);
    OnlyValid(defs, s, v);
    hide Valid, ValidOnly;
    assert s.oneOf[0] == a && s.oneOf[1] == b;
  }

  lemma OneOfSome(defs: map<string, Schema>, s: Schema, v: Json)
    requires s.Keywords? && s == Anything.(oneOf := s.oneOf) && s.oneOf != []
    ensures Valid(defs, Draft07, s, v) <==> exists i | 0 <= i < |s.oneOf| :: ValidOnly(defs, Draft07, s, i, v)
  {
    if v.JArr? {
      ElementsValid(defs, Draft07, s, v);
    }
    if Valid(defs, Draft07, s, v) {
      assert ValidKeywords(defs, Draft07, s, v);
      assert s.oneOf != [] ==> exists i | 0 <= i < |s.oneOf| :: ValidOnly(defs, Draft07, s, i, v);
    } else {
      assert !ValidKeywords(defs, Draft07, s, v);
    }
  }

  lemma OnlyValid(defs: map<string, Schema>, s: Schema, v: Json)
    requires s.Keywords? && |s.oneOf| == 2
    ensures ValidOnly(defs, Draft07, s, 0, v) <==> Valid(defs, Draft07, s.oneOf[0], v) && !Valid(defs, Draft07, s.oneOf[1], v)
    ensures ValidOnly(defs, Draft07, s, 1, v) <==> Valid(defs, Draft07, s.oneOf[1], v) && !Valid(defs, Draft07, s.oneOf[0], v)
  {
    hide Valid;
  }

  /** The documented parameters are the by-name object or the positional array, never both; a method without
      parameters takes exactly {} and []. */
  lemma ParamsAccept(defs: map<string, Schema>, scope: Scope, params: seq<Slot>, v: Json)
    ensures Valid(defs, Draft07, NoParamsSchema, v) <==> v == JObj(map[]) || v == JArr([])
    ensures
      Valid(defs, Draft07, Anything.(oneOf := [ParamsObjectOf(params, scope), ParamsTupleOf(params, scope, Draft07)]), v) <==>
      Valid(defs, Draft07, ParamsObjectOf(params, scope), v) || Valid(defs, Draft07, ParamsTupleOf(params, scope, Draft07), v)
  {
    NoParamsAccept(defs, v);
    OneOfValid(defs, ParamsObjectOf(params, scope), ParamsTupleOf(params, scope, Draft07), v);
    TypesApart(defs, ParamsObjectOf(params, scope), ParamsTupleOf(params, scope, Draft07), v);
    hide Valid;
  }

  lemma TypesApart(defs: map<string, Schema>, a: Schema, b: Schema, v: Json)
    requires a.Keywords? && b.Keywords? && a.ref.None? && b.ref.None? && a.typ == Some(TObject) && b.typ == Some(TArray)
    ensures !(Valid(defs, Draft07, a, v) && Valid(defs, Draft07, b, v))
  {
  }

  lemma NoParamsAccept(defs: map<string, Schema>, v: Json)
    ensures Valid(defs, Draft07, NoParamsSchema, v) <==> v == JObj(map[]) || v == JArr([])
  {
    var (a, b) := (Anything.(typ := Some(TObject), maxProperties := Some(0)), Anything.(typ := Some(TArray), maxItems := Some(0)));
    OneOfValid(defs, a, b, v);
    EmptyValid(defs, v);
    hide Valid;
    assert NoParamsSchema == Anything.(oneOf := [a, b]);
  }

  lemma EmptyValid(defs: map<string, Schema>, v: Json)
    ensures Valid(defs, Draft07, Anything.(typ := Some(TObject), maxProperties := Some(0)), v) <==> v == JObj(map[])
    ensures Valid(defs, Draft07, Anything.(typ := Some(TArray), maxItems := Some(0)), v) <==> v == JArr([])
  {
    if v.JObj? && |v.o| == 0 {
      assert v.o == map[];
    }
  }
}
