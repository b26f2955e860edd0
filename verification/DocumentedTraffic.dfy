/** A whole AsyncAPI document against the bridge: what each listed member's messages admit, that the bridge takes
    the requests so described, and that what it answers is as described. */
module DocumentedTraffic {
  import opened Prelude
  import opened JsonSchemas
  import opened SchemaCompilers
  import opened SchemaTheorems
  import opened SchemaDocuments
  import opened DocPublishers
  import opened AsyncApis
  import opened AsyncPayloads
  import BridgeConfigs
  import Dispatchers
  import DocEntries
  import Handlers
  import ModuleViews
  import Translations
  import Utf8s

  // ---------------------------------------------------------------------------
  // What a member's messages admit
  // ---------------------------------------------------------------------------

  ghost predicate Owned(ctx: Context, messages: seq<(string, Message)>, operations: seq<(string, Operation)>) {
    (forall x | x in messages :: Alone(Messages(ctx), x)) && (forall y | y in operations :: Alone(Operations(ctx), y))
  }

  /** No other entry has this one's keys. */
  ghost predicate OwnMethod(ctx: Context, e: Entry) {
    e in DocEntries.MethodEntriesOf(ctx.docs) && Owned(ctx, MethodMessages(ctx, e), MethodOperations(e))
  }

  ghost predicate OwnEvent(ctx: Context, e: Entry) {
    e in DocEntries.EventEntriesOf(ctx.docs) && Owned(ctx, EventMessages(ctx, e), EventOperations(e))
  }

  /** The channel's message under the key admits the value. */
  ghost predicate Admits(d: Document, key: string, v: Json) {
    key in d.messages && Valid(d.schemas, Draft07, d.messages[key].payload, v)
  }

  /** The channel has the message, correlated by that id. */
  ghost predicate Carries(d: Document, key: string, correlation: string) {
    && key in d.channel && d.channel[key] == "#/components/messages/" + key
    && key in d.messages && d.messages[key].correlation == "#/components/correlationIds/" + correlation
  }

  /** The operation takes the request and answers with the reply or an error. */
  ghost predicate Receives(d: Document, operation: string, request: string, reply: string) {
    operation in d.operations &&
    d.operations[operation] ==
    Operation(true, ["#/channels/ws/messages/" + request],
              ["#/channels/ws/messages/" + reply, "#/channels/ws/messages/rpc.error"])
  }

  ghost predicate Sends(d: Document, operation: string, notification: string) {
    operation in d.operations && d.operations[operation] == Operation(false, ["#/channels/ws/messages/" + notification], [])
  }

  lemma OwnMessage(ctx: Context, x: (string, Message), payload: Schema, correlation: string)
    requires x in Messages(ctx) && Alone(Messages(ctx), x) && x == Named(x.0, payload, correlation)
    ensures Carries(AsyncApiOf(ctx), x.0, correlation) && AsyncApiOf(ctx).messages[x.0].payload == payload
  {
    PutKeeps(map[], Messages(ctx));
    hide Put, Messages, Operations, Components, AsyncComponents;
  }

  lemma OwnOperation(ctx: Context, y: (string, Operation))
    requires y in Operations(ctx) && Alone(Operations(ctx), y)
    ensures y.0 in AsyncApiOf(ctx).operations && AsyncApiOf(ctx).operations[y.0] == y.1
  {
    PutKeeps(map[], Operations(ctx));
    hide Put, Messages, Operations, Components, AsyncComponents;
  }

  /** Parameters a method takes: none, or its declared ones by name or in order; any where nothing is declared. */
  ghost predicate TakesParams(defs: map<string, Schema>, decl: Option<MethodDecl>, scope: Scope, p: Option<Json>) {
    match decl
    case None => true
    case Some(m) =>
      if m.params == [] then p.None? || p.value == JObj(map[]) || p.value == JArr([])
      else
        p.Some? && (Valid(defs, Draft07, ParamsObjectOf(m.params, scope), p.value) ||
                    Valid(defs, Draft07, ParamsTupleOf(m.params, scope, Draft07), p.value))
  }

  ghost predicate IsCallOf(defs: map<string, Schema>, ctx: Context, e: Entry, v: Json) {
    && v == MakeRequest(Get(v, "id"), NameOf(e.0, e.1), Find(v, "params")) && Dispatchers.IsId(Get(v, "id"))
    && TakesParams(defs, ctx.MethodDeclOf(e.0, e.1), ctx.ScopeFor(e.0), Find(v, "params"))
  }

  /** What a method answers with: its declared result, `true` where it has none, or the provider's refusal. */
  ghost predicate GivesResult(defs: map<string, Schema>, decl: Option<MethodDecl>, scope: Scope, v: Json) {
    match decl
    case None => true
    case Some(m) =>
      || IsRejection(v)
      || if Returns(m.result) then Valid(defs, Draft07, SlotSchema(m.result.value, scope), v) else v == JBool(true)
  }

  lemma AnyValid(defs: map<string, Schema>, v: Json)
    ensures Valid(defs, Draft07, Anything, v)
  {
    AnythingValid(defs, Draft07, v, map[]);
  }

  lemma ParamsMeaning(defs: map<string, Schema>, decl: Option<MethodDecl>, scope: Scope, p: Option<Json>)
    requires OwnBound(defs)
    ensures
      (if p.Some? then Valid(defs, Draft07, ParamsSchema(decl, scope), p.value) else !ParamsNeeded(decl)) <==>
      TakesParams(defs, decl, scope, p)
  {
    if p.Some? {
      AnyValid(defs, p.value);
      NoParamsValid(defs, p.value);
      if decl.Some? {
        ParamsAccept(defs, scope, decl.value.params, p.value);
      }
    }
    hide Valid, OwnBound, ParamsObjectOf, ParamsTupleOf, Ref;
  }

  lemma ResultMeaning(defs: map<string, Schema>, decl: Option<MethodDecl>, scope: Scope, v: Json)
    requires SharedBound(defs)
    ensures Valid(defs, Draft07, MethodResult(decl, scope), v) <==> GivesResult(defs, decl, scope, v)
  {
    AnyValid(defs, v);
    if decl.Some? {
      var s := ReturnSchema(decl.value.result, scope);
      EitherValid(defs, Draft07, s, Ref("ProviderRejection"), v);
      RefusalValid(defs, v);
      TrueValid(defs, v);
    }
    hide Valid, SharedBound, Ref, SlotSchema, IsRejection;
  }

  lemma TrueValid(defs: map<string, Schema>, v: Json)
    ensures Valid(defs, Draft07, Anything.(allowed := Some([JBool(true)])), v) <==> v == JBool(true)
  {
  }

  lemma RefusalValid(defs: map<string, Schema>, v: Json)
    requires SharedBound(defs)
    ensures Valid(defs, Draft07, Ref("ProviderRejection"), v) <==> IsRejection(v)
  {
    assert "ProviderRejection" in SharedComponents;
    SharedKey("ProviderRejection");
    KeysAreSafe("ProviderRejection");
    SchemaTheorems.RefValid(defs, Draft07, "ProviderRejection", v);
    RejectionValid(defs, Draft07, v);
    hide Valid, IsRejection, KeyChar;
  }

  // ---------------------------------------------------------------------------
  // Members
  // ---------------------------------------------------------------------------

  lemma MethodEntry(ctx: Context, e: Entry, i: nat)
    requires OwnMethod(ctx, e) && i < 2
    ensures MethodMessages(ctx, e)[i] in Messages(ctx) && Alone(Messages(ctx), MethodMessages(ctx, e)[i])
  {
    hide MethodMessages, MethodOperations, Messages, Operations;
    MethodCount(ctx, e);
    MessageFrom(ctx, MethodMessages(ctx, e)[i]);
  }

  lemma MethodCount(ctx: Context, e: Entry)
    ensures |MethodMessages(ctx, e)| == 2 && |MethodOperations(e)| == 1
  {
    hide RequestPayload, ResultPayload, ParamsSchema, MethodResult, NameOf, ComponentKeyOf;
  }

  lemma MethodOperates(ctx: Context, e: Entry)
    requires OwnMethod(ctx, e)
    ensures var key := ComponentKeyOf(NameOf(e.0, e.1)); Receives(AsyncApiOf(ctx), key, key + ".request", key + ".result")
  {
    hide MethodMessages, Messages, Operations, AsyncApiOf, NameOf, ComponentKeyOf;
    var y := MethodOperations(e)[0];
    assert y in MethodOperations(e);
    OperationFrom(ctx, y);
    OwnOperation(ctx, y);
    ErrorRef();
  }

  lemma ErrorRef()
    ensures MessageRef(ERROR) == "#/channels/ws/messages/rpc.error"
  {
  }

  /** A request message admits exactly the calls of its method, with the parameters it declares. */
  lemma RequestDocumented(ctx: Context, e: Entry, v: Json)
    requires OwnMethod(ctx, e)
    ensures
      var (d, key) := (AsyncApiOf(ctx), ComponentKeyOf(NameOf(e.0, e.1)) + ".request");
      Carries(d, key, "requestId") && (Admits(d, key, v) <==> IsCallOf(d.schemas, ctx, e, v))
  {
    var (name, decl, scope) := (NameOf(e.0, e.1), ctx.MethodDeclOf(e.0, e.1), ctx.ScopeFor(e.0));
    var payload := RequestPayload(name, ParamsSchema(decl, scope), ParamsNeeded(decl));
    MethodEntry(ctx, e, 0);
    ComponentsStand(ctx);
    MethodRequest(ctx, e);
    OwnMessage(ctx, MethodMessages(ctx, e)[0], payload, "requestId");
    var defs := AsyncApiOf(ctx).schemas;
    RequestExactly(defs, name, ParamsSchema(decl, scope), ParamsNeeded(decl), v);
    ParamsMeaning(defs, decl, scope, Find(v, "params"));
    FindGet(v);
    hide Valid, OwnBound, AsyncApiOf, Messages, MethodMessages, MethodOperations, ParamsSchema, ParamsNeeded;
    hide RequestPayload, NameOf;
    hide ComponentKeyOf, MakeRequest, TakesParams, OwnMethod, Alone, Get, Find;
  }

  lemma FindGet(v: Json)
    ensures Find(v, "params").Some? ==> Find(v, "params").value == Get(v, "params")
  {
  }

  lemma MethodRequest(ctx: Context, e: Entry)
    ensures
      var (name, decl, scope) := (NameOf(e.0, e.1), ctx.MethodDeclOf(e.0, e.1), ctx.ScopeFor(e.0));
      |MethodMessages(ctx, e)| == 2 &&
      MethodMessages(ctx, e)[0] ==
      Named(ComponentKeyOf(name) + ".request", RequestPayload(name, ParamsSchema(decl, scope), ParamsNeeded(decl)),
        "requestId")
  {
    hide RequestPayload, ResultPayload, ParamsSchema, ParamsNeeded, MethodResult, NameOf, ComponentKeyOf;
  }

  lemma MethodReply(ctx: Context, e: Entry)
    ensures
      var (name, decl, scope) := (NameOf(e.0, e.1), ctx.MethodDeclOf(e.0, e.1), ctx.ScopeFor(e.0));
      |MethodMessages(ctx, e)| == 2 &&
      MethodMessages(ctx, e)[1] == Named(ComponentKeyOf(name) + ".result", ResultPayload(MethodResult(decl, scope)),
        "requestId")
  {
    hide RequestPayload, ResultPayload, ParamsSchema, ParamsNeeded, MethodResult, NameOf, ComponentKeyOf;
  }

  /** And a result message exactly the replies to them. */
  lemma ResultDocumented(ctx: Context, e: Entry, v: Json)
    requires OwnMethod(ctx, e)
    ensures
      var (d, key) := (AsyncApiOf(ctx), ComponentKeyOf(NameOf(e.0, e.1)) + ".result");
      Carries(d, key, "requestId") &&
      (Admits(d, key, v) <==>
       && v == MakeResult(Get(v, "id"), Get(v, "result")) && Dispatchers.IsId(Get(v, "id"))
       && GivesResult(d.schemas, ctx.MethodDeclOf(e.0, e.1), ctx.ScopeFor(e.0), Get(v, "result")))
  {
    var (decl, scope) := (ctx.MethodDeclOf(e.0, e.1), ctx.ScopeFor(e.0));
    MethodEntry(ctx, e, 1);
    ComponentsStand(ctx);
    SharedStand(ctx);
    MethodReply(ctx, e);
    OwnMessage(ctx, MethodMessages(ctx, e)[1], ResultPayload(MethodResult(decl, scope)), "requestId");
    var defs := AsyncApiOf(ctx).schemas;
    ResultExactly(defs, MethodResult(decl, scope), v);
    ResultMeaning(defs, decl, scope, Get(v, "result"));
    hide Valid, OwnBound, AsyncApiOf, Messages, MethodMessages, MethodOperations, MethodResult, ResultPayload, NameOf;
    hide SharedBound;
    hide ComponentKeyOf, MakeResult, GivesResult, OwnMethod, Alone, Get;
  }

  lemma SharedStand(ctx: Context)
    ensures SharedBound(AsyncApiOf(ctx).schemas)
  {
    ComponentsShared();
    SharedKept(AsyncComponents, Typed(ctx, ctx.docs));
    hide AsyncComponents, Components, Messages, Operations, Shared, SharedBound;
  }

  // ---------------------------------------------------------------------------
  // Events
  // ---------------------------------------------------------------------------

  /** An event's data: its declared parameters in order; anything where nothing is declared. */
  ghost predicate IsData(defs: map<string, Schema>, decl: Option<EventDecl>, scope: Scope, x: Json) {
    match decl
    case None => true
    case Some(ev) =>
      var items := SlotSchemas(ev.params, scope);
      x.JArr? && |x.a| == |items| && forall i | 0 <= i < |items| :: Valid(defs, Draft07, items[i], x.a[i])
  }

  lemma DataMeaning(defs: map<string, Schema>, decl: Option<EventDecl>, scope: Scope, x: Json)
    ensures Valid(defs, Draft07, EventData(decl, scope), x) <==> IsData(defs, decl, scope, x)
  {
    var s := if decl.Some? then ParamsTupleOf(decl.value.params, scope, Draft07) else Anything;
    NotesIgnored(defs, s, "The event's parameters, by position.", x);
    AnyValid(defs, x);
    if decl.Some? {
      Translations.TupleValid(defs, Draft07, SlotSchemas(decl.value.params, scope), x);
    }
    hide Valid, SlotSchemas, Describe, Tuple;
  }

  lemma NotesIgnored(defs: map<string, Schema>, s: Schema, text: string, x: Json)
    requires s.Keywords? && s.ref.None? && s.anyOf == [] && s.allOf == [] && s.oneOf == []
    ensures Valid(defs, Draft07, Describe(s, text), x) <==> Valid(defs, Draft07, s, x)
  {
    var t := Describe(s, text);
    assert t.Keywords? && t.ref.None? && t == s.(notes := t.notes);
    hide Describe;
    if x.JArr? {
      forall i | 0 <= i < |x.a| ensures ValidElement(defs, Draft07, t, i, x.a[i]) <==>
        ValidElement(defs, Draft07, s, i, x.a[i]) {
      }
    }
    hide ValidElement;
    assert ValidKeywords(defs, Draft07, t, x) <==> ValidKeywords(defs, Draft07, s, x);
  }

  lemma EventEntry(ctx: Context, e: Entry, i: nat)
    requires OwnEvent(ctx, e) && i < 3
    ensures |EventMessages(ctx, e)| == 3 && EventMessages(ctx, e)[i] in Messages(ctx) &&
      Alone(Messages(ctx), EventMessages(ctx, e)[i])
  {
    hide EventMessages, EventOperations, Messages, Operations;
    EventCount(ctx, e);
    MessageFrom(ctx, EventMessages(ctx, e)[i]);
  }

  lemma EventCount(ctx: Context, e: Entry)
    ensures |EventMessages(ctx, e)| == 3 && |EventOperations(e)| == 2
    ensures
      var (m, ev, key) := (Safe(e.0.name), Safe(e.1), ComponentKeyOf(NameOf(e.0, e.1)));
      var data := EventData(ctx.EventDeclOf(e.0, e.1), ctx.ScopeFor(e.0));
      && EventMessages(ctx, e)[0] ==
         Named(key + ".subscribe", RequestPayload("rpc.subscribe", SubscribeParams(m, ev), true), "requestId")
      && EventMessages(ctx, e)[1] == Named(key + ".subscribed", ResultPayload(SubscribeReply(m, ev)), "requestId")
      && EventMessages(ctx, e)[2] ==
         Named(key + ".event", NotificationPayload("rpc.event", EventParams(m, ev, data)), "subscriptionId")
  {
    hide RequestPayload, ResultPayload, NotificationPayload, SubscribeParams, SubscribeReply, EventParams, EventData;
    hide NameOf, ComponentKeyOf, Safe;
  }

  lemma EventOperates(ctx: Context, e: Entry)
    requires OwnEvent(ctx, e)
    ensures
      var (d, key) := (AsyncApiOf(ctx), ComponentKeyOf(NameOf(e.0, e.1)));
      Receives(d, key + ".subscribe", key + ".subscribe", key + ".subscribed") && Sends(d, key + ".event", key + ".event")
  {
    hide EventMessages, Messages, Operations, AsyncApiOf, NameOf, ComponentKeyOf;
    var (y, z) := (EventOperations(e)[0], EventOperations(e)[1]);
    assert y in EventOperations(e) && z in EventOperations(e);
    OperationFrom(ctx, y);
    OperationFrom(ctx, z);
    OwnOperation(ctx, y);
    OwnOperation(ctx, z);
    ErrorRef();
  }

  /** A request to subscribe to the event, under an id of the client's. */
  ghost predicate IsSubscribeTo(m: string, ev: string, v: Json) {
    var p := Get(v, "params");
    && v == MakeRequest(Get(v, "id"), "rpc.subscribe", Some(p)) && Dispatchers.IsId(Get(v, "id"))
    && p == EventTarget(Get(p, "subscription"), m, ev) && Handlers.IsSubscriptionId(Get(p, "subscription"))
  }

  lemma SubscribeMeaning(defs: map<string, Schema>, m: string, ev: string, v: Json)
    requires OwnBound(defs)
    ensures Valid(defs, Draft07, RequestPayload("rpc.subscribe", SubscribeParams(m, ev), true), v) <==>
      IsSubscribeTo(m, ev, v)
  {
    RequestExactly(defs, "rpc.subscribe", SubscribeParams(m, ev), true, v);
    TargetExactly(defs, m, ev, Get(v, "params"));
    FindGet(v);
    MadeWith(v, "rpc.subscribe");
    hide Valid, OwnBound, RequestPayload, SubscribeParams, EventTarget, MakeRequest, Get, Find;
  }

  lemma MadeWith(v: Json, name: string)
    ensures v == MakeRequest(Get(v, "id"), name, Some(Get(v, "params"))) ==> Find(v, "params") == Some(Get(v, "params"))
  {
  }

  lemma SubscribeDocumented(ctx: Context, e: Entry, v: Json)
    requires OwnEvent(ctx, e)
    ensures
      var (d, key) := (AsyncApiOf(ctx), ComponentKeyOf(NameOf(e.0, e.1)) + ".subscribe");
      Carries(d, key, "requestId") && (Admits(d, key, v) <==> IsSubscribeTo(Safe(e.0.name), Safe(e.1), v))
  {
    EventEntry(ctx, e, 0);
    EventCount(ctx, e);
    ComponentsStand(ctx);
    var payload := RequestPayload("rpc.subscribe", SubscribeParams(Safe(e.0.name), Safe(e.1)), true);
    OwnMessage(ctx, EventMessages(ctx, e)[0], payload, "requestId");
    SubscribeMeaning(AsyncApiOf(ctx).schemas, Safe(e.0.name), Safe(e.1), v);
    hide Valid, OwnBound, AsyncApiOf, Messages, EventMessages, EventOperations, RequestPayload, SubscribeParams;
    hide NameOf, Safe;
    hide ComponentKeyOf, OwnEvent, Alone, IsSubscribeTo;
  }

  lemma SubscribedDocumented(ctx: Context, e: Entry, v: Json)
    requires OwnEvent(ctx, e)
    ensures
      var (d, key) := (AsyncApiOf(ctx), ComponentKeyOf(NameOf(e.0, e.1)) + ".subscribed");
      Carries(d, key, "requestId") &&
      (Admits(d, key, v) <==>
       && v == MakeResult(Get(v, "id"), Get(v, "result")) && Dispatchers.IsId(Get(v, "id"))
       && IsAcknowledgement(Safe(e.0.name), Safe(e.1), Get(v, "result")))
  {
    EventEntry(ctx, e, 1);
    EventCount(ctx, e);
    ComponentsStand(ctx);
    var reply := SubscribeReply(Safe(e.0.name), Safe(e.1));
    OwnMessage(ctx, EventMessages(ctx, e)[1], ResultPayload(reply), "requestId");
    ResultExactly(AsyncApiOf(ctx).schemas, reply, v);
    AcknowledgedExactly(AsyncApiOf(ctx).schemas, Safe(e.0.name), Safe(e.1), Get(v, "result"));
    hide Valid, OwnBound, AsyncApiOf, Messages, EventMessages, EventOperations, ResultPayload, SubscribeReply, NameOf, Safe;
    hide ComponentKeyOf, OwnEvent, Alone, IsAcknowledgement, MakeResult, Get;
  }

  lemma EventDocumented(ctx: Context, e: Entry, v: Json)
    requires OwnEvent(ctx, e)
    ensures
      var (d, key) := (AsyncApiOf(ctx), ComponentKeyOf(NameOf(e.0, e.1)) + ".event");
      var p := Get(v, "params");
      Carries(d, key, "subscriptionId") &&
      (Admits(d, key, v) <==>
       && v == MakeNotification("rpc.event", p)
       && p == Delivered(Get(p, "subscription"), Safe(e.0.name), Safe(e.1), Get(p, "data"), Get(p, "generation"),
         Get(p, "ts"))
       && Handlers.IsSubscriptionId(Get(p, "subscription")) && IsCounter(Get(p, "generation")) && IsCounter(Get(p, "ts"))
       && IsData(d.schemas, ctx.EventDeclOf(e.0, e.1), ctx.ScopeFor(e.0), Get(p, "data")))
  {
    EventEntry(ctx, e, 2);
    EventCount(ctx, e);
    ComponentsStand(ctx);
    var (m, ev, p, defs) := (Safe(e.0.name), Safe(e.1), Get(v, "params"), AsyncApiOf(ctx).schemas);
    var data := EventData(ctx.EventDeclOf(e.0, e.1), ctx.ScopeFor(e.0));
    OwnMessage(ctx, EventMessages(ctx, e)[2], NotificationPayload("rpc.event", EventParams(m, ev, data)), "subscriptionId");
    NotificationExactly(defs, "rpc.event", EventParams(m, ev, data), v);
    DeliveredExactly(defs, m, ev, data, p);
    DataMeaning(defs, ctx.EventDeclOf(e.0, e.1), ctx.ScopeFor(e.0), Get(p, "data"));
    hide Valid, OwnBound, AsyncApiOf, Messages, EventMessages, EventOperations, NotificationPayload, EventParams;
    hide NameOf, Safe;
    hide ComponentKeyOf, OwnEvent, Alone, Delivered, MakeNotification, Get, EventData, IsData, IsCounter;
  }

  // ---------------------------------------------------------------------------
  // What every document has
  // ---------------------------------------------------------------------------

  ghost predicate Apart<V>(entries: seq<(string, V)>) {
    forall i, j | 0 <= i < j < |entries| :: entries[i].0 != entries[j].0
  }

  lemma {:induction false} PutStays<V>(base: map<string, V>, entries: seq<(string, V)>, i: nat)
    requires Apart(entries) && i < |entries|
    ensures entries[i].0 in Put(base, entries) && Put(base, entries)[entries[i].0] == entries[i].1
  {
    var last := |entries| - 1;
    if i < last {
      PutStays(base, entries[..last], i);
    }
  }

  /** What is put last stands, whatever came before. */
  lemma PutLast<V>(base: map<string, V>, before: seq<(string, V)>, last: seq<(string, V)>, i: nat)
    requires Apart(last) && i < |last|
    ensures last[i].0 in Put(base, before + last) && Put(base, before + last)[last[i].0] == last[i].1
  {
    PutSum(base, before, last);
    PutStays(Put(base, before), last, i);
    hide Put;
  }

  lemma SharedMessage(ctx: Context, i: nat)
    requires i < 4
    ensures
      var (d, x) := (AsyncApiOf(ctx), SharedMessages[i]);
      x.0 in d.messages && d.messages[x.0] == x.1 && x.0 in d.channel && d.channel[x.0] == COMPONENTS + x.0
  {
    SharedApart();
    var methods := ForAll(DocEntries.MethodEntriesOf(ctx.docs), PerMethod(ctx));
    PutLast(map[], methods + ForAll(DocEntries.EventEntriesOf(ctx.docs), PerEvent(ctx)), SharedMessages, i);
    hide SharedMessages, Put, ForAll, PerMethod, PerEvent, Operations, Components, AsyncComponents;
  }

  lemma SharedOperation(ctx: Context, i: nat)
    requires i < 2
    ensures
      var (d, y) := (AsyncApiOf(ctx), SharedOperations[i]);
      y.0 in d.operations && d.operations[y.0] == y.1
  {
    assert |UNSUBSCRIBE| == 15 && |TERMINATED| == 27;
    var methods := ForAll(DocEntries.MethodEntriesOf(ctx.docs), MethodOperations);
    PutLast(map[], methods + ForAll(DocEntries.EventEntriesOf(ctx.docs), EventOperations), SharedOperations, i);
    hide SharedOperations, Put, ForAll, MethodOperations, EventOperations, Messages, Components, AsyncComponents;
  }

  lemma SharedApart()
    ensures Apart(SharedMessages) && |SharedMessages| == 4
  {
    hide ErrorPayload, RequestPayload, ResultPayload, NotificationPayload, UnsubscribeParams, UnsubscribeReply;
    hide TerminatedParams;
    var names := [ERROR, UNSUBSCRIBE, UNSUBSCRIBED, TERMINATED];
    assert |ERROR| == 9 && |UNSUBSCRIBE| == 15 && |UNSUBSCRIBED| == 16 && |TERMINATED| == 27;
    assert forall i | 0 <= i < 4 :: SharedMessages[i].0 == names[i];
  }

  lemma SharedOnes()
    ensures SharedMessages[0] == Named("rpc.error", ErrorPayload, "requestId")
    ensures SharedMessages[1] == Named("rpc.unsubscribe", RequestPayload("rpc.unsubscribe", UnsubscribeParams, true),
      "requestId")
    ensures SharedMessages[2] == Named("rpc.unsubscribed", ResultPayload(UnsubscribeReply), "requestId")
    ensures SharedMessages[3] ==
            Named("rpc.subscription_terminated", NotificationPayload("rpc.subscription_terminated", TerminatedParams),
                  "subscriptionId")
  {
    hide ErrorPayload, RequestPayload, ResultPayload, NotificationPayload, UnsubscribeParams, UnsubscribeReply;
    hide TerminatedParams;
  }

  /** Any request may be answered with an error. */
  lemma ErrorDocumented(ctx: Context, v: Json)
    ensures
      var d := AsyncApiOf(ctx);
      && Carries(d, "rpc.error", "requestId")
      && (Admits(d, "rpc.error", v) <==>
          v == MakeError(Get(v, "id"), Get(v, "error")) && Dispatchers.IsId(Get(v, "id")) && IsError(Get(v, "error")))
  {
    SharedMessage(ctx, 0);
    SharedOnes();
    ComponentsStand(ctx);
    ErrorExactly(AsyncApiOf(ctx).schemas, v);
    hide Valid, OwnBound, AsyncApiOf, SharedMessages, ErrorPayload, MakeError, IsError, Get;
  }

  lemma TerminatedDocumented(ctx: Context, v: Json)
    ensures
      var (d, key) := (AsyncApiOf(ctx), "rpc.subscription_terminated");
      && Carries(d, key, "subscriptionId") && Sends(d, key, key)
      && (Admits(d, key, v) <==> v == MakeNotification(key, Get(v, "params")) && IsEnding(Get(v, "params")))
  {
    SharedMessage(ctx, 3);
    SharedOnes();
    SharedOperation(ctx, 1);
    ComponentsStand(ctx);
    NotificationExactly(AsyncApiOf(ctx).schemas, "rpc.subscription_terminated", TerminatedParams, v);
    EndedExactly(AsyncApiOf(ctx).schemas, Get(v, "params"));
    hide Valid, OwnBound, AsyncApiOf, SharedMessages, NotificationPayload, TerminatedParams, MakeNotification, IsEnding, Get;
  }

  ghost predicate IsUnsubscribe(v: Json) {
    var p := Get(v, "params");
    && v == MakeRequest(Get(v, "id"), "rpc.unsubscribe", Some(p)) && Dispatchers.IsId(Get(v, "id"))
    && p == JObj(map["subscription" := Get(p, "subscription")]) && Handlers.IsSubscriptionId(Get(p, "subscription"))
  }

  lemma UnsubscribeMeaning(defs: map<string, Schema>, v: Json)
    requires OwnBound(defs)
    ensures Valid(defs, Draft07, RequestPayload("rpc.unsubscribe", UnsubscribeParams, true), v) <==> IsUnsubscribe(v)
  {
    RequestExactly(defs, "rpc.unsubscribe", UnsubscribeParams, true, v);
    UnsubscribeExactly(defs, Get(v, "params"));
    FindGet(v);
    MadeWith(v, "rpc.unsubscribe");
    hide Valid, OwnBound, RequestPayload, UnsubscribeParams, MakeRequest, Get, Find;
  }

  lemma UnsubscribeDocumented(ctx: Context, v: Json)
    ensures
      var (d, key, reply) := (AsyncApiOf(ctx), "rpc.unsubscribe", "rpc.unsubscribed");
      && Carries(d, key, "requestId") && Receives(d, key, key, reply) && (Admits(d, key, v) <==> IsUnsubscribe(v))
  {
    SharedMessage(ctx, 1);
    SharedOnes();
    SharedOperation(ctx, 0);
    ComponentsStand(ctx);
    UnsubscribeMeaning(AsyncApiOf(ctx).schemas, v);
    ErrorRef();
    hide Valid, OwnBound, AsyncApiOf, SharedMessages, RequestPayload, UnsubscribeParams, IsUnsubscribe;
  }

  lemma UnsubscribedDocumented(ctx: Context, v: Json)
    ensures
      var (d, key) := (AsyncApiOf(ctx), "rpc.unsubscribed");
      && Carries(d, key, "requestId")
      && (Admits(d, key, v) <==>
          && v == MakeResult(Get(v, "id"), Get(v, "result")) && Dispatchers.IsId(Get(v, "id"))
          && Get(v, "result") == Handlers.Acknowledged("unsubscribe", Get(Get(v, "result"), "subscription"))
          && Handlers.IsSubscriptionId(Get(Get(v, "result"), "subscription")))
  {
    SharedMessage(ctx, 2);
    SharedOnes();
    ComponentsStand(ctx);
    ResultExactly(AsyncApiOf(ctx).schemas, UnsubscribeReply, v);
    UnsubscribedExactly(AsyncApiOf(ctx).schemas, Get(v, "result"));
    hide Valid, OwnBound, AsyncApiOf, SharedMessages, ResultPayload, UnsubscribeReply, MakeResult, Get;
    hide Handlers.Acknowledged;
  }

  // ---------------------------------------------------------------------------
  // The bridge does as documented
  // ---------------------------------------------------------------------------

  /** A byte string that is UTF-8. */
  predicate Plain(s: string) {
    (forall c | c in s :: c as int < 256) && Utf8s.Valid(DocEntries.BytesOf(s))
  }

  lemma TextOfBytes(s: string)
    requires forall c | c in s :: c as int < 256
    ensures Text(DocEntries.BytesOf(s)) == s
  {
    var t := Text(DocEntries.BytesOf(s));
    assert |t| == |s|;
    forall i | 0 <= i < |s| ensures t[i] == s[i] {
      assert s[i] in s;
    }
  }

  lemma PlainNames(m: ModuleDoc, n: string)
    requires Plain(m.name) && Plain(n)
    ensures Safe(m.name) == m.name && Safe(n) == n && NameOf(m, n) == m.name + "." + n
  {
    Utf8s.SanitizedValid(DocEntries.BytesOf(m.name));
    Utf8s.SanitizedValid(DocEntries.BytesOf(n));
    TextOfBytes(m.name);
    TextOfBytes(n);
    DocEntries.QualifiedIsAlias(m.name, n);
    assert forall c | c in m.name + "." + n :: c in m.name || c == '.' || c in n;
    TextOfBytes(m.name + "." + n);
    hide Utf8s.Valid, Utf8s.Sanitized, DocEntries.Qualified, Text, DocEntries.BytesOf;
  }

  /** The module is exposed, and the environment and the documents have the same view of it. */
  ghost predicate Seen(env: Handlers.Env, em: BridgeConfigs.ExposedModule, view: ModuleViews.View) {
    && DocEntries.Current(em, view) && BridgeConfigs.GoodName(em.name) && Plain(em.name)
    && env.ModuleOf(em.name) == Some(em) && env.ViewOf(em.name) == view
  }

  lemma TypedParams(defs: map<string, Schema>, m: MethodDecl, scope: Scope, p: Option<Json>)
    requires TakesParams(defs, Some(m), scope, p)
    ensures p.Some? ==> Dispatchers.IsContainer(p.value)
  {
    if p.Some? && m.params != [] {
      ObjectOnly(defs, m.params, scope, p.value);
    }
    hide Valid;
  }

  lemma ObjectOnly(defs: map<string, Schema>, params: seq<Slot>, scope: Scope, v: Json)
    ensures Valid(defs, Draft07, ParamsObjectOf(params, scope), v) ==> v.JObj?
    ensures Valid(defs, Draft07, ParamsTupleOf(params, scope, Draft07), v) ==> v.JArr?
  {
    Translations.TupleValid(defs, Draft07, SlotSchemas(params, scope), v);
    hide Tuple, SlotSchemas, Properties, Required;
    var s := ParamsObjectOf(params, scope);
    assert Valid(defs, Draft07, s, v) <==> ValidKeywords(defs, Draft07, s, v);
  }

  lemma CallAsks(defs: map<string, Schema>, ctx: Context, e: Entry, v: Json)
    requires Plain(e.0.name) && Plain(e.1) && BridgeConfigs.GoodName(e.0.name) && e.1 != "" && IsCallOf(defs, ctx, e, v)
    requires Find(v, "params").Some? ==> Dispatchers.IsContainer(Find(v, "params").value)
    ensures Handlers.AsksCall(v, e.0.name, e.1, if Find(v, "params").Some? then Find(v, "params").value else JArr([]))
    ensures v.JObj? && "id" in v.o
  {
    PlainNames(e.0, e.1);
    NotDotted(e.0.name);
    NeverRpcCall(e.0.name, e.1);
    hide Plain, BridgeConfigs.GoodName, TakesParams, NameOf, Safe;
  }

  lemma NotDotted(m: string)
    requires BridgeConfigs.GoodName(m)
    ensures '.' !in m && m != "" && m != "rpc"
  {
    assert BridgeConfigs.Refused('.');
  }

  lemma NeverRpcCall(m: string, callee: string)
    requires '.' !in m && m != "rpc"
    ensures m + "." + callee != "rpc.call"
  {
    Dispatchers.NotReserved(m, callee);
    assert "rpc." <= "rpc.call";
  }

  /** A message a method's request admits is called upstream as that method, with its parameters when they come in
      order, as soon as the module has a client and the pump takes jobs. */
  lemma DocumentedCallTaken(ctx: Context, env: Handlers.Env, em: BridgeConfigs.ExposedModule, view: ModuleViews.View,
    callee: string, v: Json)
    requires Seen(env, em, view) && Plain(callee) && OwnMethod(ctx, (ToModuleDoc(view), callee))
    requires Admits(AsyncApiOf(ctx), ComponentKeyOf(NameOf(ToModuleDoc(view), callee)) + ".request", v)
    requires
      || ctx.MethodDeclOf(ToModuleDoc(view), callee).Some?
      || (Find(v, "params").Some? ==> Dispatchers.IsContainer(Find(v, "params").value))
    ensures
      var params := if Find(v, "params").Some? then Find(v, "params").value else JArr([]);
      && Handlers.AsksCall(v, em.name, callee, params) && v.JObj? && "id" in v.o
      && ModuleViews.MethodPermitted(Some(em), view, callee)
      && (params.JArr? && em.name in env.clients && env.queues ==>
            Handlers.Handled(env, v) == Handlers.Queue(Handlers.CallUp(v.o["id"], em.name, callee, params)))
  {
    var e := (ToModuleDoc(view), callee);
    RequestDocumented(ctx, e, v);
    var defs := AsyncApiOf(ctx).schemas;
    assert IsCallOf(defs, ctx, e, v);
    if ctx.MethodDeclOf(e.0, e.1).Some? {
      TypedParams(defs, ctx.MethodDeclOf(e.0, e.1).value, ctx.ScopeFor(e.0), Find(v, "params"));
    }
    DocEntries.ListedMethods(ctx.docs, e.0, e.1);
    CallAsks(defs, ctx, e, v);
    ModuleViews.ListedIsPermitted(em, view, callee);
    var params := if Find(v, "params").Some? then Find(v, "params").value else JArr([]);
    TakenCall(env, em, view, callee, v, params);
    hide AsyncApiOf, IsCallOf, Admits, OwnMethod, Handlers.Handled, Handlers.AsksCall, ModuleViews.MethodPermitted;
    hide ComponentKeyOf, NameOf;
    hide Find, Plain, BridgeConfigs.GoodName;
  }

  lemma TakenCall(env: Handlers.Env, em: BridgeConfigs.ExposedModule, view: ModuleViews.View, callee: string,
    v: Json, params: Json)
    requires Handlers.AsksCall(v, em.name, callee, params) && ModuleViews.MethodPermitted(Some(em), view, callee)
    requires env.ModuleOf(em.name) == Some(em) && env.ViewOf(em.name) == view && v.JObj? && "id" in v.o
    ensures
      params.JArr? && em.name in env.clients && env.queues ==>
      Handlers.Handled(env, v) == Handlers.Queue(Handlers.CallUp(v.o["id"], em.name, callee, params))
  {
    hide Handlers.Handled, Handlers.AsksCall, ModuleViews.MethodPermitted, Handlers.Env.ModuleOf, Handlers.Env.ViewOf;
    if params.JArr? && em.name in env.clients && env.queues {
      Handlers.CallQueuedExactly(env, v, v.o["id"], em.name, callee, params);
      assert Handlers.AskedAndPassed(env, v, v.o["id"], em.name, callee, params, params);
    }
  }

  /** A message an event's subscribe admits subscribes to it, or is answered as documented when the id is held. */
  lemma DocumentedSubscribeTaken(ctx: Context, env: Handlers.Env, em: BridgeConfigs.ExposedModule,
    view: ModuleViews.View, ev: string, v: Json)
    requires Seen(env, em, view) && Plain(ev) && OwnEvent(ctx, (ToModuleDoc(view), ev))
    requires Admits(AsyncApiOf(ctx), ComponentKeyOf(NameOf(ToModuleDoc(view), ev)) + ".subscribe", v)
    ensures
      var (id, subscription) := (Get(v, "id"), Get(Get(v, "params"), "subscription"));
      && Handlers.AsksSubscription(v, em.name, ev, subscription)
      && (subscription !in env.held && !env.full && env.queues ==>
            Handlers.Handled(env, v) == Handlers.Queue(Handlers.SubscribeUp(id, em.name, ev, subscription)))
      && (subscription in env.held ==>
            && Handlers.Handled(env, v) ==
               Handlers.Fill(Dispatchers.Response(id, false, Handlers.Active(em.name, ev, subscription)))
            && Admits(AsyncApiOf(ctx), ComponentKeyOf(NameOf(ToModuleDoc(view), ev)) + ".subscribed",
                      MakeResult(id, Handlers.Active(em.name, ev, subscription))))
  {
    var e := (ToModuleDoc(view), ev);
    var (id, subscription) := (Get(v, "id"), Get(Get(v, "params"), "subscription"));
    var reply := MakeResult(id, Handlers.Active(em.name, ev, subscription));
    SubscribeDocumented(ctx, e, v);
    SubscribedDocumented(ctx, e, reply);
    PlainNames(e.0, ev);
    DocEntries.ListedEvents(ctx.docs, e.0, ev);
    ModuleViews.ListedIsPermitted(em, view, ev);
    NotDotted(em.name);
    SubscribeAsks(em.name, ev, v);
    ActiveAcknowledges(id, em.name, ev, subscription);
    Handlers.SubscribeQueuedExactly(env, v, id, em.name, ev, subscription);
    Handlers.SubscribeAnsweredExactly(env, v, em.name, ev, subscription);
    hide AsyncApiOf, IsSubscribeTo, Admits, OwnEvent, Handlers.Handled, ModuleViews.EventPermitted, ComponentKeyOf;
    hide NameOf, Safe;
    hide Plain, BridgeConfigs.GoodName, Handlers.AsksSubscription, Handlers.Active, IsAcknowledgement, MakeResult, Get;
    hide Handlers.Env.ModuleOf, Handlers.Env.ViewOf;
  }

  lemma SubscribeAsks(m: string, ev: string, v: Json)
    requires IsSubscribeTo(m, ev, v) && m != "" && ev != ""
    ensures Handlers.AsksSubscription(v, m, ev, Get(Get(v, "params"), "subscription"))
    ensures Dispatchers.ReplyId(v) == Get(v, "id") && Dispatchers.IsId(Get(v, "id")) &&
      Handlers.IsSubscriptionId(Get(Get(v, "params"), "subscription"))
  {
  }

  lemma ActiveAcknowledges(id: Json, m: string, ev: string, subscription: Json)
    ensures var reply := MakeResult(id, Handlers.Active(m, ev, subscription));
            && Get(reply, "id") == id && Get(reply, "result") == Handlers.Active(m, ev, subscription)
            && (Handlers.IsSubscriptionId(subscription) ==> IsAcknowledgement(m, ev, Get(reply, "result")))
  {
  }

  /** An unsubscribe the document admits is acknowledged, as documented. */
  lemma DocumentedUnsubscribeTaken(ctx: Context, env: Handlers.Env, v: Json)
    requires Admits(AsyncApiOf(ctx), "rpc.unsubscribe", v)
    ensures
      var (id, subscription) := (Get(v, "id"), Get(Get(v, "params"), "subscription"));
      var body := Handlers.Acknowledged("unsubscribe", subscription);
      && Handlers.Handled(env, v) == Handlers.Fill(Dispatchers.Response(id, false, body))
      && Admits(AsyncApiOf(ctx), "rpc.unsubscribed", MakeResult(id, body))
  {
    var (id, subscription) := (Get(v, "id"), Get(Get(v, "params"), "subscription"));
    var body := Handlers.Acknowledged("unsubscribe", subscription);
    UnsubscribeDocumented(ctx, v);
    UnsubscribedDocumented(ctx, MakeResult(id, body));
    UnsubscribeAsks(v);
    UnsubscribeBody(id, subscription);
    Handlers.LocalAnswers(env, v);
    hide AsyncApiOf, IsUnsubscribe, Admits, Handlers.Handled, Handlers.Acknowledged, MakeResult, Dispatchers.IsBridgeOp, Get;
  }

  lemma UnsubscribeBody(id: Json, subscription: Json)
    ensures
      var body := Handlers.Acknowledged("unsubscribe", subscription);
      && body == JObj(map["subscription" := subscription, "operation" := JStr("unsubscribe")])
      && Get(MakeResult(id, body), "id") == id && Get(MakeResult(id, body), "result") == body &&
        Get(body, "subscription") == subscription
  {
  }

  lemma UnsubscribeAsks(v: Json)
    requires IsUnsubscribe(v)
    ensures
      && Dispatchers.WellFormed(v) && v.o["method"].s == "rpc.unsubscribe" &&
        Dispatchers.ReplyId(v) == Get(v, "id") && Dispatchers.IsId(Get(v, "id"))
      && "params" in v.o && v.o["params"].JObj? && "subscription" in v.o["params"].o
      && v.o["params"].o["subscription"] == Get(Get(v, "params"), "subscription") &&
        Handlers.IsSubscriptionId(Get(Get(v, "params"), "subscription"))
  {
  }
}
