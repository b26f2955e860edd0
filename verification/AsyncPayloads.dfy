/** What the AsyncAPI document says on the wire: each payload admits exactly the messages the bridge takes or
    sends, and a documented request is one the bridge takes as the call or subscription it documents. */
module AsyncPayloads {
  import opened Prelude
  import opened JsonSchemas
  import opened SchemaCompilers
  import opened SchemaTheorems
  import opened SchemaDocuments
  import opened DocPublishers
  import opened AsyncApis
  import Dispatchers
  import DocEntries
  import Handlers
  import Utf8s

  // ---------------------------------------------------------------------------
  // Messages
  // ---------------------------------------------------------------------------

  const VERSION := JStr("2.0")

  function MakeRequest(id: Json, name: string, params: Option<Json>): Json {
    var m := map["jsonrpc" := VERSION, "id" := id, "method" := JStr(name)];
    JObj(if params.Some? then m["params" := params.value] else m)
  }

  function MakeResult(id: Json, result: Json): Json {
    JObj(map["jsonrpc" := VERSION, "id" := id, "result" := result])
  }

  function MakeError(id: Json, error: Json): Json {
    JObj(map["jsonrpc" := VERSION, "id" := id, "error" := error])
  }

  function MakeNotification(name: string, params: Json): Json {
    JObj(map["jsonrpc" := VERSION, "method" := JStr(name), "params" := params])
  }

  function EventTarget(subscription: Json, m: string, ev: string): Json {
    JObj(map["subscription" := subscription, "module" := JStr(m), "event" := JStr(ev)])
  }

  function Acknowledged(subscription: Json, m: string, ev: string, state: Json): Json {
    JObj(map["subscription" := subscription, "operation" := JStr("subscribe"), "module" := JStr(m), "event" := JStr(ev),
             "state" := state])
  }

  function Delivered(subscription: Json, m: string, ev: string, data: Json, generation: Json, ts: Json): Json {
    JObj(map["subscription" := subscription, "module" := JStr(m), "event" := JStr(ev), "data" := data,
             "generation" := generation, "ts" := ts])
  }

  function Ended(subscription: Json, m: Json, ev: Json, why: Json): Json {
    JObj(map["subscription" := subscription, "module" := m, "event" := ev, "reason" := why])
  }

  /** The member of an object, null when it has none. */
  function Get(v: Json, k: string): Json {
    if v.JObj? && k in v.o then v.o[k] else JNull
  }

  function Find(v: Json, k: string): Option<Json> {
    if v.JObj? && k in v.o then Some(v.o[k]) else None
  }

  // ---------------------------------------------------------------------------
  // Objects
  // ---------------------------------------------------------------------------

  ghost predicate Distinct(properties: seq<(string, Schema)>) {
    forall i, j | 0 <= i < j < |properties| :: properties[i].0 != properties[j].0
  }

  lemma {:induction false} PutAt(properties: seq<(string, Schema)>, i: nat)
    requires Distinct(properties) && i < |properties|
    ensures properties[i].0 in Put(map[], properties) && Put(map[], properties)[properties[i].0] == properties[i].1
  {
    var last := |properties| - 1;
    if i < last {
      PutAt(properties[..last], i);
    }
  }

  /** An object with nothing but the properties, those required and each as its schema has it. */
  ghost predicate Fits(defs: map<string, Schema>, properties: seq<(string, Schema)>, required: seq<string>, v: Json) {
    && v.JObj? && (forall k | k in required :: k in v.o)
    && (forall k | k in v.o :: exists i | 0 <= i < |properties| :: properties[i].0 == k)
    && (forall i | 0 <= i < |properties| &&
      properties[i].0 in v.o :: Valid(defs, Draft07, properties[i].1, v.o[properties[i].0]))
  }

  lemma ClosedFits(defs: map<string, Schema>, properties: seq<(string, Schema)>, required: seq<string>, v: Json)
    requires Distinct(properties)
    ensures Valid(defs, Draft07, ClosedObject(properties, required), v) <==> Fits(defs, properties, required, v)
  {
    PutKeeps(map[], properties);
    forall i | 0 <= i < |properties|
      ensures properties[i].0 in Put(map[], properties) && Put(map[], properties)[properties[i].0] == properties[i].1 {
      PutAt(properties, i);
    }
    hide Put;
    if v.JObj? {
      ClosedValid(defs, Put(map[], properties), properties, required, v);
    }
  }

  lemma ClosedValid(defs: map<string, Schema>, m: map<string, Schema>, properties: seq<(string, Schema)>,
    required: seq<string>, v: Json)
    requires v.JObj? && (forall k | k in m :: (k, m[k]) in properties)
    requires forall i | 0 <= i < |properties| :: properties[i].0 in m && m[properties[i].0] == properties[i].1
    ensures
      Valid(defs, Draft07, Anything.(typ := Some(TObject), properties := m, required := required,
        additionalProperties := Some(Never)), v) <==>
      Fits(defs, properties, required, v)
  {
    var s := Anything.(typ := Some(TObject), properties := m, required := required, additionalProperties := Some(Never));
    assert Valid(defs, Draft07, s, v) <==> ValidKeywords(defs, Draft07, s, v);
    assert ValidKeywords(defs, Draft07, s, v) <==>
           (forall k | k in required :: k in v.o) && (forall k | k in v.o :: k in m && Valid(defs, Draft07, m[k], v.o[k]))
      by {
      forall k | k in v.o ensures !Valid(defs, Draft07, Never, v.o[k]) {}
    }
    hide Valid, ValidKeywords;
    forall k | k in m ensures exists i | 0 <= i < |properties| :: properties[i].0 == k && properties[i].1 == m[k] {
      assert (k, m[k]) in properties;
    }
  }

  // ---------------------------------------------------------------------------
  // Components and leaves
  // ---------------------------------------------------------------------------

  /** The document's own components stand, as they do in every document. */
  ghost predicate OwnBound(defs: map<string, Schema>) {
    forall e | e in OwnComponents :: e.0 in defs && defs[e.0] == e.1
  }

  lemma ComponentsStand(ctx: Context)
    ensures OwnBound(AsyncApiOf(ctx).schemas)
  {
    ComponentsShared();
    OwnStand();
    SharedKept(AsyncComponents, Typed(ctx, ctx.docs));
    hide AsyncComponents, OwnComponents, Components, Messages, Operations, Shared;
  }

  lemma OwnStand()
    ensures forall e | e in OwnComponents :: e.0 in AsyncComponents && AsyncComponents[e.0] == e.1
  {
    hide ErrorSchema, NoParamsSchema, StateSchema, CounterSchema, IdSchema, SubscriptionSchema, SharedComponents;
    PutKeeps(SharedComponents, OwnComponents);
    forall e | e in OwnComponents ensures AsyncComponents[e.0] == e.1 {
      OwnKey(e);
      NamedApart();
    }
  }

  lemma NamedApart()
    ensures forall a, b | a in OwnComponents && b in OwnComponents && a.0 == b.0 :: a == b
  {
    hide ErrorSchema, NoParamsSchema, StateSchema, CounterSchema, IdSchema, SubscriptionSchema;
    var names := ["JsonRpcError", "JsonRpcId", "SubscriptionId", "SubscriptionState", "NoParams", "EventGeneration",
      "EventTimestamp"];
    assert forall i | 0 <= i < 7 :: OwnComponents[i].0 == names[i];
    assert names[0][7] == 'E' && names[5][5] == 'G' && names[6][5] == 'T';
    assert |names[0]| == 12 && |names[1]| == 9 && |names[2]| == 14 && |names[3]| == 17 && |names[4]| == 8 &&
      |names[5]| == 15 && |names[6]| == 14;
    assert names[2][0] == 'S' && names[6][0] == 'E';
    forall a, b | a in OwnComponents && b in OwnComponents && a.0 == b.0 ensures a == b {
      var i :| 0 <= i < 7 && OwnComponents[i] == a;
      var j :| 0 <= j < 7 && OwnComponents[j] == b;
      assert names[i] == names[j];
      assert i == j;
    }
  }

  lemma OwnAt(i: nat)
    requires i < 7
    ensures |OwnComponents| == 7 && OwnComponents[i] in OwnComponents
    ensures i == 0 ==> OwnComponents[i] == ("JsonRpcError", ErrorSchema)
    ensures i == 1 ==> OwnComponents[i] == ("JsonRpcId", Anything.(typ := Some(Among([TString, TNumber, TNull]))))
    ensures i == 2 ==> OwnComponents[i] == ("SubscriptionId", Anything.(typ := Some(Among([TString, TNumber]))))
    ensures i == 3 ==> OwnComponents[i] == ("SubscriptionState", StateSchema)
    ensures i == 4 ==> OwnComponents[i] == ("NoParams", NoParamsSchema)
    ensures i == 5 ==> OwnComponents[i] == ("EventGeneration", CounterSchema)
    ensures i == 6 ==> OwnComponents[i] == ("EventTimestamp", CounterSchema)
  {
    hide ErrorSchema, NoParamsSchema, StateSchema, CounterSchema;
  }

  lemma RefValid(defs: map<string, Schema>, e: (string, Schema), v: Json)
    requires OwnBound(defs) && e in OwnComponents
    ensures Valid(defs, Draft07, Ref(e.0), v) <==> Valid(defs, Draft07, e.1, v)
  {
    OwnResolve(defs, e);
    OwnKey(e);
    KeysAreSafe(e.0);
    hide OwnComponents, Resolves, KeyChar;
  }

  lemma ConstValid(defs: map<string, Schema>, s: string, v: Json)
    ensures Valid(defs, Draft07, Const(s), v) <==> v == JStr(s)
  {
  }

  lemma TextValid(defs: map<string, Schema>, v: Json)
    ensures Valid(defs, Draft07, AnyText, v) <==> v.JStr?
    ensures Valid(defs, Draft07, AnyInteger, v) <==> v.JNum? && IsInteger(v.n)
  {
  }

  predicate IsCounter(v: Json) {
    v.JNum? && IsInteger(v.n) && v.n >= 0.0
  }

  lemma IdValid(defs: map<string, Schema>, v: Json)
    requires OwnBound(defs)
    ensures Valid(defs, Draft07, Ref("JsonRpcId"), v) <==> Dispatchers.IsId(v)
  {
    hide OwnComponents, Ref;
    OwnAt(1);
    RefValid(defs, OwnComponents[1], v);
    AmongThree(v);
    PlainValid(defs, Among([TString, TNumber, TNull]), v);
    hide Valid, OwnBound;
  }

  lemma SubscriptionValid(defs: map<string, Schema>, v: Json)
    requires OwnBound(defs)
    ensures Valid(defs, Draft07, Ref("SubscriptionId"), v) <==> Handlers.IsSubscriptionId(v)
  {
    hide OwnComponents, Ref;
    OwnAt(2);
    RefValid(defs, OwnComponents[2], v);
    AmongTwo(v);
    PlainValid(defs, Among([TString, TNumber]), v);
    hide Valid, OwnBound;
  }

  lemma AmongThree(v: Json)
    ensures HasType(Among([TString, TNumber, TNull]), v) <==> Dispatchers.IsId(v)
  {
    var names := [TString, TNumber, TNull];
    assert names[0] == TString && names[1] == TNumber && names[2] == TNull;
    assert HasType(Among(names), v) <==> exists i | 0 <= i < 3 :: HasType(names[i], v);
  }

  lemma AmongTwo(v: Json)
    ensures HasType(Among([TString, TNumber]), v) <==> Handlers.IsSubscriptionId(v)
  {
    var names := [TString, TNumber];
    assert names[0] == TString && names[1] == TNumber;
    assert HasType(Among(names), v) <==> exists i | 0 <= i < 2 :: HasType(names[i], v);
  }

  lemma PlainValid(defs: map<string, Schema>, t: TypeName, v: Json)
    ensures Valid(defs, Draft07, Anything.(typ := Some(t)), v) <==> HasType(t, v)
  {
    var s := Anything.(typ := Some(t));
    assert ValidKeywords(defs, Draft07, s, v) <==> HasType(t, v);
  }

  lemma StateValid(defs: map<string, Schema>, v: Json)
    requires OwnBound(defs)
    ensures Valid(defs, Draft07, Ref("SubscriptionState"), v) <==> v == JStr("registered") || v == JStr("active")
  {
    hide OwnComponents, Ref;
    OwnAt(3);
    RefValid(defs, OwnComponents[3], v);
    EnumValid(defs, v);
    hide Valid, OwnBound;
  }

  lemma EnumValid(defs: map<string, Schema>, v: Json)
    ensures Valid(defs, Draft07, StateSchema, v) <==> v == JStr("registered") || v == JStr("active")
  {
  }

  lemma CounterValid(defs: map<string, Schema>, v: Json)
    requires OwnBound(defs)
    ensures Valid(defs, Draft07, Ref("EventGeneration"), v) <==> IsCounter(v)
    ensures Valid(defs, Draft07, Ref("EventTimestamp"), v) <==> IsCounter(v)
  {
    hide OwnComponents, Ref;
    OwnAt(5);
    OwnAt(6);
    RefValid(defs, OwnComponents[5], v);
    RefValid(defs, OwnComponents[6], v);
    MinimumValid(defs, v);
    hide Valid, OwnBound;
  }

  lemma MinimumValid(defs: map<string, Schema>, v: Json)
    ensures Valid(defs, Draft07, CounterSchema, v) <==> IsCounter(v)
  {
  }

  lemma NoParamsValid(defs: map<string, Schema>, v: Json)
    requires OwnBound(defs)
    ensures Valid(defs, Draft07, Ref("NoParams"), v) <==> v == JObj(map[]) || v == JArr([])
  {
    hide OwnComponents, Ref;
    OwnAt(4);
    RefValid(defs, OwnComponents[4], v);
    NoParamsAccept(defs, v);
    hide Valid, OwnBound;
  }

  // ---------------------------------------------------------------------------
  // Envelopes
  // ---------------------------------------------------------------------------

  /** A request with this method, an id, and parameters the schema admits. */
  ghost predicate IsRequest(defs: map<string, Schema>, name: string, params: Schema, needed: bool, v: Json) {
    && v == MakeRequest(Get(v, "id"), name, Find(v, "params")) && Dispatchers.IsId(Get(v, "id"))
    && if Find(v, "params").Some? then Valid(defs, Draft07, params, Get(v, "params")) else !needed
  }

  ghost predicate IsReply(defs: map<string, Schema>, result: Schema, v: Json) {
    && v == MakeResult(Get(v, "id"), Get(v, "result")) && Dispatchers.IsId(Get(v, "id"))
    && Valid(defs, Draft07, result, Get(v, "result"))
  }

  ghost predicate IsNotification(defs: map<string, Schema>, name: string, params: Schema, v: Json) {
    v == MakeNotification(name, Get(v, "params")) && Valid(defs, Draft07, params, Get(v, "params"))
  }

  /** Only the four keys. */
  lemma RequestKeys(v: Json, properties: seq<(string, Schema)>)
    requires v.JObj? && |properties| == 4
    requires properties[0].0 == "jsonrpc" && properties[1].0 == "id" && properties[2].0 == "method" &&
      properties[3].0 == "params"
    ensures (forall k | k in v.o :: exists i | 0 <= i < |properties| :: properties[i].0 == k) <==>
      v.o.Keys <= {"jsonrpc", "id", "method", "params"}
  {
  }

  function RequestParts(name: string, params: Schema): seq<(string, Schema)> {
    [("jsonrpc", Const("2.0")), ("id", Ref("JsonRpcId")), ("method", Const(name)), ("params", params)]
  }

  function RequestNeeds(needed: bool): seq<string> {
    ["jsonrpc", "id", "method"] + if needed then ["params"] else []
  }

  lemma RequestExactly(defs: map<string, Schema>, name: string, params: Schema, needed: bool, v: Json)
    requires OwnBound(defs)
    ensures Valid(defs, Draft07, RequestPayload(name, params, needed), v) <==> IsRequest(defs, name, params, needed, v)
  {
    RequestDistinct(name, params);
    ClosedFits(defs, RequestParts(name, params), RequestNeeds(needed), v);
    IdValid(defs, Get(v, "id"));
    ConstValid(defs, "2.0", Get(v, "jsonrpc"));
    ConstValid(defs, name, Get(v, "method"));
    hide Valid, OwnBound, Distinct, Fits, MakeRequest, Dispatchers.IsId, RequestParts, RequestNeeds, Get, Find, ClosedObject;
    if v.JObj? {
      RequestFits(defs, name, params, needed, v);
      RequestIs(v, name);
      RequestMembers(v);
    } else {
      NoObject(defs, RequestParts(name, params), RequestNeeds(needed), v, name);
    }
    assert RequestPayload(name, params, needed) == ClosedObject(RequestParts(name, params), RequestNeeds(needed)) by {
      RequestShape(name, params, needed);
    }
  }

  lemma RequestShape(name: string, params: Schema, needed: bool)
    ensures RequestPayload(name, params, needed) == ClosedObject(RequestParts(name, params), RequestNeeds(needed))
  {
    hide ClosedObject, Const, Ref;
  }

  lemma RequestDistinct(name: string, params: Schema)
    ensures Distinct(RequestParts(name, params))
  {
    hide Const, Ref;
    var ps := RequestParts(name, params);
    assert ps[0].0 == "jsonrpc" && ps[1].0 == "id" && ps[2].0 == "method" && ps[3].0 == "params";
    assert ps[2].0[0] == 'm' && ps[3].0[0] == 'p';
  }

  lemma RequestMembers(v: Json)
    requires v.JObj?
    ensures "jsonrpc" in v.o ==> Get(v, "jsonrpc") == v.o["jsonrpc"]
    ensures "id" in v.o ==> Get(v, "id") == v.o["id"]
    ensures "method" in v.o ==> Get(v, "method") == v.o["method"]
    ensures if "params" in v.o then Find(v, "params").Some? && Get(v, "params") == v.o["params"] else Find(v, "params").None?
  {
  }

  lemma RequestFits(defs: map<string, Schema>, name: string, params: Schema, needed: bool, v: Json)
    requires v.JObj?
    ensures
      Fits(defs, RequestParts(name, params), RequestNeeds(needed), v) <==>
      && v.o.Keys <= {"jsonrpc", "id", "method", "params"} && "jsonrpc" in v.o && "id" in v.o && "method" in v.o
      && (needed ==> "params" in v.o)
      && Valid(defs, Draft07, Const("2.0"), v.o["jsonrpc"]) && Valid(defs, Draft07, Ref("JsonRpcId"), v.o["id"])
      && Valid(defs, Draft07, Const(name), v.o["method"]) &&
        ("params" in v.o ==> Valid(defs, Draft07, params, v.o["params"]))
  {
    hide Valid, Const, Ref;
    var ps := RequestParts(name, params);
    RequestKeys(v, ps);
    RequestNeeded(needed, v);
    FitsFour(defs, ps, RequestNeeds(needed), v);
    hide Fits, RequestNeeds;
  }

  lemma NoObject(defs: map<string, Schema>, ps: seq<(string, Schema)>, required: seq<string>, v: Json, name: string)
    requires !v.JObj?
    ensures !Fits(defs, ps, required, v) && v != MakeRequest(Get(v, "id"), name, Find(v, "params"))
  {
    hide Valid;
  }

  lemma RequestNeeded(needed: bool, v: Json)
    requires v.JObj?
    ensures (forall k | k in RequestNeeds(needed) :: k in v.o) <==>
      "jsonrpc" in v.o && "id" in v.o && "method" in v.o && (needed ==> "params" in v.o)
  {
    var required := RequestNeeds(needed);
    assert required[0] == "jsonrpc" && required[1] == "id" && required[2] == "method" &&
      (needed ==> required[3] == "params");
  }

  lemma FitsFour(defs: map<string, Schema>, ps: seq<(string, Schema)>, required: seq<string>, v: Json)
    requires v.JObj? && |ps| == 4
    ensures
      Fits(defs, ps, required, v) <==>
      && (forall k | k in required :: k in v.o) && (forall k | k in v.o :: exists i | 0 <= i < |ps| :: ps[i].0 == k)
      && (ps[0].0 in v.o ==> Valid(defs, Draft07, ps[0].1, v.o[ps[0].0])) &&
        (ps[1].0 in v.o ==> Valid(defs, Draft07, ps[1].1, v.o[ps[1].0]))
      && (ps[2].0 in v.o ==> Valid(defs, Draft07, ps[2].1, v.o[ps[2].0])) &&
        (ps[3].0 in v.o ==> Valid(defs, Draft07, ps[3].1, v.o[ps[3].0]))
  {
    hide Valid;
  }

  lemma RequestIs(v: Json, name: string)
    requires v.JObj?
    ensures
      v == MakeRequest(Get(v, "id"), name, Find(v, "params")) <==>
      && v.o.Keys <= {"jsonrpc", "id", "method", "params"} && "id" in v.o
      && "jsonrpc" in v.o && v.o["jsonrpc"] == VERSION && "method" in v.o && v.o["method"] == JStr(name)
  {
    var r := MakeRequest(Get(v, "id"), name, Find(v, "params"));
    if v.o.Keys <= {"jsonrpc", "id", "method", "params"} && "id" in v.o && "jsonrpc" in v.o && v.o["jsonrpc"] == VERSION &&
       "method" in v.o && v.o["method"] == JStr(name) {
      assert v.o == r.o;
    }
  }

  // ---------------------------------------------------------------------------
  // Objects with every property required
  // ---------------------------------------------------------------------------

  function Names(ps: seq<(string, Schema)>): seq<string> {
    seq(|ps|, i requires 0 <= i < |ps| => ps[i].0)
  }

  /** An object with these keys and no others. */
  ghost predicate HasKeys(v: Json, keys: seq<string>) {
    v.JObj? && forall k :: k in v.o <==> k in keys
  }

  /** The object has exactly these properties, each as its schema has it. */
  ghost predicate Has(defs: map<string, Schema>, ps: seq<(string, Schema)>, v: Json) {
    && HasKeys(v, Names(ps))
    && (forall i | 0 <= i < |ps| :: Valid(defs, Draft07, ps[i].1, Get(v, ps[i].0)))
  }

  lemma AllFits(defs: map<string, Schema>, ps: seq<(string, Schema)>, v: Json)
    requires Distinct(ps)
    ensures Valid(defs, Draft07, ClosedObject(ps, Names(ps)), v) <==> Has(defs, ps, v)
  {
    ClosedFits(defs, ps, Names(ps), v);
    hide Valid, Distinct, ClosedObject;
    if Fits(defs, ps, Names(ps), v) {
      forall i | 0 <= i < |ps| ensures ps[i].0 in v.o {
        assert Names(ps)[i] == ps[i].0;
      }
      forall k ensures k in v.o <==> k in Names(ps) {
        if k in v.o {
          var i :| 0 <= i < |ps| && ps[i].0 == k;
          assert Names(ps)[i] == k;
        }
      }
    }
    if Has(defs, ps, v) {
      forall k | k in v.o ensures exists i | 0 <= i < |ps| :: ps[i].0 == k {
        var i :| 0 <= i < |Names(ps)| && Names(ps)[i] == k;
        assert ps[i].0 == k;
      }
      forall i | 0 <= i < |ps| ensures ps[i].0 in v.o {
        assert Names(ps)[i] == ps[i].0;
      }
    }
  }

  /** An acknowledgement of a subscription, new or already held. */
  ghost predicate IsAcknowledgement(m: string, ev: string, v: Json) {
    && v == Acknowledged(Get(v, "subscription"), m, ev, Get(v, "state"))
    && Handlers.IsSubscriptionId(Get(v, "subscription")) &&
      (Get(v, "state") == JStr("registered") || Get(v, "state") == JStr("active"))
  }

  ghost predicate IsDelivery(defs: map<string, Schema>, m: string, ev: string, data: Schema, v: Json) {
    && v == Delivered(Get(v, "subscription"), m, ev, Get(v, "data"), Get(v, "generation"), Get(v, "ts"))
    && Handlers.IsSubscriptionId(Get(v, "subscription")) && Valid(defs, Draft07, data, Get(v, "data"))
    && IsCounter(Get(v, "generation")) && IsCounter(Get(v, "ts"))
  }

  ghost predicate IsEnding(v: Json) {
    && v == Ended(Get(v, "subscription"), Get(v, "module"), Get(v, "event"), Get(v, "reason"))
    && Handlers.IsSubscriptionId(Get(v, "subscription")) && Get(v, "module").JStr? && Get(v, "event").JStr? &&
      Get(v, "reason").JStr?
  }

  // ---------------------------------------------------------------------------
  // Error objects
  // ---------------------------------------------------------------------------

  predicate IsText(v: Json) {
    v.JStr?
  }

  predicate Whole(v: Json) {
    v.JNum? && IsInteger(v.n)
  }

  ghost predicate IsDetail(v: Json) {
    v.JObj? && "reason" in v.o && IsText(v.o["reason"]) && ("path" in v.o ==> IsText(v.o["path"]))
  }

  ghost predicate IsErrorData(v: Json) {
    && v.JObj? && "logos_error_code" in v.o && Whole(v.o["logos_error_code"])
    && "logos_error_name" in v.o && IsText(v.o["logos_error_name"])
    && ("invalid_params_detail" in v.o ==> IsDetail(v.o["invalid_params_detail"]))
  }

  /** JSON-RPC 2.0, section 5.1, with the bridge's data. */
  ghost predicate IsError(v: Json) {
    && v.JObj? && "code" in v.o && Whole(v.o["code"]) && "message" in v.o && IsText(v.o["message"])
    && ("data" in v.o ==> IsErrorData(v.o["data"]))
  }

  /** An object with the required properties, and each one it has as its schema has it. */
  ghost predicate Opens(defs: map<string, Schema>, ps: seq<(string, Schema)>, required: seq<string>, v: Json) {
    && v.JObj? && (forall k | k in required :: k in v.o)
    && (forall i | 0 <= i < |ps| && ps[i].0 in v.o :: Valid(defs, Draft07, ps[i].1, v.o[ps[i].0]))
  }

  lemma OpenFits(defs: map<string, Schema>, ps: seq<(string, Schema)>, required: seq<string>, v: Json)
    requires Distinct(ps)
    ensures Valid(defs, Draft07, OpenObject(ps, required), v) <==> Opens(defs, ps, required, v)
  {
    PutKeeps(map[], ps);
    forall i | 0 <= i < |ps| ensures ps[i].0 in Put(map[], ps) && Put(map[], ps)[ps[i].0] == ps[i].1 {
      PutAt(ps, i);
    }
    hide Put, Distinct;
    if v.JObj? {
      OpenValid(defs, Put(map[], ps), ps, required, v);
    }
  }

  lemma OpenValid(defs: map<string, Schema>, m: map<string, Schema>, ps: seq<(string, Schema)>,
    required: seq<string>, v: Json)
    requires v.JObj? && (forall k | k in m :: (k, m[k]) in ps)
    requires forall i | 0 <= i < |ps| :: ps[i].0 in m && m[ps[i].0] == ps[i].1
    ensures
      Valid(defs, Draft07, Anything.(typ := Some(TObject), properties := m, required := required), v) <==>
        Opens(defs, ps, required, v)
  {
    var s := Anything.(typ := Some(TObject), properties := m, required := required);
    assert Valid(defs, Draft07, s, v) <==> ValidKeywords(defs, Draft07, s, v);
    assert ValidKeywords(defs, Draft07, s, v) <==>
           (forall k | k in required :: k in v.o) && (forall k | k in v.o && k in m :: Valid(defs, Draft07, m[k], v.o[k]));
    hide Valid, ValidKeywords;
    forall k | k in m ensures exists i | 0 <= i < |ps| :: ps[i].0 == k && ps[i].1 == m[k] {
      assert (k, m[k]) in ps;
    }
  }

  lemma DetailValid(defs: map<string, Schema>, v: Json)
    ensures Valid(defs, Draft07, ErrorDetailSchema, v) <==> IsDetail(v)
  {
    hide Valid, OpenObject, AnyText;
    var ps := [("reason", AnyText), ("path", AnyText)];
    assert |ps[0].0| == 6 && |ps[1].0| == 4;
    OpenFits(defs, ps, ["reason"], v);
    if v.JObj? {
      TextValid(defs, Get(v, "reason"));
      TextValid(defs, Get(v, "path"));
    }
    assert ps[0] == ("reason", AnyText) && ps[1] == ("path", AnyText);
  }

  lemma DataValid(defs: map<string, Schema>, v: Json)
    ensures Valid(defs, Draft07, ErrorDataSchema, v) <==> IsErrorData(v)
  {
    hide Valid, OpenObject, AnyText, AnyInteger, IsDetail;
    hide ErrorDetailSchema;
    var ps := [("logos_error_code", AnyInteger), ("logos_error_name", AnyText), ("invalid_params_detail",
      ErrorDetailSchema)];
    assert ps[0].0[12] == 'c' && ps[1].0[12] == 'n' && |ps[2].0| == 21;
    OpenFits(defs, ps, ["logos_error_code", "logos_error_name"], v);
    if v.JObj? {
      TextValid(defs, Get(v, "logos_error_code"));
      TextValid(defs, Get(v, "logos_error_name"));
      DetailValid(defs, Get(v, "invalid_params_detail"));
    }
    assert ps[0] == ("logos_error_code", AnyInteger) && ps[1] == ("logos_error_name", AnyText) &&
           ps[2] == ("invalid_params_detail", ErrorDetailSchema);
    if v.JObj? {
      DataNeeds(v);
    }
  }

  lemma DataNeeds(v: Json)
    requires v.JObj?
    ensures (forall k | k in ["logos_error_code", "logos_error_name"] :: k in v.o) <==>
      "logos_error_code" in v.o && "logos_error_name" in v.o
  {
    var ks := ["logos_error_code", "logos_error_name"];
    assert ks[0] in ks && ks[1] in ks;
  }

  lemma ErrorValid(defs: map<string, Schema>, v: Json)
    requires OwnBound(defs)
    ensures Valid(defs, Draft07, Ref("JsonRpcError"), v) <==> IsError(v)
  {
    hide OwnComponents, Ref;
    OwnAt(0);
    RefValid(defs, OwnComponents[0], v);
    ErrorMembers(defs, v);
    hide Valid, OwnBound, IsError, ErrorSchema;
  }

  lemma ErrorMembers(defs: map<string, Schema>, v: Json)
    ensures Valid(defs, Draft07, ErrorSchema, v) <==> IsError(v)
  {
    hide Valid, OpenObject, AnyText, AnyInteger, IsErrorData;
    hide ErrorDataSchema;
    var ps := [("code", AnyInteger), ("message", AnyText), ("data", ErrorDataSchema)];
    assert ps[0].0[0] == 'c' && |ps[1].0| == 7 && ps[2].0[0] == 'd';
    OpenFits(defs, ps, ["code", "message"], v);
    if v.JObj? {
      TextValid(defs, Get(v, "code"));
      TextValid(defs, Get(v, "message"));
      DataValid(defs, Get(v, "data"));
    }
    assert ps[0] == ("code", AnyInteger) && ps[1] == ("message", AnyText) && ps[2] == ("data", ErrorDataSchema);
    var ks := ["code", "message"];
    assert ks[0] in ks && ks[1] in ks;
  }

  // ---------------------------------------------------------------------------
  // Payloads
  // ---------------------------------------------------------------------------

  function ResultParts(result: Schema): seq<(string, Schema)> {
    [("jsonrpc", Const("2.0")),
     ("id", Ref("JsonRpcId")),
     ("result", result)]
  }

  lemma ResultShape(result: Schema)
    ensures Distinct(ResultParts(result)) &&
      ResultPayload(result) == ClosedObject(ResultParts(result), ["jsonrpc", "id", "result"]) &&
      Names(ResultParts(result)) == ["jsonrpc", "id", "result"]
  {
    hide ClosedObject, Const, Ref, AnyText;
    var ps := ResultParts(result);
    assert ps[0].0 == "jsonrpc" && ps[1].0 == "id" && ps[2].0 == "result";
    assert Names(ps) == ["jsonrpc", "id", "result"];
  }

  lemma ResultHas(defs: map<string, Schema>, result: Schema, v: Json)
    ensures
      Has(defs, ResultParts(result), v) <==>
      && HasKeys(v, ["jsonrpc", "id", "result"])
      && Valid(defs, Draft07, Const("2.0"), Get(v, "jsonrpc")) &&
        Valid(defs, Draft07, Ref("JsonRpcId"), Get(v, "id")) && Valid(defs, Draft07, result, Get(v, "result"))
  {
    ResultShape(result);
    hide Valid, Const, Ref, Get, Names, ClosedObject, Distinct, AnyText;
    var ps := ResultParts(result);
    assert ps[0] == ("jsonrpc", Const("2.0")) && ps[1] == ("id", Ref("JsonRpcId")) && ps[2] == ("result", result);
  }

  lemma ResultIs(v: Json)
    ensures v == MakeResult(Get(v, "id"), Get(v, "result")) <==>
      HasKeys(v, ["jsonrpc", "id", "result"]) && Get(v, "jsonrpc") == VERSION
  {
    var w := MakeResult(Get(v, "id"), Get(v, "result"));
    if HasKeys(v, ["jsonrpc", "id", "result"]) && Get(v, "jsonrpc") == VERSION {
      assert "jsonrpc" in v.o && "id" in v.o && "result" in v.o;
      assert forall k :: k in w.o <==> k in ["jsonrpc", "id", "result"];
      assert v.o == w.o;
    }
  }

  /** A reply carries an id and a result. */
  lemma ResultExactly(defs: map<string, Schema>, result: Schema, v: Json)
    requires OwnBound(defs)
    ensures Valid(defs, Draft07, ResultPayload(result), v) <==> IsReply(defs, result, v)
  {
    ResultShape(result);
    AllFits(defs, ResultParts(result), v);
    ResultHas(defs, result, v);
    ResultIs(v);
    ConstValid(defs, "2.0", Get(v, "jsonrpc"));
    IdValid(defs, Get(v, "id"));
    hide Valid, OwnBound, Distinct, ClosedObject, Const, Ref, Get, Names, Has, ResultPayload, MakeResult, Dispatchers.IsId;
  }

  function NotificationParts(name: string, params: Schema): seq<(string, Schema)> {
    [("jsonrpc", Const("2.0")),
     ("method", Const(name)),
     ("params", params)]
  }

  lemma NotificationShape(name: string, params: Schema)
    ensures Distinct(NotificationParts(name, params)) &&
      NotificationPayload(name, params) == ClosedObject(NotificationParts(name, params), ["jsonrpc", "method",
      "params"]) && Names(NotificationParts(name, params)) == ["jsonrpc", "method", "params"]
  {
    hide ClosedObject, Const, Ref, AnyText;
    var ps := NotificationParts(name, params);
    assert ps[0].0 == "jsonrpc" && ps[1].0 == "method" && ps[2].0 == "params";
    assert ps[1].0[0] == 'm' && ps[2].0[0] == 'p';
    assert Names(ps) == ["jsonrpc", "method", "params"];
  }

  lemma NotificationHas(defs: map<string, Schema>, name: string, params: Schema, v: Json)
    ensures
      Has(defs, NotificationParts(name, params), v) <==>
      && HasKeys(v, ["jsonrpc", "method", "params"])
      && Valid(defs, Draft07, Const("2.0"), Get(v, "jsonrpc")) &&
        Valid(defs, Draft07, Const(name), Get(v, "method")) && Valid(defs, Draft07, params, Get(v, "params"))
  {
    NotificationShape(name, params);
    hide Valid, Const, Ref, Get, Names, ClosedObject, Distinct, AnyText;
    var ps := NotificationParts(name, params);
    assert ps[0] == ("jsonrpc", Const("2.0")) && ps[1] == ("method", Const(name)) && ps[2] == ("params", params);
  }

  lemma NotificationIs(name: string, v: Json)
    ensures v == MakeNotification(name, Get(v, "params")) <==>
      HasKeys(v, ["jsonrpc", "method", "params"]) && Get(v, "jsonrpc") == VERSION && Get(v, "method") == JStr(name)
  {
    var w := MakeNotification(name, Get(v, "params"));
    if HasKeys(v, ["jsonrpc", "method", "params"]) && Get(v, "jsonrpc") == VERSION && Get(v, "method") == JStr(name) {
      assert "jsonrpc" in v.o && "method" in v.o && "params" in v.o;
      assert forall k :: k in w.o <==> k in ["jsonrpc", "method", "params"];
      assert v.o == w.o;
    }
  }

  /** A notification carries its method and params, and no id. */
  lemma NotificationExactly(defs: map<string, Schema>, name: string, params: Schema, v: Json)
    requires OwnBound(defs)
    ensures Valid(defs, Draft07, NotificationPayload(name, params), v) <==> IsNotification(defs, name, params, v)
  {
    NotificationShape(name, params);
    AllFits(defs, NotificationParts(name, params), v);
    NotificationHas(defs, name, params, v);
    NotificationIs(name, v);
    ConstValid(defs, "2.0", Get(v, "jsonrpc"));
    ConstValid(defs, name, Get(v, "method"));
    hide Valid, OwnBound, Distinct, ClosedObject, Const, Ref, Get, Names, Has, NotificationPayload, MakeNotification;
  }

  function ErrorParts(): seq<(string, Schema)> {
    [("jsonrpc", Const("2.0")),
     ("id", Ref("JsonRpcId")),
     ("error", Ref("JsonRpcError"))]
  }

  lemma ErrorShape()
    ensures Distinct(ErrorParts()) && ErrorPayload == ClosedObject(ErrorParts(), ["jsonrpc", "id", "error"]) &&
      Names(ErrorParts()) == ["jsonrpc", "id", "error"]
  {
    hide ClosedObject, Const, Ref, AnyText;
    var ps := ErrorParts();
    assert ps[0].0 == "jsonrpc" && ps[1].0 == "id" && ps[2].0 == "error";
    assert Names(ps) == ["jsonrpc", "id", "error"];
  }

  lemma ErrorHas(defs: map<string, Schema>, v: Json)
    ensures
      Has(defs, ErrorParts(), v) <==>
      && HasKeys(v, ["jsonrpc", "id", "error"])
      && Valid(defs, Draft07, Const("2.0"), Get(v, "jsonrpc")) &&
        Valid(defs, Draft07, Ref("JsonRpcId"), Get(v, "id")) && Valid(defs, Draft07, Ref("JsonRpcError"), Get(v, "error"))
  {
    ErrorShape();
    hide Valid, Const, Ref, Get, Names, ClosedObject, Distinct, AnyText;
    var ps := ErrorParts();
    assert ps[0] == ("jsonrpc", Const("2.0")) && ps[1] == ("id", Ref("JsonRpcId")) &&
      ps[2] == ("error", Ref("JsonRpcError"));
  }

  lemma ErrorIs(v: Json)
    ensures v == MakeError(Get(v, "id"), Get(v, "error")) <==>
      HasKeys(v, ["jsonrpc", "id", "error"]) && Get(v, "jsonrpc") == VERSION
  {
    var w := MakeError(Get(v, "id"), Get(v, "error"));
    if HasKeys(v, ["jsonrpc", "id", "error"]) && Get(v, "jsonrpc") == VERSION {
      assert "jsonrpc" in v.o && "id" in v.o && "error" in v.o;
      assert forall k :: k in w.o <==> k in ["jsonrpc", "id", "error"];
      assert v.o == w.o;
    }
  }

  /** An error reply carries an id and an error object. */
  lemma ErrorExactly(defs: map<string, Schema>, v: Json)
    requires OwnBound(defs)
    ensures Valid(defs, Draft07, ErrorPayload, v) <==>
      v == MakeError(Get(v, "id"), Get(v, "error")) && Dispatchers.IsId(Get(v, "id")) && IsError(Get(v, "error"))
  {
    ErrorShape();
    AllFits(defs, ErrorParts(), v);
    ErrorHas(defs, v);
    ErrorIs(v);
    ConstValid(defs, "2.0", Get(v, "jsonrpc"));
    IdValid(defs, Get(v, "id"));
    ErrorValid(defs, Get(v, "error"));
    hide Valid, OwnBound, Distinct, ClosedObject, Const, Ref, Get, Names, Has, ErrorPayload, MakeError;
    hide Dispatchers.IsId, IsError;
  }

  function TargetParts(m: string, ev: string): seq<(string, Schema)> {
    [("subscription", Ref("SubscriptionId")),
     ("module", Const(m)),
     ("event", Const(ev))]
  }

  lemma TargetShape(m: string, ev: string)
    ensures Distinct(TargetParts(m, ev)) &&
      SubscribeParams(m, ev) == ClosedObject(TargetParts(m, ev), ["subscription", "module", "event"]) &&
      Names(TargetParts(m, ev)) == ["subscription", "module", "event"]
  {
    hide ClosedObject, Const, Ref, AnyText;
    var ps := TargetParts(m, ev);
    assert ps[0].0 == "subscription" && ps[1].0 == "module" && ps[2].0 == "event";
    assert Names(ps) == ["subscription", "module", "event"];
  }

  lemma TargetHas(defs: map<string, Schema>, m: string, ev: string, v: Json)
    ensures
      Has(defs, TargetParts(m, ev), v) <==>
      && HasKeys(v, ["subscription", "module", "event"])
      && Valid(defs, Draft07, Ref("SubscriptionId"), Get(v, "subscription")) &&
        Valid(defs, Draft07, Const(m), Get(v, "module")) && Valid(defs, Draft07, Const(ev), Get(v, "event"))
  {
    TargetShape(m, ev);
    hide Valid, Const, Ref, Get, Names, ClosedObject, Distinct, AnyText;
    var ps := TargetParts(m, ev);
    assert ps[0] == ("subscription", Ref("SubscriptionId")) && ps[1] == ("module", Const(m)) &&
      ps[2] == ("event", Const(ev));
  }

  lemma TargetIs(m: string, ev: string, v: Json)
    ensures v == EventTarget(Get(v, "subscription"), m, ev) <==>
      HasKeys(v, ["subscription", "module", "event"]) && Get(v, "module") == JStr(m) && Get(v, "event") == JStr(ev)
  {
    var w := EventTarget(Get(v, "subscription"), m, ev);
    if HasKeys(v, ["subscription", "module", "event"]) && Get(v, "module") == JStr(m) && Get(v, "event") == JStr(ev) {
      assert "subscription" in v.o && "module" in v.o && "event" in v.o;
      assert forall k :: k in w.o <==> k in ["subscription", "module", "event"];
      assert v.o == w.o;
    }
  }

  /** A subscribe names this event, under an id of the client's. */
  lemma TargetExactly(defs: map<string, Schema>, m: string, ev: string, v: Json)
    requires OwnBound(defs)
    ensures Valid(defs, Draft07, SubscribeParams(m, ev), v) <==>
      v == EventTarget(Get(v, "subscription"), m, ev) && Handlers.IsSubscriptionId(Get(v, "subscription"))
  {
    TargetShape(m, ev);
    AllFits(defs, TargetParts(m, ev), v);
    TargetHas(defs, m, ev, v);
    TargetIs(m, ev, v);
    SubscriptionValid(defs, Get(v, "subscription"));
    ConstValid(defs, m, Get(v, "module"));
    ConstValid(defs, ev, Get(v, "event"));
    hide Valid, OwnBound, Distinct, ClosedObject, Const, Ref, Get, Names, Has, SubscribeParams, EventTarget;
  }

  function AcknowledgedParts(m: string, ev: string): seq<(string, Schema)> {
    [("subscription", Ref("SubscriptionId")),
     ("operation", Const("subscribe")),
     ("module", Const(m)),
     ("event", Const(ev)),
     ("state", Ref("SubscriptionState"))]
  }

  lemma AcknowledgedShape(m: string, ev: string)
    ensures Distinct(AcknowledgedParts(m, ev)) &&
      SubscribeReply(m, ev) == ClosedObject(AcknowledgedParts(m, ev), ["subscription", "operation", "module",
      "event", "state"]) && Names(AcknowledgedParts(m, ev)) == ["subscription", "operation", "module", "event", "state"]
  {
    hide ClosedObject, Const, Ref, AnyText;
    var ps := AcknowledgedParts(m, ev);
    assert ps[0].0 == "subscription" && ps[1].0 == "operation" && ps[2].0 == "module" && ps[3].0 == "event" &&
      ps[4].0 == "state";
    assert ps[3].0[0] == 'e' && ps[4].0[0] == 's';
    assert Names(ps) == ["subscription", "operation", "module", "event", "state"];
  }

  lemma AcknowledgedHas(defs: map<string, Schema>, m: string, ev: string, v: Json)
    ensures
      Has(defs, AcknowledgedParts(m, ev), v) <==>
      && HasKeys(v, ["subscription", "operation", "module", "event", "state"])
      && Valid(defs, Draft07, Ref("SubscriptionId"), Get(v, "subscription")) &&
        Valid(defs, Draft07, Const("subscribe"), Get(v, "operation")) &&
        Valid(defs, Draft07, Const(m), Get(v, "module")) && Valid(defs, Draft07, Const(ev), Get(v, "event")) &&
        Valid(defs, Draft07, Ref("SubscriptionState"), Get(v, "state"))
  {
    AcknowledgedShape(m, ev);
    hide Valid, Const, Ref, Get, Names, ClosedObject, Distinct, AnyText;
    var ps := AcknowledgedParts(m, ev);
    assert ps[0] == ("subscription", Ref("SubscriptionId")) && ps[1] == ("operation", Const("subscribe")) &&
      ps[2] == ("module", Const(m)) && ps[3] == ("event", Const(ev)) && ps[4] == ("state", Ref("SubscriptionState"));
  }

  lemma AcknowledgedIs(m: string, ev: string, v: Json)
    ensures v == Acknowledged(Get(v, "subscription"), m, ev, Get(v, "state")) <==>
      HasKeys(v, ["subscription", "operation", "module", "event", "state"]) &&
      Get(v, "operation") == JStr("subscribe") && Get(v, "module") == JStr(m) && Get(v, "event") == JStr(ev)
  {
    var w := Acknowledged(Get(v, "subscription"), m, ev, Get(v, "state"));
    AcknowledgedKeys(Get(v, "subscription"), m, ev, Get(v, "state"));
    hide Acknowledged;
    if HasKeys(v, ["subscription", "operation", "module", "event", "state"]) &&
      Get(v, "operation") == JStr("subscribe") && Get(v, "module") == JStr(m) && Get(v, "event") == JStr(ev) {
      assert v.o == w.o;
    }
  }

  lemma AcknowledgedKeys(subscription: Json, m: string, ev: string, state: Json)
    ensures
      var w := Acknowledged(subscription, m, ev, state);
      && HasKeys(w, ["subscription", "operation", "module", "event", "state"])
      && Get(w, "subscription") == subscription && Get(w, "operation") == JStr("subscribe") && Get(w, "module") == JStr(m)
      && Get(w, "event") == JStr(ev) && Get(w, "state") == state
  {
  }

  /** It is acknowledged as registered or active, and in no other way. */
  lemma AcknowledgedExactly(defs: map<string, Schema>, m: string, ev: string, v: Json)
    requires OwnBound(defs)
    ensures Valid(defs, Draft07, SubscribeReply(m, ev), v) <==> IsAcknowledgement(m, ev, v)
  {
    AcknowledgedShape(m, ev);
    AllFits(defs, AcknowledgedParts(m, ev), v);
    AcknowledgedHas(defs, m, ev, v);
    AcknowledgedIs(m, ev, v);
    SubscriptionValid(defs, Get(v, "subscription"));
    ConstValid(defs, "subscribe", Get(v, "operation"));
    ConstValid(defs, m, Get(v, "module"));
    ConstValid(defs, ev, Get(v, "event"));
    StateValid(defs, Get(v, "state"));
    hide Valid, OwnBound, Distinct, ClosedObject, Const, Ref, Get, Names, Has, SubscribeReply, Acknowledged;
  }

  function DeliveredParts(m: string, ev: string, data: Schema): seq<(string, Schema)> {
    [("subscription", Ref("SubscriptionId")),
     ("module", Const(m)),
     ("event", Const(ev)),
     ("data", data),
     ("generation", Ref("EventGeneration")),
     ("ts", Ref("EventTimestamp"))]
  }

  lemma DeliveredShape(m: string, ev: string, data: Schema)
    ensures Distinct(DeliveredParts(m, ev, data)) &&
      EventParams(m, ev, data) == ClosedObject(DeliveredParts(m, ev, data), ["subscription", "module", "event",
      "data", "generation", "ts"]) &&
      Names(DeliveredParts(m, ev, data)) == ["subscription", "module", "event", "data", "generation", "ts"]
  {
    hide ClosedObject, Const, Ref, AnyText;
    var ps := DeliveredParts(m, ev, data);
    assert ps[0].0 == "subscription" && ps[1].0 == "module" && ps[2].0 == "event" && ps[3].0 == "data" &&
      ps[4].0 == "generation" && ps[5].0 == "ts";
    assert Names(ps) == ["subscription", "module", "event", "data", "generation", "ts"];
  }

  lemma DeliveredHas(defs: map<string, Schema>, m: string, ev: string, data: Schema, v: Json)
    ensures
      Has(defs, DeliveredParts(m, ev, data), v) <==>
      && HasKeys(v, ["subscription", "module", "event", "data", "generation", "ts"])
      && Valid(defs, Draft07, Ref("SubscriptionId"), Get(v, "subscription")) &&
        Valid(defs, Draft07, Const(m), Get(v, "module")) && Valid(defs, Draft07, Const(ev), Get(v, "event")) &&
        Valid(defs, Draft07, data, Get(v, "data")) &&
        Valid(defs, Draft07, Ref("EventGeneration"), Get(v, "generation")) &&
        Valid(defs, Draft07, Ref("EventTimestamp"), Get(v, "ts"))
  {
    DeliveredShape(m, ev, data);
    hide Valid, Const, Ref, Get, Names, ClosedObject, Distinct, AnyText;
    var ps := DeliveredParts(m, ev, data);
    assert ps[0] == ("subscription", Ref("SubscriptionId")) && ps[1] == ("module", Const(m)) &&
      ps[2] == ("event", Const(ev)) && ps[3] == ("data", data) && ps[4] == ("generation", Ref("EventGeneration")) &&
      ps[5] == ("ts", Ref("EventTimestamp"));
  }

  lemma DeliveredIs(m: string, ev: string, v: Json)
    ensures v == Delivered(Get(v, "subscription"), m, ev, Get(v, "data"), Get(v, "generation"), Get(v, "ts")) <==>
      HasKeys(v, ["subscription", "module", "event", "data", "generation", "ts"]) && Get(v, "module") == JStr(m) &&
      Get(v, "event") == JStr(ev)
  {
    var w := Delivered(Get(v, "subscription"), m, ev, Get(v, "data"), Get(v, "generation"), Get(v, "ts"));
    DeliveredKeys(Get(v, "subscription"), m, ev, Get(v, "data"), Get(v, "generation"), Get(v, "ts"));
    hide Delivered;
    if HasKeys(v, ["subscription", "module", "event", "data", "generation", "ts"]) && Get(v, "module") == JStr(m) &&
      Get(v, "event") == JStr(ev) {
      assert v.o == w.o;
    }
  }

  lemma DeliveredKeys(subscription: Json, m: string, ev: string, data: Json, generation: Json, ts: Json)
    ensures
      var w := Delivered(subscription, m, ev, data, generation, ts);
      && HasKeys(w, ["subscription", "module", "event", "data", "generation", "ts"])
      && Get(w, "subscription") == subscription && Get(w, "module") == JStr(m) && Get(w, "event") == JStr(ev)
      && Get(w, "data") == data && Get(w, "generation") == generation && Get(w, "ts") == ts
  {
  }

  /** An event carries its subscription, name, data, generation and time. */
  lemma DeliveredExactly(defs: map<string, Schema>, m: string, ev: string, data: Schema, v: Json)
    requires OwnBound(defs)
    ensures Valid(defs, Draft07, EventParams(m, ev, data), v) <==> IsDelivery(defs, m, ev, data, v)
  {
    DeliveredShape(m, ev, data);
    AllFits(defs, DeliveredParts(m, ev, data), v);
    DeliveredHas(defs, m, ev, data, v);
    DeliveredIs(m, ev, v);
    SubscriptionValid(defs, Get(v, "subscription"));
    ConstValid(defs, m, Get(v, "module"));
    ConstValid(defs, ev, Get(v, "event"));
    CounterValid(defs, Get(v, "generation"));
    CounterValid(defs, Get(v, "ts"));
    hide Valid, OwnBound, Distinct, ClosedObject, Const, Ref, Get, Names, Has, EventParams, Delivered, IsCounter;
  }

  function UnsubscribeParts(): seq<(string, Schema)> {
    [("subscription", Ref("SubscriptionId"))]
  }

  lemma UnsubscribeShape()
    ensures Distinct(UnsubscribeParts()) &&
      UnsubscribeParams == ClosedObject(UnsubscribeParts(), ["subscription"]) &&
      Names(UnsubscribeParts()) == ["subscription"]
  {
    hide ClosedObject, Const, Ref, AnyText;
    var ps := UnsubscribeParts();
    assert ps[0].0 == "subscription";
    assert Names(ps) == ["subscription"];
  }

  lemma UnsubscribeHas(defs: map<string, Schema>, v: Json)
    ensures
      Has(defs, UnsubscribeParts(), v) <==>
      && HasKeys(v, ["subscription"])
      && Valid(defs, Draft07, Ref("SubscriptionId"), Get(v, "subscription"))
  {
    UnsubscribeShape();
    hide Valid, Const, Ref, Get, Names, ClosedObject, Distinct, AnyText;
    var ps := UnsubscribeParts();
    assert ps[0] == ("subscription", Ref("SubscriptionId"));
  }

  lemma UnsubscribeIs(v: Json)
    ensures v == JObj(map["subscription" := Get(v, "subscription")]) <==> HasKeys(v, ["subscription"])
  {
    var w := JObj(map["subscription" := Get(v, "subscription")]);
    if HasKeys(v, ["subscription"]) {
      assert "subscription" in v.o;
      assert forall k :: k in w.o <==> k in ["subscription"];
      assert v.o == w.o;
    }
  }

  /** An unsubscribe names its subscription. */
  lemma UnsubscribeExactly(defs: map<string, Schema>, v: Json)
    requires OwnBound(defs)
    ensures Valid(defs, Draft07, UnsubscribeParams, v) <==>
      v == JObj(map["subscription" := Get(v, "subscription")]) && Handlers.IsSubscriptionId(Get(v, "subscription"))
  {
    UnsubscribeShape();
    AllFits(defs, UnsubscribeParts(), v);
    UnsubscribeHas(defs, v);
    UnsubscribeIs(v);
    SubscriptionValid(defs, Get(v, "subscription"));
    hide Valid, OwnBound, Distinct, ClosedObject, Const, Ref, Get, Names, Has, UnsubscribeParams;
  }

  function UnsubscribedParts(): seq<(string, Schema)> {
    [("subscription", Ref("SubscriptionId")),
     ("operation", Const("unsubscribe"))]
  }

  lemma UnsubscribedShape()
    ensures Distinct(UnsubscribedParts()) &&
      UnsubscribeReply == ClosedObject(UnsubscribedParts(), ["subscription", "operation"]) &&
      Names(UnsubscribedParts()) == ["subscription", "operation"]
  {
    hide ClosedObject, Const, Ref, AnyText;
    var ps := UnsubscribedParts();
    assert ps[0].0 == "subscription" && ps[1].0 == "operation";
    assert Names(ps) == ["subscription", "operation"];
  }

  lemma UnsubscribedHas(defs: map<string, Schema>, v: Json)
    ensures
      Has(defs, UnsubscribedParts(), v) <==>
      && HasKeys(v, ["subscription", "operation"])
      && Valid(defs, Draft07, Ref("SubscriptionId"), Get(v, "subscription")) &&
        Valid(defs, Draft07, Const("unsubscribe"), Get(v, "operation"))
  {
    UnsubscribedShape();
    hide Valid, Const, Ref, Get, Names, ClosedObject, Distinct, AnyText;
    var ps := UnsubscribedParts();
    assert ps[0] == ("subscription", Ref("SubscriptionId")) && ps[1] == ("operation", Const("unsubscribe"));
  }

  lemma UnsubscribedIs(v: Json)
    ensures v == Handlers.Acknowledged("unsubscribe", Get(v, "subscription")) <==>
      HasKeys(v, ["subscription", "operation"]) && Get(v, "operation") == JStr("unsubscribe")
  {
    var w := Handlers.Acknowledged("unsubscribe", Get(v, "subscription"));
    if HasKeys(v, ["subscription", "operation"]) && Get(v, "operation") == JStr("unsubscribe") {
      assert "subscription" in v.o && "operation" in v.o;
      assert forall k :: k in w.o <==> k in ["subscription", "operation"];
      assert v.o == w.o;
    }
  }

  /** And is acknowledged with it. */
  lemma UnsubscribedExactly(defs: map<string, Schema>, v: Json)
    requires OwnBound(defs)
    ensures Valid(defs, Draft07, UnsubscribeReply, v) <==>
      v == Handlers.Acknowledged("unsubscribe", Get(v, "subscription")) && Handlers.IsSubscriptionId(Get(v, "subscription"))
  {
    UnsubscribedShape();
    AllFits(defs, UnsubscribedParts(), v);
    UnsubscribedHas(defs, v);
    UnsubscribedIs(v);
    SubscriptionValid(defs, Get(v, "subscription"));
    ConstValid(defs, "unsubscribe", Get(v, "operation"));
    hide Valid, OwnBound, Distinct, ClosedObject, Const, Ref, Get, Names, Has, UnsubscribeReply, Handlers.Acknowledged;
  }

  function EndedParts(): seq<(string, Schema)> {
    [("subscription", Ref("SubscriptionId")),
     ("module", AnyText),
     ("event", AnyText),
     ("reason", AnyText)]
  }

  lemma EndedShape()
    ensures Distinct(EndedParts()) &&
      TerminatedParams == ClosedObject(EndedParts(), ["subscription", "module", "event", "reason"]) &&
      Names(EndedParts()) == ["subscription", "module", "event", "reason"]
  {
    hide ClosedObject, Const, Ref, AnyText;
    var ps := EndedParts();
    assert ps[0].0 == "subscription" && ps[1].0 == "module" && ps[2].0 == "event" && ps[3].0 == "reason";
    assert ps[1].0[0] == 'm' && ps[3].0[0] == 'r';
    assert Names(ps) == ["subscription", "module", "event", "reason"];
  }

  lemma EndedHas(defs: map<string, Schema>, v: Json)
    ensures
      Has(defs, EndedParts(), v) <==>
      && HasKeys(v, ["subscription", "module", "event", "reason"])
      && Valid(defs, Draft07, Ref("SubscriptionId"), Get(v, "subscription")) &&
        Valid(defs, Draft07, AnyText, Get(v, "module")) && Valid(defs, Draft07, AnyText, Get(v, "event")) &&
        Valid(defs, Draft07, AnyText, Get(v, "reason"))
  {
    EndedShape();
    hide Valid, Const, Ref, Get, Names, ClosedObject, Distinct, AnyText;
    var ps := EndedParts();
    assert ps[0] == ("subscription", Ref("SubscriptionId")) && ps[1] == ("module", AnyText) &&
      ps[2] == ("event", AnyText) && ps[3] == ("reason", AnyText);
  }

  lemma EndedIs(v: Json)
    ensures v == Ended(Get(v, "subscription"), Get(v, "module"), Get(v, "event"), Get(v, "reason")) <==>
      HasKeys(v, ["subscription", "module", "event", "reason"])
  {
    var w := Ended(Get(v, "subscription"), Get(v, "module"), Get(v, "event"), Get(v, "reason"));
    if HasKeys(v, ["subscription", "module", "event", "reason"]) {
      assert "subscription" in v.o && "module" in v.o && "event" in v.o && "reason" in v.o;
      assert forall k :: k in w.o <==> k in ["subscription", "module", "event", "reason"];
      assert v.o == w.o;
    }
  }

  /** A termination says which subscription ended, and why. */
  lemma EndedExactly(defs: map<string, Schema>, v: Json)
    requires OwnBound(defs)
    ensures Valid(defs, Draft07, TerminatedParams, v) <==> IsEnding(v)
  {
    EndedShape();
    AllFits(defs, EndedParts(), v);
    EndedHas(defs, v);
    EndedIs(v);
    SubscriptionValid(defs, Get(v, "subscription"));
    TextValid(defs, Get(v, "module"));
    TextValid(defs, Get(v, "event"));
    TextValid(defs, Get(v, "reason"));
    hide Valid, OwnBound, Distinct, ClosedObject, Const, Ref, Get, Names, Has, TerminatedParams, Ended, AnyText;
  }
}
