/** One request's path: answered on the spot, or queued as one job that answers later. What discovery, the
    registry, the pump and the connection's table say at that moment is `Env`. */
module Handlers {
  import opened Prelude
  import opened JsonSchemas
  import opened Dispatchers
  import BridgeConfigs
  import ModuleViews
  import Translations

  /** `views`: discovery's views; `clients`: the modules the registry has a client for; `held`: subscription ids the
      connection holds; `full`: it holds as many as it may; `queues`: the pump takes jobs. */
  datatype Env = Env(config: seq<BridgeConfigs.ExposedModule>, views: map<string, ModuleViews.View>, clients: set<string>,
                     described: map<string, Json>, listed: Json, held: set<Json>, full: bool, queues: bool)
  {
    function ViewOf(m: string): ModuleViews.View {
      if m in views then views[m] else ModuleViews.PendingView(m)
    }

    function ModuleOf(m: string): Option<BridgeConfigs.ExposedModule> {
      var i := BridgeConfigs.Find(config, m);
      if i < |config| then Some(config[i]) else None
    }

    predicate MayCall(m: string, callee: string) {
      ModuleViews.MethodPermitted(ModuleOf(m), ViewOf(m), callee)
    }

    predicate MayHear(m: string, event: string) {
      ModuleViews.EventPermitted(ModuleOf(m), ViewOf(m), event)
    }
  }

  datatype Job =
    | Discover(id: Json)
    | CallUp(id: Json, name: string, callee: string, args: Json)
    | SubscribeUp(id: Json, name: string, event: string, subscription: Json)

  datatype Outcome = Fill(response: Response) | Queue(job: Job)

  datatype Failure = Rpc(error: RpcError) | ShuttingDown | Overloaded | SchemaMismatch

  function ErrorBody(f: Failure): Json {
    match f
    case Rpc(InvalidRequest) => JStr("invalid request")
    case Rpc(InvalidParams) => JStr("invalid params")
    case Rpc(NotFound) => JStr("not found")
    case ShuttingDown => JStr("shutting down")
    case Overloaded => JStr("overloaded")
    case SchemaMismatch => JStr("schema-mismatch")
  }

  function Fails(id: Json, f: Failure): Outcome {
    Fill(Response(id, true, ErrorBody(f)))
  }

  function Answers(id: Json, body: Json): Outcome {
    Fill(Response(id, false, body))
  }

  function Submitted(env: Env, id: Json, job: Job): Outcome {
    if env.queues then Queue(job) else Fails(id, ShuttingDown)
  }

  /** By-name parameters are put in order; an array passes as it is. */
  function Arguments(v: ModuleViews.View, callee: string, params: Json): Option<Json> {
    if !params.JObj? then Some(params)
    else
      var known := Translations.KnownParams(v, callee);
      if known.Some? && Translations.Translates(known.value, params.o) then
        Some(JArr(Translations.InOrder(known.value, params.o)))
      else None
  }

  /** The one module-call path. */
  function Dispatched(env: Env, id: Json, t: CallTarget): Outcome {
    if !env.MayCall(t.name, t.callee) then Fails(id, Rpc(NotFound))
    else
      match Arguments(env.ViewOf(t.name), t.callee, t.params)
      case None => Fails(id, SchemaMismatch)
      case Some(args) =>
        if t.name !in env.clients then Fails(id, Rpc(NotFound)) else Submitted(env, id, CallUp(id, t.name, t.callee, args))
  }

  function ToTarget(env: Env, id: Json, t: Target): Outcome {
    match t
    case NoCall(e) => Fails(id, Rpc(e))
    case Call(target) => Dispatched(env, id, target)
  }

  predicate IsSubscriptionId(v: Json) {
    v.JStr? || v.JNum?
  }

  predicate NamesSubscription(p: Json) {
    p.JObj? && "subscription" in p.o && IsSubscriptionId(p.o["subscription"])
  }

  predicate NamesEvent(p: Json) {
    && p.JObj? && "module" in p.o && p.o["module"].JStr? && "event" in p.o && p.o["event"].JStr?
    && p.o["module"].s != "" && p.o["event"].s != ""
  }

  function Acknowledged(operation: string, subscription: Json): Json {
    JObj(map["subscription" := subscription, "operation" := JStr(operation)])
  }

  function Active(m: string, ev: string, subscription: Json): Json {
    JObj(map["subscription" := subscription, "operation" := JStr("subscribe"), "module" := JStr(m), "event" := JStr(ev),
             "state" := JStr("active")])
  }

  function Subscribed(env: Env, id: Json, p: Json): Outcome {
    if !NamesSubscription(p) || !NamesEvent(p) then Fails(id, Rpc(InvalidParams))
    else if !env.MayHear(p.o["module"].s, p.o["event"].s) then Fails(id, Rpc(NotFound))
    else if p.o["subscription"] in env.held then Answers(id, Active(p.o["module"].s, p.o["event"].s, p.o["subscription"]))
    else if env.full then Fails(id, Overloaded)
    else Submitted(env, id, SubscribeUp(id, p.o["module"].s, p.o["event"].s, p.o["subscription"]))
  }

  function Described(env: Env, id: Json, p: Json): Outcome {
    if !p.JObj? || "module" !in p.o || !p.o["module"].JStr? then Fails(id, Rpc(InvalidParams))
    else if p.o["module"].s !in env.described then Fails(id, Rpc(NotFound))
    else Answers(id, env.described[p.o["module"].s])
  }

  const CancelReply := JObj(map["cancelled" := JBool(false), "reason" := JStr("not_supported_upstream")])

  function Operation(env: Env, r: Request): Outcome {
    var p := if r.params.Some? then r.params.value else JObj(map[]);
    if r.notification && r.name == "rpc.call" then Fails(JNull, Rpc(InvalidRequest))
    else
      match r.name
      case "rpc.ping" => Answers(r.id, JStr("pong"))
      case "rpc.list_modules" => Answers(r.id, env.listed)
      case "rpc.schema" => Described(env, r.id, p)
      case "rpc.discover" => Submitted(env, r.id, Discover(r.id))
      case "rpc.call" => ToTarget(env, r.id, CallTargetOf(p))
      case "rpc.subscribe" => Subscribed(env, r.id, p)
      case "rpc.unsubscribe" =>
        if NamesSubscription(p) then Answers(r.id, Acknowledged("unsubscribe", p.o["subscription"]))
        else Fails(r.id, Rpc(InvalidParams))
      case "rpc.cancel" => Answers(r.id, CancelReply)
      case _ => Fails(r.id, Rpc(NotFound))
  }

  function RequestOf(raw: Json): Request
    requires WellFormed(raw)
  {
    Request(if "id" in raw.o then raw.o["id"] else JNull, "id" !in raw.o, raw.o["method"].s,
            if "params" in raw.o then Some(raw.o["params"]) else None)
  }

  function Handled(env: Env, raw: Json): Outcome {
    if !WellFormed(raw) then Fails(JNull, Rpc(if HasEnvelope(raw) then InvalidParams else InvalidRequest))
    else
      var r := RequestOf(raw);
      if IsBridgeOp(r.name) then Operation(env, r) else ToTarget(env, r.id, AliasTarget(r))
  }

  function IdOf(o: Outcome): Json {
    match o
    case Fill(r) => r.id
    case Queue(job) => job.id
  }

  /** Collects what a request's path does to its batch and to the pump. */
  class Path {
    var fills: seq<Response>
    var jobs: seq<Job>

    constructor ()
      ensures fills == [] && jobs == []
    {
      fills, jobs := [], [];
    }

    ghost predicate Did(o: Outcome)
      reads this
    {
      match o
      case Fill(r) => fills == [r] && jobs == []
      case Queue(job) => fills == [] && jobs == [job]
    }

    method FillSlot(id: Json, failed: bool, body: Json)
      modifies this
      ensures fills == old(fills) + [Response(id, failed, body)] && jobs == old(jobs)
    {
      fills := fills + [Response(id, failed, body)];
    }

    method Fail(id: Json, f: Failure)
      modifies this
      ensures fills == old(fills) + [Response(id, true, ErrorBody(f))] && jobs == old(jobs)
    {
      FillSlot(id, true, ErrorBody(f));
    }

    /** A refused job is answered at once. */
    method Submit(env: Env, id: Json, job: Job)
      requires fills == [] && jobs == []
      modifies this
      ensures Did(Submitted(env, id, job))
    {
      if env.queues {
        jobs := jobs + [job];
      } else {
        Fail(id, ShuttingDown);
      }
    }

    method DispatchCall(env: Env, id: Json, t: CallTarget)
      requires fills == [] && jobs == []
      modifies this
      ensures Did(Dispatched(env, id, t))
    {
      hide Translations.Translates, Translations.KnownParams, Translations.Names, ModuleViews.MethodPermitted;
      if !env.MayCall(t.name, t.callee) {
        Fail(id, Rpc(NotFound));
        return;
      }
      var args := t.params;
      if args.JObj? {
        var r := Translations.ToPositional(env.ViewOf(t.name), t.callee, args.o);
        if r.BadPath? {
          Fail(id, SchemaMismatch);
          return;
        }
        args := JArr(r.values);
      }
      if t.name !in env.clients {
        Fail(id, Rpc(NotFound));
        return;
      }
      Submit(env, id, CallUp(id, t.name, t.callee, args));
    }

    method Subscribe(env: Env, id: Json, p: Json)
      requires fills == [] && jobs == []
      modifies this
      ensures Did(Subscribed(env, id, p))
    {
      if !NamesSubscription(p) || !NamesEvent(p) {
        Fail(id, Rpc(InvalidParams));
        return;
      }
      var m, ev, sub := p.o["module"].s, p.o["event"].s, p.o["subscription"];
      if !env.MayHear(m, ev) {
        Fail(id, Rpc(NotFound));
        return;
      }
      if sub !in env.held && env.full {
        Fail(id, Overloaded);
        return;
      }
      if sub in env.held {
        FillSlot(id, false, Active(m, ev, sub));
        return;
      }
      Submit(env, id, SubscribeUp(id, m, ev, sub));
    }

    method HandleOne(env: Env, raw: Json)
      requires fills == [] && jobs == []
      modifies this
      ensures Did(Handled(env, raw))
    {
      var parsed := ParseRequest(raw);
      if parsed.Rejected? {
        Fail(JNull, Rpc(parsed.error));
        return;
      }
      var r := parsed.request;
      assert r == RequestOf(raw);
      if IsBridgeOp(r.name) {
        RunOperation(env, r);
        return;
      }
      var t := AliasTarget(r);
      if t.NoCall? {
        Fail(r.id, Rpc(t.error));
        return;
      }
      DispatchCall(env, r.id, t.target);
    }

    method RunOperation(env: Env, r: Request)
      requires fills == [] && jobs == []
      modifies this
      ensures Did(Operation(env, r))
    {
      hide Dispatched, Subscribed, Submitted, CallTargetOf;
      var p := if r.params.Some? then r.params.value else JObj(map[]);
      if r.notification && r.name == "rpc.call" {
        Fail(JNull, Rpc(InvalidRequest));
      } else if r.name == "rpc.ping" {
        FillSlot(r.id, false, JStr("pong"));
      } else if r.name == "rpc.list_modules" {
        FillSlot(r.id, false, env.listed);
      } else if r.name == "rpc.schema" {
        Describe(env, r.id, p);
      } else if r.name == "rpc.discover" {
        Submit(env, r.id, Discover(r.id));
      } else if r.name == "rpc.call" {
        var t := CallTargetOf(p);
        if t.NoCall? {
          Fail(r.id, Rpc(t.error));
        } else {
          DispatchCall(env, r.id, t.target);
        }
      } else if r.name == "rpc.subscribe" {
        Subscribe(env, r.id, p);
      } else if r.name == "rpc.unsubscribe" {
        if NamesSubscription(p) {
          FillSlot(r.id, false, Acknowledged("unsubscribe", p.o["subscription"]));
        } else {
          Fail(r.id, Rpc(InvalidParams));
        }
      } else if r.name == "rpc.cancel" {
        FillSlot(r.id, false, CancelReply);
      } else {
        Fail(r.id, Rpc(NotFound));
      }
    }

    method Describe(env: Env, id: Json, p: Json)
      requires fills == [] && jobs == []
      modifies this
      ensures Did(Described(env, id, p))
    {
      if !p.JObj? || "module" !in p.o || !p.o["module"].JStr? {
        Fail(id, Rpc(InvalidParams));
      } else if p.o["module"].s in env.described {
        FillSlot(id, false, env.described[p.o["module"].s]);
      } else {
        Fail(id, Rpc(NotFound));
      }
    }
  }

  /** Whatever a request is and whatever the bridge's state, its one outcome, filled now or by its job, carries the
      id to echo. */
  lemma OutcomeEchoesId(env: Env, raw: Json)
    ensures IdOf(Handled(env, raw)) == ReplyId(raw)
  {
    if WellFormed(raw) {
      var r := RequestOf(raw);
      assert r.id == ReplyId(raw);
      if IsBridgeOp(r.name) {
        OperationEchoes(env, r);
      }
    }
  }

  lemma OperationEchoes(env: Env, r: Request)
    requires r.notification ==> r.id == JNull
    ensures IdOf(Operation(env, r)) == r.id
  {
  }

  function AsRequest(name: string, id: Json, params: Option<Json>): Json {
    var r := map["jsonrpc" := JStr("2.0"), "id" := id, "method" := JStr(name)];
    JObj(if params.Some? then r["params" := params.value] else r)
  }

  lemma RequestForm(name: string, id: Json, params: Option<Json>)
    requires IsId(id) && (params.Some? ==> IsContainer(params.value))
    ensures WellFormed(AsRequest(name, id, params)) && RequestOf(AsRequest(name, id, params)) == Request(id, false, name, params)
  {
  }

  lemma AliasHandled(env: Env, name: string, id: Json, params: Option<Json>)
    requires !IsBridgeOp(name) && IsId(id) && (params.Some? ==> IsContainer(params.value))
    ensures Handled(env, AsRequest(name, id, params)) == ToTarget(env, id, AliasTarget(Request(id, false, name, params)))
  {
    hide IsBridgeOp, AliasTarget, Dispatched, WellFormed, RequestOf, AsRequest, Operation, ToTarget;
    RequestForm(name, id, params);
  }

  lemma CallHandled(env: Env, id: Json, p: Json)
    requires IsId(id) && IsContainer(p)
    ensures Handled(env, AsRequest("rpc.call", id, Some(p))) == ToTarget(env, id, CallTargetOf(p))
  {
    assert IsBridgeOp("rpc.call");
    hide IsBridgeOp, CallTargetOf, Dispatched, WellFormed, RequestOf, AsRequest, ToTarget;
    RequestForm("rpc.call", id, Some(p));
  }

  /** A request sent under `<module>.<method>` has the very outcome of rpc.call with that target, refusals
      included, in every state of the bridge. */
  lemma AliasSameOutcome(env: Env, m: string, callee: string, id: Json, params: Option<Json>)
    requires BridgeConfigs.GoodName(m) && callee != "" && IsId(id) && (params.Some? ==> IsContainer(params.value))
    ensures Handled(env, AsRequest(m + "." + callee, id, params)) == Handled(env, AsRequest("rpc.call", id, Some(AsCall(m, callee, params))))
  {
    hide Handled, AsRequest, AliasTarget, CallTargetOf, ToTarget;
    AliasIsCall(m, callee, id, params);
    AliasHandled(env, m + "." + callee, id, params);
    CallHandled(env, id, AsCall(m, callee, params));
  }

  // ---------------------------------------------------------------------------
  // What reaches a module
  // ---------------------------------------------------------------------------

  /** rpc.call's parameters name the method, with these parameters or none. */
  predicate NamesCall(p: Json, m: string, callee: string, params: Json) {
    && p.JObj? && "module" in p.o && p.o["module"] == JStr(m) && "method" in p.o && p.o["method"] == JStr(callee)
    && m != "" && callee != "" && IsContainer(params)
    && params == if "params" in p.o && !p.o["params"].JNull? then p.o["params"] else JArr([])
  }

  /** A request with an id that asks for a module's method, by rpc.call or by its alias. */
  predicate AsksCall(raw: Json, m: string, callee: string, params: Json) {
    && WellFormed(raw) && "id" in raw.o
    && if raw.o["method"].s == "rpc.call" then "params" in raw.o && NamesCall(raw.o["params"], m, callee, params)
       else
         && raw.o["method"].s == m + "." + callee && m != "" && m != "rpc" && '.' !in m && callee != ""
         && params == if "params" in raw.o then raw.o["params"] else JArr([])
  }

  lemma AsksDispatch(env: Env, raw: Json, m: string, callee: string, params: Json)
    requires AsksCall(raw, m, callee, params)
    ensures Handled(env, raw) == Dispatched(env, raw.o["id"], CallTarget(m, callee, params))
  {
    hide Dispatched, IsBridgeOp, DotAt, Subscribed, Described;
    if raw.o["method"].s == "rpc.call" {
      BridgeOps();
    } else {
      DotOf(m, callee);
      var name := m + "." + callee;
      assert name[..|m|] == m && name[|m| + 1..] == callee;
      NotReserved(m, callee);
    }
  }

  lemma BridgeOps()
    ensures IsBridgeOp("rpc.call") && IsBridgeOp("rpc.subscribe") && IsBridgeOp("rpc.discover")
    ensures IsBridgeOp("rpc.ping") && IsBridgeOp("rpc.list_modules")
  {
  }

  /** Only a request for the method goes that way. */
  lemma DispatchAsks(env: Env, raw: Json) returns (params: Json)
    requires Handled(env, raw).Queue? && Handled(env, raw).job.CallUp?
    ensures var job := Handled(env, raw).job; AsksCall(raw, job.name, job.callee, params)
  {
    var r := RequestOf(raw);
    var t := if IsBridgeOp(r.name) then CallTargetOf(if r.params.Some? then r.params.value else JObj(map[])) else AliasTarget(r);
    params := t.target.params;
    if !IsBridgeOp(r.name) {
      hide IsBridgeOp;
      SplitIsUnique(r.name);
      NotRpc(r.name, t.target.name, t.target.callee);
    }
    hide IsBridgeOp, DotAt, Arguments, Env.MayCall;
    DispatchNames(env, r.id, t.target);
    hide Dispatched;
  }

  lemma NotRpc(name: string, m: string, callee: string)
    requires !IsBridgeOp(name) && name == m + "." + callee
    ensures m != "rpc" && name != "rpc.call"
  {
  }

  lemma DispatchNames(env: Env, id: Json, t: CallTarget)
    ensures
      var o := Dispatched(env, id, t);
      o.Queue? ==> o.job.CallUp? && o.job.id == id && o.job.name == t.name && o.job.callee == t.callee
  {
  }

  /** The arguments of a call: the array as given, or the object's members in the order of known parameters, every
      name known and only optional ones left out, as null. */
  ghost predicate InPlace(v: ModuleViews.View, callee: string, params: Json, args: Json) {
    if params.JArr? then args == params
    else
      && params.JObj? && args.JArr? && Translations.KnownParams(v, callee).Some?
      && Ordered(Translations.KnownParams(v, callee).value, params.o, args.a)
  }

  ghost predicate Ordered(known: seq<ModuleViews.Param>, byName: map<string, Json>, args: seq<Json>) {
    && (forall k | k in byName :: exists i | 0 <= i < |known| :: known[i].name == k)
    && |args| == |known|
    && forall i | 0 <= i < |known| ::
         if known[i].name in byName then args[i] == byName[known[i].name] else known[i].optional && args[i] == JNull
  }

  lemma OrderedExactly(known: seq<ModuleViews.Param>, byName: map<string, Json>, args: seq<Json>)
    ensures Ordered(known, byName, args) <==> Translations.Translates(known, byName) && args == Translations.InOrder(known, byName)
  {
    if Ordered(known, byName, args) {
      forall k | k in byName ensures Translations.Named(known, k) {
        var i :| 0 <= i < |known| && known[i].name == k;
        assert known[i] in known;
      }
      assert args == Translations.InOrder(known, byName);
    }
    if Translations.Translates(known, byName) {
      forall k | k in byName ensures exists i | 0 <= i < |known| :: known[i].name == k {
        assert Translations.Named(known, k);
        var p :| p in known && p.name == k;
      }
      forall i | 0 <= i < |known| ensures !Translations.Missing(known[i], byName) {
        assert known[i] in known;
      }
    }
  }

  /** The gate of a call as the views and the registry have it: permitted, with arguments in order, a client, and a
      pump that takes the job. */
  ghost predicate Passes(env: Env, m: string, callee: string, params: Json, args: Json) {
    && ModuleViews.MethodPermitted(env.ModuleOf(m), env.ViewOf(m), callee) && m in env.clients && env.queues
    && InPlace(env.ViewOf(m), callee, params, args)
  }

  lemma PassesQueued(env: Env, id: Json, t: CallTarget, args: Json)
    requires IsContainer(t.params)
    ensures Dispatched(env, id, t) == Queue(CallUp(id, t.name, t.callee, args)) <==> Passes(env, t.name, t.callee, t.params, args)
  {
    ArgumentsInOrder(env.ViewOf(t.name), t.callee, t.params, args);
    hide Arguments, InPlace, ModuleViews.MethodPermitted;
  }

  lemma ArgumentsInOrder(v: ModuleViews.View, callee: string, params: Json, args: Json)
    requires IsContainer(params)
    ensures Arguments(v, callee, params) == Some(args) <==> InPlace(v, callee, params, args)
  {
    hide Translations.KnownParams, Ordered, Translations.Translates, Translations.InOrder;
    if params.JObj? && Translations.KnownParams(v, callee).Some? && args.JArr? {
      var known := Translations.KnownParams(v, callee).value;
      OrderedExactly(known, params.o, args.a);
      assert args == JArr(args.a);
      if Translations.Translates(known, params.o) {
        assert Arguments(v, callee, params) == Some(JArr(Translations.InOrder(known, params.o)));
        if args.a == Translations.InOrder(known, params.o) {
          assert args == JArr(Translations.InOrder(known, params.o));
        }
      }
    }
  }

  /** The request with that id asks for the call with these parameters, and its gate passes it with these arguments. */
  ghost predicate AskedAndPassed(env: Env, raw: Json, id: Json, m: string, callee: string, params: Json, args: Json) {
    AsksCall(raw, m, callee, params) && id == raw.o["id"] && Passes(env, m, callee, params, args)
  }

  /** A call goes upstream exactly when a request with an id asks for it and its gate passes it: nothing the views
      do not permit is ever called, with other arguments or under another name, and what they permit is. */
  lemma CallQueuedExactly(env: Env, raw: Json, id: Json, m: string, callee: string, args: Json)
    ensures
      Handled(env, raw) == Queue(CallUp(id, m, callee, args)) <==>
      exists params :: AskedAndPassed(env, raw, id, m, callee, params, args)
  {
    hide Handled, AsksCall, Passes, Dispatched;
    if Handled(env, raw) == Queue(CallUp(id, m, callee, args)) {
      var params := DispatchAsks(env, raw);
      AskedContainer(raw, m, callee, params);
      AsksDispatch(env, raw, m, callee, params);
      PassesQueued(env, raw.o["id"], CallTarget(m, callee, params), args);
      DispatchNames(env, raw.o["id"], CallTarget(m, callee, params));
      assert AskedAndPassed(env, raw, id, m, callee, params, args);
    }
    if exists params :: AskedAndPassed(env, raw, id, m, callee, params, args) {
      var params :| AskedAndPassed(env, raw, id, m, callee, params, args);
      AskedContainer(raw, m, callee, params);
      AsksDispatch(env, raw, m, callee, params);
      PassesQueued(env, raw.o["id"], CallTarget(m, callee, params), args);
    }
  }

  lemma AskedContainer(raw: Json, m: string, callee: string, params: Json)
    requires AsksCall(raw, m, callee, params)
    ensures IsContainer(params) && raw.JObj? && "id" in raw.o
  {
  }

  /** A call that is not queued is refused, and how: as not found when it is not permitted or has no client, by
      its parameters when they do not translate, and as shutting down when the pump refuses the job. */
  lemma CallRefusedExactly(env: Env, raw: Json, m: string, callee: string, params: Json)
    requires AsksCall(raw, m, callee, params)
    ensures raw.JObj? && "id" in raw.o
    ensures
      var (o, id) := (Handled(env, raw), raw.o["id"]);
      var permitted := ModuleViews.MethodPermitted(env.ModuleOf(m), env.ViewOf(m), callee);
      var ordered := exists args :: InPlace(env.ViewOf(m), callee, params, args);
      && (o == Fill(Response(id, true, ErrorBody(Rpc(NotFound)))) <==> !permitted || (ordered && m !in env.clients))
      && (o == Fill(Response(id, true, ErrorBody(SchemaMismatch))) <==> permitted && !ordered)
      && (o == Fill(Response(id, true, ErrorBody(ShuttingDown))) <==> permitted && ordered && m in env.clients && !env.queues)
  {
    AskedContainer(raw, m, callee, params);
    AsksDispatch(env, raw, m, callee, params);
    hide Handled, AsksCall, Arguments, InPlace, ModuleViews.MethodPermitted;
    var a := Arguments(env.ViewOf(m), callee, params);
    forall args ensures a == Some(args) <==> InPlace(env.ViewOf(m), callee, params, args) {
      ArgumentsInOrder(env.ViewOf(m), callee, params, args);
    }
    if a.Some? {
      assert InPlace(env.ViewOf(m), callee, params, a.value);
    }
  }

  /** A request for a subscription to an event, under the id its client gives it. */
  predicate AsksSubscription(raw: Json, m: string, event: string, subscription: Json) {
    && WellFormed(raw) && raw.o["method"].s == "rpc.subscribe" && "params" in raw.o
    && var p := raw.o["params"];
       && p.JObj? && "module" in p.o && p.o["module"] == JStr(m) && "event" in p.o && p.o["event"] == JStr(event)
       && "subscription" in p.o && p.o["subscription"] == subscription
       && m != "" && event != "" && (subscription.JStr? || subscription.JNum?)
  }

  /** A subscription goes upstream exactly when a request asks for it, its event is permitted, its id is new on
      the connection, which may hold another one, and the pump takes the job. */
  lemma SubscribeQueuedExactly(env: Env, raw: Json, id: Json, m: string, event: string, subscription: Json)
    ensures
      Handled(env, raw) == Queue(SubscribeUp(id, m, event, subscription)) <==>
      && AsksSubscription(raw, m, event, subscription) && id == ReplyId(raw)
      && ModuleViews.EventPermitted(env.ModuleOf(m), env.ViewOf(m), event)
      && subscription !in env.held && !env.full && env.queues
  {
    hide Handled, ModuleViews.EventPermitted;
    if WellFormed(raw) && raw.o["method"].s == "rpc.subscribe" {
      SubscribeHandled(env, raw);
    } else {
      OthersSubscribeNot(env, raw);
    }
  }

  lemma SubscribeHandled(env: Env, raw: Json)
    requires WellFormed(raw) && raw.o["method"].s == "rpc.subscribe"
    ensures Handled(env, raw) == Subscribed(env, ReplyId(raw), if "params" in raw.o then raw.o["params"] else JObj(map[]))
  {
    BridgeOps();
    hide IsBridgeOp, Subscribed;
  }

  lemma OthersSubscribeNot(env: Env, raw: Json)
    requires WellFormed(raw) ==> raw.o["method"].s != "rpc.subscribe"
    ensures Handled(env, raw).Queue? ==> !Handled(env, raw).job.SubscribeUp?
  {
    hide IsBridgeOp, CallTargetOf, AliasTarget, Dispatched;
    if WellFormed(raw) && !IsBridgeOp(RequestOf(raw).name) {
      TargetsCall(env, RequestOf(raw).id, AliasTarget(RequestOf(raw)));
    } else if WellFormed(raw) && RequestOf(raw).name == "rpc.call" {
      TargetsCall(env, RequestOf(raw).id, CallTargetOf(if RequestOf(raw).params.Some? then RequestOf(raw).params.value else JObj(map[])));
    }
  }

  lemma TargetsCall(env: Env, id: Json, t: Target)
    ensures ToTarget(env, id, t).Queue? ==> ToTarget(env, id, t).job.CallUp?
  {
    if t.Call? {
      DispatchNames(env, id, t.target);
    }
    hide Dispatched;
  }

  /** A subscription that is not queued: not found when it is not permitted, at once active when its id is held,
      refused when the connection is full, and as shutting down when the pump refuses the job. */
  lemma SubscribeAnsweredExactly(env: Env, raw: Json, m: string, event: string, subscription: Json)
    requires AsksSubscription(raw, m, event, subscription)
    ensures
      var (o, id) := (Handled(env, raw), ReplyId(raw));
      var permitted := ModuleViews.EventPermitted(env.ModuleOf(m), env.ViewOf(m), event);
      var held := subscription in env.held;
      && (o == Fill(Response(id, true, ErrorBody(Rpc(NotFound)))) <==> !permitted)
      && (o == Fill(Response(id, false, Active(m, event, subscription))) <==> permitted && held)
      && (o == Fill(Response(id, true, ErrorBody(Overloaded))) <==> permitted && !held && env.full)
      && (o == Fill(Response(id, true, ErrorBody(ShuttingDown))) <==> permitted && !held && !env.full && !env.queues)
  {
    hide Handled, ModuleViews.EventPermitted;
    SubscribeHandled(env, raw);
  }

  /** Whatever else a request asks for is answered on the spot, but for the documents, which the pump serves. */
  lemma OthersAnswered(env: Env, raw: Json)
    requires WellFormed(raw)
    ensures
      var (o, id, name) := (Handled(env, raw), ReplyId(raw), raw.o["method"].s);
      && (name == "rpc.ping" ==> o == Fill(Response(id, false, JStr("pong"))))
      && (name == "rpc.list_modules" ==> o == Fill(Response(id, false, env.listed)))
      && (name == "rpc.discover" ==> o == if env.queues then Queue(Discover(id)) else Fill(Response(id, true, ErrorBody(ShuttingDown))))
      && (name == "rpc.call" && "id" !in raw.o ==> o == Fill(Response(JNull, true, ErrorBody(Rpc(InvalidRequest)))))
      && (o.Queue? && o.job.Discover? ==> name == "rpc.discover")
  {
    BridgeOps();
    hide IsBridgeOp, CallTargetOf, AliasTarget, Dispatched;
    var r := RequestOf(raw);
    if !IsBridgeOp(r.name) {
      TargetsCall(env, r.id, AliasTarget(r));
    } else if r.name == "rpc.call" {
      TargetsCall(env, r.id, CallTargetOf(if r.params.Some? then r.params.value else JObj(map[])));
    }
  }

  /** Descriptions are answered for the modules that have one, an unsubscribe is acknowledged whatever its id, nothing
      is cancelled upstream, and an unknown operation is not found. */
  lemma LocalAnswers(env: Env, raw: Json)
    requires WellFormed(raw)
    ensures
      var (o, id, name) := (Handled(env, raw), ReplyId(raw), raw.o["method"].s);
      var p := if "params" in raw.o then raw.o["params"] else JObj(map[]);
      && (name == "rpc.schema" && p.JObj? && "module" in p.o && p.o["module"].JStr? ==>
            o == if p.o["module"].s in env.described then Fill(Response(id, false, env.described[p.o["module"].s]))
                 else Fill(Response(id, true, ErrorBody(Rpc(NotFound)))))
      && (name == "rpc.unsubscribe" && p.JObj? && "subscription" in p.o && (p.o["subscription"].JStr? || p.o["subscription"].JNum?) ==>
            o == Fill(Response(id, false, JObj(map["subscription" := p.o["subscription"], "operation" := JStr("unsubscribe")]))))
      && (name == "rpc.cancel" ==>
            o == Fill(Response(id, false, JObj(map["cancelled" := JBool(false), "reason" := JStr("not_supported_upstream")]))))
      && (IsBridgeOp(name) && name !in {"rpc.ping", "rpc.list_modules", "rpc.schema", "rpc.discover", "rpc.call", "rpc.subscribe",
                                        "rpc.unsubscribe", "rpc.cancel"} ==>
            o == Fill(Response(id, true, ErrorBody(Rpc(NotFound)))))
  {
    LocalOps();
    hide IsBridgeOp, CallTargetOf, AliasTarget, Dispatched, Subscribed;
  }

  lemma LocalOps()
    ensures IsBridgeOp("rpc.schema") && IsBridgeOp("rpc.unsubscribe") && IsBridgeOp("rpc.cancel")
  {
  }
}
