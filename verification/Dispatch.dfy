/** Requests and call targets: what a JSON-RPC request must look like, and the `<module>.<method>` alias of
    rpc.call. Error objects are left to their kind. */
module Dispatchers {
  import opened Prelude
  import BridgeConfigs
  import opened JsonSchemas

  datatype RpcError = InvalidRequest | InvalidParams | NotFound

  datatype Request = Request(id: Json, notification: bool, name: string, params: Option<Json>)
  /** A response: its id, and a result or an error. */
  datatype Response = Response(id: Json, failed: bool, body: Json)
  datatype Parsed = Accepted(request: Request) | Rejected(error: RpcError)

  predicate IsContainer(v: Json) {
    v.JObj? || v.JArr?
  }

  predicate IsId(v: Json) {
    v.JStr? || v.JNum? || v.JNull?
  }

  predicate HasEnvelope(raw: Json) {
    && raw.JObj? && "jsonrpc" in raw.o && raw.o["jsonrpc"] == JStr("2.0")
    && "method" in raw.o && raw.o["method"].JStr?
    && ("id" in raw.o ==> IsId(raw.o["id"]))
  }

  /** A JSON-RPC 2.0 request this bridge takes. */
  predicate WellFormed(raw: Json) {
    HasEnvelope(raw) && ("params" in raw.o ==> IsContainer(raw.o["params"]))
  }

  method ParseRequest(raw: Json) returns (r: Parsed)
    ensures r.Accepted? <==> WellFormed(raw)
    ensures r.Accepted? ==>
      && r.request.name == raw.o["method"].s
      && r.request.notification == ("id" !in raw.o) && r.request.id == (if "id" in raw.o then raw.o["id"] else JNull)
      && r.request.params == (if "params" in raw.o then Some(raw.o["params"]) else None)
    ensures r.Rejected? ==> r.error == if HasEnvelope(raw) then InvalidParams else InvalidRequest
  {
    if !raw.JObj? {
      return Rejected(InvalidRequest);
    }
    if "jsonrpc" !in raw.o || raw.o["jsonrpc"] != JStr("2.0") {
      return Rejected(InvalidRequest);
    }
    if "method" !in raw.o || !raw.o["method"].JStr? {
      return Rejected(InvalidRequest);
    }
    var notification := "id" !in raw.o;
    var id := if notification then JNull else raw.o["id"];
    if !notification && !IsId(id) {
      return Rejected(InvalidRequest);
    }
    if "params" in raw.o && !IsContainer(raw.o["params"]) {
      return Rejected(InvalidParams);
    }
    return Accepted(Request(id, notification, raw.o["method"].s, if "params" in raw.o then Some(raw.o["params"]) else None));
  }

  /** The id a reply carries: the request's, or null when there is none to echo. */
  function ReplyId(raw: Json): Json {
    if WellFormed(raw) && "id" in raw.o then raw.o["id"] else JNull
  }

  // ---------------------------------------------------------------------------
  // Call targets
  // ---------------------------------------------------------------------------

  datatype CallTarget = CallTarget(name: string, callee: string, params: Json)
  datatype Target = Call(target: CallTarget) | NoCall(error: RpcError)

  predicate IsBridgeOp(name: string) {
    "rpc." <= name
  }

  function DotAt(name: string): (i: nat)
    ensures i <= |name| && (i < |name| ==> name[i] == '.')
    ensures '.' !in name[..i]
  {
    if name == "" || name[0] == '.' then 0
    else
      var i := 1 + DotAt(name[1..]);
      assert name[..i] == [name[0]] + name[1..][..i - 1];
      i
  }

  /** Split at the first dot, which may be neither first nor last. */
  function SplitAlias(name: string): Option<(string, string)> {
    var i := DotAt(name);
    if i == |name| || i == 0 || i + 1 >= |name| then None else Some((name[..i], name[i + 1..]))
  }

  function AliasTarget(r: Request): Target {
    match SplitAlias(r.name)
    case None => NoCall(NotFound)
    case Some((m, callee)) =>
      if r.notification then NoCall(InvalidRequest)
      else Call(CallTarget(m, callee, if r.params.Some? then r.params.value else JArr([])))
  }

  function CallTargetOf(p: Json): Target {
    if !p.JObj? || "module" !in p.o || !p.o["module"].JStr? || "method" !in p.o || !p.o["method"].JStr? then NoCall(InvalidParams)
    else if p.o["module"].s == "" || p.o["method"].s == "" then NoCall(InvalidParams)
    else
      var params := if "params" in p.o && !p.o["params"].JNull? then p.o["params"] else JArr([]);
      if IsContainer(params) then Call(CallTarget(p.o["module"].s, p.o["method"].s, params)) else NoCall(InvalidParams)
  }

  /** rpc.call's params for a target. */
  function AsCall(m: string, callee: string, params: Option<Json>): Json {
    var p := map["module" := JStr(m), "method" := JStr(callee)];
    JObj(if params.Some? then p["params" := params.value] else p)
  }

  lemma DotOf(m: string, callee: string)
    requires '.' !in m
    ensures DotAt(m + "." + callee) == |m|
  {
    var name := m + "." + callee;
    var i := DotAt(name);
    assert name[|m|] == '.';
    assert forall k | 0 <= k < |m| :: name[k] == m[k] && m[k] in m;
    assert forall k | 0 <= k < i :: name[k] == name[..i][k] && name[k] in name[..i];
  }

  lemma NotReserved(m: string, callee: string)
    requires '.' !in m && m != "rpc"
    ensures !IsBridgeOp(m + "." + callee)
  {
    var name := m + "." + callee;
    assert name[|m|] == '.' && name[..|m|] == m;
    assert forall k | 0 <= k < |m| :: name[k] == m[k] && m[k] in m;
    var op := "rpc.";
    assert op[3] == '.' && op[..3] == "rpc" && forall k | 0 <= k < 3 :: op[k] != '.';
    assert IsBridgeOp(name) ==> |m| == 3;
    assert |m| == 3 ==> m == name[..3];
  }

  /** An exposed module's operation name is never a bridge operation, splits back into its module and method
      whatever dots the method has, and as an alias makes the very call rpc.call makes. */
  lemma AliasIsCall(m: string, callee: string, id: Json, params: Option<Json>)
    requires BridgeConfigs.GoodName(m) && callee != "" && (params.Some? ==> IsContainer(params.value))
    ensures
      var name := m + "." + callee;
      && !IsBridgeOp(name) && SplitAlias(name) == Some((m, callee))
      && AliasTarget(Request(id, false, name, params)) == CallTargetOf(AsCall(m, callee, params))
      && AliasTarget(Request(id, false, name, params)).Call?
  {
    var name := m + "." + callee;
    assert BridgeConfigs.Refused('.');
    DotOf(m, callee);
    assert name[..|m|] == m && name[|m| + 1..] == callee;
    NotReserved(m, callee);
  }

  /** And a name that splits, splits in that way only. */
  lemma SplitIsUnique(name: string)
    requires SplitAlias(name).Some?
    ensures
      var (m, callee) := SplitAlias(name).value;
      m + "." + callee == name && '.' !in m && m != "" && callee != ""
  {
    var i := DotAt(name);
    assert name == name[..i] + [name[i]] + name[i + 1..];
  }
}
