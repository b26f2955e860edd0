/** LIDL types to JSON Schema, as emitted into the served documents. A type is its JSON AST: the
    fields "kind", "name" and "elements" (empty when absent), or something that is not an object. */
module SchemaCompilers {
  import opened Prelude
  import opened JsonSchemas

  datatype Type = NotAnObject | Type(kind: string, name: string, elements: seq<Type>)
  {
    predicate Is(k: string) {
      Type? && kind == k
    }
  }

  /** A field or parameter. `valueType` is the type without its `?`, derived by the reader. */
  datatype Slot = Slot(name: string, declared: Type, valueType: Option<Type>, optional: bool)
  {
    function ValueType(): Type {
      if valueType.Some? then valueType.value else declared
    }
  }

  datatype Record = Record(name: string, fields: seq<Slot>)

  /** The records a module declares. */
  datatype Scope = Scope(name: string, records: set<string>)

  // ---------------------------------------------------------------------------
  // Component keys
  // ---------------------------------------------------------------------------

  predicate KeyChar(c: char) {
    'a' <= c <= 'z' || 'A' <= c <= 'Z' || '0' <= c <= '9' || c == '.' || c == '-' || c == '_'
  }

  function ComponentKeyOf(raw: string): string {
    if raw == "" then "_" else seq(|raw|, i requires 0 <= i < |raw| => if KeyChar(raw[i]) then raw[i] else '_')
  }

  method ComponentKey(raw: string) returns (out: string)
    ensures out == ComponentKeyOf(raw)
  {
    var chars := if raw == "" then "_" else raw;
    out := chars;
    for i := 0 to |chars|
      invariant |out| == |chars|
      invariant forall j | 0 <= j < i :: out[j] == if KeyChar(chars[j]) then chars[j] else '_'
      invariant forall j | i <= j < |chars| :: out[j] == chars[j]
    {
      if !KeyChar(out[i]) {
        out := out[i := '_'];
      }
    }
  }

  /** Keys stay in the alphabet that OpenAPI and AsyncAPI allow, which has neither `~` nor `/`, so a
      reference to one needs no escaping (RFC 6901, section 3); and sanitising twice changes nothing. */
  lemma KeysAreSafe(raw: string)
    ensures var k := ComponentKeyOf(raw);
      && k != "" && (forall c | c in k :: KeyChar(c)) && '~' !in k && '/' !in k
      && ComponentKeyOf(k) == k
      && (ComponentKeyOf(raw) == raw <==> raw != "" && forall c | c in raw :: KeyChar(c))
  {
    var k := ComponentKeyOf(raw);
    assert forall c | c in k :: KeyChar(c);
    assert ComponentKeyOf(k) == k;
    if raw != "" && forall c | c in raw :: KeyChar(c) {
      assert k == raw;
    }
  }

  function RecordKey(m: string, t: string): string {
    ComponentKeyOf(m + "." + t)
  }

  function Ref(component: string): Schema {
    Anything.(ref := Some(ComponentKeyOf(component)))
  }

  // ---------------------------------------------------------------------------
  // Schemas
  // ---------------------------------------------------------------------------

  /** A description never stands beside a $ref: a reference is wrapped first. */
  function Describe(s: Schema, text: string): Schema {
    if text == "" then s
    else
      var s := if s.Never? || s.ref.Some? then Anything.(allOf := [s]) else s;
      s.(notes := s.notes["description" := text])
  }

  function Nullable(s: Schema): Schema {
    if s == Anything then s else Anything.(anyOf := [s, Anything.(typ := Some(TNull))])
  }

  function Tuple(items: seq<Schema>, d: Dialect): Schema {
    var s := Anything.(typ := Some(TArray), maxItems := Some(|items|));
    if items == [] then s
    else if d.Draft07? then s.(items := Positions(items), additionalItems := Some(Never), minItems := Some(|items|))
    else s.(prefixItems := items, items := Each(Never), minItems := Some(|items|))
  }

  function Unknown(spelling: string): Schema {
    Anything.(notes := map["x-logos-unknown-type" := spelling])
  }

  function OrMissing(name: string): string {
    if name == "" then "(missing)" else name
  }

  function Spelling(t: Type): string {
    if t.NotAnObject? then "(missing)"
    else
      var first := if t.elements == [] then "(missing)" else Spelling(t.elements[0]);
      var second := if |t.elements| < 2 then "(missing)" else Spelling(t.elements[1]);
      if t.kind == "primitive" || t.kind == "named" then OrMissing(t.name)
      else if t.kind == "array" then "[" + first + "]"
      else if t.kind == "map" then "{" + first + ": " + second + "}"
      else if t.kind == "optional" then "? " + first
      else if t.kind == "" then "(missing kind)"
      else if t.name == "" then t.kind else t.kind + ":" + t.name
  }

  const INT64_MIN: real := -9223372036854775808.0
  const INT64_MAX: real := 9223372036854775807.0
  const UINT64_MAX: real := 18446744073709551615.0

  function PrimitiveSchema(name: string): Schema {
    if name == "tstr" then Anything.(typ := Some(TString))
    else if name == "bstr" then Ref("Bytes")
    else if name == "int" then
      Anything.(typ := Some(TInteger), minimum := Some(INT64_MIN), maximum := Some(INT64_MAX), notes := map["format" := "int64"])
    else if name == "uint" then
      Anything.(typ := Some(TInteger), minimum := Some(0.0), maximum := Some(UINT64_MAX), notes := map["format" := "uint64"])
    else if name == "float64" then Anything.(typ := Some(TNumber), notes := map["format" := "double"])
    else if name == "bool" then Anything.(typ := Some(TBoolean))
    else if name == "any" then Anything
    else if name == "result" then Ref("LogosResult")
    else Unknown(OrMissing(name))
  }

  /** Under every `?`: ??T is ?T. */
  function Stripped(t: Type): (r: Type)
    ensures r == t || r < t
    ensures r.Is("optional") ==> r.elements == []
  {
    if t.Is("optional") && t.elements != [] then Stripped(t.elements[0]) else t
  }

  function TypeSchema(t: Type, scope: Scope): Schema {
    if t.NotAnObject? then Unknown("(missing)")
    else if t.kind == "primitive" then PrimitiveSchema(t.name)
    else if t.kind == "array" then
      if t.elements == [] then Unknown(Spelling(t))
      else Anything.(typ := Some(TArray), items := Each(TypeSchema(t.elements[0], scope)))
    else if t.kind == "map" then
      if |t.elements| < 2 then Unknown(Spelling(t))
      else
        var s := Anything.(typ := Some(TObject), additionalProperties := Some(TypeSchema(t.elements[1], scope)));
        var key := t.elements[0];
        if key.Is("primitive") && key.name == "tstr" then s else s.(notes := map["x-logos-map-key-type" := Spelling(key)])
    else if t.kind == "optional" then
      if Stripped(t).Is("optional") then Unknown(Spelling(t)) else Nullable(TypeSchema(Stripped(t), scope))
    else if t.kind == "named" then
      if t.name in scope.records then Ref(RecordKey(scope.name, t.name)) else Unknown(OrMissing(t.name))
    else Unknown(Spelling(t))
  }

  function SlotSchema(slot: Slot, scope: Scope): Schema {
    var s := TypeSchema(slot.ValueType(), scope);
    if slot.optional then Nullable(s) else s
  }

  function SlotSchemas(slots: seq<Slot>, scope: Scope): seq<Schema> {
    seq(|slots|, i requires 0 <= i < |slots| => SlotSchema(slots[i], scope))
  }

  /** Of slots sharing a name, the first counts; |slots| when there is none. */
  function First(slots: seq<Slot>, name: string): (i: nat)
    ensures i <= |slots|
    ensures i < |slots| ==> slots[i].name == name
    ensures forall j | 0 <= j < i :: slots[j].name != name
  {
    if slots == [] then 0
    else
      var last := |slots| - 1;
      var i := First(slots[..last], name);
      if i < last || slots[last].name == name then i else last + 1
  }

  function Properties(slots: seq<Slot>, scope: Scope): map<string, Schema> {
    if slots == [] then map[]
    else
      var (rest, s) := (Properties(slots[..|slots| - 1], scope), slots[|slots| - 1]);
      if s.name in rest then rest else rest[s.name := SlotSchema(s, scope)]
  }

  function Required(slots: seq<Slot>): seq<string> {
    if slots == [] then []
    else
      var (rest, s) := (Required(slots[..|slots| - 1]), slots[|slots| - 1]);
      if s.optional || First(slots, s.name) < |slots| - 1 then rest else rest + [s.name]
  }

  function ParamsObjectOf(params: seq<Slot>, scope: Scope): Schema {
    Anything.(typ := Some(TObject), properties := Properties(params, scope), required := Required(params),
              additionalProperties := Some(Never))
  }

  function RecordSchemaOf(r: Record, scope: Scope): Schema {
    Anything.(typ := Some(TObject), properties := Properties(r.fields, scope), required := Required(r.fields),
              notes := map["title" := r.name])
  }

  function ParamsTupleOf(params: seq<Slot>, scope: Scope, d: Dialect): Schema {
    Tuple(SlotSchemas(params, scope), d)
  }

  function ScopeOf(m: string, records: seq<Record>): Scope {
    Scope(m, set r | r in records && r.name != "" :: r.name)
  }

  /** Each record under its key; when keys clash, the last record wins. */
  function WithRecords(defs: map<string, Schema>, scope: Scope, records: seq<Record>): map<string, Schema> {
    if records == [] then defs
    else
      var (rest, r) := (WithRecords(defs, scope, records[..|records| - 1]), records[|records| - 1]);
      if r.name == "" then rest else rest[RecordKey(scope.name, r.name) := RecordSchemaOf(r, scope)]
  }

  // ---------------------------------------------------------------------------
  // The loops
  // ---------------------------------------------------------------------------

  method CollectSlots(slots: seq<Slot>, scope: Scope) returns (properties: map<string, Schema>, required: seq<string>)
    ensures properties == Properties(slots, scope) && required == Required(slots)
  {
    properties, required := map[], [];
    for i := 0 to |slots|
      invariant properties == Properties(slots[..i], scope) && required == Required(slots[..i])
    {
      assert slots[..i + 1][..i] == slots[..i];
      PropertyNames(slots[..i], scope, slots[i].name);
      if slots[i].name in properties {
        continue;
      }
      properties := properties[slots[i].name := SlotSchema(slots[i], scope)];
      if !slots[i].optional {
        required := required + [slots[i].name];
      }
    }
    assert slots[..|slots|] == slots;
  }

  method ParamsObject(params: seq<Slot>, scope: Scope) returns (s: Schema)
    ensures s == ParamsObjectOf(params, scope)
  {
    var properties, required := CollectSlots(params, scope);
    s := Anything.(typ := Some(TObject), properties := properties, additionalProperties := Some(Never));
    if required != [] {
      s := s.(required := required);
    }
  }

  method RecordSchema(r: Record, scope: Scope) returns (s: Schema)
    ensures s == RecordSchemaOf(r, scope)
  {
    var properties, required := CollectSlots(r.fields, scope);
    s := Anything.(typ := Some(TObject), notes := map["title" := r.name], properties := properties);
    if required != [] {
      s := s.(required := required);
    }
  }

  method ParamsTuple(params: seq<Slot>, scope: Scope, d: Dialect) returns (s: Schema)
    ensures s == ParamsTupleOf(params, scope, d)
  {
    var items := [];
    for i := 0 to |params|
      invariant items == SlotSchemas(params[..i], scope)
    {
      items := items + [SlotSchema(params[i], scope)];
    }
    assert params[..|params|] == params;
    s := Tuple(items, d);
  }

  method RecordNames(m: string, records: seq<Record>) returns (scope: Scope)
    ensures scope == ScopeOf(m, records)
  {
    var names := {};
    for i := 0 to |records|
      invariant names == set r | r in records[..i] && r.name != "" :: r.name
    {
      assert records[..i + 1] == records[..i] + [records[i]];
      if records[i].name != "" {
        names := names + {records[i].name};
      }
    }
    assert records[..|records|] == records;
    scope := Scope(m, names);
  }

  method AddRecordComponents(schemas: map<string, Schema>, m: string, records: seq<Record>)
    returns (defs: map<string, Schema>)
    ensures defs == WithRecords(schemas, ScopeOf(m, records), records)
  {
    var scope := RecordNames(m, records);
    defs := schemas;
    for i := 0 to |records|
      invariant defs == WithRecords(schemas, scope, records[..i])
    {
      assert records[..i + 1][..i] == records[..i];
      if records[i].name == "" {
        continue;
      }
      var s := RecordSchema(records[i], scope);
      defs := defs[RecordKey(m, records[i].name) := s];
    }
    assert records[..|records|] == records;
  }

  // ---------------------------------------------------------------------------
  // What properties and required hold
  // ---------------------------------------------------------------------------

  lemma {:induction false} PropertyNames(slots: seq<Slot>, scope: Scope, name: string)
    ensures name in Properties(slots, scope) <==> First(slots, name) < |slots|
    ensures name in Properties(slots, scope) ==> Properties(slots, scope)[name] == SlotSchema(slots[First(slots, name)], scope)
    ensures name in Required(slots) <==> First(slots, name) < |slots| && !slots[First(slots, name)].optional
  {
    if slots != [] {
      PropertyNames(slots[..|slots| - 1], scope, name);
      PropertyNames(slots[..|slots| - 1], scope, slots[|slots| - 1].name);
    }
  }

  // ---------------------------------------------------------------------------
  // The shared components
  // ---------------------------------------------------------------------------

  const BytesSchema :=
    Anything.(typ := Some(TObject), properties := map["_bytes" := Anything.(typ := Some(TString), base64url := true)],
              required := ["_bytes"], additionalProperties := Some(Never))

  const LogosResultSchema :=
    Anything.(typ := Some(TObject),
              properties := map["success" := Anything.(typ := Some(TBoolean)), "value" := Anything, "error" := Anything],
              required := ["success"])

  const ProviderRejectionSchema :=
    Anything.(typ := Some(TObject),
              properties := map["code" := Anything.(typ := Some(TString)), "message" := Anything.(typ := Some(TString)),
                                "origin" := Anything.(typ := Some(TString))],
              required := ["code", "message", "origin"], additionalProperties := Some(Never))

  /** The components every document shares, before any record is added. */
  const SharedComponents: map<string, Schema> :=
    map["Bytes" := BytesSchema, "LogosResult" := LogosResultSchema, "ProviderRejection" := ProviderRejectionSchema]

  /** A call's result: the method's value, or the provider's refusal. */
  function ResultSchema(value: Schema): Schema {
    Anything.(anyOf := [value, Ref("ProviderRejection")])
  }
}
