/** The compiled schemas mean what the LIDL types mean, in both dialects and through references. */
module SchemaTheorems {
  import opened Prelude
  import opened JsonSchemas
  import opened SchemaCompilers

  // ---------------------------------------------------------------------------
  // What a LIDL type admits
  // ---------------------------------------------------------------------------

  /** The index of the record a name refers to; |records| when there is none. */
  function RecordAt(records: seq<Record>, name: string): (i: nat)
    ensures i <= |records|
    ensures i < |records| ==> records[i].name == name
    ensures i == |records| ==> forall r | r in records :: r.name != name
  {
    if records == [] || records[0].name == name then 0 else 1 + RecordAt(records[1..], name)
  }

  /** A typed module with the records its contract declares. */
  datatype Contract = Contract(name: string, records: seq<Record>)
  {
    function Scope(): Scope {
      ScopeOf(name, records)
    }

    /** The record a name of this module stands for. */
    function Denoted(n: string): (r: Record)
      requires n in Scope().records
      ensures r in records && r.name == n && n != ""
    {
      records[RecordAt(records, n)]
    }
  }

  predicate IsBytes(v: Json) {
    v.JObj? && v.o.Keys == {"_bytes"} && v.o["_bytes"].JStr? && IsBase64Url(v.o["_bytes"].s)
  }

  predicate IsResult(v: Json) {
    v.JObj? && "success" in v.o && v.o["success"].JBool?
  }

  predicate IsRejection(v: Json) {
    v.JObj? && v.o.Keys == {"code", "message", "origin"} && forall k | k in v.o :: v.o[k].JStr?
  }

  predicate Is(x: real, i: int) {
    x == i as real
  }

  /** A spelling that is not a LIDL primitive says nothing about the value. */
  ghost predicate InhabitsPrimitive(name: string, v: Json) {
    match name
    case "tstr" => v.JStr?
    case "bstr" => IsBytes(v)
    case "int" => v.JNum? && exists i :: -0x8000_0000_0000_0000 <= i < 0x8000_0000_0000_0000 && Is(v.n, i)
    case "uint" => v.JNum? && exists i :: 0 <= i < 0x1_0000_0000_0000_0000 && Is(v.n, i)
    case "float64" => v.JNum?
    case "bool" => v.JBool?
    case "result" => IsResult(v)
    case _ => true
  }

  /** The values of a type. A type the contract does not spell properly, or a name it does not declare,
      says nothing about the value. */
  ghost predicate Inhabits(records: seq<Record>, t: Type, v: Json)
    decreases v, 1, t
  {
    if t.NotAnObject? then true
    else if t.kind == "primitive" then InhabitsPrimitive(t.name, v)
    else if t.kind == "array" then
      t.elements == [] || (v.JArr? && forall i | 0 <= i < |v.a| :: Inhabits(records, t.elements[0], v.a[i]))
    else if t.kind == "map" then
      |t.elements| < 2 || (v.JObj? && forall k | k in v.o :: Inhabits(records, t.elements[1], v.o[k]))
    else if t.kind == "optional" then
      t.elements == [] || v.JNull? || Inhabits(records, t.elements[0], v)
    else if t.kind == "named" then
      t.name == "" || RecordAt(records, t.name) == |records| ||
      InhabitsFields(records, records[RecordAt(records, t.name)].fields, v)
    else true
  }

  /** A record is open: its fields are checked where present, and all but the optional ones must be. */
  ghost predicate InhabitsFields(records: seq<Record>, fields: seq<Slot>, v: Json)
    decreases v, 0
  {
    v.JObj? &&
    forall i | 0 <= i < |fields| && First(fields, fields[i].name) == i ::
      var f := fields[i];
      if f.name in v.o then InhabitsSlot(records, f, v.o[f.name]) else f.optional
  }

  ghost predicate InhabitsSlot(records: seq<Record>, slot: Slot, v: Json)
    decreases v, 2
  {
    (slot.optional && v.JNull?) || Inhabits(records, slot.ValueType(), v)
  }

  // ---------------------------------------------------------------------------
  // The keywords the compiler uses
  // ---------------------------------------------------------------------------

  /** Elements are unconstrained by a schema that says nothing of them. */
  lemma ElementsValid(defs: map<string, Schema>, d: Dialect, s: Schema, v: Json)
    requires s.Keywords? && s.items.NoItems? && s.prefixItems == [] && v.JArr?
    ensures forall i | 0 <= i < |v.a| :: ValidElement(defs, d, s, i, v.a[i])
  {
  }

  lemma AnythingValid(defs: map<string, Schema>, d: Dialect, v: Json, notes: map<string, string>)
    ensures Valid(defs, d, Anything.(notes := notes), v) && Valid(defs, d, Anything, v)
  {
    if v.JArr? {
      ElementsValid(defs, d, Anything.(notes := notes), v);
      ElementsValid(defs, d, Anything, v);
    }
  }

  lemma TypedValid(defs: map<string, Schema>, d: Dialect, t: TypeName, v: Json)
    ensures Valid(defs, d, Anything.(typ := Some(t)), v) <==> HasType(t, v)
  {
    if v.JArr? {
      ElementsValid(defs, d, Anything.(typ := Some(t)), v);
    }
  }

  lemma AnyOfValid(defs: map<string, Schema>, d: Dialect, ss: seq<Schema>, v: Json)
    requires ss != []
    ensures Valid(defs, d, Anything.(anyOf := ss), v) <==> exists i | 0 <= i < |ss| :: Valid(defs, d, ss[i], v)
  {
    if v.JArr? {
      ElementsValid(defs, d, Anything.(anyOf := ss), v);
    }
  }

  lemma EitherValid(defs: map<string, Schema>, d: Dialect, a: Schema, b: Schema, v: Json)
    ensures Valid(defs, d, Anything.(anyOf := [a, b]), v) <==> Valid(defs, d, a, v) || Valid(defs, d, b, v)
  {
    hide Valid;
    AnyOfValid(defs, d, [a, b], v);
    assert [a, b][0] == a && [a, b][1] == b;
  }

  lemma NullableValid(defs: map<string, Schema>, d: Dialect, s: Schema, v: Json)
    ensures Valid(defs, d, Nullable(s), v) <==> v.JNull? || Valid(defs, d, s, v)
  {
    TypedValid(defs, d, TNull, v);
    AnythingValid(defs, d, v, map[]);
    hide Valid;
    EitherValid(defs, d, s, Anything.(typ := Some(TNull)), v);
  }

  lemma RefValid(defs: map<string, Schema>, d: Dialect, component: string, v: Json)
    requires ComponentKeyOf(component) in defs && !Refers(defs[ComponentKeyOf(component)])
    ensures Valid(defs, d, Ref(component), v) <==> Valid(defs, d, defs[ComponentKeyOf(component)], v)
  {
    var s := Ref(component);
    assert ValidKeywords(defs, d, s, v);
  }

  lemma IntegerValid(defs: map<string, Schema>, d: Dialect, lo: int, hi: int, notes: map<string, string>, v: Json)
    ensures
      Valid(defs, d, Anything.(typ := Some(TInteger), minimum := Some(lo as real), maximum := Some(hi as real), notes := notes), v)
      <==> v.JNum? && exists i :: lo <= i <= hi && Is(v.n, i)
  {
    if v.JNum? && IsInteger(v.n) {
      assert Is(v.n, v.n.Floor);
    }
  }

  lemma ObjectValid(defs: map<string, Schema>, d: Dialect, s: Schema, v: Json)
    requires s.Keywords? && s == Anything.(typ := Some(TObject), properties := s.properties, required := s.required,
                                           additionalProperties := s.additionalProperties, notes := s.notes)
    ensures Valid(defs, d, s, v) <==>
      && v.JObj? && (forall k | k in s.required :: k in v.o)
      && (forall k | k in v.o ::
            if k in s.properties then Valid(defs, d, s.properties[k], v.o[k])
            else s.additionalProperties.Some? ==> Valid(defs, d, s.additionalProperties.value, v.o[k]))
  {
  }

  // ---------------------------------------------------------------------------
  // Shared components
  // ---------------------------------------------------------------------------

  ghost predicate SharedBound(defs: map<string, Schema>) {
    forall k | k in SharedComponents :: k in defs && defs[k] == SharedComponents[k]
  }

  /** The document's components bind the shared names, and each record's key to that record. */
  ghost predicate Bound(defs: map<string, Schema>, c: Contract) {
    && SharedBound(defs)
    && (forall r | r in c.records && r.name != "" ::
          RecordKey(c.name, r.name) in defs && defs[RecordKey(c.name, r.name)] == RecordSchemaOf(r, c.Scope()))
  }

  ghost predicate SameValues(b: Contract, q: Record, c: Contract, r: Record) {
    forall v :: InhabitsFields(b.records, q.fields, v) <==> InhabitsFields(c.records, r.fields, v)
  }

  /** Under the key of c's record n stands q of b, which admits the same values. */
  ghost predicate StandsFor(defs: map<string, Schema>, b: Contract, q: Record, c: Contract, n: string)
    requires n in c.Scope().records
  {
    && RecordKey(c.name, n) in defs && defs[RecordKey(c.name, n)] == RecordSchemaOf(q, b.Scope())
    && SameValues(b, q, c, c.Denoted(n))
  }

  /** The document's components bind the shared names, and each record's key to a record of some module that
      admits the same values. */
  ghost predicate Stand(defs: map<string, Schema>, contracts: seq<Contract>) {
    && SharedBound(defs)
    && (forall c, n {:trigger c in contracts, n in c.Scope().records} | c in contracts && n in c.Scope().records ::
          exists b, q :: b in contracts && StandsFor(defs, b, q, c, n))
  }

  lemma BoundStand(defs: map<string, Schema>, c: Contract)
    requires Bound(defs, c)
    ensures Stand(defs, [c])
  {
    forall e, n | e in [c] && n in e.Scope().records ensures exists b, q :: b in [c] && StandsFor(defs, b, q, e, n) {
      assert StandsFor(defs, c, c.Denoted(n), c, n);
    }
  }

  lemma SharedKeys()
    ensures forall k | k in SharedComponents :: ComponentKeyOf(k) == k && !Refers(SharedComponents[k]) && '.' !in k
  {
    forall k | k in SharedComponents ensures ComponentKeyOf(k) == k && !Refers(SharedComponents[k]) && '.' !in k {
      SharedKey(k);
      KeysAreSafe(k);
    }
  }

  lemma SharedKey(k: string)
    requires k in SharedComponents
    ensures k != "" && (forall c | c in k :: KeyChar(c)) && '.' !in k && !Refers(SharedComponents[k])
  {
    assert k == "Bytes" || k == "LogosResult" || k == "ProviderRejection";
  }

  lemma BytesValid(defs: map<string, Schema>, d: Dialect, v: Json)
    ensures Valid(defs, d, BytesSchema, v) <==> IsBytes(v)
  {
    ObjectValid(defs, d, BytesSchema, v);
    if v.JObj? && "_bytes" in v.o {
      assert Valid(defs, d, BytesSchema.properties["_bytes"], v.o["_bytes"]) <==>
             v.o["_bytes"].JStr? && IsBase64Url(v.o["_bytes"].s);
      assert v.o.Keys == {"_bytes"} <==> forall k | k in v.o :: k == "_bytes";
    }
  }

  lemma ResultValid(defs: map<string, Schema>, d: Dialect, v: Json)
    ensures Valid(defs, d, LogosResultSchema, v) <==> IsResult(v)
  {
    ObjectValid(defs, d, LogosResultSchema, v);
    if v.JObj? {
      forall k | k in v.o ensures Valid(defs, d, Anything, v.o[k]) { AnythingValid(defs, d, v.o[k], map[]); }
      if "success" in v.o { TypedValid(defs, d, TBoolean, v.o["success"]); }
    }
  }

  lemma RejectionValid(defs: map<string, Schema>, d: Dialect, v: Json)
    ensures Valid(defs, d, ProviderRejectionSchema, v) <==> IsRejection(v)
  {
    var (s, text) := (ProviderRejectionSchema, Anything.(typ := Some(TString)));
    assert s.properties.Keys == {"code", "message", "origin"} && forall k | k in s.properties :: s.properties[k] == text;
    ObjectValid(defs, d, s, v);
    NeverValid(defs, d);
    if v.JObj? {
      forall k | k in v.o ensures Valid(defs, d, text, v.o[k]) <==> v.o[k].JStr? {
        TypedValid(defs, d, TString, v.o[k]);
      }
      hide Valid;
      if Valid(defs, d, s, v) {
        assert v.o.Keys == {"code", "message", "origin"};
      }
    }
  }

  lemma NeverValid(defs: map<string, Schema>, d: Dialect)
    ensures forall v :: !Valid(defs, d, Never, v)
  {
  }

  // ---------------------------------------------------------------------------
  // The compilation preserves meaning
  // ---------------------------------------------------------------------------

  lemma PrimitiveCompiles(defs: map<string, Schema>, d: Dialect, name: string, v: Json)
    requires SharedBound(defs)
    ensures Valid(defs, d, PrimitiveSchema(name), v) <==> InhabitsPrimitive(name, v)
  {
    hide Valid, IsBytes, IsResult;
    match name
    case "tstr" => TypedValid(defs, d, TString, v);
    case "bstr" => SharedRefValid(defs, d, "Bytes", v); BytesValid(defs, d, v);
    case "int" => IntegerValid(defs, d, -0x8000_0000_0000_0000, 0x7FFF_FFFF_FFFF_FFFF, map["format" := "int64"], v);
    case "uint" => IntegerValid(defs, d, 0, 0xFFFF_FFFF_FFFF_FFFF, map["format" := "uint64"], v);
    case "float64" => NumberValid(defs, d, v);
    case "bool" => TypedValid(defs, d, TBoolean, v);
    case "any" => AnythingValid(defs, d, v, map[]);
    case "result" => SharedRefValid(defs, d, "LogosResult", v); ResultValid(defs, d, v);
    case _ => AnythingValid(defs, d, v, map["x-logos-unknown-type" := OrMissing(name)]);
  }

  lemma NumberValid(defs: map<string, Schema>, d: Dialect, v: Json)
    ensures Valid(defs, d, PrimitiveSchema("float64"), v) <==> v.JNum?
  {
  }

  lemma SharedRefValid(defs: map<string, Schema>, d: Dialect, k: string, v: Json)
    requires k in SharedComponents && k in defs && defs[k] == SharedComponents[k]
    ensures Valid(defs, d, Ref(k), v) <==> Valid(defs, d, SharedComponents[k], v)
  {
    SharedKeys();
    RefValid(defs, d, k, v);
  }

  lemma ArrayValid(defs: map<string, Schema>, d: Dialect, e: Schema, v: Json)
    ensures
      Valid(defs, d, Anything.(typ := Some(TArray), items := Each(e)), v) <==>
      v.JArr? && forall i | 0 <= i < |v.a| :: Valid(defs, d, e, v.a[i])
  {
    var s := Anything.(typ := Some(TArray), items := Each(e));
    if v.JArr? {
      assert forall i | 0 <= i < |v.a| :: ValidElement(defs, d, s, i, v.a[i]) <==> Valid(defs, d, e, v.a[i]);
    }
  }

  lemma MapValid(defs: map<string, Schema>, d: Dialect, e: Schema, notes: map<string, string>, v: Json)
    ensures
      Valid(defs, d, Anything.(typ := Some(TObject), additionalProperties := Some(e), notes := notes), v) <==>
      v.JObj? && forall k | k in v.o :: Valid(defs, d, e, v.o[k])
  {
    ObjectValid(defs, d, Anything.(typ := Some(TObject), additionalProperties := Some(e), notes := notes), v);
  }

  lemma {:induction false} StrippedInhabits(records: seq<Record>, t: Type, v: Json)
    requires t.Is("optional") && t.elements != []
    ensures Inhabits(records, t, v) <==> Stripped(t).Is("optional") || v.JNull? || Inhabits(records, Stripped(t), v)
  {
    var inner := t.elements[0];
    if inner.Is("optional") && inner.elements != [] {
      StrippedInhabits(records, inner, v);
    }
  }

  /** A value satisfies the schema of a type exactly when it inhabits the type, in either dialect and
      through references between records, recursive ones included. */
  lemma {:induction false} TypeCompiles(defs: map<string, Schema>, d: Dialect, contracts: seq<Contract>, c: Contract, t: Type, v: Json)
    requires Stand(defs, contracts) && c in contracts
    ensures Valid(defs, d, TypeSchema(t, c.Scope()), v) <==> Inhabits(c.records, t, v)
    decreases v, 1, t
  {
    var (scope, records) := (c.Scope(), c.records);
    hide Valid, Stand;
    if t.Type? && t.kind == "primitive" {
      StandShared(defs, contracts);
      PrimitiveCompiles(defs, d, t.name, v);
    } else if t.Is("array") && t.elements != [] {
      ArrayValid(defs, d, TypeSchema(t.elements[0], scope), v);
      if v.JArr? {
        forall i | 0 <= i < |v.a| ensures Valid(defs, d, TypeSchema(t.elements[0], scope), v.a[i]) <==> Inhabits(records, t.elements[0], v.a[i]) {
          TypeCompiles(defs, d, contracts, c, t.elements[0], v.a[i]);
        }
      }
    } else if t.Is("map") && |t.elements| >= 2 {
      MapValid(defs, d, TypeSchema(t.elements[1], scope), TypeSchema(t, scope).notes, v);
      if v.JObj? {
        forall k | k in v.o ensures Valid(defs, d, TypeSchema(t.elements[1], scope), v.o[k]) <==> Inhabits(records, t.elements[1], v.o[k]) {
          TypeCompiles(defs, d, contracts, c, t.elements[1], v.o[k]);
        }
      }
    } else if t.Is("optional") && t.elements != [] {
      TypeCompiles(defs, d, contracts, c, Stripped(t), v);
      OptionalFollows(defs, d, c, t, v);
    } else if t.Is("named") && t.name in scope.records {
      NamedCompiles(defs, d, contracts, c, t.name, v);
    } else {
      UnknownCompiles(defs, d, c, t, v);
    }
  }

  lemma OptionalFollows(defs: map<string, Schema>, d: Dialect, c: Contract, t: Type, v: Json)
    requires t.Is("optional") && t.elements != []
    requires Valid(defs, d, TypeSchema(Stripped(t), c.Scope()), v) <==> Inhabits(c.records, Stripped(t), v)
    ensures Valid(defs, d, TypeSchema(t, c.Scope()), v) <==> Inhabits(c.records, t, v)
  {
    hide Valid;
    StrippedInhabits(c.records, t, v);
    if Stripped(t).Is("optional") {
      AnythingValid(defs, d, v, TypeSchema(t, c.Scope()).notes);
    } else {
      NullableValid(defs, d, TypeSchema(Stripped(t), c.Scope()), v);
    }
  }

  lemma StandShared(defs: map<string, Schema>, contracts: seq<Contract>)
    requires Stand(defs, contracts)
    ensures SharedBound(defs)
  {
  }

  lemma UnknownCompiles(defs: map<string, Schema>, d: Dialect, c: Contract, t: Type, v: Json)
    requires !t.Is("primitive") && !(t.Is("array") && t.elements != []) && !(t.Is("map") && |t.elements| >= 2)
    requires !(t.Is("optional") && t.elements != []) && !(t.Is("named") && t.name in c.Scope().records)
    ensures Valid(defs, d, TypeSchema(t, c.Scope()), v) && Inhabits(c.records, t, v)
  {
    var s := TypeSchema(t, c.Scope());
    AnythingValid(defs, d, v, s.notes);
    if t.Type? && RecordAt(c.records, t.name) < |c.records| {
      assert c.records[RecordAt(c.records, t.name)] in c.records;
    }
  }

  lemma {:induction false} NamedCompiles(defs: map<string, Schema>, d: Dialect, contracts: seq<Contract>, c: Contract, name: string, v: Json)
    requires Stand(defs, contracts) && c in contracts && name in c.Scope().records
    ensures Valid(defs, d, Ref(RecordKey(c.name, name)), v) <==> InhabitsFields(c.records, c.Denoted(name).fields, v)
    decreases v, 0, 1
  {
    var b, q :| b in contracts && StandsFor(defs, b, q, c, name);
    NamedRefers(defs, d, b, q, c, name, v);
    FieldsCompile(defs, d, contracts, b, q, v);
  }

  /** A reference to a record leads to the one that stands under its key. */
  lemma NamedRefers(defs: map<string, Schema>, d: Dialect, b: Contract, q: Record, c: Contract, name: string, v: Json)
    requires RecordKey(c.name, name) in defs && defs[RecordKey(c.name, name)] == RecordSchemaOf(q, b.Scope())
    ensures Valid(defs, d, Ref(RecordKey(c.name, name)), v) <==> Valid(defs, d, RecordSchemaOf(q, b.Scope()), v)
  {
    KeysAreSafe(c.name + "." + name);
    RefValid(defs, d, RecordKey(c.name, name), v);
  }

  lemma {:induction false} FieldsCompile(defs: map<string, Schema>, d: Dialect, contracts: seq<Contract>, c: Contract, r: Record, v: Json)
    requires Stand(defs, contracts) && c in contracts
    ensures Valid(defs, d, RecordSchemaOf(r, c.Scope()), v) <==> InhabitsFields(c.records, r.fields, v)
    decreases v, 0, 0
  {
    hide Valid, Stand, InhabitsFields;
    if v.JObj? {
      forall slot, k | k in v.o ensures SlotMeans(defs, d, c, slot, v.o[k]) {
        SlotCompiles(defs, d, contracts, c, slot, v.o[k]);
      }
    }
    FieldsMean(defs, d, c, r, v);
  }

  ghost predicate SlotMeans(defs: map<string, Schema>, d: Dialect, c: Contract, slot: Slot, v: Json) {
    Valid(defs, d, SlotSchema(slot, c.Scope()), v) <==> InhabitsSlot(c.records, slot, v)
  }

  /** A record means what it says when its fields' schemas do. */
  lemma FieldsMean(defs: map<string, Schema>, d: Dialect, c: Contract, r: Record, v: Json)
    requires v.JObj? ==> forall slot, k | k in v.o :: SlotMeans(defs, d, c, slot, v.o[k])
    ensures Valid(defs, d, RecordSchemaOf(r, c.Scope()), v) <==> InhabitsFields(c.records, r.fields, v)
  {
    var s := RecordSchemaOf(r, c.Scope());
    ObjectValid(defs, d, s, v);
    FieldNames(c, r);
    hide Valid, Properties, Required, First;
    if v.JObj? {
      forall k | k in v.o && k in s.properties
        ensures Valid(defs, d, s.properties[k], v.o[k]) <==> InhabitsSlot(c.records, r.fields[First(r.fields, k)], v.o[k]) {
        assert SlotMeans(defs, d, c, r.fields[First(r.fields, k)], v.o[k]);
      }
    }
  }

  lemma FieldNames(c: Contract, r: Record)
    ensures
      var s := RecordSchemaOf(r, c.Scope());
      forall k ::
        && (k in s.properties <==> First(r.fields, k) < |r.fields|)
        && (k in s.required <==> First(r.fields, k) < |r.fields| && !r.fields[First(r.fields, k)].optional)
        && (k in s.properties ==> s.properties[k] == SlotSchema(r.fields[First(r.fields, k)], c.Scope()))
  {
    forall k {
      PropertyNames(r.fields, c.Scope(), k);
    }
    hide Properties, Required, First, SlotSchema;
  }

  lemma {:induction false} SlotCompiles(defs: map<string, Schema>, d: Dialect, contracts: seq<Contract>, c: Contract, slot: Slot, v: Json)
    requires Stand(defs, contracts) && c in contracts
    ensures SlotMeans(defs, d, c, slot, v)
    decreases v, 2
  {
    TypeCompiles(defs, d, contracts, c, slot.ValueType(), v);
    SlotFollows(defs, d, c, slot, v);
  }

  /** An optional slot admits null besides its type. */
  lemma SlotFollows(defs: map<string, Schema>, d: Dialect, c: Contract, slot: Slot, v: Json)
    requires Valid(defs, d, TypeSchema(slot.ValueType(), c.Scope()), v) <==> Inhabits(c.records, slot.ValueType(), v)
    ensures SlotMeans(defs, d, c, slot, v)
  {
    hide Valid;
    NullableValid(defs, d, TypeSchema(slot.ValueType(), c.Scope()), v);
  }
}
