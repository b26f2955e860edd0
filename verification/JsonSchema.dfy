/** JSON values, and the JSON Schema keywords the documents use with their meaning in draft-07 and in
    2020-12. A schema is a record of its keywords; `notes` holds the ones that only annotate. */
module JsonSchemas {
  import opened Prelude

  datatype Json = JNull | JBool(b: bool) | JNum(n: real) | JStr(s: string) | JArr(a: seq<Json>) | JObj(o: map<string, Json>)

  datatype Dialect = Draft07 | Draft2020

  /** A type name, or an array of them. */
  datatype TypeName = TString | TInteger | TNumber | TBoolean | TNull | TArray | TObject | Among(names: seq<TypeName>)

  /** `items` is one schema for every element, or (draft-07) one per position. */
  datatype Items = NoItems | Each(schema: Schema) | Positions(schemas: seq<Schema>)

  /** `allowed`: the values of const and of enum. */
  datatype Schema =
    | Never   // the schema `false`
    | Keywords(ref: Option<string>, typ: Option<TypeName>, minimum: Option<real>, maximum: Option<real>, items: Items,
               prefixItems: seq<Schema>, additionalItems: Option<Schema>, minItems: Option<nat>, maxItems: Option<nat>,
               properties: map<string, Schema>, required: seq<string>, additionalProperties: Option<Schema>,
               maxProperties: Option<nat>, anyOf: seq<Schema>, allOf: seq<Schema>, oneOf: seq<Schema>,
               allowed: Option<seq<Json>>, base64url: bool,
               notes: map<string, string>)

  /** {} */
  const Anything := Keywords(None, None, None, None, NoItems, [], None, None, None, map[], [], None, None, [], [], [], None, false,
                             map[])

  predicate IsInteger(x: real) {
    x == x.Floor as real
  }

  predicate HasType(t: TypeName, v: Json) {
    match t
    case TString => v.JStr?
    case TInteger => v.JNum? && IsInteger(v.n)
    case TNumber => v.JNum?
    case TBoolean => v.JBool?
    case TNull => v.JNull?
    case TArray => v.JArr?
    case TObject => v.JObj?
    case Among(names) => exists i | 0 <= i < |names| :: HasType(names[i], v)
  }

  /** The pattern ^[A-Za-z0-9_-]*$, the only one used. */
  predicate IsBase64Url(s: string) {
    forall c | c in s :: 'A' <= c <= 'Z' || 'a' <= c <= 'z' || '0' <= c <= '9' || c == '_' || c == '-'
  }

  /** Whether checking the same value can reach a $ref, through anyOf, allOf and oneOf. */
  predicate Refers(s: Schema) {
    s.Keywords? && (s.ref.Some? || (exists i | 0 <= i < |s.anyOf| :: Refers(s.anyOf[i])) ||
                    (exists i | 0 <= i < |s.allOf| :: Refers(s.allOf[i])) ||
                    (exists i | 0 <= i < |s.oneOf| :: Refers(s.oneOf[i])))
  }

  /** Does the value satisfy the schema? `defs` are the document's components. A component that leads
      to a $ref on the same value is refused, which is what makes checking end. */
  predicate Valid(defs: map<string, Schema>, d: Dialect, s: Schema, v: Json)
    decreases v, B(Refers(s)), s, 2
  {
    s.Keywords? &&
    if s.ref.None? then ValidKeywords(defs, d, s, v)
    else
      && s.ref.value in defs && !Refers(defs[s.ref.value]) && Valid(defs, d, defs[s.ref.value], v)
      && (d.Draft07? || ValidKeywords(defs, d, s, v))   // draft-07 ignores what stands beside $ref
  }

  predicate ValidKeywords(defs: map<string, Schema>, d: Dialect, s: Schema, v: Json)
    requires s.Keywords?
    decreases v, B(Refers(s)), s, 1
  {
    && (s.typ.Some? ==> HasType(s.typ.value, v))
    && (s.allowed.Some? ==> v in s.allowed.value)
    && (v.JNum? ==> (s.minimum.Some? ==> s.minimum.value <= v.n) && (s.maximum.Some? ==> v.n <= s.maximum.value))
    && (v.JStr? && s.base64url ==> IsBase64Url(v.s))
    && (v.JArr? ==>
          && (s.minItems.Some? ==> s.minItems.value <= |v.a|) && (s.maxItems.Some? ==> |v.a| <= s.maxItems.value)
          && (forall i | 0 <= i < |v.a| :: ValidElement(defs, d, s, i, v.a[i])))
    && (v.JObj? ==>
          && (s.maxProperties.Some? ==> |v.o| <= s.maxProperties.value)
          && (forall k | k in s.required :: k in v.o)
          && (forall k | k in v.o ::
                if k in s.properties then Valid(defs, d, s.properties[k], v.o[k])
                else s.additionalProperties.Some? ==> Valid(defs, d, s.additionalProperties.value, v.o[k])))
    && (s.anyOf != [] ==> exists i | 0 <= i < |s.anyOf| :: Valid(defs, d, s.anyOf[i], v))
    && (forall i | 0 <= i < |s.allOf| :: Valid(defs, d, s.allOf[i], v))
    && (s.oneOf != [] ==> exists i | 0 <= i < |s.oneOf| :: ValidOnly(defs, d, s, i, v))
  }

  /** Of the schemas in oneOf, this one and no other. */
  predicate ValidOnly(defs: map<string, Schema>, d: Dialect, s: Schema, i: nat, v: Json)
    requires s.Keywords? && i < |s.oneOf|
    decreases v, B(Refers(s)), s, 0
  {
    Valid(defs, d, s.oneOf[i], v) && forall j | 0 <= j < |s.oneOf| && j != i :: !Valid(defs, d, s.oneOf[j], v)
  }

  /** Draft-07 has per-position `items` followed by `additionalItems`; 2020-12 has `prefixItems`
      followed by `items`. */
  predicate ValidElement(defs: map<string, Schema>, d: Dialect, s: Schema, i: nat, x: Json)
    requires s.Keywords?
    decreases x, 2, s, 2
  {
    match d
    case Draft07 =>
      (match s.items
       case NoItems => true
       case Each(e) => Valid(defs, d, e, x)
       case Positions(es) =>
         if i < |es| then Valid(defs, d, es[i], x)
         else s.additionalItems.Some? ==> Valid(defs, d, s.additionalItems.value, x))
    case Draft2020 =>
      if i < |s.prefixItems| then Valid(defs, d, s.prefixItems[i], x)
      else s.items.Each? ==> Valid(defs, d, s.items.schema, x)
  }
}
