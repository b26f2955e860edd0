/** A document's schema components: which record each key binds, where references lead, and the two
    tuple forms. */
module SchemaDocuments {
  import opened Prelude
  import opened JsonSchemas
  import opened SchemaCompilers
  import opened SchemaTheorems

  /** `shared`: the components a document starts from. */
  function Components(shared: map<string, Schema>, contracts: seq<Contract>): map<string, Schema> {
    if contracts == [] then shared
    else
      var c := contracts[|contracts| - 1];
      WithRecords(Components(shared, contracts[..|contracts| - 1]), c.Scope(), c.records)
  }

  // ---------------------------------------------------------------------------
  // Which record stands under a key
  // ---------------------------------------------------------------------------

  /** Of the records inserted under a key, the last one stands. */
  function StandingIn(m: string, records: seq<Record>, k: string): (r: Option<Record>)
    ensures r.Some? ==> r.value in records && r.value.name != "" && RecordKey(m, r.value.name) == k
    ensures r.None? ==> forall q | q in records && q.name != "" :: RecordKey(m, q.name) != k
  {
    if records == [] then None
    else
      var last := |records| - 1;
      assert records == records[..last] + [records[last]];
      if records[last].name != "" && RecordKey(m, records[last].name) == k then Some(records[last])
      else StandingIn(m, records[..last], k)
  }

  ghost predicate Declares(contracts: seq<Contract>, c: Contract, r: Record) {
    c in contracts && r in c.records && r.name != ""
  }

  function Key(c: Contract, r: Record): string {
    RecordKey(c.name, r.name)
  }

  function Standing(contracts: seq<Contract>, k: string): (w: Option<(Contract, Record)>)
    ensures w.Some? ==> Declares(contracts, w.value.0, w.value.1) && Key(w.value.0, w.value.1) == k
    ensures w.None? ==> forall c, r | Declares(contracts, c, r) :: Key(c, r) != k
  {
    if contracts == [] then None
    else
      var last := |contracts| - 1;
      var (rest, c) := (contracts[..last], contracts[last]);
      var r := StandingIn(c.name, c.records, k);
      assert contracts == rest + [c] && forall b, q :: Declares(contracts, b, q) <==> Declares(rest, b, q) || (b == c && Declares([c], b, q));
      if r.Some? then Some((c, r.value)) else Standing(rest, k)
  }

  lemma {:induction false} InsertedRecords(defs: map<string, Schema>, scope: Scope, records: seq<Record>, k: string)
    ensures
      var (after, r) := (WithRecords(defs, scope, records), StandingIn(scope.name, records, k));
      if r.Some? then k in after && after[k] == RecordSchemaOf(r.value, scope)
      else (k in after <==> k in defs) && (k in after ==> after[k] == defs[k])
  {
    hide RecordKey, RecordSchemaOf;
    if records != [] {
      InsertedRecords(defs, scope, records[..|records| - 1], k);
    }
  }

  /** What a document holds under a key: the standing record's schema, or what it started from. */
  lemma {:induction false} Inserted(shared: map<string, Schema>, contracts: seq<Contract>, k: string)
    ensures
      var (defs, w) := (Components(shared, contracts), Standing(contracts, k));
      if w.Some? then k in defs && defs[k] == RecordSchemaOf(w.value.1, w.value.0.Scope())
      else (k in defs <==> k in shared) && (k in defs ==> defs[k] == shared[k])
  {
    hide RecordSchemaOf;
    if contracts != [] {
      var (rest, c) := (contracts[..|contracts| - 1], contracts[|contracts| - 1]);
      Inserted(shared, rest, k);
      InsertedRecords(Components(shared, rest), c.Scope(), c.records, k);
    }
  }

  /** What a document starts from: the components that types refer to, under names without a dot. */
  ghost predicate Shared(shared: map<string, Schema>) {
    && SharedBound(shared)
    && (forall k | k in shared :: '.' !in k && ComponentKeyOf(k) == k && !Refers(shared[k]))
  }

  lemma RecordKeysHaveDots(m: string, t: string)
    ensures '.' in RecordKey(m, t)
  {
    assert (m + "." + t)[|m|] == '.';
    assert RecordKey(m, t)[|m|] == '.';
  }

  /** No record overwrites a shared schema. */
  lemma SharedKept(shared: map<string, Schema>, contracts: seq<Contract>)
    requires Shared(shared)
    ensures var defs := Components(shared, contracts); SharedBound(defs) && forall k | k in shared :: k in defs && defs[k] == shared[k]
  {
    var defs := Components(shared, contracts);
    forall k | k in shared ensures k in defs && defs[k] == shared[k] {
      Inserted(shared, contracts, k);
      var w := Standing(contracts, k);
      if w.Some? {
        RecordKeysHaveDots(w.value.0.name, w.value.1.name);
      }
    }
  }

  /** Records whose keys are spelled alike compile alike. */
  ghost predicate NoClash(contracts: seq<Contract>) {
    forall b, q, c, r {:trigger Declares(contracts, b, q), Declares(contracts, c, r)}
      | Declares(contracts, b, q) && Declares(contracts, c, r) && Key(b, q) == Key(c, r) ::
      RecordSchemaOf(q, b.Scope()) == RecordSchemaOf(r, c.Scope())
  }

  /** Each record's own schema stands under its key exactly when no two records with one key compile
      differently. */
  lemma BoundExactly(shared: map<string, Schema>, contracts: seq<Contract>)
    requires Shared(shared)
    ensures (forall c | c in contracts :: Bound(Components(shared, contracts), c)) <==> NoClash(contracts)
  {
    var defs := Components(shared, contracts);
    SharedKept(shared, contracts);
    hide Shared, SharedBound, RecordKey, RecordSchemaOf;
    forall c, r | Declares(contracts, c, r) ensures Standing(contracts, Key(c, r)).Some? {}
    forall k ensures
        var w := Standing(contracts, k);
        w.Some? ==> k in defs && defs[k] == RecordSchemaOf(w.value.1, w.value.0.Scope()) {
      Inserted(shared, contracts, k);
    }
    if forall c | c in contracts :: Bound(defs, c) {
      forall b, q, c, r | Declares(contracts, b, q) && Declares(contracts, c, r) && Key(b, q) == Key(c, r)
        ensures RecordSchemaOf(q, b.Scope()) == RecordSchemaOf(r, c.Scope()) {
        assert Bound(defs, b) && Bound(defs, c);
      }
    }
    if NoClash(contracts) {
      forall c | c in contracts ensures Bound(defs, c) {
        forall r | r in c.records && r.name != ""
          ensures RecordKey(c.name, r.name) in defs && defs[RecordKey(c.name, r.name)] == RecordSchemaOf(r, c.Scope()) {
          assert Declares(contracts, c, r);
          var w := Standing(contracts, Key(c, r)).value;
          assert Declares(contracts, w.0, w.1);
        }
      }
    }
  }

  // ---------------------------------------------------------------------------
  // When types mean what they say
  // ---------------------------------------------------------------------------

  /** Every type of the module means what it says. */
  ghost predicate TypesMean(defs: map<string, Schema>, d: Dialect, c: Contract) {
    forall t, v :: Valid(defs, d, TypeSchema(t, c.Scope()), v) <==> Inhabits(c.records, t, v)
  }

  /** The record standing under the key of the module's record n admits the same values. */
  ghost predicate HarmlessAt(contracts: seq<Contract>, c: Contract, n: string)
    requires n in c.Scope().records
  {
    var w := Standing(contracts, RecordKey(c.name, n));
    w.Some? && SameValues(w.value.0, w.value.1, c, c.Denoted(n))
  }

  /** What stands under a record's key admits the values of the record, in every module. */
  ghost predicate Harmless(contracts: seq<Contract>) {
    forall c, n {:trigger c in contracts, n in c.Scope().records} | c in contracts && n in c.Scope().records :: HarmlessAt(contracts, c, n)
  }

  /** In a document every type of every module means what it says exactly when records that share a key with
      the one standing there admit the same values. */
  lemma MeaningExactly(shared: map<string, Schema>, contracts: seq<Contract>, d: Dialect)
    requires Shared(shared)
    ensures (forall c | c in contracts :: TypesMean(Components(shared, contracts), d, c)) <==> Harmless(contracts)
  {
    var defs := Components(shared, contracts);
    hide TypesMean, Harmless, Shared, Components;
    if Harmless(contracts) {
      HarmlessStand(shared, contracts);
      forall c | c in contracts ensures TypesMean(defs, d, c) {
        StandMeans(defs, d, contracts, c);
      }
    }
    if forall c | c in contracts :: TypesMean(defs, d, c) {
      MeansHarmless(shared, contracts, d);
    }
  }

  lemma StandMeans(defs: map<string, Schema>, d: Dialect, contracts: seq<Contract>, c: Contract)
    requires Stand(defs, contracts) && c in contracts
    ensures TypesMean(defs, d, c)
  {
    hide Valid, Inhabits, TypeSchema;
    forall t, v ensures Valid(defs, d, TypeSchema(t, c.Scope()), v) <==> Inhabits(c.records, t, v) {
      TypeCompiles(defs, d, contracts, c, t, v);
    }
  }

  lemma HarmlessStand(shared: map<string, Schema>, contracts: seq<Contract>)
    requires Shared(shared) && Harmless(contracts)
    ensures Stand(Components(shared, contracts), contracts)
  {
    var defs := Components(shared, contracts);
    SharedKept(shared, contracts);
    hide SharedBound, Shared, SameValues, RecordKey, RecordSchemaOf;
    forall c, n | c in contracts && n in c.Scope().records ensures exists b, q :: b in contracts && StandsFor(defs, b, q, c, n) {
      assert HarmlessAt(contracts, c, n);
      var w := Standing(contracts, RecordKey(c.name, n)).value;
      Inserted(shared, contracts, RecordKey(c.name, n));
      assert StandsFor(defs, w.0, w.1, c, n);
    }
  }

  lemma MeansHarmless(shared: map<string, Schema>, contracts: seq<Contract>, d: Dialect)
    requires forall c | c in contracts :: TypesMean(Components(shared, contracts), d, c)
    ensures Harmless(contracts)
  {
    hide TypesMean, Components;
    forall c, n | c in contracts && n in c.Scope().records ensures HarmlessAt(contracts, c, n) {
      MeansHarmlessAt(shared, contracts, d, c, n);
    }
  }

  /** The type that names the record means the record; the record standing under its key means itself. */
  lemma MeansHarmlessAt(shared: map<string, Schema>, contracts: seq<Contract>, d: Dialect, c: Contract, n: string)
    requires forall c | c in contracts :: TypesMean(Components(shared, contracts), d, c)
    requires c in contracts && n in c.Scope().records
    ensures HarmlessAt(contracts, c, n)
  {
    var (defs, k, r) := (Components(shared, contracts), RecordKey(c.name, n), c.Denoted(n));
    assert Declares(contracts, c, r) && Key(c, r) == k;
    var w := Standing(contracts, k).value;
    Inserted(shared, contracts, k);
    hide Standing, Components;
    assert TypesMean(defs, d, w.0) && TypesMean(defs, d, c);
    forall v ensures InhabitsFields(w.0.records, w.1.fields, v) <==> InhabitsFields(c.records, r.fields, v) {
      MeansItself(defs, d, w.0, w.1, v);
      NamedMeans(defs, d, c, n, v);
      NamedRefers(defs, d, w.0, w.1, c, n, v);
    }
  }

  lemma MeansItself(defs: map<string, Schema>, d: Dialect, c: Contract, r: Record, v: Json)
    requires TypesMean(defs, d, c)
    ensures Valid(defs, d, RecordSchemaOf(r, c.Scope()), v) <==> InhabitsFields(c.records, r.fields, v)
  {
    hide Valid, Inhabits, InhabitsFields, TypeSchema;
    if v.JObj? {
      forall slot, k | k in v.o ensures SlotMeans(defs, d, c, slot, v.o[k]) {
        SlotFollows(defs, d, c, slot, v.o[k]);
      }
    }
    FieldsMean(defs, d, c, r, v);
  }

  lemma NamedMeans(defs: map<string, Schema>, d: Dialect, c: Contract, n: string, v: Json)
    requires TypesMean(defs, d, c) && n in c.Scope().records
    ensures Valid(defs, d, Ref(RecordKey(c.name, n)), v) <==> InhabitsFields(c.records, c.Denoted(n).fields, v)
  {
    hide Valid, InhabitsFields, RecordKey;
    var t := Type("named", n, []);
    assert Valid(defs, d, TypeSchema(t, c.Scope()), v) <==> Inhabits(c.records, t, v);
  }

  /** Where a module's record names are its own, the condition is that records sharing a key admit the same
      values. */
  lemma HarmlessPairs(contracts: seq<Contract>)
    requires forall c | c in contracts :: forall q, r | q in c.records && r in c.records && q.name == r.name :: q == r
    ensures
      Harmless(contracts) <==>
      forall b, q, c, r {:trigger Declares(contracts, b, q), Declares(contracts, c, r)}
        | Declares(contracts, b, q) && Declares(contracts, c, r) && Key(b, q) == Key(c, r) :: SameValues(b, q, c, r)
  {
    hide Standing, RecordKey, InhabitsFields;
    if Harmless(contracts) {
      forall b, q, c, r | Declares(contracts, b, q) && Declares(contracts, c, r) && Key(b, q) == Key(c, r)
        ensures SameValues(b, q, c, r) {
        assert q.name in b.Scope().records && r.name in c.Scope().records;
        assert HarmlessAt(contracts, b, q.name) && HarmlessAt(contracts, c, r.name);
      }
    } else {
      var c, n :| c in contracts && n in c.Scope().records && !HarmlessAt(contracts, c, n);
      var w := Standing(contracts, RecordKey(c.name, n));
      assert Declares(contracts, c, c.Denoted(n));
      assert Declares(contracts, w.value.0, w.value.1) && !SameValues(w.value.0, w.value.1, c, c.Denoted(n));
    }
  }

  /** Every type of every module means what it says in a document where no two records with one key compile
      differently. */
  lemma DocumentTypesMean(shared: map<string, Schema>, contracts: seq<Contract>, c: Contract, d: Dialect, t: Type, v: Json)
    requires Shared(shared) && NoClash(contracts) && c in contracts
    ensures Valid(Components(shared, contracts), d, TypeSchema(t, c.Scope()), v) <==> Inhabits(c.records, t, v)
  {
    BoundExactly(shared, contracts);
    BoundStand(Components(shared, contracts), c);
    TypeCompiles(Components(shared, contracts), d, [c], c, t, v);
  }

  predicate PlainName(name: string) {
    name != "" && forall c | c in name :: KeyChar(c)
  }

  /** Plain names never clash: a module name has no dot, so a key splits in one way only. */
  lemma PlainNamesNeverClash(contracts: seq<Contract>)
    requires forall c | c in contracts :: PlainName(c.name) && '.' !in c.name && forall r | r in c.records :: PlainName(r.name)
    requires forall b, c | b in contracts && c in contracts && b.name == c.name :: b == c
    requires forall c | c in contracts :: forall q, r | q in c.records && r in c.records && q.name == r.name :: q == r
    ensures NoClash(contracts)
  {
    forall b, q, c, r | Declares(contracts, b, q) && Declares(contracts, c, r) && Key(b, q) == Key(c, r)
      ensures RecordSchemaOf(q, b.Scope()) == RecordSchemaOf(r, c.Scope()) {
      PlainKey(b.name, q.name);
      PlainKey(c.name, r.name);
      SplitOnce(b.name, q.name, c.name, r.name);
    }
  }

  lemma PlainKey(m: string, t: string)
    requires PlainName(m) && PlainName(t)
    ensures RecordKey(m, t) == m + "." + t
  {
    KeysAreSafe(m + "." + t);
  }

  lemma SplitOnce(a: string, x: string, b: string, y: string)
    requires '.' !in a && '.' !in b && a + "." + x == b + "." + y
    ensures a == b && x == y
  {
    var s := a + "." + x;
    assert s[|a|] == '.' && s == b + "." + y && s[|b|] == '.';
    assert forall i | 0 <= i < |a| :: s[i] == a[i] && a[i] in a;
    assert forall i | 0 <= i < |b| :: s[i] == b[i] && b[i] in b;
    assert |a| == |b|;
    assert a == s[..|a|] && b == s[..|b|];
    assert x == s[|a| + 1..] && y == s[|b| + 1..];
  }

  const FlagRecord := Record("T", [Slot("f", Type("primitive", "bool", []), None, false)])
  const TextRecord := Record("T", [Slot("f", Type("primitive", "tstr", []), None, false)])

  /** Names that differ only where a key cannot spell them do clash: the later module's record then
      describes the earlier one's values too. */
  lemma ClashExample(shared: map<string, Schema>, d: Dialect)
    requires Shared(shared)
    ensures
      var (a, b) := (Contract("a/b", [FlagRecord]), Contract("a_b", [TextRecord]));
      var (t, v) := (Type("named", "T", []), JObj(map["f" := JBool(true)]));
      && Inhabits(a.records, t, v)
      && !Valid(Components(shared, [a, b]), d, TypeSchema(t, a.Scope()), v)
      && !Harmless([a, b])
  {
    var (a, b) := (Contract("a/b", [FlagRecord]), Contract("a_b", [TextRecord]));
    FlagInhabits();
    ClashRefuses(shared, d);
    assert a in [a, b];
    hide Valid, Components, Harmless, Inhabits, TypeSchema;
    RefusalHarms(shared, [a, b], d, a, Type("named", "T", []), JObj(map["f" := JBool(true)]));
  }

  lemma RefusalHarms(shared: map<string, Schema>, contracts: seq<Contract>, d: Dialect, c: Contract, t: Type, v: Json)
    requires Shared(shared) && c in contracts && Inhabits(c.records, t, v)
    requires !Valid(Components(shared, contracts), d, TypeSchema(t, c.Scope()), v)
    ensures !Harmless(contracts)
  {
    hide Valid, Components, Harmless, Inhabits, TypeSchema;
    MeaningExactly(shared, contracts, d);
  }

  lemma ClashRefuses(shared: map<string, Schema>, d: Dialect)
    requires Shared(shared)
    ensures
      var (a, b) := (Contract("a/b", [FlagRecord]), Contract("a_b", [TextRecord]));
      !Valid(Components(shared, [a, b]), d, TypeSchema(Type("named", "T", []), a.Scope()), JObj(map["f" := JBool(true)]))
  {
    hide Valid, Components, RecordKey, RecordSchemaOf;
    var (a, b) := (Contract("a/b", [FlagRecord]), Contract("a_b", [TextRecord]));
    var (defs, v) := (Components(shared, [a, b]), JObj(map["f" := JBool(true)]));
    ClashBinds(shared);
    ClashKeys();
    TextInvalid(defs, d);
    NamedRefers(defs, d, b, TextRecord, a, "T", v);
    assert FlagRecord in a.records;
  }

  /** Records that share a key but differ in name alone: their schemas differ in the title, and every type
      still means what it says. */
  lemma TitleExample()
    ensures
      var c := Contract("m", [FlagRecord.(name := "x/y"), FlagRecord.(name := "x_y")]);
      !NoClash([c]) && Harmless([c])
  {
    var (q, r) := (FlagRecord.(name := "x/y"), FlagRecord.(name := "x_y"));
    var c := Contract("m", [q, r]);
    assert q in c.records && r in c.records && Declares([c], c, q) && Declares([c], c, r);
    TitleKeys();
    assert RecordSchemaOf(q, c.Scope()).notes["title"] != RecordSchemaOf(r, c.Scope()).notes["title"];
    forall e, n | e in [c] && n in e.Scope().records ensures HarmlessAt([c], e, n) {
      assert Declares([c], c, c.Denoted(n)) && c.Denoted(n).fields == FlagRecord.fields;
    }
  }

  lemma TitleKeys()
    ensures RecordKey("m", "x/y") == RecordKey("m", "x_y")
  {
    assert "m" + "." + "x/y" == "m.x/y" && "m" + "." + "x_y" == "m.x_y";
    var (x, y) := (ComponentKeyOf("m.x/y"), ComponentKeyOf("m.x_y"));
    assert |x| == 5 && |y| == 5;
    assert forall i | 0 <= i < 5 :: x[i] == y[i];
  }

  lemma FlagInhabits()
    ensures Inhabits([FlagRecord], Type("named", "T", []), JObj(map["f" := JBool(true)]))
  {
    assert [FlagRecord][RecordAt([FlagRecord], "T")] == FlagRecord;
    assert InhabitsSlot([FlagRecord], FlagRecord.fields[0], JBool(true));
    assert InhabitsFields([FlagRecord], FlagRecord.fields, JObj(map["f" := JBool(true)]));
  }

  lemma ClashBinds(shared: map<string, Schema>)
    ensures
      var defs := Components(shared, [Contract("a/b", [FlagRecord]), Contract("a_b", [TextRecord])]);
      RecordKey("a_b", "T") in defs && defs[RecordKey("a_b", "T")] == RecordSchemaOf(TextRecord, ScopeOf("a_b", [TextRecord]))
  {
    hide RecordKey, RecordSchemaOf;
  }

  lemma TextInvalid(defs: map<string, Schema>, d: Dialect)
    ensures !Valid(defs, d, RecordSchemaOf(TextRecord, ScopeOf("a_b", [TextRecord])), JObj(map["f" := JBool(true)]))
  {
    var (s, v) := (RecordSchemaOf(TextRecord, ScopeOf("a_b", [TextRecord])), JObj(map["f" := JBool(true)]));
    assert First(TextRecord.fields, "f") == 0;
    PropertyNames(TextRecord.fields, ScopeOf("a_b", [TextRecord]), "f");
    TypedValid(defs, d, TString, JBool(true));
    ObjectValid(defs, d, s, v);
    hide Valid;
    assert "f" in v.o && "f" in s.properties;
  }

  lemma ClashKeys()
    ensures RecordKey("a/b", "T") == RecordKey("a_b", "T")
  {
    assert "a/b" + "." + "T" == "a/b.T" && "a_b" + "." + "T" == "a_b.T";
    var (x, y) := (ComponentKeyOf("a/b.T"), ComponentKeyOf("a_b.T"));
    assert |x| == 5 && |y| == 5;
    assert forall i | 0 <= i < 5 :: x[i] == y[i];
  }

  // ---------------------------------------------------------------------------
  // References
  // ---------------------------------------------------------------------------

  /** Every $ref in the schema stands alone and names a component, unescaped. */
  ghost predicate Resolves(defs: map<string, Schema>, s: Schema) {
    s.Keywords? ==>
      && (s.ref.Some? ==> s == Anything.(ref := s.ref) && s.ref.value in defs && ComponentKeyOf(s.ref.value) == s.ref.value)
      && (match s.items
          case NoItems => true
          case Each(e) => Resolves(defs, e)
          case Positions(es) => forall i | 0 <= i < |es| :: Resolves(defs, es[i]))
      && (forall i | 0 <= i < |s.prefixItems| :: Resolves(defs, s.prefixItems[i]))
      && (s.additionalItems.Some? ==> Resolves(defs, s.additionalItems.value))
      && (forall k | k in s.properties :: Resolves(defs, s.properties[k]))
      && (s.additionalProperties.Some? ==> Resolves(defs, s.additionalProperties.value))
      && (forall i | 0 <= i < |s.anyOf| :: Resolves(defs, s.anyOf[i]))
      && (forall i | 0 <= i < |s.allOf| :: Resolves(defs, s.allOf[i]))
      && (forall i | 0 <= i < |s.oneOf| :: Resolves(defs, s.oneOf[i]))
  }

  ghost predicate Covers(defs: map<string, Schema>, scope: Scope) {
    SharedComponents.Keys <= defs.Keys && forall n | n in scope.records :: RecordKey(scope.name, n) in defs
  }

  lemma RefResolves(defs: map<string, Schema>, component: string)
    requires ComponentKeyOf(component) in defs
    ensures Resolves(defs, Ref(component))
  {
    KeysAreSafe(component);
  }

  lemma NullableResolves(defs: map<string, Schema>, s: Schema)
    requires Resolves(defs, s)
    ensures Resolves(defs, Nullable(s))
  {
    if s != Anything {
      assert Nullable(s).anyOf == [s, Anything.(typ := Some(TNull))];
    }
  }

  lemma LeafResolves(defs: map<string, Schema>, s: Schema)
    requires s.Keywords? && s.ref.None? && s.items.NoItems? && s.prefixItems == [] && s.additionalItems.None?
    requires s.properties == map[] && s.additionalProperties.None? && s.anyOf == [] && s.allOf == [] && s.oneOf == []
    ensures Resolves(defs, s)
  {
  }

  lemma PrimitiveResolves(defs: map<string, Schema>, name: string)
    requires SharedComponents.Keys <= defs.Keys
    ensures Resolves(defs, PrimitiveSchema(name))
  {
    hide Resolves;
    if name == "bstr" || name == "result" {
      SharedKeys();
      var k := if name == "bstr" then "Bytes" else "LogosResult";
      assert k in SharedComponents;
      RefResolves(defs, k);
    } else {
      LeafResolves(defs, PrimitiveSchema(name));
    }
  }

  lemma NestedResolves(defs: map<string, Schema>, e: Schema, notes: map<string, string>)
    requires Resolves(defs, e)
    ensures Resolves(defs, Anything.(typ := Some(TArray), items := Each(e)))
    ensures Resolves(defs, Anything.(typ := Some(TObject), additionalProperties := Some(e), notes := notes))
    ensures Resolves(defs, Anything.(notes := notes))
  {
  }

  lemma {:induction false} TypeResolves(defs: map<string, Schema>, scope: Scope, t: Type)
    requires Covers(defs, scope)
    ensures Resolves(defs, TypeSchema(t, scope))
  {
    var s := TypeSchema(t, scope);
    hide Resolves;
    if t.Is("primitive") {
      PrimitiveResolves(defs, t.name);
    } else if t.Is("array") && t.elements != [] {
      TypeResolves(defs, scope, t.elements[0]);
      NestedResolves(defs, TypeSchema(t.elements[0], scope), map[]);
    } else if t.Is("map") && |t.elements| >= 2 {
      TypeResolves(defs, scope, t.elements[1]);
      NestedResolves(defs, TypeSchema(t.elements[1], scope), s.notes);
    } else if t.Is("optional") && !Stripped(t).Is("optional") {
      TypeResolves(defs, scope, Stripped(t));
      NullableResolves(defs, TypeSchema(Stripped(t), scope));
    } else if t.Is("named") && t.name in scope.records {
      KeysAreSafe(scope.name + "." + t.name);
      RefResolves(defs, RecordKey(scope.name, t.name));
    } else {
      AnythingResolves(defs);
      NestedResolves(defs, Anything, s.notes);
    }
  }

  lemma AnythingResolves(defs: map<string, Schema>)
    ensures Resolves(defs, Anything) && Resolves(defs, Never)
  {
  }

  lemma SlotsResolve(defs: map<string, Schema>, scope: Scope, slot: Slot)
    requires Covers(defs, scope)
    ensures Resolves(defs, SlotSchema(slot, scope))
  {
    TypeResolves(defs, scope, slot.ValueType());
    NullableResolves(defs, TypeSchema(slot.ValueType(), scope));
  }

  lemma ParamsResolve(defs: map<string, Schema>, scope: Scope, slots: seq<Slot>)
    requires Covers(defs, scope)
    ensures Resolves(defs, ParamsObjectOf(slots, scope))
  {
    PropertiesResolve(defs, scope, slots);
    AnythingResolves(defs);
    hide Properties, Covers;
  }

  lemma TupleResolves(defs: map<string, Schema>, scope: Scope, slots: seq<Slot>, d: Dialect)
    requires Covers(defs, scope)
    ensures Resolves(defs, ParamsTupleOf(slots, scope, d))
  {
    forall i | 0 <= i < |slots| ensures Resolves(defs, SlotSchemas(slots, scope)[i]) {
      SlotsResolve(defs, scope, slots[i]);
    }
    AnythingResolves(defs);
    hide Covers, SlotSchema;
  }

  lemma RecordResolves(defs: map<string, Schema>, scope: Scope, r: Record)
    requires Covers(defs, scope)
    ensures Resolves(defs, RecordSchemaOf(r, scope)) && !Refers(RecordSchemaOf(r, scope))
  {
    PropertiesResolve(defs, scope, r.fields);
    hide Properties, Covers;
  }

  /** A result refers to the rejection beside the value, and a description to nothing. */
  lemma WrappedResolve(defs: map<string, Schema>, s: Schema, text: string)
    requires SharedComponents.Keys <= defs.Keys && Resolves(defs, s)
    ensures Resolves(defs, ResultSchema(s)) && Resolves(defs, Describe(s, text))
  {
    hide Resolves;
    SharedKeys();
    assert "ProviderRejection" in SharedComponents;
    RefResolves(defs, "ProviderRejection");
    AnyOfResolves(defs, s, Ref("ProviderRejection"));
    DescribedResolves(defs, s, text);
  }

  lemma AnyOfResolves(defs: map<string, Schema>, a: Schema, b: Schema)
    requires Resolves(defs, a) && Resolves(defs, b)
    ensures Resolves(defs, Anything.(anyOf := [a, b])) && Resolves(defs, Anything.(oneOf := [a, b]))
  {
  }

  lemma DescribedResolves(defs: map<string, Schema>, s: Schema, text: string)
    requires Resolves(defs, s)
    ensures Resolves(defs, Describe(s, text))
  {
    if text != "" && (s.Never? || s.ref.Some?) {
      assert Describe(s, text).allOf == [s];
    }
  }

  lemma PropertiesResolve(defs: map<string, Schema>, scope: Scope, slots: seq<Slot>)
    requires Covers(defs, scope)
    ensures forall k | k in Properties(slots, scope) :: Resolves(defs, Properties(slots, scope)[k])
  {
    forall k | k in Properties(slots, scope) ensures Resolves(defs, Properties(slots, scope)[k]) {
      PropertyNames(slots, scope, k);
      SlotsResolve(defs, scope, slots[First(slots, k)]);
    }
  }

  /** Every component of a document resolves within it and never leads to a reference on the same
      value, whatever records its modules declare, so following references always ends. */
  lemma ComponentsResolve(shared: map<string, Schema>, contracts: seq<Contract>, k: string)
    requires Shared(shared) && k in Components(shared, contracts)
    requires forall n | n in shared :: Resolves(shared, shared[n])
    ensures Resolves(Components(shared, contracts), Components(shared, contracts)[k])
    ensures !Refers(Components(shared, contracts)[k])
  {
    var defs := Components(shared, contracts);
    SharedKept(shared, contracts);
    Inserted(shared, contracts, k);
    if k in shared {
      MoreResolve(shared, defs, shared[k]);
    } else {
      var w := Standing(contracts, k).value;
      ContractCovered(shared, contracts, w.0);
      RecordResolves(defs, w.0.Scope(), w.1);
    }
  }

  lemma ContractCovered(shared: map<string, Schema>, contracts: seq<Contract>, c: Contract)
    requires Shared(shared) && c in contracts
    ensures Covers(Components(shared, contracts), c.Scope())
  {
    var defs := Components(shared, contracts);
    SharedKept(shared, contracts);
    forall n | n in c.Scope().records ensures RecordKey(c.name, n) in defs {
      assert Declares(contracts, c, c.Denoted(n)) && Key(c, c.Denoted(n)) == RecordKey(c.name, n);
      Inserted(shared, contracts, RecordKey(c.name, n));
    }
  }

  lemma {:induction false} MoreResolve(defs: map<string, Schema>, more: map<string, Schema>, s: Schema)
    requires defs.Keys <= more.Keys && Resolves(defs, s)
    ensures Resolves(more, s)
  {
    if s.Keywords? {
      match s.items {
        case NoItems =>
        case Each(e) => MoreResolve(defs, more, e);
        case Positions(es) => forall i | 0 <= i < |es| ensures Resolves(more, es[i]) { MoreResolve(defs, more, es[i]); }
      }
      forall i | 0 <= i < |s.prefixItems| ensures Resolves(more, s.prefixItems[i]) { MoreResolve(defs, more, s.prefixItems[i]); }
      if s.additionalItems.Some? { MoreResolve(defs, more, s.additionalItems.value); }
      forall k | k in s.properties ensures Resolves(more, s.properties[k]) { MoreResolve(defs, more, s.properties[k]); }
      if s.additionalProperties.Some? { MoreResolve(defs, more, s.additionalProperties.value); }
      forall i | 0 <= i < |s.anyOf| ensures Resolves(more, s.anyOf[i]) { MoreResolve(defs, more, s.anyOf[i]); }
      forall i | 0 <= i < |s.allOf| ensures Resolves(more, s.allOf[i]) { MoreResolve(defs, more, s.allOf[i]); }
      forall i | 0 <= i < |s.oneOf| ensures Resolves(more, s.oneOf[i]) { MoreResolve(defs, more, s.oneOf[i]); }
    }
  }
}
