/** By-name parameters and the positional array a call takes, and how the two documented forms of a
    parameter list agree. */
module Translations {
  import opened Prelude
  import opened ModuleViews
  import opened JsonSchemas
  import opened SchemaCompilers
  import opened SchemaTheorems

  datatype Positional = Args(values: seq<Json>) | BadPath(name: string)

  predicate Named(params: seq<Param>, name: string) {
    exists p | p in params :: p.name == name
  }

  predicate Missing(p: Param, byName: map<string, Json>) {
    p.name !in byName && !p.optional
  }

  /** Declaration order; a missing optional parameter is null. */
  function InOrder(params: seq<Param>, byName: map<string, Json>): seq<Json> {
    seq(|params|, i requires 0 <= i < |params| => if params[i].name in byName then byName[params[i].name] else JNull)
  }

  /** Only known names, and every required one. */
  predicate Translates(params: seq<Param>, byName: map<string, Json>) {
    (forall k | k in byName :: Named(params, k)) && forall p | p in params :: !Missing(p, byName)
  }

  /** The order of an object's keys: byte by byte. */
  predicate Before(a: string, b: string) {
    b != "" && (a == "" || a[0] < b[0] || (a[0] == b[0] && Before(a[1..], b[1..])))
  }

  lemma {:induction false} BeforeTotal(a: string, b: string)
    ensures a == b || Before(a, b) || Before(b, a)
  {
    if a != "" && b != "" && a[0] == b[0] {
      assert a == [a[0]] + a[1..] && b == [b[0]] + b[1..];
      BeforeTotal(a[1..], b[1..]);
    }
  }

  lemma {:induction false} BeforeFollows(a: string, b: string, c: string)
    requires Before(a, b) && Before(b, c)
    ensures Before(a, c)
  {
    if a != "" && a[0] == b[0] && b[0] == c[0] {
      BeforeFollows(a[1..], b[1..], c[1..]);
    }
  }

  predicate IsLeast(keys: set<string>, k: string) {
    k in keys && forall j | j in keys :: j == k || Before(k, j)
  }

  lemma {:induction false} SomeLeast(keys: set<string>) returns (k: string)
    requires keys != {}
    ensures IsLeast(keys, k)
    decreases |keys|
  {
    var x :| x in keys;
    if keys == {x} {
      return x;
    }
    var y := SomeLeast(keys - {x});
    BeforeTotal(x, y);
    k := if Before(x, y) then x else y;
    forall j | j in keys ensures j == k || Before(k, j) {
      if Before(x, y) && j != x && j != y {
        BeforeFollows(x, y, j);
      }
    }
  }

  /** What a refusal names: the first unknown name in key order, else the first missing parameter. */
  ghost predicate Names(params: seq<Param>, byName: map<string, Json>, name: string) {
    if exists k | k in byName :: !Named(params, k) then
      && name in byName && !Named(params, name)
      && forall k | k in byName && !Named(params, k) :: k == name || Before(name, k)
    else
      exists i | 0 <= i < |params| && Missing(params[i], byName) ::
        name == params[i].name && forall j | 0 <= j < i :: !Missing(params[j], byName)
  }

  lemma FirstUnknown(params: seq<Param>, byName: map<string, Json>, keys: set<string>, k: string)
    requires IsLeast(keys, k) && keys <= byName.Keys && !Named(params, k)
    requires forall j | j in byName && j !in keys :: Named(params, j)
    ensures Names(params, byName, k) && !Translates(params, byName)
  {
    hide Before, Named;
  }

  lemma FirstMissing(params: seq<Param>, byName: map<string, Json>, i: nat)
    requires forall k | k in byName :: Named(params, k)
    requires i < |params| && Missing(params[i], byName) && forall j | 0 <= j < i :: !Missing(params[j], byName)
    ensures Names(params, byName, params[i].name) && !Translates(params, byName)
  {
    hide Before, Named;
  }

  method FirstKey(keys: set<string>) returns (k: string)
    requires keys != {}
    ensures IsLeast(keys, k)
  {
    ghost var least := SomeLeast(keys);
    k :| IsLeast(keys, k);
  }

  method TypedPositional(params: seq<Param>, byName: map<string, Json>) returns (r: Positional)
    ensures r.Args? <==> Translates(params, byName)
    ensures r.Args? ==> r.values == InOrder(params, byName)
    ensures r.BadPath? ==> Names(params, byName, r.name)
  {
    hide Names, Before, Named;
    var keys := byName.Keys;
    while keys != {}
      invariant keys <= byName.Keys
      invariant forall k | k in byName && k !in keys :: Named(params, k)
      decreases |keys|
    {
      var k := FirstKey(keys);
      assert k in keys;
      if !Named(params, k) {
        FirstUnknown(params, byName, keys, k);
        return BadPath(k);
      }
      keys := keys - {k};
    }
    var arr := [];
    for i := 0 to |params|
      invariant arr == InOrder(params[..i], byName)
      invariant forall j | 0 <= j < i :: !Missing(params[j], byName)
    {
      var p := params[i];
      if p.name in byName {
        arr := arr + [byName[p.name]];
      } else if p.optional {
        arr := arr + [JNull];
      } else {
        FirstMissing(params, byName, i);
        return BadPath(p.name);
      }
    }
    assert params[..|params|] == params;
    return Args(arr);
  }

  /** An untyped module's live parameter names; all of them may be left out. */
  function LiveParams(l: LiveMember): seq<Param> {
    seq(|l.params|, i requires 0 <= i < |l.params| => Param(l.params[i], true))
  }

  function MethodNamed(ms: seq<ContractMethod>, name: string): (i: nat)
    ensures i <= |ms|
    ensures i < |ms| ==> ms[i].name == name
    ensures i == |ms| ==> forall m | m in ms :: m.name != name
  {
    if ms == [] || ms[0].name == name then 0 else 1 + MethodNamed(ms[1..], name)
  }

  function LiveNamed(ms: seq<LiveMember>, name: string): (i: nat)
    ensures i <= |ms|
    ensures i < |ms| ==> ms[i].name == name
    ensures i == |ms| ==> forall m | m in ms :: m.name != name
  {
    if ms == [] || ms[0].name == name then 0 else 1 + LiveNamed(ms[1..], name)
  }

  /** The parameters a view knows the method to take. */
  function KnownParams(v: View, m: string): Option<seq<Param>> {
    if v.Typed() then
      var ms := v.contract.value.methods;
      if MethodNamed(ms, m) < |ms| then Some(ms[MethodNamed(ms, m)].params) else None
    else if v.Resolved() && LiveNamed(v.live.methods, m) < |v.live.methods| then
      Some(LiveParams(v.live.methods[LiveNamed(v.live.methods, m)]))
    else None
  }

  /** One rule for both kinds of view: the names must be known, what is required must be there, and the
      array follows the signature. */
  method ToPositional(v: View, m: string, byName: map<string, Json>) returns (r: Positional)
    ensures r.Args? <==> KnownParams(v, m).Some? && Translates(KnownParams(v, m).value, byName)
    ensures r.Args? ==> r.values == InOrder(KnownParams(v, m).value, byName)
    ensures r.BadPath? ==> if KnownParams(v, m).None? then r.name == m else Names(KnownParams(v, m).value, byName, r.name)
  {
    hide Names, Before, Named;
    if v.Typed() {
      var i := MethodNamed(v.contract.value.methods, m);
      if i == |v.contract.value.methods| {
        return BadPath(m);
      }
      r := TypedPositional(v.contract.value.methods[i].params, byName);
      return;
    }
    var l := if v.Resolved() then LiveNamed(v.live.methods, m) else |v.live.methods|;
    if l == |v.live.methods| {
      return BadPath(m);
    }
    var live := v.live.methods[l];
    assert forall p | p in LiveParams(live) :: !Missing(p, byName);
    var keys := byName.Keys;
    while keys != {}
      invariant keys <= byName.Keys
      invariant forall k | k in byName && k !in keys :: Named(LiveParams(live), k)
      decreases |keys|
    {
      var k := FirstKey(keys);
      assert k in keys;
      LiveNames(live, k);
      if k !in live.params {
        FirstUnknown(LiveParams(live), byName, keys, k);
        return BadPath(k);
      }
      keys := keys - {k};
    }
    var arr := [];
    for i := 0 to |live.params|
      invariant |arr| == i && forall j | 0 <= j < i :: arr[j] == if live.params[j] in byName then byName[live.params[j]] else JNull
    {
      arr := arr + [if live.params[i] in byName then byName[live.params[i]] else JNull];
    }
    return Args(arr);
  }

  lemma LiveNames(l: LiveMember, k: string)
    ensures Named(LiveParams(l), k) <==> k in l.params
  {
    if k in l.params {
      var i :| 0 <= i < |l.params| && l.params[i] == k;
      assert LiveParams(l)[i].name == k;
    }
  }

  // ---------------------------------------------------------------------------
  // The two documented forms
  // ---------------------------------------------------------------------------

  /** Either dialect's tuple form: exactly these items, each valid at its place. */
  lemma TupleValid(defs: map<string, Schema>, d: Dialect, items: seq<Schema>, v: Json)
    ensures
      Valid(defs, d, Tuple(items, d), v) <==>
      v.JArr? && |v.a| == |items| && forall i | 0 <= i < |items| :: Valid(defs, d, items[i], v.a[i])
  {
    var s := Tuple(items, d);
    if v.JArr? {
      if items == [] {
        ElementsValid(defs, d, s, v);
      } else if |v.a| == |items| {
        forall i | 0 <= i < |v.a| ensures ValidElement(defs, d, s, i, v.a[i]) <==> Valid(defs, d, items[i], v.a[i]) {}
      }
    }
  }

  /** The draft-07 and the 2020-12 tuple of a parameter list accept the same arrays. */
  lemma TuplesAgree(defs: map<string, Schema>, contracts: seq<SchemaTheorems.Contract>, c: SchemaTheorems.Contract,
                    params: seq<SchemaCompilers.Slot>, v: Json)
    requires Stand(defs, contracts) && c in contracts
    ensures
      var scope := c.Scope();
      Valid(defs, Draft07, ParamsTupleOf(params, scope, Draft07), v) <==>
      Valid(defs, Draft2020, ParamsTupleOf(params, scope, Draft2020), v)
  {
    var scope := c.Scope();
    var items := SlotSchemas(params, scope);
    hide Valid, Stand;
    TupleValid(defs, Draft07, items, v);
    TupleValid(defs, Draft2020, items, v);
    if v.JArr? && |v.a| == |items| {
      forall i | 0 <= i < |items| ensures Valid(defs, Draft07, items[i], v.a[i]) <==> Valid(defs, Draft2020, items[i], v.a[i]) {
        SlotCompiles(defs, Draft07, contracts, c, params[i], v.a[i]);
        SlotCompiles(defs, Draft2020, contracts, c, params[i], v.a[i]);
      }
    }
  }

  /** What the reader says of a declared parameter list. */
  function ParamsOf(slots: seq<SchemaCompilers.Slot>): seq<Param> {
    seq(|slots|, i requires 0 <= i < |slots| => Param(slots[i].name, slots[i].optional))
  }

  ghost predicate DistinctNames(slots: seq<SchemaCompilers.Slot>) {
    forall i, j | 0 <= i < j < |slots| :: slots[i].name != slots[j].name
  }

  lemma FirstOfDistinct(slots: seq<SchemaCompilers.Slot>, i: nat)
    requires DistinctNames(slots) && i < |slots|
    ensures First(slots, slots[i].name) == i
  {
  }

  /** Named by the schema's properties exactly when named by the signature. */
  lemma KnownNames(slots: seq<SchemaCompilers.Slot>, k: string)
    ensures Named(ParamsOf(slots), k) <==> First(slots, k) < |slots|
  {
    if First(slots, k) < |slots| {
      assert ParamsOf(slots)[First(slots, k)].name == k;
    }
  }

  /** Every parameter given has a value of its type. */
  ghost predicate ValuesFit(defs: map<string, Schema>, d: Dialect, scope: Scope, slots: seq<SchemaCompilers.Slot>,
                            byName: map<string, Json>) {
    forall i | 0 <= i < |slots| && slots[i].name in byName :: Valid(defs, d, SlotSchema(slots[i], scope), byName[slots[i].name])
  }

  /** For distinct names, an object fits the documented by-name form exactly when the bridge translates it
      and the array it makes fits the documented tuple. */
  lemma ByNameAgrees(defs: map<string, Schema>, d: Dialect, scope: Scope, slots: seq<SchemaCompilers.Slot>, byName: map<string, Json>)
    requires DistinctNames(slots)
    ensures
      Valid(defs, d, ParamsObjectOf(slots, scope), JObj(byName)) <==>
      Translates(ParamsOf(slots), byName) &&
      Valid(defs, d, ParamsTupleOf(slots, scope, d), JArr(InOrder(ParamsOf(slots), byName)))
  {
    hide Valid, Translates, ValuesFit, ParamsOf, InOrder;
    ObjectForm(defs, d, scope, slots, byName);
    if Translates(ParamsOf(slots), byName) {
      TupleForm(defs, d, scope, slots, byName);
    }
  }

  lemma TupleForm(defs: map<string, Schema>, d: Dialect, scope: Scope, slots: seq<SchemaCompilers.Slot>, byName: map<string, Json>)
    requires Translates(ParamsOf(slots), byName)
    ensures
      Valid(defs, d, ParamsTupleOf(slots, scope, d), JArr(InOrder(ParamsOf(slots), byName))) <==>
      ValuesFit(defs, d, scope, slots, byName)
  {
    var args := InOrder(ParamsOf(slots), byName);
    TupleValid(defs, d, SlotSchemas(slots, scope), JArr(args));
    forall i | 0 <= i < |slots| ensures slots[i].name !in byName ==> Valid(defs, d, SlotSchema(slots[i], scope), args[i]) {
      AbsentIsNull(defs, d, scope, slots, byName, i);
    }
    hide Valid, SlotSchema;
    assert forall i | 0 <= i < |slots| :: slots[i].name in byName ==> args[i] == byName[slots[i].name];
  }

  lemma ObjectForm(defs: map<string, Schema>, d: Dialect, scope: Scope, slots: seq<SchemaCompilers.Slot>, byName: map<string, Json>)
    requires DistinctNames(slots)
    ensures
      Valid(defs, d, ParamsObjectOf(slots, scope), JObj(byName)) <==>
      Translates(ParamsOf(slots), byName) && ValuesFit(defs, d, scope, slots, byName)
  {
    var s := ParamsObjectOf(slots, scope);
    ObjectValid(defs, d, s, JObj(byName));
    NeverValid(defs, d);
    NamesFit(slots, scope, byName);
    hide Valid, Translates;
    forall i | 0 <= i < |slots|
      ensures slots[i].name in s.properties && s.properties[slots[i].name] == SlotSchema(slots[i], scope) {
      FirstOfDistinct(slots, i);
      PropertyNames(slots, scope, slots[i].name);
    }
    forall k | k in s.properties ensures exists i | 0 <= i < |slots| :: slots[i].name == k {
      PropertyNames(slots, scope, k);
    }
    hide Properties, SlotSchema;
  }

  lemma NamesFit(slots: seq<SchemaCompilers.Slot>, scope: Scope, byName: map<string, Json>)
    requires DistinctNames(slots)
    ensures
      Translates(ParamsOf(slots), byName) <==>
      (forall k | k in byName :: k in Properties(slots, scope)) && (forall k | k in Required(slots) :: k in byName)
  {
    RequiredFit(slots, byName);
    forall k ensures k in Properties(slots, scope) <==> Named(ParamsOf(slots), k) {
      PropertyNames(slots, scope, k);
      KnownNames(slots, k);
    }
    hide Properties, Required, Named, Missing;
  }

  lemma RequiredFit(slots: seq<SchemaCompilers.Slot>, byName: map<string, Json>)
    requires DistinctNames(slots)
    ensures (forall p | p in ParamsOf(slots) :: !Missing(p, byName)) <==> (forall k | k in Required(slots) :: k in byName)
  {
    var ps := ParamsOf(slots);
    if forall p | p in ps :: !Missing(p, byName) {
      forall k | k in Required(slots) ensures k in byName {
        PropertyNames(slots, Scope("", {}), k);
        assert ps[First(slots, k)] in ps;
      }
    }
    if forall k | k in Required(slots) :: k in byName {
      forall p | p in ps ensures !Missing(p, byName) {
        var i :| 0 <= i < |slots| && p == ps[i];
        FirstOfDistinct(slots, i);
        PropertyNames(slots, Scope("", {}), slots[i].name);
      }
    }
  }

  lemma AbsentIsNull(defs: map<string, Schema>, d: Dialect, scope: Scope, slots: seq<SchemaCompilers.Slot>,
                     byName: map<string, Json>, i: nat)
    requires i < |slots| && Translates(ParamsOf(slots), byName)
    ensures slots[i].name !in byName ==> Valid(defs, d, SlotSchema(slots[i], scope), JNull)
  {
    assert ParamsOf(slots)[i] in ParamsOf(slots);
    hide Valid;
    NullableValid(defs, d, TypeSchema(slots[i].ValueType(), scope), JNull);
  }
}
