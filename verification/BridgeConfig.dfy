/** Exposure policy and the configuration checks on module names. Names are byte strings; a `char`
    stands for one byte. */
module BridgeConfigs {

  /** `allow` lists a std::set in its iteration order; it is ignored when `unconstrained`. */
  datatype NamePolicy = NamePolicy(unconstrained: bool, allow: seq<string>, deny: set<string>)
  {
    predicate Permits(name: string) {
      name !in deny && (unconstrained || name in allow)
    }
  }

  predicate IsBuiltinMethod(name: string) {
    name == "lidl" || name == "name" || name == "version"
  }

  datatype ExposedModule = ExposedModule(name: string, methods: NamePolicy, events: NamePolicy)
  {
    predicate MethodAllowed(m: string) {
      IsBuiltinMethod(m) || methods.Permits(m)
    }
  }

  function Find(cfg: seq<ExposedModule>, name: string): (i: nat)
    ensures i <= |cfg|
    ensures i < |cfg| ==> cfg[i].name == name
    ensures forall j | 0 <= j < i :: cfg[j].name != name
  {
    if cfg == [] || cfg[0].name == name then 0
    else
      var i := Find(cfg[1..], name);
      assert forall j | 0 < j < 1 + i :: cfg[j].name == cfg[1..][j - 1].name;
      1 + i
  }

  predicate Refused(c: char) {
    c == '.' || c == ' ' || c < 0x20 as char || c == 0x7f as char
  }

  /** What a module name may look like, so that it can be an alias prefix and a path segment. */
  ghost predicate GoodName(name: string) {
    name != "" && name != "rpc" && forall c | c in name :: !Refused(c)
  }

  datatype ConfigError = EmptyName | NamedRpc | ContainsDot | ContainsControl | BridgesItself | DeniesBuiltin | ListedTwice | NoModules
  datatype Verdict = Fine | Bad(error: ConfigError)

  method CheckModuleName(name: string) returns (v: Verdict)
    ensures v.Fine? <==> name != "rpc" && forall c | c in name :: !Refused(c)
    ensures v.Bad? && v.error.ContainsDot? ==> '.' in name
  {
    if name == "rpc" {
      return Bad(NamedRpc);
    }
    for i := 0 to |name|
      invariant forall j | 0 <= j < i :: !Refused(name[j])
    {
      var c := name[i];
      assert c in name;
      if c == '.' {
        return Bad(ContainsDot);
      }
      if c == ' ' || c < 0x20 as char || c == 0x7f as char {
        return Bad(ContainsControl);
      }
    }
    return Fine;
  }

  ghost predicate GoodModule(em: ExposedModule, self: string) {
    GoodName(em.name) && (self == "" || em.name != self) && forall b | IsBuiltinMethod(b) :: b !in em.methods.deny
  }

  ghost predicate Distinct(cfg: seq<ExposedModule>) {
    forall i, j | 0 <= i < j < |cfg| :: cfg[i].name != cfg[j].name
  }

  /** The module list of an accepted configuration. */
  ghost predicate GoodModules(cfg: seq<ExposedModule>, self: string) {
    cfg != [] && Distinct(cfg) && forall i | 0 <= i < |cfg| :: GoodModule(cfg[i], self)
  }

  /** The loop over expose.modules, on entries whose JSON has the right shape. */
  method AcceptModules(entries: seq<ExposedModule>, self: string) returns (v: Verdict, modules: seq<ExposedModule>)
    ensures v.Fine? <==> GoodModules(entries, self)
    ensures v.Fine? ==> modules == entries
  {
    modules := [];
    for i := 0 to |entries|
      invariant modules == entries[..i]
      invariant Distinct(modules) && forall j | 0 <= j < i :: GoodModule(entries[j], self)
    {
      var em := entries[i];
      assert entries[i] == em;
      if em.name == "" {
        return Bad(EmptyName), modules;
      }
      v := CheckModuleName(em.name);
      if v.Bad? {
        return v, modules;
      }
      if self != "" && em.name == self {
        return Bad(BridgesItself), modules;
      }
      if "lidl" in em.methods.deny || "name" in em.methods.deny || "version" in em.methods.deny {
        assert IsBuiltinMethod("lidl") && IsBuiltinMethod("name") && IsBuiltinMethod("version");
        return Bad(DeniesBuiltin), modules;
      }
      for j := 0 to i
        invariant forall k | 0 <= k < j :: entries[k].name != em.name
      {
        if modules[j].name == em.name {
          return Bad(ListedTwice), modules;
        }
      }
      modules := modules + [em];
    }
    assert entries[..|entries|] == entries;
    return if modules == [] then Bad(NoModules) else Fine, modules;
  }
}
