/** The document builders' input, the key that decides whether to rebuild, and the publisher.
    What a bridge configures once (its version, endpoint and limits) is the same in every key and
    left out of it here. */
module DocPublishers {
  import opened Prelude
  import opened BridgeConfigs
  import opened ModuleViews

  datatype ModuleDoc = ModuleDoc(name: string, status: Status, interface: Option<string>, exposedMethods: seq<string>,
                                 exposedEvents: seq<string>, liveMethods: seq<LiveMember>, interfaceSha256: string,
                                 contractSha256: string, error: string)

  function ToModuleDoc(v: View): ModuleDoc {
    var m := ModuleDoc(v.name, v.status, None, v.exposure.methods, v.exposure.events, [], "", v.contractSha256, v.error);
    if v.Typed() then m.(interface := Some(v.contract.value.interface), interfaceSha256 := v.interfaceSha256)
    else if v.Resolved() then m.(liveMethods := v.live.methods)
    else m
  }

  /** The part of the rebuild key that one module contributes. */
  datatype ModuleKey = ModuleKey(name: string, status: Status, hasInterface: bool, interfaceSha256: string,
                                 contractSha256: string, error: string, methods: seq<string>, events: seq<string>,
                                 live: seq<LiveMember>)

  function KeyOf(m: ModuleDoc): ModuleKey {
    ModuleKey(m.name, m.status, m.interface.Some?, m.interfaceSha256, m.contractSha256, m.error, m.exposedMethods,
              m.exposedEvents, m.liveMethods)
  }

  function InputsKey(docs: seq<ModuleDoc>): seq<ModuleKey> {
    seq(|docs|, i requires 0 <= i < |docs| => KeyOf(docs[i]))
  }

  /** The digest a typed view carries is its interface's. */
  ghost predicate Digested(v: View, digest: string -> string) {
    && (v.Typed() ==> v.interfaceSha256 == digest(v.contract.value.interface))
  }

  ghost predicate Injective(digest: string -> string) {
    forall a, b :: digest(a) == digest(b) ==> a == b
  }

  /** What of a view the documents show. */
  ghost predicate LookAlike(a: View, b: View) {
    && a.name == b.name && a.status == b.status && a.exposure == b.exposure && a.error == b.error
    && a.contractSha256 == b.contractSha256 && (a.Typed() <==> b.Typed())
    && (a.Typed() ==> a.contract.value.interface == b.contract.value.interface)
    && (a.Resolved() && !a.Typed() ==> a.live.methods == b.live.methods)
  }

  /** The input carries the view's own parts, and an interface's digest is that of the interface beside it. */
  ghost predicate Carries(d: ModuleDoc, v: View, digest: string -> string) {
    && d.error == v.error && d.contractSha256 == v.contractSha256
    && (d.interface.Some? <==> v.Typed())
    && (d.interface.Some? ==> d.interface.value == v.contract.value.interface && d.interfaceSha256 == digest(d.interface.value))
  }

  /** With collision-free digests, views have the same key exactly when they give the builders the same input,
      and exactly when all that the documents show of them is the same: a skipped rebuild would have produced
      the same documents. */
  lemma SameKeySameInput(a: View, b: View, digest: string -> string)
    requires Digested(a, digest) && Digested(b, digest) && Injective(digest)
    ensures KeyOf(ToModuleDoc(a)) == KeyOf(ToModuleDoc(b)) <==> ToModuleDoc(a) == ToModuleDoc(b)
    ensures KeyOf(ToModuleDoc(a)) == KeyOf(ToModuleDoc(b)) <==> LookAlike(a, b)
    ensures Carries(ToModuleDoc(a), a, digest)
  {
    if a.Typed() && b.Typed() && a.interfaceSha256 == b.interfaceSha256 {
      assert digest(a.contract.value.interface) == digest(b.contract.value.interface);
    }
  }

  /** `inputs`: what the three documents were built from. */
  datatype DocSet = DocSet(generation: nat, key: seq<ModuleKey>, inputs: seq<ModuleDoc>)

  /** A finished build: the snapshot served from now on. */
  function Stored(current: Option<DocSet>, inputs: seq<ModuleDoc>): Option<DocSet> {
    var key := InputsKey(inputs);
    if current.Some? && current.value.key == key then current
    else Some(DocSet((if current.Some? then current.value.generation else 0) + 1, key, inputs))
  }

  class DocPublisher {
    var pending: bool
    var current: Option<DocSet>
    var failures: nat

    constructor ()
      ensures !pending && current == None && failures == 0
    {
      pending, current, failures := false, None, 0;
    }

    /** Some view changed; true when the caller is the one to schedule the build. */
    method Request() returns (arm: bool)
      modifies this
      ensures pending && arm == !old(pending) && current == old(current) && failures == old(failures)
    {
      if pending {
        return false;
      }
      pending := true;
      return true;
    }

    method ClearPending()
      modifies this
      ensures !pending && current == old(current) && failures == old(failures)
    {
      pending := false;
    }

    /** The end of a build of `inputs`; a builder that throws leaves the snapshot alone. */
    method Finish(inputs: seq<ModuleDoc>, throws: bool)
      modifies this
      ensures pending == old(pending)
      ensures current == if throws then old(current) else Stored(old(current), inputs)
      ensures failures == old(failures) + B(throws)
    {
      if throws {
        failures := failures + 1;
        return;
      }
      var key := InputsKey(inputs);
      var generation := 0;
      if current.Some? {
        if current.value.key == key {
          return;
        }
        generation := current.value.generation;
      }
      current := Some(DocSet(generation + 1, key, inputs));
    }
  }
}
