# JSON-RPC bridge: verified model

The bridge exposes Logos modules to JSON-RPC clients over HTTP and WebSocket. This project models its
concurrent cores and the algorithms behind its self-description, and proves what they promise.

Concurrent parts are modelled twice. A class has the object's fields and one method per lock region,
each proved equal to a function of the old state. A state machine applies the same functions, one lock
region or unlocked call at a time, in any order: a run is any sequence of actions, a disabled action
changes nothing, and every theorem holds for all runs.

- Clients and subscriptions: `Backoff.dfy`, `ClientRegistry.dfy`, `RegistryRuns.dfy`, `SubscriptionHub.dfy`,
  `HubRuns.dfy`, `HubTheorems.dfy`, `HubLosses.dfy`, `HubWatchers.dfy`. Clients wedge, are replaced, retire until
  their calls are answered, and are swept on a deadline, while subscriptions are bound by an optimistic loop that
  races replacement, and losses are told to their subscribers.
- Discovery and the documents it feeds: `BridgeConfig.dfy`, `ModuleView.dfy`, `CrossChecks.dfy`, `Discovery.dfy`,
  `DocPublisher.dfy`, `DiscoveryRuns.dfy`, `DiscoveryInvariant.dfy`, `DiscoverySteps.dfy`,
  `DocumentInvariants.dfy`, `DiscoveryTheorems.dfy`, `DiscoveryHistory.dfy`, `DiscoveryReads.dfy`.
- LIDL types to JSON Schema, and by-name parameters: `JsonSchema.dfy` gives the keywords their meaning in
  draft-07 (Validation, section 6.4) and 2020-12 (Core, section 10.3.1), `SchemaCompiler.dfy` is the compiler,
  `SchemaTheorems.dfy`, `SchemaDocuments.dfy` and `Translation.dfy` prove what it preserves.
- Bytes: `Sha256.dfy` (FIPS 180-4), with `Sha256Standard.dfy`, `Sha256Constants.dfy` and `Sha256Example.dfy` on why its
  definitions are the standard's; `Utf8.dfy` (RFC 3629), `DocText.dfy`, `DocBlocks.dfy`.
- Requests: `SubscriptionTable.dfy`, `BridgeSubscriptions.dfy`, `Dispatch.dfy`, `Batch.dfy`, `Handler.dfy`,
  `DocEntries.dfy`, `AsyncApi.dfy`, `AsyncPayloads.dfy`, `DocumentedTraffic.dfy`.

Assumptions: JSON values and typed contracts are data, digests are injective where a digest stands for
content, and a text dump of JSON stands for its value. Slots, clients, upstream subscriptions and handles are
ids into maps instead of shared pointers; an id names one object for good. Integers do not overflow, except the
SHA-256 bit counter, which wraps as in the code. Strings are byte strings.

Two promises hold only under a condition, which is proved exactly.

- Component keys replace every character outside `[a-zA-Z0-9._-]`, so different records can share a key, and the
  last one inserted stands. Types mean what they say exactly when each record admits the values of the record
  standing under its key (`SchemaDocuments.MeaningExactly`); that each record's own schema stands there is a
  stronger demand (`BoundExactly`, `TitleExample`). Names spelled in the key alphabet never clash
  (`PlainNamesNeverClash`). `ClashExample` is about module names `a/b` and `a_b`: the bridge configuration accepts
  them, but a contract reaches the compiler only if the LIDL reader, which is not part of this model, accepts the
  name too (src/lidl_contract.cpp:57-60), so it shows a clash only on that condition.
- The comment on invoke() promises that `done` runs exactly once (src/upstream.h:104), but destroying a client
  drops its callbacks (src/upstream.h:62-64). Every call is answered, waiting or lost (`RegistryRuns.CallsAccounted`);
  calls are lost exactly when their client is destroyed with calls out (`LostExactly`), which takes close() or a
  sweep past the deadline (`DropsWaitForAnswers`, `LostWereTaken`). `LossExample` is a run without close().

The comment on `failures` calls it the consecutive attempts without a live report (src/discovery.h:236). In the code a
loss or an unreachable call sets it to 1, and a lidl() call that failed after a live report counts too
(src/discovery.h:118, 175, 335). The model follows the code (`DiscoveryHistory.SlotRemembers`).

## Model

| member | source | states |
|---|---|---|
| `RegistryRuns.OneOwner` | src/upstream.h:208-270 | In every run each client ever built is in exactly one place: its module's current slot, the retired list with calls still out, the answer handing it over, a queued release job, the unreleased list, or let go to be destroyed, once; its call counter equals the calls unanswered |
| `RegistryRuns.DropsWaitForAnswers` | src/upstream.h:106-190 | A client is let go with calls out exactly when close() takes it, or the sweep of a later call or replacement takes it after its deadline |
| `RegistryRuns.CallsAccounted` | src/upstream.h:62-64 | Every call made through a client is exactly one of answered, waiting or lost with its client |
| `RegistryRuns.LostExactly` | src/upstream.h:104-132 | A client's calls are lost, their `done` never run, exactly when at some step of the run it is destroyed with calls out |
| `RegistryRuns.LostWereTaken` | src/upstream.h:175-190 | Whatever is lost was taken, with the calls out, by close() or by a sweep past the deadline |
| `RegistryRuns.LossExample` | src/upstream.h:224-231 | A run without close() in which a call's `done` never runs: its client is replaced, outlives its deadline and is swept by the next call |
| `RegistryRuns.SwapsOncePerEpoch` | src/upstream.h:134-160 | replace(m, e) has succeeded exactly once for each epoch the module has left behind and never for the current one |
| `RegistryRuns.ReplacementsSum` | src/upstream.h:145-165 | The replacement counter equals the epochs left behind, summed over the modules |
| `RegistryRuns.EpochGrows` | src/upstream.h:97-102 | A step changes a module's epoch only by creating its first client or by one in a successful replacement |
| `RegistryRuns.ReplacementsSpaced` | src/upstream.h:236-270 | In every run a module's replacements are asked for at least 2 s apart counting from its first client; while no answer reaches it the waits follow 2 s doubling to 60 s |
| `RegistryRuns.PolicyHears` | src/upstream.h:242-249 | A module's policy hears exactly the answers through its current client while the registry is open, across all its clients |
| `RegistryRuns.JobsAsked` | src/upstream.h:236-270 | A step queues one replacement job, for the current epoch of the answer's module, exactly when the answer moves the policy to ask for it and the pump takes the job; a job leaves only by being run or dropped |
| `RegistryRuns.JobSucceeds` | src/upstream.h:134-160 | A queued job is for the epoch current when it was asked, and whenever it is run it succeeds exactly when the registry is open and nothing has replaced the module since |
| `RegistryRuns.JobsAreOfPastEpochs` | src/upstream.h:262-269 | Every job waiting is for an epoch its module has had |
| `ClientRegistries.ClientRegistry.CurrentLocked` | src/upstream.h:208-222 | The first use of a module builds its client with epoch 1; the result is the whole new state |
| `ClientRegistries.ClientRegistry.GetLease` | src/upstream.h:90-95 | A lease of the current client, none once closed; whole new state |
| `ClientRegistries.ClientRegistry.SweepLocked` | src/upstream.h:224-231 | The erasing loop takes exactly the expired retired clients, in order, and keeps the others |
| `ClientRegistries.ClientRegistry.InvokeCall` | src/upstream.h:106-124 | Counting the call and sweeping in one region; whole new state |
| `ClientRegistries.ClientRegistry.ReplaceClient` | src/upstream.h:135-160 | Refused for a stale epoch; otherwise the next epoch's client, the old one let go when idle and retired otherwise, then the sweep |
| `ClientRegistries.ClientRegistry.FinishCall` | src/upstream.h:236-254 | An answer feeds the policy of its module's current client only, may ask to replace that client's own epoch, and frees a retired client with its last call |
| `ClientRegistries.ClientRegistry.TellPolicy` | src/upstream.h:242-249 | Only an answer through the current client moves the policy and may ask for a replacement |
| `ClientRegistries.ClientRegistry.CloseAll` | src/upstream.h:175-190 | Every client the registry holds leaves with close() |
| `Backoff.SilentDecisions` | src/recycle_policy.h:19-25 | With no answer the k-th decision comes no earlier than creation plus the first k gaps, and each waits its own gap after the one before |
| `Backoff.DecisionsSpaced` | src/recycle_policy.h:14-28 | With answers in between, decisions stay at least 2000 ms apart |
| `Backoff.DecisionDue` | src/recycle_policy.h:20-25 | A module unavailable 60 s after its client's creation has had a decision |
| `Backoff.ReachedRestarts` | src/recycle_policy.h:19-28 | After an answer from the module the next decision waits 2 s again |
| `Backoff.RecyclePolicy.Unavailable` | src/recycle_policy.h:20-25 | The transition, on the fields |
| `Backoff.RecyclePolicy.Reached` | src/recycle_policy.h:28 | The transition, on the fields |
| `Backoff.RetryDelay` | src/discovery_model.h:566-574 | The capped doubling loop is min(500 * 2^(f-1), 30000) for every number of failures |
| `Backoff.RetryDoubles` | src/discovery_model.h:566-574 | Half a second after the first failure, then twice the wait before, up to half a minute |
| `HubTheorems.QuiescentOnCurrentClient` | src/upstream.h:569-602 | Under every interleaving of add, bind, replace, retire and rebind: when nothing is running, every live subscription is bound to its module's current client, unless that very client refused it |
| `HubTheorems.QuiescentWithValidHandles` | src/upstream.h:473-484 | With valid handles: every live subscription's epoch is its module's current client epoch |
| `HubTheorems.NeverAhead` | src/upstream.h:550-553 | At every moment a subscription's epoch is at most its module's current client epoch |
| `HubTheorems.QuiescentHandles` | src/upstream.h:522-533 | When nothing is running, the handles alive are those of the live subscriptions, exactly one each |
| `HubTheorems.OneHandleOwner` | src/upstream.h:584-598 | At every moment each handle alive is held by exactly one subscription or one thread |
| `HubTheorems.RunForward` | src/upstream.h:550-561 | Over any continuation of a run: subscription epochs, client epochs, and both watch marks never go back |
| `HubTheorems.OneWatcherPerClient` | src/upstream.h:623-645 | Each client gets at most one loss watcher, and a module's accepted epoch is never below its installed one |
| `HubTheorems.StaleReportsIgnored` | src/upstream.h:466-471 | After retire(m, e), at any later point, a status report from an epoch below e changes nothing |
| `HubLosses.OnePlaceEach` | src/upstream.h:418-515 | In every run each subscriber id ever added is in exactly one place: a list of a subscription, removed from one, held by one thread telling its loss, or told, once |
| `HubLosses.HandedOver` | src/upstream.h:498-515 | An id leaves a list only by its own removal, or by a loss whose thread then holds that very list to tell |
| `HubLosses.ToldExactlyOnce` | src/upstream.h:498-515 | An id is told once for being in a list a loss took, and never otherwise: told plus being told is one exactly when some step of the run took a list it was in |
| `HubLosses.LossReachesAll` | src/upstream.h:486-515 | When a loss is over, each id listed on the module's subscriptions when it began has been told, is being told by another loss, was removed, or is on a subscription that a failed first bind or clear() dropped |
| `HubLosses.GenerationCounts` | src/upstream.h:505-511 | A subscription's generation is one more than the losses taken from it |
| `HubWatchers.LossIsHeard` | src/upstream.h:636-664 | When nothing is running and the registry is open, a module with a live subscription has exactly one watcher on its current client, and that watcher's loss report starts telling |
| `HubWatchers.MarksWithinEpoch` | src/upstream.h:466-471 | The installed mark is at most the accepted one, and that at most the module's current epoch |
| `HubRuns.RunKeeps` | src/upstream.h:413-484 | The joint invariant of registry, hub, bind threads and handles holds in every run |
| `SubscriptionHubs.SubscriptionHub.AddSubscriber` | src/upstream.h:418-437 | One subscription per (module, event), the subscriber listed once; whole new state |
| `SubscriptionHubs.SubscriptionHub.RemoveSubscriber` | src/upstream.h:453-459 | Every occurrence of the id leaves the list, the subscription stays |
| `SubscriptionHubs.SubscriptionHub.RetireClient` | src/upstream.h:467-471 | The accepted epoch becomes the larger one |
| `SubscriptionHubs.SubscriptionHub.ListModule` | src/upstream.h:475-482 | rebind() copies exactly the module's live subscriptions |
| `SubscriptionHubs.SubscriptionHub.CommitHandle` | src/upstream.h:584-598 | A new handle takes over only on a live subscription of an older epoch; the loser is handed out to be destroyed |
| `SubscriptionHubs.SubscriptionHub.TakeLost` | src/upstream.h:500-512 | Detaches the subscribers and hands out that very list to tell, and starts a new generation |
| `DiscoveryTheorems.NoModuleStuck` | src/discovery.h:93-181 | In every run: never in flight and retry armed together; in flight exactly when one job carries the current attempt; a pending or stale module has such a job, a timer or a queued refresh |
| `DiscoveryTheorems.ModuleTimersKept` | src/retry_scheduler.h:46-56 | A module's timer stays until it fires: the two fixed keys never displace it |
| `DiscoveryHistory.SlotRemembers` | src/discovery.h:109-181 | In every run a slot is what its events say, latest first: stale exactly when a loss, restart, replacement, unreachable call or changed report came after the last view shown, with the failures and the armed retry they leave |
| `DiscoveryHistory.AttemptOutcome` | src/discovery.h:263-341 | Each answer of a current attempt has one outcome: the next question, a view shown and its retry, or a miss with its retry; no other module changes |
| `DiscoveryHistory.ChangedRereads` | src/discovery.h:354-371 | A changed report starts the next attempt on that very report |
| `DiscoveryReads.OneReadEach` | src/discovery.h:71-90 | In every run a module is marked as being read exactly when one read of it is out |
| `DiscoveryReads.VisitOutcome` | src/discovery.h:71-90 | A round reads a module exactly when it is settled, at rest and not being read |
| `DiscoveryReads.ReadOutcome` | src/discovery.h:344-353 | A read is compared only when no attempt began since it did and none is due |
| `DiscoveryReads.RevalidationStaysOn` | src/discovery.h:379-386 | With revalidation on its timer is set in every run, and firing it starts a round over every module |
| `DiscoveryTheorems.PublishedFromOneAttempt` | src/discovery.h:253-341 | A new view appears only from the current attempt's own answers, with no loss, restart or replacement processed since that attempt began, and is what the stage makes of them: untyped when lidl() is not listed, invalid when it gives no contract that reads, and after version() ok exactly when the contract is answered by the report just read, invalid otherwise |
| `DiscoveryTheorems.ViewsSound` | src/discovery.h:322-341 | Every reachable view: the generation counts the publishes, the exposure is its module's, it is made of one attempt's answers by stage, and an ok view's contract is answered by that same view's live report |
| `DiscoveryTheorems.TypedGatesAgree` | src/discovery_model.h:582-605 | In every run, on a typed view permitted and exposed are the same, methods and events; on any view what is exposed is permitted |
| `DiscoveryTheorems.ServedDocsCurrent` | src/doc_publisher.h:146-191 | Settled and with no build thrown, the served snapshot's key is the key of the current views; a pending request always has a build on its way |
| `DiscoveryTheorems.SnapshotsAdvance` | src/doc_publisher.h:177-191 | A new snapshot is the next generation and its key differs from its predecessor's |
| `DiscoveryTheorems.RunKeeps` | src/discovery.h:47-186 | The invariant of slots, jobs, timers, views and documents holds in every run |
| `Discoveries.Discovery.Refresh` | src/discovery.h:93-102 | The transition, on the fields |
| `Discoveries.Discovery.OnProviderLost` | src/discovery.h:109-124 | The transition, on the fields |
| `Discoveries.Discovery.OnProviderArmed` | src/discovery.h:128-143 | The transition, on the fields |
| `Discoveries.Discovery.OnClientReplaced` | src/discovery.h:147-164 | The transition, on the fields |
| `Discoveries.Discovery.OnCallUnavailable` | src/discovery.h:168-181 | The transition, on the fields |
| `Discoveries.Discovery.MissedReport` | src/discovery.h:308-320 | The transition, on the fields |
| `Discoveries.Discovery.PublishView` | src/discovery.h:323-341 | The transition, on the fields |
| `Discoveries.Discovery.StartCheck` | src/discovery.h:71-82 | The transition, on the fields |
| `Discoveries.Discovery.EndCheck` | src/discovery.h:344-353 | The transition, on the fields |
| `Discoveries.Discovery.RefreshOnReport` | src/discovery.h:359-368 | The transition, on the fields |
| `Discoveries.RetryScheduler.Schedule` | src/retry_scheduler.h:48-56 | Replaces the key's timer and no other |
| `Discoveries.RetryScheduler.TakeDue` | src/retry_scheduler.h:69-89 | Takes the earliest timer, only when due; otherwise nothing is due |
| `Discoveries.RetryScheduler.Stop` | src/retry_scheduler.h:36-44 | Drops every timer |
| `ModuleViews.CrossCheck` | src/discovery_model.h:336-399 | The six loops compute the cross-check, finding by finding |
| `ModuleViews.CheckMember` | src/discovery_model.h:301-322 | The first entry of equal arity decides; its given names are compared |
| `ModuleViews.UndeclaredMethodNames` | src/discovery_model.h:355-362 | One warning per undeclared name, at its first entry |
| `ModuleViews.ErrorsExactly` | src/discovery_model.h:334-377 | The cross-check has errors exactly when some declared member has no live entry of its arity (host-answered built-ins that are not listed aside, and events only when the host tags them) |
| `CrossChecks.FindingsExactly` | src/discovery_model.h:334-399 | A finding is reported exactly when it is expected of the contract, the report and the runtime version, kind by kind |
| `CrossChecks.UndeclaredOnce` | src/discovery_model.h:354-361 | One undeclared warning per name that is listed, not declared and not reserved |
| `ModuleViews.ExposeDeclared` | src/exposure.h:38-49 | The two loops keep each permitted name once |
| `ModuleViews.ExposeLive` | src/exposure.h:51-62 | Live names, and the allow list where events cannot be listed |
| `ModuleViews.KeptOnce` | src/exposure.h:31-35 | A name is exposed once exactly when it is declared and allowed |
| `ModuleViews.KeptPrefix` | src/exposure.h:38-49 | Later names only add to the end: first occurrences stay in declaration order |
| `ModuleViews.TypedGate` | src/discovery_model.h:580-605 | On a typed view, permitted if and only if exposed |
| `ModuleViews.ListedIsPermitted` | src/discovery_model.h:487-499 | On any view, exposed implies permitted |
| `ModuleViews.UntypedGate` | src/discovery_model.h:587-604 | On a resolved untyped view: the listed names, or policy alone where the report lists nothing of the kind |
| `ModuleViews.PendingGate` | src/discovery_model.h:588-603 | Until a view is resolved policy alone decides, and nothing is listed |
| `ModuleViews.NeverPermitted` | src/discovery_model.h:582-599 | The introspection methods and modules not exposed are never permitted |
| `BridgeConfigs.CheckModuleName` | src/bridge_config.h:172-191 | Accepts exactly the names that are not rpc and have no dot, space or control character |
| `BridgeConfigs.AcceptModules` | src/bridge_config.h:278-324 | Accepts exactly the module lists with good, distinct names, no self and no denied built-in |
| `DocPublishers.SameKeySameInput` | src/doc_publisher.h:30-80 | With collision-free digests, two views have equal keys exactly when they give the builders equal input, which is exactly when all the documents show of them is equal: name, status, error, exposure, contract digest, whether typed, and then the interface or else the live methods |
| `DocPublishers.DocPublisher.Request` | src/doc_publisher.h:147-152 | The transition, on the fields |
| `DocPublishers.DocPublisher.ClearPending` | src/doc_publisher.h:172-175 | The transition, on the fields |
| `DocPublishers.DocPublisher.Finish` | src/doc_publisher.h:180-191 | The transition, on the fields |
| `SchemaTheorems.TypeCompiles` | src/schema_ir.h:172-205 | For every type and every JSON value, in both dialects, where records that admit the same values stand under the keys: the value satisfies the type's schema exactly when it inhabits the type, through references and recursive records |
| `SchemaTheorems.FieldsCompile` | src/schema_ir.h:291-306 | A record's schema is the open record with exactly its non-optional fields required |
| `SchemaTheorems.SlotCompiles` | src/schema_ir.h:212-220 | An optional slot admits null besides its type |
| `SchemaTheorems.StrippedInhabits` | src/schema_ir.h:192-197 | ??T is ?T |
| `SchemaTheorems.NullableValid` | src/schema_ir.h:91-96 | The nullable schema accepts null and what the schema accepts, {} included |
| `SchemaTheorems.PrimitiveCompiles` | src/schema_ir.h:153-170 | Each primitive's schema accepts exactly its values, with the 64-bit bounds |
| `SchemaTheorems.BytesValid` | src/schema_ir.h:322-333 | A bstr is an object with the one key _bytes holding base64url text |
| `SchemaTheorems.ResultValid` | src/schema_ir.h:336-350 | A result is an object with a boolean success |
| `SchemaTheorems.RejectionValid` | src/schema_ir.h:352-370 | A rejection is exactly three strings |
| `SchemaDocuments.BoundExactly` | src/schema_ir.h:309-318 | Each record's own schema stands under its key exactly when no two records with one key compile differently |
| `SchemaDocuments.SharedKept` | src/schema_ir.h:309-318 | No record overwrites a shared schema |
| `SchemaDocuments.MeaningExactly` | src/schema_ir.h:309-318 | In either dialect every type of every module means what it says exactly when each record admits the values of the record standing under its key |
| `SchemaDocuments.HarmlessPairs` | src/schema_ir.h:309-318 | Where a module's record names are its own, that condition is: records sharing a key admit the same values |
| `SchemaDocuments.DocumentTypesMean` | src/schema_ir.h:172-205 | In a document where no two records with one key compile differently every type of every module means what it says |
| `SchemaDocuments.PlainNamesNeverClash` | src/schema_ir.h:63-76 | Names spelled in the key alphabet never clash |
| `SchemaDocuments.ClashExample` | src/schema_ir.h:64-76 | If module names a/b and a_b reach the compiler, their records clash and a value of the first module is refused |
| `SchemaDocuments.TitleExample` | src/schema_ir.h:64-76 | Records that share a key but differ in name alone do no harm |
| `SchemaDocuments.ComponentsResolve` | src/schema_ir.h:78-80 | Every $ref in every component stands alone and names a component of the document, and no component leads to a reference on the same value, so validation ends |
| `SchemaDocuments.TypeResolves` | src/schema_ir.h:172-205 | Every $ref a type compiles to stands alone and resolves |
| `SchemaDocuments.ParamsResolve` | src/schema_ir.h:275-289 | So do those of a parameter object |
| `SchemaDocuments.TupleResolves` | src/schema_ir.h:267-272 | So do those of a parameter tuple |
| `SchemaDocuments.WrappedResolve` | src/schema_ir.h:82-89 | A description or a result keeps references standing alone |
| `SchemaCompilers.ComponentKey` | src/schema_ir.h:64-72 | The character loop is the sanitised key |
| `SchemaCompilers.KeysAreSafe` | src/schema_ir.h:63-80 | Keys stay in the alphabet, need no RFC 6901 escaping, and sanitising is idempotent |
| `SchemaCompilers.CollectSlots` | src/schema_ir.h:277-284 | The loop collects the properties and the required names |
| `SchemaCompilers.PropertyNames` | src/schema_ir.h:279-284 | Of slots sharing a name the first defines the property; required exactly when it is not optional |
| `SchemaCompilers.ParamsObject` | src/schema_ir.h:275-289 | Declared names only |
| `SchemaCompilers.ParamsTuple` | src/schema_ir.h:267-272 | One item per parameter in order |
| `SchemaCompilers.RecordSchema` | src/schema_ir.h:291-306 | The open record of the fields |
| `SchemaCompilers.RecordNames` | src/schema_ir.h:141-150 | The set of declared record names |
| `SchemaCompilers.AddRecordComponents` | src/schema_ir.h:309-318 | Each named record under its key, later ones overwriting |
| `Translations.ByNameAgrees` | src/schema_ir.h:274-289 | For distinct names an object satisfies the parameter object exactly when it translates to positional form and the result satisfies the tuple |
| `Translations.TuplesAgree` | src/schema_ir.h:98-116 | The draft-07 and the 2020-12 tuple forms accept the same arrays |
| `Translations.TupleValid` | src/schema_ir.h:98-116 | Either form: exactly these items, each valid at its place |
| `Translations.TypedPositional` | src/discovery_model.h:607-633 | Succeeds exactly when names are known and required ones present; declaration order with nulls; a refusal names the first unknown name in key order, else the first missing parameter |
| `Translations.ToPositional` | src/discovery_model.h:635-664 | The same rule for live signatures, where every name may be left out |
| `Sha256s.HashParts` | src/sha256.h:25-61 | For every message and every split into updates, the result is the FIPS 180-4 hash, whose byte order, constants and functions are the next rows |
| `Sha256s.Sha256.Update` | src/sha256.h:25-38 | The buffer and state represent the message so far, and the counter its bits |
| `Sha256s.Sha256.Fill` | src/sha256.h:28-36 | A chunk that fills the buffer is compressed at once |
| `Sha256s.Sha256.Compress` | src/sha256.h:66-100 | The schedule array and the 64 rounds are the section 6.2.2 computation |
| `Sha256s.Sha256.Pad` | src/sha256.h:45-54 | Both sides of the 56-byte branch hash the section 5.1.1 padding, whose length field `LengthIsCount` reads |
| `Sha256s.Sha256.Finish` | src/sha256.h:44-61 | The digest of everything hashed, and a fresh start |
| `Sha256s.PaddedBlocks` | src/sha256.h:46-54 | The padding is one block, or two when the length does not fit |
| `Sha256s.Sha256Hex` | src/sha256.h:109-120 | Two lowercase hex digits per digest byte |
| `Sha256Standard.LengthIsCount` | src/sha256.h:45-53 | The length field read most significant byte first is the bit count, which is eight times the length below 2^64 bits |
| `Sha256Standard.WordAtValue` | src/sha256.h:78-82 | A block word is its four bytes in base 256, most significant first |
| `Sha256Standard.WordOfBytes` | src/sha256.h:55-58 | Reading a word's bytes gives the word |
| `Sha256Standard.BytesOfWord` | src/sha256.h:78-82 | The bytes of a word are those it was read from |
| `Sha256Standard.WordInDigest` | src/sha256.h:55-58 | The digest is the state's words in order, four bytes each |
| `Sha256Standard.HexReadsBack` | src/sha256.h:109-120 | The text is lower-case hexadecimal and reads back in base 16 to the bytes |
| `Sha256Standard.ChChooses` | src/sha256.h:91-92 | Ch takes y's bits where x has a one |
| `Sha256Standard.ChElse` | src/sha256.h:91-92 | and z's elsewhere |
| `Sha256Standard.MajOfTwo` | src/sha256.h:93-94 | A bit of Maj is what two of the three words have |
| `Sha256Standard.RotrTurns` | src/sha256.h:64 | Rotr is rotation to the right, for each amount used |
| `Sha256Constants.ConstantsAreRoots` | src/sha256.h:18-76 | The table follows the first 64 primes in order: each round constant and initial word is the first 32 bits of the fraction of a prime's cube root or square root, as integer inequalities |
| `Sha256Example.AbcDigest` | src/sha256.h:25-106 | The digest of "abc" is the one FIPS 180-4 publishes |
| `Utf8s.ValidIsEncoded` | src/doc_text.h:15-45 | The grammar of RFC 3629 section 4 accepts exactly the encodings of scalar value sequences |
| `Utf8s.DecodeEncode` | src/doc_text.h:15-45 | Decoding undoes encoding |
| `Utf8s.EncodeDecode` | src/doc_text.h:15-45 | Decoding succeeds exactly on valid strings, and encoding undoes it |
| `Utf8s.SeqLen` | src/doc_text.h:16-36 | The length of the RFC 3629 character at an index, or 0 |
| `Utf8s.Utf8Valid` | src/doc_text.h:38-45 | Accepts exactly the valid strings |
| `Utf8s.IsValidUtf8` | src/discovery_model.h:117-140 | Accepts exactly the same strings |
| `Utf8s.AsciiStandsAlone` | src/doc_text.h:19-36 | An ASCII byte of a valid string is a boundary on both sides |
| `Utf8s.Utf8Sanitize` | src/doc_text.h:48-59 | The loop replaces each offending byte |
| `Utf8s.SanitizedOnce` | src/doc_text.h:47-59 | Sanitised text is valid, unchanged exactly when it was valid, and sanitising is idempotent |
| `DocTexts.Utf8Floor` | src/doc_text.h:61-71 | The longest prefix within the bound that splits no character |
| `DocTexts.TrimRight` | src/doc_text.h:90-92 | The longest prefix that does not end in a blank |
| `DocTexts.Summary` | src/doc_text.h:103-124 | The first sentence of the first line, or its longest fit with an ellipsis |
| `DocTexts.SummaryFits` | src/doc_text.h:102-124 | A summary is valid UTF-8 of at most 120 bytes on one line, empty only for blank text |
| `DocTexts.Emit` | src/doc_text.h:142-174 | One turn of the rewriter emits one piece and moves on |
| `DocTexts.Description` | src/doc_text.h:127-180 | The rewriter emits the pieces of the sanitised text |
| `DocTexts.DescriptionSound` | src/doc_text.h:126-180 | A description is valid UTF-8, closes every fence it opens, and is the sanitised text when there is no @code keyword |
| `DocBlocks.SentenceEnds` | src/doc_text.h:82-88 | A full stop, exclamation or question mark before a blank ends a sentence, unless it is the dot of e.g. or i.e. standing as a word |
| `DocBlocks.KeywordStands` | src/doc_text.h:94-98 | A keyword counts exactly where no word runs into it on either side |
| `DocBlocks.BlockBecomesFence` | src/doc_text.h:142-179 | A code block becomes a fence with its language and body on lines of its own, and all that is before and after it is kept |
| `DocBlocks.LineStands` | src/doc_text.h:132-137 | A line begun anew: blanks at the end give way to one newline, and a complete line stays |
| `BridgeSubscriptions.OneSubscriberPerClientId` | src/json_rpc_bridge_impl.cpp:502-526 | At every step at most one subscriber per (connection, client id), and it holds its table entry unless it is being unsubscribed |
| `BridgeSubscriptions.OneFramePerEvent` | src/json_rpc_bridge_impl.cpp:297-319 | One upstream event yields at most one frame per client id |
| `BridgeSubscriptions.ReleasedBeforeNotice` | src/json_rpc_bridge_impl.cpp:321-344 | When a termination is announced the ended subscriber holds its client id no more |
| `BridgeSubscriptions.NoticedExactlyOnce` | src/json_rpc_bridge_impl.cpp:321-344 | A subscriber is noticed once for being taken by a loss, and never otherwise |
| `BridgeSubscriptions.EventReachesAll` | src/json_rpc_bridge_impl.cpp:297-319 | When an event's delivery is over each of its subscribers has its frame or is subscribed no more |
| `BridgeSubscriptions.FramesForSubscribers` | src/json_rpc_bridge_impl.cpp:297-319 | A frame is sent exactly for the subscriber whose turn it is and who is still subscribed |
| `BridgeSubscriptions.OnlyOwnReleases` | src/json_rpc_bridge_impl.cpp:346-355 | No late release frees a newer claim |
| `BridgeSubscriptions.QuiescentAgreement` | src/json_rpc_bridge_impl.cpp:493-569 | With nothing running, tables and subscriber map agree on every open connection |
| `SubscriptionTables.SubscriptionTable.TryClaim` | src/subscription_table.h:22-29 | Duplicate before full; a fresh claim binds the key |
| `SubscriptionTables.SubscriptionTable.Release` | src/subscription_table.h:31-37 | Freed only by its owner |
| `SubscriptionTables.SubscriptionTable.Take` | src/subscription_table.h:39-46 | Freed whoever holds it, and reported |
| `SubscriptionTables.ClaimKeepsLimit` | src/subscription_table.h:22-29 | The limit holds, claiming a held key is idempotent, and releasing undoes a fresh claim |
| `Batches.OneReplyInOrder` | src/json_rpc_bridge_impl.cpp:142-204 | For every order of completion: one flush, after the last fill, of all responses in request order; each carries the id its request's path through handleOne gave it, which is the request's, or null when absent or unparseable |
| `Batches.ReplyShape` | src/json_rpc_bridge_impl.cpp:173-195 | A single request is answered by its own response as an object, several by an array of all their responses in their order, each with its request's id |
| `Batches.RestReply` | src/json_rpc_bridge_impl.cpp:187-193 | A call by its HTTP path is answered by its bare result or bare error |
| `Batches.Batch.Store` | src/json_rpc_bridge_impl.cpp:155-159 | A response fills its own slot only |
| `Batches.Batch.CountDown` | src/json_rpc_bridge_impl.cpp:160 | True for the fill that brings the counter to zero |
| `Batches.Batch.Flush` | src/json_rpc_bridge_impl.cpp:173-195 | What is sent for the slots, in every shape |
| `Handlers.Path.HandleOne` | src/json_rpc_bridge_impl.cpp:437-580 | Every path does exactly one thing, fill the slot once or queue one job, and it is what `Handled` says, whose meaning is the next rows |
| `Handlers.Path.DispatchCall` | src/json_rpc_bridge_impl.cpp:584-626 | The refusals of a call in their order, the permission gate first, and otherwise one job |
| `Handlers.Path.Subscribe` | src/json_rpc_bridge_impl.cpp:493-545 | The refusals of a subscribe, the idempotent answer, and otherwise one job |
| `Handlers.CallQueuedExactly` | src/json_rpc_bridge_impl.cpp:584-626 | A call is queued upstream exactly when the request names that module and method, the current view permits it, its params are that array or translate to it by name, and there is a client and a pump |
| `Handlers.CallRefusedExactly` | src/json_rpc_bridge_impl.cpp:584-626 | A well-formed call is refused as not found exactly when not permitted or without a client, as a mismatch exactly when its names do not translate, and as shutting down exactly when the pump refuses it |
| `Handlers.SubscribeQueuedExactly` | src/json_rpc_bridge_impl.cpp:493-545 | A subscribe is queued exactly when the request names that event and id, the current view permits the event, the id is not held, the table is not full and the pump takes jobs |
| `Handlers.SubscribeAnsweredExactly` | src/json_rpc_bridge_impl.cpp:493-545 | Each answer of a well-formed subscribe on the spot, with exactly its condition |
| `Handlers.OthersAnswered` | src/json_rpc_bridge_impl.cpp:451-484 | ping, list_modules, discover and a call without id have exactly their answers |
| `Handlers.LocalAnswers` | src/json_rpc_bridge_impl.cpp:462-579 | schema, unsubscribe, cancel and operations the bridge does not have are answered on the spot |
| `Handlers.OutcomeEchoesId` | src/json_rpc_bridge_impl.cpp:437-580 | Each outcome carries the id to echo: the request's, or null when absent or unparseable |
| `Handlers.AliasSameOutcome` | src/json_rpc_bridge_impl.cpp:443-449 | An alias has the very outcome of rpc.call, refusals included |
| `Dispatchers.ParseRequest` | src/rpc_dispatcher.h:86-117 | Accepts exactly the well-formed requests, and says which refusal |
| `Dispatchers.AliasIsCall` | src/rpc_dispatcher.h:123-181 | An exposed module's operation name is no bridge operation, splits back, and makes the call rpc.call makes |
| `Dispatchers.SplitIsUnique` | src/rpc_dispatcher.h:127-135 | A split name rejoins, and its module part has no dot |
| `DocEntries.MethodEntries` | src/doc_common.h:97-118 | The loop lists each named exposed method once, per module |
| `DocEntries.EventEntries` | src/doc_common.h:120-138 | Likewise for events |
| `DocEntries.ListedOnce` | src/doc_common.h:103-105 | A name is listed once exactly when it is exposed and not empty, in exposure order |
| `DocEntries.EntriesInOrder` | src/doc_common.h:97-138 | Modules are listed one after the other |
| `DocEntries.QualifiedIsAlias` | src/doc_common.h:140-142 | For valid UTF-8 names the documented name is the alias |
| `DocEntries.DocumentedIsCallable` | src/doc_common.h:97-142 | A documented operation is no bridge operation, splits back, makes the same call as rpc.call and passes the gate of its view |
| `DocEntries.DocumentedIffPermitted` | src/doc_common.h:97-138 | On a typed view documented, exposed and permitted are the same, methods and events |
| `AsyncApis.Builder.AddMethod` | src/doc_asyncapi.h:106-145 | The request and result messages with their payloads, and the operation |
| `AsyncApis.Builder.AddEvent` | src/doc_asyncapi.h:147-207 | The subscribe, subscribed and event messages with their payloads, and the two operations |
| `AsyncApis.BuildAsyncApi` | src/doc_asyncapi.h:308-358 | The loops build the specified document: messages, operations, channel and schema components |
| `AsyncApis.DocumentResolves` | src/doc_asyncapi.h:102-358 | Every reference of the document stands alone and resolves in it: operations through the channel to messages, every payload, every component and correlation id; and following references between components ends |
| `AsyncApis.ComponentsShared` | src/doc_asyncapi.h:274-286 | The ten schema components are named without dots, keep their names as keys and refer to nothing |
| `AsyncApis.ListedDocumented` | src/doc_asyncapi.h:308-313 | Every listed method and event has its messages and operations, its own where its keys are unique |
| `AsyncApis.ParamsAccept` | src/doc_asyncapi.h:117-129 | A request's parameters are the by-name object or the positional tuple; NoParams accepts exactly {} and [] |
| `AsyncPayloads.RequestExactly` | src/doc_asyncapi.h:48-56 | A request payload admits exactly the version, an id that is a string, number or null, this method, and params its schema admits, left out only where not needed |
| `AsyncPayloads.ResultExactly` | src/doc_asyncapi.h:58-63 | A reply payload admits exactly the version, an id and a result its schema admits |
| `AsyncPayloads.NotificationExactly` | src/doc_asyncapi.h:65-70 | A notification payload admits exactly the version, this method and params its schema admits |
| `AsyncPayloads.ErrorValid` | src/doc_common.h:339-362 | The error component admits exactly the objects with an integer code and a message, whose data, if any, has the Logos code and name |
| `DocumentedTraffic.MethodOperates` | src/doc_asyncapi.h:87-144 | A method's operation receives its request and is answered by its result or rpc.error |
| `DocumentedTraffic.RequestDocumented` | src/doc_asyncapi.h:107-142 | In the whole document, where its keys are its own, a method's request admits exactly the calls by its alias with no parameters, or the declared ones by name or by position; anything where it is untyped |
| `DocumentedTraffic.ResultDocumented` | src/doc_asyncapi.h:125-143 | And its result exactly the replies that carry the declared result, true for none, or a provider rejection |
| `DocumentedTraffic.EventOperates` | src/doc_asyncapi.h:190-206 | An event has the operation that subscribes and the one that sends |
| `DocumentedTraffic.SubscribeDocumented` | src/doc_asyncapi.h:157-182 | The subscribe message admits exactly the requests to subscribe to this event |
| `DocumentedTraffic.SubscribedDocumented` | src/doc_asyncapi.h:162-184 | Its reply exactly the acknowledgements as registered or active |
| `DocumentedTraffic.EventDocumented` | src/doc_asyncapi.h:169-187 | The event message exactly the notifications of this event whose data are its declared parameters in order |
| `DocumentedTraffic.ErrorDocumented` | src/doc_asyncapi.h:212-221 | rpc.error admits exactly the error replies |
| `DocumentedTraffic.UnsubscribeDocumented` | src/doc_asyncapi.h:221-251 | The unsubscribe operation and exactly its requests |
| `DocumentedTraffic.UnsubscribedDocumented` | src/doc_asyncapi.h:228-233 | Exactly their acknowledgements |
| `DocumentedTraffic.TerminatedDocumented` | src/doc_asyncapi.h:234-255 | The termination operation and exactly its notices |
| `DocumentedTraffic.DocumentedCallTaken` | src/json_rpc_bridge_impl.cpp:437-448 | Every message the document admits for a listed method is a call of that method the gate permits, and with a client and a pump it is called upstream with its positional parameters |
| `DocumentedTraffic.DocumentedSubscribeTaken` | src/json_rpc_bridge_impl.cpp:493-539 | Every message it admits for an event subscribes to it, or is answered as the document says when the id is held |
| `DocumentedTraffic.DocumentedUnsubscribeTaken` | src/json_rpc_bridge_impl.cpp:547-569 | Every unsubscribe it admits is answered as the document says |

## Left out

- `Dispatchers.ParseRequest`: a `jsonrpc` member that is not a string makes the JSON library throw; here it is refused.
- `Discoveries.Discovery.PublishView`: the text of findings and the view's JSON form are not modelled.
- `HubLosses.LossReachesAll`: a subscriber that joins a subscription whose first bind then fails is left with it and hears of no loss; the last case admits it, as the code does.
- `Handlers.CallRefusedExactly`: the path in a mismatch is not part of the outcome; `Translations.TypedPositional` says which name it is.
- `Handlers.LocalAnswers`: what describe() and listModules() give is a parameter.
- `AsyncApis.ListedDocumented`: says of entries that share a key only that one of them stands.
- `BridgeSubscriptions.QuiescentAgreement`: says nothing of closed connections, whose tables die with them.
- `DiscoveryTheorems.ServedDocsCurrent`: shutdown, where posting and scheduling are refused, is not part of this model.
- `DocumentedTraffic.DocumentedCallTaken`: parameters by name reach the call as `Translations.TypedPositional` says; that their schema and the view's declaration agree is the contract's reader's business.
- `DocumentedTraffic.RequestDocumented`: of an untyped method the document admits any params; the bridge refuses those that are neither an object nor an array.
- Notes in schemas (titles, descriptions, formats, the x-logos keywords) do not take part in validation, and nothing is proved of their text.
- One clock reading per lock region; the code may read it twice in one region.
- In the hub the callback that installs a loss watcher is one step with the region that decides it.
- A fired timer and the job it posts are one step apart from the registry of timers; timers may fire at any time.
- The hub as the subscription bookkeeping sees it may drop subscriber ids by itself; the path after a refused pump job may be overtaken by later requests.
- Event delivery order, payloads, frames on the wire and the send queue.
- libwebsockets, sockets, timeouts, authentication and origin checks (src/ws_server.cpp).
- The upstream client's internals, Qt threads and memory ordering.
- Parsing of LIDL text and of JSON, and the reader's warnings.
- The offline command line, package reading and build files.
- OpenRPC and OpenAPI, and what only describes in AsyncAPI (titles, summaries, tags, servers), fixed description texts, the error catalogue and its mapping.
- The connection limits, request framing, HTTP routes and the loopback check: one reading settles them.
