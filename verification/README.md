# Purchase bookkeeping, modelled and proved

This project models the bookkeeping that keeps purchases, receipts and user identities straight
when calls fail, interleave or the process dies. Nine components are modelled, each in files that
share a prefix:

| component | files |
|---|---|
| Play token correlations: one active flow, deferred and completed tokens, the 32-slot bound, the journal | `PendingPurchase*.dfy`, `PurchaseTypes.dfy`, `LinkedMaps.dfy` |
| the Play journal's text: indexed property names, printing and parsing | `Decimals.dfy`, `JournalCodec.dfy`, `JournalReads.dfy`, `JournalStore.dfy` |
| Ask-to-Buy promotion: claims, waiters, commit and rollback, the StoreKit journal | `AskToBuy*.dfy` |
| identity transitions and the receipt recovery barrier: the facade, its commands, the identity file | `Identity*.dfy`, `Purchases*.dfy` |
| the bounded registry of store plans | `PackageRegistry*.dfy` |
| the guest binding's sync scheduler | `GuestScheduler*.dfy` |
| the HTTP client's ETag cache against an ETag server | `Etag*.dfy` |
| the diagnostics queue and its flush | `Diagnostics*.dfy` |
| the StoreKit purchase gate, and the `id=..` query | `PurchaseGate.dfy`, `PercentQuery*.dfy` |
| truth along a run, for the exact conditions | `Histories.dfy` |

## How a component is modelled

Code that changes state is modelled twice. A module of functions (`...Model`) gives every operation
as a map from a state to a state and a result. A class (or, for the promotion, the two actors) keeps
the original fields and loops, and each of its methods is proved to end in exactly the state and
result of its function. The functions are what runs are made of: an `Op` datatype lists the
operations, `Next` takes one step, `Run` takes a sequence of them, and the main results speak of
every `Run`. Beside them, every operation is described outright, from its inputs and the state or
run before it and without its own function: when exactly it succeeds, what it then leaves, and what
it leaves untouched (`PendingPurchaseFlows`, `AskToBuySyncs`, `PurchasesOutcomes`, `IdentityIds`,
`PackageRegistryResults`, `GuestSchedulerResults`, `EtagResults`, `JournalReads`,
`DiagnosticsResults`, `PercentQueryReads`). Where the program awaits, the model steps: the syncs of
the promotion and the events of the scheduler interleave in any order, and an operation under a lock
is one step.

Whatever the environment decides is a parameter of the step, so a statement about every run is a
statement about every outcome:

- A journal or identity write says whether it reports success and what is on disk afterwards. A
  failed SharedPreferences commit leaves any list an instance could have written, or something
  unreadable. A failed StoreKit journal write may or may not have replaced the file. An identity
  write may fail before or after the rename, and the process may die before or after it.
- A backend call is answered, lost after it took effect, or ends the process before or after being
  sent. A store call that fails leaves nothing, a transaction, or a deferred purchase that the store
  may approve or decline at any later time. Between operations the store delivers transactions,
  decides deferred purchases, and begins or stops to report finished ones.
- A server changes its bodies between exchanges, drops, limits or refuses requests, and signs well
  or badly.

History that only the statements need (what each attempt was, what a sync saw and between which
removals, which requests a sync covers) is kept in named fields of the model's state.

## Assumptions

- The journal of the Play store behaves as its codec does: a reported success means the file holds
  exactly the list, which held only non-blank tokens and non-empty sets of non-blank products.
  `JournalCodecTheorems.CodecRefinesJournal` proves this of the codec.
- The durability and attribution results for Play tokens exclude dying while a persistence failure
  is being reported: then memory and journal may disagree, and that is what the report means. What
  survives even such a death is stated separately (`DeathKeepsWhatIsWritten`).
- Attempt ids, diagnostics ids and generated anonymous ids are fresh, as UUIDs are.
- An actor call runs without suspension from its first check to its last effect; in particular a
  sync enters the waiting list in the same step in which it finds the promotion running.
- Operations of the facade do not interleave, because each holds `identity_operation` from its
  first check to its last effect. What a command read from the identity file before taking that
  lock may be out of date, and is a parameter.
- A pending-queue query returns every unfinished transaction; a full query returns those and the
  finished history the store still reports.
- ETag tags are injective and never empty.
- "Promoted" means that storing the context did not throw. "Recorded" means that the file was
  replaced with a record of the attempt, by a sync or by the purchase that cached it.
- The gate lets one purchase flow run at a time (`PurchaseGateModel`).
- A call of the diagnostics tracker is one step for each stretch under the queue's lock or the
  `syncing` flag; what else it does inside such a stretch commutes with the steps of other tasks.

## Where the code and its description part

- `PendingPurchaseStore.prepareForPurchase`, described as making stale PURCHASED callbacks
  distinguishable, does not protect against a token it saw PENDING whose known record names other
  products and is not durable (`PendingPurchaseTheorems.PendingRecordIsUnprotected`, reached from a
  fresh start in `PendingRecordTakesCallback`); every other listed token is protected
  (`PreflightProtectsCallback`).
- The recovery flag is said to bind retries to one identity (`purchases.rs:516-522`). That does not
  reach three kinds of receipt: a full or restoring sync also posts purchases finished long ago,
  under whoever is logged in (`PurchasesResults.FullSyncsChangeHands`); a deferred purchase outlives
  the recovery it armed (`DeferredPurchasesChangeHands`); and the flag is gone when the process dies
  before the post (`DeathsChangeHands`). `MispostedExactly` says exactly when a receipt changes
  hands; without these three it never does (`ReceiptsBelongToLauncher`).
- "Crash-safe" promotion gives each attempt to one transaction as long as none of its writes
  replaces the file and throws, and no sync claims it while its own purchase is under way
  (`AskToBuyRecords.RecordedAtMostOnce`). A sync does claim it when another transaction of the
  product is approved meanwhile; then, with no failure at all, the attempt is recorded twice
  (`OpenPurchaseCanDouble`, and `OwnClaimDoubles` from every such state). The other ways are
  `StoredPurchaseCanDouble` and `HalfWriteCanDouble`; there are no more
  (`RecordedTwiceExactly`).
- The diagnostics queue is said to be dropped after three consecutive failures. The count is reset
  only after the next flush may start, so one failure can drop a new entry
  (`DiagnosticsTheorems.LateResetClears`).
- A forced 304 replays a cached body even when it is stale, or when its entry would not have been
  offered for revalidation (`EtagTheorems.ForcedAnswerCanBeStale`); every other success is current.

## Model

| member | source | states |
|---|---|---|
| `PendingPurchaseRuns.CapacityAndJournal` | crates/tauri-plugin-revenuecat/android/src/main/java/app/tauri/revenuecat/PendingPurchaseStore.kt:168-580 | In every state reachable from an empty journal or one an earlier instance wrote: active, deferred and completed records number at most 32, so the journal is never cut; and unless a persistence failure is reported the journal is exactly the durable records, in order |
| `PendingPurchaseRuns.CrashRestoresDurableRecords` | crates/tauri-plugin-revenuecat/android/src/main/java/app/tauri/revenuecat/PendingPurchaseStore.kt:518-579 | A crash while no failure is reported brings back, at every token, exactly the record that was durable there, and nothing else |
| `PendingPurchaseRuns.RestoreClean` | crates/tauri-plugin-revenuecat/android/src/main/java/app/tauri/revenuecat/PendingPurchaseStore.kt:518-554 | A journal some instance wrote is restored record by record and would be written back as the same list |
| `PendingPurchaseRuns.StepKeeps` | crates/tauri-plugin-revenuecat/android/src/main/java/app/tauri/revenuecat/PendingPurchaseStore.kt:179-580 | Every operation, with any outcome of its journal write, keeps the capacity bound, the disjoint tables, the records under their own tokens and the exact journal |
| `PendingPurchaseTheorems.DurableNeverLost` | crates/tauri-plugin-revenuecat/android/src/main/java/app/tauri/revenuecat/PendingPurchaseStore.kt:253-312 | Through every run of preflights (overflowing ones included), empty queries, deferrals, failed writes and crashes, a durable token stays durable until its own finish removes it; its products only grow and its context is kept or dropped, never replaced |
| `PendingPurchaseTheorems.DeathKeepsWhatIsWritten` | crates/tauri-plugin-revenuecat/android/src/main/java/app/tauri/revenuecat/PendingPurchaseStore.kt:518-579 | Whatever failed before, a crash leaves durable exactly the tokens the journal then names, each with the record written there |
| `PendingPurchaseTheorems.DroppedStaysDropped` | crates/tauri-plugin-revenuecat/android/src/main/java/app/tauri/revenuecat/PendingPurchaseStore.kt:509-516 | A durable token whose context was dropped has none in any later state until it is finished |
| `PendingPurchaseTheorems.StepMoves` | crates/tauri-plugin-revenuecat/android/src/main/java/app/tauri/revenuecat/PendingPurchaseStore.kt:213-580 | For every operation and every token: exactly where that token may be afterwards, so tokens the operation does not name stay put |
| `PendingPurchaseTheorems.AttributionSound` | crates/tauri-plugin-revenuecat/android/src/main/java/app/tauri/revenuecat/PendingPurchaseStore.kt:213-242 | Over every run, the context held for a token is null or the context of the one flow that token consumed when it was novel |
| `PendingPurchaseTheorems.ReconcileReportsExactly` | crates/tauri-plugin-revenuecat/android/src/main/java/app/tauri/revenuecat/PendingPurchaseStore.kt:448-501 | Reconciliation reports a token if and only if it is known and observed PURCHASED, and hands out a context if and only if the record has it and the observed product set equals the recorded one |
| `PendingPurchaseTheorems.CallbacksHandedOutOnce` | crates/tauri-plugin-revenuecat/android/src/main/java/app/tauri/revenuecat/PendingPurchaseStore.kt:179-242 | The callbacks accepted so far are, in order, those handed out followed by the at most one still active: none twice, none lost |
| `PendingPurchaseTheorems.PreflightProtectsCallback` | crates/tauri-plugin-revenuecat/android/src/main/java/app/tauri/revenuecat/PendingPurchaseStore.kt:317-375 | After a READY preflight and the registration behind it, a non-blank token Play listed for the product, PURCHASED or durably recorded, routes as CORRELATED and leaves the new callback active, in every run that neither finishes it nor reports it PENDING |
| `PendingPurchaseTheorems.PendingRecordIsUnprotected` | crates/tauri-plugin-revenuecat/android/src/main/java/app/tauri/revenuecat/PendingPurchaseStore.kt:253-312 | The other half of that condition: a token listed as PENDING whose record is not durable must have been recorded for other products, and one empty query later it takes the new flow's callback |
| `PendingPurchaseTheorems.PendingRecordTakesCallback` | crates/tauri-plugin-revenuecat/android/src/main/java/app/tauri/revenuecat/PendingPurchaseStore.kt:253-312 | Such states are reached: from an empty journal, one deferred flow without context and a listing of its token under a second product give a READY preflight after which the token routes as ACTIVE with the new callback |
| `PendingPurchaseTheorems.PreflightDuringFlowRecordsNothing` | crates/tauri-plugin-revenuecat/android/src/main/java/app/tauri/revenuecat/PendingPurchaseStore.kt:257-263 | While a flow is active the preflight answers READY and changes nothing; registering right after a READY preflight succeeds exactly when no flow was active |
| `PendingPurchaseTheorems.UnreadableJournalStaysClosed` | crates/tauri-plugin-revenuecat/android/src/main/java/app/tauri/revenuecat/PendingPurchaseStore.kt:518-526 | After starting from an unreadable journal, in every run and over any number of restarts, that journal is never overwritten, no flow opens and every preflight reports the failure |
| `PendingPurchaseFlows.RegisterExactly` | crates/tauri-plugin-revenuecat/android/src/main/java/app/tauri/revenuecat/PendingPurchaseStore.kt:179-190 | A flow is admitted exactly if no persistence failure is reported, none is active, no deferred record owns its product and fewer than 32 tokens are known; it starts with its callback, no context and no launch |
| `PendingPurchaseFlows.ContextIsKept` | crates/tauri-plugin-revenuecat/android/src/main/java/app/tauri/revenuecat/PendingPurchaseStore.kt:193-196 | The context given for the active product is the one its flow has from then on; another product's changes nothing |
| `PendingPurchaseFlows.FlowIsTaken` | crates/tauri-plugin-revenuecat/android/src/main/java/app/tauri/revenuecat/PendingPurchaseStore.kt:412-420 | Taking hands over the active flow exactly if one of its products is asked for, and then no flow is active |
| `PendingPurchaseFlows.FlowIsRemoved` | crates/tauri-plugin-revenuecat/android/src/main/java/app/tauri/revenuecat/PendingPurchaseStore.kt:435-446 | Removing its product, or draining, hands over the active flow and leaves none |
| `PendingPurchaseFlows.RouteExactly` | crates/tauri-plugin-revenuecat/android/src/main/java/app/tauri/revenuecat/PendingPurchaseStore.kt:317-375 | A PURCHASED update of an unknown token consumes the active flow of its product and records token, product set and that flow's own context, durable exactly if there is one and then in the journal unless the failure is reported; both durability answers are true exactly if nothing had to be written or the write is not reported as failed |
| `PendingPurchaseFlows.RouteBlankExactly` | crates/tauri-plugin-revenuecat/android/src/main/java/app/tauri/revenuecat/PendingPurchaseStore.kt:317-375 | A blank token hands the flow over as not durable and records nothing |
| `PendingPurchaseFlows.RouteWithoutFlow` | crates/tauri-plugin-revenuecat/android/src/main/java/app/tauri/revenuecat/PendingPurchaseStore.kt:317-375 | Without an active flow an unknown or blank token is out of band and nothing changes |
| `PendingPurchaseFlows.RouteKnownExactly` | crates/tauri-plugin-revenuecat/android/src/main/java/app/tauri/revenuecat/PendingPurchaseStore.kt:317-375 | A known token is correlated where it is, its context kept exactly if the product set is the recorded one, and the flow is left alone |
| `PendingPurchaseFlows.DeferExactly` | crates/tauri-plugin-revenuecat/android/src/main/java/app/tauri/revenuecat/PendingPurchaseStore.kt:213-242 | A PENDING report hands the active flow over and records its token: for an unknown one the flow's context, for a known one the union of both product sets without a context; durable records are in the journal unless the failure is reported, and the flow is told which |
| `PendingPurchaseFlows.RemoveExactly` | crates/tauri-plugin-revenuecat/android/src/main/java/app/tauri/revenuecat/PendingPurchaseStore.kt:397-409 | Before a finish a token is forgotten exactly if that is reported done; a token that is not durable writes nothing, and no journal record names a token that is gone |
| `PendingPurchaseFlows.ObservedDecides` | crates/tauri-plugin-revenuecat/android/src/main/java/app/tauri/revenuecat/PendingPurchaseStore.kt:503-507 | Of a token's observations the first PURCHASED one decides, or else the first |
| `PendingPurchaseFlows.PrepareExactly` | crates/tauri-plugin-revenuecat/android/src/main/java/app/tauri/revenuecat/PendingPurchaseStore.kt:253-312 | What a preflight without an active flow leaves at every token and exactly which answer it gives; a capacity answer leaves exactly 32 tokens |
| `PendingPurchaseFlows.OverflowPrefersDeferred` | crates/tauri-plugin-revenuecat/android/src/main/java/app/tauri/revenuecat/PendingPurchaseStore.kt:288-303 | An overflow drops a deferred record only when every completed record it keeps is durable |
| `PendingPurchaseFlows.ReconcileExactly` | crates/tauri-plugin-revenuecat/android/src/main/java/app/tauri/revenuecat/PendingPurchaseStore.kt:448-501 | Each token after a reconciliation, from the observation that decides or its absence: a PENDING observation with the recorded product set keeps the context too; contexts are handed out for those seen as PURCHASED |
| `PendingPurchaseFlows.RestoresMerged` | crates/tauri-plugin-revenuecat/android/src/main/java/app/tauri/revenuecat/PendingPurchaseStore.kt:518-554 | A journal is restored token by token: all products of the token's complete records together, durable, and a context only if there was just one |
| `PendingPurchaseSteps.PrepareStep` | crates/tauri-plugin-revenuecat/android/src/main/java/app/tauri/revenuecat/PendingPurchaseStore.kt:253-312 | What a preflight does at every token, in each of its outcomes, overflow included |
| `PendingPurchaseSteps.ReconcileStep` | crates/tauri-plugin-revenuecat/android/src/main/java/app/tauri/revenuecat/PendingPurchaseStore.kt:448-501 | What a reconciliation leaves at every token |
| `PendingPurchaseSteps.RouteStep` | crates/tauri-plugin-revenuecat/android/src/main/java/app/tauri/revenuecat/PendingPurchaseStore.kt:317-375 | Which update is correlated, active or out of band, at every token; the records it names are stated outright by RouteExactly and RouteKnownExactly |
| `PendingPurchaseSteps.DeferStep` | crates/tauri-plugin-revenuecat/android/src/main/java/app/tauri/revenuecat/PendingPurchaseStore.kt:213-242 | A PENDING report releases the one active flow and records its token, or changes nothing, at every token; the record it names is stated outright by DeferExactly |
| `PendingPurchaseSteps.RemoveStep` | crates/tauri-plugin-revenuecat/android/src/main/java/app/tauri/revenuecat/PendingPurchaseStore.kt:397-409 | Removing before the finish forgets exactly that token, or nothing when the journal write fails |
| `PendingPurchaseStore.PendingPurchaseStore.constructor` | crates/tauri-plugin-revenuecat/android/src/main/java/app/tauri/revenuecat/PendingPurchaseStore.kt:168-176 | The object begins in the state the specification restores from the journal |
| `PendingPurchaseStore.PendingPurchaseStore.RestoreDurableCorrelations` | crates/tauri-plugin-revenuecat/android/src/main/java/app/tauri/revenuecat/PendingPurchaseStore.kt:518-554 | The restoring loop builds the map of the specification and flags an unreadable journal |
| `PendingPurchaseStore.PendingPurchaseStore.Register` | crates/tauri-plugin-revenuecat/android/src/main/java/app/tauri/revenuecat/PendingPurchaseStore.kt:179-190 | New state and answer are those of the specification |
| `PendingPurchaseStore.PendingPurchaseStore.UpdateContext` | crates/tauri-plugin-revenuecat/android/src/main/java/app/tauri/revenuecat/PendingPurchaseStore.kt:193-196 | New state is that of the specification |
| `PendingPurchaseStore.PendingPurchaseStore.MarkLaunched` | crates/tauri-plugin-revenuecat/android/src/main/java/app/tauri/revenuecat/PendingPurchaseStore.kt:199-203 | New state is that of the specification |
| `PendingPurchaseStore.PendingPurchaseStore.PersistDurableCorrelations` | crates/tauri-plugin-revenuecat/android/src/main/java/app/tauri/revenuecat/PendingPurchaseStore.kt:560-579 | What is written, the failure flag and the result are those of the specification for either table pair and any write outcome |
| `PendingPurchaseStore.PendingPurchaseStore.Defer` | crates/tauri-plugin-revenuecat/android/src/main/java/app/tauri/revenuecat/PendingPurchaseStore.kt:213-242 | New state and released flow are those of the specification, which DeferExactly states outright |
| `PendingPurchaseStore.PendingPurchaseStore.PrepareForPurchase` | crates/tauri-plugin-revenuecat/android/src/main/java/app/tauri/revenuecat/PendingPurchaseStore.kt:253-312 | New state and answer are those of the specification, branch by branch |
| `PendingPurchaseStore.PendingPurchaseStore.RecordObservation` | crates/tauri-plugin-revenuecat/android/src/main/java/app/tauri/revenuecat/PendingPurchaseStore.kt:269-282 | One turn of the recording loop places the observed token as the specification does |
| `PendingPurchaseStore.PendingPurchaseStore.RecordOwned` | crates/tauri-plugin-revenuecat/android/src/main/java/app/tauri/revenuecat/PendingPurchaseStore.kt:261-282 | The loop over the observed tokens computes the specification's fold |
| `PendingPurchaseStore.PendingPurchaseStore.KeepDurable` | crates/tauri-plugin-revenuecat/android/src/main/java/app/tauri/revenuecat/PendingPurchaseStore.kt:283-287 | The loop that adds durable records back computes the specification's fold |
| `PendingPurchaseStore.PendingPurchaseStore.RoutePurchased` | crates/tauri-plugin-revenuecat/android/src/main/java/app/tauri/revenuecat/PendingPurchaseStore.kt:317-375 | New state and routing are those of the specification, which RouteExactly and RouteKnownExactly state outright |
| `PendingPurchaseStore.PendingPurchaseStore.ReconcileOwnedPurchases` | crates/tauri-plugin-revenuecat/android/src/main/java/app/tauri/revenuecat/PendingPurchaseStore.kt:385-387 | New state and reported contexts are those of the specification |
| `PendingPurchaseStore.PendingPurchaseStore.ReconcileDeferredLoop` | crates/tauri-plugin-revenuecat/android/src/main/java/app/tauri/revenuecat/PendingPurchaseStore.kt:449-476 | The loop over the deferred records computes the specification's fold |
| `PendingPurchaseStore.PendingPurchaseStore.ReconcileCompletedLoop` | crates/tauri-plugin-revenuecat/android/src/main/java/app/tauri/revenuecat/PendingPurchaseStore.kt:478-495 | The loop over the completed records computes the specification's fold |
| `PendingPurchaseStore.PendingPurchaseStore.RemoveCorrelationBeforeStoreFinish` | crates/tauri-plugin-revenuecat/android/src/main/java/app/tauri/revenuecat/PendingPurchaseStore.kt:397-409 | New state and answer are those of the specification; nothing moves when the forced write fails |
| `PendingPurchaseStore.PendingPurchaseStore.TakeForProducts` | crates/tauri-plugin-revenuecat/android/src/main/java/app/tauri/revenuecat/PendingPurchaseStore.kt:412-420 | New state and the flows taken are those of the specification |
| `PendingPurchaseStore.PendingPurchaseStore.Remove` | crates/tauri-plugin-revenuecat/android/src/main/java/app/tauri/revenuecat/PendingPurchaseStore.kt:435-439 | New state and the flow removed are those of the specification |
| `PendingPurchaseStore.PendingPurchaseStore.Drain` | crates/tauri-plugin-revenuecat/android/src/main/java/app/tauri/revenuecat/PendingPurchaseStore.kt:442-446 | All active flows are handed back and none remains |
| `AskToBuyResults.PromotedAtMostOnce` | crates/tauri-plugin-revenuecat/ios/Sources/RevenueCatPlugin/LocalTransactionMetadataStore.swift:256-326 | In every interleaving an attempt is promoted to at most one transaction; afterwards it is not cached and no claim on it can still write |
| `AskToBuyResults.PromotionsKeepTheirContext` | crates/tauri-plugin-revenuecat/ios/Sources/RevenueCatPlugin/LocalTransactionMetadataStore.swift:282-299 | A promotion, finished or under way, carries the context some purchase of the same product cached, and a claim never uses one cached after the transaction's date |
| `AskToBuyResults.ContextOnlyAfterDurable` | crates/tauri-plugin-revenuecat/ios/Sources/RevenueCatPlugin/LocalTransactionMetadataStore.swift:386-490 | A sync that returns a context, or is about to, does so only after the journal held exactly that id, token, product and context |
| `AskToBuyResults.SyncsAgree` | crates/tauri-plugin-revenuecat/ios/Sources/RevenueCatPlugin/LocalTransactionMetadataStore.swift:452-490 | Two syncs that learn a context for one transaction between the same two removals learn the same one, under the same token and product |
| `AskToBuyResults.ResultsMatchJournal` | crates/tauri-plugin-revenuecat/ios/Sources/RevenueCatPlugin/LocalTransactionMetadataStore.swift:87-97 | Until its record is first removed, every successful sync of a transaction returns what the journal still holds for it |
| `AskToBuyResults.CompletionIsLocal` | crates/tauri-plugin-revenuecat/ios/Sources/RevenueCatPlugin/LocalTransactionMetadataStore.swift:301-325 | In any state of the cache, completing a claim leaves every other attempt, promotion and waiter alone; a rollback restores its own attempt exactly when that is still its product's latest and the slot is free |
| `AskToBuyResults.RetiredStaysOut` | crates/tauri-plugin-revenuecat/ios/Sources/RevenueCatPlugin/LocalTransactionMetadataStore.swift:301-330 | Once dropped, superseded or committed, an attempt is never cached, hence never claimed, again |
| `AskToBuyResults.OneOwner` | crates/tauri-plugin-revenuecat/ios/Sources/RevenueCatPlugin/LocalTransactionMetadataStore.swift:262-280 | No two tasks hold a claim on one transaction |
| `AskToBuyResults.WaitersHaveAnOwner` | crates/tauri-plugin-revenuecat/ios/Sources/RevenueCatPlugin/LocalTransactionMetadataStore.swift:345-371 | A waiting sync is in its transaction's list exactly once and the task that owns the claim is still at work |
| `AskToBuyResults.SchedulesAreShort` | crates/tauri-plugin-revenuecat/ios/Sources/RevenueCatPlugin/LocalTransactionMetadataStore.swift:452-490 | However calls fail, the syncs under way take at most five steps each, in any order |
| `AskToBuyResults.SomeoneCanMove` | crates/tauri-plugin-revenuecat/ios/Sources/RevenueCatPlugin/LocalTransactionMetadataStore.swift:345-371 | No wake-up is lost: while a sync is unfinished, it or the owner it waits for can take a step |
| `AskToBuySyncs.RenewalsNeverClaim` | crates/tauri-plugin-revenuecat/ios/Sources/RevenueCatPlugin/RevenueCatPlugin.swift:13-15 | In every run a sync known to be for a renewal never claims, completes or waits: it only reads, and ends with a record's context, with none, or with an error |
| `AskToBuySyncs.PromotionsAreNoRenewals` | crates/tauri-plugin-revenuecat/ios/Sources/RevenueCatPlugin/LocalTransactionMetadataStore.swift:452-490 | No claim is ever made and no context ever promoted by a renewal's sync |
| `AskToBuySyncs.FirstRead` | crates/tauri-plugin-revenuecat/ios/Sources/RevenueCatPlugin/LocalTransactionMetadataStore.swift:452-490 | A sync's first read ends it with the record's context, or with an error; without a record a renewal ends with none, cache and file untouched, and any other sync goes on to claim |
| `AskToBuySyncs.SecondStep` | crates/tauri-plugin-revenuecat/ios/Sources/RevenueCatPlugin/LocalTransactionMetadataStore.swift:256-298 | A sync that missed waits for a running promotion of its transaction; else takes the cached context exactly if it is for its product and no newer than its purchase; else reads once more |
| `AskToBuySyncs.LastRead` | crates/tauri-plugin-revenuecat/ios/Sources/RevenueCatPlugin/LocalTransactionMetadataStore.swift:411-448 | The last read is the result; without a record a resumed waiter fails and any other sync ends with none |
| `AskToBuySyncs.SyncAlone` | crates/tauri-plugin-revenuecat/ios/Sources/RevenueCatPlugin/LocalTransactionMetadataStore.swift:386-490 | A sync that runs alone and without faults: exactly when it promotes, what it then returns, and what it leaves in the file and the cache |
| `AskToBuySyncs.SyncsKeepTheirTransaction` | crates/tauri-plugin-revenuecat/ios/Sources/RevenueCatPlugin/LocalTransactionMetadataStore.swift:452-490 | A sync keeps the transaction, date and kind it was begun with, and its result, until a restart |
| `AskToBuySyncs.StoreAnswers` | crates/tauri-plugin-revenuecat/ios/Sources/RevenueCatPlugin/LocalTransactionMetadataStore.swift:87-97 | Storing succeeds exactly if the file can be read and holds this very record, or has room for a new id and the write works; exactly what the file holds afterwards |
| `AskToBuySyncs.LookupAnswers` | crates/tauri-plugin-revenuecat/ios/Sources/RevenueCatPlugin/LocalTransactionMetadataStore.swift:99-125 | A lookup finds exactly the record of the whole identity, and throws on a file it cannot read |
| `AskToBuySyncs.RemovalAnswers` | crates/tauri-plugin-revenuecat/ios/Sources/RevenueCatPlugin/LocalTransactionMetadataStore.swift:127-135 | A removal says true exactly when it took a record out, and false exactly when the readable file had none |
| `AskToBuySyncs.FinishingRemoves` | crates/tauri-plugin-revenuecat/ios/Sources/RevenueCatPlugin/LocalTransactionMetadataStore.swift:43-57 | Finishing first takes the record out |
| `AskToBuySyncs.PurchaseOpens` | crates/tauri-plugin-revenuecat/ios/Sources/RevenueCatPlugin/RevenueCatPlugin.swift:274-345 | A purchase caches its context as the latest attempt of its product; a second one is turned away |
| `AskToBuySyncs.PurchaseLeaves` | crates/tauri-plugin-revenuecat/ios/Sources/RevenueCatPlugin/RevenueCatPlugin.swift:317-392 | A whole purchase with nothing between: what it stores under its own transaction, and that its cached context stays exactly if it was deferred or its record could not be stored |
| `AskToBuySyncs.AttemptsAreAccountedFor` | crates/tauri-plugin-revenuecat/ios/Sources/RevenueCatPlugin/LocalTransactionMetadataStore.swift:223-235 | While the process lives, every attempt is the latest of its product, or was dropped, superseded or committed |
| `AskToBuySyncs.CommitForgets` | crates/tauri-plugin-revenuecat/ios/Sources/RevenueCatPlugin/LocalTransactionMetadataStore.swift:301-310 | Once committed, the latest attempt of a product has left the cache with its context, and no other product changes |
| `AskToBuySyncs.RestartForgets` | crates/tauri-plugin-revenuecat/ios/Sources/RevenueCatPlugin/LocalTransactionMetadataStore.swift:59-85 | A new process knows the file and nothing else |
| `AskToBuyRecords.RecordedTwiceExactly` | crates/tauri-plugin-revenuecat/ios/Sources/RevenueCatPlugin/RevenueCatPlugin.swift:326-367 | Counting the records of syncs and of the purchase flow alike, over every interleaving: two steps record one attempt if and only if either the first write replaced the file and threw, and a sync claimed the attempt from the cache after that (given back by a rollback, when a sync had written it); or one record is the purchase's own and the other a sync's that claimed the attempt while that purchase was under way, from its caching to the drop behind its store |
| `AskToBuyRecords.RecordedAtMostOnce` | crates/tauri-plugin-revenuecat/ios/Sources/RevenueCatPlugin/LocalTransactionMetadataStore.swift:386-409 | An attempt none of whose writes lands and throws, and which no sync claims while its own purchase is under way, is recorded at most once, not even across failed promotions |
| `AskToBuyRecords.OwnClaimDoubles` | crates/tauri-plugin-revenuecat/ios/Sources/RevenueCatPlugin/RevenueCatPlugin.swift:350-367 | In every state: once a sync holds the claim of a purchase that is still at its sheet, both record the attempt if the purchase then succeeds and nothing fails |
| `AskToBuyRecords.OpenPurchaseCanDouble` | crates/tauri-plugin-revenuecat/ios/Sources/RevenueCatPlugin/RevenueCatPlugin.swift:215-238 | From an empty journal and without any failure: the approval of one transaction takes the context of the open purchase of the same product, and that purchase records it again for its own transaction |
| `AskToBuyRecords.StoredPurchaseCanDouble` | crates/tauri-plugin-revenuecat/ios/Sources/RevenueCatPlugin/RevenueCatPlugin.swift:350-367 | From an empty journal: after the purchase's own store, which works or replaces the file and throws, a sync claims the attempt that is not dropped yet and records it for another transaction |
| `AskToBuyRecords.HalfWriteCanDouble` | crates/tauri-plugin-revenuecat/ios/Sources/RevenueCatPlugin/LocalTransactionMetadataStore.swift:159-175 | From an empty journal: a promotion that throws after replacing the file gives the attempt back, and the next sync records it for another transaction |
| `AskToBuyRecords.RecordsKeepTheirContext` | crates/tauri-plugin-revenuecat/ios/Sources/RevenueCatPlugin/RevenueCatPlugin.swift:326-366 | Every record, of a sync or of a purchase, carries the context of its own attempt, for that attempt's product |
| `AskToBuyInvariant.CompleteTasks` | crates/tauri-plugin-revenuecat/ios/Sources/RevenueCatPlugin/LocalTransactionMetadataStore.swift:353-371 | A commit or rollback gives the owner its result, sends exactly the syncs waiting for that transaction on with the owner's outcome, and moves nobody else |
| `AskToBuyInvariant.CommitKeepsCache` | crates/tauri-plugin-revenuecat/ios/Sources/RevenueCatPlugin/LocalTransactionMetadataStore.swift:301-310 | A commit keeps cached attempts current, distinct and apart from claimed ones |
| `AskToBuyInvariant.RollbackKeepsCache` | crates/tauri-plugin-revenuecat/ios/Sources/RevenueCatPlugin/LocalTransactionMetadataStore.swift:312-325 | So does a rollback |
| `AskToBuyTheorems.StoreKeepsRecords` | crates/tauri-plugin-revenuecat/ios/Sources/RevenueCatPlugin/LocalTransactionMetadataStore.swift:87-97 | Storing never replaces or drops a record, and when it does not throw the record is there |
| `AskToBuyTheorems.RemoveTakesOne` | crates/tauri-plugin-revenuecat/ios/Sources/RevenueCatPlugin/LocalTransactionMetadataStore.swift:127-135 | A removal takes out at most the named record, and only under its own token |
| `AskToBuyTheorems.InvAlong` | crates/tauri-plugin-revenuecat/ios/Sources/RevenueCatPlugin/LocalTransactionMetadataStore.swift:215-490 | The whole protocol invariant holds after any interleaving of purchases, syncs, failures, removals and restarts |
| `AskToBuyActors.LocalTransactionMetadataStore.LoadFile` | crates/tauri-plugin-revenuecat/ios/Sources/RevenueCatPlugin/LocalTransactionMetadataStore.swift:137-157 | Loads, or fails, exactly as specified |
| `AskToBuyActors.LocalTransactionMetadataStore.Write` | crates/tauri-plugin-revenuecat/ios/Sources/RevenueCatPlugin/LocalTransactionMetadataStore.swift:159-175 | Replaces the file, or fails with or without having replaced it, as specified |
| `AskToBuyActors.LocalTransactionMetadataStore.StoreMetadata` | crates/tauri-plugin-revenuecat/ios/Sources/RevenueCatPlugin/LocalTransactionMetadataStore.swift:87-97 | New file and outcome are those of the specification |
| `AskToBuyActors.LocalTransactionMetadataStore.ReceiptContextFor` | crates/tauri-plugin-revenuecat/ios/Sources/RevenueCatPlugin/LocalTransactionMetadataStore.swift:110-121 | The lookup is that of the specification: all three parts of the identity must match |
| `AskToBuyActors.LocalTransactionMetadataStore.Remove` | crates/tauri-plugin-revenuecat/ios/Sources/RevenueCatPlugin/LocalTransactionMetadataStore.swift:127-135 | New file and outcome are those of the specification |
| `AskToBuyActors.PendingPurchaseContextCache.CacheReceiptContext` | crates/tauri-plugin-revenuecat/ios/Sources/RevenueCatPlugin/LocalTransactionMetadataStore.swift:223-235 | New cache is that of the specification |
| `AskToBuyActors.PendingPurchaseContextCache.ClaimOrWaitForPromotion` | crates/tauri-plugin-revenuecat/ios/Sources/RevenueCatPlugin/LocalTransactionMetadataStore.swift:256-280 | New cache and acquisition are those of the specification |
| `AskToBuyActors.PendingPurchaseContextCache.TakeClaim` | crates/tauri-plugin-revenuecat/ios/Sources/RevenueCatPlugin/LocalTransactionMetadataStore.swift:282-299 | Takes the cached context out exactly when it exists and is not younger than the purchase |
| `AskToBuyActors.PendingPurchaseContextCache.CompleteClaim` | crates/tauri-plugin-revenuecat/ios/Sources/RevenueCatPlugin/LocalTransactionMetadataStore.swift:353-371 | Frees the promotion and resumes its waiters in order, only for the registered attempt |
| `AskToBuyActors.PendingPurchaseContextCache.CommitClaim` | crates/tauri-plugin-revenuecat/ios/Sources/RevenueCatPlugin/LocalTransactionMetadataStore.swift:301-310 | New cache and resumed tasks are those of the specification |
| `AskToBuyActors.PendingPurchaseContextCache.RollbackClaim` | crates/tauri-plugin-revenuecat/ios/Sources/RevenueCatPlugin/LocalTransactionMetadataStore.swift:312-325 | New cache and resumed tasks are those of the specification |
| `AskToBuyActors.PendingPurchaseContextCache.Remove` | crates/tauri-plugin-revenuecat/ios/Sources/RevenueCatPlugin/LocalTransactionMetadataStore.swift:327-330 | New cache is that of the specification |
| `PurchasesResults.ReceiptsFollowIdentity` | crates/revenuecat/src/purchases.rs:298-606 | In every run of logins, logouts, purchases (deferred ones and half-failed ones included), syncs of any mode, restarts, crashes and store events: a receipt launched here is posted under whoever the identity changes and restarts since its launch lead to, with none in between unless it was deferred, already finished, or outlived its instance; each finish directly follows the accepted post of the same token and user; the pending flag agrees with the pending transition; and the two barriers never hold together |
| `PurchasesResults.MispostedExactly` | crates/revenuecat/src/purchases.rs:535-558 | In every such run a receipt goes under another user than its launcher if and only if the last identity change or restart between the launch and the post led away from the launcher; and then it was already finished, or the store had deferred it, or the instance that launched it had ended |
| `PurchasesResults.SyncMispostsExactly` | crates/revenuecat/src/purchases.rs:523-594 | A sync, however it ends, posts a prefix of what it queried under the current user, all of it when it succeeds; so it misposts if and only if that prefix holds a transaction launched by somebody else, which is either finished history behind a full query, or unfinished and either deferred or launched by an instance that has ended |
| `PurchasesResults.PurchasePostsItsOwn` | crates/revenuecat/src/purchases.rs:390-425 | A purchase posts at most the receipt of its own transaction, under the user who launched it |
| `PurchasesResults.ReceiptsBelongToLauncher` | crates/revenuecat/src/purchases.rs:524-533 | While syncs query the unfinished queue alone and the store defers no purchase, every receipt is posted under its launcher as long as the instance that launched it lives, over all runs with failures, logins, crashes and restarts |
| `PurchasesResults.FullSyncsChangeHands` | crates/tauri-plugin-revenuecat/ios/Sources/RevenueCatPlugin/RevenueCatPlugin.swift:399-424 | The first condition is needed: a buys, everything succeeds, b logs in and restores or syncs fully, and the receipt of a is posted under b |
| `PurchasesResults.DeferredPurchasesChangeHands` | crates/tauri-plugin-revenuecat/ios/Sources/RevenueCatPlugin/RevenueCatPlugin.swift:379-381 | The second condition is needed: the purchase of a is deferred, an empty sync ends the recovery, b logs in, the purchase is approved, and the next sync posts it under b |
| `PurchasesResults.DeathsChangeHands` | crates/revenuecat/src/purchases.rs:170-170 | So is the third: the process dies with the purchase of a made and not posted, restarts as a with the recovery flag fresh, b logs in, and the next sync posts it under b |
| `PurchasesResults.FailedSyncStaysArmed` | crates/revenuecat/src/purchases.rs:515-550 | After a failed sync of any mode memory is as before, except that recovery is required if it was, if the sync is not an explicit restore, or if the query returned a purchase; an explicit restore whose query fails or finds nothing arms nothing |
| `PurchasesResults.BlockedUntilRetried` | crates/revenuecat/src/purchases/identity_operations.rs:195-211 | From every reachable state with a pending transition, along every run without its own tracked retry and without a crash: the identity file, the user, the pending record, both flags and the whole log stay exactly as they are, and the queue only grows |
| `PurchasesResults.HeldUntilRecovered` | crates/revenuecat/src/purchases.rs:298-347 | From every reachable state with a required recovery, along every run in which the process lives and no sync goes through: memory stays exactly as it is, and nothing is logged but receipts and refreshes of the one user |
| `PurchasesOutcomes.RefusedPurchase` | crates/revenuecat/src/purchases.rs:349-372 | Without an instance, with a barrier up or for an input the SDK refuses, a purchase changes nothing and fails |
| `PurchasesOutcomes.PurchaseSucceedsExactly` | crates/revenuecat/src/purchases.rs:349-473 | A purchase succeeds exactly if an instance exists with both barriers down, the input is accepted, the store returns, the post is answered and accepted, the finish goes through and the plan matches |
| `PurchasesOutcomes.PlanDecidesAnswer` | crates/revenuecat/src/purchases.rs:461-473 | A mismatched plan fails over the same world in which a matching one succeeds |
| `PurchasesOutcomes.PurchaseThatWentThrough` | crates/revenuecat/src/purchases.rs:420-473 | That world has no recovery required, nothing of the token in the queue, the finished purchase in the history and its post in the log |
| `PurchasesOutcomes.StoppedPurchase` | crates/revenuecat/src/purchases.rs:373-456 | A purchase that stops on the way leaves recovery required (or no process), and its transaction where it stopped |
| `PurchasesOutcomes.SyncSucceedsExactly` | crates/revenuecat/src/purchases.rs:503-606 | A sync succeeds exactly if no transition is pending, the query works, and every purchase found is accepted and finished, or, with none found, the refresh works; recovery is then over |
| `PurchasesOutcomes.RefusedSync` | crates/revenuecat/src/purchases.rs:503-516 | A sync over a pending transition changes nothing |
| `PurchasesOutcomes.LoginSucceedsExactly` | crates/revenuecat/src/purchases/identity_operations.rs:41-93 | A login to another user succeeds exactly if the id is valid, no recovery is required, nothing else is pending, and record, call and commit work; then file, memory and log are those of the new user |
| `PurchasesOutcomes.LoginToSelf` | crates/revenuecat/src/purchases/identity_operations.rs:71-77 | A login to the active user only settles the file and refreshes; it sends no login and needs no finished recovery |
| `PurchasesOutcomes.RefusedLogin` | crates/revenuecat/src/purchases/identity_operations.rs:53-70 | Which logins change nothing |
| `PurchasesOutcomes.LogoutSucceedsExactly` | crates/revenuecat/src/purchases/identity_operations.rs:140-193 | A logout succeeds exactly if the user is not anonymous, no recovery is required, nothing else is pending, and record, call and commit work; it ends on the resumed id, the pending one, or the generated one |
| `PurchasesOutcomes.RefusedLogout` | crates/revenuecat/src/purchases/identity_operations.rs:130-160 | Which logouts change nothing |
| `PurchasesOutcomes.LoginCommandRuns` | crates/tauri-plugin-revenuecat/src/commands.rs:472-513 | The command logs in exactly if the file it read can be understood and names no transition but this login |
| `PurchasesOutcomes.LogoutCommandRuns` | crates/tauri-plugin-revenuecat/src/commands.rs:516-561 | The command resumes the logout it read, starts one if it read none, and is refused by a login |
| `PurchasesOutcomes.FilesRead` | crates/tauri-plugin-revenuecat/src/commands/identity_persistence.rs:83-113 | What each file is read as; an invalid identity fails |
| `PurchasesOutcomes.WritesRead` | crates/tauri-plugin-revenuecat/src/commands/identity_persistence.rs:115-159 | A write that reports success is read back; one that fails leaves the old file or the new one |
| `PurchasesOutcomes.RefusedConfigure` | crates/tauri-plugin-revenuecat/src/commands.rs:294-319 | A configured process is left alone; an unreadable file, a failed setup, or an id other than that of a pending transition changes nothing |
| `PurchasesOutcomes.ConfigureSettlesExactly` | crates/tauri-plugin-revenuecat/src/commands.rs:294-383 | Without a pending transition a configuration succeeds exactly if the setup, the id and the write do, on the given id, else the file's, else a generated one |
| `PurchasesOutcomes.ConfigureResumesExactly` | crates/tauri-plugin-revenuecat/src/commands.rs:271-413 | With one it succeeds exactly if the transition can be resumed and its calls and writes work, and ends settled on its target |
| `PurchasesTheorems.SyncFinishesPrefix` | crates/revenuecat/src/purchases.rs:548-606 | A sync finishes exactly a prefix of the queried list, in order; after a failure only the finish that reported it is in doubt, and the barrier and the user are unchanged |
| `PurchasesTheorems.InvAlong` | crates/revenuecat/src/purchases.rs:298-606 | The invariant behind these holds after every run |
| `IdentityTheorems.LoginsAreWriteAhead` | crates/revenuecat/src/purchases/identity_operations.rs:41-93 | Whatever fails or crashes, every login request was sent with transitioning(from, to, LogIn) on disk, and the file names only the current user and its pending transition |
| `IdentityTheorems.AcceptanceLogsIn` | crates/tauri-plugin-revenuecat/src/commands.rs:472-513 | However a login command ends after the backend accepted it, the file is that transition or settled on the new user |
| `IdentityTheorems.AcceptedLoginSurvives` | crates/tauri-plugin-revenuecat/src/commands.rs:271-319 | From acceptance until another identity change is begun, the file is that transition or settled(b): under crashes at any step, writes that fail before or after landing, retries and restarts |
| `IdentityTheorems.AcceptedLoginSurvivesUntilCommit` | crates/tauri-plugin-revenuecat/src/commands/identity_persistence.rs:83-159 | In any run of commands, restarts under any id and crashes, the accepted login stays on disk, pending, settled or under a later prepared change, until another identity change commits |
| `IdentityTheorems.RestartEndsOnTarget` | crates/tauri-plugin-revenuecat/src/commands.rs:339-413 | A restart naming no other id ends on b when it succeeds, is resumable when it fails, and succeeds when its calls do |
| `IdentityTheorems.BarriersLift` | crates/revenuecat/src/purchases/identity_operations.rs:151-257 | From every reachable configured state one retry of the pending operation, or one sync, whose calls succeed lifts both barriers |
| `IdentityTheorems.HostInvAlong` | crates/tauri-plugin-revenuecat/src/commands/identity_persistence.rs:83-159 | File and memory agree after every run of commands |
| `IdentityModel.AnonymousIdsAreValid` | crates/revenuecat/src/identity.rs:18-36 | Every anonymous id passes the validation of durable identities |
| `IdentityIds.ValidIdsExactly` | crates/revenuecat/src/identity.rs:34-36 | An id is valid exactly if it has a character that is not white space and at most 1024 bytes in UTF-8, counted on the encoded bytes |
| `IdentityIds.AnonymousIdsExactly` | crates/revenuecat/src/identity.rs:22-32 | The anonymous ids are exactly the prefix with 32 lower-case hexadecimal digits |
| `IdentityIds.Utf8Decodes` | crates/revenuecat/src/identity.rs:34-36 | The encoding those bytes are counted in gives each character back |
| `PurchasesClient.Purchases.Write` | crates/tauri-plugin-revenuecat/src/commands/identity_persistence.rs:118-159 | File and outcome are those of the specification for each way a write can end |
| `PurchasesClient.Purchases.Prepare` | crates/tauri-plugin-revenuecat/src/commands.rs:489-499 | Only a command writes the transition ahead |
| `PurchasesClient.Purchases.Commit` | crates/tauri-plugin-revenuecat/src/commands.rs:500-506 | A tracked operation writes the settled identity |
| `PurchasesClient.Purchases.EnsureIdentityTransitionAllowed` | crates/revenuecat/src/purchases/identity_operations.rs:195-211 | Allowed exactly when nothing is pending or the tracked operation is the pending one |
| `PurchasesClient.Purchases.MarkDurableIdentityTransition` | crates/revenuecat/src/purchases/identity_operations.rs:213-233 | Record and flag are set together, for tracked operations only |
| `PurchasesClient.Purchases.ClearDurableIdentityTransition` | crates/revenuecat/src/purchases/identity_operations.rs:235-246 | Record and flag are cleared together, for tracked operations only |
| `PurchasesClient.Purchases.RunTransition` | crates/revenuecat/src/purchases/identity_operations.rs:78-91 | Mark, prepare, call, commit, switch and clear end in the specified world for every failure point |
| `PurchasesClient.Purchases.CommitTransition` | crates/revenuecat/src/purchases/identity_operations.rs:87-89 | Only a commit that was reported done switches the user and clears what was pending |
| `PurchasesClient.Purchases.LogInInternal` | crates/revenuecat/src/purchases/identity_operations.rs:41-93 | World and outcome are those of the specification |
| `PurchasesClient.Purchases.LogOutInternal` | crates/revenuecat/src/purchases/identity_operations.rs:140-193 | World and outcome are those of the specification |
| `PurchasesClient.Purchases.LogInCommand` | crates/tauri-plugin-revenuecat/src/commands.rs:472-513 | World and outcome are those of the specification |
| `PurchasesClient.Purchases.LogOutCommand` | crates/tauri-plugin-revenuecat/src/commands.rs:516-561 | World and outcome are those of the specification |
| `PurchasesClient.Purchases.ResumePersistedIdentityTransition` | crates/tauri-plugin-revenuecat/src/commands.rs:385-413 | World and outcome are those of the specification |
| `PurchasesClient.Purchases.Configure` | crates/tauri-plugin-revenuecat/src/commands.rs:339-383 | World and outcome are those of the specification; a failed configuration leaves no instance |
| `PurchasesClient.Purchases.SettleInitialIdentity` | crates/tauri-plugin-revenuecat/src/commands.rs:271-287 | The settled identity is written or the instance dropped |
| `PurchasesClient.Purchases.EnsureReceiptOperationsReady` | crates/revenuecat/src/purchases.rs:641-657 | Ready exactly when neither barrier is up |
| `PurchasesClient.Purchases.FinishTransaction` | crates/revenuecat/src/purchases.rs:446-456 | The queue loses exactly the finished token, and the history gains it |
| `PurchasesClient.Purchases.PostReceiptThenFinish` | crates/revenuecat/src/purchases.rs:420-456 | Post, then finish only when accepted; the world is that of the specification |
| `PurchasesClient.Purchases.PurchaseInternal` | crates/revenuecat/src/purchases.rs:349-473 | World and outcome are those of the specification: the barrier is armed before the store opens, the purchase may be deferred, and a mismatched base plan fails it after everything went through; PurchaseSucceedsExactly states the answer outright |
| `PurchasesClient.Purchases.PostQueue` | crates/revenuecat/src/purchases.rs:553-594 | The receipt loop reaches the world, count and outcome of the specification |
| `PurchasesClient.Purchases.SyncStorePurchases` | crates/revenuecat/src/purchases.rs:503-606 | World and outcome are those of the specification; only the pending-queue mode leaves finished history out of the query |
| `PackageRegistryTheorems.LookupRefinesHistory` | crates/revenuecat/src/purchases/store_options.rs:112-184 | Every lookup answers what the full history answers, or an error; and exactly that while at most 256 distinct fingerprints were ever remembered |
| `PackageRegistryTheorems.IssuedNeverPlanless` | crates/revenuecat/src/purchases/store_options.rs:109-139 | A package that was ever issued is answered without a plan only if it was issued without one for this user |
| `PackageRegistryTheorems.StorageIsBounded` | crates/revenuecat/src/purchases/store_options.rs:188-224 | At most 2*256 options per user and 256 known packages, in every run |
| `PackageRegistryTheorems.CountIsDistinct` | crates/revenuecat/src/purchases/store_options.rs:192-200 | The counter kept beside the list is the number of distinct fingerprints in it |
| `PackageRegistryTheorems.RunAgrees` | crates/revenuecat/src/purchases/store_options.rs:149-183 | What is kept about every fingerprint matches the full history, or was dropped with the bound full |
| `PackageRegistryResults.LookupExactly` | crates/revenuecat/src/purchases/store_options.rs:150-184 | In every run, exactly what a lookup answers: for the first 256 packages given to the user since the last clear, the one plan given or that it changed; for any other package, stale if it was ever given to anybody or if more than 256 were, else no plan |
| `PackageRegistryResults.KeepsTheFirst` | crates/revenuecat/src/purchases/store_options.rs:188-224 | A user keeps the first 256 different packages given since the last clear, and no other |
| `PackageRegistryResults.KnowsExactly` | crates/revenuecat/src/purchases/store_options.rs:119-138 | A package counts as issued exactly if it was ever given, or if more than 256 different ones were |
| `PackageRegistryResults.ClearsMakeStale` | crates/revenuecat/src/purchases/store_options.rs:179-181 | After a clear every package given before is stale for every user |
| `PackageRegistry.CollectMatching` | crates/revenuecat/src/purchases/store_options.rs:203-206 | The filtered list is the specification's, in order |
| `PackageRegistry.CountFingerprints` | crates/revenuecat/src/purchases/store_options.rs:192-200 | The quadratic count is the specification's |
| `PackageRegistry.RememberStorePurchaseOptions` | crates/revenuecat/src/purchases/store_options.rs:188-224 | The loop with its running counter computes the specification's fold |
| `PackageRegistry.StorePurchaseOptionForPackage` | crates/revenuecat/src/purchases/store_options.rs:262-288 | First match, conflict, or absence, as specified |
| `PackageRegistry.KnownStorePackages.Remember` | crates/revenuecat/src/purchases/store_options.rs:119-134 | New state is the specification's fold |
| `PackageRegistry.KnownStorePackages.Knows` | crates/revenuecat/src/purchases/store_options.rs:121-127 | True exactly when the fingerprint is listed |
| `PackageRegistry.KnownStorePackages.ContainsPackage` | crates/revenuecat/src/purchases/store_options.rs:136-138 | True exactly when saturated or listed |
| `PackageRegistry.StorePurchaseOptionRegistry.Remember` | crates/revenuecat/src/purchases/store_options.rs:150-162 | Both parts of the registry move as specified |
| `PackageRegistry.StorePurchaseOptionRegistry.PurchaseOptionForPackage` | crates/revenuecat/src/purchases/store_options.rs:164-177 | The lookup is the specification's |
| `PackageRegistry.StorePurchaseOptionRegistry.ClearIdentityScopedOptions` | crates/revenuecat/src/purchases/store_options.rs:179-181 | Only the per-user options are cleared |
| `GuestSchedulerTheorems.RecoveryHasDriver` | crates/tauri-plugin-revenuecat/guest-js/index.ts:321-330 | At every await boundary of every run, a required recovery has a run in flight or settling, a timer, or a queued request behind an explicit purchase |
| `GuestSchedulerTheorems.FullSyncStaysRecorded` | crates/tauri-plugin-revenuecat/guest-js/index.ts:449-479 | A requested full sync not yet served is recorded in the flag, in the timer, or as the full sync in flight |
| `GuestSchedulerTheorems.OnlyFullSyncsServe` | crates/tauri-plugin-revenuecat/guest-js/index.ts:463-480 | Only the success of a full sync serves requests, and only those made before it began |
| `GuestSchedulerTheorems.CoversFixedAtStart` | crates/tauri-plugin-revenuecat/guest-js/index.ts:499-502 | What a sync will serve is fixed when it begins |
| `GuestSchedulerTheorems.AttemptsAreBounded` | crates/tauri-plugin-revenuecat/guest-js/index.ts:436-461 | At most three attempts per sync; the retry delay stays between 15 seconds and 15 minutes |
| `GuestSchedulerTheorems.SettlesOnSuccess` | crates/tauri-plugin-revenuecat/guest-js/index.ts:493-525 | From every reachable state, once purchases end and syncs succeed, a bounded number of steps leads to rest with no recovery required and every full sync served |
| `GuestSchedulerTheorems.StepKeeps` | crates/tauri-plugin-revenuecat/guest-js/index.ts:449-590 | Every event keeps the scheduler's invariant |
| `GuestSchedulerResults.DemandHeldUntilServed` | crates/tauri-plugin-revenuecat/guest-js/index.ts:373-376 | After a transaction update, a configuration or a failed purchase, recovery stays required in every run until a sync that began after that succeeds |
| `GuestSchedulerResults.FullDemandHeldUntilServed` | crates/tauri-plugin-revenuecat/guest-js/index.ts:536-543 | After a Play configuration a full sync stays recorded in every run until a full one that began after it succeeds |
| `GuestSchedulerResults.DemandBeginsAtOnce` | crates/tauri-plugin-revenuecat/guest-js/index.ts:493-503 | In every reachable state at rest with no purchase open, such a demand begins its sync at once, full exactly for a Play configuration or a full one already queued |
| `GuestSchedulerResults.AwaitingStartsOne` | crates/tauri-plugin-revenuecat/guest-js/index.ts:482-491 | Waiting for recovery starts a sync exactly when one is required, none runs and no purchase is open |
| `GuestSchedulerResults.NoFullSyncUnasked` | crates/tauri-plugin-revenuecat/guest-js/index.ts:493-503 | Until a Play configuration asks for it, no sync is full |
| `GuestSchedulerResults.QueueDecidesKind` | crates/tauri-plugin-revenuecat/guest-js/index.ts:499-503 | A sync is full exactly if a full one was asked for since the queue was last taken |
| `GuestSchedulerResults.GivesUpAfterThree` | crates/tauri-plugin-revenuecat/guest-js/index.ts:503-520 | The third failed attempt, and no earlier one, ends the sync in a retry timer that carries every full request on |
| `GuestSchedulerResults.SuccessEndsRecovery` | crates/tauri-plugin-revenuecat/guest-js/index.ts:463-480 | A success ends timer and recovery, exactly unless another sync is owed, which then begins |
| `GuestSchedulerResults.DelayIsExponential` | crates/tauri-plugin-revenuecat/guest-js/index.ts:436-461 | In every run the retry delay is 15 seconds doubled for each timer since the last success, at most 15 minutes |
| `GuestSchedulerResults.PurchasesHoldRunsBack` | crates/tauri-plugin-revenuecat/guest-js/index.ts:554-590 | While a purchase is open no run starts and what is asked for is queued |
| `GuestSchedulerResults.LastPurchaseReleases` | crates/tauri-plugin-revenuecat/guest-js/index.ts:577-590 | The end of the last purchase starts a sync exactly if it failed or one was queued |
| `GuestScheduler.NativeSync.ContinueRun` | crates/tauri-plugin-revenuecat/guest-js/index.ts:499-503 | One turn of the loop takes the queued request or leaves |
| `GuestScheduler.NativeSync.RequestNativeSync` | crates/tauri-plugin-revenuecat/guest-js/index.ts:493-498 | New state is that of the specification |
| `GuestScheduler.NativeSync.ScheduleNativeSyncRetry` | crates/tauri-plugin-revenuecat/guest-js/index.ts:449-461 | New state is that of the specification |
| `GuestScheduler.NativeSync.TimerCallback` | crates/tauri-plugin-revenuecat/guest-js/index.ts:453-458 | New state is that of the specification |
| `GuestScheduler.NativeSync.RecordNativeSyncSuccess` | crates/tauri-plugin-revenuecat/guest-js/index.ts:463-480 | New state is that of the specification |
| `GuestScheduler.NativeSync.AttemptEnded` | crates/tauri-plugin-revenuecat/guest-js/index.ts:503-520 | Success, another attempt, or the retry timer, as specified |
| `GuestScheduler.NativeSync.FinallyCallback` | crates/tauri-plugin-revenuecat/guest-js/index.ts:521-524 | New state is that of the specification |
| `GuestScheduler.NativeSync.OnNativeEvent` | crates/tauri-plugin-revenuecat/guest-js/index.ts:373-376 | New state is that of the specification: recovery required and a sync requested; DemandHeldUntilServed states what that comes to |
| `GuestScheduler.NativeSync.OnConfigured` | crates/tauri-plugin-revenuecat/guest-js/index.ts:541-542 | New state is that of the specification |
| `GuestScheduler.NativeSync.WaitForNativeRecovery` | crates/tauri-plugin-revenuecat/guest-js/index.ts:482-485 | New state is that of the specification |
| `GuestScheduler.NativeSync.PurchaseEnded` | crates/tauri-plugin-revenuecat/guest-js/index.ts:577-589 | Catch and finally together move as specified |
| `EtagTheorems.GetReturnsCurrentBody` | crates/revenuecat-mock/src/server.rs:870-894 | After any run of calls, over any history of bodies, failures and rate limits, a successful GET returns the body the server has at its last exchange, except exactly when that exchange was a forced 304 over a stale entry |
| `EtagTheorems.ForcedAnswerCanBeStale` | crates/revenuecat-mock/src/server.rs:881-892 | The exception is real: a forced 304 replays the older body |
| `EtagTheorems.AtMostFourExchanges` | crates/revenuecat/src/http/client.rs:243-301 | Every call ends after one to four exchanges, after at most two when it is not retryable |
| `EtagTheorems.OnlyTrustedEntries` | crates/revenuecat/src/http/client.rs:423-428 | Entries of verified endpoints are always Verified, and no entry comes from a failed verification |
| `EtagTheorems.EnforcedSuccessIsVerified` | crates/revenuecat/src/http/client.rs:474-526 | Under enforcement every success of a verified endpoint, fresh or replayed, is Verified |
| `EtagTheorems.CacheStaysCoherent` | crates/revenuecat/src/http/etag.rs:70-89 | After any run every entry carries its own body's tag |
| `EtagTheorems.MissingEntryIsRefetched` | crates/revenuecat/src/http/client.rs:265-291 | A 304 without an entry costs one forced exchange and then returns the current body |
| `EtagResults.AnswersDecide` | crates/revenuecat/src/http/client.rs:243-301 | If the exchanges before one are rate limited and the call may still retry, that one decides: the call ends with its answer and count, or after a 304 that replays nothing with the answer to one more exchange without a tag; every other exchange carries the entry's tag exactly if it may be revalidated |
| `EtagResults.LimitsRunOut` | crates/revenuecat/src/http/client.rs:288-299 | Three rate limits, or one for a call that is not retryable, end it with that error after exactly so many exchanges |
| `EtagResults.RevalidatesOrReplaces` | crates/revenuecat/src/http/etag.rs:43-89 | Against the server one signed exchange brings the current body and leaves a current entry; the body travels exactly when the entry is missing, unusable or stale |
| `EtagResults.RefusalsAreReported` | crates/revenuecat-mock/src/server.rs:870-894 | A call that is not retryable reports a refusal, a drop and a limit as what they are |
| `EtagClient.ETagManager.RequestHeader` | crates/revenuecat/src/http/etag.rs:43-60 | The tag sent is the specification's |
| `EtagClient.ETagManager.Get` | crates/revenuecat/src/http/etag.rs:62-68 | The stored entry, if any |
| `EtagClient.ETagManager.StoreEntry` | crates/revenuecat/src/http/etag.rs:70-89 | Exactly one entry is replaced |
| `EtagClient.HttpClient.Verify` | crates/revenuecat/src/http/client.rs:474-526 | The verdict is the specification's |
| `EtagClient.HttpClient.PerformExchange` | crates/revenuecat/src/http/client.rs:305-435 | Entries and outcome of one exchange are those of the specification |
| `EtagClient.HttpClient.RequestCall` | crates/revenuecat/src/http/client.rs:216-302 | Entries, result and number of exchanges of the retry loop are those of the specification, which AnswersDecide and LimitsRunOut state outright |
| `Decimals.ParsePrint` | crates/tauri-plugin-revenuecat/android/src/main/java/app/tauri/revenuecat/SharedPreferencesLocalTransactionMetadataStore.kt:92-93 | Parsing a printed number gives it back exactly when it is in range |
| `JournalKeys.NamesDiffer` | crates/tauri-plugin-revenuecat/android/src/main/java/app/tauri/revenuecat/SharedPreferencesLocalTransactionMetadataStore.kt:114-149 | Distinct keys (header, record index, field, product index) have distinct property names |
| `JournalCodecTheorems.ReplaceThenLoad` | crates/tauri-plugin-revenuecat/android/src/main/java/app/tauri/revenuecat/SharedPreferencesLocalTransactionMetadataStore.kt:39-70 | Whenever replace reports success, the next load returns exactly that list and is not corrupt |
| `JournalCodecTheorems.DecodeEncode` | crates/tauri-plugin-revenuecat/android/src/main/java/app/tauri/revenuecat/SharedPreferencesLocalTransactionMetadataStore.kt:76-98 | Decoding an encoded list of valid records gives the list back, records and product order included |
| `JournalCodecTheorems.LoadedRecordsAreValid` | crates/tauri-plugin-revenuecat/android/src/main/java/app/tauri/revenuecat/SharedPreferencesLocalTransactionMetadataStore.kt:151-171 | Whatever the preference holds, a load returns at most 32 records, all of which replace accepts |
| `JournalCodecTheorems.LoadThenReplace` | crates/tauri-plugin-revenuecat/android/src/main/java/app/tauri/revenuecat/SharedPreferencesLocalTransactionMetadataStore.kt:39-70 | Storing what was loaded succeeds exactly when its text is not too long, and changes nothing |
| `JournalCodecTheorems.CodecRefinesJournal` | crates/tauri-plugin-revenuecat/android/src/main/java/app/tauri/revenuecat/PendingPurchaseStore.kt:142-152 | The codec meets what the correlation store's proofs assume of the journal |
| `JournalCodecTheorems.MetadataWritten` | crates/tauri-plugin-revenuecat/android/src/main/java/app/tauri/revenuecat/SharedPreferencesLocalTransactionMetadataStore.kt:114-149 | Writing a record sets exactly that record's properties |
| `JournalCodecTheorems.ReadRecord` | crates/tauri-plugin-revenuecat/android/src/main/java/app/tauri/revenuecat/SharedPreferencesLocalTransactionMetadataStore.kt:151-213 | A valid record is read back from its properties |
| `JournalReads.LoadsExactly` | crates/tauri-plugin-revenuecat/android/src/main/java/app/tauri/revenuecat/SharedPreferencesLocalTransactionMetadataStore.kt:39-57 | A preference loads clean exactly if there is none, or text within the limit whose properties are a list; else it is corrupt and empty |
| `JournalReads.ListReadExactly` | crates/tauri-plugin-revenuecat/android/src/main/java/app/tauri/revenuecat/SharedPreferencesLocalTransactionMetadataStore.kt:76-85 | Properties are a list exactly if they carry version 1, its length, at most 32, and each record at its index |
| `JournalReads.RecordReadExactly` | crates/tauri-plugin-revenuecat/android/src/main/java/app/tauri/revenuecat/SharedPreferencesLocalTransactionMetadataStore.kt:151-213 | A record is read exactly if its properties show it, field by field, and it is acceptable |
| `JournalReads.StoresExactly` | crates/tauri-plugin-revenuecat/android/src/main/java/app/tauri/revenuecat/SharedPreferencesLocalTransactionMetadataStore.kt:62-74 | A list is stored exactly if it has at most 32 records, all acceptable, its text is not too long and the commit works; else what stays |
| `JournalReads.ValidIsAcceptable` | crates/tauri-plugin-revenuecat/android/src/main/java/app/tauri/revenuecat/SharedPreferencesLocalTransactionMetadataStore.kt:100-112 | The validation accepts exactly the records with a token and one to 32 products of bounded length and a complete context of one of them |
| `JournalReads.ParsesNumerals` | crates/tauri-plugin-revenuecat/android/src/main/java/app/tauri/revenuecat/SharedPreferencesLocalTransactionMetadataStore.kt:80-82 | An optional sign and digits are parsed exactly if their value is in range |
| `JournalReads.OnlyNumeralsParse` | crates/tauri-plugin-revenuecat/android/src/main/java/app/tauri/revenuecat/SharedPreferencesLocalTransactionMetadataStore.kt:80-82 | Nothing else is parsed |
| `JournalStore.EncodeMetadata` | crates/tauri-plugin-revenuecat/android/src/main/java/app/tauri/revenuecat/SharedPreferencesLocalTransactionMetadataStore.kt:87-98 | The filled property table is the encoding of the specification |
| `JournalStore.DecodeRecords` | crates/tauri-plugin-revenuecat/android/src/main/java/app/tauri/revenuecat/SharedPreferencesLocalTransactionMetadataStore.kt:82-84 | All records, or none when one is unreadable |
| `JournalStore.PropertyTable.WriteRecord` | crates/tauri-plugin-revenuecat/android/src/main/java/app/tauri/revenuecat/SharedPreferencesLocalTransactionMetadataStore.kt:114-126 | The table after the loop over products is the specification's |
| `JournalStore.PropertyTable.WritePurchaseContext` | crates/tauri-plugin-revenuecat/android/src/main/java/app/tauri/revenuecat/SharedPreferencesLocalTransactionMetadataStore.kt:128-134 | The table afterwards is the specification's |
| `JournalStore.PropertyTable.WriteReceipt` | crates/tauri-plugin-revenuecat/android/src/main/java/app/tauri/revenuecat/SharedPreferencesLocalTransactionMetadataStore.kt:136-149 | The table afterwards is the specification's |
| `JournalStore.LocalTransactionMetadataStore.LoadAll` | crates/tauri-plugin-revenuecat/android/src/main/java/app/tauri/revenuecat/SharedPreferencesLocalTransactionMetadataStore.kt:39-57 | The load result is the specification's |
| `JournalStore.LocalTransactionMetadataStore.ReplaceAll` | crates/tauri-plugin-revenuecat/android/src/main/java/app/tauri/revenuecat/SharedPreferencesLocalTransactionMetadataStore.kt:60-70 | The preference afterwards and the answer are the specification's |
| `DiagnosticsTheorems.NothingTwiceOrOutOfOrder` | crates/revenuecat/src/diagnostics.rs:47-68 | However tracking, posting and failures interleave, acknowledged batches, the batch in flight and the queue together follow the order of tracking without a repeat |
| `DiagnosticsTheorems.OneBatchAndBoundedQueue` | crates/revenuecat/src/diagnostics.rs:109-158 | At most one batch is out; the queue holds at most 2000 entries while one is, 2200 otherwise; the failure count stays below three plus the number of flushes that have cleared the queue and not yet reset it |
| `DiagnosticsTheorems.OnlyClearsLose` | crates/revenuecat/src/diagnostics.rs:123-158 | Nothing queued or in flight is lost except by a full queue, a fatal failure, or a retryable failure counted third; or counted later, but only while another flush's reset is outstanding |
| `DiagnosticsTheorems.LateResetClears` | crates/revenuecat/src/diagnostics.rs:130-147 | That does happen: between the release of the flag and the reset of the count, another flush's new entry is cleared on its own first failure, counted fourth |
| `DiagnosticsTheorems.FlushPostsEverything` | crates/revenuecat/src/purchases/customer_operations.rs:102-110 | An all-success flush with nothing tracked meanwhile posts ceil(n/200) batches whose concatenation is the queue |
| `DiagnosticsTheorems.EntriesAreUnaltered` | crates/revenuecat/src/diagnostics.rs:47-68 | In every run, whatever is accepted, out or queued is an entry exactly as it was tracked (name, properties, time, session, version) or one of the three markers |
| `DiagnosticsTheorems.DisabledRecordsNothing` | crates/revenuecat/src/diagnostics.rs:47-50 | A disabled tracker never holds or sends anything |
| `DiagnosticsTheorems.FlushKeepsOnRetry` | crates/revenuecat/src/purchases/customer_operations.rs:111-119 | A flush stopped by a retryable failure that clears nothing keeps every entry not acknowledged, in order |
| `DiagnosticsResults.EveryClearIsReported` | crates/revenuecat/src/diagnostics.rs:47-158 | However the calls interleave, the clears of each kind are as many as their reports made plus those still due from a pending reset or marker |
| `DiagnosticsResults.TracksExactly` | crates/revenuecat/src/diagnostics.rs:47-68 | A whole call appends one entry under a new id; at 2000 it leaves only the marker; disabled, nothing |
| `DiagnosticsResults.BatchEndsExactly` | crates/revenuecat/src/diagnostics.rs:123-158 | What each end of a batch leaves queued and counted: a fatal failure or the third in a row leaves at most its marker, any other failure puts the batch first again |
| `DiagnosticsResults.FlushPostsExactly` | crates/revenuecat/src/purchases/customer_operations.rs:102-105 | A flush posts the queue's batches of 200 in order, all of them if it succeeds |
| `DiagnosticsResults.FlushAnswersExactly` | crates/revenuecat/src/purchases/customer_operations.rs:102-127 | It succeeds exactly if every batch it posts is accepted, and stops at the first that is not |
| `DiagnosticsResults.FlushStopsExactly` | crates/revenuecat/src/purchases/customer_operations.rs:111-124 | A failed flush keeps the failed batch and everything after it, or, fatally or for the third time, only the marker |
| `DiagnosticsResults.FlushSucceedsExactly` | crates/revenuecat/src/purchases/customer_operations.rs:102-127 | A flush that succeeds leaves an empty queue and no failures counted |
| `DiagnosticsResults.TurnsAreCalls` | crates/revenuecat/src/diagnostics.rs:47-158 | The turns that may interleave, run without interruption, are the whole calls and owe nothing more |
| `DiagnosticsResults.ReportIsQueued` | crates/revenuecat/src/diagnostics.rs:47-68 | A report joins the queue as its marker, or clears a full queue and is due again |
| `Diagnostics.DiagnosticsTracker.TrackEntry` | crates/revenuecat/src/diagnostics.rs:47-68 | New queue is that of the specification |
| `Diagnostics.DiagnosticsTracker.Take` | crates/revenuecat/src/diagnostics.rs:109-120 | Batch and queue are those of the specification |
| `Diagnostics.DiagnosticsTracker.Succeeded` | crates/revenuecat/src/diagnostics.rs:123-126 | New state is that of the specification |
| `Diagnostics.DiagnosticsTracker.FailedRetryable` | crates/revenuecat/src/diagnostics.rs:130-147 | New state is that of the specification |
| `Diagnostics.DiagnosticsTracker.FailedFatal` | crates/revenuecat/src/diagnostics.rs:150-158 | New state is that of the specification |
| `Diagnostics.FlushDiagnostics` | crates/revenuecat/src/purchases/customer_operations.rs:102-127 | Tracker, posted batches and outcome of the loop are those of the specification |
| `PurchaseGateModel.GateAccounts` | crates/tauri-plugin-revenuecat/ios/Sources/RevenueCatPlugin/RevenueCatPlugin.swift:149-193 | In every run: nothing is held back while no purchase runs, at most 32 ids are remembered, and every id noted is remembered, pushed out, or was used up by exactly one update |
| `PurchaseGateModel.SuppressedIsPaired` | crates/tauri-plugin-revenuecat/ios/Sources/RevenueCatPlugin/RevenueCatPlugin.swift:163-192 | In every run, an update answered "do not notify" either uses up the entry one earlier end noted for its id, which no other update ever uses, or it was deferred, and then the first end after it notifies or names it, or it is still waiting in the running purchase |
| `PurchaseGateModel.AdmitsExactly` | crates/tauri-plugin-revenuecat/ios/Sources/RevenueCatPlugin/RevenueCatPlugin.swift:155-161 | In every run a purchase is admitted exactly if none is open |
| `PurchaseGateModel.NotifiesExactly` | crates/tauri-plugin-revenuecat/ios/Sources/RevenueCatPlugin/RevenueCatPlugin.swift:163-173 | In every run an update is let through exactly if no purchase is open and no end that noted its id is left over |
| `PurchaseGateModel.NotifyingEndIsPaired` | crates/tauri-plugin-revenuecat/ios/Sources/RevenueCatPlugin/RevenueCatPlugin.swift:177-192 | In every run, an end that notifies answers for an update its own purchase deferred and that it does not name |
| `PurchaseGate.Actor.BeginPurchase` | crates/tauri-plugin-revenuecat/ios/Sources/RevenueCatPlugin/RevenueCatPlugin.swift:155-161 | New state and answer are those of the specification |
| `PurchaseGate.Actor.NotifyUpdate` | crates/tauri-plugin-revenuecat/ios/Sources/RevenueCatPlugin/RevenueCatPlugin.swift:163-173 | New state and answer are those of the specification |
| `PurchaseGate.Actor.RememberCompleted` | crates/tauri-plugin-revenuecat/ios/Sources/RevenueCatPlugin/RevenueCatPlugin.swift:180-187 | The list keeps its last 32 ids |
| `PurchaseGate.Actor.EndPurchase` | crates/tauri-plugin-revenuecat/ios/Sources/RevenueCatPlugin/RevenueCatPlugin.swift:177-192 | New state and answer are those of the specification |
| `PercentQuery.QueryRoundTrip` | crates/revenuecat/src/backend.rs:207-222 | For every list of UTF-8 ids, parsing the built query gives the list back |
| `PercentQuery.DecodeEncode` | crates/revenuecat/src/http/client.rs:40-48 | Decoding an encoded segment gives the segment back |
| `PercentQuery.EncodedBytes` | crates/revenuecat/src/http/client.rs:38-48 | An encoded segment holds only unreserved bytes and escapes |
| `PercentQuery.SplitJoin` | crates/revenuecat-mock/src/server.rs:311-316 | Splitting joined pairs at the separator gives the pairs back |
| `PercentQuery.PercentDecode` | crates/revenuecat-mock/src/server.rs:896-915 | The index loop computes the specified decoding |
| `PercentQueryReads.DecodesExactly` | crates/revenuecat-mock/src/server.rs:896-915 | Any text decodes to exactly what its pieces say: an escape of two digits in either case, or of a plus sign and one digit, or a byte where no escape begins |
| `PercentQueryReads.EscapesExactly` | crates/revenuecat-mock/src/server.rs:901-904 | Which two bytes after a percent sign are an escape, and of what value |
| `PercentQueryReads.EncodesExactly` | crates/revenuecat/src/http/client.rs:38-48 | Unreserved characters stay; any other byte becomes a percent sign and two upper-case digits |
| `PercentQueryReads.SplitsExactly` | crates/revenuecat-mock/src/server.rs:311-312 | A query's parts are the one list of texts without the separator that joins to it |
| `PercentQueryReads.ReadsEveryId` | crates/revenuecat-mock/src/server.rs:302-315 | Any query is read as the ids of its id parameters, in order, decoded or, if that is not UTF-8, as they stand; other parameters are passed over |

## Left out

- Network, TLS, StoreKit, Play Billing, Tauri IPC and webview calls: outcomes only, as above.
- Ed25519, SHA-256 and base64: a signature is good or not, by parameter.
- File systems and SharedPreferences: atomic replacement with the failure modes above; the escaping
  done by `Properties.store` and `Properties.load` is taken as exact, so properties are a string map.
- JSON and serde models, paywalls, error tables, CustomerInfo mapping, configuration validation and
  fingerprints, and Debug redaction: reading one branch settles them.
- Prices as floating point, clocks and delays: dates are inputs, and the waits between retries are
  not modelled.
- DeviceCache, SubscriptionOptionSelector, and the mock's grants and redemptions: easy members only.
- Customer info caching, the update listener and `launched_store_plans`: whether a receipt shows an
  earlier base plan is a parameter of the purchase.
- `get_offerings` (its identity re-check, joins and queries) and `store_purchase_options`: what
  reaches the registry is a parameter.
- Plain library logins and logouts, which keep no durable record, are part of the receipt results
  but not of the results about the identity file.
- Identity size limits: a file or record over the limit counts as a write that fails before landing,
  or as an unreadable file.
- `PendingPurchaseContextCache.context`, the `claim` without an identity and
  `promotionWaiterCount`: observers the protocol does not use. The two-argument `receiptContext` of
  the StoreKit journal likewise.
- `receiptContextForSync` and the helpers it awaits are modelled as the steps of a sync task, and
  `performPurchase` as those of the purchase flow, not as methods, because other tasks run between
  their awaits. A purchase whose product is not found ends before it touches anything.
- `contextFor`, `hasPendingPurchase`, `hasDeferredPurchase`, `hasCorrelatedPurchase` and
  `hasMetadataPersistenceFailure` of the Play store: getters.
- PurchaseBegins in the scheduler's model is possible in any state; the program begins a purchase only
  after its recovery check, so the model allows more.
- `AcceptedLoginSurvives`: runs until another identity change is begun, because the next change
  writes its own transition ahead; `AcceptedLoginSurvivesUntilCommit` runs until one commits.
- `ParsePrint`: the parser takes ASCII digits; Kotlin also takes other decimal digits, which the
  printer never writes.
- `GetReturnsCurrentBody`: calls are sequential; two overlapping GETs of one URL are not modelled,
  and a response whose body fails to decode as JSON still counts as a success.
- `LookupRefinesHistory`: a store product is compared as a whole but carries only some of its fields.
- `QueryRoundTrip`: whether bytes are UTF-8 is a parameter.
- `ReceiptsBelongToLauncher`: false without its three conditions, each with a concrete run; what
  holds without them is `MispostedExactly`.
