/**
 * The correlation store: synchronized methods that reassign its maps and write the journal
 * at most once each.
 */
module PendingPurchaseStore {
  import opened Options
  import opened LinkedMaps
  import opened PurchaseTypes
  import opened PendingPurchaseModel

  class PendingPurchaseStore {
    var purchases: LinkedMap<ProductId, PendingPurchase>
    var deferredPurchases: Correlations
    var completedCorrelations: Correlations
    var metadataPersistenceFailed: bool

    /** What the preferences file holds; it outlives the instance. */
    var journal: Journal

    ghost function Model(): Store
      reads this
    {
      Store(purchases, deferredPurchases, completedCorrelations, metadataPersistenceFailed, journal)
    }

    constructor (persisted: Journal)
      ensures Model() == Restore(persisted)
    {
      purchases := EmptyMap();
      deferredPurchases := EmptyMap();
      metadataPersistenceFailed := false;
      journal := persisted;
      completedCorrelations := EmptyMap();
      new;
      RestoreDurableCorrelations();
    }

    method RestoreDurableCorrelations()
      requires !metadataPersistenceFailed && completedCorrelations == EmptyMap()
      modifies this`completedCorrelations, this`metadataPersistenceFailed
      ensures metadataPersistenceFailed == journal.Corrupt?
      ensures completedCorrelations == if journal.Corrupt? then EmptyMap() else RestoreRecords(journal.records)
    {
      if journal.Corrupt? {
        metadataPersistenceFailed := true;
        return;
      }
      var correlations: Correlations := EmptyMap();
      var records := journal.records;
      for i := 0 to |records|
        invariant correlations == RestoreRecords(records[..i])
      {
        assert records[..i + 1][..i] == records[..i];
        var m := records[i];
        if |correlations.keys| >= MAX_CORRELATED_PURCHASES {
          continue;
        }
        if IsBlank(m.purchaseToken) || (exists p :: p in m.productIds && IsBlank(p)) || m.productIds == {} {
          continue;
        }
        match correlations.Get(m.purchaseToken)
        case None =>
          correlations := correlations.Put(m.purchaseToken,
                                           CorrelatedPurchase(m.purchaseToken, m.productIds, m.context, true));
        case Some(existing) =>
          correlations := correlations.Put(m.purchaseToken,
                                           CorrelatedPurchase(m.purchaseToken, existing.productIds + m.productIds, None, true));
      }
      assert records[..|records|] == records;
      completedCorrelations := correlations;
    }

    method Register(productId: ProductId, callback: Callback) returns (accepted: bool)
      modifies this
      ensures (Model(), accepted) == PendingPurchaseModel.Register(old(Model()), productId, callback)
    {
      var isSameProductDeferred := exists t :: t in deferredPurchases.vals && productId in deferredPurchases.vals[t].productIds;
      var isCorrelationCapacityFull :=
        |deferredPurchases.keys| + |completedCorrelations.keys| >= MAX_CORRELATED_PURCHASES;
      if metadataPersistenceFailed || purchases.keys != [] || isSameProductDeferred || isCorrelationCapacityFull {
        return false;
      }
      purchases := EmptyMap().Put(productId, PendingPurchase(callback, None, None, true));
      return true;
    }

    method UpdateContext(productId: ProductId, context: NativePurchaseContext)
      modifies this
      ensures Model() == PendingPurchaseModel.UpdateContext(old(Model()), productId, context)
    {
      match purchases.Get(productId)
      case None =>
      case Some(pending) => purchases := purchases.Put(productId, pending.(context := Some(context)));
    }

    method MarkLaunched(productId: ProductId, launchedAtMillis: int)
      modifies this
      ensures Model() == PendingPurchaseModel.MarkLaunched(old(Model()), productId, launchedAtMillis)
    {
      match purchases.Get(productId)
      case None =>
      case Some(pending) => purchases := purchases.Put(productId, pending.(launchedAtMillis := Some(launchedAtMillis)));
    }

    method PersistDurableCorrelations(deferred: Correlations, completed: Correlations, force: bool, w: Write)
      returns (didPersist: bool)
      modifies this`metadataPersistenceFailed, this`journal
      ensures (Model(), didPersist) == Persist(old(Model()), deferred, completed, force, w)
    {
      var all := deferred.Plus(completed);
      var metadata := Take(Metadata(all.keys, all.vals), MAX_CORRELATED_PURCHASES);
      if metadata == [] && !force {
        return !metadataPersistenceFailed;
      }
      var (left, committed) := Replace(metadata, w);
      journal := left;
      metadataPersistenceFailed := !committed;
      return committed;
    }

    method Defer(productIds: seq<ProductId>, purchaseToken: Token, w: Write) returns (released: Option<PendingPurchase>)
      modifies this
      ensures (Model(), released) == PendingPurchaseModel.Defer(old(Model()), productIds, purchaseToken, w)
    {
      var productIdSet := SetOf(productIds);
      var activeKey := FirstIn(purchases.keys, productIdSet * purchases.vals.Keys);
      if activeKey.None? {
        return None;
      }
      var active := purchases.vals[activeKey.value];
      purchases := purchases.Minus(activeKey.value);
      if IsBlank(purchaseToken) {
        return Some(active.(isMetadataDurable := false));
      }
      var existing := if purchaseToken in deferredPurchases.vals then Some(deferredPurchases.vals[purchaseToken])
                      else completedCorrelations.Get(purchaseToken);
      var correlation;
      match existing {
        case None =>
          correlation := CorrelatedPurchase(purchaseToken, productIdSet, active.context, active.context.Some?);
        case Some(e) =>
          correlation := CorrelatedPurchase(purchaseToken, e.productIds + productIdSet, None,
                                            e.isDurable || active.context.Some?);
      }
      deferredPurchases := deferredPurchases.Put(purchaseToken, correlation);
      completedCorrelations := completedCorrelations.Minus(purchaseToken);
      var isMetadataDurable := true;
      if correlation.isDurable {
        isMetadataDurable := PersistDurableCorrelations(deferredPurchases, completedCorrelations, false, w);
      }
      return Some(active.(isMetadataDurable := isMetadataDurable));
    }

    method PrepareForPurchase(productId: ProductId, ownedPurchases: seq<OwnedPurchaseSnapshot>, w: Write)
      returns (preparation: PurchasePreparation)
      modifies this
      ensures (Model(), preparation) == Prepare(old(Model()), productId, ownedPurchases, w)
    {
      if purchases.keys != [] {
        return READY;
      }
      var next := RecordOwned(productId, ownedPurchases);
      next := KeepDurable(next);
      var correlationCount := |next.deferred.Plus(next.completed).keys|;
      if correlationCount >= MAX_CORRELATED_PURCHASES {
        var retainedTokens := Retained(next);
        deferredPurchases := next.deferred.Restrict(retainedTokens);
        completedCorrelations := next.completed.Restrict(retainedTokens);
        var persisted := PersistDurableCorrelations(deferredPurchases, completedCorrelations, false, w);
        return if persisted then CORRELATION_CAPACITY_EXCEEDED else METADATA_PERSISTENCE_FAILED;
      }
      deferredPurchases := next.deferred;
      completedCorrelations := next.completed;
      var persisted := PersistDurableCorrelations(deferredPurchases, completedCorrelations, false, w);
      if !persisted {
        return METADATA_PERSISTENCE_FAILED;
      }
      if exists t :: t in next.deferred.vals && productId in next.deferred.vals[t].productIds {
        return PAYMENT_PENDING;
      }
      return READY;
    }

    method RecordObservation(relevant: seq<OwnedPurchaseSnapshot>, token: Token, recorded: Tables) returns (next: Tables)
      ensures next == RecordOne(Model(), relevant, token, recorded)
    {
      var observed := PreferredObservation(SnapshotsOf(relevant, token));
      if observed.None? { return recorded; }
      var existing := if token in deferredPurchases.vals then Some(deferredPurchases.vals[token])
                      else completedCorrelations.Get(token);
      var correlation := match existing
        case Some(e) => ValidatedAgainst(e, observed.value)
        case None => CorrelatedPurchase(token, observed.value.productIds, None, false);
      if observed.value.state == PENDING {
        next := Tables(recorded.deferred.Put(token, correlation), recorded.completed.Minus(token));
      } else {
        next := Tables(recorded.deferred.Minus(token), recorded.completed.Put(token, correlation));
      }
    }

    method RecordOwned(productId: ProductId, ownedPurchases: seq<OwnedPurchaseSnapshot>) returns (next: Tables)
      ensures next == AfterRecording(Model(), productId, ownedPurchases)
    {
      var relevant := Owning(ownedPurchases, productId);
      var tokens := TokensOf(relevant);
      var kept := Tables(Without(deferredPurchases, productId), Without(completedCorrelations, productId));
      next := kept;
      for i := 0 to |tokens|
        invariant next == RecordObserved(Model(), relevant, tokens[..i], kept)
      {
        assert tokens[..i + 1][..i] == tokens[..i];
        next := RecordObservation(relevant, tokens[i], next);
      }
      assert tokens[..|tokens|] == tokens;
    }

    method KeepDurable(recorded: Tables) returns (next: Tables)
      ensures next == RetainDurable(DurableCorrelations(Model()), DurableCorrelations(Model()).keys, recorded)
    {
      next := recorded;
      var all := deferredPurchases.Plus(completedCorrelations);
      var durable := all.Restrict(set t | t in all.vals && all.vals[t].isDurable);
      for i := 0 to |durable.keys|
        invariant next == RetainDurable(durable, durable.keys[..i], recorded)
      {
        assert durable.keys[..i + 1][..i] == durable.keys[..i];
        var token := durable.keys[i];
        if token in durable.vals && token !in next.deferred.vals && token !in next.completed.vals {
          next := next.(completed := next.completed.Put(token, durable.vals[token]));
        }
      }
      assert durable.keys[..|durable.keys|] == durable.keys;
    }

    method RoutePurchased(purchaseToken: Token, productIds: seq<ProductId>, purchaseTimeMillis: int, w: Write)
      returns (routed: RoutedPurchase)
      modifies this
      ensures (Model(), routed) == Route(old(Model()), purchaseToken, productIds, w)
    {
      var productIdSet := SetOf(productIds);
      var activeKey := FirstIn(purchases.keys, productIdSet * purchases.vals.Keys);
      if IsBlank(purchaseToken) {
        if activeKey.None? {
          return RoutedPurchase(OUT_OF_BAND, None, true);
        }
        var active := purchases.vals[activeKey.value];
        purchases := purchases.Minus(activeKey.value);
        return RoutedPurchase(ACTIVE, Some(active.(isMetadataDurable := false)), false);
      }
      var existing := if purchaseToken in deferredPurchases.vals then Some(deferredPurchases.vals[purchaseToken])
                      else completedCorrelations.Get(purchaseToken);
      var isMetadataDurable := true;
      if existing.Some? {
        var validated := ValidatedAgainst(existing.value, OwnedPurchaseSnapshot(purchaseToken, productIdSet, PURCHASED));
        if purchaseToken in deferredPurchases.vals {
          deferredPurchases := deferredPurchases.Put(purchaseToken, validated);
        } else {
          completedCorrelations := completedCorrelations.Put(purchaseToken, validated);
        }
        if validated.isDurable {
          isMetadataDurable := PersistDurableCorrelations(deferredPurchases, completedCorrelations, false, w);
        }
        return RoutedPurchase(CORRELATED, None, isMetadataDurable);
      }
      if activeKey.None? {
        return RoutedPurchase(OUT_OF_BAND, None, true);
      }
      var active := purchases.vals[activeKey.value];
      purchases := purchases.Minus(activeKey.value);
      var correlation := CorrelatedPurchase(purchaseToken, productIdSet, active.context, active.context.Some?);
      completedCorrelations := completedCorrelations.Put(purchaseToken, correlation);
      if correlation.isDurable {
        isMetadataDurable := PersistDurableCorrelations(deferredPurchases, completedCorrelations, false, w);
      }
      return RoutedPurchase(ACTIVE, Some(active.(isMetadataDurable := isMetadataDurable)), isMetadataDurable);
    }

    method ReconcileOwnedPurchases(ownedPurchases: seq<OwnedPurchaseSnapshot>, w: Write)
      returns (completedContexts: map<Token, Option<NativePurchaseContext>>)
      modifies this
      ensures (Model(), completedContexts) == Reconcile(old(Model()), ownedPurchases, w)
    {
      var r := ReconcileDeferredLoop(ownedPurchases);
      r := ReconcileCompletedLoop(ownedPurchases, r);
      deferredPurchases := r.tables.deferred;
      completedCorrelations := r.tables.completed;
      var _ := PersistDurableCorrelations(deferredPurchases, completedCorrelations, false, w);
      return r.contexts;
    }

    method ReconcileDeferredLoop(ownedPurchases: seq<OwnedPurchaseSnapshot>) returns (r: Reconciliation)
      ensures r == ReconcileDeferred(Model(), ownedPurchases, deferredPurchases.keys)
    {
      var nextDeferred: Correlations := EmptyMap();
      var nextCompleted := completedCorrelations;
      var completedContexts: map<Token, Option<NativePurchaseContext>> := map[];
      var tokens := deferredPurchases.keys;
      for i := 0 to |tokens|
        invariant Reconciliation(Tables(nextDeferred, nextCompleted), completedContexts)
                  == ReconcileDeferred(Model(), ownedPurchases, tokens[..i])
      {
        assert tokens[..i + 1][..i] == tokens[..i];
        var token := tokens[i];
        if token !in deferredPurchases.vals {
          continue;
        }
        var correlation := deferredPurchases.vals[token];
        match PreferredObservation(SnapshotsOf(ownedPurchases, token))
        case None =>
          if correlation.isDurable {
            nextCompleted := nextCompleted.Put(token, correlation);
          }
        case Some(observed) =>
          var validated := ValidatedAgainst(correlation, observed);
          if observed.state == PENDING {
            nextDeferred := nextDeferred.Put(token, validated);
          } else {
            completedContexts := completedContexts[token := validated.context];
            nextCompleted := nextCompleted.Put(token, validated);
          }
      }
      assert tokens[..|tokens|] == tokens;
      return Reconciliation(Tables(nextDeferred, nextCompleted), completedContexts);
    }

    method ReconcileCompletedLoop(ownedPurchases: seq<OwnedPurchaseSnapshot>, afterDeferred: Reconciliation)
      returns (r: Reconciliation)
      ensures r == ReconcileCompleted(Model(), ownedPurchases, completedCorrelations.keys, afterDeferred)
    {
      var nextDeferred, nextCompleted := afterDeferred.tables.deferred, afterDeferred.tables.completed;
      var completedContexts := afterDeferred.contexts;
      var tokens := completedCorrelations.keys;
      for i := 0 to |tokens|
        invariant Reconciliation(Tables(nextDeferred, nextCompleted), completedContexts)
                  == ReconcileCompleted(Model(), ownedPurchases, tokens[..i], afterDeferred)
      {
        assert tokens[..i + 1][..i] == tokens[..i];
        var token := tokens[i];
        if token !in completedCorrelations.vals {
          continue;
        }
        match PreferredObservation(SnapshotsOf(ownedPurchases, token))
        case None =>
        case Some(observed) =>
          var validated := ValidatedAgainst(completedCorrelations.vals[token], observed);
          if observed.state == PENDING {
            nextDeferred := nextDeferred.Put(token, validated);
            nextCompleted := nextCompleted.Minus(token);
          } else {
            completedContexts := completedContexts[token := validated.context];
            nextCompleted := nextCompleted.Put(token, validated);
          }
      }
      assert tokens[..|tokens|] == tokens;
      return Reconciliation(Tables(nextDeferred, nextCompleted), completedContexts);
    }

    method RemoveCorrelationBeforeStoreFinish(purchaseToken: Token, w: Write) returns (removed: bool)
      modifies this
      ensures (Model(), removed) == RemoveBeforeFinish(old(Model()), purchaseToken, w)
    {
      var existing := if purchaseToken in deferredPurchases.vals then Some(deferredPurchases.vals[purchaseToken])
                      else completedCorrelations.Get(purchaseToken);
      var nextDeferred := deferredPurchases.Minus(purchaseToken);
      var nextCompleted := completedCorrelations.Minus(purchaseToken);
      if existing.Some? && existing.value.isDurable {
        var persisted := PersistDurableCorrelations(nextDeferred, nextCompleted, true, w);
        if !persisted {
          return false;
        }
      }
      deferredPurchases := nextDeferred;
      completedCorrelations := nextCompleted;
      return true;
    }

    method TakeForProducts(productIds: seq<ProductId>) returns (completed: seq<PendingPurchase>)
      modifies this
      ensures (Model(), completed) == PendingPurchaseModel.TakeForProducts(old(Model()), productIds)
    {
      var completedProductIds := SetOf(productIds);
      var taken := purchases.Restrict(completedProductIds);
      completed := Values(taken.keys, taken.vals);
      purchases := purchases.Restrict(purchases.vals.Keys - completedProductIds);
    }

    method Remove(productId: ProductId) returns (removed: Option<PendingPurchase>)
      modifies this
      ensures (Model(), removed) == PendingPurchaseModel.Remove(old(Model()), productId)
    {
      removed := purchases.Get(productId);
      purchases := purchases.Minus(productId);
    }

    method Drain() returns (pending: seq<PendingPurchase>)
      modifies this
      ensures (Model(), pending) == PendingPurchaseModel.Drain(old(Model()))
    {
      pending := Values(purchases.keys, purchases.vals);
      purchases := EmptyMap();
    }
  }
}
