/** The StoreKit journal and the cache of pending contexts, as actors whose calls change their fields. */
module AskToBuyActors {
  import opened Options
  import opened PurchaseTypes
  import opened AskToBuyModel

  class LocalTransactionMetadataStore {
    var file: JournalFile

    constructor (file: JournalFile)
      ensures this.file == file
    {
      this.file := file;
    }

    method LoadFile(io: JournalIo) returns (transactions: Option<map<TransactionId, Metadata>>)
      ensures transactions == if io.ReadFails? then None else Load(file)
    {
      if io.ReadFails? { return None; }
      match file
      case NoFile => return Some(map[]);
      case Unreadable => return None;
      case Holds(ts) =>
        if |ts| > MAXIMUM_TRANSACTIONS { return None; }
        var mismatched := exists k :: k in ts && ts[k].identity.transactionId != k;
        transactions := if mismatched then None else Some(ts);
    }

    /** False when the write throws. */
    method Write(transactions: map<TransactionId, Metadata>, io: JournalIo) returns (ok: bool)
      modifies this
      ensures (file, ok) == WriteFile(old(file), transactions, io)
    {
      if |transactions| > MAXIMUM_TRANSACTIONS { return false; }
      if !io.WriteFails? || io.landed { file := Holds(transactions); }
      ok := !io.WriteFails?;
    }

    method StoreMetadata(metadata: Metadata, io: JournalIo) returns (ok: bool)
      modifies this
      ensures (file, ok) == Store(old(file), metadata, io)
    {
      var loaded := LoadFile(io);
      if loaded.None? { return false; }
      var id := metadata.identity.transactionId;
      if id in loaded.value {
        return loaded.value[id] == metadata;
      }
      ok := Write(loaded.value[id := metadata], io);
    }

    method ReceiptContextFor(identity: Identity, io: JournalIo) returns (r: Lookup)
      ensures r == ReceiptContextOf(file, identity, io)
    {
      var loaded := LoadFile(io);
      if loaded.None? { return LookupThrew; }
      var id := identity.transactionId;
      if id !in loaded.value
         || loaded.value[id].identity.purchaseToken != identity.purchaseToken
         || loaded.value[id].identity.productId != identity.productId
      {
        MismatchedIdentity(loaded.value, identity);
        return Found(None);
      }
      assert ValidTransactions(loaded.value);
      r := Found(Some(loaded.value[id].receiptContext));
    }

    lemma MismatchedIdentity(ts: map<TransactionId, Metadata>, i: Identity)
      requires
        i.transactionId in ts ==>
          ts[i.transactionId].identity.purchaseToken != i.purchaseToken || ts[i.transactionId].identity.productId != i.productId
      ensures !(i.transactionId in ts && ts[i.transactionId].identity == i)
    {
    }

    method Remove(id: TransactionId, token: Token, io: JournalIo) returns (r: Removal)
      modifies this
      ensures (file, r) == RemoveRecord(old(file), id, token, io)
    {
      var loaded := LoadFile(io);
      if loaded.None? { return RemovalThrew; }
      if id !in loaded.value || loaded.value[id].identity.purchaseToken != token { return Removed(false); }
      var ok := Write(loaded.value - {id}, io);
      r := if ok then Removed(true) else RemovalThrew;
    }
  }

  class PendingPurchaseContextCache {
    var contextsByProductId: map<ProductId, PendingContext>
    var latestAttemptIdsByProductId: map<ProductId, AttemptId>
    var promotionAttemptIdsByIdentity: map<Identity, AttemptId>
    var promotionWaiters: map<Identity, seq<TaskId>>

    ghost function Model(): Cache
      reads this
    {
      Cache(contextsByProductId, latestAttemptIdsByProductId, promotionAttemptIdsByIdentity, promotionWaiters)
    }

    constructor ()
      ensures Model() == EMPTY_CACHE
    {
      contextsByProductId, latestAttemptIdsByProductId := map[], map[];
      promotionAttemptIdsByIdentity, promotionWaiters := map[], map[];
    }

    method CacheReceiptContext(context: ReceiptContext, productId: ProductId, attemptId: AttemptId, date: int)
      modifies this
      ensures Model() == CacheContext(old(Model()), context, productId, attemptId, date)
    {
      latestAttemptIdsByProductId := latestAttemptIdsByProductId[productId := attemptId];
      contextsByProductId := contextsByProductId[productId := PendingContext(attemptId, context, date)];
    }

    /** `Waits` suspends the calling task, which has been put at the end of the list. */
    method ClaimOrWaitForPromotion(identity: Identity, purchaseDate: int, task: TaskId) returns (a: Acquisition)
      modifies this
      ensures (Model(), a) == ClaimOrWait(old(Model()), identity, purchaseDate, task)
    {
      if identity in promotionAttemptIdsByIdentity {
        var waiters := if identity in promotionWaiters then promotionWaiters[identity] else [];
        promotionWaiters := promotionWaiters[identity := waiters + [task]];
        return Waits;
      }
      var claim := TakeClaim(identity, purchaseDate);
      if claim.None? { return Absent; }
      promotionAttemptIdsByIdentity := promotionAttemptIdsByIdentity[identity := claim.value.attemptId];
      a := Owner(claim.value);
    }

    method TakeClaim(identity: Identity, purchaseDate: int) returns (claim: Option<Claim>)
      modifies this`contextsByProductId
      ensures
        var p := identity.productId;
        var was := old(contextsByProductId);
        if p in was && was[p].purchaseAttemptDate <= purchaseDate then
          && contextsByProductId == was - {p}
          && claim == Some(Claim(identity, was[p].attemptId, was[p].receiptContext, was[p].purchaseAttemptDate))
        else contextsByProductId == was && claim == None
    {
      var p := identity.productId;
      if p !in contextsByProductId || contextsByProductId[p].purchaseAttemptDate > purchaseDate { return None; }
      var cached := contextsByProductId[p];
      contextsByProductId := contextsByProductId - {p};
      claim := Some(Claim(identity, cached.attemptId, cached.receiptContext, cached.purchaseAttemptDate));
    }

    /** Resumes the waiting tasks one by one. */
    method CompleteClaim(claim: Claim) returns (resumed: seq<TaskId>)
      modifies this`promotionAttemptIdsByIdentity, this`promotionWaiters
      ensures (Model(), resumed) == CompletePromotion(old(Model()), claim)
    {
      var identity := claim.identity;
      resumed := [];
      if identity !in promotionAttemptIdsByIdentity || promotionAttemptIdsByIdentity[identity] != claim.attemptId { return; }
      promotionAttemptIdsByIdentity := promotionAttemptIdsByIdentity - {identity};
      var waiters := if identity in promotionWaiters then promotionWaiters[identity] else [];
      promotionWaiters := promotionWaiters - {identity};
      for k := 0 to |waiters|
        invariant resumed == waiters[..k]
      {
        resumed := resumed + [waiters[k]];
      }
      assert waiters[..|waiters|] == waiters;
    }

    method CommitClaim(claim: Claim) returns (resumed: seq<TaskId>)
      modifies this
      ensures (Model(), resumed) == Commit(old(Model()), claim)
    {
      var p := claim.identity.productId;
      resumed := CompleteClaim(claim);
      if p !in latestAttemptIdsByProductId || latestAttemptIdsByProductId[p] != claim.attemptId { return; }
      if p in contextsByProductId && contextsByProductId[p].attemptId == claim.attemptId {
        contextsByProductId := contextsByProductId - {p};
      }
      latestAttemptIdsByProductId := latestAttemptIdsByProductId - {p};
    }

    method RollbackClaim(claim: Claim) returns (resumed: seq<TaskId>)
      modifies this
      ensures (Model(), resumed) == Rollback(old(Model()), claim)
    {
      var p := claim.identity.productId;
      if p in latestAttemptIdsByProductId && latestAttemptIdsByProductId[p] == claim.attemptId && p !in contextsByProductId {
        contextsByProductId := contextsByProductId[p := PendingContext(claim.attemptId, claim.receiptContext, claim.purchaseAttemptDate)];
      }
      resumed := CompleteClaim(claim);
    }

    method Remove(productId: ProductId)
      modifies this
      ensures Model() == RemoveProduct(old(Model()), productId)
    {
      contextsByProductId := contextsByProductId - {productId};
      latestAttemptIdsByProductId := latestAttemptIdsByProductId - {productId};
    }
  }
}
