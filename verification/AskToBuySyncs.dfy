/** What the journal answers, what a sync comes to, and what a purchase leaves behind. */
module AskToBuySyncs {
  import opened Options
  import opened PurchaseTypes
  import opened AskToBuyModel
  import opened AskToBuyInvariant
  import opened AskToBuyTheorems
  import opened AskToBuyResults

  // ---- The journal's answers -----------------------------------------------------------

  /** The file can be read: there is none yet, or at most 32 records, each under its own id. */
  predicate Legible(f: JournalFile, io: JournalIo) {
    && io != ReadFails && f != Unreadable
    && (f.Holds? ==> |f.transactions| <= 32 && forall k :: k in f.transactions ==> f.transactions[k].identity.transactionId == k)
  }

  /** The records in a file, whether or not it can be read. */
  function RecordsIn(f: JournalFile): map<TransactionId, Metadata> {
    if f.Holds? then f.transactions else map[]
  }

  /**
   * A store succeeds if the very record is there, or if the id is free, there is room and the
   * write works; the file gains the record in the second case, or when its write landed.
   */
  lemma StoreAnswers(f: JournalFile, m: Metadata, io: JournalIo)
    ensures
      var (after, ok) := Store(f, m, io);
      var id, ts := m.identity.transactionId, RecordsIn(f);
      var writes := Legible(f, io) && id !in ts && |ts| < 32;
      && (ok <==> (Legible(f, io) && id in ts && ts[id] == m) || (writes && io == Works))
      && after == if writes && (io == Works || io == WriteFails(true)) then Holds(ts[id := m]) else f
  {
  }

  /** A lookup throws on a file it cannot read; otherwise it finds exactly the record of the whole identity. */
  lemma LookupAnswers(f: JournalFile, i: Identity, io: JournalIo)
    ensures
      var ts := RecordsIn(f);
      ReceiptContextOf(f, i, io) ==
      if !Legible(f, io) then LookupThrew
      else if i.transactionId in ts && ts[i.transactionId].identity == i then Found(Some(ts[i.transactionId].receiptContext))
      else Found(None)
  {
  }

  /** A removal says true exactly when it took the record out, false when there was none of that token. */
  lemma RemovalAnswers(f: JournalFile, id: TransactionId, token: Token, io: JournalIo)
    ensures
      var (after, removal) := RemoveRecord(f, id, token, io);
      var ts := RecordsIn(f);
      var there := Legible(f, io) && id in ts && ts[id].identity.purchaseToken == token;
      && (removal == Removed(true) <==> there && io == Works)
      && (removal == Removed(false) <==> Legible(f, io) && !there)
      && after == if there && (io == Works || io == WriteFails(true)) then Holds(ts - {id}) else f
  {
    var ts := RecordsIn(f);
    FewerKeys(ts, ts - {id});
  }

  /** Finishing a transaction first removes its record and counts that. */
  lemma FinishingRemoves(s: System, id: TransactionId, token: Token)
    requires Legible(s.file, Works) && id in RecordsIn(s.file) && RecordsIn(s.file)[id].identity.purchaseToken == token
    ensures
      var m := Next(s, Removes(id, token, Works));
      && m.file == Holds(RecordsIn(s.file) - {id}) && Removals(m, id) == Removals(s, id) + 1
      && m.cache == s.cache && m.tasks == s.tasks && m.flow == s.flow
  {
    RemovalAnswers(s.file, id, token, Works);
    assert id in RecordsIn(s.file) && id !in RecordsIn(s.file) - {id};
  }

  // ---- Renewals ------------------------------------------------------------------------

  /** A sync that is not completing moves itself alone, and its phase alone. */
  lemma MovesOnlyItself(s: System, t: TaskId, io: JournalIo)
    requires t < |s.tasks| && !s.tasks[t].phase.Completing?
    ensures var after := Advance(s, t, io).tasks; |after| == |s.tasks| && after == s.tasks[t := s.tasks[t].(phase := after[t].phase)]
  {
    match s.tasks[t].phase
    case Reading => ReadMoves(s, t, io, AfterMiss(s.tasks[t]));
    case Rereading(required) => ReadMoves(s, t, io, Finished(if required then Threw else Returned(None)));
    case Acquiring => AcquireMoves(s, t);
    case _ =>
  }

  lemma ReadMoves(s: System, t: TaskId, io: JournalIo, missing: Phase)
    requires t < |s.tasks|
    ensures var after := Read(s, t, io, missing).tasks; after == s.tasks[t := s.tasks[t].(phase := after[t].phase)]
  {
  }

  lemma AcquireMoves(s: System, t: TaskId)
    requires t < |s.tasks|
    ensures var after := Acquire(s, t).tasks; after == s.tasks[t := s.tasks[t].(phase := after[t].phase)]
  {
  }

  /** A sync is what it was begun as; only a restart ends it without a result. */
  lemma SyncsKeepTheirTransaction(s: System, op: Op, t: TaskId)
    requires RolesOk(s.cache, s.owners, s.tasks) && t < |s.tasks| && !op.Restarts?
    ensures t < |Next(s, op).tasks| && Next(s, op).tasks[t] == s.tasks[t].(phase := Next(s, op).tasks[t].phase)
  {
    if op.Advances? && op.task < |s.tasks| {
      if s.tasks[op.task].phase.Completing? { CompleteTasks(s, op.task, t); } else { MovesOnlyItself(s, op.task, op.io); }
    }
  }

  lemma SyncsBegin(s: System, i: Identity, date: int, isRenewal: Option<bool>)
    ensures Next(s, Begins(i, date, isRenewal)) == s.(tasks := s.tasks + [SyncTask(i, date, isRenewal, Reading)])
  {
  }

  predicate NeverClaims(t: SyncTask) {
    t.isRenewal == Some(true) ==> t.phase.Reading? || t.phase.Finished?
  }

  lemma RenewalStep(s: System, op: Op, u: TaskId)
    requires RolesOk(s.cache, s.owners, s.tasks) && u < |Next(s, op).tasks|
    requires u < |s.tasks| ==> NeverClaims(s.tasks[u])
    ensures NeverClaims(Next(s, op).tasks[u])
  {
    if op.Advances? && op.task < |s.tasks| { AdvanceRenewal(s, op.task, op.io, u); }
  }

  lemma AdvanceRenewal(s: System, t: TaskId, io: JournalIo, u: TaskId)
    requires RolesOk(s.cache, s.owners, s.tasks) && t < |s.tasks| && u < |s.tasks| && NeverClaims(s.tasks[u])
    ensures NeverClaims(Advance(s, t, io).tasks[u])
  {
    if s.tasks[t].phase.Completing? {
      CompleteTasks(s, t, u);
    } else {
      MovesOnlyItself(s, t, io);
    }
  }

  /**
   * In every run, a renewal's sync never claims, stores, completes or waits: it reads, and is
   * done. So no promotion is ever made for a renewal.
   */
  lemma {:induction false} RenewalsNeverClaim(f: JournalFile, ops: seq<Op>, t: TaskId)
    requires t < |Run(Start(f), ops).tasks|
    ensures NeverClaims(Run(Start(f), ops).tasks[t])
  {
    if ops != [] {
      var front := ops[..|ops| - 1];
      InvFromStart(f, front);
      if t < |Run(Start(f), front).tasks| { RenewalsNeverClaim(f, front, t); }
      RenewalStep(Run(Start(f), front), ops[|ops| - 1], t);
    }
  }

  lemma PromotionsAreNoRenewals(f: JournalFile, ops: seq<Op>, op: Op)
    requires var s := Run(Start(f), ops); Next(s, op).promoted != s.promoted || ClaimedNow(s, op)
    ensures op.Advances? && op.task < |Run(Start(f), ops).tasks|
    ensures Run(Start(f), ops).tasks[op.task].isRenewal != Some(true)
  {
    var s := Run(Start(f), ops);
    assert op.Advances? && op.task < |s.tasks|;
    RenewalsNeverClaim(f, ops, op.task);
  }

  /** The step takes a context out of the cache for a sync. */
  predicate ClaimedNow(s: System, op: Op) {
    op.Advances? && op.task < |s.tasks| && op.task < |Next(s, op).tasks| &&
    !s.tasks[op.task].phase.Storing? && Next(s, op).tasks[op.task].phase.Storing?
  }

  // ---- One step of a sync --------------------------------------------------------------

  /** The journal holds this context for the sync's transaction. */
  predicate HasRecord(s: System, t: TaskId, context: ReceiptContext)
    requires t < |s.tasks|
  {
    DurableIn(RecordsIn(s.file), s.tasks[t].identity, context)
  }

  predicate HasNoRecord(s: System, t: TaskId)
    requires t < |s.tasks|
  {
    var id, ts := s.tasks[t].identity.transactionId, RecordsIn(s.file);
    id !in ts || ts[id].identity != s.tasks[t].identity
  }

  /**
   * The first read: a record is the result; a failing read is an error; without a record a
   * renewal is done with nothing, cache and file untouched, and any other sync goes on to claim.
   */
  lemma FirstRead(s: System, t: TaskId, io: JournalIo)
    requires t < |s.tasks| && s.tasks[t].phase == Reading
    ensures
      var m := Next(s, Advances(t, io));
      && m.cache == s.cache && m.file == s.file && m.promoted == s.promoted
      && (!Legible(s.file, io) ==> m.tasks[t].phase == Finished(Threw))
      && (Legible(s.file, io) ==>
            && (forall context :: HasRecord(s, t, context) ==> m.tasks[t].phase == Finished(Returned(Some(context))))
            && (HasNoRecord(s, t) && s.tasks[t].isRenewal == Some(true) ==> m.tasks[t].phase == Finished(Returned(None)))
            && (HasNoRecord(s, t) && s.tasks[t].isRenewal != Some(true) ==> m.tasks[t].phase == Acquiring))
  {
  }

  /** A cached context may serve a transaction of its product bought no earlier. */
  predicate Claimable(s: System, t: TaskId)
    requires t < |s.tasks|
  {
    var p := s.tasks[t].identity.productId;
    p in s.cache.contexts && s.cache.contexts[p].purchaseAttemptDate <= s.tasks[t].purchaseDate
  }

  /** A running promotion is waited for; otherwise a fitting context is claimed; otherwise it reads once more. */
  lemma SecondStep(s: System, t: TaskId, io: JournalIo)
    requires t < |s.tasks| && s.tasks[t].phase == Acquiring
    ensures
      var m := Next(s, Advances(t, io));
      var i := s.tasks[t].identity;
      && m.file == s.file
      && (i in s.cache.promotions ==>
            && m.tasks[t].phase == Waiting && m.cache.contexts == s.cache.contexts
            && WaitersOf(m.cache.waiters, i) == WaitersOf(s.cache.waiters, i) + [t])
      && (i !in s.cache.promotions && Claimable(s, t) ==>
            var cached := s.cache.contexts[i.productId];
            && m.tasks[t].phase == Storing(Claim(i, cached.attemptId, cached.receiptContext, cached.purchaseAttemptDate))
            && i.productId !in m.cache.contexts && i in m.cache.promotions && m.cache.promotions[i] == cached.attemptId)
      && (i !in s.cache.promotions && !Claimable(s, t) ==> m.tasks[t].phase == Rereading(false) && m.cache == s.cache)
  {
  }

  /** The last read: a record is the result; without one a resumed waiter fails, and a sync without a claim is done. */
  lemma LastRead(s: System, t: TaskId, required: bool, io: JournalIo)
    requires t < |s.tasks| && s.tasks[t].phase == Rereading(required)
    ensures
      var m := Next(s, Advances(t, io));
      && m.cache == s.cache && m.file == s.file
      && (!Legible(s.file, io) ==> m.tasks[t].phase == Finished(Threw))
      && (Legible(s.file, io) ==>
            && (forall context :: HasRecord(s, t, context) ==> m.tasks[t].phase == Finished(Returned(Some(context))))
            && (HasNoRecord(s, t) ==> m.tasks[t].phase == Finished(if required then Threw else Returned(None))))
  {
  }

  // ---- A sync on its own ---------------------------------------------------------------

  /** The sync takes a step, and nothing fails. */
  function Goes(s: System, t: TaskId): (m: System)
    ensures m == Next(s, Advances(t, Works))
  {
    if t < |s.tasks| then Advance(s, t, Works) else s
  }

  /** What the sync comes to. */
  function Expected(s: System, t: TaskId): SyncResult
    requires t < |s.tasks|
  {
    var i, ts := s.tasks[t].identity, RecordsIn(s.file);
    if i.transactionId in ts && ts[i.transactionId].identity == i then Returned(Some(ts[i.transactionId].receiptContext))
    else if s.tasks[t].isRenewal == Some(true) || !Claimable(s, t) then Returned(None)
    else if i.transactionId in ts || |ts| >= 32 then Threw
    else Returned(Some(s.cache.contexts[i.productId].receiptContext))
  }

  predicate TakesCached(s: System, t: TaskId)
    requires t < |s.tasks|
  {
    Expected(s, t).Returned? && HasNoRecord(s, t) && s.tasks[t].isRenewal != Some(true) && Claimable(s, t)
  }

  /** What the sync leaves behind. */
  predicate Leaves(s: System, t: TaskId, m: System)
    requires t < |s.tasks|
  {
    var i, p := s.tasks[t].identity, s.tasks[t].identity.productId;
    && t < |m.tasks| && m.tasks[t].phase == Finished(Expected(s, t))
    && (if TakesCached(s, t)
        then && m.file == Holds(RecordsIn(s.file)[i.transactionId := Metadata(i, s.cache.contexts[p].receiptContext)])
             && p !in m.cache.contexts
        else m.file == s.file)
    && (!Claimable(s, t) || s.tasks[t].isRenewal == Some(true) ==> m.cache == s.cache)
  }

  /**
   * Left alone over a legible journal, a sync returns the recorded context; or, not being a
   * renewal, claims the cached context of its product if that is no younger, and records it
   * under its own transaction; or returns nothing, and leaves journal and cache as they were.
   * It takes at most four steps.
   */
  lemma SyncAlone(s: System, t: TaskId)
    requires RolesOk(s.cache, s.owners, s.tasks) && t < |s.tasks| && s.tasks[t].phase == Reading
    requires Legible(s.file, Works) && s.tasks[t].identity !in s.cache.promotions
    ensures Leaves(s, t, Goes(Goes(Goes(Goes(s, t), t), t), t))
  {
    var one := Goes(s, t);
    FirstRead(s, t, Works);
    MovesOnlyItself(s, t, Works);
    if HasNoRecord(s, t) && s.tasks[t].isRenewal != Some(true) {
      MoveKeepsRoles(s, t, Acquiring);
      assert one == Move(s, t, Acquiring);
      FromAcquiring(one, t);
      assert Expected(one, t) == Expected(s, t);
    } else {
      FinishedStays(one, t);
    }
  }

  lemma FinishedStays(s: System, t: TaskId)
    requires t < |s.tasks| && s.tasks[t].phase.Finished?
    ensures Goes(s, t) == s
  {
  }

  lemma FromAcquiring(s: System, t: TaskId)
    requires RolesOk(s.cache, s.owners, s.tasks) && t < |s.tasks| && s.tasks[t].phase == Acquiring
    requires Legible(s.file, Works) && s.tasks[t].identity !in s.cache.promotions && HasNoRecord(s, t) && s.tasks[t].isRenewal != Some(true)
    ensures Leaves(s, t, Goes(Goes(Goes(s, t), t), t))
  {
    var one := Goes(s, t);
    SecondStep(s, t, Works);
    MovesOnlyItself(s, t, Works);
    if Claimable(s, t) {
      AcquireKeepsRoles(s, t);
      StoresAndCompletes(one, t, s.tasks[t].identity, s.cache.contexts[s.tasks[t].identity.productId].receiptContext);
    } else {
      LastRead(one, t, false, Works);
      FinishedStays(Goes(one, t), t);
    }
  }

  /** A claim is stored if its id is free and there is room, and completed. */
  lemma StoresAndCompletes(s: System, t: TaskId, i: Identity, context: ReceiptContext)
    requires RolesOk(s.cache, s.owners, s.tasks) && t < |s.tasks| && s.tasks[t].phase.Storing? && Legible(s.file, Works)
    requires s.tasks[t].phase.claim.identity == i == s.tasks[t].identity && s.tasks[t].phase.claim.receiptContext == context
    requires HasNoRecord(s, t) && i.productId !in s.cache.contexts
    ensures
      var m := Goes(Goes(s, t), t);
      var fits := i.transactionId !in RecordsIn(s.file) && |RecordsIn(s.file)| < 32;
      && t < |m.tasks| && m.tasks[t].phase == Finished(if fits then Returned(Some(context)) else Threw)
      && m.file == (if fits then Holds(RecordsIn(s.file)[i.transactionId := Metadata(i, context)]) else s.file)
      && (fits ==> i.productId !in m.cache.contexts)
  {
    var stored := Promote(s, t, s.tasks[t].phase.claim, Works);
    ThirdStep(s, t, stored);
    PromoteKeepsRoles(s, t, s.tasks[t].phase.claim, Works);
    FourthStep(stored, t);
  }

  lemma ThirdStep(s: System, t: TaskId, m: System)
    requires t < |s.tasks| && s.tasks[t].phase.Storing? && Legible(s.file, Works) && HasNoRecord(s, t)
    requires m == Promote(s, t, s.tasks[t].phase.claim, Works)
    ensures m == Goes(s, t)
    ensures
      var i, claim := s.tasks[t].identity, s.tasks[t].phase.claim;
      var fits := i.transactionId !in RecordsIn(s.file) && |RecordsIn(s.file)| < 32;
      && |m.tasks| == |s.tasks| && m.tasks[t] == s.tasks[t].(phase := Completing(claim, fits)) && m.cache == s.cache
      && m.file == (if fits then Holds(RecordsIn(s.file)[i.transactionId := Metadata(i, claim.receiptContext)]) else s.file)
  {
    StoreAnswers(s.file, Metadata(s.tasks[t].identity, s.tasks[t].phase.claim.receiptContext), Works);
  }

  lemma FourthStep(s: System, t: TaskId)
    requires RolesOk(s.cache, s.owners, s.tasks) && t < |s.tasks| && s.tasks[t].phase.Completing?
    ensures
      var m, claim, stored := Goes(s, t), s.tasks[t].phase.claim, s.tasks[t].phase.stored;
      && |m.tasks| == |s.tasks| && m.tasks[t].phase == Finished(if stored then Returned(Some(claim.receiptContext)) else Threw)
      && m.file == s.file
      && (stored && claim.identity.productId !in s.cache.contexts ==> claim.identity.productId !in m.cache.contexts)
  {
    CompleteTasks(s, t, t);
    CommitDropsNothingBack(s.cache, s.tasks[t].phase.claim);
  }

  lemma CommitDropsNothingBack(c: Cache, claim: Claim)
    ensures claim.identity.productId !in c.contexts ==> claim.identity.productId !in Commit(c, claim).0.contexts
  {
  }

  lemma AcquireKeepsRoles(s: System, t: TaskId)
    requires RolesOk(s.cache, s.owners, s.tasks) && t < |s.tasks| && s.tasks[t].phase == Acquiring
    requires s.tasks[t].identity !in s.cache.promotions && Claimable(s, t)
    ensures var m := Next(s, Advances(t, Works)); RolesOk(m.cache, m.owners, m.tasks)
  {
    var claim := ClaimOrWait(s.cache, s.tasks[t].identity, s.tasks[t].purchaseDate, t).1.claim;
    ClaimKeepsRoles(s.cache, s.owners, s.tasks, t, claim);
    var m := Next(s, Advances(t, Works));
    FlowFreeRoles(s.cache.(promotions := s.cache.promotions[claim.identity := claim.attemptId]), m.cache, m.owners, m.tasks);
  }

  /** Roles do not depend on what is cached. */
  lemma FlowFreeRoles(c: Cache, d: Cache, owners: map<Identity, TaskId>, tasks: seq<SyncTask>)
    requires RolesOk(c, owners, tasks) && d.promotions == c.promotions && d.waiters == c.waiters
    ensures RolesOk(d, owners, tasks)
  {
  }

  // ---- A purchase flow -----------------------------------------------------------------

  /** What a new purchase does at once; a second one is turned away. */
  lemma PurchaseOpens(s: System, context: Option<ReceiptContext>, p: ProductId, date: int)
    ensures
      var m := Next(s, Purchases(context, p, date));
      && (s.flow.Some? ==> m == s)
      && (s.flow.None? ==>
            && m.flow.Some? && m.flow.value.productId == p && m.flow.value.phase == Open && m.file == s.file && m.tasks == s.tasks
            && (context.None? ==> m.cache == s.cache && m.flow.value.own.None?)
            && (context.Some? ==>
                  && m.cache.contexts == s.cache.contexts[p := PendingContext(|s.attempts|, context.value, date)]
                  && m.cache.latest == s.cache.latest[p := |s.attempts|]
                  && m.attempts == s.attempts + [Attempt(p, context.value, date)]
                  && m.flow.value.own == Some(Own(|s.attempts|, context.value))))
  {
  }

  /** The flow from its start, with nothing between: it ends in at most four steps. */
  function Flowed(s: System, context: Option<ReceiptContext>, p: ProductId, date: int, o: PurchaseOutcome, io: JournalIo): System {
    Next(Next(Next(Next(s, Purchases(context, p, date)), Settles(o)), Continues(io)), Continues(io))
  }

  /** The record of a purchase that was made. */
  function OwnRecord(p: ProductId, o: PurchaseOutcome, context: ReceiptContext): Metadata
    requires o.Made?
  {
    Metadata(Identity(o.transactionId, o.purchaseToken, p), context)
  }

  /**
   * A purchase leaves its context cached exactly if it was deferred, or was made and could not
   * be stored; every other end drops the product's context, even one of an earlier purchase.
   * Only a purchase that was made with a context touches the journal.
   */
  lemma PurchaseLeaves(s: System, context: Option<ReceiptContext>, p: ProductId, date: int, o: PurchaseOutcome, io: JournalIo)
    requires s.flow.None?
    ensures
      var m := Flowed(s, context, p, date, o, io);
      var stores := o.Made? && context.Some?;
      var stored := stores && Store(s.file, OwnRecord(p, o, context.value), io).1;
      && m.flow.None? && m.tasks == s.tasks
      && m.file == (if stores then Store(s.file, OwnRecord(p, o, context.value), io).0 else s.file)
      && (if o.Deferred? || (stores && !stored)
          then m.cache.contexts == if context.Some? then s.cache.contexts[p := PendingContext(|s.attempts|, context.value, date)] else s.cache.contexts
          else m.cache.contexts == s.cache.contexts - {p} && p !in m.cache.latest)
  {
    var started := Next(s, Purchases(context, p, date));
    PurchaseOpens(s, context, p, date);
    SheetCloses(started, o, io);
  }

  lemma SheetCloses(s: System, o: PurchaseOutcome, io: JournalIo)
    requires s.flow.Some? && s.flow.value.phase == Open
    ensures
      var m := Next(Next(Next(s, Settles(o)), Continues(io)), Continues(io));
      var p, own := s.flow.value.productId, s.flow.value.own;
      var stores := o.Made? && own.Some?;
      var stored := stores && Store(s.file, OwnRecord(p, o, own.value.receiptContext), io).1;
      && m.flow.None? && m.tasks == s.tasks
      && m.file == (if stores then Store(s.file, OwnRecord(p, o, own.value.receiptContext), io).0 else s.file)
      && (if o.Deferred? || (stores && !stored) then m.cache == s.cache
          else m.cache == s.cache.(contexts := s.cache.contexts - {p}, latest := s.cache.latest - {p}))
  {
    var closed := Next(s, Settles(o));
    if o.Made? && s.flow.value.own.Some? {
      assert FlowRecord(closed).Some?;
    }
  }

  /** A new process knows the file and nothing else. */
  lemma RestartForgets(s: System)
    ensures
      var m := Next(s, Restarts);
      && m.file == s.file && m.flow.None? && m.tasks == [] && m.owners == map[]
      && m.cache.contexts == map[] && m.cache.latest == map[] && m.cache.promotions == map[] && m.cache.waiters == map[]
  {
  }

  // ---- What becomes of an attempt ------------------------------------------------------

  /** Once its promotion is committed, the latest attempt of a product has left the cache, with its context. */
  lemma CommitForgets(c: Cache, claim: Claim)
    ensures
      var after, p := Commit(c, claim).0, claim.identity.productId;
      && !(p in after.latest && after.latest[p] == claim.attemptId)
      && (p in c.latest && c.latest[p] == claim.attemptId && p in after.contexts ==> after.contexts[p].attemptId != claim.attemptId)
      && (forall q :: q != p ==> (q in after.contexts <==> q in c.contexts) && (q in after.latest <==> q in c.latest))
  {
  }

  /** The attempt is the latest of its product. */
  predicate IsLatest(s: System, a: AttemptId)
    requires a < |s.attempts|
  {
    var p := s.attempts[a].productId;
    p in s.cache.latest && s.cache.latest[p] == a
  }

  lemma CompletingRetires(s: System, t: TaskId, claim: Claim, stored: bool, a: AttemptId)
    requires t < |s.tasks| && a < |s.attempts| && IsLatest(s, a)
    ensures IsLatest(Complete(s, t, claim, stored), a) || a in Complete(s, t, claim, stored).retired
  {
  }

  lemma AdvancingRetires(s: System, t: TaskId, io: JournalIo, a: AttemptId)
    requires t < |s.tasks| && a < |s.attempts| && IsLatest(s, a)
    ensures IsLatest(Advance(s, t, io), a) || a in Advance(s, t, io).retired
  {
    if s.tasks[t].phase.Completing? { CompletingRetires(s, t, s.tasks[t].phase.claim, s.tasks[t].phase.stored, a); }
  }

  lemma FlowRetires(s: System, op: Op, a: AttemptId)
    requires a < |s.attempts| && IsLatest(s, a) && (op.Purchases? || op.Settles? || op.Continues?)
    ensures a < |Next(s, op).attempts|
    ensures IsLatest(Next(s, op), a) || a in Next(s, op).retired
  {
  }

  lemma StepRetires(s: System, op: Op, a: AttemptId)
    requires a < |s.attempts| && IsLatest(s, a) && !op.Restarts?
    ensures a < |Next(s, op).attempts|
    ensures IsLatest(Next(s, op), a) || a in Next(s, op).retired
  {
    match op
    case Advances(t, io) => if t < |s.tasks| { AdvancingRetires(s, t, io, a); }
    case Purchases(_, _, _) => FlowRetires(s, op, a);
    case Settles(_) => FlowRetires(s, op, a);
    case Continues(_) => FlowRetires(s, op, a);
    case _ =>
  }

  lemma NewIsLatest(s: System, op: Op)
    requires |Next(s, op).attempts| > |s.attempts|
    ensures |Next(s, op).attempts| == |s.attempts| + 1 && IsLatest(Next(s, op), |s.attempts|)
  {
  }

  /** While the process lives, every attempt is the latest of its product, or was dropped, superseded or committed. */
  lemma {:induction false} AttemptsAreAccountedFor(f: JournalFile, ops: seq<Op>, a: AttemptId)
    requires Restarts !in ops && a < |Run(Start(f), ops).attempts|
    ensures IsLatest(Run(Start(f), ops), a) || a in Run(Start(f), ops).retired
  {
    var front, op := ops[..|ops| - 1], ops[|ops| - 1];
    var s := Run(Start(f), front);
    if a < |s.attempts| {
      AttemptsAreAccountedFor(f, front, a);
      HistoryGrows(s, op);
      if IsLatest(s, a) { StepRetires(s, op, a); }
    } else {
      NewIsLatest(s, op);
    }
  }
}
