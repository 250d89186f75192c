/**
 * Ask-to-Buy attribution: the durable journal, the in-memory cache of pending purchase
 * contexts, the purchase flow that fills the cache and stores its own result, and the sync
 * tasks that move a context from the cache to the journal.
 *
 * Each call of an actor is one atomic step; between two steps of a task any other task, the
 * purchase flow or a removal may run.
 */
module AskToBuyModel {
  import opened Options
  import opened PurchaseTypes

  type ReceiptContext = NativeReceiptContext
  type TransactionId = string

  /** A `UUID()`; the system numbers them in the order they are made. */
  type AttemptId = nat
  type TaskId = nat

  const MAXIMUM_TRANSACTIONS: nat := 32

  /** One exact StoreKit transaction. */
  datatype Identity = Identity(transactionId: TransactionId, purchaseToken: Token, productId: ProductId)

  datatype Metadata = Metadata(identity: Identity, receiptContext: ReceiptContext)

  // ---- LocalTransactionMetadataStore ---------------------------------------------------

  datatype JournalFile = NoFile | Unreadable | Holds(transactions: map<TransactionId, Metadata>)

  /** How the disk behaves in one call. A failed write may or may not have replaced the file. */
  datatype JournalIo = Works | ReadFails | WriteFails(landed: bool)

  predicate ValidTransactions(ts: map<TransactionId, Metadata>) {
    |ts| <= MAXIMUM_TRANSACTIONS && forall k :: k in ts ==> ts[k].identity.transactionId == k
  }

  function Load(f: JournalFile): Option<map<TransactionId, Metadata>> {
    match f
    case NoFile => Some(map[])
    case Unreadable => None
    case Holds(ts) => if ValidTransactions(ts) then Some(ts) else None
  }

  /** What a reader can find in the file. */
  function Contents(f: JournalFile): map<TransactionId, Metadata> {
    if Load(f).Some? then Load(f).value else map[]
  }

  function WriteFile(f: JournalFile, ts: map<TransactionId, Metadata>, io: JournalIo): (JournalFile, bool) {
    if |ts| > MAXIMUM_TRANSACTIONS then (f, false)
    else if io.WriteFails? then (if io.landed then Holds(ts) else f, false)
    else (Holds(ts), true)
  }

  /** The flag is false when `store` throws. */
  function Store(f: JournalFile, m: Metadata, io: JournalIo): (JournalFile, bool) {
    if io.ReadFails? || Load(f).None? then (f, false)
    else
      var ts := Load(f).value;
      if m.identity.transactionId in ts then (f, ts[m.identity.transactionId] == m)
      else WriteFile(f, ts[m.identity.transactionId := m], io)
  }

  datatype Lookup = LookupThrew | Found(context: Option<ReceiptContext>)

  function ReceiptContextOf(f: JournalFile, i: Identity, io: JournalIo): Lookup {
    if io.ReadFails? || Load(f).None? then LookupThrew
    else
      var ts := Load(f).value;
      if i.transactionId in ts && ts[i.transactionId].identity == i
      then Found(Some(ts[i.transactionId].receiptContext))
      else Found(None)
  }

  datatype Removal = RemovalThrew | Removed(found: bool)

  function RemoveRecord(f: JournalFile, id: TransactionId, token: Token, io: JournalIo): (JournalFile, Removal) {
    if io.ReadFails? || Load(f).None? then (f, RemovalThrew)
    else
      var ts := Load(f).value;
      if id !in ts || ts[id].identity.purchaseToken != token then (f, Removed(false))
      else
        var (written, ok) := WriteFile(f, ts - {id}, io);
        (written, if ok then Removed(true) else RemovalThrew)
  }

  // ---- PendingPurchaseContextCache -----------------------------------------------------

  datatype PendingContext = PendingContext(attemptId: AttemptId, receiptContext: ReceiptContext, purchaseAttemptDate: int)

  datatype Cache = Cache(
    contexts: map<ProductId, PendingContext>,
    latest: map<ProductId, AttemptId>,
    promotions: map<Identity, AttemptId>,
    waiters: map<Identity, seq<TaskId>>)

  const EMPTY_CACHE := Cache(map[], map[], map[], map[])

  datatype Claim = Claim(identity: Identity, attemptId: AttemptId, receiptContext: ReceiptContext, purchaseAttemptDate: int)

  datatype Acquisition = Owner(claim: Claim) | Waits | Absent

  function CacheContext(c: Cache, context: ReceiptContext, productId: ProductId, attempt: AttemptId, date: int): Cache {
    c.(latest := c.latest[productId := attempt],
       contexts := c.contexts[productId := PendingContext(attempt, context, date)])
  }

  function ClaimOrWait(c: Cache, i: Identity, purchaseDate: int, task: TaskId): (Cache, Acquisition) {
    if i in c.promotions then
      (c.(waiters := c.waiters[i := (if i in c.waiters then c.waiters[i] else []) + [task]]), Waits)
    else if i.productId !in c.contexts || c.contexts[i.productId].purchaseAttemptDate > purchaseDate then
      (c, Absent)
    else
      var cached := c.contexts[i.productId];
      var claim := Claim(i, cached.attemptId, cached.receiptContext, cached.purchaseAttemptDate);
      (c.(contexts := c.contexts - {i.productId}, promotions := c.promotions[i := cached.attemptId]), Owner(claim))
  }

  /** The tasks to resume come out in the order they began to wait. */
  function CompletePromotion(c: Cache, claim: Claim): (Cache, seq<TaskId>) {
    var i := claim.identity;
    if i !in c.promotions || c.promotions[i] != claim.attemptId then (c, [])
    else (c.(promotions := c.promotions - {i}, waiters := c.waiters - {i}), if i in c.waiters then c.waiters[i] else [])
  }

  function Commit(c: Cache, claim: Claim): (Cache, seq<TaskId>) {
    var p := claim.identity.productId;
    var (completed, woken) := CompletePromotion(c, claim);
    if p !in completed.latest || completed.latest[p] != claim.attemptId then (completed, woken)
    else
      var contexts :=
        if p in completed.contexts && completed.contexts[p].attemptId == claim.attemptId
        then completed.contexts - {p} else completed.contexts;
      (completed.(contexts := contexts, latest := completed.latest - {p}), woken)
  }

  function Rollback(c: Cache, claim: Claim): (Cache, seq<TaskId>) {
    var p := claim.identity.productId;
    var restored :=
      if p in c.latest && c.latest[p] == claim.attemptId && p !in c.contexts
      then c.(contexts := c.contexts[p := PendingContext(claim.attemptId, claim.receiptContext, claim.purchaseAttemptDate)])
      else c;
    CompletePromotion(restored, claim)
  }

  function RemoveProduct(c: Cache, productId: ProductId): Cache {
    c.(contexts := c.contexts - {productId}, latest := c.latest - {productId})
  }

  // ---- receiptContextForSync -----------------------------------------------------------

  datatype SyncResult = Returned(context: Option<ReceiptContext>) | Threw

  /** Where a sync stands between two actor calls. */
  datatype Phase =
    | Reading
    | Acquiring
    | Storing(claim: Claim)
    | Completing(claim: Claim, stored: bool)
    | Waiting
    | Rereading(required: bool)
    | Finished(result: SyncResult)

  datatype SyncTask = SyncTask(identity: Identity, purchaseDate: int, isRenewal: Option<bool>, phase: Phase)

  /** A sync learned that its transaction's context is durable; `removals` dates it. */
  datatype Sighting = Sighting(identity: Identity, context: ReceiptContext, removals: nat)

  datatype Promotion = Promotion(attemptId: AttemptId, identity: Identity, context: ReceiptContext)

  // ---- performPurchase -----------------------------------------------------------------

  /** What the purchase sheet came to: nothing bought, left to somebody's approval, or bought. */
  datatype PurchaseOutcome = NotMade | Deferred | Made(transactionId: TransactionId, purchaseToken: Token)

  /** The context a purchase was given, and the attempt it was cached under. */
  datatype Own = Own(attemptId: AttemptId, receiptContext: ReceiptContext)

  /** Where the flow stands between two awaits: at the sheet, about to store, about to drop its product. */
  datatype FlowPhase = Open | Recording(transactionId: TransactionId, purchaseToken: Token) | Dropping

  datatype Flow = Flow(productId: ProductId, own: Option<Own>, phase: FlowPhase)

  // ---- The system ----------------------------------------------------------------------

  /** What a purchase flow cached. */
  datatype Attempt = Attempt(productId: ProductId, receiptContext: ReceiptContext, purchaseAttemptDate: int)

  /**
   * `flow` is the one purchase the gate has admitted; `owners` names the task behind each
   * running promotion. `attempts`, `retired` (attempts dropped, superseded or committed),
   * `promoted`, `seen` and `removals` are history.
   */
  datatype System = System(
    cache: Cache,
    file: JournalFile,
    flow: Option<Flow>,
    tasks: seq<SyncTask>,
    owners: map<Identity, TaskId>,
    attempts: seq<Attempt>,
    retired: set<AttemptId>,
    promoted: seq<Promotion>,
    seen: seq<Sighting>,
    removals: map<TransactionId, nat>)

  function Removals(s: System, id: TransactionId): nat {
    if id in s.removals then s.removals[id] else 0
  }

  function Start(f: JournalFile): System {
    System(EMPTY_CACHE, f, None, [], map[], [], {}, [], [], map[])
  }

  function Move(s: System, t: TaskId, phase: Phase): System
    requires t < |s.tasks|
  {
    s.(tasks := s.tasks[t := s.tasks[t].(phase := phase)])
  }

  function See(s: System, i: Identity, context: ReceiptContext): System {
    s.(seen := s.seen + [Sighting(i, context, Removals(s, i.transactionId))])
  }

  /** History only grows, by at most one entry a step. */
  predicate Grows(before: seq<Sighting>, after: seq<Sighting>) {
    before <= after && |after| <= |before| + 1
  }

  /** Each resumed waiter rereads the journal, or rethrows the owner's error. */
  function Resume(tasks: seq<SyncTask>, woken: seq<TaskId>, stored: bool): (r: seq<SyncTask>)
    ensures |r| == |tasks|
    ensures forall t :: 0 <= t < |tasks| ==>
      r[t] == if t in woken then tasks[t].(phase := if stored then Rereading(true) else Finished(Threw)) else tasks[t]
  {
    seq(|tasks|, t requires 0 <= t < |tasks| =>
      if t in woken then tasks[t].(phase := if stored then Rereading(true) else Finished(Threw)) else tasks[t])
  }

  function AfterLookup(lookup: Lookup, missing: Phase): Phase {
    match lookup
    case LookupThrew => Finished(Threw)
    case Found(context) => if context.Some? then Finished(Returned(context)) else missing
  }

  function Read(s: System, t: TaskId, io: JournalIo, missing: Phase): (m: System)
    requires t < |s.tasks|
    ensures m.flow == s.flow
    ensures |m.tasks| == |s.tasks| && m.cache == s.cache && m.owners == s.owners
    ensures m.attempts == s.attempts && m.retired == s.retired
    ensures Grows(s.seen, m.seen) && m.promoted == s.promoted
  {
    var i := s.tasks[t].identity;
    var lookup := ReceiptContextOf(s.file, i, io);
    var moved := Move(s, t, AfterLookup(lookup, missing));
    if lookup.Found? && lookup.context.Some? then See(moved, i, lookup.context.value) else moved
  }

  function AfterMiss(t: SyncTask): Phase {
    if t.isRenewal == Some(true) then Finished(Returned(None)) else Acquiring
  }

  function Acquire(s: System, t: TaskId): (m: System)
    requires t < |s.tasks|
    ensures m.flow == s.flow && m.attempts == s.attempts && m.cache.latest == s.cache.latest
    ensures |m.tasks| == |s.tasks| && m.seen == s.seen && m.file == s.file
    ensures m.promoted == s.promoted && s.retired <= m.retired
  {
    var i := s.tasks[t].identity;
    var (cache, acquisition) := ClaimOrWait(s.cache, i, s.tasks[t].purchaseDate, t);
    var acquired := s.(cache := cache);
    match acquisition
    case Owner(claim) => Move(acquired.(owners := s.owners[i := t]), t, Storing(claim))
    case Waits => Move(acquired, t, Waiting)
    case Absent => Move(acquired, t, Rereading(false))
  }

  function Promote(s: System, t: TaskId, claim: Claim, io: JournalIo): (m: System)
    requires t < |s.tasks|
    ensures m.flow == s.flow
    ensures |m.tasks| == |s.tasks| && m.cache == s.cache && m.owners == s.owners
    ensures m.attempts == s.attempts && m.retired == s.retired
    ensures Grows(s.seen, m.seen) && s.promoted <= m.promoted
  {
    var i := s.tasks[t].identity;
    var (file, ok) := Store(s.file, Metadata(i, claim.receiptContext), io);
    var stored := Move(s.(file := file), t, Completing(claim, ok));
    if !ok then stored
    else See(stored, i, claim.receiptContext).(promoted := s.promoted + [Promotion(claim.attemptId, i, claim.receiptContext)])
  }

  function Complete(s: System, t: TaskId, claim: Claim, stored: bool): (m: System)
    requires t < |s.tasks|
    ensures m.flow == s.flow && m.attempts == s.attempts
    ensures |m.tasks| == |s.tasks| && m.seen == s.seen && m.file == s.file
    ensures m.promoted == s.promoted && s.retired <= m.retired
  {
    var (cache, woken) := if stored then Commit(s.cache, claim) else Rollback(s.cache, claim);
    var done := Finished(if stored then Returned(Some(claim.receiptContext)) else Threw);
    var retired := if stored then s.retired + {claim.attemptId} else s.retired;
    Move(s.(cache := cache, tasks := Resume(s.tasks, woken, stored), owners := s.owners - {claim.identity}, retired := retired), t, done)
  }

  function Advance(s: System, t: TaskId, io: JournalIo): (m: System)
    requires t < |s.tasks|
    ensures m.flow == s.flow && m.attempts == s.attempts
    ensures |m.tasks| == |s.tasks|
    ensures Grows(s.seen, m.seen) && s.promoted <= m.promoted && s.retired <= m.retired
  {
    match s.tasks[t].phase
    case Reading => Read(s, t, io, AfterMiss(s.tasks[t]))
    case Acquiring => Acquire(s, t)
    case Storing(claim) => Promote(s, t, claim, io)
    case Completing(claim, stored) => Complete(s, t, claim, stored)
    case Waiting => s
    case Rereading(required) => Read(s, t, io, Finished(if required then Threw else Returned(None)))
    case Finished(_) => s
  }

  datatype Op =
    | Purchases(context: Option<ReceiptContext>, productId: ProductId, date: int)  // a flow starts and caches its context
    | Settles(outcome: PurchaseOutcome)                                     // its sheet closes
    | Continues(io: JournalIo)                                              // it stores its transaction, or drops its product
    | Removes(id: TransactionId, token: Token, io: JournalIo)               // the transaction is about to be finished
    | Begins(identity: Identity, purchaseDate: int, isRenewal: Option<bool>)
    | Advances(task: TaskId, io: JournalIo)
    | Restarts

  function Retire(s: System, p: ProductId): set<AttemptId> {
    s.retired + if p in s.cache.latest then {s.cache.latest[p]} else {}
  }

  function Remove(s: System, id: TransactionId, token: Token, io: JournalIo): System {
    var (file, _) := RemoveRecord(s.file, id, token, io);
    s.(file := file,
       removals := if file != s.file then s.removals[id := Removals(s, id) + 1] else s.removals)
  }

  /** A step of the flow leaves the tasks and what they did alone. */
  predicate SameButFlow(s: System, m: System) {
    && m.tasks == s.tasks && m.owners == s.owners && m.promoted == s.promoted && m.seen == s.seen && m.removals == s.removals
    && m.cache.promotions == s.cache.promotions && m.cache.waiters == s.cache.waiters
  }

  /** The gate admits one purchase at a time. A purchase without a context caches nothing. */
  function Purchase(s: System, context: Option<ReceiptContext>, p: ProductId, date: int): (m: System)
    ensures SameButFlow(s, m) && m.file == s.file
  {
    if s.flow.Some? then s
    else if context.None? then s.(flow := Some(Flow(p, None, Open)))
    else
      s.(cache := CacheContext(s.cache, context.value, p, |s.attempts|, date),
         attempts := s.attempts + [Attempt(p, context.value, date)],
         retired := Retire(s, p),
         flow := Some(Flow(p, Some(Own(|s.attempts|, context.value)), Open)))
  }

  function Settle(s: System, outcome: PurchaseOutcome): (m: System)
    ensures m == s.(flow := m.flow)
  {
    if s.flow.None? || s.flow.value.phase != Open then s
    else
      match outcome
      case NotMade => s.(flow := Some(s.flow.value.(phase := Dropping)))
      case Deferred => s.(flow := None)
      case Made(id, token) =>
        s.(flow := Some(s.flow.value.(phase := if s.flow.value.own.Some? then Recording(id, token) else Dropping)))
  }

  /** The record the flow is about to store, under the attempt it is the result of. */
  function FlowRecord(s: System): Option<Promotion> {
    if s.flow.Some? && s.flow.value.phase.Recording? && s.flow.value.own.Some? then
      var flow := s.flow.value;
      Some(Promotion(flow.own.value.attemptId,
                     Identity(flow.phase.transactionId, flow.phase.purchaseToken, flow.productId),
                     flow.own.value.receiptContext))
    else None
  }

  /** A store that throws ends the flow before its product is dropped. */
  function Continue(s: System, io: JournalIo): (m: System)
    ensures SameButFlow(s, m) && m.attempts == s.attempts
  {
    if FlowRecord(s).Some? then
      var x := FlowRecord(s).value;
      var (file, ok) := Store(s.file, Metadata(x.identity, x.context), io);
      s.(file := file, flow := if ok then Some(s.flow.value.(phase := Dropping)) else None)
    else if s.flow.Some? && s.flow.value.phase.Dropping? then
      var p := s.flow.value.productId;
      s.(cache := RemoveProduct(s.cache, p), retired := Retire(s, p), flow := None)
    else s
  }

  function Next(s: System, op: Op): System {
    match op
    case Purchases(context, p, date) => Purchase(s, context, p, date)
    case Settles(outcome) => Settle(s, outcome)
    case Continues(io) => Continue(s, io)
    case Removes(id, token, io) => Remove(s, id, token, io)
    case Begins(i, date, isRenewal) => s.(tasks := s.tasks + [SyncTask(i, date, isRenewal, Reading)])
    case Advances(t, io) => if t < |s.tasks| then Advance(s, t, io) else s
    case Restarts => s.(cache := EMPTY_CACHE, flow := None, tasks := [], owners := map[])
  }

  function Run(s: System, ops: seq<Op>): System {
    if ops == [] then s else Next(Run(s, ops[..|ops| - 1]), ops[|ops| - 1])
  }
}
