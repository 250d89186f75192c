/** The guarantees of Ask-to-Buy attribution, from any journal, in every run. */
module AskToBuyResults {
  import opened Options
  import opened PurchaseTypes
  import opened AskToBuyModel
  import opened AskToBuyInvariant
  import opened AskToBuyTheorems

  lemma InvFromStart(f: JournalFile, ops: seq<Op>)
    ensures Inv(Run(Start(f), ops))
  {
    InvAlong(Start(f), ops);
  }

  // ---- One attempt, one transaction ----------------------------------------------------

  /**
   * An attempt is promoted at most once. After that it is not in the cache, and no claim on
   * it can still reach the journal.
   */
  lemma PromotedAtMostOnce(f: JournalFile, ops: seq<Op>, k: nat)
    requires k < |Run(Start(f), ops).promoted|
    ensures
      var s := Run(Start(f), ops);
      var a := s.promoted[k].attemptId;
      && (forall j :: 0 <= j < |s.promoted| && s.promoted[j].attemptId == a ==> j == k)
      && (forall p :: p in s.cache.contexts ==> s.cache.contexts[p].attemptId != a)
      && (forall t :: 0 <= t < |s.tasks| && s.tasks[t].phase.Storing? ==> s.tasks[t].phase.claim.attemptId != a)
  {
    InvFromStart(f, ops);
    var s := Run(Start(f), ops);
    forall t | 0 <= t < |s.tasks| && s.tasks[t].phase.Storing?
      ensures s.tasks[t].phase.claim.attemptId != s.promoted[k].attemptId
    {
      assert SpentTask(s.promoted, s.tasks[t]);
    }
  }

  lemma HistoryGrows(s: System, op: Op)
    ensures s.promoted <= Next(s, op).promoted && s.retired <= Next(s, op).retired && |s.attempts| <= |Next(s, op).attempts|
  {
  }

  lemma {:induction false} HistoryGrowsAlong(s: System, ops: seq<Op>, n: nat)
    requires n <= |ops|
    ensures Run(s, ops[..n]).promoted <= Run(s, ops).promoted && Run(s, ops[..n]).retired <= Run(s, ops).retired
    ensures |Run(s, ops[..n]).attempts| <= |Run(s, ops).attempts|
  {
    if n == |ops| {
      assert ops[..n] == ops;
    } else {
      var rest := ops[..|ops| - 1];
      assert rest[..n] == ops[..n];
      HistoryGrowsAlong(s, rest, n);
      HistoryGrows(Run(s, rest), ops[|ops| - 1]);
    }
  }

  /** A context comes from the attempt it is filed under. */
  predicate Origin(attempts: seq<Attempt>, a: AttemptId, p: ProductId, context: ReceiptContext, date: int) {
    a < |attempts| && attempts[a] == Attempt(p, context, date)
  }

  predicate TaskOrigin(attempts: seq<Attempt>, t: SyncTask) {
    ClaimOf(t).Some? ==>
      var c := ClaimOf(t).value;
      && c.identity == t.identity
      && Origin(attempts, c.attemptId, c.identity.productId, c.receiptContext, c.purchaseAttemptDate)
      && c.purchaseAttemptDate <= t.purchaseDate
  }

  predicate PromotionOrigin(attempts: seq<Attempt>, x: Promotion) {
    && x.attemptId < |attempts|
    && attempts[x.attemptId].productId == x.identity.productId
    && attempts[x.attemptId].receiptContext == x.context
  }

  ghost predicate CachedOrigin(attempts: seq<Attempt>, contexts: map<ProductId, PendingContext>) {
    forall p :: p in contexts ==>
      Origin(attempts, contexts[p].attemptId, p, contexts[p].receiptContext, contexts[p].purchaseAttemptDate)
  }

  ghost predicate TaskOrigins(attempts: seq<Attempt>, tasks: seq<SyncTask>) {
    forall t :: 0 <= t < |tasks| ==> TaskOrigin(attempts, tasks[t])
  }

  ghost predicate OriginOk(s: System) {
    && CachedOrigin(s.attempts, s.cache.contexts)
    && TaskOrigins(s.attempts, s.tasks)
    && (forall k :: 0 <= k < |s.promoted| ==> PromotionOrigin(s.attempts, s.promoted[k]))
  }

  lemma CompletedOrigins(attempts: seq<Attempt>, tasks: seq<SyncTask>, after: seq<SyncTask>, t: TaskId, i: Identity)
    requires |tasks| == |after| && forall u :: 0 <= u < |tasks| ==> CompletedTask(tasks, after, u, t, i)
    requires TaskOrigins(attempts, tasks)
    ensures TaskOrigins(attempts, after)
  {
    forall u | 0 <= u < |after| ensures TaskOrigin(attempts, after[u]) {
      assert CompletedTask(tasks, after, u, t, i) && TaskOrigin(attempts, tasks[u]);
    }
  }

  lemma CompletedCacheOrigin(attempts: seq<Attempt>, c: Cache, claim: Claim, stored: bool)
    requires CachedOrigin(attempts, c.contexts)
    requires Origin(attempts, claim.attemptId, claim.identity.productId, claim.receiptContext, claim.purchaseAttemptDate)
    ensures CachedOrigin(attempts, (if stored then Commit(c, claim) else Rollback(c, claim)).0.contexts)
  {
  }

  lemma CompleteKeepsOrigin(s: System, t: TaskId)
    requires RolesOk(s.cache, s.owners, s.tasks) && OriginOk(s) && t < |s.tasks| && s.tasks[t].phase.Completing?
    ensures OriginOk(Complete(s, t, s.tasks[t].phase.claim, s.tasks[t].phase.stored))
  {
    var m := Complete(s, t, s.tasks[t].phase.claim, s.tasks[t].phase.stored);
    assert TaskOrigin(s.attempts, s.tasks[t]);
    CompletedCacheOrigin(s.attempts, s.cache, s.tasks[t].phase.claim, s.tasks[t].phase.stored);
    CompletedAll(s, t);
    CompletedOrigins(s.attempts, s.tasks, m.tasks, t, s.tasks[t].identity);
  }

  lemma ReadKeepsOrigin(s: System, t: TaskId, io: JournalIo, missing: Phase)
    requires OriginOk(s) && t < |s.tasks| && Idle(missing)
    ensures OriginOk(Read(s, t, io, missing))
  {
    var m := Read(s, t, io, missing);
    forall u | 0 <= u < |s.tasks| ensures TaskOrigin(s.attempts, m.tasks[u]) {
      assert TaskOrigin(s.attempts, s.tasks[u]);
    }
  }

  lemma PromoteKeepsOrigin(s: System, t: TaskId, claim: Claim, io: JournalIo)
    requires OriginOk(s) && t < |s.tasks| && s.tasks[t].phase == Storing(claim)
    ensures OriginOk(Promote(s, t, claim, io))
  {
    var m := Promote(s, t, claim, io);
    assert TaskOrigin(s.attempts, s.tasks[t]);
    forall u | 0 <= u < |s.tasks| ensures TaskOrigin(s.attempts, m.tasks[u]) {
      assert TaskOrigin(s.attempts, s.tasks[u]);
    }
  }

  lemma AcquireKeepsOrigin(s: System, t: TaskId)
    requires OriginOk(s) && t < |s.tasks|
    ensures OriginOk(Acquire(s, t))
  {
    var m := Acquire(s, t);
    forall u | 0 <= u < |s.tasks| ensures TaskOrigin(s.attempts, m.tasks[u]) {
      assert TaskOrigin(s.attempts, s.tasks[u]);
    }
  }

  lemma AdvanceKeepsOrigin(s: System, t: TaskId, io: JournalIo)
    requires RolesOk(s.cache, s.owners, s.tasks) && OriginOk(s) && t < |s.tasks|
    ensures OriginOk(Advance(s, t, io))
  {
    match s.tasks[t].phase
    case Reading => ReadKeepsOrigin(s, t, io, AfterMiss(s.tasks[t]));
    case Acquiring => AcquireKeepsOrigin(s, t);
    case Storing(claim) => PromoteKeepsOrigin(s, t, claim, io);
    case Completing(_, _) => CompleteKeepsOrigin(s, t);
    case Rereading(required) => ReadKeepsOrigin(s, t, io, Finished(if required then Threw else Returned(None)));
    case _ =>
  }

  lemma OriginStep(s: System, op: Op)
    requires RolesOk(s.cache, s.owners, s.tasks) && OriginOk(s)
    ensures OriginOk(Next(s, op))
  {
    var m := Next(s, op);
    if op.Advances? {
      if op.task < |s.tasks| { AdvanceKeepsOrigin(s, op.task, op.io); }
    } else {
      forall u | 0 <= u < |m.tasks| ensures TaskOrigin(m.attempts, m.tasks[u]) {
        if u < |s.tasks| { assert TaskOrigin(s.attempts, s.tasks[u]); }
      }
      forall k | 0 <= k < |m.promoted| ensures PromotionOrigin(m.attempts, m.promoted[k]) {
        assert PromotionOrigin(s.attempts, s.promoted[k]);
      }
    }
  }

  /**
   * A promotion gives a transaction the context that some purchase of the same product
   * cached, and a promotion under way uses one cached no later than the transaction's date.
   */
  lemma {:induction false} PromotionsKeepTheirContext(f: JournalFile, ops: seq<Op>)
    ensures OriginOk(Run(Start(f), ops))
  {
    if ops != [] {
      var rest := ops[..|ops| - 1];
      PromotionsKeepTheirContext(f, rest);
      InvFromStart(f, rest);
      OriginStep(Run(Start(f), rest), ops[|ops| - 1]);
    }
  }

  // ---- Durable before visible ----------------------------------------------------------

  ghost predicate DurableAlong(f: JournalFile, ops: seq<Op>, i: Identity, context: ReceiptContext) {
    exists n :: 0 <= n <= |ops| && DurableIn(Contents(Run(Start(f), ops[..n]).file), i, context)
  }

  lemma DurableLonger(f: JournalFile, ops: seq<Op>, op: Op, i: Identity, context: ReceiptContext)
    requires DurableAlong(f, ops, i, context)
    ensures DurableAlong(f, ops + [op], i, context)
  {
    var n :| 0 <= n <= |ops| && DurableIn(Contents(Run(Start(f), ops[..n]).file), i, context);
    assert (ops + [op])[..n] == ops[..n];
  }

  /**
   * A sync that returns a context, or is about to, does so only after the journal held that
   * context under exactly this transaction id, token and product.
   */
  lemma {:induction false} ContextOnlyAfterDurable(f: JournalFile, ops: seq<Op>, t: TaskId)
    requires t < |Run(Start(f), ops).tasks| && Learned(Run(Start(f), ops).tasks[t]).Some?
    ensures
      var task := Run(Start(f), ops).tasks[t];
      DurableAlong(f, ops, task.identity, Learned(task).value)
  {
    if ops != [] {
      var rest, op := ops[..|ops| - 1], ops[|ops| - 1];
      var before := Run(Start(f), rest);
      var task := Run(Start(f), ops).tasks[t];
      InvFromStart(f, rest);
      LearnsFromJournal(before, op, t);
      assert ops == rest + [op] && ops[..|ops|] == ops;
      if t < |before.tasks| && before.tasks[t].identity == task.identity && Learned(before.tasks[t]) == Learned(task) {
        ContextOnlyAfterDurable(f, rest, t);
        DurableLonger(f, rest, op, task.identity, Learned(task).value);
      }
    }
  }

  /**
   * Two syncs that learn a context for one transaction between the same two removals of its
   * record learn the same one, under the same token and product.
   */
  lemma SyncsAgree(f: JournalFile, ops: seq<Op>, j: nat, k: nat)
    requires j < |Run(Start(f), ops).seen| && k < |Run(Start(f), ops).seen|
    ensures Agree(Run(Start(f), ops).seen[j], Run(Start(f), ops).seen[k])
  {
    InvFromStart(f, ops);
    BothWays(Run(Start(f), ops).seen, j, k);
  }

  lemma BothWays(seen: seq<Sighting>, j: nat, k: nat)
    requires j < |seen| && k < |seen|
    requires forall j, k :: 0 <= j < k < |seen| ==> Agree(seen[j], seen[k])
    ensures Agree(seen[j], seen[k])
  {
    if k < j { assert Agree(seen[k], seen[j]); }
  }

  /** Until the first removal of a transaction's record, all its successful syncs return the journal's context. */
  lemma ResultsMatchJournal(f: JournalFile, ops: seq<Op>, t: TaskId)
    requires t < |Run(Start(f), ops).tasks| && Learned(Run(Start(f), ops).tasks[t]).Some?
    requires Removals(Run(Start(f), ops), Run(Start(f), ops).tasks[t].identity.transactionId) == 0
    ensures
      var s := Run(Start(f), ops);
      DurableIn(Contents(s.file), s.tasks[t].identity, Learned(s.tasks[t]).value)
  {
    InvFromStart(f, ops);
    var s := Run(Start(f), ops);
    var i, context := s.tasks[t].identity, Learned(s.tasks[t]).value;
    assert WasSeen(s.seen, i, context);
    var k :| 0 <= k < |s.seen| && s.seen[k].identity == i && s.seen[k].context == context;
    assert SightingOk(Contents(s.file), Removals(s, i.transactionId), s.seen[k]);
  }

  // ---- Old claims ----------------------------------------------------------------------

  /**
   * Completing a claim, in any state of the cache, leaves every other attempt where it is:
   * cached contexts, latest marks, promotions and waiters of others are untouched. A commit
   * brings nothing back; a rollback brings back its own attempt, and only while that is
   * still its product's latest and nothing else is cached there.
   */
  lemma CompletionIsLocal(c: Cache, claim: Claim, p: ProductId, i: Identity)
    ensures
      var committed, rolledBack := Commit(c, claim).0, Rollback(c, claim).0;
      && (p in c.contexts && c.contexts[p].attemptId != claim.attemptId ==>
            && p in committed.contexts && committed.contexts[p] == c.contexts[p]
            && p in rolledBack.contexts && rolledBack.contexts[p] == c.contexts[p])
      && (p in c.latest && c.latest[p] != claim.attemptId ==>
            && p in committed.latest && committed.latest[p] == c.latest[p]
            && p in rolledBack.latest && rolledBack.latest[p] == c.latest[p])
      && (i in c.promotions && (i != claim.identity || c.promotions[i] != claim.attemptId) ==>
            && i in committed.promotions && committed.promotions[i] == c.promotions[i]
            && WaitersOf(committed.waiters, i) == WaitersOf(c.waiters, i)
            && i in rolledBack.promotions && rolledBack.promotions[i] == c.promotions[i]
            && WaitersOf(rolledBack.waiters, i) == WaitersOf(c.waiters, i))
      && (p !in c.contexts ==> p !in committed.contexts)
      && (p !in c.contexts ==>
            (p in rolledBack.contexts <==>
              p == claim.identity.productId && p in c.latest && c.latest[p] == claim.attemptId))
      && (p !in c.contexts && p in rolledBack.contexts ==>
            rolledBack.contexts[p] == PendingContext(claim.attemptId, claim.receiptContext, claim.purchaseAttemptDate))
  {
  }

  /** Once dropped, superseded or committed, an attempt is never offered to a sync again. */
  lemma RetiredStaysOut(f: JournalFile, ops: seq<Op>, later: seq<Op>, a: AttemptId)
    requires a in Run(Start(f), ops).retired
    ensures
      var c := Run(Start(f), ops + later).cache;
      && (forall p :: p in c.latest ==> c.latest[p] != a)
      && (forall p :: p in c.contexts ==> c.contexts[p].attemptId != a)
  {
    InvFromStart(f, ops + later);
    assert (ops + later)[..|ops|] == ops;
    HistoryGrowsAlong(Start(f), ops + later, |ops|);
    NotCached(Run(Start(f), ops + later).cache, |Run(Start(f), ops + later).attempts|, Run(Start(f), ops + later).retired, a);
  }

  lemma NotCached(c: Cache, bound: AttemptId, retired: set<AttemptId>, a: AttemptId)
    requires AttemptsOk(c, bound, retired) && a in retired
    ensures forall p :: p in c.latest ==> c.latest[p] != a
    ensures forall p :: p in c.contexts ==> c.contexts[p].attemptId != a
  {
    forall p | p in c.contexts ensures c.contexts[p].attemptId != a {
      assert CachedOk(c, p);
    }
  }

  // ---- Owners and waiters --------------------------------------------------------------

  /** At most one task at a time holds a claim for a transaction. */
  lemma OneOwner(f: JournalFile, ops: seq<Op>, t: TaskId, u: TaskId)
    requires
      var s := Run(Start(f), ops);
      && t < |s.tasks| && u < |s.tasks| && ClaimOf(s.tasks[t]).Some? && ClaimOf(s.tasks[u]).Some?
      && s.tasks[t].identity == s.tasks[u].identity
    ensures t == u
  {
    InvFromStart(f, ops);
    LiveClaim(Run(Start(f), ops), t);
    LiveClaim(Run(Start(f), ops), u);
  }

  /** A waiting sync is in its transaction's list exactly once, and the owner is still at work. */
  lemma WaitersHaveAnOwner(f: JournalFile, ops: seq<Op>, t: TaskId)
    requires t < |Run(Start(f), ops).tasks| && Run(Start(f), ops).tasks[t].phase == Waiting
    ensures
      var s := Run(Start(f), ops);
      var i := s.tasks[t].identity;
      && multiset(WaitersOf(s.cache.waiters, i))[t] == 1
      && i in s.owners && s.owners[i] < |s.tasks|
      && s.tasks[s.owners[i]].identity == i && ClaimOf(s.tasks[s.owners[i]]).Some?
  {
    InvFromStart(f, ops);
    var s := Run(Start(f), ops);
    var i := s.tasks[t].identity;
    assert TaskOk(s.cache.waiters, s.owners, s.tasks[t], t);
    assert ListOk(s.cache.waiters[i], s.tasks, i);
    OnceInDistinct(s.cache.waiters[i], t);
    assert OwnerOk(s.cache.promotions, s.owners, s.tasks, i);
    assert TaskOk(s.cache.waiters, s.owners, s.tasks[s.owners[i]], s.owners[i]);
  }

  lemma {:induction false} OnceInDistinct(list: seq<TaskId>, t: TaskId)
    requires forall j, k :: 0 <= j < k < |list| ==> list[j] != list[k]
    ensures multiset(list)[t] == if t in list then 1 else 0
  {
    if list != [] {
      var rest := list[..|list| - 1];
      assert list == rest + [list[|list| - 1]];
      OnceInDistinct(rest, t);
    }
  }

  // ---- Every sync ends -----------------------------------------------------------------

  /** How many of its own steps a sync has left at most. */
  function Rank(p: Phase): nat {
    match p
    case Reading => 5
    case Acquiring => 4
    case Storing(_) => 3
    case Completing(_, _) => 2
    case Waiting => 2
    case Rereading(_) => 1
    case Finished(_) => 0
  }

  function Total(tasks: seq<SyncTask>): (n: nat)
    ensures n <= 5 * |tasks|
  {
    if tasks == [] then 0 else Total(tasks[..|tasks| - 1]) + Rank(tasks[|tasks| - 1].phase)
  }

  predicate Runnable(s: System, t: TaskId) {
    t < |s.tasks| && !s.tasks[t].phase.Waiting? && !s.tasks[t].phase.Finished?
  }

  ghost predicate NoneLater(a: seq<SyncTask>, b: seq<SyncTask>) {
    |a| == |b| && forall u :: 0 <= u < |a| ==> Rank(b[u].phase) <= Rank(a[u].phase)
  }

  lemma {:induction false} TotalFalls(a: seq<SyncTask>, b: seq<SyncTask>, t: TaskId)
    requires NoneLater(a, b)
    ensures Total(b) <= Total(a)
    ensures t < |a| && Rank(b[t].phase) < Rank(a[t].phase) ==> Total(b) < Total(a)
  {
    if a != [] {
      var n := |a| - 1;
      assert NoneLater(a[..n], b[..n]);
      TotalFalls(a[..n], b[..n], t);
    }
  }

  lemma AdvanceFalls(s: System, t: TaskId, io: JournalIo)
    requires ProtocolOk(s) && Runnable(s, t)
    ensures Total(Advance(s, t, io).tasks) < Total(s.tasks)
  {
    if s.tasks[t].phase.Completing? {
      CompletedAll(s, t);
      CompletedFalls(s.tasks, Advance(s, t, io).tasks, t, s.tasks[t].identity);
    } else {
      OnlyOneMoves(s, t, io);
      TotalFalls(s.tasks, Advance(s, t, io).tasks, t);
    }
  }

  lemma CompletedFalls(tasks: seq<SyncTask>, after: seq<SyncTask>, t: TaskId, i: Identity)
    requires |tasks| == |after| && t < |tasks| && tasks[t].phase.Completing?
    requires forall u :: 0 <= u < |tasks| ==> CompletedTask(tasks, after, u, t, i)
    ensures Total(after) < Total(tasks)
  {
    forall u | 0 <= u < |tasks| ensures Rank(after[u].phase) <= Rank(tasks[u].phase) {
      assert CompletedTask(tasks, after, u, t, i);
    }
    assert CompletedTask(tasks, after, t, t, i);
    TotalFalls(tasks, after, t);
  }

  /** Only task `t` has moved, and it has come closer to its end. */
  predicate Approaches(tasks: seq<SyncTask>, after: seq<SyncTask>, t: TaskId) {
    && t < |tasks| == |after|
    && after == tasks[t := after[t]]
    && Rank(after[t].phase) < Rank(tasks[t].phase)
  }

  lemma ReadApproaches(s: System, t: TaskId, io: JournalIo, missing: Phase)
    requires t < |s.tasks| && 0 < Rank(s.tasks[t].phase) && Rank(missing) < Rank(s.tasks[t].phase)
    ensures Approaches(s.tasks, Read(s, t, io, missing).tasks, t)
  {
  }

  lemma AcquireApproaches(s: System, t: TaskId)
    requires t < |s.tasks| && s.tasks[t].phase.Acquiring?
    ensures Approaches(s.tasks, Acquire(s, t).tasks, t)
  {
  }

  lemma PromoteApproaches(s: System, t: TaskId, claim: Claim, io: JournalIo)
    requires t < |s.tasks| && s.tasks[t].phase.Storing?
    ensures Approaches(s.tasks, Promote(s, t, claim, io).tasks, t)
  {
  }

  lemma OnlyOneMoves(s: System, t: TaskId, io: JournalIo)
    requires Runnable(s, t) && !s.tasks[t].phase.Completing?
    ensures Approaches(s.tasks, Advance(s, t, io).tasks, t)
  {
    match s.tasks[t].phase
    case Reading => ReadApproaches(s, t, io, AfterMiss(s.tasks[t]));
    case Acquiring => AcquireApproaches(s, t);
    case Storing(claim) => PromoteApproaches(s, t, claim, io);
    case Rereading(required) => ReadApproaches(s, t, io, Finished(if required then Threw else Returned(None)));
  }

  /** Each operation advances a sync that can move. */
  ghost predicate Productive(s: System, ops: seq<Op>) {
    ops == [] ||
    (var rest, op := ops[..|ops| - 1], ops[|ops| - 1];
     Productive(s, rest) && op.Advances? && Runnable(Run(s, rest), op.task))
  }

  /** However calls fail, the syncs under way take at most five steps each. */
  lemma {:induction false} SchedulesAreShort(s: System, ops: seq<Op>)
    requires ProtocolOk(s) && Productive(s, ops)
    ensures ProtocolOk(Run(s, ops))
    ensures |ops| + Total(Run(s, ops).tasks) <= Total(s.tasks) <= 5 * |s.tasks|
  {
    if ops != [] {
      var rest, op := ops[..|ops| - 1], ops[|ops| - 1];
      SchedulesAreShort(s, rest);
      ProtocolStep(Run(s, rest), op);
      AdvanceFalls(Run(s, rest), op.task, op.io);
    }
  }

  /** No sync is stranded: while one is unfinished, some sync can move. */
  lemma SomeoneCanMove(s: System, t: TaskId) returns (u: TaskId)
    requires ProtocolOk(s) && t < |s.tasks| && !s.tasks[t].phase.Finished?
    ensures Runnable(s, u)
    ensures s.tasks[u].identity == s.tasks[t].identity
  {
    u := t;
    if s.tasks[t].phase == Waiting {
      var i := s.tasks[t].identity;
      assert TaskOk(s.cache.waiters, s.owners, s.tasks[t], t);
      assert OwnerOk(s.cache.promotions, s.owners, s.tasks, i);
      u := s.owners[i];
      assert TaskOk(s.cache.waiters, s.owners, s.tasks[u], u);
    }
  }
}
