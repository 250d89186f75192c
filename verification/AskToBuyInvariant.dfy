/** What every interleaving of purchases, syncs, failures and removals keeps. */
module AskToBuyInvariant {
  import opened Options
  import opened PurchaseTypes
  import opened AskToBuyModel

  function ClaimOf(t: SyncTask): Option<Claim> {
    match t.phase
    case Storing(c) => Some(c)
    case Completing(c, _) => Some(c)
    case _ => None
  }

  // ---- Attempts ------------------------------------------------------------------------

  /** A cached attempt is its product's latest one. */
  predicate CachedOk(c: Cache, p: ProductId)
    requires p in c.contexts
  {
    p in c.latest && c.latest[p] == c.contexts[p].attemptId
  }

  ghost predicate LatestDistinct(latest: map<ProductId, AttemptId>) {
    forall p, q :: p in latest && q in latest && latest[p] == latest[q] ==> p == q
  }

  /** `bound` is above every attempt made so far; `retired` ones are never current again. */
  ghost predicate AttemptsOk(c: Cache, bound: AttemptId, retired: set<AttemptId>) {
    && LatestDistinct(c.latest)
    && (forall p :: p in c.latest ==> c.latest[p] < bound && c.latest[p] !in retired)
    && (forall p :: p in c.contexts ==> CachedOk(c, p))
    && (forall a :: a in retired ==> a < bound)
  }

  /** An attempt that a running promotion holds is not in the cache as well. */
  predicate HeldOk(c: Cache, bound: AttemptId, i: Identity)
    requires i in c.promotions
  {
    var a := c.promotions[i];
    && a < bound
    && (forall p :: p in c.contexts ==> c.contexts[p].attemptId != a)
    && (forall p :: p in c.latest && c.latest[p] == a ==> p == i.productId)
  }

  ghost predicate HeldDistinct(promotions: map<Identity, AttemptId>) {
    forall i, j :: i in promotions && j in promotions && promotions[i] == promotions[j] ==> i == j
  }

  ghost predicate HeldAll(c: Cache, bound: AttemptId) {
    && HeldDistinct(c.promotions)
    && forall i :: i in c.promotions ==> HeldOk(c, bound, i)
  }

  ghost predicate CacheOk(c: Cache, bound: AttemptId, retired: set<AttemptId>) {
    AttemptsOk(c, bound, retired) && HeldAll(c, bound)
  }

  // ---- Owners and waiters --------------------------------------------------------------

  /** The one task that owns the promotion of `i`. */
  predicate OwnerOk(promotions: map<Identity, AttemptId>, owners: map<Identity, TaskId>, tasks: seq<SyncTask>, i: Identity)
    requires i in owners
  {
    && owners[i] < |tasks|
    && i in promotions
    && var claim := ClaimOf(tasks[owners[i]]);
       claim.Some? && claim.value.identity == i && claim.value.attemptId == promotions[i]
  }

  ghost predicate OwnersOk(promotions: map<Identity, AttemptId>, owners: map<Identity, TaskId>, tasks: seq<SyncTask>) {
    && (forall i :: i in promotions ==> i in owners)
    && (forall i :: i in owners ==> OwnerOk(promotions, owners, tasks, i))
  }

  predicate IsWaiting(tasks: seq<SyncTask>, t: TaskId, i: Identity) {
    t < |tasks| && tasks[t].phase == Waiting && tasks[t].identity == i
  }

  ghost predicate ListOk(list: seq<TaskId>, tasks: seq<SyncTask>, i: Identity) {
    && (forall j, k :: 0 <= j < k < |list| ==> list[j] != list[k])
    && (forall k :: 0 <= k < |list| ==> IsWaiting(tasks, list[k], i))
  }

  ghost predicate WaitersOk(waiters: map<Identity, seq<TaskId>>, owners: map<Identity, TaskId>, tasks: seq<SyncTask>) {
    forall i :: i in waiters ==> i in owners && ListOk(waiters[i], tasks, i)
  }

  function WaitersOf(waiters: map<Identity, seq<TaskId>>, i: Identity): seq<TaskId> {
    if i in waiters then waiters[i] else []
  }

  /** A task holds a claim as that claim's owner, and waits in its identity's list. */
  predicate TaskOk(waiters: map<Identity, seq<TaskId>>, owners: map<Identity, TaskId>, task: SyncTask, t: TaskId) {
    var i := task.identity;
    && (ClaimOf(task).Some? ==> ClaimOf(task).value.identity == i && i in owners && owners[i] == t)
    && (task.phase == Waiting ==> t in WaitersOf(waiters, i))
  }

  ghost predicate TasksOk(waiters: map<Identity, seq<TaskId>>, owners: map<Identity, TaskId>, tasks: seq<SyncTask>) {
    forall t :: 0 <= t < |tasks| ==> TaskOk(waiters, owners, tasks[t], t)
  }

  ghost predicate RolesOk(c: Cache, owners: map<Identity, TaskId>, tasks: seq<SyncTask>) {
    && OwnersOk(c.promotions, owners, tasks)
    && WaitersOk(c.waiters, owners, tasks)
    && TasksOk(c.waiters, owners, tasks)
  }

  // ---- Promotions ----------------------------------------------------------------------

  predicate NotPromoted(promoted: seq<Promotion>, a: AttemptId) {
    forall k :: 0 <= k < |promoted| ==> promoted[k].attemptId != a
  }

  /** A promoted attempt is not on its way to another identity. */
  predicate SpentTask(promoted: seq<Promotion>, t: SyncTask) {
    match t.phase
    case Storing(c) => NotPromoted(promoted, c.attemptId)
    case Completing(c, stored) => !stored ==> NotPromoted(promoted, c.attemptId)
    case _ => true
  }

  ghost predicate PromotionsDistinct(promoted: seq<Promotion>, bound: AttemptId) {
    && (forall j, k :: 0 <= j < k < |promoted| ==> promoted[j].attemptId != promoted[k].attemptId)
    && (forall k :: 0 <= k < |promoted| ==> promoted[k].attemptId < bound)
  }

  ghost predicate CachedUnpromoted(promoted: seq<Promotion>, contexts: map<ProductId, PendingContext>) {
    forall p :: p in contexts ==> NotPromoted(promoted, contexts[p].attemptId)
  }

  ghost predicate SpentTasks(promoted: seq<Promotion>, tasks: seq<SyncTask>) {
    forall t :: 0 <= t < |tasks| ==> SpentTask(promoted, tasks[t])
  }

  ghost predicate PromotedOk(s: System) {
    && PromotionsDistinct(s.promoted, |s.attempts|)
    && CachedUnpromoted(s.promoted, s.cache.contexts)
    && SpentTasks(s.promoted, s.tasks)
  }

  // ---- Durable contexts ----------------------------------------------------------------

  predicate DurableIn(ts: map<TransactionId, Metadata>, i: Identity, context: ReceiptContext) {
    i.transactionId in ts && ts[i.transactionId] == Metadata(i, context)
  }

  /** What a sync saw is still in the journal unless that transaction was removed since. */
  predicate SightingOk(ts: map<TransactionId, Metadata>, removals: nat, x: Sighting) {
    && x.removals <= removals
    && (x.removals == removals ==> DurableIn(ts, x.identity, x.context))
  }

  predicate Agree(x: Sighting, y: Sighting) {
    (x.identity.transactionId == y.identity.transactionId && x.removals == y.removals) ==>
      x.identity == y.identity && x.context == y.context
  }

  predicate WasSeen(seen: seq<Sighting>, i: Identity, context: ReceiptContext) {
    exists k :: 0 <= k < |seen| && seen[k].identity == i && seen[k].context == context
  }

  /** What a task has learned about its transaction. */
  function Learned(t: SyncTask): Option<ReceiptContext> {
    match t.phase
    case Completing(c, stored) => if stored then Some(c.receiptContext) else None
    case Finished(Returned(context)) => context
    case _ => None
  }

  ghost predicate SeenOk(s: System) {
    && (forall k :: 0 <= k < |s.seen| ==> SightingOk(Contents(s.file), Removals(s, s.seen[k].identity.transactionId), s.seen[k]))
    && (forall j, k :: 0 <= j < k < |s.seen| ==> Agree(s.seen[j], s.seen[k]))
  }

  ghost predicate LearnedOk(s: System) {
    forall t :: 0 <= t < |s.tasks| && Learned(s.tasks[t]).Some? ==>
      WasSeen(s.seen, s.tasks[t].identity, Learned(s.tasks[t]).value)
  }

  ghost predicate ProtocolOk(s: System) {
    CacheOk(s.cache, |s.attempts|, s.retired) && RolesOk(s.cache, s.owners, s.tasks)
  }

  ghost predicate Inv(s: System) {
    ProtocolOk(s) && PromotedOk(s) && SeenOk(s) && LearnedOk(s)
  }

  // ---- The cache, call by call ---------------------------------------------------------

  lemma CacheContextKeeps(c: Cache, bound: AttemptId, retired: set<AttemptId>, context: ReceiptContext, p: ProductId, date: int)
    requires CacheOk(c, bound, retired)
    ensures
      var superseded := if p in c.latest then {c.latest[p]} else {};
      CacheOk(CacheContext(c, context, p, bound, date), bound + 1, retired + superseded)
  {
    var m := CacheContext(c, context, p, bound, date);
    forall q | q in m.contexts ensures CachedOk(m, q) {
      if q != p { assert CachedOk(c, q); }
    }
    forall i | i in m.promotions ensures HeldOk(m, bound + 1, i) {
      assert HeldOk(c, bound, i);
    }
  }

  lemma RemoveProductKeeps(c: Cache, bound: AttemptId, retired: set<AttemptId>, p: ProductId)
    requires CacheOk(c, bound, retired)
    ensures
      var dropped := if p in c.latest then {c.latest[p]} else {};
      CacheOk(RemoveProduct(c, p), bound, retired + dropped)
  {
    var m := RemoveProduct(c, p);
    forall q | q in m.contexts ensures CachedOk(m, q) {
      assert CachedOk(c, q);
    }
    forall i | i in m.promotions ensures HeldOk(m, bound, i) {
      assert HeldOk(c, bound, i);
    }
  }

  lemma ClaimKeepsCache(c: Cache, bound: AttemptId, retired: set<AttemptId>, i: Identity, date: int, t: TaskId)
    requires CacheOk(c, bound, retired)
    ensures CacheOk(ClaimOrWait(c, i, date, t).0, bound, retired)
  {
    var (m, acquisition) := ClaimOrWait(c, i, date, t);
    forall q | q in m.contexts ensures CachedOk(m, q) {
      assert CachedOk(c, q);
    }
    if acquisition.Owner? {
      assert CachedOk(c, i.productId);
      assert forall q :: q in m.contexts ==> CachedOk(c, q);
      assert forall j :: j in c.promotions ==> HeldOk(c, bound, j);
    } else {
      forall j | j in m.promotions ensures HeldOk(m, bound, j) {
        assert HeldOk(c, bound, j);
      }
    }
  }

  lemma CommitKeepsCache(c: Cache, bound: AttemptId, retired: set<AttemptId>, claim: Claim)
    requires CacheOk(c, bound, retired)
    requires claim.identity in c.promotions && c.promotions[claim.identity] == claim.attemptId
    ensures CacheOk(Commit(c, claim).0, bound, retired + {claim.attemptId})
  {
    var m := Commit(c, claim).0;
    assert HeldOk(c, bound, claim.identity);
    forall q | q in m.contexts ensures CachedOk(m, q) {
      assert CachedOk(c, q);
    }
    forall i | i in m.promotions ensures HeldOk(m, bound, i) {
      assert HeldOk(c, bound, i);
    }
  }

  lemma RollbackKeepsCache(c: Cache, bound: AttemptId, retired: set<AttemptId>, claim: Claim)
    requires CacheOk(c, bound, retired)
    requires claim.identity in c.promotions && c.promotions[claim.identity] == claim.attemptId
    ensures CacheOk(Rollback(c, claim).0, bound, retired)
  {
    var m := Rollback(c, claim).0;
    assert HeldOk(c, bound, claim.identity);
    forall q | q in m.contexts ensures CachedOk(m, q) {
      if q in c.contexts { assert CachedOk(c, q); }
    }
    forall i | i in m.promotions ensures HeldOk(m, bound, i) {
      assert HeldOk(c, bound, i);
    }
  }

  /** Completing a registered claim resumes all of its waiters and frees its identity. */
  lemma CompletionResumesAll(c: Cache, claim: Claim)
    requires claim.identity in c.promotions && c.promotions[claim.identity] == claim.attemptId
    ensures Commit(c, claim).1 == Rollback(c, claim).1 == WaitersOf(c.waiters, claim.identity)
    ensures Commit(c, claim).0.promotions == Rollback(c, claim).0.promotions == c.promotions - {claim.identity}
    ensures Commit(c, claim).0.waiters == Rollback(c, claim).0.waiters == c.waiters - {claim.identity}
  {
  }

  // ---- Roles, move by move -------------------------------------------------------------

  /** A task in such a phase neither waits nor holds a claim. */
  predicate Idle(p: Phase) {
    !p.Waiting? && !p.Storing? && !p.Completing?
  }

  /** Changing tasks that play no role, or only how far a claim's holder got, keeps the roles. */
  predicate SameRole(a: SyncTask, b: SyncTask) {
    && a.identity == b.identity
    && ClaimOf(a) == ClaimOf(b)
    && (a.phase == Waiting <==> b.phase == Waiting)
  }

  lemma SameRoles(c: Cache, owners: map<Identity, TaskId>, tasks: seq<SyncTask>, after: seq<SyncTask>)
    requires RolesOk(c, owners, tasks)
    requires |tasks| <= |after|
    requires forall t :: 0 <= t < |tasks| ==> SameRole(tasks[t], after[t])
    requires forall t :: |tasks| <= t < |after| ==> Idle(after[t].phase)
    ensures RolesOk(c, owners, after)
  {
    forall i | i in owners ensures OwnerOk(c.promotions, owners, after, i) {
      assert OwnerOk(c.promotions, owners, tasks, i);
      assert SameRole(tasks[owners[i]], after[owners[i]]);
    }
    forall i | i in c.waiters ensures ListOk(c.waiters[i], after, i) {
      SameList(c.waiters[i], tasks, after, i);
    }
    forall t | 0 <= t < |after| ensures TaskOk(c.waiters, owners, after[t], t) {
      if t < |tasks| { assert SameRole(tasks[t], after[t]) && TaskOk(c.waiters, owners, tasks[t], t); }
    }
  }

  lemma SameList(list: seq<TaskId>, tasks: seq<SyncTask>, after: seq<SyncTask>, i: Identity)
    requires ListOk(list, tasks, i) && |tasks| <= |after|
    requires forall t :: 0 <= t < |tasks| && tasks[t].phase == Waiting && tasks[t].identity == i
                         ==> after[t].phase == Waiting && after[t].identity == i
    ensures ListOk(list, after, i)
  {
    forall k | 0 <= k < |list| ensures IsWaiting(after, list[k], i) {
      assert IsWaiting(tasks, list[k], i);
    }
  }

  /** A task that plays no role becomes the owner of an identity nobody promotes. */
  lemma ClaimKeepsRoles(c: Cache, owners: map<Identity, TaskId>, tasks: seq<SyncTask>, t: TaskId, claim: Claim)
    requires RolesOk(c, owners, tasks) && t < |tasks| && Idle(tasks[t].phase)
    requires claim.identity == tasks[t].identity && claim.identity !in c.promotions
    ensures
      var i := claim.identity;
      RolesOk(c.(promotions := c.promotions[i := claim.attemptId]), owners[i := t], tasks[t := tasks[t].(phase := Storing(claim))])
  {
    var i := claim.identity;
    var promotions, rest := c.promotions[i := claim.attemptId], owners[i := t];
    var after := tasks[t := tasks[t].(phase := Storing(claim))];
    forall j | j in owners ensures j != i && OwnerOk(promotions, rest, after, j) {
      assert OwnerOk(c.promotions, owners, tasks, j);
    }
    forall j | j in c.waiters ensures ListOk(c.waiters[j], after, j) {
      SameList(c.waiters[j], tasks, after, j);
    }
    forall u | 0 <= u < |after| ensures TaskOk(c.waiters, rest, after[u], u) {
      assert TaskOk(c.waiters, owners, tasks[u], u);
    }
  }

  /** A task that plays no role joins the end of a live promotion's list. */
  lemma WaitKeepsRoles(c: Cache, owners: map<Identity, TaskId>, tasks: seq<SyncTask>, t: TaskId)
    requires RolesOk(c, owners, tasks) && t < |tasks| && Idle(tasks[t].phase)
    requires tasks[t].identity in c.promotions
    ensures
      var i := tasks[t].identity;
      RolesOk(c.(waiters := c.waiters[i := WaitersOf(c.waiters, i) + [t]]), owners, tasks[t := tasks[t].(phase := Waiting)])
  {
    var i := tasks[t].identity;
    var waiters, after := c.waiters[i := WaitersOf(c.waiters, i) + [t]], tasks[t := tasks[t].(phase := Waiting)];
    forall j | j in owners ensures OwnerOk(c.promotions, owners, after, j) {
      assert OwnerOk(c.promotions, owners, tasks, j);
    }
    WaitKeepsLists(c.waiters, owners, tasks, t);
    assert waiters[i][|waiters[i]| - 1] == t;
    forall u | 0 <= u < |after| ensures TaskOk(waiters, owners, after[u], u) {
      assert TaskOk(c.waiters, owners, tasks[u], u);
    }
  }

  lemma WaitKeepsLists(waiters: map<Identity, seq<TaskId>>, owners: map<Identity, TaskId>, tasks: seq<SyncTask>, t: TaskId)
    requires WaitersOk(waiters, owners, tasks) && t < |tasks| && Idle(tasks[t].phase) && tasks[t].identity in owners
    ensures
      var i := tasks[t].identity;
      WaitersOk(waiters[i := WaitersOf(waiters, i) + [t]], owners, tasks[t := tasks[t].(phase := Waiting)])
  {
    var i := tasks[t].identity;
    var longer, after := waiters[i := WaitersOf(waiters, i) + [t]], tasks[t := tasks[t].(phase := Waiting)];
    forall j | j in longer ensures ListOk(longer[j], after, j) {
      if j in waiters {
        assert forall k :: 0 <= k < |waiters[j]| ==> IsWaiting(tasks, waiters[j][k], j);
        SameList(waiters[j], tasks, after, j);
      }
    }
  }

  /** A claim's holder is the registered owner. */
  lemma LiveClaim(s: System, t: TaskId)
    requires RolesOk(s.cache, s.owners, s.tasks) && t < |s.tasks| && ClaimOf(s.tasks[t]).Some?
    ensures
      var claim := ClaimOf(s.tasks[t]).value;
      && claim.identity == s.tasks[t].identity
      && claim.identity in s.owners && s.owners[claim.identity] == t
      && claim.identity in s.cache.promotions && s.cache.promotions[claim.identity] == claim.attemptId
  {
    assert TaskOk(s.cache.waiters, s.owners, s.tasks[t], t);
    assert OwnerOk(s.cache.promotions, s.owners, s.tasks, s.tasks[t].identity);
  }

  /** The tasks in an identity's list are exactly the ones waiting for it. */
  lemma WaitersExactly(c: Cache, owners: map<Identity, TaskId>, tasks: seq<SyncTask>, i: Identity, u: TaskId)
    requires WaitersOk(c.waiters, owners, tasks) && TasksOk(c.waiters, owners, tasks)
    ensures u in WaitersOf(c.waiters, i) <==> IsWaiting(tasks, u, i)
  {
    if u in WaitersOf(c.waiters, i) {
      var k :| 0 <= k < |c.waiters[i]| && c.waiters[i][k] == u;
      assert IsWaiting(tasks, c.waiters[i][k], i);
    }
    if IsWaiting(tasks, u, i) {
      assert TaskOk(c.waiters, owners, tasks[u], u);
    }
  }

  /**
   * When an owner completes, each sync waiting for its transaction goes on with the owner's
   * outcome, the owner returns its own, and nobody else moves.
   */
  lemma CompleteTasks(s: System, t: TaskId, u: TaskId)
    requires RolesOk(s.cache, s.owners, s.tasks) && t < |s.tasks| && s.tasks[t].phase.Completing? && u < |s.tasks|
    ensures
      var claim, stored := s.tasks[t].phase.claim, s.tasks[t].phase.stored;
      Complete(s, t, claim, stored).tasks[u] ==
      if u == t then s.tasks[u].(phase := Finished(if stored then Returned(Some(claim.receiptContext)) else Threw))
      else if IsWaiting(s.tasks, u, claim.identity) then s.tasks[u].(phase := if stored then Rereading(true) else Finished(Threw))
      else s.tasks[u]
  {
    var claim := s.tasks[t].phase.claim;
    LiveClaim(s, t);
    CompletionResumesAll(s.cache, claim);
    WaitersExactly(s.cache, s.owners, s.tasks, claim.identity, u);
  }

  predicate CompletedTask(tasks: seq<SyncTask>, after: seq<SyncTask>, u: TaskId, t: TaskId, i: Identity)
    requires u < |tasks| && |tasks| == |after|
  {
    && after[u].identity == tasks[u].identity
    && if u == t || IsWaiting(tasks, u, i)
       then after[u].phase.Finished? || (u != t && after[u].phase == Rereading(true))
       else after[u] == tasks[u]
  }

  lemma CompletedAll(s: System, t: TaskId)
    requires RolesOk(s.cache, s.owners, s.tasks) && t < |s.tasks| && s.tasks[t].phase.Completing?
    ensures
      var m := Complete(s, t, s.tasks[t].phase.claim, s.tasks[t].phase.stored);
      forall u :: 0 <= u < |s.tasks| ==> CompletedTask(s.tasks, m.tasks, u, t, s.tasks[t].identity)
  {
    var m := Complete(s, t, s.tasks[t].phase.claim, s.tasks[t].phase.stored);
    LiveClaim(s, t);
    forall u | 0 <= u < |s.tasks| ensures CompletedTask(s.tasks, m.tasks, u, t, s.tasks[t].identity) {
      CompleteTasks(s, t, u);
    }
  }

  lemma CompleteKeepsRoles(s: System, t: TaskId)
    requires RolesOk(s.cache, s.owners, s.tasks) && t < |s.tasks| && s.tasks[t].phase.Completing?
    ensures
      var m := Complete(s, t, s.tasks[t].phase.claim, s.tasks[t].phase.stored);
      RolesOk(m.cache, m.owners, m.tasks)
  {
    var claim, stored := s.tasks[t].phase.claim, s.tasks[t].phase.stored;
    var i := claim.identity;
    var m := Complete(s, t, claim, stored);
    LiveClaim(s, t);
    CompletionResumesAll(s.cache, claim);
    CompletedAll(s, t);
    CompletedRoles(s.cache, m.cache, s.owners, s.tasks, m.tasks, t, i);
  }

  lemma CompletedRoles(c: Cache, d: Cache, owners: map<Identity, TaskId>, tasks: seq<SyncTask>, after: seq<SyncTask>, t: TaskId, i: Identity)
    requires RolesOk(c, owners, tasks)
    requires i in owners && owners[i] == t
    requires d.promotions == c.promotions - {i} && d.waiters == c.waiters - {i}
    requires |after| == |tasks| && forall u :: 0 <= u < |tasks| ==> CompletedTask(tasks, after, u, t, i)
    ensures RolesOk(d, owners - {i}, after)
  {
    var rest := owners - {i};
    assert OwnerOk(c.promotions, owners, tasks, i);
    forall j | j in rest ensures OwnerOk(d.promotions, rest, after, j) {
      assert OwnerOk(c.promotions, owners, tasks, j);
      assert CompletedTask(tasks, after, owners[j], t, i);
    }
    forall j | j in d.waiters ensures ListOk(d.waiters[j], after, j) {
      forall u | 0 <= u < |tasks| && tasks[u].phase == Waiting && tasks[u].identity == j
        ensures after[u].phase == Waiting && after[u].identity == j
      {
        assert CompletedTask(tasks, after, u, t, i);
      }
      SameList(c.waiters[j], tasks, after, j);
    }
    forall u | 0 <= u < |after| ensures TaskOk(d.waiters, rest, after[u], u) {
      assert TaskOk(c.waiters, owners, tasks[u], u) && CompletedTask(tasks, after, u, t, i);
    }
  }
}
