/** Ask-to-Buy attribution over every interleaving. */
module AskToBuyTheorems {
  import opened Options
  import opened PurchaseTypes
  import opened AskToBuyModel
  import opened AskToBuyInvariant

  // ---- The journal, call by call -------------------------------------------------------

  /** `store` never replaces a record; when it does not throw, the record is there. */
  lemma StoreKeepsRecords(f: JournalFile, m: Metadata, io: JournalIo)
    ensures
      var (after, ok) := Store(f, m, io);
      && (forall k :: k in Contents(f) ==> k in Contents(after) && Contents(after)[k] == Contents(f)[k])
      && (forall k :: k in Contents(after) ==> k in Contents(f) || Contents(after)[k] == m)
      && (ok ==> DurableIn(Contents(after), m.identity, m.receiptContext))
  {
  }

  /** A removal takes out at most the named record, and only under its own token. */
  lemma RemoveTakesOne(f: JournalFile, id: TransactionId, token: Token, io: JournalIo)
    ensures
      var (after, removal) := RemoveRecord(f, id, token, io);
      && Contents(after) == (if after == f then Contents(f) else Contents(f) - {id})
      && (after != f ==> id in Contents(f) && Contents(f)[id].identity.purchaseToken == token)
      && (removal == Removed(true) ==> after != f)
  {
    var (after, removal) := RemoveRecord(f, id, token, io);
    if Load(f).Some? && id in Load(f).value {
      var ts := Load(f).value;
      assert |ts - {id}| <= |ts| by { assert (ts - {id}).Keys == ts.Keys - {id}; FewerKeys(ts, ts - {id}); }
      assert id in ts && id !in ts - {id};
    }
  }

  lemma FewerKeys<K, V>(a: map<K, V>, b: map<K, V>)
    requires b.Keys <= a.Keys
    ensures |b| <= |a|
  {
    assert a.Keys == b.Keys + (a.Keys - b.Keys);
    assert |a.Keys| == |b.Keys| + |a.Keys - b.Keys|;
  }

  // ---- The protocol --------------------------------------------------------------------

  lemma MoveKeepsRoles(s: System, t: TaskId, phase: Phase)
    requires RolesOk(s.cache, s.owners, s.tasks) && t < |s.tasks|
    requires SameRole(s.tasks[t], s.tasks[t].(phase := phase))
    ensures RolesOk(s.cache, s.owners, Move(s, t, phase).tasks)
  {
    SameRoles(s.cache, s.owners, s.tasks, Move(s, t, phase).tasks);
  }

  lemma AcquireKeepsProtocol(s: System, t: TaskId)
    requires ProtocolOk(s) && t < |s.tasks| && s.tasks[t].phase == Acquiring
    ensures ProtocolOk(Acquire(s, t))
  {
    var i, date := s.tasks[t].identity, s.tasks[t].purchaseDate;
    ClaimKeepsCache(s.cache, |s.attempts|, s.retired, i, date, t);
    match ClaimOrWait(s.cache, i, date, t).1
    case Owner(claim) => ClaimKeepsRoles(s.cache, s.owners, s.tasks, t, claim);
    case Waits => WaitKeepsRoles(s.cache, s.owners, s.tasks, t);
    case Absent => MoveKeepsRoles(s, t, Rereading(false));
  }

  lemma CompleteKeepsProtocol(s: System, t: TaskId)
    requires ProtocolOk(s) && t < |s.tasks| && s.tasks[t].phase.Completing?
    ensures ProtocolOk(Complete(s, t, s.tasks[t].phase.claim, s.tasks[t].phase.stored))
  {
    LiveClaim(s, t);
    CompleteKeepsRoles(s, t);
    if s.tasks[t].phase.stored {
      CommitKeepsCache(s.cache, |s.attempts|, s.retired, s.tasks[t].phase.claim);
    } else {
      RollbackKeepsCache(s.cache, |s.attempts|, s.retired, s.tasks[t].phase.claim);
    }
  }

  lemma ReadKeepsRoles(s: System, t: TaskId, io: JournalIo, missing: Phase)
    requires RolesOk(s.cache, s.owners, s.tasks) && t < |s.tasks| && Idle(s.tasks[t].phase) && Idle(missing)
    ensures RolesOk(s.cache, s.owners, Read(s, t, io, missing).tasks)
  {
    MoveKeepsRoles(s, t, AfterLookup(ReceiptContextOf(s.file, s.tasks[t].identity, io), missing));
  }

  lemma PromoteKeepsRoles(s: System, t: TaskId, claim: Claim, io: JournalIo)
    requires RolesOk(s.cache, s.owners, s.tasks) && t < |s.tasks| && s.tasks[t].phase == Storing(claim)
    ensures RolesOk(s.cache, s.owners, Promote(s, t, claim, io).tasks)
  {
    MoveKeepsRoles(s, t, Promote(s, t, claim, io).tasks[t].phase);
  }

  lemma AdvanceKeepsProtocol(s: System, t: TaskId, io: JournalIo)
    requires ProtocolOk(s) && t < |s.tasks|
    ensures ProtocolOk(Advance(s, t, io))
  {
    match s.tasks[t].phase
    case Reading => ReadKeepsRoles(s, t, io, AfterMiss(s.tasks[t]));
    case Acquiring => AcquireKeepsProtocol(s, t);
    case Storing(claim) => PromoteKeepsRoles(s, t, claim, io);
    case Completing(claim, stored) => CompleteKeepsProtocol(s, t);
    case Waiting =>
    case Rereading(required) => ReadKeepsRoles(s, t, io, Finished(if required then Threw else Returned(None)));
    case Finished(_) =>
  }

  lemma PurchaseKeepsCache(s: System, context: Option<ReceiptContext>, p: ProductId, date: int)
    requires CacheOk(s.cache, |s.attempts|, s.retired)
    ensures var m := Purchase(s, context, p, date); CacheOk(m.cache, |m.attempts|, m.retired)
  {
    if context.Some? { CacheContextKeeps(s.cache, |s.attempts|, s.retired, context.value, p, date); }
  }

  lemma ContinueKeepsCache(s: System, io: JournalIo)
    requires CacheOk(s.cache, |s.attempts|, s.retired)
    ensures var m := Continue(s, io); CacheOk(m.cache, |m.attempts|, m.retired)
  {
    if s.flow.Some? { RemoveProductKeeps(s.cache, |s.attempts|, s.retired, s.flow.value.productId); }
  }

  lemma FlowKeepsRoles(s: System, m: System)
    requires RolesOk(s.cache, s.owners, s.tasks) && SameButFlow(s, m)
    ensures RolesOk(m.cache, m.owners, m.tasks)
  {
    SameRoles(s.cache, s.owners, s.tasks, s.tasks);
    forall i | i in m.owners ensures OwnerOk(m.cache.promotions, m.owners, m.tasks, i) {
      assert OwnerOk(s.cache.promotions, s.owners, s.tasks, i);
    }
  }

  lemma ProtocolStep(s: System, op: Op)
    requires ProtocolOk(s)
    ensures ProtocolOk(Next(s, op))
  {
    match op
    case Purchases(context, p, date) =>
      PurchaseKeepsCache(s, context, p, date);
      FlowKeepsRoles(s, Next(s, op));
    case Settles(_) =>
    case Continues(io) =>
      ContinueKeepsCache(s, io);
      FlowKeepsRoles(s, Next(s, op));
    case Removes(_, _, _) =>
    case Begins(i, date, isRenewal) => SameRoles(s.cache, s.owners, s.tasks, Next(s, op).tasks);
    case Advances(t, io) => if t < |s.tasks| { AdvanceKeepsProtocol(s, t, io); }
    case Restarts =>
  }

  // ---- Promotions ----------------------------------------------------------------------

  /** Two tasks never hold claims on one attempt, nor on one identity. */
  lemma ClaimsDistinct(s: System, t: TaskId, u: TaskId)
    requires RolesOk(s.cache, s.owners, s.tasks) && HeldDistinct(s.cache.promotions)
    requires t < |s.tasks| && u < |s.tasks| && ClaimOf(s.tasks[t]).Some? && ClaimOf(s.tasks[u]).Some?
    requires
      || ClaimOf(s.tasks[t]).value.attemptId == ClaimOf(s.tasks[u]).value.attemptId
      || ClaimOf(s.tasks[t]).value.identity == ClaimOf(s.tasks[u]).value.identity
    ensures t == u
  {
    LiveClaim(s, t);
    LiveClaim(s, u);
  }

  lemma PromoteKeepsPromoted(s: System, t: TaskId, claim: Claim, io: JournalIo)
    requires RolesOk(s.cache, s.owners, s.tasks) && HeldAll(s.cache, |s.attempts|) && PromotedOk(s)
    requires t < |s.tasks| && s.tasks[t].phase == Storing(claim)
    ensures PromotedOk(Promote(s, t, claim, io))
  {
    LiveClaim(s, t);
    assert HeldOk(s.cache, |s.attempts|, claim.identity);
    assert SpentTask(s.promoted, s.tasks[t]);
    PromoteKeepsSpent(s, t, claim, io);
  }

  lemma PromoteKeepsSpent(s: System, t: TaskId, claim: Claim, io: JournalIo)
    requires RolesOk(s.cache, s.owners, s.tasks) && HeldDistinct(s.cache.promotions)
    requires t < |s.tasks| && s.tasks[t].phase == Storing(claim) && SpentTasks(s.promoted, s.tasks)
    ensures SpentTasks(Promote(s, t, claim, io).promoted, Promote(s, t, claim, io).tasks)
  {
    forall u | 0 <= u < |s.tasks| ensures SpentTask(Promote(s, t, claim, io).promoted, Promote(s, t, claim, io).tasks[u]) {
      PromotedTask(s, t, claim, io, u);
    }
  }

  lemma PromotedTask(s: System, t: TaskId, claim: Claim, io: JournalIo, u: TaskId)
    requires RolesOk(s.cache, s.owners, s.tasks) && HeldDistinct(s.cache.promotions)
    requires t < |s.tasks| && s.tasks[t].phase == Storing(claim) && u < |s.tasks|
    requires SpentTask(s.promoted, s.tasks[t]) && SpentTask(s.promoted, s.tasks[u])
    ensures SpentTask(Promote(s, t, claim, io).promoted, Promote(s, t, claim, io).tasks[u])
  {
    if u != t && ClaimOf(s.tasks[u]).Some? && ClaimOf(s.tasks[u]).value.attemptId == claim.attemptId {
      ClaimsDistinct(s, t, u);
    }
  }

  lemma CompleteKeepsPromoted(s: System, t: TaskId)
    requires RolesOk(s.cache, s.owners, s.tasks) && PromotedOk(s) && t < |s.tasks| && s.tasks[t].phase.Completing?
    ensures PromotedOk(Complete(s, t, s.tasks[t].phase.claim, s.tasks[t].phase.stored))
  {
    var m := Complete(s, t, s.tasks[t].phase.claim, s.tasks[t].phase.stored);
    assert SpentTask(s.promoted, s.tasks[t]);
    CompletedUnpromoted(s.promoted, s.cache, s.tasks[t].phase.claim, s.tasks[t].phase.stored);
    CompletedAll(s, t);
    CompletedSpent(s.promoted, s.tasks, m.tasks, t, s.tasks[t].identity);
  }

  lemma CompletedSpent(promoted: seq<Promotion>, tasks: seq<SyncTask>, after: seq<SyncTask>, t: TaskId, i: Identity)
    requires |tasks| == |after| && forall u :: 0 <= u < |tasks| ==> CompletedTask(tasks, after, u, t, i)
    requires SpentTasks(promoted, tasks)
    ensures SpentTasks(promoted, after)
  {
    forall u | 0 <= u < |after| ensures SpentTask(promoted, after[u]) {
      assert CompletedTask(tasks, after, u, t, i) && SpentTask(promoted, tasks[u]);
    }
  }

  lemma CompletedUnpromoted(promoted: seq<Promotion>, c: Cache, claim: Claim, stored: bool)
    requires CachedUnpromoted(promoted, c.contexts) && (!stored ==> NotPromoted(promoted, claim.attemptId))
    ensures CachedUnpromoted(promoted, (if stored then Commit(c, claim) else Rollback(c, claim)).0.contexts)
  {
  }

  lemma AcquireKeepsPromoted(s: System, t: TaskId)
    requires ProtocolOk(s) && PromotedOk(s) && t < |s.tasks| && s.tasks[t].phase == Acquiring
    ensures PromotedOk(Acquire(s, t))
  {
    var m := Acquire(s, t);
    forall u | 0 <= u < |m.tasks| ensures SpentTask(m.promoted, m.tasks[u]) {
      assert SpentTask(s.promoted, s.tasks[u]);
    }
  }

  lemma ReadKeepsPromoted(s: System, t: TaskId, io: JournalIo, missing: Phase)
    requires PromotedOk(s) && t < |s.tasks| && Idle(missing)
    ensures PromotedOk(Read(s, t, io, missing))
  {
    var m := Read(s, t, io, missing);
    forall u | 0 <= u < |m.tasks| ensures SpentTask(m.promoted, m.tasks[u]) {
      assert SpentTask(s.promoted, s.tasks[u]);
    }
  }

  lemma PromotedStep(s: System, op: Op)
    requires ProtocolOk(s) && PromotedOk(s)
    ensures PromotedOk(Next(s, op))
  {
    match op
    case Advances(t, io) =>
      if t < |s.tasks| {
        match s.tasks[t].phase
        case Reading => ReadKeepsPromoted(s, t, io, AfterMiss(s.tasks[t]));
        case Acquiring => AcquireKeepsPromoted(s, t);
        case Storing(claim) => PromoteKeepsPromoted(s, t, claim, io);
        case Completing(_, _) => CompleteKeepsPromoted(s, t);
        case Rereading(required) => ReadKeepsPromoted(s, t, io, Finished(if required then Threw else Returned(None)));
        case _ =>
      }
    case Begins(_, _, _) =>
      forall u | 0 <= u < |Next(s, op).tasks| ensures SpentTask(s.promoted, Next(s, op).tasks[u]) {
        if u < |s.tasks| { assert SpentTask(s.promoted, s.tasks[u]); }
      }
    case Purchases(context, p, date) => PurchaseKeepsPromoted(s, context, p, date);
    case Continues(io) => ContinueKeepsPromoted(s, io);
    case _ =>
  }

  lemma PurchaseKeepsPromoted(s: System, context: Option<ReceiptContext>, p: ProductId, date: int)
    requires PromotedOk(s)
    ensures PromotedOk(Purchase(s, context, p, date))
  {
  }

  lemma ContinueKeepsPromoted(s: System, io: JournalIo)
    requires PromotedOk(s)
    ensures PromotedOk(Continue(s, io))
  {
  }

  // ---- Durable contexts ----------------------------------------------------------------

  /** Contents may grow, and a record may go when its transaction's removal is counted. */
  lemma SeenFrame(s: System, m: System)
    requires SeenOk(s) && m.seen == s.seen
    requires forall id :: id in Contents(s.file) && Removals(m, id) == Removals(s, id)
                          ==> id in Contents(m.file) && Contents(m.file)[id] == Contents(s.file)[id]
    requires forall id :: Removals(s, id) <= Removals(m, id)
    ensures SeenOk(m)
  {
    forall k | 0 <= k < |m.seen|
      ensures SightingOk(Contents(m.file), Removals(m, m.seen[k].identity.transactionId), m.seen[k])
    {
      assert SightingOk(Contents(s.file), Removals(s, s.seen[k].identity.transactionId), s.seen[k]);
    }
  }

  lemma SeeKeeps(s: System, i: Identity, context: ReceiptContext)
    requires SeenOk(s) && DurableIn(Contents(s.file), i, context)
    ensures SeenOk(See(s, i, context))
  {
    var m := See(s, i, context);
    forall k | 0 <= k < |m.seen|
      ensures SightingOk(Contents(m.file), Removals(m, m.seen[k].identity.transactionId), m.seen[k])
    {
      if k < |s.seen| { assert SightingOk(Contents(s.file), Removals(s, s.seen[k].identity.transactionId), s.seen[k]); }
    }
    forall j, k | 0 <= j < k < |m.seen| ensures Agree(m.seen[j], m.seen[k]) {
      if k < |s.seen| {
        assert Agree(s.seen[j], s.seen[k]);
      } else {
        assert SightingOk(Contents(s.file), Removals(s, s.seen[j].identity.transactionId), s.seen[j]);
      }
    }
  }

  /** What `Read` and `Promote` do to the history. */
  lemma ReadSees(s: System, t: TaskId, io: JournalIo, missing: Phase)
    requires SeenOk(s) && t < |s.tasks|
    ensures SeenOk(Read(s, t, io, missing))
  {
    var i := s.tasks[t].identity;
    var lookup := ReceiptContextOf(s.file, i, io);
    if lookup.Found? && lookup.context.Some? {
      SeeKeeps(Move(s, t, Finished(Returned(lookup.context))), i, lookup.context.value);
    }
  }

  lemma PromoteSees(s: System, t: TaskId, claim: Claim, io: JournalIo)
    requires SeenOk(s) && t < |s.tasks|
    ensures SeenOk(Promote(s, t, claim, io))
  {
    var i := s.tasks[t].identity;
    var (file, ok) := Store(s.file, Metadata(i, claim.receiptContext), io);
    StoreKeepsRecords(s.file, Metadata(i, claim.receiptContext), io);
    var stored := Move(s.(file := file), t, Completing(claim, ok));
    SeenFrame(s, stored);
    if ok { SeeKeeps(stored, i, claim.receiptContext); }
  }

  lemma AdvanceSees(s: System, t: TaskId, io: JournalIo)
    requires SeenOk(s) && t < |s.tasks|
    ensures SeenOk(Advance(s, t, io))
  {
    match s.tasks[t].phase
    case Reading => ReadSees(s, t, io, AfterMiss(s.tasks[t]));
    case Storing(claim) => PromoteSees(s, t, claim, io);
    case Rereading(required) => ReadSees(s, t, io, Finished(if required then Threw else Returned(None)));
    case _ =>
  }

  lemma ContinueSees(s: System, io: JournalIo)
    requires SeenOk(s)
    ensures SeenOk(Continue(s, io))
  {
    if FlowRecord(s).Some? {
      StoreKeepsRecords(s.file, Metadata(FlowRecord(s).value.identity, FlowRecord(s).value.context), io);
    }
    SeenFrame(s, Continue(s, io));
  }

  lemma SeenStep(s: System, op: Op)
    requires SeenOk(s)
    ensures SeenOk(Next(s, op))
  {
    match op
    case Continues(io) => ContinueSees(s, io);
    case Removes(id, token, io) =>
      RemoveTakesOne(s.file, id, token, io);
      SeenFrame(s, Next(s, op));
    case Advances(t, io) => if t < |s.tasks| { AdvanceSees(s, t, io); }
    case _ =>
  }

  lemma StillSeen(seen: seq<Sighting>, after: seq<Sighting>, i: Identity, context: ReceiptContext)
    requires seen <= after
    ensures WasSeen(seen, i, context) ==> WasSeen(after, i, context)
  {
    if WasSeen(seen, i, context) {
      var k :| 0 <= k < |seen| && seen[k].identity == i && seen[k].context == context;
      assert after[k] == seen[k];
    }
  }

  /** `u` knew `context` before the step, or the step has just found or put it in the journal. */
  predicate LearnsRightly(s: System, m: System, u: TaskId)
    requires u < |m.tasks| && Learned(m.tasks[u]).Some?
  {
    var i, context := m.tasks[u].identity, Learned(m.tasks[u]).value;
    || (u < |s.tasks| && s.tasks[u].identity == i && Learned(s.tasks[u]) == Some(context))
    || (DurableIn(Contents(m.file), i, context) && |m.seen| > 0 && m.seen[|m.seen| - 1] == Sighting(i, context, Removals(s, i.transactionId)))
  }

  lemma ReadLearns(s: System, t: TaskId, io: JournalIo, u: TaskId)
    requires t < |s.tasks| && u < |s.tasks| && (s.tasks[t].phase.Reading? || s.tasks[t].phase.Rereading?)
    ensures Learned(Advance(s, t, io).tasks[u]).Some? ==> LearnsRightly(s, Advance(s, t, io), u)
  {
  }

  lemma PromoteLearns(s: System, t: TaskId, io: JournalIo, u: TaskId)
    requires t < |s.tasks| && u < |s.tasks| && s.tasks[t].phase.Storing?
    ensures Learned(Advance(s, t, io).tasks[u]).Some? ==> LearnsRightly(s, Advance(s, t, io), u)
  {
    StoreKeepsRecords(s.file, Metadata(s.tasks[t].identity, s.tasks[t].phase.claim.receiptContext), io);
  }

  lemma CompleteLearns(s: System, t: TaskId, io: JournalIo, u: TaskId)
    requires RolesOk(s.cache, s.owners, s.tasks) && t < |s.tasks| && u < |s.tasks| && s.tasks[t].phase.Completing?
    ensures Learned(Advance(s, t, io).tasks[u]).Some? ==> LearnsRightly(s, Advance(s, t, io), u)
  {
    CompleteTasks(s, t, u);
  }

  lemma StayLearns(s: System, t: TaskId, io: JournalIo, u: TaskId)
    requires t < |s.tasks| && u < |s.tasks|
    requires s.tasks[t].phase.Acquiring? || s.tasks[t].phase.Waiting? || s.tasks[t].phase.Finished?
    ensures Learned(Advance(s, t, io).tasks[u]).Some? ==> LearnsRightly(s, Advance(s, t, io), u)
  {
  }

  lemma AdvanceLearns(s: System, t: TaskId, io: JournalIo, u: TaskId)
    requires RolesOk(s.cache, s.owners, s.tasks) && t < |s.tasks| && u < |s.tasks|
    ensures Learned(Advance(s, t, io).tasks[u]).Some? ==> LearnsRightly(s, Advance(s, t, io), u)
  {
    match s.tasks[t].phase
    case Reading => ReadLearns(s, t, io, u);
    case Rereading(_) => ReadLearns(s, t, io, u);
    case Storing(_) => PromoteLearns(s, t, io, u);
    case Completing(_, _) => CompleteLearns(s, t, io, u);
    case _ => StayLearns(s, t, io, u);
  }

  lemma LearnsFromJournal(s: System, op: Op, u: TaskId)
    requires RolesOk(s.cache, s.owners, s.tasks)
    requires u < |Next(s, op).tasks| && Learned(Next(s, op).tasks[u]).Some?
    ensures LearnsRightly(s, Next(s, op), u)
  {
    if op.Advances? && op.task < |s.tasks| { AdvanceLearns(s, op.task, op.io, u); }
  }

  lemma LearnedStep(s: System, op: Op)
    requires RolesOk(s.cache, s.owners, s.tasks) && LearnedOk(s)
    ensures LearnedOk(Next(s, op))
  {
    var m := Next(s, op);
    assert Grows(s.seen, m.seen);
    forall u | 0 <= u < |m.tasks| && Learned(m.tasks[u]).Some?
      ensures WasSeen(m.seen, m.tasks[u].identity, Learned(m.tasks[u]).value)
    {
      LearnsFromJournal(s, op, u);
      StillSeen(s.seen, m.seen, m.tasks[u].identity, Learned(m.tasks[u]).value);
    }
  }

  lemma {:induction false} InvAlong(s: System, ops: seq<Op>)
    requires Inv(s)
    ensures Inv(Run(s, ops))
  {
    if ops != [] {
      var before := Run(s, ops[..|ops| - 1]);
      var op := ops[|ops| - 1];
      InvAlong(s, ops[..|ops| - 1]);
      ProtocolStep(before, op);
      PromotedStep(before, op);
      SeenStep(before, op);
      LearnedStep(before, op);
    }
  }
}
