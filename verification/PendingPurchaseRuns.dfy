/**
 * The correlation store over whole runs: any sequence of operations, any outcome of every
 * journal write, and process deaths in between.
 */
module PendingPurchaseRuns {
  import opened Options
  import opened LinkedMaps
  import opened PurchaseTypes
  import opened PendingPurchaseModel
  import opened PendingPurchaseInvariants
  import opened PendingPurchaseJournal
  import opened PendingPurchaseSteps

  datatype Op =
    | Registers(product: ProductId, callback: Callback)
    | UpdatesContext(product: ProductId, context: NativePurchaseContext)
    | MarksLaunched(product: ProductId, atMillis: int)
    | Defers(productIds: seq<ProductId>, token: Token, w: Write)
    | Prepares(product: ProductId, snapshots: seq<OwnedPurchaseSnapshot>, w: Write)
    | Routes(token: Token, productIds: seq<ProductId>, w: Write)
    | Reconciles(snapshots: seq<OwnedPurchaseSnapshot>, w: Write)
    | RemovesBeforeFinish(token: Token, w: Write)
    | Takes(productIds: seq<ProductId>)
    | Removes(product: ProductId)
    | Drains
    | Dies  // the process ends; the next instance restores from the journal

  predicate LegalOp(op: Op) {
    match op
    case Defers(_, _, w) => Written(w.left)
    case Prepares(_, _, w) => Written(w.left)
    case Routes(_, _, w) => Written(w.left)
    case Reconciles(_, w) => Written(w.left)
    case RemovesBeforeFinish(_, w) => Written(w.left)
    case _ => true
  }

  predicate LegalOps(ops: seq<Op>) {
    forall op :: op in ops ==> LegalOp(op)
  }

  function Next(s: Store, op: Op): Store {
    match op
    case Registers(p, cb) => Register(s, p, cb).0
    case UpdatesContext(p, c) => UpdateContext(s, p, c)
    case MarksLaunched(p, at) => MarkLaunched(s, p, at)
    case Defers(ids, t, w) => Defer(s, ids, t, w).0
    case Prepares(p, snapshots, w) => Prepare(s, p, snapshots, w).0
    case Routes(t, ids, w) => Route(s, t, ids, w).0
    case Reconciles(snapshots, w) => Reconcile(s, snapshots, w).0
    case RemovesBeforeFinish(t, w) => RemoveBeforeFinish(s, t, w).0
    case Takes(ids) => TakeForProducts(s, ids).0
    case Removes(p) => Remove(s, p).0
    case Drains => Drain(s).0
    case Dies => Restore(s.journal)
  }

  function Run(s: Store, ops: seq<Op>): Store {
    if ops == [] then s else Next(Run(s, ops[..|ops| - 1]), ops[|ops| - 1])
  }

  // ---- Restore -------------------------------------------------------------------------

  lemma {:induction false} MetadataConcat(a: seq<Token>, b: seq<Token>, vals: map<Token, CorrelatedPurchase>)
    ensures Metadata(a + b, vals) == Metadata(a, vals) + Metadata(b, vals)
  {
    if a == [] {
      assert a + b == b;
    } else {
      assert (a + b)[1..] == a[1..] + b;
      MetadataConcat(a[1..], b, vals);
    }
  }

  function Restored(m: LocalTransactionMetadata): CorrelatedPurchase {
    CorrelatedPurchase(m.purchaseToken, m.productIds, m.context, true)
  }

  lemma RestoreRecordOk(known: Correlations, m: LocalTransactionMetadata)
    requires TablesOk(Tables(EmptyMap(), known)) && |known.keys| <= MAX_CORRELATED_PURCHASES
    ensures TablesOk(Tables(EmptyMap(), RestoreRecord(known, m)))
    ensures |RestoreRecord(known, m).keys| <= MAX_CORRELATED_PURCHASES
  {
    if Storable(m) {
      PutValid(known, m.purchaseToken, Restored(m));
      if m.purchaseToken in known.vals {
        PutValid(known, m.purchaseToken,
                 CorrelatedPurchase(m.purchaseToken, known.vals[m.purchaseToken].productIds + m.productIds, None, true));
      }
    }
  }

  lemma {:induction false} RestoreRecordsOk(records: seq<LocalTransactionMetadata>)
    ensures TablesOk(Tables(EmptyMap(), RestoreRecords(records)))
    ensures |RestoreRecords(records).keys| <= MAX_CORRELATED_PURCHASES
  {
    if records != [] {
      RestoreRecordsOk(records[..|records| - 1]);
      RestoreRecordOk(RestoreRecords(records[..|records| - 1]), records[|records| - 1]);
    }
  }

  /** The map holds exactly the records, and would be written back as the same list. */
  ghost predicate RestoresTo(records: seq<LocalTransactionMetadata>, r: Correlations) {
    && |r.keys| == |records|
    && (forall k :: k in r.keys <==> k in r.vals)
    && (forall t :: t in r.vals ==> exists m :: m in records && m.purchaseToken == t)
    && (forall m :: m in records ==> m.purchaseToken in r.vals && r.vals[m.purchaseToken] == Restored(m))
    && Metadata(r.keys, r.vals) == records
  }

  lemma RestoreOneMore(front: seq<LocalTransactionMetadata>, before: Correlations, m: LocalTransactionMetadata)
    requires RestoresTo(front, before)
    requires forall x :: x in front ==> x.purchaseToken != m.purchaseToken
    ensures RestoresTo(front + [m], before.Put(m.purchaseToken, Restored(m)))
    ensures m.purchaseToken !in before.vals
  {
    assert m.purchaseToken !in before.vals;
    var r := before.Put(m.purchaseToken, Restored(m));
    MetadataConcat(before.keys, [m.purchaseToken], r.vals);
    MetadataFrame(before.keys, before.vals, r.vals);
    assert Metadata([m.purchaseToken], r.vals) == [m];
    forall t | t in r.vals ensures exists x :: x in front + [m] && x.purchaseToken == t {
      if t == m.purchaseToken {
        assert m in front + [m];
      } else {
        var x :| x in front && x.purchaseToken == t;
        assert x in front + [m];
      }
    }
  }

  lemma CleanFront(records: seq<LocalTransactionMetadata>)
    requires Clean(records) && records != []
    ensures var front, m := records[..|records| - 1], records[|records| - 1];
            && Clean(front) && Storable(m) && |front| < MAX_CORRELATED_PURCHASES
            && (forall x :: x in front ==> x.purchaseToken != m.purchaseToken)
  {
    var front, m := records[..|records| - 1], records[|records| - 1];
    assert m in records;
    forall x | x in front ensures x in records && x.purchaseToken != m.purchaseToken {
      var i :| 0 <= i < |front| && front[i] == x;
      assert records[i] == x;
    }
  }

  /** A journal some instance wrote is restored record by record. */
  lemma {:induction false} RestoreClean(records: seq<LocalTransactionMetadata>)
    requires Clean(records)
    ensures RestoresTo(records, RestoreRecords(records))
  {
    if records != [] {
      var front, m := records[..|records| - 1], records[|records| - 1];
      assert records == front + [m];
      CleanFront(records);
      RestoreClean(front);
      RestoreOneMore(front, RestoreRecords(front), m);
    }
  }

  lemma RestoreKeeps(journal: Journal)
    requires Written(journal)
    ensures Inv(Restore(journal)) && JournalExact(Restore(journal)) && Restore(journal).journal == journal
  {
    if journal.Readable? {
      RestoreRecordsOk(journal.records);
      RestoreClean(journal.records);
      PlusOntoEmpty(RestoreRecords(journal.records));
    }
  }

  /** A crash without a persistence failure brings back exactly the durable records. */
  lemma CrashRestoresDurableRecords(s: Store, t: Token)
    requires Inv(s) && JournalExact(s) && !s.failed
    ensures Where(Restore(s.journal), t) == if IsDurableAt(s, t) then InCompleted(s.Existing(t).value) else Unknown
  {
    DurableMetadataContents(TablesOf(s));
    RestoreClean(s.journal.records);
    var m := s.journal.records;
    assert IsDurableAt(s, t) <==> DurableIn(TablesOf(s), t);
    if IsDurableAt(s, t) {
      assert t in DurableTokens(TablesOf(s));
      assert ToMetadata(s.Existing(t).value) in m;
    } else {
      assert t !in DurableTokens(TablesOf(s));
    }
  }

  // ---- Every operation keeps the invariant ---------------------------------------------

  lemma FlowOps(s: Store, op: Op)
    requires Inv(s)
    requires op.Registers? || op.UpdatesContext? || op.MarksLaunched? || op.Takes? || op.Removes? || op.Drains?
    ensures Keeps(s, Next(s, op)) && SameRecords(s, Next(s, op))
  {
    match op
    case Removes(p) => RemoveActive(s, p);
    case Takes(ids) => RestrictValid(s.purchases, s.purchases.vals.Keys - SetOf(ids));
    case Registers(p, cb) =>
      PutValid(EmptyMap<ProductId, PendingPurchase>(), p, PendingPurchase(cb, None, None, true));
    case _ =>
  }

  lemma StepKeeps(s: Store, op: Op)
    requires Inv(s) && LegalOp(op) && Written(s.journal)
    ensures Keeps(s, Next(s, op))
  {
    match op
    case Defers(ids, t, w) => DeferStep(s, ids, t, w);
    case Prepares(p, snapshots, w) => PrepareStep(s, p, snapshots, w);
    case Routes(t, ids, w) => RouteStep(s, t, ids, w);
    case Reconciles(snapshots, w) => ReconcileStep(s, snapshots, w);
    case RemovesBeforeFinish(t, w) => RemoveStep(s, t, w);
    case Dies => RestoreKeeps(s.journal);
    case _ => FlowOps(s, op);
  }

  /**
   * Main result 1. At most 32 records in every reachable state, so `take(32)` never cuts the
   * journal, and the journal is exactly the durable records whenever no failure is reported.
   */
  lemma {:induction false} CapacityAndJournal(journal: Journal, ops: seq<Op>)
    requires Written(journal) && LegalOps(ops)
    ensures var s := Run(Restore(journal), ops);
            && Inv(s) && Written(s.journal)
            && |s.purchases.keys| + |s.deferred.keys| + |s.completed.keys| <= MAX_CORRELATED_PURCHASES
            && |DurableMetadata(s.deferred, s.completed)| <= MAX_CORRELATED_PURCHASES
            && (!s.failed ==> s.journal == Readable(DurableMetadata(s.deferred, s.completed)))
            && JournalExact(s)
  {
    if ops == [] {
      RestoreKeeps(journal);
    } else {
      assert LegalOp(ops[|ops| - 1]);
      CapacityAndJournal(journal, ops[..|ops| - 1]);
      StepKeeps(Run(Restore(journal), ops[..|ops| - 1]), ops[|ops| - 1]);
    }
    DurableMetadataContents(TablesOf(Run(Restore(journal), ops)));
  }
}
