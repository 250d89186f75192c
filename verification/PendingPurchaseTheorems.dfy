/**
 * Main results about the correlation store: durability, attribution, callbacks, preflight,
 * and what a journal that cannot be read does to every later run.
 */
module PendingPurchaseTheorems {
  import opened Options
  import opened LinkedMaps
  import opened PurchaseTypes
  import opened PendingPurchaseModel
  import opened PendingPurchaseInvariants
  import opened PendingPurchaseJournal
  import opened PendingPurchaseSteps
  import opened PendingPurchaseRuns

  /** A state some run over some earlier instance's journal can reach. */
  ghost predicate Good(s: Store) {
    Inv(s) && JournalExact(s) && Written(s.journal)
  }

  lemma GoodStep(s: Store, op: Op)
    requires Good(s) && LegalOp(op)
    ensures Good(Next(s, op))
  {
    StepKeeps(s, op);
  }

  lemma {:induction false} GoodRun(s: Store, ops: seq<Op>)
    requires Good(s) && LegalOps(ops)
    ensures Good(Run(s, ops))
  {
    if ops != [] {
      assert LegalOp(ops[|ops| - 1]);
      GoodRun(s, ops[..|ops| - 1]);
      GoodStep(Run(s, ops[..|ops| - 1]), ops[|ops| - 1]);
    }
  }

  // ---- One step at one token -----------------------------------------------------------

  /** Where an operation may leave a token. Only an overflowing preflight may also forget it. */
  predicate MayMove(s: Store, op: Op, t: Token, after: Place) {
    match op
    case Defers(ids, k, w) =>
      var released := Defer(s, ids, k, w).1;
      if released.Some? && k == t && !IsBlank(t)
      then after == InDeferred(Deferral(s.Existing(t), t, SetOf(ids), released.value)) else after == Where(s, t)
    case Prepares(p, snapshots, w) =>
      if s.purchases.keys != [] then after == Where(s, t)
      else after == PreparedPlace(s, p, snapshots, t) || (after == Unknown && !IsDurableAt(s, t))
    case Routes(k, ids, w) =>
      var routed := Route(s, k, ids, w).1;
      if k != t || IsBlank(t) || routed.kind.OUT_OF_BAND? then after == Where(s, t)
      else if routed.kind.CORRELATED? then !Where(s, t).Unknown? && after == RoutedPlace(s, t, ids)
      else && Where(s, t).Unknown? && routed.activePurchase.Some?
           && after == InCompleted(Novel(t, SetOf(ids), routed.activePurchase.value))
    case Reconciles(snapshots, w) => after == ReconciledPlace(s, snapshots, t)
    case RemovesBeforeFinish(k, w) =>
      if RemoveBeforeFinish(s, k, w).1 && k == t then after == Unknown else after == Where(s, t)
    case Dies =>
      !s.failed ==> after == if IsDurableAt(s, t) then InCompleted(s.Existing(t).value) else Unknown
    case _ => after == Where(s, t)
  }

  lemma DeferMoves(s: Store, ids: seq<ProductId>, k: Token, w: Write, t: Token)
    requires Good(s) && Written(w.left)
    ensures MayMove(s, Defers(ids, k, w), t, Where(Next(s, Defers(ids, k, w)), t))
  {
    DeferStep(s, ids, k, w);
  }

  lemma PrepareMoves(s: Store, p: ProductId, snapshots: seq<OwnedPurchaseSnapshot>, w: Write, t: Token)
    requires Good(s) && Written(w.left)
    ensures MayMove(s, Prepares(p, snapshots, w), t, Where(Next(s, Prepares(p, snapshots, w)), t))
  {
    PrepareStep(s, p, snapshots, w);
  }

  lemma RouteMoves(s: Store, k: Token, ids: seq<ProductId>, w: Write, t: Token)
    requires Good(s) && Written(w.left)
    ensures MayMove(s, Routes(k, ids, w), t, Where(Next(s, Routes(k, ids, w)), t))
  {
    RouteStep(s, k, ids, w);
  }

  lemma RemoveMoves(s: Store, k: Token, w: Write, t: Token)
    requires Good(s) && Written(w.left)
    ensures MayMove(s, RemovesBeforeFinish(k, w), t, Where(Next(s, RemovesBeforeFinish(k, w)), t))
  {
    RemoveStep(s, k, w);
  }

  lemma ReconcileMoves(s: Store, snapshots: seq<OwnedPurchaseSnapshot>, w: Write, t: Token)
    requires Good(s) && Written(w.left)
    ensures MayMove(s, Reconciles(snapshots, w), t, Where(Next(s, Reconciles(snapshots, w)), t))
  {
    ReconcileStep(s, snapshots, w);
  }

  lemma FlowMoves(s: Store, op: Op, t: Token)
    requires Good(s)
    requires op.Registers? || op.UpdatesContext? || op.MarksLaunched? || op.Takes? || op.Removes? || op.Drains?
    ensures MayMove(s, op, t, Where(Next(s, op), t))
  {
    FlowOps(s, op);
  }

  lemma DeathMoves(s: Store, t: Token)
    requires Good(s)
    ensures MayMove(s, Dies, t, Where(Next(s, Dies), t))
  {
    if !s.failed {
      CrashRestoresDurableRecords(s, t);
    }
  }

  /** What every single operation does at every single token. */
  lemma StepMoves(s: Store, op: Op, t: Token)
    requires Good(s) && LegalOp(op)
    ensures MayMove(s, op, t, Where(Next(s, op), t))
  {
    match op
    case Defers(ids, k, w) => DeferMoves(s, ids, k, w, t);
    case Prepares(p, snapshots, w) => PrepareMoves(s, p, snapshots, w, t);
    case Routes(k, ids, w) => RouteMoves(s, k, ids, w, t);
    case Reconciles(snapshots, w) => ReconcileMoves(s, snapshots, w, t);
    case RemovesBeforeFinish(k, w) => RemoveMoves(s, k, w, t);
    case Dies => DeathMoves(s, t);
    case _ => FlowMoves(s, op, t);
  }

  // ---- Durability ----------------------------------------------------------------------

  predicate Finishes(s: Store, op: Op, t: Token) {
    op.RemovesBeforeFinish? && op.token == t && RemoveBeforeFinish(s, t, op.w).1
  }

  /** The step neither finishes `t` nor dies while a persistence failure is being reported. */
  predicate Spares(s: Store, op: Op, t: Token) {
    !Finishes(s, op, t) && (op.Dies? ==> !s.failed)
  }

  ghost predicate SparesAlong(s: Store, ops: seq<Op>, t: Token) {
    ops != [] ==> SparesAlong(s, ops[..|ops| - 1], t) && Spares(Run(s, ops[..|ops| - 1]), ops[|ops| - 1], t)
  }

  /** `after` is still durable, its products only grew, and its context is the old one or dropped. */
  ghost predicate Survives(before: Place, after: Place) {
    && before != Unknown && after != Unknown
    && after.c.isDurable
    && before.c.productIds <= after.c.productIds
    && (after.c.context == before.c.context || after.c.context.None?)
  }

  /** The same record, possibly elsewhere and possibly without its context. */
  predicate SameRecordAs(before: Place, after: Place) {
    && before != Unknown && after != Unknown
    && after.c.purchaseToken == before.c.purchaseToken
    && after.c.productIds == before.c.productIds
    && after.c.isDurable == before.c.isDurable
    && (after.c.context == before.c.context || after.c.context.None?)
  }

  /** Observing Play's snapshots never adds a context and never takes a durable record away. */
  lemma SnapshotsOnlyDrop(s: Store, op: Op, t: Token, after: Place)
    requires op.Prepares? || op.Reconciles?
    requires MayMove(s, op, t, after)
    ensures Where(s, t) != Unknown && after != Unknown ==> SameRecordAs(Where(s, t), after)
    ensures Where(s, t).Unknown? && after != Unknown ==> after.c.context.None?
    ensures IsDurableAt(s, t) ==> after != Unknown
  {
    if op.Prepares? {
      PreparedDurable(s, op.product, op.snapshots, t);
    }
  }

  lemma DurableStep(s: Store, op: Op, t: Token)
    requires Good(s) && LegalOp(op) && IsDurableAt(s, t) && Spares(s, op, t)
    ensures Survives(Where(s, t), Where(Next(s, op), t))
  {
    var after := Where(Next(s, op), t);
    StepMoves(s, op, t);
    if op.Prepares? || op.Reconciles? {
      SnapshotsOnlyDrop(s, op, t, after);
    } else {
      DurableUnobserved(s, op, t, after);
    }
  }

  lemma DurableUnobserved(s: Store, op: Op, t: Token, after: Place)
    requires !op.Prepares? && !op.Reconciles?
    requires MayMove(s, op, t, after) && IsDurableAt(s, t) && Spares(s, op, t)
    ensures Survives(Where(s, t), after)
  {
    assert Where(s, t) != Unknown && s.Existing(t) == Some(Where(s, t).c);
  }

  /**
   * Main result 2. A durable correlation is never lost: through preflights (overflowing ones
   * included), empty queries, deferrals, crashes and failed writes, a durable token stays
   * durable until it is finished, and its context is what it was or has been dropped for good.
   */
  lemma {:induction false} DurableNeverLost(s: Store, ops: seq<Op>, t: Token)
    requires Good(s) && LegalOps(ops) && IsDurableAt(s, t) && SparesAlong(s, ops, t)
    ensures Survives(Where(s, t), Where(Run(s, ops), t))
  {
    if ops != [] {
      var front, op := ops[..|ops| - 1], ops[|ops| - 1];
      assert LegalOp(op);
      DurableNeverLost(s, front, t);
      GoodRun(s, front);
      DurableStep(Run(s, front), op, t);
    }
  }

  predicate InJournal(j: Journal, t: Token) {
    j.Readable? && exists i :: 0 <= i < |j.records| && j.records[i].purchaseToken == t
  }

  /**
   * The exact edge of that: whatever failed before, a crash leaves durable exactly the tokens
   * the journal then names, each with the record written there.
   */
  lemma DeathKeepsWhatIsWritten(s: Store, t: Token)
    requires Written(s.journal)
    ensures IsDurableAt(Next(s, Dies), t) <==> InJournal(s.journal, t)
    ensures forall i :: s.journal.Readable? && 0 <= i < |s.journal.records| && s.journal.records[i].purchaseToken == t ==>
                          Where(Next(s, Dies), t) == InCompleted(Restored(s.journal.records[i]))
  {
    if s.journal.Readable? {
      var records := s.journal.records;
      RestoredExactly(records, t);
      assert Next(s, Dies).completed == RestoreRecords(records) && Next(s, Dies).deferred.vals == map[];
    }
  }

  lemma RestoredExactly(records: seq<LocalTransactionMetadata>, t: Token)
    requires Clean(records)
    ensures t in RestoreRecords(records).vals <==> exists i :: 0 <= i < |records| && records[i].purchaseToken == t
    ensures forall i :: 0 <= i < |records| && records[i].purchaseToken == t ==>
                          t in RestoreRecords(records).vals && RestoreRecords(records).vals[t] == Restored(records[i])
  {
    RestoreClean(records);
    var restored := RestoreRecords(records);
    if t in restored.vals {
      var m :| m in records && m.purchaseToken == t;
      var i :| 0 <= i < |records| && records[i] == m;
      assert records[i].purchaseToken == t;
    }
    forall i | 0 <= i < |records| && records[i].purchaseToken == t
      ensures t in restored.vals && restored.vals[t] == Restored(records[i])
    {
      assert records[i] in records;
    }
  }

  /** Once a durable token's context is dropped, it stays null until the token is finished. */
  lemma DroppedStaysDropped(s: Store, ops: seq<Op>, t: Token)
    requires Good(s) && LegalOps(ops) && IsDurableAt(s, t) && SparesAlong(s, ops, t)
    requires Where(s, t).c.context.None?
    ensures Where(Run(s, ops), t) != Unknown && Where(Run(s, ops), t).c.context.None?
  {
    DurableNeverLost(s, ops, t);
  }

  // ---- Attribution ---------------------------------------------------------------------

  type Attribution = map<Token, NativePurchaseContext>

  /** The flow a novel non-blank token consumed in this step, if any. */
  function ConsumedFlow(s: Store, op: Op, t: Token): Option<PendingPurchase> {
    if IsBlank(t) || !Where(s, t).Unknown? then None
    else if op.Defers? && op.token == t then Defer(s, op.productIds, t, op.w).1
    else if op.Routes? && op.token == t then Route(s, t, op.productIds, op.w).1.activePurchase
    else None
  }

  function OpToken(op: Op): Option<Token> {
    match op
    case Defers(_, t, _) => Some(t)
    case Routes(t, _, _) => Some(t)
    case RemovesBeforeFinish(t, _) => Some(t)
    case _ => None
  }

  /** History: the context of the flow each token consumed when it was novel. */
  function Attribute(s: Store, op: Op, known: Attribution): Attribution {
    match OpToken(op)
    case None => known
    case Some(t) =>
      if Finishes(s, op, t) then known - {t}
      else
        match ConsumedFlow(s, op, t)
        case Some(flow) => if flow.context.Some? then known[t := flow.context.value] else known
        case None => known
  }

  function AttributeAlong(s: Store, ops: seq<Op>, known: Attribution): Attribution {
    if ops == [] then known
    else Attribute(Run(s, ops[..|ops| - 1]), ops[|ops| - 1], AttributeAlong(s, ops[..|ops| - 1], known))
  }

  /** Every context held for a token is the one its flow brought. */
  ghost predicate Attributed(s: Store, known: Attribution) {
    forall t :: Where(s, t) != Unknown && Where(s, t).c.context.Some? ==>
                  t in known && known[t] == Where(s, t).c.context.value
  }

  ghost predicate NoDeathWhileFailed(s: Store, ops: seq<Op>) {
    ops != [] ==>
      && NoDeathWhileFailed(s, ops[..|ops| - 1])
      && (ops[|ops| - 1].Dies? ==> !Run(s, ops[..|ops| - 1]).failed)
  }

  /** A context held afterwards was held before, or came with the flow consumed in this step. */
  predicate ContextExplained(s: Store, op: Op, t: Token, after: Place) {
    after != Unknown && after.c.context.Some? ==>
      && !Finishes(s, op, t)
      && (|| (Where(s, t) != Unknown && after.c.context == Where(s, t).c.context)
          || (OpToken(op) == Some(t) && ConsumedFlow(s, op, t).Some? &&
              ConsumedFlow(s, op, t).value.context == after.c.context))
  }

  lemma AttributeStepAt(s: Store, op: Op, t: Token)
    requires Good(s) && LegalOp(op) && (op.Dies? ==> !s.failed)
    ensures ContextExplained(s, op, t, Where(Next(s, op), t))
  {
    var after := Where(Next(s, op), t);
    StepMoves(s, op, t);
    if op.Prepares? || op.Reconciles? {
      SnapshotsOnlyDrop(s, op, t, after);
    } else {
      AttributeUnobserved(s, op, t, after);
    }
  }

  lemma AttributeUnobserved(s: Store, op: Op, t: Token, after: Place)
    requires !op.Prepares? && !op.Reconciles? && (op.Dies? ==> !s.failed)
    requires MayMove(s, op, t, after)
    ensures ContextExplained(s, op, t, after)
  {
    assert s.Existing(t) == if Where(s, t).Unknown? then None else Some(Where(s, t).c);
  }

  lemma AttributeKnown(s: Store, op: Op, known: Attribution, t: Token)
    ensures OpToken(op) != Some(t) ==>
              (t in known ==> t in Attribute(s, op, known) && Attribute(s, op, known)[t] == known[t])
    ensures OpToken(op) == Some(t) && !Finishes(s, op, t) ==>
              match ConsumedFlow(s, op, t)
              case None => t in known ==> t in Attribute(s, op, known) && Attribute(s, op, known)[t] == known[t]
              case Some(flow) => flow.context.Some? ==>
                                   t in Attribute(s, op, known) && Attribute(s, op, known)[t] == flow.context.value
  {
  }

  lemma AttributeStep(s: Store, op: Op, known: Attribution)
    requires Good(s) && LegalOp(op) && (op.Dies? ==> !s.failed) && Attributed(s, known)
    ensures Attributed(Next(s, op), Attribute(s, op, known))
  {
    forall t | Where(Next(s, op), t) != Unknown && Where(Next(s, op), t).c.context.Some?
      ensures t in Attribute(s, op, known) && Attribute(s, op, known)[t] == Where(Next(s, op), t).c.context.value
    {
      AttributeStepAt(s, op, t);
      AttributeKnown(s, op, known, t);
    }
  }

  /**
   * Main result 3. Over every run, the context held for a token is null or exactly the
   * context of the one flow that token consumed when it was novel.
   */
  lemma {:induction false} AttributionSound(s: Store, ops: seq<Op>, known: Attribution)
    requires Good(s) && LegalOps(ops) && NoDeathWhileFailed(s, ops) && Attributed(s, known)
    ensures Attributed(Run(s, ops), AttributeAlong(s, ops, known))
  {
    if ops != [] {
      var front, op := ops[..|ops| - 1], ops[|ops| - 1];
      assert LegalOp(op);
      AttributionSound(s, front, known);
      GoodRun(s, front);
      AttributeStep(Run(s, front), op, AttributeAlong(s, front, known));
    }
  }

  /** Reconciliation hands out a context only for the same token with the same full product set. */
  lemma ReconcileReportsExactly(s: Store, snapshots: seq<OwnedPurchaseSnapshot>, w: Write, t: Token)
    requires Good(s)
    ensures var contexts := Reconcile(s, snapshots, w).1;
            && (t in contexts <==> ReportsContext(s, snapshots, t))
            && forall c :: (t in contexts && contexts[t] == Some(c)) <==>
                             && ReportsContext(s, snapshots, t)
                             && Where(s, t).c.context == Some(c)
                             && Where(s, t).c.productIds == Observed(snapshots, t).value.productIds
  {
    ReconciledAt(s, snapshots, t);
  }

  // ---- Callbacks -----------------------------------------------------------------------

  function Callbacks(flows: seq<PendingPurchase>): seq<Callback> {
    seq(|flows|, i requires 0 <= i < |flows| => flows[i].callback)
  }

  function AsSeq<T>(o: Option<T>): seq<T> {
    match o case None => [] case Some(x) => [x]
  }

  /** The flows an operation hands back to its caller. */
  function HandedOut(s: Store, op: Op): seq<PendingPurchase> {
    match op
    case Defers(ids, t, w) => AsSeq(Defer(s, ids, t, w).1)
    case Routes(t, ids, w) => AsSeq(Route(s, t, ids, w).1.activePurchase)
    case Takes(ids) => TakeForProducts(s, ids).1
    case Removes(p) => AsSeq(Remove(s, p).1)
    case Drains => Drain(s).1
    case _ => []
  }

  function Accepted(s: Store, op: Op): seq<Callback> {
    if op.Registers? && Register(s, op.product, op.callback).1 then [op.callback] else []
  }

  function Active(s: Store): seq<PendingPurchase> {
    Values(s.purchases.keys, s.purchases.vals)
  }

  function AcceptedAlong(s: Store, ops: seq<Op>): seq<Callback> {
    if ops == [] then []
    else AcceptedAlong(s, ops[..|ops| - 1]) + Accepted(Run(s, ops[..|ops| - 1]), ops[|ops| - 1])
  }

  function HandedOutAlong(s: Store, ops: seq<Op>): seq<Callback> {
    if ops == [] then []
    else HandedOutAlong(s, ops[..|ops| - 1]) + Callbacks(HandedOut(Run(s, ops[..|ops| - 1]), ops[|ops| - 1]))
  }

  lemma ActiveIs(s: Store)
    requires Inv(s)
    ensures |Active(s)| == |s.purchases.keys|
    ensures s.purchases.keys != [] ==> s.purchases.keys[0] in s.purchases.vals &&
                                       Active(s) == [s.purchases.vals[s.purchases.keys[0]]]
  {
    if s.purchases.keys != [] {
      var k := s.purchases.keys[0];
      assert s.purchases.keys == [k] && s.purchases.keys[1..] == [];
      assert Values(s.purchases.keys[1..], s.purchases.vals) == [];
      assert Active(s) == [s.purchases.vals[k]] + [];
    }
  }

  /** The released flow is the active one, with only its durability flag replaced. */
  predicate IsActiveFlow(s: Store, flow: PendingPurchase) {
    |Active(s)| == 1 && flow == Active(s)[0].(isMetadataDurable := flow.isMetadataDurable)
  }

  /** An operation keeps, replaces, opens or releases the active flow. */
  ghost predicate FlowStep(s: Store, op: Op) {
    Callbacks(Active(s)) + Accepted(s, op) == Callbacks(HandedOut(s, op)) + Callbacks(Active(Next(s, op)))
  }

  /** What releasing, or not releasing, the active flow does to the callbacks. */
  lemma ReleaseFlow(s: Store, next: Store, released: Option<PendingPurchase>)
    requires Inv(s) && Inv(next)
    requires released.None? ==> next.purchases == s.purchases
    requires released.Some? ==>
               && s.purchases.keys != [] && next.purchases.keys == [] && s.purchases.keys[0] in s.purchases.vals
               && released.value == s.purchases.vals[s.purchases.keys[0]].(isMetadataDurable := released.value.isMetadataDurable)
    ensures Callbacks(Active(s)) + [] == Callbacks(AsSeq(released)) + Callbacks(Active(next))
    ensures released.Some? ==> IsActiveFlow(s, released.value)
  {
    ActiveIs(s);
    ActiveIs(next);
  }

  /** The flow that `FirstIn` finds is the only one there is. */
  lemma FoundFlow(s: Store, ids: seq<ProductId>)
    requires Inv(s)
    ensures var product := FirstIn(s.purchases.keys, SetOf(ids) * s.purchases.vals.Keys);
            product.Some? ==> s.purchases.keys == [product.value] && product.value in s.purchases.vals
  {
  }

  lemma DeferFlow(s: Store, ids: seq<ProductId>, t: Token, w: Write)
    requires Good(s) && Written(w.left)
    ensures FlowStep(s, Defers(ids, t, w))
    ensures Defer(s, ids, t, w).1.Some? ==> IsActiveFlow(s, Defer(s, ids, t, w).1.value)
  {
    var (next, released) := Defer(s, ids, t, w);
    DeferStep(s, ids, t, w);
    FoundFlow(s, ids);
    ReleaseFlow(s, next, released);
  }

  lemma RouteFlow(s: Store, t: Token, ids: seq<ProductId>, w: Write)
    requires Good(s) && Written(w.left)
    ensures FlowStep(s, Routes(t, ids, w))
    ensures Route(s, t, ids, w).1.activePurchase.Some? ==> IsActiveFlow(s, Route(s, t, ids, w).1.activePurchase.value)
  {
    var (next, routed) := Route(s, t, ids, w);
    RouteStep(s, t, ids, w);
    FoundFlow(s, ids);
    ReleaseFlow(s, next, routed.activePurchase);
  }

  lemma ValuesOne(k: ProductId, vals: map<ProductId, PendingPurchase>)
    ensures Values([k], vals) == if k in vals then [vals[k]] else []
  {
    assert [k][1..] == [];
    assert Values<PendingPurchase>([], vals) == [];
  }

  lemma KeepOne(k: ProductId, kept: set<ProductId>)
    ensures Keep([k], kept) == if k in kept then [k] else []
  {
    assert [k][1..] == [];
  }

  /** The one flow goes to exactly one side of a split. */
  lemma SplitFlow(m: LinkedMap<ProductId, PendingPurchase>, taken: set<ProductId>)
    requires m.Valid() && |m.keys| <= 1
    ensures var out, left := m.Restrict(taken), m.Restrict(m.vals.Keys - taken);
            Callbacks(Values(m.keys, m.vals)) ==
            Callbacks(Values(out.keys, out.vals)) + Callbacks(Values(left.keys, left.vals))
  {
    if m.keys != [] {
      var k := m.keys[0];
      assert m.keys == [k] && k in m.keys;
      KeepOne(k, taken);
      KeepOne(k, m.vals.Keys - taken);
      ValuesOne(k, m.vals);
      ValuesOne(k, m.Restrict(taken).vals);
      ValuesOne(k, m.Restrict(m.vals.Keys - taken).vals);
    }
  }

  ghost predicate OneFlow(s: Store) {
    s.purchases.Valid() && |s.purchases.keys| <= 1
  }

  lemma TakeFlow(s: Store, ids: seq<ProductId>)
    requires OneFlow(s)
    ensures FlowStep(s, Takes(ids))
  {
    SplitFlow(s.purchases, SetOf(ids));
  }

  lemma TakenOne(m: LinkedMap<ProductId, PendingPurchase>, p: ProductId)
    requires m.Valid() && |m.keys| <= 1
    ensures var out := m.Restrict({p}); Values(out.keys, out.vals) == AsSeq(m.Get(p))
  {
    if m.keys != [] {
      var k := m.keys[0];
      assert m.keys == [k] && k in m.keys;
      KeepOne(k, {p});
      ValuesOne(k, m.Restrict({p}).vals);
    }
  }

  lemma RemoveFlow(s: Store, p: ProductId)
    requires OneFlow(s)
    ensures FlowStep(s, Removes(p))
  {
    SplitFlow(s.purchases, {p});
    TakenOne(s.purchases, p);
  }

  /** Replacing the value of a known flow by one with the same callback. */
  lemma UpdateFlow(m: LinkedMap<ProductId, PendingPurchase>, p: ProductId, flow: PendingPurchase)
    requires m.Valid() && |m.keys| <= 1 && p in m.vals && m.vals[p].callback == flow.callback
    ensures Callbacks(Values(m.keys, m.vals)) == Callbacks(Values(m.Put(p, flow).keys, m.Put(p, flow).vals))
  {
    assert p in m.keys && m.keys == [p];
    ValuesOne(p, m.vals);
    ValuesOne(p, m.Put(p, flow).vals);
  }

  lemma ContextFlow(s: Store, p: ProductId, c: NativePurchaseContext)
    requires OneFlow(s)
    ensures FlowStep(s, UpdatesContext(p, c))
  {
    if p in s.purchases.vals {
      UpdateFlow(s.purchases, p, s.purchases.vals[p].(context := Some(c)));
    }
  }

  lemma LaunchFlow(s: Store, p: ProductId, at: int)
    requires OneFlow(s)
    ensures FlowStep(s, MarksLaunched(p, at))
  {
    if p in s.purchases.vals {
      UpdateFlow(s.purchases, p, s.purchases.vals[p].(launchedAtMillis := Some(at)));
    }
  }

  lemma RegisterFlow(s: Store, p: ProductId, cb: Callback)
    requires OneFlow(s)
    ensures FlowStep(s, Registers(p, cb))
  {
    if Register(s, p, cb).1 {
      var m := EmptyMap<ProductId, PendingPurchase>().Put(p, PendingPurchase(cb, None, None, true));
      assert m.keys == [p];
      ValuesOne(p, m.vals);
      assert s.purchases.keys == [];
    }
  }

  lemma DrainFlow(s: Store)
    requires OneFlow(s)
    ensures FlowStep(s, Drains)
  {
  }

  lemma RecordFlow(s: Store, op: Op)
    requires Good(s) && LegalOp(op) && (op.Prepares? || op.Reconciles? || op.RemovesBeforeFinish?)
    ensures FlowStep(s, op) && Next(s, op).purchases == s.purchases
  {
    match op
    case Prepares(p, snapshots, w) => PrepareStep(s, p, snapshots, w);
    case Reconciles(snapshots, w) => ReconcileStep(s, snapshots, w);
    case RemovesBeforeFinish(t, w) => RemoveStep(s, t, w);
  }

  lemma CallbackStep(s: Store, op: Op)
    requires Good(s) && LegalOp(op) && !op.Dies?
    ensures FlowStep(s, op)
  {
    match op
    case Defers(ids, t, w) => DeferFlow(s, ids, t, w);
    case Routes(t, ids, w) => RouteFlow(s, t, ids, w);
    case Takes(ids) => TakeFlow(s, ids);
    case Removes(p) => RemoveFlow(s, p);
    case Prepares(_, _, _) => RecordFlow(s, op);
    case Reconciles(_, _) => RecordFlow(s, op);
    case RemovesBeforeFinish(_, _) => RecordFlow(s, op);
    case Registers(p, cb) => RegisterFlow(s, p, cb);
    case UpdatesContext(p, c) => ContextFlow(s, p, c);
    case MarksLaunched(p, at) => LaunchFlow(s, p, at);
    case Drains => DrainFlow(s);
  }

  /**
   * Main result 4. Every accepted callback is handed out exactly once, in order, or is still
   * the single active one.
   */
  lemma {:induction false} CallbacksHandedOutOnce(s: Store, ops: seq<Op>)
    requires Good(s) && Active(s) == [] && LegalOps(ops) && forall op :: op in ops ==> !op.Dies?
    ensures AcceptedAlong(s, ops) == HandedOutAlong(s, ops) + Callbacks(Active(Run(s, ops)))
    ensures |Active(Run(s, ops))| <= 1
  {
    GoodRun(s, ops);
    ActiveIs(Run(s, ops));
    if ops != [] {
      var front, op := ops[..|ops| - 1], ops[|ops| - 1];
      assert op in ops && LegalOp(op);
      CallbacksHandedOutOnce(s, front);
      GoodRun(s, front);
      CallbackStep(Run(s, front), op);
      AppendFlow(AcceptedAlong(s, front), HandedOutAlong(s, front), Callbacks(Active(Run(s, front))),
                 Accepted(Run(s, front), op), Callbacks(HandedOut(Run(s, front), op)), Callbacks(Active(Run(s, ops))));
    }
  }

  lemma AppendFlow(accepted: seq<Callback>, handed: seq<Callback>, active: seq<Callback>,
                   more: seq<Callback>, out: seq<Callback>, left: seq<Callback>)
    requires accepted == handed + active && active + more == out + left
    ensures accepted + more == (handed + out) + left
  {
    assert (handed + active) + more == handed + (active + more);
    assert handed + (out + left) == (handed + out) + left;
  }

  // ---- Preflight -----------------------------------------------------------------------

  /** The step neither finishes the token nor reports it PENDING, and hands no callback out. */
  predicate Quiet(s: Store, op: Op, t: Token) {
    && !op.Dies? && HandedOut(s, op) == []
    && !Finishes(s, op, t)
    && (op.Reconciles? ==> Observed(op.snapshots, t).None? || Observed(op.snapshots, t).value.state.PURCHASED?)
  }

  ghost predicate QuietAlong(s: Store, ops: seq<Op>, t: Token) {
    ops != [] ==> QuietAlong(s, ops[..|ops| - 1], t) && Quiet(Run(s, ops[..|ops| - 1]), ops[|ops| - 1], t)
  }

  /** A record that only finishing, or a PENDING report if it is not durable, can take away. */
  predicate Held(s: Store, t: Token) {
    Where(s, t).InCompleted? || IsDurableAt(s, t)
  }

  predicate HeldPlace(place: Place) {
    place.InCompleted? || (place != Unknown && place.c.isDurable)
  }

  lemma QuietPlace(s: Store, op: Op, t: Token, after: Place)
    requires Quiet(s, op, t) && s.purchases.keys != [] && Held(s, t) && MayMove(s, op, t, after)
    ensures HeldPlace(after)
  {
    assert HeldPlace(Where(s, t));
    if op.Defers? {
      assert Defer(s, op.productIds, op.token, op.w).1.None?;
    }
  }

  lemma QuietFlow(s: Store, op: Op, t: Token, callback: Callback)
    requires Quiet(s, op, t) && FlowStep(s, op) && s.purchases.keys != [] && Callbacks(Active(s)) == [callback]
    ensures Callbacks(Active(Next(s, op))) == [callback]
  {
    assert Accepted(s, op) == [] && Callbacks(HandedOut(s, op)) == [];
    assert Callbacks(Active(s)) + [] == Callbacks(Active(s));
    assert [] + Callbacks(Active(Next(s, op))) == Callbacks(Active(Next(s, op)));
  }

  lemma QuietStep(s: Store, op: Op, t: Token, callback: Callback)
    requires Good(s) && LegalOp(op) && Quiet(s, op, t)
    requires Held(s, t) && Callbacks(Active(s)) == [callback]
    ensures Held(Next(s, op), t) && Callbacks(Active(Next(s, op))) == [callback]
  {
    assert s.purchases.keys != [] by { ActiveIs(s); }
    StepMoves(s, op, t);
    QuietPlace(s, op, t, Where(Next(s, op), t));
    CallbackStep(s, op);
    QuietFlow(s, op, t, callback);
  }

  lemma {:induction false} QuietRun(s: Store, ops: seq<Op>, t: Token, callback: Callback)
    requires Good(s) && LegalOps(ops) && QuietAlong(s, ops, t)
    requires Held(s, t) && Callbacks(Active(s)) == [callback]
    ensures Good(Run(s, ops)) && Held(Run(s, ops), t) && Callbacks(Active(Run(s, ops))) == [callback]
  {
    GoodRun(s, ops);
    if ops != [] {
      var front, op := ops[..|ops| - 1], ops[|ops| - 1];
      assert LegalOp(op);
      QuietRun(s, front, t, callback);
      QuietStep(Run(s, front), op, t, callback);
    }
  }

  /** Play reported the token for the product as PURCHASED, or its record was durable before. */
  predicate Protected(s: Store, p: ProductId, snapshots: seq<OwnedPurchaseSnapshot>, t: Token) {
    var observed := Observed(Owning(snapshots, p), t);
    observed.Some? && (observed.value.state.PURCHASED? || IsDurableAt(s, t))
  }

  /** Registration succeeds only when no flow is active, so the snapshot was recorded. */
  lemma PreflightPlace(s: Store, p: ProductId, snapshots: seq<OwnedPurchaseSnapshot>, w: Write, t: Token)
    requires Good(s) && Written(w.left) && s.purchases.keys == [] && Prepare(s, p, snapshots, w).1.READY?
    requires Protected(s, p, snapshots, t)
    ensures Held(Prepare(s, p, snapshots, w).0, t)
  {
    PrepareStep(s, p, snapshots, w);
    PreparedDurable(s, p, snapshots, t);
    assert HeldPlace(PreparedPlace(s, p, snapshots, t));
  }

  lemma RegisterKeepsPlaces(s: Store, p: ProductId, callback: Callback, t: Token)
    requires Good(s) && Register(s, p, callback).1
    ensures var ready := Register(s, p, callback).0;
            Good(ready) && Where(ready, t) == Where(s, t) && Callbacks(Active(ready)) == [callback]
  {
    GoodStep(s, Registers(p, callback));
    RegisterFlow(s, p, callback);
    assert Active(s) == [];
    assert Callbacks(Active(s)) + [callback] == [callback];
    assert Callbacks(HandedOut(s, Registers(p, callback))) == [];
  }

  lemma PreflightIdle(s: Store, p: ProductId, snapshots: seq<OwnedPurchaseSnapshot>, w: Write, callback: Callback)
    requires Good(s) && Written(w.left) && Register(Prepare(s, p, snapshots, w).0, p, callback).1
    ensures Good(Prepare(s, p, snapshots, w).0) && s.purchases.keys == []
  {
    GoodStep(s, Prepares(p, snapshots, w));
    RecordFlow(s, Prepares(p, snapshots, w));
  }

  /** A READY preflight followed at once by a successful registration recorded what it saw. */
  lemma PreflightRecords(s: Store, p: ProductId, snapshots: seq<OwnedPurchaseSnapshot>, w: Write, callback: Callback, t: Token)
    requires Good(s) && Written(w.left)
    requires Prepare(s, p, snapshots, w).1.READY? && Register(Prepare(s, p, snapshots, w).0, p, callback).1
    requires Protected(s, p, snapshots, t)
    ensures var ready := Register(Prepare(s, p, snapshots, w).0, p, callback).0;
            Good(ready) && Held(ready, t) && Callbacks(Active(ready)) == [callback]
  {
    PreflightIdle(s, p, snapshots, w, callback);
    PreflightPlace(s, p, snapshots, w, t);
    RegisterKeepsPlaces(Prepare(s, p, snapshots, w).0, p, callback, t);
  }

  /**
   * Main result 5. After a READY preflight and the registration that follows it, a non-blank
   * token Play reported for the product, as PURCHASED or with a durable record, routes as
   * CORRELATED and leaves the new flow's callback alone, in every run that neither finishes
   * the token nor reports it PENDING.
   */
  lemma PreflightProtectsCallback(
    s: Store, p: ProductId, snapshots: seq<OwnedPurchaseSnapshot>, w: Write, callback: Callback,
    ops: seq<Op>, t: Token, ids: seq<ProductId>, w': Write)
    requires Good(s) && Written(w.left) && Written(w'.left) && !IsBlank(t)
    requires Prepare(s, p, snapshots, w).1.READY? && Register(Prepare(s, p, snapshots, w).0, p, callback).1
    requires Protected(s, p, snapshots, t)
    requires LegalOps(ops) && QuietAlong(Register(Prepare(s, p, snapshots, w).0, p, callback).0, ops, t)
    ensures var reached := Run(Register(Prepare(s, p, snapshots, w).0, p, callback).0, ops);
            && Route(reached, t, ids, w').1.kind.CORRELATED?
            && Route(reached, t, ids, w').1.activePurchase.None?
            && Callbacks(Active(Route(reached, t, ids, w').0)) == [callback]
  {
    var ready := Register(Prepare(s, p, snapshots, w).0, p, callback).0;
    PreflightRecords(s, p, snapshots, w, callback, t);
    QuietRun(ready, ops, t, callback);
    RouteStep(Run(ready, ops), t, ids, w');
  }

  /**
   * The exact edge of that protection. A READY preflight can still have seen the token PENDING
   * when its record names other products. If such a record is not durable, one empty query
   * drops it, and the token then takes the new flow's callback.
   */
  lemma PendingRecordIsUnprotected(
    s: Store, p: ProductId, snapshots: seq<OwnedPurchaseSnapshot>, w: Write, callback: Callback,
    t: Token, w': Write, w'': Write)
    requires Good(s) && Written(w.left) && Written(w'.left) && !IsBlank(t)
    requires Prepare(s, p, snapshots, w).1.READY? && Register(Prepare(s, p, snapshots, w).0, p, callback).1
    requires Observed(Owning(snapshots, p), t).Some? && !Protected(s, p, snapshots, t)
    ensures Where(s, t) != Unknown && p !in Where(s, t).c.productIds
    ensures
      var ready := Register(Prepare(s, p, snapshots, w).0, p, callback).0;
      var emptied := Next(ready, Reconciles([], w'));
      && Quiet(ready, Reconciles([], w'), t)
      && Route(emptied, t, [p], w'').1.kind.ACTIVE?
      && Route(emptied, t, [p], w'').1.activePurchase.value.callback == callback
  {
    var prepared := Prepare(s, p, snapshots, w).0;
    var ready := Register(prepared, p, callback).0;
    PreflightIdle(s, p, snapshots, w, callback);
    PendingOwnsOther(s, p, snapshots, w, t);
    RegisterKeepsPlaces(prepared, p, callback, t);
    EmptyQueryDrops(ready, t, w');
    NovelTokenTakesFlow(Next(ready, Reconciles([], w')), p, callback, t, w'');
  }

  /** A flow for `q` ends deferred, with the token and no context. */
  function DeferredFlow(q: ProductId, t: Token, w: Write): Store {
    Defer(Register(Restore(Readable([])), q, 1).0, [q], t, w).0
  }

  /** Then Play shows the token under `p` too. */
  function Widened(p: ProductId, q: ProductId, t: Token): seq<OwnedPurchaseSnapshot> {
    [OwnedPurchaseSnapshot(t, {p, q}, PENDING)]
  }

  function DeferredFor(q: ProductId, t: Token): Store {
    Store(EmptyMap(), LinkedMap([t], map[t := CorrelatedPurchase(t, {q}, None, false)]), EmptyMap(), false, Readable([]))
  }

  /** What `PendingRecordIsUnprotected` asks of a state, a preflight and a token. */
  predicate SeenButUnprotected(s: Store, p: ProductId, snapshots: seq<OwnedPurchaseSnapshot>, w: Write, t: Token) {
    && Prepare(s, p, snapshots, w).1.READY? && Register(Prepare(s, p, snapshots, w).0, p, 2).1
    && Observed(Owning(snapshots, p), t).Some? && !Protected(s, p, snapshots, t)
  }

  /** Such states are reached: from a fresh start, the listed token takes callback 2. */
  lemma PendingRecordTakesCallback(p: ProductId, q: ProductId, t: Token, w: Write)
    requires p != q && !IsBlank(t) && Written(w.left)
    ensures Good(DeferredFlow(q, t, w)) && SeenButUnprotected(DeferredFlow(q, t, w), p, Widened(p, q, t), w, t)
    ensures
      var ready := Register(Prepare(DeferredFlow(q, t, w), p, Widened(p, q, t), w).0, p, 2).0;
      var routed := Route(Next(ready, Reconciles([], w)), t, [p], w).1;
      routed.kind.ACTIVE? && routed.activePurchase.Some? && routed.activePurchase.value.callback == 2
  {
    GoodDeferred(q, t, w);
    FlowDeferred(q, t, w);
    WidenedUnprotected(p, q, t, w);
    PendingRecordIsUnprotected(DeferredFlow(q, t, w), p, Widened(p, q, t), w, 2, t, w, w);
  }

  lemma GoodDeferred(q: ProductId, t: Token, w: Write)
    requires Written(w.left)
    ensures Good(DeferredFlow(q, t, w))
  {
    RestoreKeeps(Readable([]));
    GoodStep(Restore(Readable([])), Registers(q, 1));
    GoodStep(Register(Restore(Readable([])), q, 1).0, Defers([q], t, w));
  }

  lemma WidenedUnprotected(p: ProductId, q: ProductId, t: Token, w: Write)
    requires p != q
    ensures SeenButUnprotected(DeferredFor(q, t), p, Widened(p, q, t), w, t)
  {
    WidenedObserved(p, q, t);
    WidenedReady(p, q, t, w);
    assert !IsDurableAt(DeferredFor(q, t), t);
  }

  lemma FlowDeferred(q: ProductId, t: Token, w: Write)
    requires !IsBlank(t)
    ensures DeferredFlow(q, t, w) == DeferredFor(q, t)
  {
    var s := Register(Restore(Readable([])), q, 1).0;
    assert s.purchases.keys == [q] && q in s.purchases.vals;
    assert q in SetOf([q]) * s.purchases.vals.Keys;
    assert SetOf([q]) == {q};
    var deferred := Defer(s, [q], t, w).0;
    assert deferred.purchases.vals == map[] && deferred.completed.vals == map[];
    assert [q][1..] == [];
  }

  lemma WidenedObserved(p: ProductId, q: ProductId, t: Token)
    ensures Owning(Widened(p, q, t), p) == Widened(p, q, t)
    ensures Observed(Widened(p, q, t), t) == Some(Widened(p, q, t)[0])
    ensures TokensOf(Widened(p, q, t)) == [t]
  {
    var o := Widened(p, q, t)[0];
    assert Widened(p, q, t)[1..] == [] && Widened(p, q, t)[..0] == [];
    assert SnapshotsOf(Widened(p, q, t), t) == [o];
    assert FirstPurchased([o]) == None;
  }

  lemma WidenedReady(p: ProductId, q: ProductId, t: Token, w: Write)
    requires p != q
    ensures Prepare(DeferredFor(q, t), p, Widened(p, q, t), w) == (DeferredFor(q, t), READY)
  {
    var s := DeferredFor(q, t);
    WidenedRebuilt(p, q, t);
    NothingToWrite(q, t);
    assert s.deferred.Plus(s.completed).keys == [t];
  }

  lemma NothingToWrite(q: ProductId, t: Token)
    ensures DurableMetadata(DeferredFor(q, t).deferred, DeferredFor(q, t).completed) == []
    ensures DurableCorrelations(DeferredFor(q, t)) == EmptyMap()
  {
    var s := DeferredFor(q, t);
    var all := s.deferred.Plus(s.completed);
    assert all.keys == [t] && all.vals == s.deferred.vals && [t][1..] == [];
    assert Metadata([t][1..], all.vals) == [];
  }

  /** The known record names `q` alone, so widening keeps it as it is. */
  lemma WidenedRebuilt(p: ProductId, q: ProductId, t: Token)
    requires p != q
    ensures Rebuilt(DeferredFor(q, t), p, Widened(p, q, t)) == Tables(DeferredFor(q, t).deferred, DeferredFor(q, t).completed)
  {
    var s, o := DeferredFor(q, t), Widened(p, q, t)[0];
    WidenedObserved(p, q, t);
    NothingToWrite(q, t);
    var kept := Without(s.deferred, p);
    assert [t][1..] == [] && kept.keys == [t] && kept.vals == s.deferred.vals;
    assert Without(s.completed, p) == EmptyMap();
    var acc := Tables(s.deferred, s.completed);
    assert RecordOne(s, Widened(p, q, t), t, acc) == acc by {
      assert Recorded(s, o) == s.deferred.vals[t];
      assert s.completed.Minus(t).vals == map[];
    }
    assert [t][..0] == [];
    assert RecordObserved(s, Widened(p, q, t), [t], acc) == RecordOne(s, Widened(p, q, t), t, RecordObserved(s, Widened(p, q, t), [t][..0], acc));
  }

  lemma EmptyQueryDrops(s: Store, t: Token, w: Write)
    requires Good(s) && Written(w.left) && Where(s, t).InDeferred? && !Where(s, t).c.isDurable
    ensures var op := Reconciles([], w);
            Quiet(s, op, t) && Where(Next(s, op), t).Unknown? && Next(s, op).purchases == s.purchases
  {
    ReconcileMoves(s, [], w, t);
    RecordFlow(s, Reconciles([], w));
    EmptyPlace(s, t);
  }

  lemma EmptyPlace(s: Store, t: Token)
    requires Where(s, t).InDeferred? && !Where(s, t).c.isDurable
    ensures Observed([], t).None? && ReconciledPlace(s, [], t) == Unknown
  {
  }

  lemma NovelTokenTakesFlow(s: Store, p: ProductId, callback: Callback, t: Token, w: Write)
    requires !IsBlank(t) && Where(s, t).Unknown?
    requires s.purchases.keys == [p] && p in s.purchases.vals && s.purchases.vals[p].callback == callback
    ensures Route(s, t, [p], w).1.kind.ACTIVE?
    ensures Route(s, t, [p], w).1.activePurchase.value.callback == callback
  {
    assert p in SetOf([p]) * s.purchases.vals.Keys;
  }

  lemma PendingOwnsOther(s: Store, p: ProductId, snapshots: seq<OwnedPurchaseSnapshot>, w: Write, t: Token)
    requires Good(s) && Written(w.left) && s.purchases.keys == [] && Prepare(s, p, snapshots, w).1.READY?
    requires Observed(Owning(snapshots, p), t).Some? && Observed(Owning(snapshots, p), t).value.state.PENDING?
    ensures var place := Where(Prepare(s, p, snapshots, w).0, t);
            place.InDeferred? && (place.c.isDurable <==> IsDurableAt(s, t))
    ensures Where(s, t) != Unknown && p !in Where(s, t).c.productIds
  {
    var prepared := Prepare(s, p, snapshots, w).0;
    PrepareStep(s, p, snapshots, w);
    PreparedDurable(s, p, snapshots, t);
    ReadyMeansNoDeferral(s, p, snapshots, w);
    assert Where(prepared, t) == PreparedPlace(s, p, snapshots, t);
    assert t in prepared.deferred.vals && p !in prepared.deferred.vals[t].productIds;
    assert p in Observed(Owning(snapshots, p), t).value.productIds;
  }

  /**
   * Where the protection ends: while another flow is active the preflight answers READY and
   * records nothing. Protection holds exactly because registering right after it then fails.
   */
  lemma PreflightDuringFlowRecordsNothing(
    s: Store, p: ProductId, snapshots: seq<OwnedPurchaseSnapshot>, w: Write, callback: Callback)
    requires Good(s) && Written(w.left)
    ensures s.purchases.keys != [] ==> Prepare(s, p, snapshots, w) == (s, READY)
    ensures Prepare(s, p, snapshots, w).1.READY? ==>
              (Register(Prepare(s, p, snapshots, w).0, p, callback).1 <==> s.purchases.keys == [])
  {
    PrepareStep(s, p, snapshots, w);
    if s.purchases.keys == [] && Prepare(s, p, snapshots, w).1.READY? {
      ReadyMeansNoDeferral(s, p, snapshots, w);
    }
  }

  lemma ReadyMeansNoDeferral(s: Store, p: ProductId, snapshots: seq<OwnedPurchaseSnapshot>, w: Write)
    requires Good(s) && Written(w.left) && s.purchases.keys == [] && Prepare(s, p, snapshots, w).1.READY?
    ensures !AnyOwns(Prepare(s, p, snapshots, w).0.deferred, p)
  {
    var next := Rebuilt(s, p, snapshots);
    RebuiltTables(s, p, snapshots);
    TableSizes(next);
    PrepareReady(s, p, snapshots, w);
  }

  lemma PrepareReady(s: Store, p: ProductId, snapshots: seq<OwnedPurchaseSnapshot>, w: Write)
    requires s.purchases.keys == [] && Prepare(s, p, snapshots, w).1.READY?
    ensures Prepare(s, p, snapshots, w).0.deferred == Rebuilt(s, p, snapshots).deferred
    ensures !AnyOwns(Rebuilt(s, p, snapshots).deferred, p)
  {
  }

  // ---- A journal that cannot be read ---------------------------------------------------

  /** Closed: the failure is reported, nothing is active or durable, the file is untouched. */
  ghost predicate Closed(s: Store) {
    && s.failed && s.journal == Corrupt && s.purchases.keys == []
    && Inv(s) && DurableTokens(TablesOf(s)) == {}
  }

  lemma NothingDurable(s: Store, t: Tables, w: Write)
    requires TablesOk(t) && DurableTokens(t) == {}
    ensures Persist(s, t.deferred, t.completed, false, w) == (s, !s.failed)
  {
    EmptyMetadata(t);
  }

  lemma ClosedSnapshots(s: Store, op: Op)
    requires Closed(s) && LegalOp(op) && (op.Prepares? || op.Reconciles?)
    ensures Next(s, op).failed && Next(s, op).journal == Corrupt && Next(s, op).purchases == s.purchases
    ensures op.Prepares? ==> Prepare(s, op.product, op.snapshots, op.w).1.METADATA_PERSISTENCE_FAILED?
  {
    if op.Prepares? {
      ClosedPrepare(s, op.product, op.snapshots, op.w);
    } else {
      var t := Reconciled(s, op.snapshots).tables;
      ReconciledTables(s, op.snapshots);
      forall k ensures !DurableIn(t, k) {
        assert WhereIn(t, k) == ReconciledPlace(s, op.snapshots, k);
        assert !DurableIn(TablesOf(s), k) by { assert k !in DurableTokens(TablesOf(s)); }
      }
      assert DurableTokens(t) == {};
      NothingDurable(s.(deferred := t.deferred, completed := t.completed), t, op.w);
    }
  }

  lemma ClosedPrepare(s: Store, p: ProductId, snapshots: seq<OwnedPurchaseSnapshot>, w: Write)
    requires Closed(s)
    ensures Prepare(s, p, snapshots, w).1.METADATA_PERSISTENCE_FAILED?
    ensures var next := Prepare(s, p, snapshots, w).0; next.failed && next.journal == Corrupt && next.purchases == s.purchases
  {
    var t := Rebuilt(s, p, snapshots);
    RebuiltTables(s, p, snapshots);
    RebuiltDurables(s, p, snapshots, t);
    if CorrelationCount(t) >= MAX_CORRELATED_PURCHASES {
      OverflowTables(t);
      var cut := Tables(t.deferred.Restrict(Retained(t)), t.completed.Restrict(Retained(t)));
      NothingDurable(s.(deferred := cut.deferred, completed := cut.completed), cut, w);
    } else {
      NothingDurable(s.(deferred := t.deferred, completed := t.completed), t, w);
    }
  }

  lemma ClosedStep(s: Store, op: Op)
    requires Closed(s) && LegalOp(op)
    ensures Closed(Next(s, op))
  {
    var next := Next(s, op);
    GoodStep(s, op);
    forall t ensures !DurableIn(TablesOf(next), t) {
      assert !IsDurableAt(s, t) by { assert t !in DurableTokens(TablesOf(s)); assert !DurableIn(TablesOf(s), t); }
      StepMoves(s, op, t);
      ClosedPlace(s, op, t, Where(next, t));
    }
    assert DurableTokens(TablesOf(next)) == {};
    ClosedFlags(s, op);
  }

  lemma ClosedPlace(s: Store, op: Op, t: Token, after: Place)
    requires s.purchases.keys == [] && s.journal == Corrupt && !IsDurableAt(s, t) && MayMove(s, op, t, after)
    requires op.Dies? ==> after == Unknown
    ensures after != Unknown ==> !after.c.isDurable
  {
    if op.Prepares? {
      PreparedDurable(s, op.product, op.snapshots, t);
    }
  }

  lemma ClosedFlags(s: Store, op: Op)
    requires Closed(s) && LegalOp(op)
    ensures Next(s, op).failed && Next(s, op).journal == Corrupt && Next(s, op).purchases.keys == []
  {
    if op.Prepares? || op.Reconciles? {
      ClosedSnapshots(s, op);
    } else if op.RemovesBeforeFinish? {
      assert !IsDurableAt(s, op.token) by { assert op.token !in DurableTokens(TablesOf(s)); assert !DurableIn(TablesOf(s), op.token); }
    } else if op.Routes? {
      assert !IsDurableAt(s, op.token) by { assert op.token !in DurableTokens(TablesOf(s)); assert !DurableIn(TablesOf(s), op.token); }
    }
  }

  /**
   * Main result 6. A journal that could not be read is never overwritten, and every later
   * operation keeps refusing to open a flow, through any number of restarts.
   */
  lemma {:induction false} UnreadableJournalStaysClosed(ops: seq<Op>, p: ProductId, callback: Callback)
    requires LegalOps(ops)
    ensures var s := Run(Restore(Corrupt), ops);
            && s.failed && s.journal == Corrupt && Active(s) == []
            && !Register(s, p, callback).1
            && forall snapshots, w :: Prepare(s, p, snapshots, w).1 == METADATA_PERSISTENCE_FAILED
  {
    ClosedRun(ops);
    var s := Run(Restore(Corrupt), ops);
    ActiveIs(s);
    forall snapshots, w ensures Prepare(s, p, snapshots, w).1 == METADATA_PERSISTENCE_FAILED {
      ClosedPrepare(s, p, snapshots, w);
    }
  }

  lemma {:induction false} ClosedRun(ops: seq<Op>)
    requires LegalOps(ops)
    ensures Closed(Run(Restore(Corrupt), ops))
  {
    if ops == [] {
      RestoreKeeps(Corrupt);
    } else {
      assert LegalOp(ops[|ops| - 1]);
      ClosedRun(ops[..|ops| - 1]);
      ClosedStep(Run(Restore(Corrupt), ops[..|ops| - 1]), ops[|ops| - 1]);
    }
  }
}
