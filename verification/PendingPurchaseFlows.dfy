/**
 * Each operation of the correlation store said outright: what it answers, what it records of
 * the flow it consumes, and what then is in the journal.
 */
module PendingPurchaseFlows {
  import opened Options
  import opened LinkedMaps
  import opened PurchaseTypes
  import opened PendingPurchaseModel
  import opened PendingPurchaseInvariants
  import opened PendingPurchaseJournal
  import opened PendingPurchaseSteps
  import opened PendingPurchaseRuns
  import opened PendingPurchaseTheorems

  // ---- The active flow -----------------------------------------------------------------

  /** The one flow there is, under its product. */
  predicate OnlyFlow(s: Store, p: ProductId, flow: PendingPurchase) {
    s.purchases.keys == [p] && s.purchases.vals == map[p := flow]
  }

  predicate SameButFlows(s: Store, next: Store) {
    next == s.(purchases := next.purchases)
  }

  /** A deferred record names the product. */
  ghost predicate DeferralOwns(s: Store, p: ProductId) {
    exists t :: Where(s, t).InDeferred? && p in Where(s, t).c.productIds
  }

  /**
   * A flow is admitted exactly if no persistence failure is reported, none is active, no
   * deferred record owns its product and fewer than 32 tokens are known; it then has the
   * callback, no context and no launch.
   */
  lemma RegisterExactly(s: Store, p: ProductId, callback: Callback)
    requires Good(s)
    ensures
      var (next, admitted) := Register(s, p, callback);
      && (admitted <==> !s.failed && s.purchases.keys == [] && !DeferralOwns(s, p) && |Tokens(TablesOf(s))| < 32)
      && (!admitted ==> next == s)
      && (admitted ==> SameButFlows(s, next) && OnlyFlow(next, p, PendingPurchase(callback, None, None, true)))
  {
    TableSizes(TablesOf(s));
    if AnyOwns(s.deferred, p) {
      var t :| t in s.deferred.vals && p in s.deferred.vals[t].productIds;
      assert Where(s, t).InDeferred?;
    }
  }

  /** The context given for the active product is the one the flow has from then on; no other flow takes it. */
  lemma ContextIsKept(s: Store, p: ProductId, context: NativePurchaseContext, q: ProductId, flow: PendingPurchase)
    requires Good(s) && OnlyFlow(s, q, flow)
    ensures
      var next := UpdateContext(s, p, context);
      SameButFlows(s, next) && OnlyFlow(next, q, if p == q then flow.(context := Some(context)) else flow)
  {
    assert s.purchases.vals[q := flow.(context := Some(context))] == map[q := flow.(context := Some(context))];
  }

  lemma LaunchIsMarked(s: Store, p: ProductId, atMillis: int, q: ProductId, flow: PendingPurchase)
    requires Good(s) && OnlyFlow(s, q, flow)
    ensures
      var next := MarkLaunched(s, p, atMillis);
      SameButFlows(s, next) && OnlyFlow(next, q, if p == q then flow.(launchedAtMillis := Some(atMillis)) else flow)
  {
    assert s.purchases.vals[q := flow.(launchedAtMillis := Some(atMillis))] == map[q := flow.(launchedAtMillis := Some(atMillis))];
  }

  /** Taking hands the flow over, if its product is asked for, and forgets it. */
  lemma FlowIsTaken(s: Store, ids: seq<ProductId>, q: ProductId, flow: PendingPurchase)
    requires Good(s) && OnlyFlow(s, q, flow)
    ensures var (next, taken) := TakeForProducts(s, ids);
            && taken == (if q in ids then [flow] else [])
            && SameButFlows(s, next) && next.purchases.keys == (if q in ids then [] else [q])
  {
    KeepOne(q, SetOf(ids));
    KeepOne(q, s.purchases.vals.Keys - SetOf(ids));
    ValuesOne(q, s.purchases.Restrict(SetOf(ids)).vals);
  }

  /** Removing does the same for one product, and draining in any case. */
  lemma FlowIsRemoved(s: Store, p: ProductId, q: ProductId, flow: PendingPurchase)
    requires Good(s) && OnlyFlow(s, q, flow)
    ensures var (next, removed) := Remove(s, p);
            && removed == (if p == q then Some(flow) else None)
            && SameButFlows(s, next) && next.purchases.keys == (if p == q then [] else [q])
    ensures var (next, drained) := Drain(s); drained == [flow] && SameButFlows(s, next) && next.purchases.keys == []
  {
    KeepOne(q, s.purchases.vals.Keys - {p});
    ValuesOne(q, s.purchases.vals);
  }

  // ---- What is recorded ----------------------------------------------------------------

  /** The record a flow leaves for a token seen for the first time: its context, durable if it has one. */
  function FirstRecord(t: Token, products: set<ProductId>, flow: PendingPurchase): CorrelatedPurchase {
    CorrelatedPurchase(t, products, flow.context, flow.context != None)
  }

  /** A known record seen with a product set: the context stays only with the set it was recorded for. */
  function Confirmed(e: CorrelatedPurchase, products: set<ProductId>): CorrelatedPurchase {
    CorrelatedPurchase(e.purchaseToken, e.productIds, if e.productIds == products then e.context else None, e.isDurable)
  }

  lemma ValidatedIsConfirmed(t: Token, e: CorrelatedPurchase, o: OwnedPurchaseSnapshot)
    requires RecordOk(t, e) && o.purchaseToken == t
    ensures ValidatedAgainst(e, o) == Confirmed(e, o.productIds)
  {
  }

  /** The journal holds this record, among those of the other durable tokens. */
  predicate Journaled(s: Store, c: CorrelatedPurchase) {
    s.journal.Readable? && LocalTransactionMetadata(c.purchaseToken, c.productIds, c.context) in s.journal.records
  }

  /** Durable records are in the journal unless a failure is reported. */
  lemma DurableIsJournaled(s: Store, t: Token)
    requires Good(s) && !s.failed && Where(s, t) != Unknown && Where(s, t).c.isDurable
    ensures Journaled(s, Where(s, t).c)
  {
    DurableMetadataContents(TablesOf(s));
    assert DurableIn(TablesOf(s), t);
  }

  /** No durable record has a blank token, or no products, or a blank one: the journal takes them all. */
  ghost predicate Keepable(t: Tables) {
    forall k :: DurableIn(t, k) ==>
      !IsBlank(k) && WhereIn(t, k).c.productIds != {} && forall p :: p in WhereIn(t, k).c.productIds ==> !IsBlank(p)
  }

  /** Some character is not white space. */
  predicate Visible(s: string) {
    exists i :: 0 <= i < |s| && !IsWhitespace(s[i])
  }

  /** A record the journal takes: of a visible token, with products, all visible. */
  predicate Takes(m: LocalTransactionMetadata) {
    Visible(m.purchaseToken) && |m.productIds| > 0 && forall p :: p in m.productIds ==> Visible(p)
  }

  lemma StorableIsTaken(m: LocalTransactionMetadata)
    ensures Storable(m) <==> Takes(m)
  {
    assert m.productIds == {} <==> |m.productIds| == 0;
  }

  /**
   * A write of something durable is reported as it went: the flag is up if it did not commit,
   * never if it did and the journal takes every record; when it is up, `left` is there, and
   * otherwise nothing that the journal does not take.
   */
  ghost predicate Reported(next: Store, w: Write) {
    && (next.failed ==> next.journal == w.left && !(w.commits && Keepable(TablesOf(next))))
    && (!w.commits ==> next.failed)
    && (!next.failed ==> OnlyTaken(next.journal))
  }

  predicate OnlyTaken(j: Journal) {
    j.Readable? && forall m :: m in j.records ==> Takes(m)
  }

  lemma KeepableIsStored(t: Tables, w: Write)
    requires TablesOk(t) && w.commits && Keepable(t)
    ensures Replace(Take(DurableMetadata(t.deferred, t.completed), MAX_CORRELATED_PURCHASES), w).1
  {
    DurableMetadataContents(t);
    var all := DurableMetadata(t.deferred, t.completed);
    var records := Take(all, MAX_CORRELATED_PURCHASES);
    TakeSize(all, MAX_CORRELATED_PURCHASES);
    forall r | r in records ensures Storable(r) {
      assert r in all;
      assert DurableIn(t, r.purchaseToken);
    }
  }

  lemma PersistReports(s: Store, t: Tables, force: bool, w: Write)
    requires TablesOk(t) && (force || DurableTokens(t) != {})
    ensures
      var (next, ok) := Persist(s, t.deferred, t.completed, force, w);
      && next == s.(failed := !ok, journal := next.journal)
      && (!ok ==> next.journal == w.left && !(w.commits && Keepable(t)))
      && (!w.commits ==> !ok)
      && (ok ==> OnlyTaken(next.journal))
  {
    EmptyMetadata(t);
    if w.commits && Keepable(t) { KeepableIsStored(t, w); }
    ReplaceTakes(Take(DurableMetadata(t.deferred, t.completed), MAX_CORRELATED_PURCHASES), w);
  }

  lemma ReplaceTakes(records: seq<LocalTransactionMetadata>, w: Write)
    ensures Replace(records, w).1 ==> OnlyTaken(Replace(records, w).0)
  {
    forall m | m in records ensures Storable(m) <==> Takes(m) {
      StorableIsTaken(m);
    }
  }

  /** A record that is not durable is not written. */
  predicate NotWritten(s: Store, next: Store) {
    next.failed == s.failed && next.journal == s.journal
  }

  ghost predicate Writes(s: Store, next: Store, c: CorrelatedPurchase, w: Write) {
    if c.isDurable then Reported(next, w) else NotWritten(s, next)
  }

  lemma PersistsAsReported(s: Store, tables: Tables, c: CorrelatedPurchase, w: Write)
    requires TablesOk(tables) && tables == TablesOf(s)
    requires Where(s, c.purchaseToken) != Unknown && Where(s, c.purchaseToken).c == c
    ensures
      var (next, ok) := PersistIfDurable(s, c, w);
      Writes(s, next, c, w) && (ok <==> !c.isDurable || !next.failed) && next == s.(failed := next.failed, journal := next.journal)
  {
    if c.isDurable {
      assert DurableIn(tables, c.purchaseToken);
      PersistReports(s, tables, false, w);
    }
  }

  // ---- Deferral ------------------------------------------------------------------------

  /** What a PENDING report records: a first record, or the union of both product sets without a context. */
  function DeferredRecord(place: Place, t: Token, products: set<ProductId>, flow: PendingPurchase): CorrelatedPurchase {
    match place
    case Unknown => FirstRecord(t, products, flow)
    case InDeferred(e) => CorrelatedPurchase(t, e.productIds + products, None, e.isDurable || flow.context != None)
    case InCompleted(e) => CorrelatedPurchase(t, e.productIds + products, None, e.isDurable || flow.context != None)
  }

  /**
   * A PENDING report of the active product hands the flow over and records the token as
   * deferred; a durable record is written, and the flow is told whether that worked. With a
   * blank token nothing is recorded and the flow is told it is not durable.
   */
  lemma DeferExactly(s: Store, ids: seq<ProductId>, t: Token, w: Write, p: ProductId, flow: PendingPurchase)
    requires Good(s) && Written(w.left) && OnlyFlow(s, p, flow)
    ensures
      var (next, released) := Defer(s, ids, t, w);
      var c := DeferredRecord(Where(s, t), t, SetOf(ids), flow);
      && (p !in ids ==> released == None && next == s)
      && (p in ids ==> next.purchases.keys == [])
      && (p in ids && IsBlank(t) ==> released == Some(flow.(isMetadataDurable := false)) && SameButFlows(s, next))
      && (p in ids && !IsBlank(t) ==>
            && released == Some(flow.(isMetadataDurable := !c.isDurable || !next.failed))
            && Where(next, t) == InDeferred(c)
            && (forall k :: k != t ==> Where(next, k) == Where(s, k))
            && Writes(s, next, c, w)
            && (c.isDurable && !next.failed ==> Journaled(next, c)))
  {
    NamedFlow(s, ids, p, flow);
    RemoveActive(s, p);
    if p in ids && !IsBlank(t) {
      DeferNamed(s, ids, t, w, p, flow);
      GoodStep(s, Defers(ids, t, w));
      if Where(Defer(s, ids, t, w).0, t).c.isDurable && !Defer(s, ids, t, w).0.failed { DurableIsJournaled(Defer(s, ids, t, w).0, t); }
    }
  }

  lemma DeferNamed(s: Store, ids: seq<ProductId>, t: Token, w: Write, p: ProductId, flow: PendingPurchase)
    requires Good(s) && Written(w.left) && OnlyFlow(s, p, flow) && p in ids && !IsBlank(t)
    ensures
      var (next, released) := Defer(s, ids, t, w);
      var c := DeferredRecord(Where(s, t), t, SetOf(ids), flow);
      && next.purchases.keys == []
      && released == Some(flow.(isMetadataDurable := !c.isDurable || !next.failed))
      && Where(next, t) == InDeferred(c)
      && (forall k :: k != t ==> Where(next, k) == Where(s, k))
      && Writes(s, next, c, w)
  {
    var c := DeferredRecord(Where(s, t), t, SetOf(ids), flow);
    var tables := TablesOf(s).PutDeferred(t, c);
    PutDeferredKeepsTables(TablesOf(s), t, c);
    var mid := s.(purchases := s.purchases.Minus(p), deferred := tables.deferred, completed := tables.completed);
    PersistsAsReported(mid, tables, c, w);
    RemoveActive(s, p);
    DeferIs(s, ids, t, w, p, flow, c);
  }

  lemma DeferIs(s: Store, ids: seq<ProductId>, t: Token, w: Write, p: ProductId, flow: PendingPurchase, c: CorrelatedPurchase)
    requires Good(s) && OnlyFlow(s, p, flow) && p in ids && !IsBlank(t) && c == DeferredRecord(Where(s, t), t, SetOf(ids), flow)
    ensures
      var mid := s.(purchases := s.purchases.Minus(p), deferred := s.deferred.Put(t, c), completed := s.completed.Minus(t));
      var (next, ok) := PersistIfDurable(mid, c, w);
      Defer(s, ids, t, w) == (next, Some(flow.(isMetadataDurable := ok)))
  {
    NamedFlow(s, ids, p, flow);
  }

  lemma NamedFlow(s: Store, ids: seq<ProductId>, p: ProductId, flow: PendingPurchase)
    requires OnlyFlow(s, p, flow)
    ensures FirstIn(s.purchases.keys, SetOf(ids) * s.purchases.vals.Keys) == if p in ids then Some(p) else None
  {
    assert [p][1..] == [];
  }

  // ---- Routing -------------------------------------------------------------------------

  /**
   * A PURCHASED update of an unknown token consumes the active flow of one of its products and
   * records the flow's own context, durably, and in the journal unless the failure is reported.
   * A known token is correlated and leaves the flow alone; without either it is out of band.
   */
  lemma RouteExactly(s: Store, t: Token, ids: seq<ProductId>, w: Write, p: ProductId, flow: PendingPurchase)
    requires Good(s) && Written(w.left) && OnlyFlow(s, p, flow) && !IsBlank(t) && Where(s, t).Unknown?
    ensures
      var (next, routed) := Route(s, t, ids, w);
      var c := FirstRecord(t, SetOf(ids), flow);
      && (p !in ids ==> next == s && routed == RoutedPurchase(OUT_OF_BAND, None, true))
      && (p in ids ==>
            && next.purchases.keys == []
            && routed == RoutedPurchase(ACTIVE, Some(flow.(isMetadataDurable := !c.isDurable || !next.failed)), !c.isDurable || !next.failed)
            && Where(next, t) == InCompleted(c)
            && (forall k :: k != t ==> Where(next, k) == Where(s, k))
            && Writes(s, next, c, w)
            && (c.isDurable && !next.failed ==> Journaled(next, c)))
  {
    NamedFlow(s, ids, p, flow);
    RouteStep(s, t, ids, w);
    GoodStep(s, Routes(t, ids, w));
    if p in ids {
      var c := FirstRecord(t, SetOf(ids), flow);
      AddKeepsTables(TablesOf(s), t, c);
      var tables := TablesOf(s).(completed := s.completed.Put(t, c));
      PersistsAsReported(s.(purchases := s.purchases.Minus(p), completed := tables.completed), tables, c, w);
      if c.isDurable && !Route(s, t, ids, w).0.failed { DurableIsJournaled(Route(s, t, ids, w).0, t); }
    }
  }

  /** A blank token takes the flow and records nothing; the flow is told that it is not durable. */
  lemma RouteBlankExactly(s: Store, t: Token, ids: seq<ProductId>, w: Write, p: ProductId, flow: PendingPurchase)
    requires Good(s) && OnlyFlow(s, p, flow) && IsBlank(t)
    ensures
      var (next, routed) := Route(s, t, ids, w);
      if p in ids then SameButFlows(s, next) && next.purchases.keys == [] && routed == RoutedPurchase(ACTIVE, Some(flow.(isMetadataDurable := false)), false)
      else next == s && routed == RoutedPurchase(OUT_OF_BAND, None, true)
  {
    NamedFlow(s, ids, p, flow);
    RemoveActive(s, p);
  }

  /** With no flow active, nothing but a known token is correlated, and nothing else changes. */
  lemma RouteWithoutFlow(s: Store, t: Token, ids: seq<ProductId>, w: Write)
    requires Good(s) && s.purchases.keys == [] && (IsBlank(t) || Where(s, t).Unknown?)
    ensures Route(s, t, ids, w) == (s, RoutedPurchase(OUT_OF_BAND, None, true))
  {
  }

  /** A known token stays where it is, confirmed against the product set of the update. */
  lemma RouteKnownExactly(s: Store, t: Token, ids: seq<ProductId>, w: Write)
    requires Good(s) && Written(w.left) && !IsBlank(t) && !Where(s, t).Unknown?
    ensures
      var (next, routed) := Route(s, t, ids, w);
      var c := Confirmed(Where(s, t).c, SetOf(ids));
      && routed == RoutedPurchase(CORRELATED, None, !c.isDurable || !next.failed)
      && next.purchases == s.purchases
      && Where(next, t) == (if Where(s, t).InDeferred? then InDeferred(c) else InCompleted(c))
      && (forall k :: k != t ==> Where(next, k) == Where(s, k))
      && Writes(s, next, c, w)
  {
    var c := Confirmed(Where(s, t).c, SetOf(ids));
    ValidatedIsConfirmed(t, Where(s, t).c, OwnedPurchaseSnapshot(t, SetOf(ids), PURCHASED));
    RouteStep(s, t, ids, w);
    AddKeepsTables(TablesOf(s), t, c);
    if Where(s, t).InDeferred? {
      var tables := TablesOf(s).(deferred := s.deferred.Put(t, c));
      PersistsAsReported(s.(deferred := tables.deferred), tables, c, w);
    } else {
      var tables := TablesOf(s).(completed := s.completed.Put(t, c));
      PersistsAsReported(s.(completed := tables.completed), tables, c, w);
    }
  }

  // ---- Finishing -----------------------------------------------------------------------

  /** Before its finish a durable token is taken out of the journal; it is forgotten exactly if that is reported done. */
  lemma RemoveExactly(s: Store, t: Token, w: Write)
    requires Good(s) && Written(w.left)
    ensures
      var (next, ok) := RemoveBeforeFinish(s, t, w);
      var durable := Where(s, t) != Unknown && Where(s, t).c.isDurable;
      && next.purchases == s.purchases
      && Where(next, t) == (if ok then Unknown else Where(s, t))
      && (forall k :: k != t ==> Where(next, k) == Where(s, k))
      && (!durable ==> ok && NotWritten(s, next))
      && (durable ==> Reported(next, w) && (ok <==> !next.failed))
      && (ok && !next.failed ==> forall r :: r in next.journal.records ==> r.purchaseToken != t)
  {
    RemoveStep(s, t, w);
    RemoveReports(s, t, w);
    GoodStep(s, RemovesBeforeFinish(t, w));
    var (next, ok) := RemoveBeforeFinish(s, t, w);
    if ok && !next.failed { GoneFromJournal(next, t); }
  }

  lemma GoneFromJournal(s: Store, t: Token)
    requires Good(s) && !s.failed && Where(s, t).Unknown?
    ensures forall r :: r in s.journal.records ==> r.purchaseToken != t
  {
    DurableMetadataContents(TablesOf(s));
    assert !DurableIn(TablesOf(s), t);
  }

  lemma RemoveReports(s: Store, t: Token, w: Write)
    requires Good(s)
    ensures
      var (next, ok) := RemoveBeforeFinish(s, t, w);
      var durable := Where(s, t) != Unknown && Where(s, t).c.isDurable;
      && next.purchases == s.purchases
      && (!durable ==> ok && NotWritten(s, next))
      && (durable ==> Reported(next, w) && (ok <==> !next.failed))
  {
    if Where(s, t) != Unknown && Where(s, t).c.isDurable { RemoveDurable(s, t, w); }
  }

  lemma RemoveDurable(s: Store, t: Token, w: Write)
    requires Good(s) && s.Existing(t).Some? && s.Existing(t).value.isDurable
    ensures
      var (next, ok) := RemoveBeforeFinish(s, t, w);
      next.purchases == s.purchases && Reported(next, w) && (ok <==> !next.failed)
  {
    var fewer := Tables(s.deferred.Minus(t), s.completed.Minus(t));
    MinusKeepsTables(TablesOf(s), t);
    PersistReports(s, fewer, true, w);
    FewerKeepable(TablesOf(s), fewer, t);
    var (persisted, ok) := Persist(s, fewer.deferred, fewer.completed, true, w);
    assert RemoveBeforeFinish(s, t, w) == if ok then (persisted.(deferred := fewer.deferred, completed := fewer.completed), true) else (persisted, false);
    assert !ok ==> TablesOf(persisted) == TablesOf(s);
  }

  lemma FewerKeepable(tables: Tables, fewer: Tables, t: Token)
    requires forall k :: WhereIn(fewer, k) == if k == t then Unknown else WhereIn(tables, k)
    ensures Keepable(tables) ==> Keepable(fewer)
  {
    forall k | DurableIn(fewer, k) ensures DurableIn(tables, k) && WhereIn(fewer, k) == WhereIn(tables, k) {
    }
  }

  // ---- What Play reports ---------------------------------------------------------------

  predicate Relevant(o: OwnedPurchaseSnapshot, p: Option<ProductId>, t: Token) {
    o.purchaseToken == t && (p.Some? ==> p.value in o.productIds)
  }

  /** The observation that decides: the first PURCHASED one of the token, or else the first. */
  predicate DecidesAt(snapshots: seq<OwnedPurchaseSnapshot>, p: Option<ProductId>, t: Token, i: nat)
    requires i < |snapshots|
  {
    && Relevant(snapshots[i], p, t)
    && (snapshots[i].state == PENDING ==> forall j :: 0 <= j < |snapshots| && Relevant(snapshots[j], p, t) ==> snapshots[j].state == PENDING)
    && (forall j :: 0 <= j < i && Relevant(snapshots[j], p, t) ==> snapshots[j].state != snapshots[i].state)
  }

  predicate Decides(snapshots: seq<OwnedPurchaseSnapshot>, p: Option<ProductId>, t: Token, o: OwnedPurchaseSnapshot) {
    exists i :: 0 <= i < |snapshots| && snapshots[i] == o && DecidesAt(snapshots, p, t, i)
  }

  predicate Reports(snapshots: seq<OwnedPurchaseSnapshot>, p: Option<ProductId>, t: Token) {
    exists i :: 0 <= i < |snapshots| && Relevant(snapshots[i], p, t)
  }

  function Filtered(snapshots: seq<OwnedPurchaseSnapshot>, p: Option<ProductId>): seq<OwnedPurchaseSnapshot> {
    match p case None => snapshots case Some(product) => Owning(snapshots, product)
  }

  /** The store decides by that observation, of all snapshots or of those that own a product. */
  lemma {:induction false} ObservedDecides(snapshots: seq<OwnedPurchaseSnapshot>, p: Option<ProductId>, t: Token)
    ensures Observed(Filtered(snapshots, p), t).Some? <==> Reports(snapshots, p, t)
    ensures Observed(Filtered(snapshots, p), t).Some? ==> Decides(snapshots, p, t, Observed(Filtered(snapshots, p), t).value)
  {
    var mine := SnapshotsOf(Filtered(snapshots, p), t);
    MineAre(snapshots, p, t);
    MineMembers(snapshots, p, t);
    if mine != [] { FirstOf(snapshots, p, t); }
  }

  /** The token's snapshots, in order. */
  function Mine(snapshots: seq<OwnedPurchaseSnapshot>, p: Option<ProductId>, t: Token): seq<OwnedPurchaseSnapshot> {
    if snapshots == [] then []
    else (if Relevant(snapshots[0], p, t) then [snapshots[0]] else []) + Mine(snapshots[1..], p, t)
  }

  lemma {:induction false} MineMembers(snapshots: seq<OwnedPurchaseSnapshot>, p: Option<ProductId>, t: Token)
    ensures Mine(snapshots, p, t) != [] <==> Reports(snapshots, p, t)
    ensures forall o :: o in Mine(snapshots, p, t) <==> o in snapshots && Relevant(o, p, t)
  {
    if snapshots != [] {
      MineMembers(snapshots[1..], p, t);
      assert forall i :: 0 < i < |snapshots| ==> snapshots[i] == snapshots[1..][i - 1];
      if Reports(snapshots[1..], p, t) {
        var i :| 0 <= i < |snapshots[1..]| && Relevant(snapshots[1..][i], p, t);
        assert Relevant(snapshots[i + 1], p, t);
      }
    }
  }

  lemma MineAre(snapshots: seq<OwnedPurchaseSnapshot>, p: Option<ProductId>, t: Token)
    ensures SnapshotsOf(Filtered(snapshots, p), t) == Mine(snapshots, p, t)
  {
    match p
    case None => MineOfAll(snapshots, t);
    case Some(product) => MineOfProduct(snapshots, product, t);
  }

  lemma {:induction false} MineOfAll(snapshots: seq<OwnedPurchaseSnapshot>, t: Token)
    ensures SnapshotsOf(snapshots, t) == Mine(snapshots, None, t)
  {
    if snapshots != [] { MineOfAll(snapshots[1..], t); }
  }

  lemma {:induction false} MineOfProduct(snapshots: seq<OwnedPurchaseSnapshot>, product: ProductId, t: Token)
    ensures SnapshotsOf(Owning(snapshots, product), t) == Mine(snapshots, Some(product), t)
  {
    if snapshots != [] {
      MineOfProduct(snapshots[1..], product, t);
      OwningFront(snapshots, product);
      OneMore(snapshots[0], product in snapshots[0].productIds, Owning(snapshots, product), Owning(snapshots[1..], product), t);
    }
  }

  lemma OwningFront(snapshots: seq<OwnedPurchaseSnapshot>, product: ProductId)
    requires snapshots != []
    ensures Owning(snapshots, product) == (if product in snapshots[0].productIds then [snapshots[0]] else []) + Owning(snapshots[1..], product)
  {
  }

  lemma OneMore(o: OwnedPurchaseSnapshot, owns: bool, owned: seq<OwnedPurchaseSnapshot>, rest: seq<OwnedPurchaseSnapshot>, t: Token)
    requires owned == (if owns then [o] else []) + rest
    ensures SnapshotsOf(owned, t) == (if owns && o.purchaseToken == t then [o] else []) + SnapshotsOf(rest, t)
  {
    if owns { SnapshotsFront(o, rest, t); } else { assert owned == rest; }
  }

  lemma SnapshotsFront(o: OwnedPurchaseSnapshot, rest: seq<OwnedPurchaseSnapshot>, t: Token)
    ensures SnapshotsOf([o] + rest, t) == (if o.purchaseToken == t then [o] else []) + SnapshotsOf(rest, t)
  {
    assert ([o] + rest)[1..] == rest;
  }

  lemma {:induction false} FirstOf(snapshots: seq<OwnedPurchaseSnapshot>, p: Option<ProductId>, t: Token)
    requires Reports(snapshots, p, t)
    ensures var decider := PreferredObservation(Mine(snapshots, p, t)); decider.Some? && Decides(snapshots, p, t, decider.value)
  {
    var mine, rest := Mine(snapshots, p, t), snapshots[1..];
    MineMembers(snapshots, p, t);
    MineMembers(rest, p, t);
    if Relevant(snapshots[0], p, t) {
      assert mine[0] == snapshots[0] && mine[1..] == Mine(rest, p, t);
      if snapshots[0].state == PURCHASED || FirstPurchased(Mine(rest, p, t)).None? {
        assert forall o :: o in mine ==> o == snapshots[0] || o in Mine(rest, p, t);
        assert forall j :: 0 <= j < |snapshots| && Relevant(snapshots[j], p, t) ==> snapshots[j] in mine;
        assert DecidesAt(snapshots, p, t, 0);
      } else {
        assert Mine(rest, p, t) != [];
        FirstOf(rest, p, t);
        DecidesLater(snapshots, p, t, FirstPurchased(mine).value);
      }
    } else {
      assert mine == Mine(rest, p, t);
      FirstOf(rest, p, t);
      DecidesLater(snapshots, p, t, PreferredObservation(mine).value);
    }
  }

  lemma DecidesLater(snapshots: seq<OwnedPurchaseSnapshot>, p: Option<ProductId>, t: Token, o: OwnedPurchaseSnapshot)
    requires snapshots != [] && Decides(snapshots[1..], p, t, o)
    requires Relevant(snapshots[0], p, t) ==> o.state == PURCHASED && snapshots[0].state == PENDING
    ensures Decides(snapshots, p, t, o)
  {
    var rest := snapshots[1..];
    var i :| 0 <= i < |rest| && rest[i] == o && DecidesAt(rest, p, t, i);
    assert forall j :: 0 < j < |snapshots| ==> snapshots[j] == rest[j - 1];
    assert DecidesAt(snapshots, p, t, i + 1);
  }

  // ---- Preflight -----------------------------------------------------------------------

  /** A known record is confirmed against what was seen; a new one has no context and is not durable. */
  function SeenRecord(place: Place, t: Token, products: set<ProductId>): CorrelatedPurchase {
    match place
    case Unknown => CorrelatedPurchase(t, products, None, false)
    case InDeferred(e) => Confirmed(e, products)
    case InCompleted(e) => Confirmed(e, products)
  }

  function At(state: OwnedPurchaseState, c: CorrelatedPurchase): Place {
    if state == PENDING then InDeferred(c) else InCompleted(c)
  }

  /** Where a preflight for `p` leaves a token it did not see. */
  function Unseen(place: Place, p: ProductId): Place {
    if place.Unknown? || p !in place.c.productIds then place
    else if place.c.isDurable then InCompleted(place.c) else Unknown
  }

  /** Where it leaves any token, before any overflow. */
  ghost predicate AfterPreflight(s: Store, p: ProductId, snapshots: seq<OwnedPurchaseSnapshot>, t: Token, after: Place) {
    if Reports(snapshots, Some(p), t)
    then exists o :: Decides(snapshots, Some(p), t, o) && after == At(o.state, SeenRecord(Where(s, t), t, o.productIds))
    else after == Unseen(Where(s, t), p)
  }

  lemma PreparedIs(s: Store, p: ProductId, snapshots: seq<OwnedPurchaseSnapshot>, t: Token)
    requires Inv(s)
    ensures AfterPreflight(s, p, snapshots, t, PreparedPlace(s, p, snapshots, t))
  {
    ObservedDecides(snapshots, Some(p), t);
    if Observed(Owning(snapshots, p), t).Some? {
      var o := Observed(Owning(snapshots, p), t).value;
      if s.Existing(t).Some? { ValidatedIsConfirmed(t, s.Existing(t).value, o); }
    }
  }

  /**
   * With no flow active, a preflight either answers that the 32 are full, having cut, or leaves
   * every token as seen: then it answers that persisting failed, or that payment is pending
   * exactly if a deferred record owns the product, or that it is ready.
   */
  lemma PrepareExactly(s: Store, p: ProductId, snapshots: seq<OwnedPurchaseSnapshot>, w: Write)
    requires Good(s) && Written(w.left) && s.purchases.keys == []
    ensures
      var (next, answer) := Prepare(s, p, snapshots, w);
      && next.purchases == s.purchases
      && (answer == READY || answer == PAYMENT_PENDING ==>
            && !next.failed && |Tokens(TablesOf(next))| < 32
            && (forall t :: AfterPreflight(s, p, snapshots, t, Where(next, t)))
            && (answer == PAYMENT_PENDING <==> DeferralOwns(next, p)))
      && (answer == METADATA_PERSISTENCE_FAILED ==> next.failed)
      && (answer == CORRELATION_CAPACITY_EXCEEDED ==> !next.failed && |Tokens(TablesOf(next))| == 32)
      && ((exists t :: Where(next, t) != Unknown && Where(next, t).c.isDurable) ==> Reported(next, w))
      && ((forall t :: Where(next, t) != Unknown ==> !Where(next, t).c.isDurable) ==> NotWritten(s, next))
  {
    PrepareStep(s, p, snapshots, w);
    var (next, answer) := Prepare(s, p, snapshots, w);
    forall t ensures AfterPreflight(s, p, snapshots, t, PreparedPlace(s, p, snapshots, t)) {
      PreparedIs(s, p, snapshots, t);
    }
    PrepareAnswers(s, p, snapshots, w);
  }

  lemma PrepareAnswers(s: Store, p: ProductId, snapshots: seq<OwnedPurchaseSnapshot>, w: Write)
    requires Good(s) && Written(w.left) && s.purchases.keys == []
    ensures
      var (next, answer) := Prepare(s, p, snapshots, w);
      && (answer == READY || answer == PAYMENT_PENDING ==> |Tokens(TablesOf(next))| < 32 && (answer == PAYMENT_PENDING <==> DeferralOwns(next, p)))
      && (answer == METADATA_PERSISTENCE_FAILED ==> next.failed)
      && (answer == CORRELATION_CAPACITY_EXCEEDED ==> !next.failed && |Tokens(TablesOf(next))| == 32)
      && ((exists t :: Where(next, t) != Unknown && Where(next, t).c.isDurable) ==> Reported(next, w))
      && ((forall t :: Where(next, t) != Unknown ==> !Where(next, t).c.isDurable) ==> NotWritten(s, next))
  {
    var t := Rebuilt(s, p, snapshots);
    RebuiltTables(s, p, snapshots);
    RebuiltDurables(s, p, snapshots, t);
    TableSizes(TablesOf(s));
    TableSizes(t);
    SubsetSize(DurableTokens(TablesOf(s)), Tokens(TablesOf(s)));
    if CorrelationCount(t) >= MAX_CORRELATED_PURCHASES {
      var cut := Tables(t.deferred.Restrict(Retained(t)), t.completed.Restrict(Retained(t)));
      OverflowTables(t);
      CutIsFull(t, cut);
      SettleReports(s, cut, w);
    } else {
      SettleReports(s, t, w);
      OwnsIs(Prepare(s, p, snapshots, w).0, p);
    }
  }

  lemma OwnsIs(s: Store, p: ProductId)
    ensures AnyOwns(s.deferred, p) <==> DeferralOwns(s, p)
  {
    if AnyOwns(s.deferred, p) {
      var t :| t in s.deferred.vals && p in s.deferred.vals[t].productIds;
      assert Where(s, t).InDeferred?;
    }
  }

  /** Settling on tables reports its write, if they hold anything durable. */
  lemma SettleReports(s: Store, t: Tables, w: Write)
    requires TablesOk(t)
    ensures
      var (next, ok) := Settle(s, t.deferred, t.completed, w);
      && TablesOf(next) == t && (ok <==> !next.failed)
      && ((exists k :: Where(next, k) != Unknown && Where(next, k).c.isDurable) ==> Reported(next, w))
      && ((forall k :: Where(next, k) != Unknown ==> !Where(next, k).c.isDurable) ==> NotWritten(s, next))
  {
    EmptyMetadata(t);
    var settled := s.(deferred := t.deferred, completed := t.completed);
    var next := Settle(s, t.deferred, t.completed, w).0;
    if k :| Where(next, k) != Unknown && Where(next, k).c.isDurable {
      assert DurableIn(t, k);
      PersistReports(settled, t, false, w);
    } else {
      forall k ensures k !in DurableTokens(t) {
        assert Where(next, k) == WhereIn(t, k);
        assert k in DurableTokens(t) ==> DurableIn(t, k);
      }
      assert DurableTokens(t) == {};
    }
  }

  // ---- Overflow ------------------------------------------------------------------------

  lemma {:induction false} TakeSize<T>(s: seq<T>, n: nat)
    ensures |Take(s, n)| == if |s| <= n then |s| else n
  {
  }

  /** The order in which an overflow keeps tokens: durable ones, other deferred ones, other completed ones. */
  ghost predicate Orders(t: Tables, durable: seq<Token>, deferred: seq<Token>, completed: seq<Token>) {
    && Distinct(durable) && Distinct(deferred) && Distinct(completed)
    && (forall k :: k in durable <==> DurableIn(t, k))
    && (forall k :: k in deferred <==> WhereIn(t, k).InDeferred? && !DurableIn(t, k))
    && (forall k :: k in completed <==> WhereIn(t, k).InCompleted? && !DurableIn(t, k))
  }

  /** A table's tokens, in its order, that are not durable. */
  function Others(m: Correlations, durable: set<Token>): seq<Token> {
    Keep(m.keys, m.vals.Keys - durable)
  }

  lemma OthersAre(m: Correlations, durable: set<Token>)
    requires m.Valid()
    ensures Distinct(Others(m, durable)) && forall k :: k in Others(m, durable) <==> k in m.vals && k !in durable
  {
    KeepDistinct(m.keys, m.vals.Keys - durable);
  }

  lemma RetainedInOrder(t: Tables) returns (durable: seq<Token>, deferred: seq<Token>, completed: seq<Token>)
    requires TablesOk(t)
    ensures Orders(t, durable, deferred, completed)
    ensures Retained(t) == SetOf(Take(durable + deferred + completed, MAX_CORRELATED_PURCHASES))
  {
    durable, deferred, completed := DurableKeys(t), Others(t.deferred, DurableTokens(t)), Others(t.completed, DurableTokens(t));
    DurableKeysAre(t);
    OthersAre(t.deferred, DurableTokens(t));
    OthersAre(t.completed, DurableTokens(t));
    assert forall k :: k in durable <==> k in SetOf(durable);
    assert t.completed.vals.Keys - DurableTokens(t) - t.deferred.vals.Keys == t.completed.vals.Keys - DurableTokens(t);
  }

  lemma OrdersAll(t: Tables, durable: seq<Token>, deferred: seq<Token>, completed: seq<Token>)
    requires TablesOk(t) && Orders(t, durable, deferred, completed)
    ensures Distinct(durable + deferred + completed)
    ensures forall k :: k in durable + deferred + completed <==> k in Tokens(t)
    ensures |durable + deferred + completed| == |Tokens(t)|
  {
    var order := durable + deferred + completed;
    DistinctConcat(durable, deferred);
    DistinctConcat(durable + deferred, completed);
    forall k ensures k in order <==> k in Tokens(t) {
      assert k in order <==> k in durable || k in deferred || k in completed;
    }
    DistinctSize(order);
    assert SetOf(order) == Tokens(t);
  }

  lemma TakenAre(order: seq<Token>, n: nat)
    requires Distinct(order) && n <= |order|
    ensures |SetOf(Take(order, n))| == n && forall k :: k in SetOf(Take(order, n)) ==> k in order
  {
    TakeSize(order, n);
    var first := Take(order, n);
    assert first == order[..n];
    assert Distinct(first);
    DistinctSize(first);
    forall k | k in SetOf(first) ensures k in order {
      var i :| 0 <= i < n && first[i] == k;
      assert order[i] == k;
    }
  }

  lemma CutIsFull(t: Tables, cut: Tables)
    requires TablesOk(t) && TablesOk(cut) && |Tokens(t)| >= MAX_CORRELATED_PURCHASES
    requires forall k :: WhereIn(cut, k) == if k in Retained(t) then WhereIn(t, k) else Unknown
    ensures |Tokens(cut)| == 32
  {
    var durable, deferred, completed := RetainedInOrder(t);
    OrdersAll(t, durable, deferred, completed);
    TakenAre(durable + deferred + completed, MAX_CORRELATED_PURCHASES);
    var kept := Retained(t);
    forall k ensures k in Tokens(cut) <==> k in kept {
      TokensAre(cut, k);
      TokensAre(t, k);
    }
    assert Tokens(cut) == kept;
  }

  lemma TokensAre(t: Tables, k: Token)
    ensures k in Tokens(t) <==> WhereIn(t, k) != Unknown
  {
  }

  /** An overflow drops a deferred record only when it keeps no completed one but durable ones. */
  lemma OverflowPrefersDeferred(s: Store, p: ProductId, snapshots: seq<OwnedPurchaseSnapshot>, w: Write, a: Token, b: Token)
    requires Good(s) && Written(w.left) && s.purchases.keys == []
    requires Prepare(s, p, snapshots, w).1 == CORRELATION_CAPACITY_EXCEEDED
    requires PreparedPlace(s, p, snapshots, a).InDeferred? && Where(Prepare(s, p, snapshots, w).0, a).Unknown?
    requires Where(Prepare(s, p, snapshots, w).0, b).InCompleted?
    ensures Where(Prepare(s, p, snapshots, w).0, b).c.isDurable
  {
    var t := Rebuilt(s, p, snapshots);
    var next := Prepare(s, p, snapshots, w).0;
    RebuiltTables(s, p, snapshots);
    OverflowCuts(s, p, snapshots, w);
    KeptInOrder(t, a, b);
  }

  /** Every token of an overflowing preflight is kept where it would be, or cut. */
  lemma OverflowCuts(s: Store, p: ProductId, snapshots: seq<OwnedPurchaseSnapshot>, w: Write)
    requires Good(s) && Written(w.left) && s.purchases.keys == []
    requires Prepare(s, p, snapshots, w).1 == CORRELATION_CAPACITY_EXCEEDED
    ensures
      var t := Rebuilt(s, p, snapshots);
      && TablesOk(t) && |DurableTokens(t)| <= MAX_CORRELATED_PURCHASES
      && forall k :: Where(Prepare(s, p, snapshots, w).0, k) == if k in Retained(t) then WhereIn(t, k) else Unknown
  {
    var t := Rebuilt(s, p, snapshots);
    RebuiltTables(s, p, snapshots);
    RebuiltDurables(s, p, snapshots, t);
    TableSizes(TablesOf(s));
    SubsetSize(DurableTokens(TablesOf(s)), Tokens(TablesOf(s)));
    OverflowTables(t);
    CapacityMeansCut(s, p, snapshots, w);
  }

  lemma CapacityMeansCut(s: Store, p: ProductId, snapshots: seq<OwnedPurchaseSnapshot>, w: Write)
    requires s.purchases.keys == [] && Prepare(s, p, snapshots, w).1 == CORRELATION_CAPACITY_EXCEEDED
    ensures
      var t := Rebuilt(s, p, snapshots);
      TablesOf(Prepare(s, p, snapshots, w).0) == Tables(t.deferred.Restrict(Retained(t)), t.completed.Restrict(Retained(t)))
  {
  }

  lemma KeptInOrder(t: Tables, a: Token, b: Token)
    requires TablesOk(t) && |DurableTokens(t)| <= MAX_CORRELATED_PURCHASES
    requires WhereIn(t, a).InDeferred? && a !in Retained(t) && WhereIn(t, b).InCompleted? && b in Retained(t)
    ensures WhereIn(t, b).c.isDurable
  {
    RetainedTokens(t);
    var durable, deferred, completed := RetainedInOrder(t);
    assert DurableIn(t, a) ==> a in DurableTokens(t);
    if !WhereIn(t, b).c.isDurable {
      TakesEarlierFirst(durable, deferred, completed, a, b);
    }
  }

  lemma FrontMember(a: seq<Token>, b: seq<Token>, c: seq<Token>, i: nat)
    requires i < |a| + |b|
    ensures (a + b + c)[i] in a || (a + b + c)[i] in b
  {
  }

  lemma TakesEarlierFirst(durable: seq<Token>, deferred: seq<Token>, completed: seq<Token>, a: Token, b: Token)
    requires a in deferred && b !in durable && b !in deferred
    requires b in Take(durable + deferred + completed, MAX_CORRELATED_PURCHASES)
    ensures a in Take(durable + deferred + completed, MAX_CORRELATED_PURCHASES)
  {
    var order := durable + deferred + completed;
    var first := Take(order, MAX_CORRELATED_PURCHASES);
    var i :| 0 <= i < |first| && first[i] == b;
    var j :| 0 <= j < |deferred| && deferred[j] == a;
    assert order[i] == b;
    if i < |durable| + |deferred| { FrontMember(durable, deferred, completed, i); }
    assert order[|durable| + j] == a && first[|durable| + j] == a;
  }

  // ---- Reconciliation ------------------------------------------------------------------

  /**
   * Reconciliation knows no new token. A known one moves to the state it is seen in, its record
   * confirmed; unseen, it counts as completed if it was or is durable, and is forgotten otherwise.
   * The contexts of those seen as PURCHASED are handed out.
   */
  lemma ReconcileExactly(s: Store, snapshots: seq<OwnedPurchaseSnapshot>, w: Write, t: Token)
    requires Good(s) && Written(w.left)
    ensures
      var (next, contexts) := Reconcile(s, snapshots, w);
      && next.purchases == s.purchases
      && (Where(s, t).Unknown? ==> Where(next, t).Unknown? && t !in contexts)
      && (!Where(s, t).Unknown? && !Reports(snapshots, None, t) ==>
            && Where(next, t) == (if Where(s, t).InCompleted? || Where(s, t).c.isDurable then InCompleted(Where(s, t).c) else Unknown)
            && t !in contexts)
      && (!Where(s, t).Unknown? && Reports(snapshots, None, t) ==>
            exists o :: Decides(snapshots, None, t, o) &&
              var c := Confirmed(Where(s, t).c, o.productIds);
              && Where(next, t) == At(o.state, c)
              && (t in contexts <==> o.state == PURCHASED) && (t in contexts ==> contexts[t] == c.context))
      && ((exists k :: Where(next, k) != Unknown && Where(next, k).c.isDurable) ==> Reported(next, w))
      && ((forall k :: Where(next, k) != Unknown ==> !Where(next, k).c.isDurable) ==> NotWritten(s, next))
  {
    ReconcileStep(s, snapshots, w);
    ReconciledAt(s, snapshots, t);
    ReconciledTables(s, snapshots);
    SettleReports(s, Reconciled(s, snapshots).tables, w);
    ObservedDecides(snapshots, None, t);
    if !Where(s, t).Unknown? && Reports(snapshots, None, t) {
      var o := Observed(snapshots, t).value;
      ValidatedIsConfirmed(t, Where(s, t).c, o);
      assert Decides(snapshots, None, t, o);
    }
  }

  // ---- A journal with several records of one token -------------------------------------

  /** The readable records of a token. */
  function RecordsOf(records: seq<LocalTransactionMetadata>, t: Token): seq<LocalTransactionMetadata> {
    if records == [] then []
    else
      var last := records[|records| - 1];
      RecordsOf(records[..|records| - 1], t) + if last.purchaseToken == t && Takes(last) then [last] else []
  }

  function ProductsOf(records: seq<LocalTransactionMetadata>): set<ProductId> {
    if records == [] then {} else ProductsOf(records[..|records| - 1]) + records[|records| - 1].productIds
  }

  /** The token is restored from these records of its own. */
  predicate MergedAt(r: Correlations, mine: seq<LocalTransactionMetadata>, t: Token) {
    && (t in r.vals <==> mine != [])
    && (t in r.vals ==> r.vals[t] == CorrelatedPurchase(t, ProductsOf(mine), if |mine| == 1 then mine[0].context else None, true))
  }

  lemma MergesOneMore(known: Correlations, mine: seq<LocalTransactionMetadata>, last: LocalTransactionMetadata, t: Token)
    requires MergedAt(known, mine, t) && |known.keys| < 32
    ensures MergedAt(RestoreRecord(known, last), mine + if last.purchaseToken == t && Takes(last) then [last] else [], t)
  {
    StorableIsTaken(last);
    if last.purchaseToken == t && Takes(last) {
      var more := mine + [last];
      assert more[..|more| - 1] == mine;
      assert ProductsOf(more) == ProductsOf(mine) + last.productIds;
      if mine == [] { assert ProductsOf(more) == last.productIds; }
    } else {
      assert mine + [] == mine;
    }
  }

  /**
   * A journal of at most 32 records is restored token by token: the products of all of the
   * token's readable records together, durable, and a context only if there was just one.
   */
  lemma {:induction false} RestoresMerged(records: seq<LocalTransactionMetadata>, t: Token)
    requires |records| <= 32
    ensures MergedAt(RestoreRecords(records), RecordsOf(records, t), t) && |RestoreRecords(records).keys| <= |records|
  {
    if records != [] {
      var front := records[..|records| - 1];
      RestoresMerged(front, t);
      MergesOneMore(RestoreRecords(front), RecordsOf(front, t), records[|records| - 1], t);
    }
  }
}
