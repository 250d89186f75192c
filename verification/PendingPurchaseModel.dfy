/**
 * The Play token correlation store: which product has a flow open, and what is known of each
 * purchase token that a flow left behind.
 *
 * Every operation writes the journal at most once; `Write` says what that one
 * SharedPreferences commit does.
 */
module PendingPurchaseModel {
  import opened Options
  import opened LinkedMaps
  import opened PurchaseTypes

  datatype PendingPurchase = PendingPurchase(
    callback: Callback,
    context: Option<NativePurchaseContext>,
    launchedAtMillis: Option<int>,
    isMetadataDurable: bool)

  datatype OwnedPurchaseState = PENDING | PURCHASED

  datatype OwnedPurchaseSnapshot = OwnedPurchaseSnapshot(
    purchaseToken: Token,
    productIds: set<ProductId>,
    state: OwnedPurchaseState)

  datatype PurchasePreparation = READY | PAYMENT_PENDING | CORRELATION_CAPACITY_EXCEEDED | METADATA_PERSISTENCE_FAILED

  datatype PurchaseUpdateKind = ACTIVE | CORRELATED | OUT_OF_BAND

  datatype RoutedPurchase = RoutedPurchase(
    kind: PurchaseUpdateKind,
    activePurchase: Option<PendingPurchase>,
    isMetadataDurable: bool)

  datatype LocalTransactionMetadata = LocalTransactionMetadata(
    purchaseToken: Token,
    productIds: set<ProductId>,
    context: Option<NativePurchaseContext>)

  datatype CorrelatedPurchase = CorrelatedPurchase(
    purchaseToken: Token,
    productIds: set<ProductId>,
    context: Option<NativePurchaseContext>,
    isDurable: bool)

  type Correlations = LinkedMap<Token, CorrelatedPurchase>

  // ---- Journal -------------------------------------------------------------------------

  datatype Journal = Corrupt | Readable(records: seq<LocalTransactionMetadata>)

  /**
   * One SharedPreferences commit. `commits` says whether it reports success; a commit that
   * reports failure leaves `left`.
   */
  datatype Write = Write(commits: bool, left: Journal)

  /** What the journal accepts of one record: the validation every implementation shares. */
  predicate Storable(m: LocalTransactionMetadata) {
    && !IsBlank(m.purchaseToken)
    && m.productIds != {}
    && forall p :: p in m.productIds ==> !IsBlank(p)
  }

  predicate Clean(records: seq<LocalTransactionMetadata>) {
    && |records| <= MAX_CORRELATED_PURCHASES
    && (forall m :: m in records ==> Storable(m))
    && forall i, j :: 0 <= i < j < |records| ==> records[i].purchaseToken != records[j].purchaseToken
  }

  /** Whatever the file holds was written by some instance of the store, or cannot be read. */
  predicate Written(j: Journal) {
    j.Corrupt? || Clean(j.records)
  }

  /** `metadataStore.replace`: the journal afterwards, and whether it reported success. */
  function Replace(records: seq<LocalTransactionMetadata>, w: Write): (Journal, bool) {
    if w.commits && |records| <= MAX_CORRELATED_PURCHASES && (forall m :: m in records ==> Storable(m))
    then (Readable(records), true)
    else (w.left, false)
  }

  // ---- State ---------------------------------------------------------------------------

  datatype Store = Store(
    purchases: LinkedMap<ProductId, PendingPurchase>,
    deferred: Correlations,
    completed: Correlations,
    failed: bool,
    journal: Journal)
  {
    function Existing(t: Token): Option<CorrelatedPurchase> {
      if t in deferred.vals then Some(deferred.vals[t]) else completed.Get(t)
    }
  }

  function ToMetadata(c: CorrelatedPurchase): LocalTransactionMetadata {
    LocalTransactionMetadata(c.purchaseToken, c.productIds, c.context)
  }

  /** The durable values of a map, in key order, as journal records. */
  function Metadata(keys: seq<Token>, vals: map<Token, CorrelatedPurchase>): (r: seq<LocalTransactionMetadata>)
    ensures |r| <= |keys|
  {
    if keys == [] then []
    else
      var rest := Metadata(keys[1..], vals);
      if keys[0] in vals && vals[keys[0]].isDurable then [ToMetadata(vals[keys[0]])] + rest else rest
  }

  function DurableMetadata(deferred: Correlations, completed: Correlations): seq<LocalTransactionMetadata> {
    var all := deferred.Plus(completed);
    Metadata(all.keys, all.vals)
  }

  function Take<T>(s: seq<T>, n: nat): seq<T> {
    if |s| <= n then s else s[..n]
  }

  /** `persistDurableCorrelations`: only `failed` and the journal change. */
  function Persist(s: Store, deferred: Correlations, completed: Correlations, force: bool, w: Write): (Store, bool) {
    var records := Take(DurableMetadata(deferred, completed), MAX_CORRELATED_PURCHASES);
    if records == [] && !force then (s, !s.failed)
    else
      var (journal, ok) := Replace(records, w);
      (s.(failed := !ok, journal := journal), ok)
  }

  /** Stores both maps, then persists them. */
  function Settle(s: Store, deferred: Correlations, completed: Correlations, w: Write): (Store, bool) {
    Persist(s.(deferred := deferred, completed := completed), deferred, completed, false, w)
  }

  // ---- Restore -------------------------------------------------------------------------

  function RestoreRecord(known: Correlations, m: LocalTransactionMetadata): Correlations {
    if |known.keys| >= MAX_CORRELATED_PURCHASES then known
    else if !Storable(m) then known
    else if m.purchaseToken in known.vals then
      known.Put(m.purchaseToken,
                CorrelatedPurchase(m.purchaseToken, known.vals[m.purchaseToken].productIds + m.productIds, None, true))
    else
      known.Put(m.purchaseToken, CorrelatedPurchase(m.purchaseToken, m.productIds, m.context, true))
  }

  function RestoreRecords(records: seq<LocalTransactionMetadata>): Correlations {
    if records == [] then EmptyMap()
    else RestoreRecord(RestoreRecords(records[..|records| - 1]), records[|records| - 1])
  }

  /** A new instance over the journal the previous process left. */
  function Restore(journal: Journal): Store {
    match journal
    case Corrupt => Store(EmptyMap(), EmptyMap(), EmptyMap(), true, journal)
    case Readable(records) => Store(EmptyMap(), EmptyMap(), RestoreRecords(records), false, journal)
  }

  // ---- The active flow -----------------------------------------------------------------

  /** Whether any listed record names the product. */
  predicate AnyOwns(m: Correlations, product: ProductId) {
    exists t :: t in m.vals && product in m.vals[t].productIds
  }

  function Register(s: Store, product: ProductId, callback: Callback): (Store, bool) {
    if s.failed || s.purchases.keys != [] || AnyOwns(s.deferred, product) ||
       |s.deferred.keys| + |s.completed.keys| >= MAX_CORRELATED_PURCHASES
    then (s, false)
    else (s.(purchases := EmptyMap().Put(product, PendingPurchase(callback, None, None, true))), true)
  }

  function UpdateContext(s: Store, product: ProductId, context: NativePurchaseContext): Store {
    if product !in s.purchases.vals then s
    else s.(purchases := s.purchases.Put(product, s.purchases.vals[product].(context := Some(context))))
  }

  function MarkLaunched(s: Store, product: ProductId, atMillis: int): Store {
    if product !in s.purchases.vals then s
    else s.(purchases := s.purchases.Put(product, s.purchases.vals[product].(launchedAtMillis := Some(atMillis))))
  }

  /** The values of a map in key order. */
  function Values<V>(keys: seq<ProductId>, vals: map<ProductId, V>): seq<V> {
    if keys == [] then []
    else (if keys[0] in vals then [vals[keys[0]]] else []) + Values(keys[1..], vals)
  }

  function TakeForProducts(s: Store, productIds: seq<ProductId>): (Store, seq<PendingPurchase>) {
    var taken := s.purchases.Restrict(SetOf(productIds));
    (s.(purchases := s.purchases.Restrict(s.purchases.vals.Keys - SetOf(productIds))), Values(taken.keys, taken.vals))
  }

  function Remove(s: Store, product: ProductId): (Store, Option<PendingPurchase>) {
    (s.(purchases := s.purchases.Minus(product)), s.purchases.Get(product))
  }

  function Drain(s: Store): (Store, seq<PendingPurchase>) {
    (s.(purchases := EmptyMap()), Values(s.purchases.keys, s.purchases.vals))
  }

  // ---- Deferral and routing ------------------------------------------------------------

  /** Context survives only under the same token and the same full product set. */
  function ValidatedAgainst(c: CorrelatedPurchase, observed: OwnedPurchaseSnapshot): CorrelatedPurchase {
    var isIdentityProven :=
      !IsBlank(c.purchaseToken) && c.purchaseToken == observed.purchaseToken && c.productIds == observed.productIds;
    c.(context := if isIdentityProven then c.context else None)
  }

  /** The record a flow leaves for the token Play gave it. */
  function Novel(t: Token, productIds: set<ProductId>, active: PendingPurchase): CorrelatedPurchase {
    CorrelatedPurchase(t, productIds, active.context, active.context.Some?)
  }

  /** A token that is already known keeps both product sets and loses its context. */
  function Deferral(existing: Option<CorrelatedPurchase>, t: Token, productIds: set<ProductId>, active: PendingPurchase)
    : CorrelatedPurchase
  {
    match existing
    case None => Novel(t, productIds, active)
    case Some(e) => CorrelatedPurchase(t, e.productIds + productIds, None, e.isDurable || active.context.Some?)
  }

  function PersistIfDurable(s: Store, c: CorrelatedPurchase, w: Write): (Store, bool) {
    if !c.isDurable then (s, true) else Persist(s, s.deferred, s.completed, false, w)
  }

  function Defer(s: Store, productIds: seq<ProductId>, t: Token, w: Write): (Store, Option<PendingPurchase>) {
    match FirstIn(s.purchases.keys, SetOf(productIds) * s.purchases.vals.Keys)
    case None => (s, None)
    case Some(product) =>
      var active := s.purchases.vals[product];
      var released := s.(purchases := s.purchases.Minus(product));
      if IsBlank(t) then (released, Some(active.(isMetadataDurable := false)))
      else
        var correlation := Deferral(s.Existing(t), t, SetOf(productIds), active);
        var next := released.(deferred := s.deferred.Put(t, correlation), completed := s.completed.Minus(t));
        var (settled, durable) := PersistIfDurable(next, correlation, w);
        (settled, Some(active.(isMetadataDurable := durable)))
  }

  function Route(s: Store, t: Token, productIds: seq<ProductId>, w: Write): (Store, RoutedPurchase) {
    var product := FirstIn(s.purchases.keys, SetOf(productIds) * s.purchases.vals.Keys);
    if IsBlank(t) then
      match product
      case None => (s, RoutedPurchase(OUT_OF_BAND, None, true))
      case Some(p) =>
        (s.(purchases := s.purchases.Minus(p)),
         RoutedPurchase(ACTIVE, Some(s.purchases.vals[p].(isMetadataDurable := false)), false))
    else
      match s.Existing(t)
      case Some(e) =>
        var validated := ValidatedAgainst(e, OwnedPurchaseSnapshot(t, SetOf(productIds), PURCHASED));
        var next := if t in s.deferred.vals then s.(deferred := s.deferred.Put(t, validated))
                    else s.(completed := s.completed.Put(t, validated));
        var (settled, durable) := PersistIfDurable(next, validated, w);
        (settled, RoutedPurchase(CORRELATED, None, durable))
      case None =>
        match product
        case None => (s, RoutedPurchase(OUT_OF_BAND, None, true))
        case Some(p) =>
          var active := s.purchases.vals[p];
          var correlation := Novel(t, SetOf(productIds), active);
          var next := s.(purchases := s.purchases.Minus(p), completed := s.completed.Put(t, correlation));
          var (settled, durable) := PersistIfDurable(next, correlation, w);
          (settled, RoutedPurchase(ACTIVE, Some(active.(isMetadataDurable := durable)), durable))
  }

  function RemoveBeforeFinish(s: Store, t: Token, w: Write): (Store, bool) {
    var deferred, completed := s.deferred.Minus(t), s.completed.Minus(t);
    var isDurable := s.Existing(t).Some? && s.Existing(t).value.isDurable;
    var (persisted, ok) := if isDurable then Persist(s, deferred, completed, true, w) else (s, true);
    if ok then (persisted.(deferred := deferred, completed := completed), true) else (persisted, false)
  }

  // ---- Snapshots of what Play owns -----------------------------------------------------

  function SnapshotsOf(snapshots: seq<OwnedPurchaseSnapshot>, t: Token): (r: seq<OwnedPurchaseSnapshot>)
    ensures forall o :: o in r ==> o.purchaseToken == t && o in snapshots
    ensures r != [] <==> exists o :: o in snapshots && o.purchaseToken == t
  {
    if snapshots == [] then []
    else (if snapshots[0].purchaseToken == t then [snapshots[0]] else []) + SnapshotsOf(snapshots[1..], t)
  }

  function FirstPurchased(observations: seq<OwnedPurchaseSnapshot>): (r: Option<OwnedPurchaseSnapshot>)
    ensures r.Some? ==> r.value in observations && r.value.state.PURCHASED?
    ensures r.None? ==> forall o :: o in observations ==> o.state.PENDING?
  {
    if observations == [] then None
    else if observations[0].state.PURCHASED? then Some(observations[0])
    else FirstPurchased(observations[1..])
  }

  /** PURCHASED wins over PENDING; otherwise the first observation. */
  function PreferredObservation(observations: seq<OwnedPurchaseSnapshot>): (r: Option<OwnedPurchaseSnapshot>)
    ensures r.None? <==> observations == []
    ensures r.Some? ==> r.value in observations
  {
    if FirstPurchased(observations).Some? then FirstPurchased(observations)
    else if observations == [] then None else Some(observations[0])
  }

  function Observed(snapshots: seq<OwnedPurchaseSnapshot>, t: Token): (r: Option<OwnedPurchaseSnapshot>)
    ensures r.Some? ==> r.value in snapshots && r.value.purchaseToken == t
    ensures r.None? ==> forall o :: o in snapshots ==> o.purchaseToken != t
  {
    PreferredObservation(SnapshotsOf(snapshots, t))
  }

  /** `snapshots.filter { product in it.productIds }`. */
  function Owning(snapshots: seq<OwnedPurchaseSnapshot>, product: ProductId): (r: seq<OwnedPurchaseSnapshot>)
    ensures forall o :: o in r <==> o in snapshots && product in o.productIds
  {
    if snapshots == [] then []
    else (if product in snapshots[0].productIds then [snapshots[0]] else []) + Owning(snapshots[1..], product)
  }

  /** The keys of `groupBy(purchaseToken)`: distinct tokens in order of first appearance. */
  function TokensOf(snapshots: seq<OwnedPurchaseSnapshot>): (r: seq<Token>)
    ensures Distinct(r)
    ensures forall t :: t in r <==> exists o :: o in snapshots && o.purchaseToken == t
  {
    if snapshots == [] then []
    else
      var front, last := snapshots[..|snapshots| - 1], snapshots[|snapshots| - 1];
      var known := TokensOf(front);
      assert snapshots == front + [last];
      if last.purchaseToken in known then known else known + [last.purchaseToken]
  }

  // ---- Preflight -----------------------------------------------------------------------

  /** The deferred and the completed map a loop is rebuilding. */
  datatype Tables = Tables(deferred: Correlations, completed: Correlations) {
    function PutDeferred(t: Token, c: CorrelatedPurchase): Tables {
      Tables(deferred.Put(t, c), completed.Minus(t))
    }

    function PutCompleted(t: Token, c: CorrelatedPurchase): Tables {
      Tables(deferred.Minus(t), completed.Put(t, c))
    }
  }

  function Without(m: Correlations, product: ProductId): Correlations {
    m.Restrict(set t | t in m.vals && product !in m.vals[t].productIds)
  }

  /** What preflight records for one observed token. */
  function Recorded(s: Store, o: OwnedPurchaseSnapshot): CorrelatedPurchase {
    match s.Existing(o.purchaseToken)
    case Some(e) => ValidatedAgainst(e, o)
    case None => CorrelatedPurchase(o.purchaseToken, o.productIds, None, false)
  }

  /** One turn of the loop over the observed tokens. */
  function RecordOne(s: Store, relevant: seq<OwnedPurchaseSnapshot>, t: Token, acc: Tables): Tables {
    match Observed(relevant, t)
    case None => acc
    case Some(o) => if o.state.PENDING? then acc.PutDeferred(t, Recorded(s, o)) else acc.PutCompleted(t, Recorded(s, o))
  }

  function RecordObserved(s: Store, relevant: seq<OwnedPurchaseSnapshot>, tokens: seq<Token>, acc: Tables): Tables {
    if tokens == [] then acc
    else RecordOne(s, relevant, tokens[|tokens| - 1], RecordObserved(s, relevant, tokens[..|tokens| - 1], acc))
  }

  function DurableCorrelations(s: Store): Correlations {
    var all := s.deferred.Plus(s.completed);
    all.Restrict(set t | t in all.vals && all.vals[t].isDurable)
  }

  /** Adds back a durable record that the rebuild dropped. */
  function RetainOne(durable: Correlations, t: Token, acc: Tables): Tables {
    if t in durable.vals && t !in acc.deferred.vals && t !in acc.completed.vals
    then acc.(completed := acc.completed.Put(t, durable.vals[t]))
    else acc
  }

  function RetainDurable(durable: Correlations, tokens: seq<Token>, acc: Tables): Tables {
    if tokens == [] then acc
    else RetainOne(durable, tokens[|tokens| - 1], RetainDurable(durable, tokens[..|tokens| - 1], acc))
  }

  function AfterRecording(s: Store, product: ProductId, snapshots: seq<OwnedPurchaseSnapshot>): Tables {
    var relevant := Owning(snapshots, product);
    RecordObserved(s, relevant, TokensOf(relevant), Tables(Without(s.deferred, product), Without(s.completed, product)))
  }

  function Rebuilt(s: Store, product: ProductId, snapshots: seq<OwnedPurchaseSnapshot>): Tables {
    var durable := DurableCorrelations(s);
    RetainDurable(durable, durable.keys, AfterRecording(s, product, snapshots))
  }

  /** Durable tokens first, then deferred, then completed, cut at the bound. */
  function Retained(t: Tables): set<Token> {
    var all := t.deferred.Plus(t.completed);
    var durable := Keep(all.keys, set k | k in all.vals && all.vals[k].isDurable);
    var deferred := Keep(t.deferred.keys, t.deferred.vals.Keys - SetOf(durable));
    var completed := Keep(t.completed.keys, t.completed.vals.Keys - SetOf(durable) - t.deferred.vals.Keys);
    SetOf(Take(durable + deferred + completed, MAX_CORRELATED_PURCHASES))
  }

  function CorrelationCount(t: Tables): nat {
    |t.deferred.Plus(t.completed).keys|
  }

  function Prepare(s: Store, product: ProductId, snapshots: seq<OwnedPurchaseSnapshot>, w: Write)
    : (Store, PurchasePreparation)
  {
    if s.purchases.keys != [] then (s, READY)
    else
      var next := Rebuilt(s, product, snapshots);
      if CorrelationCount(next) >= MAX_CORRELATED_PURCHASES then
        var retained := Retained(next);
        var (settled, ok) := Settle(s, next.deferred.Restrict(retained), next.completed.Restrict(retained), w);
        (settled, if ok then CORRELATION_CAPACITY_EXCEEDED else METADATA_PERSISTENCE_FAILED)
      else
        var (settled, ok) := Settle(s, next.deferred, next.completed, w);
        (settled, if !ok then METADATA_PERSISTENCE_FAILED
                  else if AnyOwns(next.deferred, product) then PAYMENT_PENDING
                  else READY)
  }

  // ---- Reconciliation ------------------------------------------------------------------

  datatype Reconciliation = Reconciliation(tables: Tables, contexts: map<Token, Option<NativePurchaseContext>>)

  /** One turn of the loop over the deferred records. */
  function ReconcileOneDeferred(s: Store, snapshots: seq<OwnedPurchaseSnapshot>, t: Token, acc: Reconciliation)
    : Reconciliation
  {
    if t !in s.deferred.vals then acc
    else
      var c, tables := s.deferred.vals[t], acc.tables;
      match Observed(snapshots, t)
      case None =>
        if c.isDurable then acc.(tables := tables.(completed := tables.completed.Put(t, c))) else acc
      case Some(o) =>
        var validated := ValidatedAgainst(c, o);
        if o.state.PENDING? then acc.(tables := tables.(deferred := tables.deferred.Put(t, validated)))
        else Reconciliation(tables.(completed := tables.completed.Put(t, validated)),
                            acc.contexts[t := validated.context])
  }

  function ReconcileDeferred(s: Store, snapshots: seq<OwnedPurchaseSnapshot>, tokens: seq<Token>): Reconciliation {
    if tokens == [] then Reconciliation(Tables(EmptyMap(), s.completed), map[])
    else ReconcileOneDeferred(s, snapshots, tokens[|tokens| - 1],
                              ReconcileDeferred(s, snapshots, tokens[..|tokens| - 1]))
  }

  /** One turn of the loop over the completed records. */
  function ReconcileOneCompleted(s: Store, snapshots: seq<OwnedPurchaseSnapshot>, t: Token, acc: Reconciliation)
    : Reconciliation
  {
    if t !in s.completed.vals then acc
    else
      var tables := acc.tables;
      match Observed(snapshots, t)
      case None => acc
      case Some(o) =>
        var validated := ValidatedAgainst(s.completed.vals[t], o);
        if o.state.PENDING? then
          acc.(tables := Tables(tables.deferred.Put(t, validated), tables.completed.Minus(t)))
        else Reconciliation(tables.(completed := tables.completed.Put(t, validated)),
                            acc.contexts[t := validated.context])
  }

  function ReconcileCompleted(s: Store, snapshots: seq<OwnedPurchaseSnapshot>, tokens: seq<Token>, acc: Reconciliation)
    : Reconciliation
  {
    if tokens == [] then acc
    else ReconcileOneCompleted(s, snapshots, tokens[|tokens| - 1],
                               ReconcileCompleted(s, snapshots, tokens[..|tokens| - 1], acc))
  }

  function Reconciled(s: Store, snapshots: seq<OwnedPurchaseSnapshot>): Reconciliation {
    ReconcileCompleted(s, snapshots, s.completed.keys, ReconcileDeferred(s, snapshots, s.deferred.keys))
  }

  function Reconcile(s: Store, snapshots: seq<OwnedPurchaseSnapshot>, w: Write)
    : (Store, map<Token, Option<NativePurchaseContext>>)
  {
    var r := Reconciled(s, snapshots);
    (Settle(s, r.tables.deferred, r.tables.completed, w).0, r.contexts)
  }
}
