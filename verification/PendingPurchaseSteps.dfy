/**
 * Every operation: what it keeps of the invariant, of the journal, and where it leaves each
 * token.
 */
module PendingPurchaseSteps {
  import opened Options
  import opened LinkedMaps
  import opened PurchaseTypes
  import opened PendingPurchaseModel
  import opened PendingPurchaseInvariants
  import opened PendingPurchaseJournal

  function TablesOf(s: Store): Tables {
    Tables(s.deferred, s.completed)
  }

  /** The invariant, the journal and its readability carry over. */
  ghost predicate Keeps(s: Store, next: Store) {
    && Inv(next)
    && (JournalExact(s) ==> JournalExact(next))
    && (Written(s.journal) ==> Written(next.journal))
  }

  /** The same records in the same places, except that `t` is now at `p`. */
  ghost predicate MovesOnly(s: Store, next: Store, t: Token, p: Place) {
    forall k :: Where(next, k) == if k == t then p else Where(s, k)
  }

  ghost predicate SameRecords(s: Store, next: Store) {
    next.deferred == s.deferred && next.completed == s.completed
  }

  /** The purchases map after its only entry was handed out. */
  lemma RemoveActive(s: Store, product: ProductId)
    requires Inv(s)
    ensures s.purchases.Minus(product).Valid() && |s.purchases.Minus(product).keys| <= |s.purchases.keys|
    ensures product in s.purchases.vals ==> s.purchases.Minus(product).keys == [] && |s.purchases.keys| == 1
    ensures product !in s.purchases.vals ==> s.purchases.Minus(product).keys == s.purchases.keys
  {
    RestrictValid(s.purchases, s.purchases.vals.Keys - {product});
    if product in s.purchases.vals {
      assert product in s.purchases.keys && s.purchases.keys == [product];
    } else {
      KeepEverything(s.purchases.keys, s.purchases.vals.Keys - {product});
    }
  }

  // ---- Persisting ----------------------------------------------------------------------

  lemma PersistFacts(s: Store, t: Tables, force: bool, w: Write)
    requires TablesOk(t) && |t.deferred.keys| + |t.completed.keys| <= MAX_CORRELATED_PURCHASES && Written(w.left)
    ensures var next := Persist(s, t.deferred, t.completed, force, w).0;
            && next == s.(failed := next.failed, journal := next.journal)
            && (Written(s.journal) ==> Written(next.journal))
    ensures Persist(s, t.deferred, t.completed, force, w).1 ==> !Persist(s, t.deferred, t.completed, force, w).0.failed
    ensures !Persist(s, t.deferred, t.completed, force, w).1 ==> Persist(s, t.deferred, t.completed, force, w).0.failed
  {
    DurableMetadataContents(t);
  }

  lemma SettleKeeps(s: Store, t: Tables, w: Write)
    requires Inv(s) && TablesOk(t) && Written(w.left)
    requires |s.purchases.keys| + |t.deferred.keys| + |t.completed.keys| <= MAX_CORRELATED_PURCHASES
    requires DurableTokens(TablesOf(s)) <= DurableTokens(t)
    ensures Keeps(s, Settle(s, t.deferred, t.completed, w).0)
    ensures TablesOf(Settle(s, t.deferred, t.completed, w).0) == t
    ensures Settle(s, t.deferred, t.completed, w).0.purchases == s.purchases
  {
    var mid := s.(deferred := t.deferred, completed := t.completed);
    PersistFacts(mid, t, false, w);
    if JournalExact(s) {
      PersistKeepsExact(TablesOf(s), mid, t, w);
    }
  }

  // ---- Changes that do not reach the journal -------------------------------------------

  lemma MinusKeep(m: Correlations, token: Token, kept: set<Token>)
    requires m.Valid() && token !in kept
    ensures Keep(m.Minus(token).keys, kept) == Keep(m.keys, kept)
  {
    KeepKeep(m.keys, m.vals.Keys - {token}, kept);
    KeepAgree(m.keys, (m.vals.Keys - {token}) * kept, kept);
  }

  lemma PutKeep(m: Correlations, token: Token, c: CorrelatedPurchase, kept: set<Token>)
    requires token !in kept
    ensures Keep(m.Put(token, c).keys, kept) == Keep(m.keys, kept)
  {
    KeepConcat(m.keys, [token], kept);
  }

  /** Records changed at one token only, which is durable neither before nor after. */
  ghost predicate NonDurableChange(a: Tables, b: Tables, token: Token) {
    && TablesOk(a) && TablesOk(b)
    && (forall k :: k != token ==> WhereIn(a, k) == WhereIn(b, k))
    && token !in DurableTokens(a) && token !in DurableTokens(b)
  }

  lemma SameDurableTokens(a: Tables, b: Tables)
    requires forall k :: DurableIn(a, k) <==> DurableIn(b, k)
    ensures DurableTokens(a) == DurableTokens(b)
  {
    assert forall k :: k in DurableTokens(a) <==> k in DurableTokens(b);
  }

  lemma NonDurableSame(a: Tables, b: Tables, token: Token)
    requires NonDurableChange(a, b, token)
    requires Keep(a.deferred.keys, DurableTokens(a)) == Keep(b.deferred.keys, DurableTokens(a))
    requires Keep(a.completed.keys, DurableTokens(a)) == Keep(b.completed.keys, DurableTokens(a))
    ensures DurableMetadata(a.deferred, a.completed) == DurableMetadata(b.deferred, b.completed)
    ensures DurableTokens(a) == DurableTokens(b)
  {
    forall k ensures DurableIn(a, k) <==> DurableIn(b, k) {
      assert k != token ==> WhereIn(a, k) == WhereIn(b, k);
      assert k == token ==> k !in DurableTokens(a) && k !in DurableTokens(b);
    }
    SameDurableTokens(a, b);
    SameJournal(a, b);
  }

  lemma NonDurablePutDeferred(t: Tables, token: Token, c: CorrelatedPurchase)
    requires TablesOk(t) && RecordOk(token, c) && !c.isDurable && token !in DurableTokens(t)
    ensures var b := t.PutDeferred(token, c); DurableMetadata(t.deferred, t.completed) == DurableMetadata(b.deferred, b.completed)
  {
    var b := t.PutDeferred(token, c);
    PutDeferredKeepsTables(t, token, c);
    PutKeep(t.deferred, token, c, DurableTokens(t));
    MinusKeep(t.completed, token, DurableTokens(t));
    NonDurableSame(t, b, token);
  }

  lemma NonDurablePutCompleted(t: Tables, token: Token, c: CorrelatedPurchase)
    requires TablesOk(t) && RecordOk(token, c) && !c.isDurable && token !in DurableTokens(t) && token !in t.deferred.vals
    ensures DurableMetadata(t.deferred, t.completed) == DurableMetadata(t.deferred, t.completed.Put(token, c))
  {
    AddKeepsTables(t, token, c);
    PutKeep(t.completed, token, c, DurableTokens(t));
    NonDurableSame(t, t.(completed := t.completed.Put(token, c)), token);
  }

  lemma NonDurableReplaceDeferred(t: Tables, token: Token, c: CorrelatedPurchase)
    requires TablesOk(t) && RecordOk(token, c) && !c.isDurable && token !in DurableTokens(t) && token !in t.completed.vals
    ensures DurableMetadata(t.deferred, t.completed) == DurableMetadata(t.deferred.Put(token, c), t.completed)
  {
    AddKeepsTables(t, token, c);
    PutKeep(t.deferred, token, c, DurableTokens(t));
    NonDurableSame(t, t.(deferred := t.deferred.Put(token, c)), token);
  }

  lemma MinusKeepsTables(t: Tables, token: Token)
    requires TablesOk(t)
    ensures var b := Tables(t.deferred.Minus(token), t.completed.Minus(token));
            && TablesOk(b)
            && (forall k :: WhereIn(b, k) == if k == token then Unknown else WhereIn(t, k))
            && |b.deferred.keys| <= |t.deferred.keys| && |b.completed.keys| <= |t.completed.keys|
  {
    RestrictKeepsTables(t, t.deferred.vals.Keys - {token}, t.completed.vals.Keys - {token});
  }

  lemma NonDurableMinus(t: Tables, token: Token)
    requires TablesOk(t) && token !in DurableTokens(t)
    ensures DurableMetadata(t.deferred, t.completed) == DurableMetadata(t.deferred.Minus(token), t.completed.Minus(token))
  {
    MinusKeepsTables(t, token);
    MinusKeep(t.deferred, token, DurableTokens(t));
    MinusKeep(t.completed, token, DurableTokens(t));
    NonDurableSame(t, Tables(t.deferred.Minus(token), t.completed.Minus(token)), token);
  }

  // ---- One record stored, then persisted if it is durable ------------------------------

  /** Storing a record that does not take durability away keeps everything. */
  lemma StoreKeeps(s: Store, next: Store, token: Token, c: CorrelatedPurchase, w: Write)
    requires Inv(s) && TablesOk(TablesOf(next)) && RecordOk(token, c) && Written(w.left)
    requires next.failed == s.failed && next.journal == s.journal && next.purchases.Valid()
    requires |next.purchases.keys| + |next.deferred.keys| + |next.completed.keys| <= MAX_CORRELATED_PURCHASES
    requires |next.purchases.keys| <= 1
    requires forall k :: k != token ==> Where(s, k) == Where(next, k)
    requires Where(next, token) != Unknown && Where(next, token).c == c
    requires IsDurableAt(s, token) ==> c.isDurable
    requires !c.isDurable ==> DurableMetadata(s.deferred, s.completed) == DurableMetadata(next.deferred, next.completed)
    ensures Keeps(s, PersistIfDurable(next, c, w).0)
    ensures SameRecords(next, PersistIfDurable(next, c, w).0) && PersistIfDurable(next, c, w).0.purchases == next.purchases
    ensures PersistIfDurable(next, c, w).1 <==> !c.isDurable || !PersistIfDurable(next, c, w).0.failed
  {
    if c.isDurable {
      PersistFacts(next, TablesOf(next), false, w);
      DurablesGrow(s, next, token);
      if JournalExact(s) {
        PersistKeepsExact(TablesOf(s), next, TablesOf(next), w);
      }
    }
  }

  lemma DurablesGrow(s: Store, next: Store, token: Token)
    requires TablesOk(TablesOf(s)) && TablesOk(TablesOf(next))
    requires forall k :: k != token ==> Where(s, k) == Where(next, k)
    requires IsDurableAt(s, token) ==> IsDurableAt(next, token)
    ensures DurableTokens(TablesOf(s)) <= DurableTokens(TablesOf(next))
  {
    forall k | k in DurableTokens(TablesOf(s))
      ensures k in DurableTokens(TablesOf(next))
    {
      assert k != token ==> Where(s, k) == Where(next, k);
    }
  }

  // ---- The operations ------------------------------------------------------------------

  lemma DeferStep(s: Store, productIds: seq<ProductId>, t: Token, w: Write)
    requires Inv(s) && Written(w.left)
    ensures var (next, released) := Defer(s, productIds, t, w);
            && Keeps(s, next)
            && (released.None? ==> next == s)
            && (released.Some? ==> s.purchases.keys != [] && next.purchases.keys == [])
            && (released.Some? && IsBlank(t) ==> SameRecords(s, next))
            && (released.Some? && !IsBlank(t) ==>
                  MovesOnly(s, next, t, InDeferred(Deferral(s.Existing(t), t, SetOf(productIds), released.value))))
  {
    var product := FirstIn(s.purchases.keys, SetOf(productIds) * s.purchases.vals.Keys);
    if product.Some? {
      RemoveActive(s, product.value);
      if !IsBlank(t) {
        DeferReleased(s, productIds, t, w);
      }
    }
  }

  lemma DeferReleased(s: Store, productIds: seq<ProductId>, t: Token, w: Write)
    requires Inv(s) && Written(w.left) && !IsBlank(t)
    requires FirstIn(s.purchases.keys, SetOf(productIds) * s.purchases.vals.Keys).Some?
    ensures var (next, released) := Defer(s, productIds, t, w);
            && Keeps(s, next) && next.purchases.keys == [] && released.Some?
            && MovesOnly(s, next, t, InDeferred(Deferral(s.Existing(t), t, SetOf(productIds), released.value)))
  {
    var product := FirstIn(s.purchases.keys, SetOf(productIds) * s.purchases.vals.Keys).value;
    RemoveActive(s, product);
    var c := Deferral(s.Existing(t), t, SetOf(productIds), s.purchases.vals[product]);
    StoreDeferred(s, s.purchases.Minus(product), t, c, w);
  }

  lemma StoreDeferred(s: Store, purchases: LinkedMap<ProductId, PendingPurchase>, t: Token, c: CorrelatedPurchase, w: Write)
    requires Inv(s) && Written(w.left) && RecordOk(t, c) && (IsDurableAt(s, t) ==> c.isDurable)
    requires s.purchases.keys != [] && purchases.Valid() && purchases.keys == []
    ensures var mid := s.(purchases := purchases, deferred := s.deferred.Put(t, c), completed := s.completed.Minus(t));
            var next := PersistIfDurable(mid, c, w).0;
            && Keeps(s, next) && next.purchases == purchases
            && MovesOnly(s, next, t, InDeferred(c))
  {
    var tables := TablesOf(s).PutDeferred(t, c);
    var mid := s.(purchases := purchases, deferred := tables.deferred, completed := tables.completed);
    PutDeferredKeepsTables(TablesOf(s), t, c);
    PutDeferredSize(TablesOf(s), t, c);
    if !c.isDurable {
      assert t !in DurableTokens(TablesOf(s));
      NonDurablePutDeferred(TablesOf(s), t, c);
    }
    StoreKeeps(s, mid, t, c, w);
  }

  lemma PutDeferredTokens(t: Tables, token: Token, c: CorrelatedPurchase)
    ensures Tokens(t.PutDeferred(token, c)) == Tokens(t) + {token}
  {
    assert t.PutDeferred(token, c).deferred.vals.Keys == t.deferred.vals.Keys + {token};
    assert t.PutDeferred(token, c).completed.vals.Keys == t.completed.vals.Keys - {token};
  }

  lemma PutDeferredSize(t: Tables, token: Token, c: CorrelatedPurchase)
    requires TablesOk(t) && TablesOk(t.PutDeferred(token, c))
    ensures |t.PutDeferred(token, c).deferred.keys| + |t.PutDeferred(token, c).completed.keys|
            <= |t.deferred.keys| + |t.completed.keys| + 1
  {
    TableSizes(t);
    TableSizes(t.PutDeferred(token, c));
    PutDeferredTokens(t, token, c);
    assert |Tokens(t) + {token}| <= |Tokens(t)| + 1;
  }

  lemma RouteStep(s: Store, t: Token, productIds: seq<ProductId>, w: Write)
    requires Inv(s) && Written(w.left)
    ensures var (next, routed) := Route(s, t, productIds, w);
            && Keeps(s, next)
            && (routed.kind.OUT_OF_BAND? ==> next == s)
            && (routed.kind.ACTIVE? ==> s.purchases.keys != [] && next.purchases.keys == [] && routed.activePurchase.Some?)
            && (!routed.kind.ACTIVE? ==> next.purchases == s.purchases && routed.activePurchase.None?)
            && (routed.kind.ACTIVE? && IsBlank(t) ==> SameRecords(s, next))
            && (routed.kind.ACTIVE? && !IsBlank(t) ==>
                  && Where(s, t).Unknown?
                  && MovesOnly(s, next, t, InCompleted(Novel(t, SetOf(productIds), routed.activePurchase.value))))
            && (routed.kind.CORRELATED? <==> !IsBlank(t) && !Where(s, t).Unknown?)
            && (routed.kind.CORRELATED? ==> MovesOnly(s, next, t, RoutedPlace(s, t, productIds)))
  {
    if IsBlank(t) {
      RouteBlank(s, t, productIds, w);
    } else if s.Existing(t).Some? {
      RouteKnown(s, t, productIds, w);
    } else {
      RouteNovel(s, t, productIds, w);
    }
  }

  function RoutedPlace(s: Store, t: Token, productIds: seq<ProductId>): Place
    requires !Where(s, t).Unknown?
  {
    var c := ValidatedAgainst(Where(s, t).c, OwnedPurchaseSnapshot(t, SetOf(productIds), PURCHASED));
    if Where(s, t).InDeferred? then InDeferred(c) else InCompleted(c)
  }

  lemma RouteBlank(s: Store, t: Token, productIds: seq<ProductId>, w: Write)
    requires Inv(s) && IsBlank(t)
    ensures var (next, routed) := Route(s, t, productIds, w);
            && Keeps(s, next) && SameRecords(s, next) && !routed.kind.CORRELATED?
            && (routed.kind.OUT_OF_BAND? ==> next == s && routed.activePurchase.None?)
            && (routed.kind.ACTIVE? ==> s.purchases.keys != [] && next.purchases.keys == [] && routed.activePurchase.Some?)
  {
    var product := FirstIn(s.purchases.keys, SetOf(productIds) * s.purchases.vals.Keys);
    if product.Some? {
      RemoveActive(s, product.value);
    }
  }

  lemma RouteKnown(s: Store, t: Token, productIds: seq<ProductId>, w: Write)
    requires Inv(s) && Written(w.left) && !IsBlank(t) && s.Existing(t).Some?
    ensures var (next, routed) := Route(s, t, productIds, w);
            && Keeps(s, next) && routed.kind.CORRELATED? && next.purchases == s.purchases && routed.activePurchase.None?
            && MovesOnly(s, next, t, RoutedPlace(s, t, productIds))
  {
    var c := RoutedPlace(s, t, productIds).c;
    AddKeepsTables(TablesOf(s), t, c);
    if t in s.deferred.vals {
      if !c.isDurable {
        NonDurableReplaceDeferred(TablesOf(s), t, c);
      }
      StoreKeeps(s, s.(deferred := s.deferred.Put(t, c)), t, c, w);
    } else {
      if !c.isDurable {
        NonDurablePutCompleted(TablesOf(s), t, c);
      }
      StoreKeeps(s, s.(completed := s.completed.Put(t, c)), t, c, w);
    }
  }

  lemma RouteNovel(s: Store, t: Token, productIds: seq<ProductId>, w: Write)
    requires Inv(s) && Written(w.left) && !IsBlank(t) && s.Existing(t).None?
    ensures var (next, routed) := Route(s, t, productIds, w);
            && Keeps(s, next) && !routed.kind.CORRELATED?
            && (routed.kind.OUT_OF_BAND? ==> next == s && routed.activePurchase.None?)
            && (routed.kind.ACTIVE? ==>
                  && s.purchases.keys != [] && next.purchases.keys == [] && routed.activePurchase.Some?
                  && MovesOnly(s, next, t, InCompleted(Novel(t, SetOf(productIds), routed.activePurchase.value))))
  {
    var product := FirstIn(s.purchases.keys, SetOf(productIds) * s.purchases.vals.Keys);
    if product.Some? {
      RemoveActive(s, product.value);
      var c := Novel(t, SetOf(productIds), s.purchases.vals[product.value]);
      AddKeepsTables(TablesOf(s), t, c);
      if !c.isDurable {
        NonDurablePutCompleted(TablesOf(s), t, c);
      }
      StoreKeeps(s, s.(purchases := s.purchases.Minus(product.value), completed := s.completed.Put(t, c)), t, c, w);
    }
  }

  lemma RemoveStep(s: Store, t: Token, w: Write)
    requires Inv(s) && Written(w.left)
    ensures var (next, removed) := RemoveBeforeFinish(s, t, w);
            && Keeps(s, next) && next.purchases == s.purchases
            && (removed ==> MovesOnly(s, next, t, Unknown))
            && (!removed ==> SameRecords(s, next) && next.failed && IsDurableAt(s, t))
            && (removed && IsDurableAt(s, t) ==> !next.failed)
  {
    var rest := Tables(s.deferred.Minus(t), s.completed.Minus(t));
    MinusKeepsTables(TablesOf(s), t);
    if IsDurableAt(s, t) {
      PersistFacts(s, rest, true, w);
      PersistWrites(s, rest, true, w);
    } else {
      NonDurableMinus(TablesOf(s), t);
    }
  }

  lemma ReconciledTables(s: Store, snapshots: seq<OwnedPurchaseSnapshot>)
    requires Inv(s)
    ensures var t := Reconciled(s, snapshots).tables;
            && TablesOk(t)
            && (forall k :: WhereIn(t, k) == ReconciledPlace(s, snapshots, k))
  {
    var t := Reconciled(s, snapshots).tables;
    ReconciledAt(s, snapshots, []);
    forall k ensures WhereIn(t, k) == ReconciledPlace(s, snapshots, k) {
      ReconciledAt(s, snapshots, k);
    }
  }

  lemma ReconciledSubset(s: Store, snapshots: seq<OwnedPurchaseSnapshot>, t: Tables)
    requires Inv(s)
    requires forall k :: WhereIn(t, k) == ReconciledPlace(s, snapshots, k)
    ensures Tokens(t) <= Tokens(TablesOf(s))
    ensures DurableTokens(TablesOf(s)) <= DurableTokens(t)
  {
    forall k | k in Tokens(t)
      ensures k in Tokens(TablesOf(s))
    {
      assert WhereIn(t, k) != Unknown;
    }
    forall k | k in DurableTokens(TablesOf(s))
      ensures k in DurableTokens(t)
    {
      assert WhereIn(t, k) == ReconciledPlace(s, snapshots, k);
    }
  }

  lemma ReconcileStep(s: Store, snapshots: seq<OwnedPurchaseSnapshot>, w: Write)
    requires Inv(s) && Written(w.left)
    ensures var next := Reconcile(s, snapshots, w).0;
            && Keeps(s, next) && next.purchases == s.purchases
            && forall k :: Where(next, k) == ReconciledPlace(s, snapshots, k)
  {
    var tables := Reconciled(s, snapshots).tables;
    ReconciledTables(s, snapshots);
    ReconciledSubset(s, snapshots, tables);
    FewerTokens(s, tables);
    SettleKeeps(s, tables, w);
  }

  // ---- Preflight -----------------------------------------------------------------------

  lemma RebuiltTables(s: Store, product: ProductId, snapshots: seq<OwnedPurchaseSnapshot>)
    requires Inv(s)
    ensures var t := Rebuilt(s, product, snapshots);
            && TablesOk(t)
            && (forall k :: WhereIn(t, k) == PreparedPlace(s, product, snapshots, k))
  {
    var t := Rebuilt(s, product, snapshots);
    RebuiltAt(s, product, snapshots, []);
    forall k ensures WhereIn(t, k) == PreparedPlace(s, product, snapshots, k) {
      RebuiltAt(s, product, snapshots, k);
    }
  }

  /** Preflight neither loses a durable record nor makes one. */
  lemma PreparedDurable(s: Store, product: ProductId, snapshots: seq<OwnedPurchaseSnapshot>, k: Token)
    ensures var p := PreparedPlace(s, product, snapshots, k); (p != Unknown && p.c.isDurable) <==> IsDurableAt(s, k)
  {
  }

  lemma RebuiltDurables(s: Store, product: ProductId, snapshots: seq<OwnedPurchaseSnapshot>, t: Tables)
    requires forall k :: WhereIn(t, k) == PreparedPlace(s, product, snapshots, k)
    ensures DurableTokens(t) == DurableTokens(TablesOf(s))
  {
    forall k ensures DurableIn(t, k) <==> DurableIn(TablesOf(s), k) {
      PreparedDurable(s, product, snapshots, k);
    }
    SameDurableTokens(t, TablesOf(s));
  }

  lemma {:induction false} TakeMembers<T>(s: seq<T>, n: nat, x: T)
    requires exists i :: 0 <= i < n && i < |s| && s[i] == x
    ensures x in Take(s, n)
  {
    var i :| 0 <= i < n && i < |s| && s[i] == x;
    assert Take(s, n)[i] == x;
  }

  /** The durable keys, in map order. */
  function DurableKeys(t: Tables): seq<Token> {
    var all := t.deferred.Plus(t.completed);
    Keep(all.keys, set k | k in all.vals && all.vals[k].isDurable)
  }

  lemma DurableKeysAre(t: Tables)
    requires TablesOk(t)
    ensures Distinct(DurableKeys(t)) && SetOf(DurableKeys(t)) == DurableTokens(t)
    ensures |DurableKeys(t)| == |DurableTokens(t)|
  {
    var all := t.deferred.Plus(t.completed);
    PlusValid(t.deferred, t.completed);
    KeepDistinct(all.keys, set k | k in all.vals && all.vals[k].isDurable);
    DistinctSize(DurableKeys(t));
    forall k ensures k in SetOf(DurableKeys(t)) <==> k in DurableTokens(t) {
      assert k in all.vals ==> k in all.keys;
      assert k in DurableTokens(t) <==> DurableIn(t, k);
    }
  }

  /** The overflow cut holds at most 32 tokens and every durable one. */
  lemma RetainedTokens(t: Tables)
    requires TablesOk(t) && |DurableTokens(t)| <= MAX_CORRELATED_PURCHASES
    ensures |Retained(t)| <= MAX_CORRELATED_PURCHASES
    ensures DurableTokens(t) <= Retained(t)
  {
    DurableKeysAre(t);
    var durable := DurableKeys(t);
    RetainedPrefix(durable,
                   Keep(t.deferred.keys, t.deferred.vals.Keys - SetOf(durable)),
                   Keep(t.completed.keys, t.completed.vals.Keys - SetOf(durable) - t.deferred.vals.Keys));
  }

  lemma RetainedPrefix(durable: seq<Token>, deferred: seq<Token>, completed: seq<Token>)
    requires |durable| <= MAX_CORRELATED_PURCHASES
    ensures var r := SetOf(Take(durable + deferred + completed, MAX_CORRELATED_PURCHASES));
            |r| <= MAX_CORRELATED_PURCHASES && SetOf(durable) <= r
  {
    var order := durable + deferred + completed;
    SetOfSize(Take(order, MAX_CORRELATED_PURCHASES));
    forall k | k in durable
      ensures k in Take(order, MAX_CORRELATED_PURCHASES)
    {
      var i :| 0 <= i < |durable| && durable[i] == k;
      assert order[i] == k;
      TakeMembers(order, MAX_CORRELATED_PURCHASES, k);
    }
  }

  lemma {:induction false} SetOfSize<K(!new)>(keys: seq<K>)
    ensures |SetOf(keys)| <= |keys|
  {
    if keys == [] {
      assert SetOf(keys) == {};
    } else {
      SetOfSize(keys[1..]);
      assert SetOf(keys) == SetOf(keys[1..]) + {keys[0]};
    }
  }

  lemma OverflowTables(t: Tables)
    requires TablesOk(t) && |DurableTokens(t)| <= MAX_CORRELATED_PURCHASES
    ensures var cut := Tables(t.deferred.Restrict(Retained(t)), t.completed.Restrict(Retained(t)));
            && TablesOk(cut)
            && (forall k :: WhereIn(cut, k) == if k in Retained(t) then WhereIn(t, k) else Unknown)
            && DurableTokens(cut) == DurableTokens(t)
            && |cut.deferred.keys| + |cut.completed.keys| <= MAX_CORRELATED_PURCHASES
  {
    var r := Retained(t);
    var cut := Tables(t.deferred.Restrict(r), t.completed.Restrict(r));
    RestrictKeepsTables(t, r, r);
    RetainedTokens(t);
    CutPlaces(t, cut, r);
    TableSizes(cut);
    SubsetSize(Tokens(cut), r);
  }

  lemma CutPlaces(t: Tables, cut: Tables, r: set<Token>)
    requires cut == Tables(t.deferred.Restrict(r), t.completed.Restrict(r))
    requires DurableTokens(t) <= r
    ensures forall k :: WhereIn(cut, k) == if k in r then WhereIn(t, k) else Unknown
    ensures DurableTokens(cut) == DurableTokens(t)
  {
    forall k ensures DurableIn(cut, k) <==> DurableIn(t, k) {
      assert WhereIn(cut, k) == if k in r then WhereIn(t, k) else Unknown;
      assert DurableIn(t, k) ==> k in DurableTokens(t);
    }
    SameDurableTokens(cut, t);
  }

  lemma PrepareStep(s: Store, product: ProductId, snapshots: seq<OwnedPurchaseSnapshot>, w: Write)
    requires Inv(s) && Written(w.left)
    ensures var (next, result) := Prepare(s, product, snapshots, w);
            && Keeps(s, next) && next.purchases == s.purchases
            && (s.purchases.keys != [] ==> next == s && result == READY)
            && (result.READY? || result.PAYMENT_PENDING? ==> s.purchases.keys != [] || !next.failed)
            && (s.purchases.keys == [] ==>
                  && (forall k :: Where(next, k) == Unknown || Where(next, k) == PreparedPlace(s, product, snapshots, k))
                  && (forall k :: IsDurableAt(s, k) ==> Where(next, k) == PreparedPlace(s, product, snapshots, k))
                  && (result.READY? || result.PAYMENT_PENDING? ==>
                        && (forall k :: Where(next, k) == PreparedPlace(s, product, snapshots, k))
                        && |next.deferred.keys| + |next.completed.keys| < MAX_CORRELATED_PURCHASES))
  {
    if s.purchases.keys == [] {
      var t := Rebuilt(s, product, snapshots);
      RebuiltTables(s, product, snapshots);
      RebuiltDurables(s, product, snapshots, t);
      TableSizes(TablesOf(s));
      SubsetSize(DurableTokens(TablesOf(s)), Tokens(TablesOf(s)));
      TableSizes(t);
      if CorrelationCount(t) >= MAX_CORRELATED_PURCHASES {
        PrepareOverflow(s, product, snapshots, w);
      } else {
        SettleKeeps(s, t, w);
        PersistFacts(s.(deferred := t.deferred, completed := t.completed), t, false, w);
      }
    }
  }

  lemma PrepareOverflow(s: Store, product: ProductId, snapshots: seq<OwnedPurchaseSnapshot>, w: Write)
    requires Inv(s) && Written(w.left) && s.purchases.keys == []
    requires var t := Rebuilt(s, product, snapshots);
             && TablesOk(t) && |DurableTokens(t)| <= MAX_CORRELATED_PURCHASES
             && DurableTokens(TablesOf(s)) == DurableTokens(t)
             && CorrelationCount(t) >= MAX_CORRELATED_PURCHASES
             && forall k :: WhereIn(t, k) == PreparedPlace(s, product, snapshots, k)
    ensures var (next, result) := Prepare(s, product, snapshots, w);
            && Keeps(s, next) && next.purchases == s.purchases && !result.READY? && !result.PAYMENT_PENDING?
            && (forall k :: Where(next, k) == Unknown || Where(next, k) == PreparedPlace(s, product, snapshots, k))
            && (forall k :: IsDurableAt(s, k) ==> Where(next, k) == PreparedPlace(s, product, snapshots, k))
  {
    var t := Rebuilt(s, product, snapshots);
    var cut := Tables(t.deferred.Restrict(Retained(t)), t.completed.Restrict(Retained(t)));
    OverflowTables(t);
    SettleKeeps(s, cut, w);
    PlacesAfterCut(s, product, snapshots, t, cut);
  }

  lemma PlacesAfterCut(s: Store, product: ProductId, snapshots: seq<OwnedPurchaseSnapshot>, t: Tables, cut: Tables)
    requires forall k :: WhereIn(t, k) == PreparedPlace(s, product, snapshots, k)
    requires forall k :: WhereIn(cut, k) == if k in Retained(t) then WhereIn(t, k) else Unknown
    requires DurableTokens(cut) == DurableTokens(t) == DurableTokens(TablesOf(s))
    ensures forall k :: WhereIn(cut, k) == Unknown || WhereIn(cut, k) == PreparedPlace(s, product, snapshots, k)
    ensures forall k :: IsDurableAt(s, k) ==> WhereIn(cut, k) == PreparedPlace(s, product, snapshots, k)
  {
    forall k | IsDurableAt(s, k)
      ensures WhereIn(cut, k) == PreparedPlace(s, product, snapshots, k)
    {
      assert DurableIn(TablesOf(s), k) && DurableIn(cut, k);
    }
  }
}
