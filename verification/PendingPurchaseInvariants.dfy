/**
 * What every operation keeps, and where it leaves one token.
 */
module PendingPurchaseInvariants {
  import opened Options
  import opened LinkedMaps
  import opened PurchaseTypes
  import opened PendingPurchaseModel

  // ---- Where a token is ----------------------------------------------------------------

  datatype Place = Unknown | InDeferred(c: CorrelatedPurchase) | InCompleted(c: CorrelatedPurchase)

  function WhereIn(t: Tables, token: Token): Place {
    if token in t.deferred.vals then InDeferred(t.deferred.vals[token])
    else if token in t.completed.vals then InCompleted(t.completed.vals[token])
    else Unknown
  }

  function Where(s: Store, token: Token): Place {
    WhereIn(Tables(s.deferred, s.completed), token)
  }

  predicate IsDurableAt(s: Store, token: Token) {
    s.Existing(token).Some? && s.Existing(token).value.isDurable
  }

  // ---- The invariant -------------------------------------------------------------------

  ghost predicate TablesOk(t: Tables) {
    && t.deferred.Valid() && t.completed.Valid()
    && (forall k :: k in t.deferred.vals ==> k !in t.completed.vals)
    && (forall k :: k in t.deferred.vals ==> RecordOk(k, t.deferred.vals[k]))
    && (forall k :: k in t.completed.vals ==> RecordOk(k, t.completed.vals[k]))
  }

  predicate RecordOk(t: Token, c: CorrelatedPurchase) {
    && c.purchaseToken == t
    && (c.context.Some? ==> c.isDurable)
    && (c.isDurable ==> !IsBlank(t))
  }

  function Tokens(t: Tables): set<Token> {
    t.deferred.vals.Keys + t.completed.vals.Keys
  }

  /** Shape and capacity, whatever the journal holds. */
  ghost predicate Inv(s: Store) {
    && s.purchases.Valid()
    && |s.purchases.keys| <= 1
    && TablesOk(Tables(s.deferred, s.completed))
    && |s.purchases.keys| + |s.deferred.keys| + |s.completed.keys| <= MAX_CORRELATED_PURCHASES
  }

  /** The journal is the durable records, unless a failed write is being reported. */
  ghost predicate JournalExact(s: Store) {
    !s.failed ==> s.journal == Readable(DurableMetadata(s.deferred, s.completed)) && Clean(s.journal.records)
  }

  // ---- Sizes ---------------------------------------------------------------------------

  lemma TableSizes(t: Tables)
    requires TablesOk(t)
    ensures |t.deferred.keys| + |t.completed.keys| == |Tokens(t)| == CorrelationCount(t)
  {
    ValidSize(t.deferred);
    ValidSize(t.completed);
    assert t.deferred.vals.Keys !! t.completed.vals.Keys;
    PlusValid(t.deferred, t.completed);
    ValidSize(t.deferred.Plus(t.completed));
    assert t.deferred.Plus(t.completed).vals.Keys == Tokens(t);
  }

  lemma FewerTokens(s: Store, t: Tables)
    requires Inv(s) && TablesOk(t) && Tokens(t) <= Tokens(Tables(s.deferred, s.completed))
    ensures |t.deferred.keys| + |t.completed.keys| <= |s.deferred.keys| + |s.completed.keys|
  {
    TableSizes(t);
    TableSizes(Tables(s.deferred, s.completed));
    SubsetSize(Tokens(t), Tokens(Tables(s.deferred, s.completed)));
  }

  // ---- Rebuilding loops, one token at a time -------------------------------------------

  lemma PutDeferredKeepsTables(t: Tables, token: Token, c: CorrelatedPurchase)
    requires TablesOk(t) && RecordOk(token, c)
    ensures TablesOk(t.PutDeferred(token, c))
    ensures forall k :: WhereIn(t.PutDeferred(token, c), k) == if k == token then InDeferred(c) else WhereIn(t, k)
  {
    PutValid(t.deferred, token, c);
    RestrictValid(t.completed, t.completed.vals.Keys - {token});
  }

  lemma PutCompletedKeepsTables(t: Tables, token: Token, c: CorrelatedPurchase)
    requires TablesOk(t) && RecordOk(token, c)
    ensures TablesOk(t.PutCompleted(token, c))
    ensures forall k :: WhereIn(t.PutCompleted(token, c), k) == if k == token then InCompleted(c) else WhereIn(t, k)
  {
    PutValid(t.completed, token, c);
    RestrictValid(t.deferred, t.deferred.vals.Keys - {token});
  }

  lemma AddKeepsTables(t: Tables, token: Token, c: CorrelatedPurchase)
    requires TablesOk(t) && RecordOk(token, c)
    ensures token !in t.deferred.vals ==>
              && TablesOk(t.(completed := t.completed.Put(token, c)))
              && forall k :: WhereIn(t.(completed := t.completed.Put(token, c)), k)
                             == if k == token then InCompleted(c) else WhereIn(t, k)
    ensures token !in t.completed.vals ==>
              && TablesOk(t.(deferred := t.deferred.Put(token, c)))
              && forall k :: WhereIn(t.(deferred := t.deferred.Put(token, c)), k)
                             == if k == token then InDeferred(c) else WhereIn(t, k)
  {
    PutValid(t.deferred, token, c);
    PutValid(t.completed, token, c);
  }

  lemma RestrictKeepsTables(t: Tables, d: set<Token>, c: set<Token>)
    requires TablesOk(t)
    ensures TablesOk(Tables(t.deferred.Restrict(d), t.completed.Restrict(c)))
  {
    RestrictValid(t.deferred, d);
    RestrictValid(t.completed, c);
  }

  // ---- Preflight, pointwise ------------------------------------------------------------

  /** Where one observation puts its token. */
  function RecordedPlace(s: Store, o: OwnedPurchaseSnapshot): Place {
    if o.state.PENDING? then InDeferred(Recorded(s, o)) else InCompleted(Recorded(s, o))
  }

  lemma {:induction false} RecordObservedAt(s: Store, relevant: seq<OwnedPurchaseSnapshot>, tokens: seq<Token>, acc: Tables)
    requires TablesOk(Tables(s.deferred, s.completed)) && TablesOk(acc)
    requires forall t :: t in tokens ==> Observed(relevant, t).Some?
    ensures var r := RecordObserved(s, relevant, tokens, acc);
            && TablesOk(r)
            && forall t :: WhereIn(r, t) == if t in tokens then RecordedPlace(s, Observed(relevant, t).value)
                                            else WhereIn(acc, t)
  {
    if tokens != [] {
      var front, t := tokens[..|tokens| - 1], tokens[|tokens| - 1];
      assert tokens == front + [t];
      RecordObservedAt(s, relevant, front, acc);
      var before, o := RecordObserved(s, relevant, front, acc), Observed(relevant, t).value;
      if o.state.PENDING? {
        PutDeferredKeepsTables(before, t, Recorded(s, o));
      } else {
        PutCompletedKeepsTables(before, t, Recorded(s, o));
      }
    }
  }

  lemma {:induction false} RetainDurableAt(durable: Correlations, tokens: seq<Token>, acc: Tables)
    requires TablesOk(acc)
    requires forall t :: t in durable.vals ==> RecordOk(t, durable.vals[t])
    ensures var r := RetainDurable(durable, tokens, acc);
            && TablesOk(r)
            && forall t :: WhereIn(r, t) == if t in tokens && t in durable.vals && WhereIn(acc, t).Unknown?
                                            then InCompleted(durable.vals[t]) else WhereIn(acc, t)
  {
    if tokens != [] {
      var front, t := tokens[..|tokens| - 1], tokens[|tokens| - 1];
      assert tokens == front + [t];
      RetainDurableAt(durable, front, acc);
      if t in durable.vals {
        AddKeepsTables(RetainDurable(durable, front, acc), t, durable.vals[t]);
      }
    }
  }

  /**
   * What preflight decides about one token, stated without the loops: an observed token that
   * owns the product is recorded; an unobserved one survives if it concerns another product
   * (where it was) or if it is durable (as completed).
   */
  function PreparedPlace(s: Store, product: ProductId, snapshots: seq<OwnedPurchaseSnapshot>, t: Token): Place {
    match Observed(Owning(snapshots, product), t)
    case Some(o) => RecordedPlace(s, o)
    case None =>
      match Where(s, t)
      case Unknown => Unknown
      case InDeferred(c) => if product !in c.productIds then InDeferred(c)
                            else if c.isDurable then InCompleted(c) else Unknown
      case InCompleted(c) => if product !in c.productIds || c.isDurable then InCompleted(c) else Unknown
  }

  lemma WithoutAt(s: Store, product: ProductId, t: Token)
    requires TablesOk(Tables(s.deferred, s.completed))
    ensures var kept := Tables(Without(s.deferred, product), Without(s.completed, product));
            && TablesOk(kept)
            && WhereIn(kept, t) == if Where(s, t).Unknown? || product in Where(s, t).c.productIds then Unknown
                                   else Where(s, t)
  {
    RestrictKeepsTables(Tables(s.deferred, s.completed),
                        set k | k in s.deferred.vals && product !in s.deferred.vals[k].productIds,
                        set k | k in s.completed.vals && product !in s.completed.vals[k].productIds);
  }

  lemma DurableCorrelationsAt(s: Store, t: Token)
    requires TablesOk(Tables(s.deferred, s.completed))
    ensures t in DurableCorrelations(s).vals <==> IsDurableAt(s, t)
    ensures t in DurableCorrelations(s).vals ==> DurableCorrelations(s).vals[t] == Where(s, t).c
  {
  }

  lemma DurableCorrelationsOk(s: Store)
    requires TablesOk(Tables(s.deferred, s.completed))
    ensures DurableCorrelations(s).Valid()
    ensures forall t :: t in DurableCorrelations(s).vals ==> RecordOk(t, DurableCorrelations(s).vals[t])
  {
    var all := s.deferred.Plus(s.completed);
    PlusValid(s.deferred, s.completed);
    RestrictValid(all, set t | t in all.vals && all.vals[t].isDurable);
  }

  lemma AfterRecordingAt(s: Store, product: ProductId, snapshots: seq<OwnedPurchaseSnapshot>, t: Token)
    requires TablesOk(Tables(s.deferred, s.completed))
    ensures TablesOk(AfterRecording(s, product, snapshots))
    ensures WhereIn(AfterRecording(s, product, snapshots), t) ==
            match Observed(Owning(snapshots, product), t)
            case Some(o) => RecordedPlace(s, o)
            case None => if Where(s, t).Unknown? || product in Where(s, t).c.productIds then Unknown else Where(s, t)
  {
    var relevant := Owning(snapshots, product);
    WithoutAt(s, product, t);
    RecordObservedAt(s, relevant, TokensOf(relevant), Tables(Without(s.deferred, product), Without(s.completed, product)));
  }

  lemma RebuiltAt(s: Store, product: ProductId, snapshots: seq<OwnedPurchaseSnapshot>, t: Token)
    requires TablesOk(Tables(s.deferred, s.completed))
    ensures TablesOk(Rebuilt(s, product, snapshots))
    ensures WhereIn(Rebuilt(s, product, snapshots), t) == PreparedPlace(s, product, snapshots, t)
  {
    var durable := DurableCorrelations(s);
    AfterRecordingAt(s, product, snapshots, t);
    DurableCorrelationsOk(s);
    DurableCorrelationsAt(s, t);
    RetainDurableAt(durable, durable.keys, AfterRecording(s, product, snapshots));
  }

  // ---- Reconciliation, pointwise -------------------------------------------------------

  /**
   * What reconciliation decides about one token: nothing is added; an observation moves the
   * record to the observed state; unobserved records stay, as completed, unless they were
   * deferred without anything durable to lose.
   */
  function ReconciledPlace(s: Store, snapshots: seq<OwnedPurchaseSnapshot>, t: Token): Place {
    if Where(s, t).Unknown? then Unknown
    else
      var c := Where(s, t).c;
      match Observed(snapshots, t)
      case Some(o) => if o.state.PENDING? then InDeferred(ValidatedAgainst(c, o)) else InCompleted(ValidatedAgainst(c, o))
      case None => if Where(s, t).InCompleted? || c.isDurable then InCompleted(c) else Unknown
  }

  predicate ReportsContext(s: Store, snapshots: seq<OwnedPurchaseSnapshot>, t: Token) {
    Where(s, t) != Unknown && Observed(snapshots, t).Some? && Observed(snapshots, t).value.state.PURCHASED?
  }

  /** The loops have handled the tokens in `done`; unhandled deferred ones are not yet placed. */
  predicate ReconciledToken(s: Store, snapshots: seq<OwnedPurchaseSnapshot>, isDone: bool, r: Reconciliation, t: Token) {
    && WhereIn(r.tables, t) == (if isDone then ReconciledPlace(s, snapshots, t)
                                else if t in s.deferred.vals then Unknown else Where(s, t))
    && (t in r.contexts <==> isDone && ReportsContext(s, snapshots, t))
    && (t in r.contexts ==> r.contexts[t] == ValidatedAgainst(Where(s, t).c, Observed(snapshots, t).value).context)
  }

  ghost predicate ReconciledUpTo(s: Store, snapshots: seq<OwnedPurchaseSnapshot>, done: set<Token>, r: Reconciliation) {
    && TablesOk(r.tables)
    && forall t :: ReconciledToken(s, snapshots, t in done, r, t)
  }

  lemma ReconcileOneDeferredTables(
    s: Store, snapshots: seq<OwnedPurchaseSnapshot>, t: Token, acc: Reconciliation)
    requires TablesOk(Tables(s.deferred, s.completed)) && TablesOk(acc.tables)
    requires t in s.deferred.vals && WhereIn(acc.tables, t) == Unknown
    ensures var r := ReconcileOneDeferred(s, snapshots, t, acc);
            && TablesOk(r.tables)
            && WhereIn(r.tables, t) == ReconciledPlace(s, snapshots, t)
            && forall k :: k != t ==> WhereIn(r.tables, k) == WhereIn(acc.tables, k)
  {
    var c := s.deferred.vals[t];
    match Observed(snapshots, t)
    case None => AddKeepsTables(acc.tables, t, c);
    case Some(o) => AddKeepsTables(acc.tables, t, ValidatedAgainst(c, o));
  }

  lemma ReconcileOneCompletedTables(
    s: Store, snapshots: seq<OwnedPurchaseSnapshot>, t: Token, acc: Reconciliation)
    requires TablesOk(Tables(s.deferred, s.completed)) && TablesOk(acc.tables)
    requires t in s.completed.vals && WhereIn(acc.tables, t) == InCompleted(s.completed.vals[t])
    ensures var r := ReconcileOneCompleted(s, snapshots, t, acc);
            && TablesOk(r.tables)
            && WhereIn(r.tables, t) == ReconciledPlace(s, snapshots, t)
            && forall k :: k != t ==> WhereIn(r.tables, k) == WhereIn(acc.tables, k)
  {
    var c := s.completed.vals[t];
    match Observed(snapshots, t)
    case None =>
    case Some(o) =>
      var validated := ValidatedAgainst(c, o);
      if o.state.PENDING? {
        PutDeferredKeepsTables(acc.tables, t, validated);
        PutMinus(acc.tables, t, validated);
      } else {
        AddKeepsTables(acc.tables, t, validated);
      }
  }

  lemma PutMinus(t: Tables, token: Token, c: CorrelatedPurchase)
    ensures t.PutDeferred(token, c) == Tables(t.deferred.Put(token, c), t.completed.Minus(token))
  {
  }

  lemma ReconcileOneDeferredAt(
    s: Store, snapshots: seq<OwnedPurchaseSnapshot>, t: Token, done: set<Token>, acc: Reconciliation)
    requires TablesOk(Tables(s.deferred, s.completed))
    requires t in s.deferred.vals && t !in done
    requires ReconciledUpTo(s, snapshots, done, acc)
    ensures ReconciledUpTo(s, snapshots, done + {t}, ReconcileOneDeferred(s, snapshots, t, acc))
  {
    assert ReconciledToken(s, snapshots, false, acc, t);
    ReconcileOneDeferredTables(s, snapshots, t, acc);
    forall k ensures ReconciledToken(s, snapshots, k in done + {t}, ReconcileOneDeferred(s, snapshots, t, acc), k) {
      assert ReconciledToken(s, snapshots, k in done, acc, k);
    }
  }

  lemma {:induction false} ReconcileDeferredAt(s: Store, snapshots: seq<OwnedPurchaseSnapshot>, tokens: seq<Token>)
    requires TablesOk(Tables(s.deferred, s.completed))
    requires forall t :: t in tokens ==> t in s.deferred.vals
    requires Distinct(tokens)
    ensures ReconciledUpTo(s, snapshots, SetOf(tokens), ReconcileDeferred(s, snapshots, tokens))
  {
    if tokens != [] {
      var front, t := tokens[..|tokens| - 1], tokens[|tokens| - 1];
      assert tokens == front + [t] && t !in front;
      assert SetOf(tokens) == SetOf(front) + {t};
      ReconcileDeferredAt(s, snapshots, front);
      ReconcileOneDeferredAt(s, snapshots, t, SetOf(front), ReconcileDeferred(s, snapshots, front));
    }
  }

  lemma ReconcileOneCompletedAt(
    s: Store, snapshots: seq<OwnedPurchaseSnapshot>, t: Token, done: set<Token>, acc: Reconciliation)
    requires TablesOk(Tables(s.deferred, s.completed))
    requires t in s.completed.vals && t !in done
    requires ReconciledUpTo(s, snapshots, done, acc)
    ensures ReconciledUpTo(s, snapshots, done + {t}, ReconcileOneCompleted(s, snapshots, t, acc))
  {
    assert ReconciledToken(s, snapshots, false, acc, t);
    ReconcileOneCompletedTables(s, snapshots, t, acc);
    forall k ensures ReconciledToken(s, snapshots, k in done + {t}, ReconcileOneCompleted(s, snapshots, t, acc), k) {
      assert ReconciledToken(s, snapshots, k in done, acc, k);
    }
  }

  lemma {:induction false} ReconcileCompletedAt(
    s: Store, snapshots: seq<OwnedPurchaseSnapshot>, tokens: seq<Token>, done: set<Token>, acc: Reconciliation)
    requires TablesOk(Tables(s.deferred, s.completed))
    requires forall t :: t in tokens ==> t in s.completed.vals && t !in done
    requires Distinct(tokens) && ReconciledUpTo(s, snapshots, done, acc)
    ensures ReconciledUpTo(s, snapshots, done + SetOf(tokens), ReconcileCompleted(s, snapshots, tokens, acc))
  {
    if tokens == [] {
      assert done + SetOf(tokens) == done;
    } else {
      var front, t := tokens[..|tokens| - 1], tokens[|tokens| - 1];
      assert tokens == front + [t] && t !in front;
      assert done + SetOf(tokens) == done + SetOf(front) + {t};
      ReconcileCompletedAt(s, snapshots, front, done, acc);
      ReconcileOneCompletedAt(s, snapshots, t, done + SetOf(front), ReconcileCompleted(s, snapshots, front, acc));
    }
  }

  lemma ReconciledAt(s: Store, snapshots: seq<OwnedPurchaseSnapshot>, t: Token)
    requires TablesOk(Tables(s.deferred, s.completed))
    ensures TablesOk(Reconciled(s, snapshots).tables)
    ensures ReconciledToken(s, snapshots, true, Reconciled(s, snapshots), t)
  {
    var done := SetOf(s.deferred.keys) + SetOf(s.completed.keys);
    ReconcileDeferredAt(s, snapshots, s.deferred.keys);
    ReconcileCompletedAt(s, snapshots, s.completed.keys, SetOf(s.deferred.keys),
                         ReconcileDeferred(s, snapshots, s.deferred.keys));
    assert ReconciledToken(s, snapshots, t in done, Reconciled(s, snapshots), t);
    assert t !in done ==> Where(s, t).Unknown?;
  }
}
