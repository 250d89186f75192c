/**
 * The journal list as a function of the durable records: what it contains, what leaves it
 * unchanged, and what one persist attempt makes of it.
 */
module PendingPurchaseJournal {
  import opened Options
  import opened LinkedMaps
  import opened PurchaseTypes
  import opened PendingPurchaseModel
  import opened PendingPurchaseInvariants

  predicate DurableIn(t: Tables, k: Token) {
    WhereIn(t, k) != Unknown && WhereIn(t, k).c.isDurable
  }

  function DurableTokens(t: Tables): (r: set<Token>)
    ensures forall k :: k in r <==> DurableIn(t, k)
  {
    set k | k in Tokens(t) && DurableIn(t, k)
  }

  // ---- The list ------------------------------------------------------------------------

  lemma {:induction false} MetadataTokens(keys: seq<Token>, vals: map<Token, CorrelatedPurchase>)
    requires Distinct(keys)
    requires forall k :: k in vals ==> vals[k].purchaseToken == k
    ensures var m := Metadata(keys, vals);
            && (forall r :: r in m ==> r.purchaseToken in keys && r.purchaseToken in vals &&
                                       vals[r.purchaseToken].isDurable && r == ToMetadata(vals[r.purchaseToken]))
            && (forall i, j :: 0 <= i < j < |m| ==> m[i].purchaseToken != m[j].purchaseToken)
            && (forall k :: k in keys && k in vals && vals[k].isDurable ==> ToMetadata(vals[k]) in m)
  {
    if keys != [] {
      assert keys[0] !in keys[1..];
      MetadataTokens(keys[1..], vals);
      var m, rest := Metadata(keys, vals), Metadata(keys[1..], vals);
      if keys[0] in vals && vals[keys[0]].isDurable {
        assert m == [ToMetadata(vals[keys[0]])] + rest;
        forall i, j | 0 <= i < j < |m|
          ensures m[i].purchaseToken != m[j].purchaseToken
        {
          assert m[j] == rest[j - 1] && rest[j - 1] in rest;
        }
      }
    }
  }

  lemma {:induction false} MetadataKeep(keys: seq<Token>, vals: map<Token, CorrelatedPurchase>, kept: set<Token>)
    requires forall k :: k in keys && k in vals && vals[k].isDurable ==> k in kept
    ensures Metadata(keys, vals) == Metadata(Keep(keys, kept), vals)
  {
    if keys != [] {
      MetadataKeep(keys[1..], vals, kept);
      if keys[0] in kept {
        assert Keep(keys, kept)[1..] == Keep(keys[1..], kept);
      } else {
        assert Keep(keys, kept) == Keep(keys[1..], kept);
      }
    }
  }

  lemma {:induction false} MetadataFrame(
    keys: seq<Token>, a: map<Token, CorrelatedPurchase>, b: map<Token, CorrelatedPurchase>)
    requires forall k :: k in keys ==> k in a && k in b && a[k] == b[k]
    ensures Metadata(keys, a) == Metadata(keys, b)
  {
    if keys != [] {
      MetadataFrame(keys[1..], a, b);
    }
  }

  /** The journal depends only on the durable keys, in order, and their records. */
  lemma DurableMetadataByKeys(t: Tables)
    requires TablesOk(t)
    ensures var durable := DurableTokens(t);
            DurableMetadata(t.deferred, t.completed) ==
            Metadata(Keep(t.deferred.keys, durable) + Keep(t.completed.keys, durable),
                     t.deferred.vals + t.completed.vals)
  {
    var all, durable := t.deferred.Plus(t.completed), DurableTokens(t);
    var later := t.completed.vals.Keys - t.deferred.vals.Keys;
    assert forall k :: k in all.keys && k in all.vals && all.vals[k].isDurable ==> k in durable;
    MetadataKeep(all.keys, all.vals, durable);
    KeepConcat(t.deferred.keys, Keep(t.completed.keys, later), durable);
    KeepEverything(t.completed.keys, later);
  }

  /** Two tables whose durable records, and their order, are the same. */
  ghost predicate SameDurables(a: Tables, b: Tables) {
    && DurableTokens(a) == DurableTokens(b)
    && Keep(a.deferred.keys, DurableTokens(a)) == Keep(b.deferred.keys, DurableTokens(a))
    && Keep(a.completed.keys, DurableTokens(a)) == Keep(b.completed.keys, DurableTokens(a))
    && forall k :: k in DurableTokens(a) ==> WhereIn(a, k).c == WhereIn(b, k).c
  }

  lemma SameJournal(a: Tables, b: Tables)
    requires TablesOk(a) && TablesOk(b) && SameDurables(a, b)
    ensures DurableMetadata(a.deferred, a.completed) == DurableMetadata(b.deferred, b.completed)
  {
    DurableMetadataByKeys(a);
    DurableMetadataByKeys(b);
    var durable := DurableTokens(a);
    MetadataFrame(Keep(a.deferred.keys, durable) + Keep(a.completed.keys, durable),
                  a.deferred.vals + a.completed.vals, b.deferred.vals + b.completed.vals);
  }

  lemma DurableMetadataContents(t: Tables)
    requires TablesOk(t)
    ensures var m := DurableMetadata(t.deferred, t.completed);
            && |m| <= |t.deferred.keys| + |t.completed.keys|
            && (forall i, j :: 0 <= i < j < |m| ==> m[i].purchaseToken != m[j].purchaseToken)
            && (forall k :: k in DurableTokens(t) ==> ToMetadata(WhereIn(t, k).c) in m)
            && (forall r :: r in m ==> r.purchaseToken in DurableTokens(t) && r == ToMetadata(WhereIn(t, r.purchaseToken).c))
  {
    var all := t.deferred.Plus(t.completed);
    PlusValid(t.deferred, t.completed);
    MetadataTokens(all.keys, all.vals);
    assert |all.keys| <= |t.deferred.keys| + |t.completed.keys|;
    forall k | k in DurableTokens(t)
      ensures ToMetadata(WhereIn(t, k).c) in DurableMetadata(t.deferred, t.completed)
    {
      assert k in all.keys;
    }
  }

  lemma EmptyMetadata(t: Tables)
    requires TablesOk(t)
    ensures DurableMetadata(t.deferred, t.completed) == [] <==> DurableTokens(t) == {}
  {
    DurableMetadataContents(t);
    var m := DurableMetadata(t.deferred, t.completed);
    if m != [] {
      assert m[0] in m;
    }
    if DurableTokens(t) != {} {
      var k :| k in DurableTokens(t);
      assert ToMetadata(WhereIn(t, k).c) in m;
    }
  }

  // ---- One persist attempt -------------------------------------------------------------

  ghost predicate ExactFor(s: Store, t: Tables) {
    !s.failed ==> s.journal == Readable(DurableMetadata(t.deferred, t.completed)) && Clean(s.journal.records)
  }

  /** `take(32)` never cuts anything, and a reported success leaves exactly the given records. */
  lemma PersistWrites(s: Store, t: Tables, force: bool, w: Write)
    requires TablesOk(t) && |t.deferred.keys| + |t.completed.keys| <= MAX_CORRELATED_PURCHASES
    ensures Take(DurableMetadata(t.deferred, t.completed), MAX_CORRELATED_PURCHASES)
            == DurableMetadata(t.deferred, t.completed)
    ensures DurableTokens(t) != {} || force ==> ExactFor(Persist(s, t.deferred, t.completed, force, w).0, t)
  {
    DurableMetadataContents(t);
    EmptyMetadata(t);
  }

  /** Persisting tables that dropped nothing durable keeps the journal exact. */
  lemma PersistKeepsExact(prior: Tables, s: Store, t: Tables, w: Write)
    requires TablesOk(prior) && TablesOk(t) && |t.deferred.keys| + |t.completed.keys| <= MAX_CORRELATED_PURCHASES
    requires |prior.deferred.keys| + |prior.completed.keys| <= MAX_CORRELATED_PURCHASES
    requires ExactFor(s, prior) && DurableTokens(prior) <= DurableTokens(t)
    ensures ExactFor(Persist(s, t.deferred, t.completed, false, w).0, t)
  {
    PersistWrites(s, t, false, w);
    EmptyMetadata(t);
    EmptyMetadata(prior);
  }
}
