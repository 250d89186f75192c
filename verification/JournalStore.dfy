/** The journal's property table, filled record by record, and the preference it is stored in. */
module JournalStore {
  import opened Options
  import opened PurchaseTypes
  import opened Decimals
  import opened JournalKeys
  import opened JournalCodec

  class PropertyTable {
    var entries: Properties

    constructor ()
      ensures entries == map[]
    {
      entries := map[];
    }

    method SetProperty(k: Key, v: string)
      modifies this
      ensures entries == Set(old(entries), k, v)
    {
      entries := entries[Name(k) := v];
    }

    method SetOptionalProperty(k: Key, v: Option<string>)
      modifies this
      ensures entries == SetOptional(old(entries), k, v)
    {
      if v.Some? { SetProperty(k, v.value); }
    }

    method WriteReceipt(i: nat, c: NativeReceiptContext)
      modifies this
      ensures entries == WriteReceiptContext(old(entries), i, c)
    {
      SetOptionalProperty(At(i, Offering), c.presentedOfferingIdentifier);
      SetOptionalProperty(At(i, Placement), c.presentedPlacementIdentifier);
      SetOptionalProperty(At(i, PriceMicros), PrintLong(c.priceMicros));
      SetOptionalProperty(At(i, Currency), c.currency);
      SetOptionalProperty(At(i, NormalDuration), c.normalDuration);
      assert entries == WriteReceiptFields(old(entries), i, c);
      SetProperty(At(i, SdkOriginated), PrintBool(c.sdkOriginated));
      SetProperty(At(i, HasTargeting), PrintBool(c.appliedTargetingRule.Some?));
      if c.appliedTargetingRule.Some? {
        SetProperty(At(i, RuleId), c.appliedTargetingRule.value.ruleId);
        SetProperty(At(i, Revision), PrintInt(c.appliedTargetingRule.value.revision));
      }
    }

    method WritePurchaseContext(i: nat, c: NativePurchaseContext)
      modifies this
      ensures entries == WriteContext(old(entries), i, c)
    {
      SetProperty(At(i, ContextProductId), c.productId);
      SetOptionalProperty(At(i, BasePlanId), c.basePlanId);
      SetOptionalProperty(At(i, OfferId), c.offerId);
      SetProperty(At(i, HasReceipt), PrintBool(c.receiptContext.Some?));
      if c.receiptContext.Some? { WriteReceipt(i, c.receiptContext.value); }
    }

    method WriteRecord(i: nat, m: Metadata)
      modifies this
      ensures entries == WriteMetadata(old(entries), i, m)
    {
      SetProperty(At(i, PurchaseToken), m.purchaseToken);
      SetProperty(At(i, ProductCount), PrintInt(|m.productIds|));
      ghost var before := entries;
      for j := 0 to |m.productIds|
        invariant entries == WriteProducts(before, i, m.productIds[..j])
      {
        assert m.productIds[..j + 1][..j] == m.productIds[..j];
        SetProperty(At(i, Product(j)), m.productIds[j]);
      }
      assert m.productIds[..|m.productIds|] == m.productIds;
      SetProperty(At(i, HasContext), PrintBool(m.context.Some?));
      if m.context.Some? { WritePurchaseContext(i, m.context.value); }
    }
  }

  method EncodeMetadata(metadata: seq<Metadata>) returns (properties: PropertyTable)
    ensures fresh(properties) && properties.entries == Encode(metadata)
  {
    properties := new PropertyTable();
    properties.SetProperty(Version, PrintInt(SCHEMA_VERSION));
    properties.SetProperty(Count, PrintInt(|metadata|));
    for i := 0 to |metadata|
      invariant fresh(properties)
      invariant properties.entries == WriteAll(Header(|metadata|), metadata[..i])
    {
      assert metadata[..i + 1][..i] == metadata[..i];
      properties.WriteRecord(i, metadata[i]);
    }
    assert metadata[..|metadata|] == metadata;
  }

  /** `(0 until count).map { requireNotNull(..) }`. */
  method DecodeRecords(p: Properties, count: nat) returns (metadata: Option<seq<Metadata>>)
    ensures metadata == ReadAll(RecordsOf(p), count)
  {
    var read: seq<Metadata> := [];
    for i := 0 to count
      invariant ReadAll(RecordsOf(p), i) == Some(read)
    {
      var record := ToMetadata(p, i);
      if record.None? {
        UnreadableRecord(RecordsOf(p), i, count);
        return None;
      }
      read := read + [record.value];
    }
    metadata := Some(read);
  }

  lemma {:induction false} UnreadableRecord(read: RecordReader, i: nat, count: nat)
    requires i < count && read(i).None?
    ensures ReadAll(read, count).None?
  {
    if i < count - 1 { UnreadableRecord(read, i, count - 1); }
  }

  class LocalTransactionMetadataStore {
    var stored: Preference

    constructor (stored: Preference)
      ensures this.stored == stored
    {
      this.stored := stored;
    }

    method LoadAll() returns (r: LoadResult)
      ensures r == LoadWithStatus(stored)
    {
      match stored
      case Absent => return LoadResult([], false);
      case NotText => return LoadResult([], true);
      case Text(exceeds, properties) =>
        if exceeds || properties.None? { return LoadResult([], true); }
        var p := properties.value;
        var count := GetInt(p, Count, MIN_INT, MAX_INT);
        if GetInt(p, Version, MIN_INT, MAX_INT) != Some(SCHEMA_VERSION) { return LoadResult([], true); }
        if count.None? || !(0 <= count.value <= MAX_PERSISTED_TRANSACTIONS) { return LoadResult([], true); }
        var metadata := DecodeRecords(p, count.value);
        r := if metadata.Some? then LoadResult(metadata.value, false) else LoadResult([], true);
    }

    method ReplaceAll(metadata: seq<Metadata>, exceeds: Properties -> bool, commits: bool, left: Preference) returns (ok: bool)
      modifies this
      ensures (stored, ok) == Replace(old(stored), metadata, exceeds, commits, left)
    {
      if |metadata| > MAX_PERSISTED_TRANSACTIONS { return false; }
      for i := 0 to |metadata|
        invariant forall k :: 0 <= k < i ==> Valid(metadata[k])
      {
        if !Valid(metadata[i]) { return false; }
      }
      var properties := EncodeMetadata(metadata);
      if exceeds(properties.entries) { return false; }
      stored := if commits then Text(false, Some(properties.entries)) else left;
      ok := commits;
    }
  }
}
