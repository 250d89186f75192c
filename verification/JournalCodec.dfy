/** The Play journal's text: records written as string properties and read back. */
module JournalCodec {
  import opened Options
  import opened LinkedMaps
  import opened PurchaseTypes
  import opened Decimals
  import opened JournalKeys
  import Store = PendingPurchaseModel

  const MAX_PERSISTED_TRANSACTIONS: nat := 32
  const MAX_PERSISTED_IDENTIFIER_LENGTH: nat := 512
  const SCHEMA_VERSION := 1
  const MAX_TOKEN_LENGTH: nat := 8 * 1024
  const MAX_PRODUCTS_PER_TRANSACTION: nat := 32
  const MIN_INT: int := -0x8000_0000
  const MAX_INT: int := 0x7FFF_FFFF

  type Properties = map<string, string>

  /** A Kotlin `Set<String>`: no duplicates, in its iteration order. */
  type ProductSet = s: seq<ProductId> | Distinct(s)

  datatype Metadata = Metadata(purchaseToken: Token, productIds: ProductSet, context: Option<NativePurchaseContext>)

  // ---- Validation ----------------------------------------------------------------------

  /** Kotlin's `String.length`: UTF-16 code units, two for a character beyond the basic plane. */
  function Utf16Length(s: string): (n: nat)
    ensures |s| <= n <= 2 * |s|
  {
    if s == [] then 0 else (if s[0] as int > 0xFFFF then 2 else 1) + Utf16Length(s[1..])
  }

  predicate IsSafeToken(s: string) {
    !IsBlank(s) && Utf16Length(s) <= MAX_TOKEN_LENGTH
  }

  predicate IsSafeIdentifier(s: string) {
    !IsBlank(s) && Utf16Length(s) <= MAX_PERSISTED_IDENTIFIER_LENGTH
  }

  predicate IsSafeOptional(s: Option<string>) {
    s.None? || IsSafeIdentifier(s.value)
  }

  predicate IsValidForPersistence(c: NativeReceiptContext) {
    && IsSafeOptional(c.presentedOfferingIdentifier)
    && IsSafeOptional(c.presentedPlacementIdentifier)
    && IsSafeOptional(c.currency)
    && IsSafeOptional(c.normalDuration)
    && (c.appliedTargetingRule.Some? ==> IsSafeIdentifier(c.appliedTargetingRule.value.ruleId))
    && c.priceMicros.None? == c.currency.None?
    && (c.priceMicros.Some? ==> c.priceMicros.value >= 0)
  }

  predicate IsValidFor(c: NativePurchaseContext, productIds: seq<ProductId>) {
    && IsSafeIdentifier(c.productId)
    && c.productId in productIds
    && IsSafeOptional(c.basePlanId)
    && IsSafeOptional(c.offerId)
    && (c.offerId.None? || c.basePlanId.Some?)
    && (c.basePlanId.Some? || c.receiptContext.Some?)
    && (c.receiptContext.Some? ==> IsValidForPersistence(c.receiptContext.value))
  }

  predicate AreSafeProducts(productIds: seq<ProductId>) {
    && 1 <= |productIds| <= MAX_PRODUCTS_PER_TRANSACTION
    && forall p :: p in productIds ==> IsSafeIdentifier(p)
  }

  predicate Valid(m: Metadata) {
    && IsSafeToken(m.purchaseToken)
    && AreSafeProducts(m.productIds)
    && (m.context.Some? ==> IsValidFor(m.context.value, m.productIds))
  }

  // ---- Properties ----------------------------------------------------------------------

  function Get(p: Properties, k: Key): Option<string> {
    if Name(k) in p then Some(p[Name(k)]) else None
  }

  /** Distinct keys have distinct names, so a write is seen under its own key only. */
  function Set(p: Properties, k: Key, v: string): (r: Properties)
    ensures forall l :: Get(r, l) == if l == k then Some(v) else Get(p, l)
  {
    WriteIsLocal(p, k, v);
    p[Name(k) := v]
  }

  lemma WriteIsLocal(p: Properties, k: Key, v: string)
    ensures forall l :: Get(p[Name(k) := v], l) == if l == k then Some(v) else Get(p, l)
  {
    forall l ensures Get(p[Name(k) := v], l) == if l == k then Some(v) else Get(p, l) {
      if Name(l) == Name(k) { NamesDiffer(l, k); }
    }
  }

  function SetOptional(p: Properties, k: Key, v: Option<string>): Properties {
    if v.Some? then Set(p, k, v.value) else p
  }

  function PrintBool(b: bool): string {
    if b then "true" else "false"
  }

  /** `toBooleanStrictOrNull`. */
  function ParseBool(s: string): Option<bool> {
    if s == "true" then Some(true) else if s == "false" then Some(false) else None
  }

  function PrintLong(n: Option<Long>): Option<string> {
    if n.Some? then Some(PrintInt(n.value)) else None
  }

  // ---- Writing -------------------------------------------------------------------------

  function WriteReceiptFields(p: Properties, i: nat, c: NativeReceiptContext): Properties {
    var p1 := SetOptional(p, At(i, Offering), c.presentedOfferingIdentifier);
    var p2 := SetOptional(p1, At(i, Placement), c.presentedPlacementIdentifier);
    var p3 := SetOptional(p2, At(i, PriceMicros), PrintLong(c.priceMicros));
    var p4 := SetOptional(p3, At(i, Currency), c.currency);
    SetOptional(p4, At(i, NormalDuration), c.normalDuration)
  }

  function WriteTargeting(p: Properties, i: nat, rule: Option<ReceiptTargetingRule>): Properties {
    var p1 := Set(p, At(i, HasTargeting), PrintBool(rule.Some?));
    if rule.None? then p1
    else Set(Set(p1, At(i, RuleId), rule.value.ruleId), At(i, Revision), PrintInt(rule.value.revision))
  }

  function WriteReceiptContext(p: Properties, i: nat, c: NativeReceiptContext): Properties {
    var p1 := Set(WriteReceiptFields(p, i, c), At(i, SdkOriginated), PrintBool(c.sdkOriginated));
    WriteTargeting(p1, i, c.appliedTargetingRule)
  }

  function WriteContextFields(p: Properties, i: nat, c: NativePurchaseContext): Properties {
    var p1 := Set(p, At(i, ContextProductId), c.productId);
    var p2 := SetOptional(p1, At(i, BasePlanId), c.basePlanId);
    SetOptional(p2, At(i, OfferId), c.offerId)
  }

  function WriteContext(p: Properties, i: nat, c: NativePurchaseContext): Properties {
    var p1 := Set(WriteContextFields(p, i, c), At(i, HasReceipt), PrintBool(c.receiptContext.Some?));
    if c.receiptContext.Some? then WriteReceiptContext(p1, i, c.receiptContext.value) else p1
  }

  function WriteProducts(p: Properties, i: nat, productIds: seq<ProductId>): Properties {
    if productIds == [] then p
    else
      var n := |productIds| - 1;
      Set(WriteProducts(p, i, productIds[..n]), At(i, Product(n)), productIds[n])
  }

  function WriteMetadata(p: Properties, i: nat, m: Metadata): Properties {
    var p1 := Set(p, At(i, PurchaseToken), m.purchaseToken);
    var p2 := Set(p1, At(i, ProductCount), PrintInt(|m.productIds|));
    var p3 := WriteProducts(p2, i, m.productIds);
    var p4 := Set(p3, At(i, HasContext), PrintBool(m.context.Some?));
    if m.context.Some? then WriteContext(p4, i, m.context.value) else p4
  }

  function Header(count: nat): Properties {
    Set(Set(map[], Version, PrintInt(SCHEMA_VERSION)), Count, PrintInt(count))
  }

  function WriteAll(p: Properties, metadata: seq<Metadata>): Properties {
    if metadata == [] then p
    else
      var n := |metadata| - 1;
      WriteMetadata(WriteAll(p, metadata[..n]), n, metadata[n])
  }

  function Encode(metadata: seq<Metadata>): Properties {
    WriteAll(Header(|metadata|), metadata)
  }

  // ---- Reading -------------------------------------------------------------------------

  function GetBool(p: Properties, k: Key): Option<bool> {
    if Get(p, k).Some? then ParseBool(Get(p, k).value) else None
  }

  function GetInt(p: Properties, k: Key, least: int, greatest: int): (r: Option<int>)
    ensures r.Some? ==> least <= r.value <= greatest
  {
    if Get(p, k).Some? then ParseInt(Get(p, k).value, least, greatest) else None
  }

  /** The fields that the reader must find, and the ones it may. */
  function ToTargeting(p: Properties, i: nat): Option<ReceiptTargetingRule> {
    var ruleId, revision := Get(p, At(i, RuleId)), GetInt(p, At(i, Revision), MIN_LONG, MAX_LONG);
    if ruleId.None? || revision.None? then None else Some(ReceiptTargetingRule(ruleId.value, revision.value))
  }

  function ToReceiptContext(p: Properties, i: nat): Option<NativeReceiptContext> {
    var hasTargeting := GetBool(p, At(i, HasTargeting));
    if hasTargeting.None? then None
    else
      var targeting := if hasTargeting.value then ToTargeting(p, i) else None;
      var price := GetInt(p, At(i, PriceMicros), MIN_LONG, MAX_LONG);
      var sdkOriginated := GetBool(p, At(i, SdkOriginated));
      if hasTargeting.value && targeting.None? then None
      else if Get(p, At(i, PriceMicros)).Some? && price.None? then None
      else if sdkOriginated.None? then None
      else
        Some(NativeReceiptContext(
          Get(p, At(i, Offering)), Get(p, At(i, Placement)), targeting,
          if price.Some? then Some(price.value) else None,
          Get(p, At(i, Currency)), Get(p, At(i, NormalDuration)), sdkOriginated.value))
  }

  function ToPurchaseContext(p: Properties, i: nat): Option<NativePurchaseContext> {
    var hasReceipt := GetBool(p, At(i, HasReceipt));
    if hasReceipt.None? then None
    else
      var receipt := if hasReceipt.value then ToReceiptContext(p, i) else None;
      if hasReceipt.value && receipt.None? then None
      else if Get(p, At(i, ContextProductId)).None? then None
      else
        Some(NativePurchaseContext(
          Get(p, At(i, ContextProductId)).value, Get(p, At(i, BasePlanId)), Get(p, At(i, OfferId)), receipt))
  }

  function PresentProducts(p: Properties, i: nat, count: nat): seq<ProductId> {
    if count == 0 then []
    else
      var rest, last := PresentProducts(p, i, count - 1), Get(p, At(i, Product(count - 1)));
      if last.Some? then rest + [last.value] else rest
  }

  /** `toSet()`: first occurrences, in order. */
  function ToSet(s: seq<ProductId>): (r: ProductSet)
    ensures forall x :: x in r <==> x in s
  {
    if s == [] then []
    else
      var rest, last := ToSet(s[..|s| - 1]), s[|s| - 1];
      if last in rest then rest else rest + [last]
  }

  function ToMetadata(p: Properties, i: nat): Option<Metadata> {
    var token := Get(p, At(i, PurchaseToken));
    if token.None? || !IsSafeToken(token.value) then None
    else
      var count := GetInt(p, At(i, ProductCount), MIN_INT, MAX_INT);
      if count.None? || !(1 <= count.value <= MAX_PRODUCTS_PER_TRANSACTION) then None
      else
        var productIds := ToSet(PresentProducts(p, i, count.value));
        var hasContext := GetBool(p, At(i, HasContext));
        if |productIds| != count.value || !AreSafeProducts(productIds) || hasContext.None? then None
        else if !hasContext.value then Some(Metadata(token.value, productIds, None))
        else
          var context := ToPurchaseContext(p, i);
          if context.None? || !IsValidFor(context.value, productIds) then None
          else Some(Metadata(token.value, productIds, context))
  }

  type RecordReader = nat -> Option<Metadata>

  function RecordsOf(p: Properties): RecordReader {
    (i: nat) => ToMetadata(p, i)
  }

  /** `(0 until count).map { requireNotNull(..) }`. */
  function ReadAll(read: RecordReader, count: nat): (r: Option<seq<Metadata>>)
    ensures r.Some? ==> |r.value| == count
  {
    if count == 0 then Some([])
    else
      var rest, last := ReadAll(read, count - 1), read(count - 1);
      if rest.None? || last.None? then None else Some(rest.value + [last.value])
  }

  /** `None` where decoding throws. */
  function Decode(p: Properties): (r: Option<seq<Metadata>>)
  {
    var count := GetInt(p, Count, MIN_INT, MAX_INT);
    if GetInt(p, Version, MIN_INT, MAX_INT) != Some(SCHEMA_VERSION) then None
    else if count.None? || !(0 <= count.value <= MAX_PERSISTED_TRANSACTIONS) then None
    else ReadAll(RecordsOf(p), count.value)
  }

  // ---- The preference ------------------------------------------------------------------

  /** What the preference holds: nothing, another type, or text with the properties it parses to. */
  datatype Preference = Absent | NotText | Text(exceedsByteLimit: bool, properties: Option<Properties>)

  datatype LoadResult = LoadResult(metadata: seq<Metadata>, isCorrupt: bool)

  function LoadWithStatus(stored: Preference): LoadResult {
    match stored
    case Absent => LoadResult([], false)
    case NotText => LoadResult([], true)
    case Text(exceeds, properties) =>
      if exceeds || properties.None? || Decode(properties.value).None? then LoadResult([], true)
      else LoadResult(Decode(properties.value).value, false)
  }

  /** `exceeds` says which texts are too long; a commit that fails leaves `left`. */
  function Replace(stored: Preference, metadata: seq<Metadata>, exceeds: Properties -> bool, commits: bool, left: Preference): (Preference, bool) {
    if |metadata| > MAX_PERSISTED_TRANSACTIONS then (stored, false)
    else if exists i :: 0 <= i < |metadata| && !Valid(metadata[i]) then (stored, false)
    else if exceeds(Encode(metadata)) then (stored, false)
    else if commits then (Text(false, Some(Encode(metadata))), true)
    else (left, false)
  }
}

/** What is written is read back, and what is read could have been written. */
module JournalCodecTheorems {
  import opened Options
  import opened LinkedMaps
  import opened PurchaseTypes
  import opened Decimals
  import opened JournalKeys
  import opened JournalCodec
  import Store = PendingPurchaseModel

  // ---- What each property holds --------------------------------------------------------

  function ReceiptValue(c: NativeReceiptContext, f: Field): Option<string> {
    match f
    case Offering => c.presentedOfferingIdentifier
    case Placement => c.presentedPlacementIdentifier
    case PriceMicros => PrintLong(c.priceMicros)
    case Currency => c.currency
    case NormalDuration => c.normalDuration
    case SdkOriginated => Some(PrintBool(c.sdkOriginated))
    case HasTargeting => Some(PrintBool(c.appliedTargetingRule.Some?))
    case RuleId => if c.appliedTargetingRule.Some? then Some(c.appliedTargetingRule.value.ruleId) else None
    case Revision => if c.appliedTargetingRule.Some? then Some(PrintInt(c.appliedTargetingRule.value.revision)) else None
    case _ => None
  }

  function ContextValue(c: NativePurchaseContext, f: Field): Option<string> {
    match f
    case ContextProductId => Some(c.productId)
    case BasePlanId => c.basePlanId
    case OfferId => c.offerId
    case HasReceipt => Some(PrintBool(c.receiptContext.Some?))
    case _ => if c.receiptContext.Some? then ReceiptValue(c.receiptContext.value, f) else None
  }

  /** The text of one field of a record; `None` where the record has no such property. */
  function FieldValue(m: Metadata, f: Field): Option<string> {
    match f
    case PurchaseToken => Some(m.purchaseToken)
    case ProductCount => Some(PrintInt(|m.productIds|))
    case Product(j) => if j < |m.productIds| then Some(m.productIds[j]) else None
    case HasContext => Some(PrintBool(m.context.Some?))
    case _ => if m.context.Some? then ContextValue(m.context.value, f) else None
  }

  /** `after` has record `i`'s fields over whatever `before` has. */
  predicate Shows(before: Properties, after: Properties, i: nat, l: Key, value: Option<string>) {
    Get(after, l) == if l.At? && l.index == i && value.Some? then value else Get(before, l)
  }

  lemma ReceiptFieldsWritten(p: Properties, i: nat, c: NativeReceiptContext, l: Key)
    ensures
      Shows(p, WriteReceiptFields(p, i, c), i, l,
            if l.At? && l.field in {Offering, Placement, PriceMicros, Currency, NormalDuration} then ReceiptValue(c, l.field) else None)
  {
  }

  lemma TargetingWritten(p: Properties, i: nat, c: NativeReceiptContext, l: Key)
    ensures
      Shows(p, WriteTargeting(p, i, c.appliedTargetingRule), i, l,
            if l.At? && l.field in {HasTargeting, RuleId, Revision} then ReceiptValue(c, l.field) else None)
  {
  }

  lemma ReceiptWritten(p: Properties, i: nat, c: NativeReceiptContext, l: Key)
    ensures Shows(p, WriteReceiptContext(p, i, c), i, l, if l.At? then ReceiptValue(c, l.field) else None)
  {
    ReceiptFieldsWritten(p, i, c, l);
    var p1 := Set(WriteReceiptFields(p, i, c), At(i, SdkOriginated), PrintBool(c.sdkOriginated));
    TargetingWritten(p1, i, c, l);
  }

  lemma ContextFieldsWritten(p: Properties, i: nat, c: NativePurchaseContext, l: Key)
    ensures
      Shows(p, WriteContextFields(p, i, c), i, l,
            if l.At? && l.field in {ContextProductId, BasePlanId, OfferId} then ContextValue(c, l.field) else None)
  {
  }

  lemma ContextWritten(p: Properties, i: nat, c: NativePurchaseContext, l: Key)
    ensures Shows(p, WriteContext(p, i, c), i, l, if l.At? then ContextValue(c, l.field) else None)
  {
    ContextFieldsWritten(p, i, c, l);
    var p1 := Set(WriteContextFields(p, i, c), At(i, HasReceipt), PrintBool(c.receiptContext.Some?));
    if c.receiptContext.Some? { ReceiptWritten(p1, i, c.receiptContext.value, l); }
  }

  lemma {:induction false} ProductsWritten(p: Properties, i: nat, productIds: seq<ProductId>, l: Key)
    ensures
      Shows(p, WriteProducts(p, i, productIds), i, l,
            if l.At? && l.field.Product? && l.field.index < |productIds| then Some(productIds[l.field.index]) else None)
  {
    if productIds != [] {
      ProductsWritten(p, i, productIds[..|productIds| - 1], l);
    }
  }

  lemma MetadataWritten(p: Properties, i: nat, m: Metadata, l: Key)
    ensures Shows(p, WriteMetadata(p, i, m), i, l, if l.At? then FieldValue(m, l.field) else None)
  {
    var p1 := Set(p, At(i, PurchaseToken), m.purchaseToken);
    var p2 := Set(p1, At(i, ProductCount), PrintInt(|m.productIds|));
    var p3 := WriteProducts(p2, i, m.productIds);
    ProductsWritten(p2, i, m.productIds, l);
    var p4 := Set(p3, At(i, HasContext), PrintBool(m.context.Some?));
    if m.context.Some? { ContextWritten(p4, i, m.context.value, l); }
  }

  lemma {:induction false} AllWritten(p: Properties, metadata: seq<Metadata>, l: Key)
    ensures
      Get(WriteAll(p, metadata), l) ==
      if l.At? && l.index < |metadata| && FieldValue(metadata[l.index], l.field).Some?
      then FieldValue(metadata[l.index], l.field) else Get(p, l)
  {
    if metadata != [] {
      var n := |metadata| - 1;
      AllWritten(p, metadata[..n], l);
      MetadataWritten(WriteAll(p, metadata[..n]), n, metadata[n], l);
    }
  }

  lemma Encoded(metadata: seq<Metadata>, i: nat, f: Field)
    requires i < |metadata|
    ensures Get(Encode(metadata), At(i, f)) == FieldValue(metadata[i], f)
  {
    AllWritten(Header(|metadata|), metadata, At(i, f));
    assert Get(map[], At(i, f)) == None;
  }

  lemma EncodedHeader(metadata: seq<Metadata>)
    ensures Get(Encode(metadata), Version) == Some(PrintInt(SCHEMA_VERSION))
    ensures Get(Encode(metadata), Count) == Some(PrintInt(|metadata|))
  {
    AllWritten(Header(|metadata|), metadata, Version);
    AllWritten(Header(|metadata|), metadata, Count);
  }

  // ---- Reading one record --------------------------------------------------------------

  /** The properties hold record `m` at index `i`. */
  ghost predicate HoldsRecord(p: Properties, i: nat, m: Metadata) {
    forall f :: Get(p, At(i, f)) == FieldValue(m, f)
  }

  lemma ReadTargeting(p: Properties, i: nat, m: Metadata)
    requires HoldsRecord(p, i, m) && m.context.Some? && m.context.value.receiptContext.Some?
    requires m.context.value.receiptContext.value.appliedTargetingRule.Some?
    ensures ToTargeting(p, i) == m.context.value.receiptContext.value.appliedTargetingRule
  {
    var rule := m.context.value.receiptContext.value.appliedTargetingRule.value;
    assert Get(p, At(i, RuleId)) == FieldValue(m, RuleId);
    assert Get(p, At(i, Revision)) == FieldValue(m, Revision);
    ParsePrint(rule.revision, MIN_LONG, MAX_LONG);
  }

  lemma ReadPrice(p: Properties, i: nat, m: Metadata)
    requires HoldsRecord(p, i, m) && m.context.Some? && m.context.value.receiptContext.Some?
    ensures
      var price := m.context.value.receiptContext.value.priceMicros;
      && Get(p, At(i, PriceMicros)).Some? == price.Some?
      && GetInt(p, At(i, PriceMicros), MIN_LONG, MAX_LONG) == if price.Some? then Some(price.value) else None
  {
    var price := m.context.value.receiptContext.value.priceMicros;
    assert Get(p, At(i, PriceMicros)) == FieldValue(m, PriceMicros);
    if price.Some? { ParsePrint(price.value, MIN_LONG, MAX_LONG); }
  }

  lemma ReadReceiptFields(p: Properties, i: nat, m: Metadata)
    requires HoldsRecord(p, i, m) && m.context.Some? && m.context.value.receiptContext.Some?
    ensures
      var c := m.context.value.receiptContext.value;
      && GetBool(p, At(i, HasTargeting)) == Some(c.appliedTargetingRule.Some?)
      && GetBool(p, At(i, SdkOriginated)) == Some(c.sdkOriginated)
      && Get(p, At(i, Offering)) == c.presentedOfferingIdentifier
      && Get(p, At(i, Placement)) == c.presentedPlacementIdentifier
      && Get(p, At(i, Currency)) == c.currency
      && Get(p, At(i, NormalDuration)) == c.normalDuration
  {
    assert Get(p, At(i, HasTargeting)) == FieldValue(m, HasTargeting);
    assert Get(p, At(i, SdkOriginated)) == FieldValue(m, SdkOriginated);
    assert Get(p, At(i, Offering)) == FieldValue(m, Offering);
    assert Get(p, At(i, Placement)) == FieldValue(m, Placement);
    assert Get(p, At(i, Currency)) == FieldValue(m, Currency);
    assert Get(p, At(i, NormalDuration)) == FieldValue(m, NormalDuration);
  }

  lemma ReadReceipt(p: Properties, i: nat, m: Metadata)
    requires HoldsRecord(p, i, m) && m.context.Some? && m.context.value.receiptContext.Some?
    ensures ToReceiptContext(p, i) == m.context.value.receiptContext
  {
    ReadReceiptFields(p, i, m);
    ReadPrice(p, i, m);
    if m.context.value.receiptContext.value.appliedTargetingRule.Some? { ReadTargeting(p, i, m); }
  }

  lemma ReadContext(p: Properties, i: nat, m: Metadata)
    requires HoldsRecord(p, i, m) && m.context.Some?
    ensures ToPurchaseContext(p, i) == m.context
  {
    var c := m.context.value;
    assert Get(p, At(i, HasReceipt)) == FieldValue(m, HasReceipt);
    assert Get(p, At(i, ContextProductId)) == FieldValue(m, ContextProductId);
    assert Get(p, At(i, BasePlanId)) == FieldValue(m, BasePlanId);
    assert Get(p, At(i, OfferId)) == FieldValue(m, OfferId);
    if c.receiptContext.Some? { ReadReceipt(p, i, m); }
  }

  lemma {:induction false} ReadProducts(p: Properties, i: nat, m: Metadata, count: nat)
    requires HoldsRecord(p, i, m) && count <= |m.productIds|
    ensures PresentProducts(p, i, count) == m.productIds[..count]
  {
    if count > 0 {
      ReadProducts(p, i, m, count - 1);
      assert Get(p, At(i, Product(count - 1))) == FieldValue(m, Product(count - 1));
    }
  }

  lemma {:induction false} SetOfDistinct(s: seq<ProductId>)
    requires Distinct(s)
    ensures ToSet(s) == s
  {
    if s != [] {
      var n := |s| - 1;
      assert Distinct(s[..n]);
      SetOfDistinct(s[..n]);
      assert s == s[..n] + [s[n]];
    }
  }

  lemma ReadRecord(p: Properties, i: nat, m: Metadata)
    requires HoldsRecord(p, i, m) && Valid(m)
    ensures ToMetadata(p, i) == Some(m)
  {
    assert Get(p, At(i, PurchaseToken)) == FieldValue(m, PurchaseToken);
    assert Get(p, At(i, ProductCount)) == FieldValue(m, ProductCount);
    assert Get(p, At(i, HasContext)) == FieldValue(m, HasContext);
    ParsePrint(|m.productIds|, MIN_INT, MAX_INT);
    ReadProducts(p, i, m, |m.productIds|);
    assert m.productIds[..|m.productIds|] == m.productIds;
    SetOfDistinct(m.productIds);
    if m.context.Some? { ReadContext(p, i, m); }
  }

  // ---- Round trips ---------------------------------------------------------------------

  lemma {:induction false} ReadBack(read: RecordReader, metadata: seq<Metadata>, count: nat)
    requires count <= |metadata|
    requires forall i :: 0 <= i < |metadata| ==> read(i) == Some(metadata[i])
    ensures ReadAll(read, count) == Some(metadata[..count])
  {
    if count > 0 {
      ReadBack(read, metadata, count - 1);
      assert metadata[..count] == metadata[..count - 1] + [metadata[count - 1]];
    }
  }

  lemma EncodedRecord(metadata: seq<Metadata>, i: nat)
    requires i < |metadata| && Valid(metadata[i])
    ensures ToMetadata(Encode(metadata), i) == Some(metadata[i])
  {
    forall f ensures Get(Encode(metadata), At(i, f)) == FieldValue(metadata[i], f) {
      Encoded(metadata, i, f);
    }
    ReadRecord(Encode(metadata), i, metadata[i]);
  }

  lemma DecodeEncode(metadata: seq<Metadata>)
    requires |metadata| <= MAX_PERSISTED_TRANSACTIONS && forall i :: 0 <= i < |metadata| ==> Valid(metadata[i])
    ensures Decode(Encode(metadata)) == Some(metadata)
  {
    EncodedHeader(metadata);
    ParsePrint(SCHEMA_VERSION, MIN_INT, MAX_INT);
    ParsePrint(|metadata|, MIN_INT, MAX_INT);
    forall i | 0 <= i < |metadata| ensures ToMetadata(Encode(metadata), i) == Some(metadata[i]) {
      EncodedRecord(metadata, i);
    }
    ReadBack(RecordsOf(Encode(metadata)), metadata, |metadata|);
    assert metadata[..|metadata|] == metadata;
  }

  /** Whatever list `replace` accepts, the next load returns it, record for record. */
  lemma ReplaceThenLoad(stored: Preference, metadata: seq<Metadata>, exceeds: Properties -> bool, commits: bool, left: Preference)
    ensures
      var (after, ok) := Replace(stored, metadata, exceeds, commits, left);
      ok ==> LoadWithStatus(after) == LoadResult(metadata, false)
  {
    if Replace(stored, metadata, exceeds, commits, left).1 { DecodeEncode(metadata); }
  }

  /** Whatever the file holds, a load returns only records that `replace` would accept. */
  lemma LoadedRecordsAreValid(stored: Preference, i: nat)
    requires i < |LoadWithStatus(stored).metadata|
    ensures Valid(LoadWithStatus(stored).metadata[i])
    ensures |LoadWithStatus(stored).metadata| <= MAX_PERSISTED_TRANSACTIONS
  {
    var p, n := stored.properties.value, |LoadWithStatus(stored).metadata|;
    ReadAllAt(RecordsOf(p), n, i);
    assert ToMetadata(p, i) == Some(LoadWithStatus(stored).metadata[i]);
  }

  lemma {:induction false} ReadAllAt(read: RecordReader, count: nat, i: nat)
    requires ReadAll(read, count).Some? && i < count
    ensures read(i) == Some(ReadAll(read, count).value[i])
  {
    if i < count - 1 { ReadAllAt(read, count - 1, i); }
  }

  /** Loading and storing again therefore changes nothing, except when the text is now too long. */
  lemma LoadThenReplace(stored: Preference, exceeds: Properties -> bool, left: Preference)
    ensures
      var loaded := LoadWithStatus(stored).metadata;
      var (after, ok) := Replace(stored, loaded, exceeds, true, left);
      && (ok <==> !exceeds(Encode(loaded)))
      && (ok ==> LoadWithStatus(after) == LoadResult(loaded, false))
  {
    var loaded := LoadWithStatus(stored).metadata;
    forall i | 0 <= i < |loaded| ensures Valid(loaded[i]) && |loaded| <= MAX_PERSISTED_TRANSACTIONS {
      LoadedRecordsAreValid(stored, i);
    }
    ReplaceThenLoad(stored, loaded, exceeds, true, left);
  }

  // ---- The journal the correlation store relies on -------------------------------------

  function Abstract(m: Metadata): Store.LocalTransactionMetadata {
    Store.LocalTransactionMetadata(m.purchaseToken, SetOf(m.productIds), m.context)
  }

  function AbstractAll(metadata: seq<Metadata>): (r: seq<Store.LocalTransactionMetadata>)
    ensures |r| == |metadata| && forall i :: 0 <= i < |metadata| ==> r[i] == Abstract(metadata[i])
  {
    seq(|metadata|, i requires 0 <= i < |metadata| => Abstract(metadata[i]))
  }

  function AbstractJournal(stored: Preference): Store.Journal {
    if LoadWithStatus(stored).isCorrupt then Store.Corrupt else Store.Readable(AbstractAll(LoadWithStatus(stored).metadata))
  }

  /** The codec meets what the correlation store assumes of `replace`. */
  lemma CodecRefinesJournal(stored: Preference, metadata: seq<Metadata>, exceeds: Properties -> bool, commits: bool, left: Preference)
    ensures
      var (after, ok) := Replace(stored, metadata, exceeds, commits, left);
      var w := Store.Write(ok, AbstractJournal(after));
      Store.Replace(AbstractAll(metadata), w) == (AbstractJournal(after), ok)
  {
    ReplaceThenLoad(stored, metadata, exceeds, commits, left);
    if Replace(stored, metadata, exceeds, commits, left).1 {
      forall m | m in AbstractAll(metadata) ensures Store.Storable(m) {
        var i :| 0 <= i < |metadata| && Abstract(metadata[i]) == m;
        assert Valid(metadata[i]);
        assert metadata[i].productIds[0] in m.productIds;
      }
    }
  }
}
