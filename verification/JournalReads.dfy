/** Exactly which texts, records, properties and preferences the journal's codec accepts. */
module JournalReads {
  import opened Options
  import opened LinkedMaps
  import opened PurchaseTypes
  import opened Decimals
  import opened JournalKeys
  import opened JournalCodec
  import opened JournalCodecTheorems

  // ---- Numbers -------------------------------------------------------------------------

  /** An optional sign before at least one digit. */
  predicate Numeral(s: string, sign: string, digits: string) {
    sign in {"", "+", "-"} && digits != "" && AllDigits(digits) && s == sign + digits
  }

  /** The value of a numeral, from its first digit on. */
  function DigitsFrom(digits: string, value: nat): nat
    requires AllDigits(digits)
  {
    if digits == "" then value else DigitsFrom(digits[1..], 10 * value + (digits[0] as int - '0' as int))
  }

  lemma {:induction false} DigitsSnoc(digits: string, value: nat)
    requires digits != "" && AllDigits(digits)
    ensures AllDigits(digits[..|digits| - 1])
    ensures DigitsFrom(digits, value) == 10 * DigitsFrom(digits[..|digits| - 1], value) + (digits[|digits| - 1] as int - '0' as int)
  {
    if |digits| > 1 {
      var front := digits[..|digits| - 1];
      assert digits[1..][..|digits| - 2] == front[1..];
      DigitsSnoc(digits[1..], 10 * value + (digits[0] as int - '0' as int));
    } else {
      assert digits[1..] == "" && digits[..0] == "";
    }
  }

  lemma {:induction false} DigitsAgree(digits: string)
    requires AllDigits(digits)
    ensures DigitsValue(digits) == DigitsFrom(digits, 0)
  {
    if digits != "" {
      DigitsSnoc(digits, 0);
      DigitsAgree(digits[..|digits| - 1]);
    }
  }

  /** Exactly the numerals in range are parsed, to their value. */
  lemma ParsesNumerals(s: string, sign: string, digits: string, least: int, greatest: int)
    requires Numeral(s, sign, digits)
    ensures
      var n: int := if sign == "-" then -(DigitsFrom(digits, 0) as int) else DigitsFrom(digits, 0);
      ParseInt(s, least, greatest) == if least <= n <= greatest then Some(n) else None
  {
    DigitsAgree(digits);
    assert IsDigit(digits[0]);
    if sign == "" { assert s == digits; } else { assert s[1..] == digits && s[0] == sign[0]; }
  }

  lemma OnlyNumeralsParse(s: string, least: int, greatest: int)
    requires forall sign, digits :: !Numeral(s, sign, digits)
    ensures ParseInt(s, least, greatest) == None
  {
    if s != "" {
      var signed := s[0] == '-' || s[0] == '+';
      var sign, digits := if signed then s[..1] else "", if signed then s[1..] else s;
      assert s == sign + digits && !Numeral(s, sign, digits);
      assert s[..1] == [s[0]];
    }
  }

  // ---- Which records are accepted ------------------------------------------------------

  /** Unicode's space, line and paragraph separators, and the controls that separate text. */
  predicate Space(c: char) {
    || c in "\t\n\U{0B}\U{0C}\r\U{1C}\U{1D}\U{1E}\U{1F} \U{A0}\U{1680}\U{2028}\U{2029}\U{202F}\U{205F}\U{3000}"
    || c in "\U{2000}\U{2001}\U{2002}\U{2003}\U{2004}\U{2005}\U{2006}\U{2007}\U{2008}\U{2009}\U{200A}"
  }

  lemma WhitespaceIsSpace(c: char)
    ensures IsWhitespace(c) <==> Space(c)
  {
  }

  /** Up to this many UTF-16 units, and not all space. */
  predicate Text(s: string, units: nat) {
    Units(s) <= units && exists i :: 0 <= i < |s| && !Space(s[i])
  }

  /** How many UTF-16 units a text takes. */
  function Units(s: string): nat {
    |s| + Astral(s)
  }

  /** How many of its characters take two. */
  function Astral(s: string): nat {
    if s == "" then 0 else Astral(s[..|s| - 1]) + if s[|s| - 1] as int >= 0x1_0000 then 1 else 0
  }

  lemma {:induction false} AstralFront(s: string)
    requires s != ""
    ensures Astral(s) == (if s[0] as int >= 0x1_0000 then 1 else 0) + Astral(s[1..])
  {
    if |s| > 1 {
      AstralFront(s[..|s| - 1]);
      assert s[..|s| - 1][1..] == s[1..][..|s| - 2];
    } else {
      assert s[..0] == "" && s[1..] == "";
    }
  }

  lemma {:induction false} UnitsAgree(s: string)
    ensures Utf16Length(s) == Units(s)
  {
    if s != "" {
      AstralFront(s);
      UnitsAgree(s[1..]);
    }
  }

  predicate OptionalText(s: Option<string>) {
    s.Some? ==> Text(s.value, 512)
  }

  predicate AcceptableReceipt(c: NativeReceiptContext) {
    && OptionalText(c.presentedOfferingIdentifier) && OptionalText(c.presentedPlacementIdentifier)
    && OptionalText(c.currency) && OptionalText(c.normalDuration)
    && (c.appliedTargetingRule.Some? ==> Text(c.appliedTargetingRule.value.ruleId, 512))
    && (c.priceMicros.Some? <==> c.currency.Some?) && (c.priceMicros.Some? ==> 0 <= c.priceMicros.value)
  }

  predicate AcceptableContext(c: NativePurchaseContext, productIds: seq<ProductId>) {
    && Text(c.productId, 512) && c.productId in productIds && OptionalText(c.basePlanId) && OptionalText(c.offerId)
    && (c.offerId.Some? ==> c.basePlanId.Some?)
    && (c.basePlanId.None? ==> c.receiptContext.Some?)
    && (c.receiptContext.Some? ==> AcceptableReceipt(c.receiptContext.value))
  }

  /** A token, one to 32 products, and a context, if any, of one of them. */
  predicate Acceptable(m: Metadata) {
    && Text(m.purchaseToken, 8192)
    && 1 <= |m.productIds| <= 32 && (forall p :: p in m.productIds ==> Text(p, 512))
    && (m.context.Some? ==> AcceptableContext(m.context.value, m.productIds))
  }

  lemma TextIsSafe(s: string)
    ensures IsSafeToken(s) <==> Text(s, 8192)
    ensures IsSafeIdentifier(s) <==> Text(s, 512)
  {
    UnitsAgree(s);
    forall i | 0 <= i < |s| ensures IsWhitespace(s[i]) <==> Space(s[i]) {
      WhitespaceIsSpace(s[i]);
    }
  }

  lemma OptionalIsSafe(s: Option<string>)
    ensures IsSafeOptional(s) <==> OptionalText(s)
  {
    if s.Some? { TextIsSafe(s.value); }
  }

  lemma ReceiptIsValid(c: NativeReceiptContext)
    ensures IsValidForPersistence(c) <==> AcceptableReceipt(c)
  {
    OptionalIsSafe(c.presentedOfferingIdentifier);
    OptionalIsSafe(c.presentedPlacementIdentifier);
    OptionalIsSafe(c.currency);
    OptionalIsSafe(c.normalDuration);
    if c.appliedTargetingRule.Some? { TextIsSafe(c.appliedTargetingRule.value.ruleId); }
  }

  lemma ContextIsValid(c: NativePurchaseContext, productIds: seq<ProductId>)
    ensures IsValidFor(c, productIds) <==> AcceptableContext(c, productIds)
  {
    TextIsSafe(c.productId);
    OptionalIsSafe(c.basePlanId);
    OptionalIsSafe(c.offerId);
    if c.receiptContext.Some? { ReceiptIsValid(c.receiptContext.value); }
  }

  lemma ProductsAreSafe(productIds: seq<ProductId>)
    ensures AreSafeProducts(productIds) <==> 1 <= |productIds| <= 32 && forall p :: p in productIds ==> Text(p, 512)
  {
    forall p | p in productIds ensures IsSafeIdentifier(p) <==> Text(p, 512) {
      TextIsSafe(p);
    }
  }

  lemma ValidIsAcceptable(m: Metadata)
    ensures Valid(m) <==> Acceptable(m)
  {
    TextIsSafe(m.purchaseToken);
    ProductsAreSafe(m.productIds);
    if m.context.Some? { ContextIsValid(m.context.value, m.productIds); }
  }

  /** A list is stored exactly if it has at most 32 records, all acceptable, its text is not too long and the commit works. */
  lemma StoresExactly(stored: Preference, metadata: seq<Metadata>, exceeds: Properties -> bool, commits: bool, left: Preference)
    ensures
      var (after, ok) := Replace(stored, metadata, exceeds, commits, left);
      var fits := |metadata| <= 32 && (forall m :: m in metadata ==> Acceptable(m)) && !exceeds(Encode(metadata));
      && (ok <==> fits && commits)
      && after == if !fits then stored else if commits then Preference.Text(false, Some(Encode(metadata))) else left
  {
    forall i | 0 <= i < |metadata| ensures Valid(metadata[i]) <==> Acceptable(metadata[i]) {
      ValidIsAcceptable(metadata[i]);
    }
    assert forall i :: 0 <= i < |metadata| ==> metadata[i] in metadata;
  }

  // ---- Which properties are a record ---------------------------------------------------

  function Field(p: Properties, i: nat, f: Field): Option<string> {
    Get(p, At(i, f))
  }

  predicate Says(p: Properties, i: nat, f: Field, b: bool) {
    Field(p, i, f) == Some(if b then "true" else "false")
  }

  predicate Counts(p: Properties, i: nat, f: Field, n: int, least: int, greatest: int) {
    Field(p, i, f).Some? && ParseInt(Field(p, i, f).value, least, greatest) == Some(n)
  }

  predicate ShowsReceipt(p: Properties, i: nat, c: NativeReceiptContext) {
    && Field(p, i, Offering) == c.presentedOfferingIdentifier && Field(p, i, Placement) == c.presentedPlacementIdentifier
    && Field(p, i, Currency) == c.currency && Field(p, i, NormalDuration) == c.normalDuration
    && (if c.priceMicros.Some? then Counts(p, i, PriceMicros, c.priceMicros.value, MIN_LONG, MAX_LONG) else Field(p, i, PriceMicros) == None)
    && Says(p, i, SdkOriginated, c.sdkOriginated)
    && Says(p, i, HasTargeting, c.appliedTargetingRule.Some?)
    && (c.appliedTargetingRule.Some? ==>
          && Field(p, i, RuleId) == Some(c.appliedTargetingRule.value.ruleId)
          && Counts(p, i, Revision, c.appliedTargetingRule.value.revision, MIN_LONG, MAX_LONG))
  }

  predicate ShowsContext(p: Properties, i: nat, c: NativePurchaseContext) {
    && Field(p, i, ContextProductId) == Some(c.productId)
    && Field(p, i, BasePlanId) == c.basePlanId && Field(p, i, OfferId) == c.offerId
    && Says(p, i, HasReceipt, c.receiptContext.Some?)
    && (c.receiptContext.Some? ==> ShowsReceipt(p, i, c.receiptContext.value))
  }

  /** The part of a record before its context. */
  predicate ShowsProducts(p: Properties, i: nat, m: Metadata) {
    && Field(p, i, PurchaseToken) == Some(m.purchaseToken)
    && Counts(p, i, ProductCount, |m.productIds|, MIN_INT, MAX_INT)
    && forall j :: 0 <= j < |m.productIds| ==> Field(p, i, Product(j)) == Some(m.productIds[j])
  }

  /** The properties at the index are this record's; what a record has not got may hold anything. */
  predicate ShowsRecord(p: Properties, i: nat, m: Metadata) {
    && ShowsProducts(p, i, m)
    && Says(p, i, HasContext, m.context.Some?)
    && (m.context.Some? ==> ShowsContext(p, i, m.context.value))
  }

  lemma SaysIs(p: Properties, i: nat, f: Field, b: bool)
    ensures GetBool(p, At(i, f)) == Some(b) <==> Says(p, i, f, b)
    ensures GetBool(p, At(i, f)).None? <==> !Says(p, i, f, true) && !Says(p, i, f, false)
  {
  }

  lemma TargetingReadExactly(p: Properties, i: nat, rule: ReceiptTargetingRule)
    ensures ToTargeting(p, i) == Some(rule) <==>
              Field(p, i, RuleId) == Some(rule.ruleId) && Counts(p, i, Revision, rule.revision, MIN_LONG, MAX_LONG)
  {
  }

  lemma ReceiptReadExactly(p: Properties, i: nat, c: NativeReceiptContext)
    ensures ToReceiptContext(p, i) == Some(c) <==> ShowsReceipt(p, i, c)
  {
    SaysIs(p, i, HasTargeting, c.appliedTargetingRule.Some?);
    SaysIs(p, i, SdkOriginated, c.sdkOriginated);
    if c.appliedTargetingRule.Some? { TargetingReadExactly(p, i, c.appliedTargetingRule.value); }
  }

  lemma ContextReadExactly(p: Properties, i: nat, c: NativePurchaseContext)
    ensures ToPurchaseContext(p, i) == Some(c) <==> ShowsContext(p, i, c)
  {
    SaysIs(p, i, HasReceipt, c.receiptContext.Some?);
    if c.receiptContext.Some? { ReceiptReadExactly(p, i, c.receiptContext.value); }
  }

  lemma {:induction false} PresentAll(p: Properties, i: nat, n: nat)
    ensures |PresentProducts(p, i, n)| <= n
    ensures |PresentProducts(p, i, n)| == n <==> forall j :: 0 <= j < n ==> Field(p, i, Product(j)).Some?
    ensures |PresentProducts(p, i, n)| == n ==> forall j :: 0 <= j < n ==> Field(p, i, Product(j)) == Some(PresentProducts(p, i, n)[j])
  {
    if n > 0 { PresentAll(p, i, n - 1); }
  }

  lemma {:induction false} SetIsShorter(s: seq<ProductId>)
    ensures |ToSet(s)| <= |s| && (|ToSet(s)| == |s| ==> ToSet(s) == s)
  {
    if s != [] {
      SetIsShorter(s[..|s| - 1]);
      assert s == s[..|s| - 1] + [s[|s| - 1]];
    }
  }

  /** The products are read exactly if there are as many as counted, all there and all different. */
  lemma ProductsReadExactly(p: Properties, i: nat, n: nat, productIds: ProductSet)
    ensures
      (|ToSet(PresentProducts(p, i, n))| == n && ToSet(PresentProducts(p, i, n)) == productIds) <==>
      (|productIds| == n && forall j :: 0 <= j < n ==> Field(p, i, Product(j)) == Some(productIds[j]))
  {
    var present := PresentProducts(p, i, n);
    PresentAll(p, i, n);
    if |productIds| == n && forall j :: 0 <= j < n ==> Field(p, i, Product(j)) == Some(productIds[j]) {
      assert present == productIds;
      SetOfDistinct(productIds);
    } else if |ToSet(present)| == n && ToSet(present) == productIds {
      SetIsShorter(present);
    }
  }

  lemma ShownIsRead(p: Properties, i: nat, m: Metadata)
    requires ShowsProducts(p, i, m) && Valid(m)
    requires GetBool(p, At(i, HasContext)) == Some(m.context.Some?)
    requires m.context.Some? ==> ToPurchaseContext(p, i) == m.context
    ensures ToMetadata(p, i) == Some(m)
  {
    ProductsReadExactly(p, i, |m.productIds|, m.productIds);
  }

  lemma ReadIsShown(p: Properties, i: nat, m: Metadata)
    requires ToMetadata(p, i) == Some(m)
    ensures ShowsProducts(p, i, m) && Valid(m)
    ensures GetBool(p, At(i, HasContext)) == Some(m.context.Some?)
    ensures m.context.Some? ==> ToPurchaseContext(p, i) == m.context
  {
    ProductsReadExactly(p, i, |m.productIds|, m.productIds);
  }

  /** A record is read exactly if the properties show it and it is acceptable; anything else is unreadable. */
  lemma RecordReadExactly(p: Properties, i: nat, m: Metadata)
    ensures ToMetadata(p, i) == Some(m) <==> ShowsRecord(p, i, m) && Acceptable(m)
  {
    ValidIsAcceptable(m);
    SaysIs(p, i, HasContext, m.context.Some?);
    if m.context.Some? { ContextReadExactly(p, i, m.context.value); }
    if ToMetadata(p, i) == Some(m) {
      ReadIsShown(p, i, m);
    } else if ShowsRecord(p, i, m) && Acceptable(m) {
      ShownIsRead(p, i, m);
    }
  }

  // ---- Which preferences are a journal -------------------------------------------------

  lemma AllReadExactly(read: RecordReader, metadata: seq<Metadata>)
    ensures ReadAll(read, |metadata|) == Some(metadata) <==> forall i :: 0 <= i < |metadata| ==> read(i) == Some(metadata[i])
  {
    if forall i :: 0 <= i < |metadata| ==> read(i) == Some(metadata[i]) {
      ReadBack(read, metadata, |metadata|);
      assert metadata[..|metadata|] == metadata;
    }
    if ReadAll(read, |metadata|) == Some(metadata) {
      forall i | 0 <= i < |metadata| ensures read(i) == Some(metadata[i]) {
        ReadAllAt(read, |metadata|, i);
      }
    }
  }

  /** Properties are read as a list exactly if they carry version 1, its length, and each of its records at its index. */
  lemma ListReadExactly(p: Properties, metadata: seq<Metadata>)
    ensures
      Decode(p) == Some(metadata) <==>
      && Get(p, Version).Some? && ParseInt(Get(p, Version).value, MIN_INT, MAX_INT) == Some(1)
      && Get(p, Count).Some? && ParseInt(Get(p, Count).value, MIN_INT, MAX_INT) == Some(|metadata|) && |metadata| <= 32
      && forall i :: 0 <= i < |metadata| ==> ShowsRecord(p, i, metadata[i]) && Acceptable(metadata[i])
  {
    AllReadExactly(RecordsOf(p), metadata);
    forall i | 0 <= i < |metadata|
      ensures ToMetadata(p, i) == Some(metadata[i]) <==> ShowsRecord(p, i, metadata[i]) && Acceptable(metadata[i])
    {
      RecordReadExactly(p, i, metadata[i]);
    }
  }

  /** A preference loads clean exactly if there is none, or text within the limit whose properties are a list; else it is corrupt and empty. */
  lemma LoadsExactly(stored: Preference, metadata: seq<Metadata>)
    ensures
      LoadWithStatus(stored) == LoadResult(metadata, false) <==>
      match stored
      case Absent => metadata == []
      case NotText => false
      case Text(exceeds, properties) => !exceeds && properties.Some? && Decode(properties.value) == Some(metadata)
    ensures LoadWithStatus(stored).isCorrupt ==> LoadWithStatus(stored).metadata == []
  {
  }
}
