/** Decimal numerals: Kotlin's `toString`, `toIntOrNull` and `toLongOrNull`. */
module Decimals {
  import opened Options

  predicate IsDigit(c: char) {
    '0' <= c <= '9'
  }

  predicate AllDigits(s: string) {
    forall i :: 0 <= i < |s| ==> IsDigit(s[i])
  }

  function DigitOf(n: nat): (c: char)
    requires n < 10
    ensures IsDigit(c)
  {
    '0' + n as char
  }

  function ValueOf(c: char): nat
    requires IsDigit(c)
  {
    (c - '0') as nat
  }

  function PrintNat(n: nat): (s: string)
    ensures |s| > 0 && AllDigits(s)
  {
    if n < 10 then [DigitOf(n)] else PrintNat(n / 10) + [DigitOf(n % 10)]
  }

  function PrintInt(n: int): (s: string)
    ensures |s| > 0
  {
    if n < 0 then "-" + PrintNat(-n) else PrintNat(n)
  }

  function DigitsValue(s: string): nat
    requires AllDigits(s)
  {
    if s == "" then 0 else 10 * DigitsValue(s[..|s| - 1]) + ValueOf(s[|s| - 1])
  }

  /** An optional sign, at least one digit, and a value in range. */
  function ParseInt(s: string, least: int, greatest: int): (r: Option<int>)
    ensures r.Some? ==> least <= r.value <= greatest
  {
    var signed := s != "" && (s[0] == '-' || s[0] == '+');
    var digits := if signed then s[1..] else s;
    if digits == "" || !AllDigits(digits) then None
    else
      var size: int := DigitsValue(digits);
      var n := if signed && s[0] == '-' then -size else size;
      if least <= n <= greatest then Some(n) else None
  }

  lemma {:induction false} DigitsOfPrint(n: nat)
    ensures DigitsValue(PrintNat(n)) == n
  {
    var s := PrintNat(n);
    if n < 10 {
      assert s[..0] == "";
    } else {
      DigitsOfPrint(n / 10);
      assert s[..|s| - 1] == PrintNat(n / 10);
    }
  }

  function InRange(n: int, least: int, greatest: int): Option<int> {
    if least <= n <= greatest then Some(n) else None
  }

  lemma ParseDigits(digits: string, least: int, greatest: int)
    requires digits != "" && AllDigits(digits)
    ensures ParseInt(digits, least, greatest) == InRange(DigitsValue(digits), least, greatest)
    ensures ParseInt("-" + digits, least, greatest) == InRange(-(DigitsValue(digits) as int), least, greatest)
  {
    assert IsDigit(digits[0]);
    assert ("-" + digits)[1..] == digits;
  }

  /** Reading a printed number gives it back exactly when it is in range. */
  lemma ParsePrint(n: int, least: int, greatest: int)
    ensures ParseInt(PrintInt(n), least, greatest) == if least <= n <= greatest then Some(n) else None
  {
    var size: nat := if n < 0 then -n else n;
    DigitsOfPrint(size);
    ParseDigits(PrintNat(size), least, greatest);
  }

  lemma PrintNatInjective(a: nat, b: nat)
    requires PrintNat(a) == PrintNat(b)
    ensures a == b
  {
    DigitsOfPrint(a);
    DigitsOfPrint(b);
  }
}

/** The property names of the journal: a record's index and a field, spelled with dots. */
module JournalKeys {
  import opened Decimals

  datatype Field =
    | PurchaseToken
    | ProductCount
    | Product(index: nat)
    | HasContext
    | ContextProductId
    | BasePlanId
    | OfferId
    | HasReceipt
    | Offering
    | Placement
    | PriceMicros
    | Currency
    | NormalDuration
    | SdkOriginated
    | HasTargeting
    | RuleId
    | Revision

  datatype Key = Version | Count | At(index: nat, field: Field)

  function FieldName(f: Field): (s: string)
  {
    match f
    case PurchaseToken => "purchaseToken"
    case ProductCount => "productCount"
    case Product(j) => "product." + PrintNat(j)
    case HasContext => "hasContext"
    case ContextProductId => "context.productId"
    case BasePlanId => "context.basePlanId"
    case OfferId => "context.offerId"
    case HasReceipt => "context.hasReceipt"
    case Offering => "context.receipt.offering"
    case Placement => "context.receipt.placement"
    case PriceMicros => "context.receipt.priceMicros"
    case Currency => "context.receipt.currency"
    case NormalDuration => "context.receipt.normalDuration"
    case SdkOriginated => "context.receipt.sdkOriginated"
    case HasTargeting => "context.receipt.hasTargeting"
    case RuleId => "context.receipt.ruleId"
    case Revision => "context.receipt.revision"
  }

  function Name(k: Key): string {
    match k
    case Version => "version"
    case Count => "count"
    case At(i, f) => "transaction." + PrintNat(i) + "." + FieldName(f)
  }

  lemma OnlyProductsHaveTheirPrefix(f: Field)
    ensures |FieldName(f)| > 8
    ensures f.Product? <==> FieldName(f)[0] == 'p' && FieldName(f)[7] == '.'
  {
  }

  /** Names of different fields differ in length or at a character that tells them apart. */
  lemma FieldNamesDiffer(f: Field, g: Field)
    requires FieldName(f) == FieldName(g)
    ensures f == g
  {
    var a, b := FieldName(f), FieldName(g);
    OnlyProductsHaveTheirPrefix(f);
    OnlyProductsHaveTheirPrefix(g);
    if f.Product? && g.Product? {
      assert a[8..] == PrintNat(f.index) && b[8..] == PrintNat(g.index);
      PrintNatInjective(f.index, g.index);
    } else if !f.Product? && !g.Product? {
      assert |a| == |b|;
      assert |a| >= 10 && a[8] == b[8];
      if |a| > 16 { assert a[16] == b[16]; }
    }
  }

  /** Where the record index ends: the first dot after the digits. */
  lemma SplitAtDot(a: string, b: string, x: string, y: string)
    requires AllDigits(a) && AllDigits(b)
    requires a + "." + x == b + "." + y
    ensures a == b && x == y
  {
    var whole, other := a + "." + x, b + "." + y;
    assert whole[|a|] == '.' && forall k :: 0 <= k < |a| ==> whole[k] == a[k];
    assert other[|b|] == '.' && forall k :: 0 <= k < |b| ==> other[k] == b[k];
    assert |a| == |b|;
    assert whole[..|a|] == a && other[..|b|] == b;
    assert whole[|a| + 1..] == x && other[|b| + 1..] == y;
  }

  lemma SplitName(a: string, b: string, x: string, y: string)
    requires AllDigits(a) && AllDigits(b)
    requires "transaction." + a + "." + x == "transaction." + b + "." + y
    ensures a == b && x == y
  {
    assert ("transaction." + a + "." + x)[12..] == a + "." + x;
    assert ("transaction." + b + "." + y)[12..] == b + "." + y;
    SplitAtDot(a, b, x, y);
  }

  lemma NamesDiffer(k: Key, l: Key)
    requires Name(k) == Name(l)
    ensures k == l
  {
    if k.At? && l.At? {
      SplitName(PrintNat(k.index), PrintNat(l.index), FieldName(k.field), FieldName(l.field));
      PrintNatInjective(k.index, l.index);
      FieldNamesDiffer(k.field, l.field);
    } else {
      assert Name(k)[0] == Name(l)[0];
    }
  }
}
