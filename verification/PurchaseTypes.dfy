/** The values the Play correlation store and its journal exchange. */
module PurchaseTypes {
  import opened Options

  type Token = string
  type ProductId = string

  /** One `Invoke`; the store only ever hands it back. */
  type Callback = nat

  const MAX_CORRELATED_PURCHASES: nat := 32

  /** 64-bit integers; nothing here computes with them. */
  type Long = n: int | MIN_LONG <= n <= MAX_LONG

  const MIN_LONG: int := -0x8000_0000_0000_0000
  const MAX_LONG: int := 0x7FFF_FFFF_FFFF_FFFF

  datatype ReceiptTargetingRule = ReceiptTargetingRule(ruleId: string, revision: Long)

  datatype NativeReceiptContext = NativeReceiptContext(
    presentedOfferingIdentifier: Option<string>,
    presentedPlacementIdentifier: Option<string>,
    appliedTargetingRule: Option<ReceiptTargetingRule>,
    priceMicros: Option<Long>,
    currency: Option<string>,
    normalDuration: Option<string>,
    sdkOriginated: bool)

  datatype NativePurchaseContext = NativePurchaseContext(
    productId: string,
    basePlanId: Option<string>,
    offerId: Option<string>,
    receiptContext: Option<NativeReceiptContext>)

  /** Kotlin's `Char.isWhitespace()`. */
  predicate IsWhitespace(c: char) {
    var n := c as int;
    || 0x09 <= n <= 0x0D || 0x1C <= n <= 0x20 || n == 0xA0 || n == 0x1680
    || 0x2000 <= n <= 0x200A || n == 0x2028 || n == 0x2029 || n == 0x202F || n == 0x205F || n == 0x3000
  }

  /** Kotlin's `String.isBlank()`. */
  predicate IsBlank(s: string) {
    forall i :: 0 <= i < |s| ==> IsWhitespace(s[i])
  }
}
