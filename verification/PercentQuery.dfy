/**
 * The `id=..&id=..` query the client builds and the mock server parses, on bytes. Percent
 * encoding is that of sections 2.1 and 2.3 of RFC 3986.
 */
module PercentQuery {
  import opened Options

  type Byte = n: nat | n < 256
  type Bytes = seq<Byte>

  const PERCENT: Byte := 0x25
  const AMPERSAND: Byte := 0x26
  const PLUS: Byte := 0x2B
  const ID_PREFIX: Bytes := [0x69, 0x64, 0x3D]

  // ---- Encoding ------------------------------------------------------------------------

  predicate IsUnreserved(b: Byte) {
    || 0x41 <= b <= 0x5A || 0x61 <= b <= 0x7A || 0x30 <= b <= 0x39
    || b == 0x2D || b == 0x5F || b == 0x2E || b == 0x7E
  }

  function HexDigit(n: nat): Byte
    requires n < 16
  {
    if n < 10 then 0x30 + n else 0x41 + (n - 10)
  }

  function EncodeByte(b: Byte): Bytes {
    if IsUnreserved(b) then [b] else [PERCENT, HexDigit(b / 16), HexDigit(b % 16)]
  }

  function EncodeSegment(s: Bytes): Bytes {
    if s == [] then [] else EncodeByte(s[0]) + EncodeSegment(s[1..])
  }

  function JoinPairs(pairs: seq<Bytes>): Bytes {
    if pairs == [] then []
    else if |pairs| == 1 then pairs[0]
    else pairs[0] + [AMPERSAND] + JoinPairs(pairs[1..])
  }

  function Pairs(ids: seq<Bytes>): (r: seq<Bytes>)
    ensures |r| == |ids| && forall i :: 0 <= i < |ids| ==> r[i] == ID_PREFIX + EncodeSegment(ids[i])
  {
    seq(|ids|, i requires 0 <= i < |ids| => ID_PREFIX + EncodeSegment(ids[i]))
  }

  function BuildQuery(ids: seq<Bytes>): Bytes {
    JoinPairs(Pairs(ids))
  }

  // ---- Decoding ------------------------------------------------------------------------

  function HexValue(b: Byte): (r: Option<nat>)
    ensures r.Some? ==> r.value < 16
  {
    if 0x30 <= b <= 0x39 then Some(b - 0x30)
    else if 0x41 <= b <= 0x46 then Some(b - 0x41 + 10)
    else if 0x61 <= b <= 0x66 then Some(b - 0x61 + 10)
    else None
  }

  /** `u8::from_str_radix` of two bytes, which also takes a plus sign and one digit. */
  function ParseHexPair(a: Byte, b: Byte): (r: Option<Byte>)
  {
    var high, low := HexValue(a), HexValue(b);
    if low.None? then None
    else if a == PLUS then Some(low.value)
    else if high.None? then None
    else Some(16 * high.value + low.value)
  }

  /** The escape at the front of `s`, if there is one. */
  function EscapeAt(s: Bytes): Option<Byte> {
    if |s| > 2 && s[0] == PERCENT then ParseHexPair(s[1], s[2]) else None
  }

  function DecodeBytes(s: Bytes): Bytes {
    if s == [] then []
    else if EscapeAt(s).Some? then [EscapeAt(s).value] + DecodeBytes(s[3..])
    else [s[0]] + DecodeBytes(s[1..])
  }

  /** `isUtf8` is the UTF-8 check; input that does not decode to UTF-8 stays as it is. */
  function PercentDecoded(s: Bytes, isUtf8: Bytes -> bool): Bytes {
    if isUtf8(DecodeBytes(s)) then DecodeBytes(s) else s
  }

  method PercentDecode(input: Bytes, isUtf8: Bytes -> bool) returns (r: Bytes)
    ensures r == PercentDecoded(input, isUtf8)
  {
    var out: Bytes := [];
    var i := 0;
    assert input[0..] == input;
    while i < |input|
      invariant 0 <= i <= |input|
      invariant out + DecodeBytes(input[i..]) == DecodeBytes(input)
    {
      TakeStep(input, i, out);
      if input[i] == PERCENT && i + 2 < |input| {
        var byte := ParseHexPair(input[i + 1], input[i + 2]);
        if byte.Some? {
          out := out + [byte.value];
          i := i + 3;
          continue;
        }
      }
      out := out + [input[i]];
      i := i + 1;
    }
    assert input[i..] == [] && out + [] == out;
    r := if isUtf8(out) then out else input;
  }

  /** One turn of the decoder moves a byte, or an escape, to the output. */
  lemma TakeStep(input: Bytes, i: nat, out: Bytes)
    requires i < |input|
    ensures
      var escape := if input[i] == PERCENT && i + 2 < |input| then ParseHexPair(input[i + 1], input[i + 2]) else None;
      out + DecodeBytes(input[i..]) ==
      if escape.Some? then (out + [escape.value]) + DecodeBytes(input[i + 3..])
      else (out + [input[i]]) + DecodeBytes(input[i + 1..])
  {
    var rest := input[i..];
    if EscapeAt(rest).Some? {
      assert rest[3..] == input[i + 3..];
    } else {
      assert rest[1..] == input[i + 1..];
    }
  }

  function Split(s: Bytes): (r: seq<Bytes>)
    ensures r != []
  {
    if s == [] then [[]]
    else
      var rest := Split(s[1..]);
      if s[0] == AMPERSAND then [[]] + rest else [[s[0]] + rest[0]] + rest[1..]
  }

  function ParsePairs(pairs: seq<Bytes>, isUtf8: Bytes -> bool): seq<Bytes> {
    if pairs == [] then []
    else
      var rest := ParsePairs(pairs[1..], isUtf8);
      if ID_PREFIX <= pairs[0] then [PercentDecoded(pairs[0][|ID_PREFIX|..], isUtf8)] + rest else rest
  }

  function ParseQuery(query: Bytes, isUtf8: Bytes -> bool): seq<Bytes> {
    ParsePairs(Split(query), isUtf8)
  }

  // ---- The round trip ------------------------------------------------------------------

  lemma HexRoundTrip(b: Byte)
    ensures ParseHexPair(HexDigit(b / 16), HexDigit(b % 16)) == Some(b)
  {
    assert b == 16 * (b / 16) + b % 16;
  }

  /** An encoded byte decodes to itself whatever follows it. */
  lemma DecodeOne(b: Byte, rest: Bytes)
    ensures DecodeBytes(EncodeByte(b) + rest) == [b] + DecodeBytes(rest)
  {
    var s := EncodeByte(b) + rest;
    if IsUnreserved(b) {
      assert s[1..] == rest && EscapeAt(s).None?;
    } else {
      HexRoundTrip(b);
      assert s[3..] == rest && EscapeAt(s) == Some(b);
    }
  }

  lemma {:induction false} DecodeEncode(s: Bytes)
    ensures DecodeBytes(EncodeSegment(s)) == s
  {
    if s != [] {
      DecodeEncode(s[1..]);
      DecodeOne(s[0], EncodeSegment(s[1..]));
    }
  }

  /** Only unreserved bytes and escapes come out, so a segment never looks like a separator. */
  lemma {:induction false} EncodedBytes(s: Bytes, k: nat)
    requires k < |EncodeSegment(s)|
    ensures IsUnreserved(EncodeSegment(s)[k]) || EncodeSegment(s)[k] == PERCENT
  {
    var n := |EncodeByte(s[0])|;
    if k >= n { EncodedBytes(s[1..], k - n); }
  }

  predicate NoSeparator(s: Bytes) {
    AMPERSAND !in s
  }

  lemma {:induction false} SplitOne(s: Bytes)
    requires NoSeparator(s)
    ensures Split(s) == [s]
  {
    if s != [] {
      assert s[0] in s;
      assert forall b :: b in s[1..] ==> b in s;
      SplitOne(s[1..]);
      assert [s[0]] + s[1..] == s;
    }
  }

  lemma {:induction false} SplitFront(s: Bytes, rest: Bytes)
    requires NoSeparator(s)
    ensures Split(s + [AMPERSAND] + rest) == [s] + Split(rest)
  {
    var whole := s + [AMPERSAND] + rest;
    if s == [] {
      assert whole[1..] == rest;
    } else {
      assert s[0] in s;
      assert forall b :: b in s[1..] ==> b in s;
      SplitFront(s[1..], rest);
      assert whole[1..] == s[1..] + [AMPERSAND] + rest;
      assert [s[0]] + s[1..] == s;
    }
  }

  lemma {:induction false} SplitJoin(pairs: seq<Bytes>)
    requires pairs != [] && forall i :: 0 <= i < |pairs| ==> NoSeparator(pairs[i])
    ensures Split(JoinPairs(pairs)) == pairs
  {
    if |pairs| == 1 {
      SplitOne(pairs[0]);
    } else {
      SplitJoin(pairs[1..]);
      SplitFront(pairs[0], JoinPairs(pairs[1..]));
    }
  }

  lemma {:induction false} ParseBuilt(ids: seq<Bytes>, isUtf8: Bytes -> bool)
    requires forall i :: 0 <= i < |ids| ==> isUtf8(ids[i])
    ensures ParsePairs(Pairs(ids), isUtf8) == ids
  {
    if ids != [] {
      assert Pairs(ids)[1..] == Pairs(ids[1..]);
      ParseBuilt(ids[1..], isUtf8);
      DecodeEncode(ids[0]);
      assert Pairs(ids)[0][|ID_PREFIX|..] == EncodeSegment(ids[0]);
    }
  }

  /** For every list of UTF-8 ids, empty ones and the empty list included. */
  lemma QueryRoundTrip(ids: seq<Bytes>, isUtf8: Bytes -> bool)
    requires forall i :: 0 <= i < |ids| ==> isUtf8(ids[i])
    ensures ParseQuery(BuildQuery(ids), isUtf8) == ids
  {
    if ids == [] {
      assert Split(BuildQuery(ids)) == [[]];
    } else {
      forall i | 0 <= i < |ids| ensures NoSeparator(Pairs(ids)[i]) {
        forall k | 0 <= k < |EncodeSegment(ids[i])| ensures EncodeSegment(ids[i])[k] != AMPERSAND {
          EncodedBytes(ids[i], k);
        }
      }
      SplitJoin(Pairs(ids));
      ParseBuilt(ids, isUtf8);
    }
  }
}
