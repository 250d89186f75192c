/** Exactly which texts are App User IDs, and which of those are anonymous. */
module IdentityIds {
  import opened Options
  import opened IdentityModel

  // ---- UTF-8, as in section 3 of RFC 3629 ----------------------------------------------

  function Utf8Char(c: char): seq<nat> {
    var n := c as int;
    if n <= 0x7F then [n]
    else if n <= 0x7FF then [0xC0 + n / 64, 0x80 + n % 64]
    else if n <= 0xFFFF then [0xE0 + n / 4096, 0x80 + n / 64 % 64, 0x80 + n % 64]
    else [0xF0 + n / 262144, 0x80 + n / 4096 % 64, 0x80 + n / 64 % 64, 0x80 + n % 64]
  }

  function Utf8(s: string): seq<nat> {
    if s == "" then [] else Utf8(s[..|s| - 1]) + Utf8Char(s[|s| - 1])
  }

  /** The number that the sequence at the front of `bytes` stands for. */
  function Scalar(bytes: seq<nat>): Option<nat> {
    if |bytes| >= 1 && bytes[0] < 0x80 then Some(bytes[0])
    else if |bytes| >= 2 && 0xC0 <= bytes[0] < 0xE0 && bytes[1] >= 0x80 then Some(64 * (bytes[0] - 0xC0) + (bytes[1] - 0x80))
    else if |bytes| >= 3 && 0xE0 <= bytes[0] < 0xF0 && bytes[1] >= 0x80 && bytes[2] >= 0x80 then
      Some(4096 * (bytes[0] - 0xE0) + 64 * (bytes[1] - 0x80) + (bytes[2] - 0x80))
    else if |bytes| >= 4 && 0xF0 <= bytes[0] && bytes[1] >= 0x80 && bytes[2] >= 0x80 && bytes[3] >= 0x80 then
      Some(262144 * (bytes[0] - 0xF0) + 4096 * (bytes[1] - 0x80) + 64 * (bytes[2] - 0x80) + (bytes[3] - 0x80))
    else None
  }

  lemma Digits64(n: nat)
    ensures n / 64 == 64 * (n / 4096) + n / 64 % 64
    ensures n / 4096 == 64 * (n / 262144) + n / 4096 % 64
  {
  }

  lemma ShortDecodes(c: char, rest: seq<nat>)
    requires c as int <= 0xFFFF
    ensures Scalar(Utf8Char(c) + rest) == Some(c as int)
  {
    Digits64(c as int);
  }

  lemma LongDecodes(c: char, rest: seq<nat>)
    requires c as int > 0xFFFF
    ensures Scalar(Utf8Char(c) + rest) == Some(c as int)
  {
    Digits64(c as int);
  }

  lemma Utf8Decodes(c: char, rest: seq<nat>)
    ensures Scalar(Utf8Char(c) + rest) == Some(c as int)
  {
    if c as int <= 0xFFFF { ShortDecodes(c, rest); } else { LongDecodes(c, rest); }
  }

  lemma {:induction false} LengthSnoc(s: string)
    requires s != ""
    ensures Utf8Length(s) == Utf8Length(s[..|s| - 1]) + |Utf8Char(s[|s| - 1])|
  {
    if |s| > 1 {
      LengthSnoc(s[1..]);
      assert s[1..][..|s| - 2] == s[..|s| - 1][1..];
    } else {
      assert s[1..] == "" && s[..0] == "";
    }
  }

  /** The length that is checked is that of the text's UTF-8 bytes. */
  lemma {:induction false} CountsBytes(s: string)
    ensures Utf8Length(s) == |Utf8(s)|
  {
    if s != "" {
      LengthSnoc(s);
      CountsBytes(s[..|s| - 1]);
    }
  }

  // ---- Blank texts ---------------------------------------------------------------------

  /** The characters with Unicode's property White_Space. */
  predicate WhiteSpace(c: char) {
    || c in "\t\n\U{0B}\U{0C}\r \U{85}\U{A0}\U{1680}\U{2028}\U{2029}\U{202F}\U{205F}\U{3000}"
    || c in "\U{2000}\U{2001}\U{2002}\U{2003}\U{2004}\U{2005}\U{2006}\U{2007}\U{2008}\U{2009}\U{200A}"
  }

  lemma WhitespaceExactly(c: char)
    ensures IsWhitespace(c) <==> WhiteSpace(c)
  {
  }

  // ---- Valid and anonymous ids ---------------------------------------------------------

  /** An id is valid exactly if it has some other character than white space, and at most 1024 bytes in UTF-8. */
  lemma ValidIdsExactly(id: UserId)
    ensures ValidAppUserId(id) <==> |Utf8(id)| <= 1024 && exists i :: 0 <= i < |id| && !WhiteSpace(id[i])
  {
    CountsBytes(id);
    forall i | 0 <= i < |id| ensures IsWhitespace(id[i]) <==> WhiteSpace(id[i]) {
      WhitespaceExactly(id[i]);
    }
  }

  predicate LowerHex(s: string) {
    forall i :: 0 <= i < |s| ==> s[i] in "0123456789abcdef"
  }

  /** The anonymous ids are exactly the prefix with 32 lower-case hexadecimal digits. */
  lemma AnonymousIdsExactly(id: UserId)
    ensures IsAnonymousId(id) <==> exists hex: string :: |hex| == 32 && LowerHex(hex) && id == "$RCAnonymousID:" + hex
  {
    if IsAnonymousId(id) {
      var hex := id[15..];
      forall i | 0 <= i < 32 ensures hex[i] in "0123456789abcdef" {
        assert IsLowerHex(id[15 + i]);
        LowerHexIsDigit(hex[i]);
      }
      assert id == "$RCAnonymousID:" + hex;
    }
    if hex: string :| |hex| == 32 && LowerHex(hex) && id == "$RCAnonymousID:" + hex {
      forall i | 15 <= i < |id| ensures IsLowerHex(id[i]) {
        LowerHexIsDigit(hex[i - 15]);
      }
    }
  }

  lemma LowerHexIsDigit(c: char)
    ensures IsLowerHex(c) <==> c in "0123456789abcdef"
  {
  }
}
