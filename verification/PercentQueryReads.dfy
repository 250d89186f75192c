/** Which bytes are escaped, and what any query, well formed or not, is read as. */
module PercentQueryReads {
  import opened Options
  import opened PercentQuery

  // ---- Escapes -------------------------------------------------------------------------

  const UPPER := "0123456789ABCDEF"
  const LOWER := "0123456789abcdef"

  /** The byte is this digit in either case. */
  predicate Digit(b: Byte, value: nat) {
    value < 16 && (b == UPPER[value] as int || b == LOWER[value] as int)
  }

  lemma HexValueExactly(b: Byte, value: nat)
    ensures HexValue(b) == Some(value) <==> Digit(b, value)
  {
  }

  /** Two digits in either case, or a plus sign and one digit, are an escape's value. */
  lemma EscapesExactly(a: Byte, b: Byte, value: Byte)
    ensures
      ParseHexPair(a, b) == Some(value) <==>
      Digit(b, value % 16) && if value < 16 then a in [0x2B, '0' as int] else Digit(a, value / 16)
  {
    HexValueExactly(b, value % 16);
    HexValueExactly(a, value / 16);
    HexValueExactly(a, 0);
    ParsesDigits(a, b, value);
  }

  lemma ParsesDigits(a: Byte, b: Byte, value: Byte)
    ensures
      ParseHexPair(a, b) == Some(value) <==>
      HexValue(b) == Some(value % 16) && if value < 16 then a == 0x2B || HexValue(a) == Some(0) else HexValue(a) == Some(value / 16)
  {
    var high, low := HexValue(a), HexValue(b);
    if high.Some? && low.Some? {
      assert (16 * high.value + low.value) / 16 == high.value && (16 * high.value + low.value) % 16 == low.value;
    }
  }

  predicate Unreserved(c: char) {
    'A' <= c <= 'Z' || 'a' <= c <= 'z' || '0' <= c <= '9' || c in "-_.~"
  }

  /** Unreserved characters stay as they are; any other byte becomes a percent sign and two upper-case digits. */
  lemma EncodesExactly(b: Byte)
    ensures
      EncodeByte(b) ==
      if Unreserved(b as char) then [b] else ['%' as int, UPPER[b / 16] as int, UPPER[b % 16] as int]
  {
  }

  // ---- Decoding any text ---------------------------------------------------------------

  /** An escape with this value begins here. */
  predicate EscapeBegins(s: Bytes, i: nat, value: Byte) {
    && i + 2 < |s| && s[i] == '%' as int
    && Digit(s[i + 2], value % 16) && if value < 16 then s[i + 1] in [0x2B, '0' as int] else Digit(s[i + 1], value / 16)
  }

  /** From here to there the text says this byte: by an escape, or by itself where none begins. */
  predicate Says(s: Bytes, i: nat, j: nat, value: Byte) {
    || (j == i + 3 && EscapeBegins(s, i, value))
    || (j == i + 1 && i < |s| && s[i] == value && forall v: Byte :: !EscapeBegins(s, i, v))
  }

  lemma EscapeIsThere(s: Bytes, i: nat, value: Byte)
    requires i < |s|
    ensures EscapeAt(s[i..]) == Some(value) <==> EscapeBegins(s, i, value)
  {
    if i + 2 < |s| { EscapesExactly(s[i + 1], s[i + 2], value); }
  }

  /** Where the decoder cuts: before each piece, and at the end. */
  function Cuts(s: Bytes, from: nat): (r: seq<nat>)
    requires from <= |s|
    decreases |s| - from
  {
    if from == |s| then [from]
    else if EscapeAt(s[from..]).Some? then [from] + Cuts(s, from + 3)
    else [from] + Cuts(s, from + 1)
  }

  /** From `from` on the text falls into pieces, cut here, that say these bytes. */
  predicate ReadsFrom(s: Bytes, from: nat, cuts: seq<nat>, out: Bytes) {
    && |cuts| == |out| + 1 && cuts[0] == from && cuts[|out|] == |s|
    && forall k :: 0 <= k < |out| ==> Says(s, cuts[k], cuts[k + 1], out[k])
  }

  predicate Reads(s: Bytes, cuts: seq<nat>, out: Bytes) {
    ReadsFrom(s, 0, cuts, out)
  }

  lemma DecodesOne(s: Bytes, from: nat, j: nat, value: Byte)
    requires from < |s|
    ensures
      Says(s, from, j, value) <==>
      if EscapeAt(s[from..]).Some? then j == from + 3 && EscapeAt(s[from..]).value == value else j == from + 1 && s[from] == value
    ensures EscapeAt(s[from..]).Some? ==> from + 3 <= |s|
  {
    var e := EscapeAt(s[from..]);
    forall v: Byte ensures e == Some(v) <==> EscapeBegins(s, from, v) {
      EscapeIsThere(s, from, v);
    }
    if e.Some? { assert EscapeBegins(s, from, e.value); }
  }

  lemma {:induction false} DecodesFrom(s: Bytes, from: nat)
    requires from <= |s|
    ensures ReadsFrom(s, from, Cuts(s, from), DecodeBytes(s[from..]))
    decreases |s| - from
  {
    if from < |s| {
      var e := EscapeAt(s[from..]);
      var next, value := if e.Some? then from + 3 else from + 1, if e.Some? then e.value else s[from];
      DecodesOne(s, from, next, value);
      assert s[from..][next - from..] == s[next..];
      DecodesFrom(s, next);
    }
  }

  lemma {:induction false} OnlyReading(s: Bytes, from: nat, cuts: seq<nat>, out: Bytes)
    requires from <= |s| && ReadsFrom(s, from, cuts, out)
    ensures DecodeBytes(s[from..]) == out
    decreases |out|
  {
    if out == [] {
      assert s[from..] == [];
    } else {
      assert Says(s, cuts[0], cuts[1], out[0]);
      DecodesOne(s, from, cuts[1], out[0]);
      assert s[from..][cuts[1] - from..] == s[cuts[1]..];
      forall k | 0 <= k < |out[1..]| ensures Says(s, cuts[1..][k], cuts[1..][k + 1], out[1..][k]) {
        assert Says(s, cuts[k + 1], cuts[k + 2], out[k + 1]);
      }
      OnlyReading(s, cuts[1], cuts[1..], out[1..]);
    }
  }

  /** Every text, with bad escapes or without, is decoded to the bytes that its pieces say. */
  lemma DecodesExactly(s: Bytes, out: Bytes)
    ensures DecodeBytes(s) == out <==> exists cuts :: Reads(s, cuts, out)
  {
    assert s[0..] == s;
    DecodesFrom(s, 0);
    if DecodeBytes(s) == out {
      assert Reads(s, Cuts(s, 0), out);
    }
    if cuts :| Reads(s, cuts, out) {
      OnlyReading(s, 0, cuts, out);
    }
  }

  // ---- Which parameters are ids --------------------------------------------------------

  lemma {:induction false} PartsHaveNone(s: Bytes)
    ensures forall i :: 0 <= i < |Split(s)| ==> NoSeparator(Split(s)[i])
  {
    if s != [] { PartsHaveNone(s[1..]); }
  }

  /** A separator begins a new part, and any other byte the first one. */
  lemma JoinsLonger(b: Byte, parts: seq<Bytes>)
    requires parts != []
    ensures JoinPairs([[]] + parts) == [AMPERSAND] + JoinPairs(parts)
    ensures JoinPairs([[b] + parts[0]] + parts[1..]) == [b] + JoinPairs(parts)
  {
    assert ([[]] + parts)[1..] == parts;
    assert ([[b] + parts[0]] + parts[1..])[1..] == parts[1..];
    if |parts| > 1 { assert [b] + parts[0] + [AMPERSAND] + JoinPairs(parts[1..]) == [b] + (parts[0] + [AMPERSAND] + JoinPairs(parts[1..])); }
  }

  lemma {:induction false} PartsJoin(s: Bytes)
    ensures JoinPairs(Split(s)) == s
  {
    if s != [] {
      PartsJoin(s[1..]);
      JoinsLonger(s[0], Split(s[1..]));
      assert s == [s[0]] + s[1..];
    }
  }

  lemma SplitParts(s: Bytes)
    ensures JoinPairs(Split(s)) == s && forall i :: 0 <= i < |Split(s)| ==> NoSeparator(Split(s)[i])
  {
    PartsHaveNone(s);
    PartsJoin(s);
  }

  /** A query's parts are the texts without `&` that make it up, joined by `&`. */
  lemma SplitsExactly(s: Bytes, parts: seq<Bytes>)
    ensures
      Split(s) == parts <==>
      parts != [] && JoinPairs(parts) == s && forall i :: 0 <= i < |parts| ==> NoSeparator(parts[i])
  {
    SplitParts(s);
    if parts != [] && JoinPairs(parts) == s && forall i :: 0 <= i < |parts| ==> NoSeparator(parts[i]) {
      SplitJoin(parts);
    }
  }

  /** What the part says after `id=`: decoded, or as it stands if that is not UTF-8. */
  ghost predicate GivesId(part: Bytes, isUtf8: Bytes -> bool, id: Bytes) {
    exists rest, decoded, cuts ::
      && part == ['i' as int, 'd' as int, '=' as int] + rest && Reads(rest, cuts, decoded)
      && id == if isUtf8(decoded) then decoded else rest
  }

  lemma GivesExactly(part: Bytes, isUtf8: Bytes -> bool, id: Bytes)
    ensures GivesId(part, isUtf8, id) <==> ID_PREFIX <= part && PercentDecoded(part[3..], isUtf8) == id
  {
    if ID_PREFIX <= part && PercentDecoded(part[3..], isUtf8) == id {
      var rest := part[3..];
      assert part == ID_PREFIX + rest;
      DecodesExactly(rest, DecodeBytes(rest));
      var cuts :| Reads(rest, cuts, DecodeBytes(rest));
    }
    if rest, decoded, cuts :|
      && part == ['i' as int, 'd' as int, '=' as int] + rest && Reads(rest, cuts, decoded)
      && id == if isUtf8(decoded) then decoded else rest
    {
      assert part[3..] == rest;
      DecodesExactly(rest, decoded);
    }
  }

  /** The ids are those of the parts at these places, and no other part gives one. */
  ghost predicate IdsAt(parts: seq<Bytes>, isUtf8: Bytes -> bool, places: seq<nat>, ids: seq<Bytes>) {
    && |places| == |ids|
    && (forall i, j :: 0 <= i < j < |places| ==> places[i] < places[j])
    && (forall k :: 0 <= k < |ids| ==> places[k] < |parts| && GivesId(parts[places[k]], isUtf8, ids[k]))
    && (forall i, id :: 0 <= i < |parts| && GivesId(parts[i], isUtf8, id) ==> i in places)
  }

  function IdPlaces(parts: seq<Bytes>): seq<nat> {
    if parts == [] then []
    else
      var n := |parts| - 1;
      IdPlaces(parts[..n]) + if ID_PREFIX <= parts[n] then [n] else []
  }

  lemma {:induction false} ParseSnoc(parts: seq<Bytes>, last: Bytes, isUtf8: Bytes -> bool)
    ensures
      ParsePairs(parts + [last], isUtf8) ==
      ParsePairs(parts, isUtf8) + if ID_PREFIX <= last then [PercentDecoded(last[3..], isUtf8)] else []
  {
    if parts != [] {
      assert (parts + [last])[1..] == parts[1..] + [last];
      ParseSnoc(parts[1..], last, isUtf8);
    }
  }

  lemma IdsAppend(parts: seq<Bytes>, isUtf8: Bytes -> bool, places: seq<nat>, ids: seq<Bytes>, last: Bytes)
    requires IdsAt(parts, isUtf8, places, ids)
    ensures
      if ID_PREFIX <= last then IdsAt(parts + [last], isUtf8, places + [|parts|], ids + [PercentDecoded(last[3..], isUtf8)])
      else IdsAt(parts + [last], isUtf8, places, ids)
  {
    GivesAll(last, isUtf8);
    if ID_PREFIX <= last {
      IdsAppendOne(parts, isUtf8, places, ids, last, PercentDecoded(last[3..], isUtf8));
    } else {
      forall i, id | 0 <= i <= |parts| && GivesId((parts + [last])[i], isUtf8, id) ensures i in places {
        assert i < |parts| && GivesId(parts[i], isUtf8, id);
      }
    }
  }

  lemma IdsAppendOne(parts: seq<Bytes>, isUtf8: Bytes -> bool, places: seq<nat>, ids: seq<Bytes>, last: Bytes, id: Bytes)
    requires IdsAt(parts, isUtf8, places, ids) && GivesId(last, isUtf8, id)
    ensures IdsAt(parts + [last], isUtf8, places + [|parts|], ids + [id])
  {
    var longer, more := parts + [last], places + [|parts|];
    forall i, given | 0 <= i < |longer| && GivesId(longer[i], isUtf8, given) ensures i in more {
      if i < |parts| {
        assert GivesId(parts[i], isUtf8, given) && i in places;
      } else {
        assert more[|places|] == i;
      }
    }
  }

  lemma {:induction false} IdsOf(parts: seq<Bytes>, isUtf8: Bytes -> bool)
    ensures IdsAt(parts, isUtf8, IdPlaces(parts), ParsePairs(parts, isUtf8))
  {
    if parts != [] {
      var front, last := parts[..|parts| - 1], parts[|parts| - 1];
      IdsOf(front, isUtf8);
      IdsAppend(front, isUtf8, IdPlaces(front), ParsePairs(front, isUtf8), last);
      ParseSnoc(front, last, isUtf8);
      assert parts == front + [last];
    }
  }

  lemma GivesAll(part: Bytes, isUtf8: Bytes -> bool)
    ensures forall id :: GivesId(part, isUtf8, id) <==> ID_PREFIX <= part && PercentDecoded(part[3..], isUtf8) == id
  {
    forall id ensures GivesId(part, isUtf8, id) <==> ID_PREFIX <= part && PercentDecoded(part[3..], isUtf8) == id {
      GivesExactly(part, isUtf8, id);
    }
  }

  /** The parts of the query are these, and the ids those of its `id` parameters. */
  ghost predicate IsRead(query: Bytes, isUtf8: Bytes -> bool, parts: seq<Bytes>, places: seq<nat>, ids: seq<Bytes>) {
    && parts != [] && JoinPairs(parts) == query && (forall i :: 0 <= i < |parts| ==> NoSeparator(parts[i]))
    && IdsAt(parts, isUtf8, places, ids)
  }

  /** Any query is read as the ids of its `id` parameters, in order; other parameters are passed over. */
  lemma ReadsEveryId(query: Bytes, isUtf8: Bytes -> bool)
    ensures exists parts, places :: IsRead(query, isUtf8, parts, places, ParseQuery(query, isUtf8))
  {
    SplitParts(query);
    IdsOf(Split(query), isUtf8);
    assert IsRead(query, isUtf8, Split(query), IdPlaces(Split(query)), ParseQuery(query, isUtf8));
  }
}
