/**
 * Standard Base64 (section 4 of RFC 4648): the alphabet A-Z a-z 0-9 + /
 * with `=` padding, as Go's `base64.StdEncoding` decodes it. That decoder
 * skips carriage returns and line feeds anywhere in its input and does not
 * insist that the unused low bits of a padded final quantum are zero; it
 * does insist on complete padding and on nothing but line breaks after it.
 */
module Base64 {
  import opened Wrappers

  type byte = bv8

  const Pad: byte := 61      // '='
  const CR: byte := 13
  const LF: byte := 10

  /** The 64 symbols of the standard alphabet. */
  predicate IsSymbol(c: byte) {
    (65 <= c <= 90) || (97 <= c <= 122) || (48 <= c <= 57) || c == 43 || c == 47
  }

  /** The symbol for a 6-bit value. */
  function Symbol(v: byte): (c: byte)
    requires v < 64
    ensures IsSymbol(c)
  {
    if v < 26 then v + 65            // 'A'..'Z'
    else if v < 52 then v + 71       // 'a'..'z'
    else if v < 62 then v - 4        // '0'..'9'
    else if v == 62 then 43          // '+'
    else 47                          // '/'
  }

  /** The 6-bit value of a symbol. */
  function Value(c: byte): (v: byte)
    requires IsSymbol(c)
    ensures v < 64
  {
    if 65 <= c <= 90 then c - 65
    else if 97 <= c <= 122 then c - 71
    else if 48 <= c <= 57 then c + 4
    else if c == 43 then 62
    else 63
  }

  /** The alphabet is a bijection between 6-bit values and symbols. */
  lemma SymbolValue(v: byte)
    requires v < 64
    ensures Value(Symbol(v)) == v
  {
  }

  lemma ValueSymbol(c: byte)
    requires IsSymbol(c)
    ensures Symbol(Value(c)) == c
  {
  }

  // ---------------------------------------------------------------- encoding

  /** Three bytes as four symbols. */
  function EncodeTriple(b0: byte, b1: byte, b2: byte): seq<byte> {
    [Symbol(b0 >> 2), Symbol(((b0 & 3) << 4) | (b1 >> 4)), Symbol(((b1 & 15) << 2) | (b2 >> 6)), Symbol(b2 & 63)]
  }

  /** Padded standard encoding: four symbols per three bytes, the last group padded with `=`. */
  function Encode(b: seq<byte>): (s: seq<byte>)
    ensures |s| % 4 == 0
    ensures |s| == 4 * ((|b| + 2) / 3)
    ensures forall i :: 0 <= i < |s| ==> IsSymbol(s[i]) || s[i] == Pad
    decreases |b|
  {
    if |b| == 0 then []
    else if |b| == 1 then [Symbol(b[0] >> 2), Symbol((b[0] & 3) << 4), Pad, Pad]
    else if |b| == 2 then [Symbol(b[0] >> 2), Symbol(((b[0] & 3) << 4) | (b[1] >> 4)), Symbol((b[1] & 15) << 2), Pad]
    else EncodeTriple(b[0], b[1], b[2]) + Encode(b[3..])
  }

  // ---------------------------------------------------------------- decoding

  /** The input with every carriage return and line feed removed. */
  function SkipLineBreaks(s: seq<byte>): (r: seq<byte>)
    ensures forall i :: 0 <= i < |r| ==> r[i] != CR && r[i] != LF
    ensures forall i :: 0 <= i < |s| && s[i] != CR && s[i] != LF ==> s[i] in r
    ensures |r| <= |s|
    ensures |s| == 1 ==> r == (if s[0] == CR || s[0] == LF then [] else s)
  {
    if s == [] then []
    else if s[0] == CR || s[0] == LF then SkipLineBreaks(s[1..])
    else [s[0]] + SkipLineBreaks(s[1..])
  }

  /**
   * Line breaks are removed piece by piece: with the one-byte case above,
   * this makes the result the input's other bytes, in order and with their
   * repetitions.
   */
  lemma {:induction false} SkipLineBreaksAppend(a: seq<byte>, b: seq<byte>)
    ensures SkipLineBreaks(a + b) == SkipLineBreaks(a) + SkipLineBreaks(b)
    decreases |a|
  {
    if a == [] {
      assert a + b == b;
    } else {
      assert (a + b)[0] == a[0];
      assert (a + b)[1..] == a[1..] + b;
      SkipLineBreaksAppend(a[1..], b);
    }
  }

  /** Four symbols, none of them padding, as three bytes. */
  function DecodeQuantum(c0: byte, c1: byte, c2: byte, c3: byte): Option<seq<byte>> {
    if IsSymbol(c0) && IsSymbol(c1) && IsSymbol(c2) && IsSymbol(c3) then
      var v0, v1, v2, v3 := Value(c0), Value(c1), Value(c2), Value(c3);
      Some([(v0 << 2) | (v1 >> 4), (v1 << 4) | (v2 >> 2), (v2 << 6) | v3])
    else None
  }

  /**
   * The last quantum: four symbols, or two symbols and `==`, or three symbols
   * and `=`. The bits a padded quantum does not use are ignored.
   */
  function DecodeFinal(c0: byte, c1: byte, c2: byte, c3: byte): Option<seq<byte>> {
    if c2 == Pad && c3 == Pad then
      if IsSymbol(c0) && IsSymbol(c1) then Some([(Value(c0) << 2) | (Value(c1) >> 4)]) else None
    else if c3 == Pad then
      if IsSymbol(c0) && IsSymbol(c1) && IsSymbol(c2) then
        Some([(Value(c0) << 2) | (Value(c1) >> 4), (Value(c1) << 4) | (Value(c2) >> 2)])
      else None
    else DecodeQuantum(c0, c1, c2, c3)
  }

  /** Decoding of input without line breaks: whole quanta, padding only in the last. */
  function DecodeQuanta(s: seq<byte>): (r: Option<seq<byte>>)
    ensures r.Some? ==> |s| % 4 == 0 && 3 * (|s| / 4) - 2 <= |r.value| <= 3 * (|s| / 4)
    ensures r.Some? ==> forall c :: c in s ==> IsSymbol(c) || c == Pad
    decreases |s|
  {
    if |s| == 0 then Some([])
    else if |s| < 4 then None
    else if |s| == 4 then DecodeFinal(s[0], s[1], s[2], s[3])
    else
      match DecodeQuantum(s[0], s[1], s[2], s[3])
      case None => None
      case Some(head) =>
        match DecodeQuanta(s[4..])
        case None => None
        case Some(tail) => Some(head + tail)
  }

  /** `base64.StdEncoding.DecodeString`: `None` where Go reports a `CorruptInputError`. */
  function Decode(s: seq<byte>): (r: Option<seq<byte>>)
    ensures r.Some? ==> |r.value| <= 3 * (|s| / 4)
    ensures r.Some? ==> forall i :: 0 <= i < |s| ==> IsSymbol(s[i]) || s[i] == Pad || s[i] == CR || s[i] == LF
  {
    DecodeQuanta(SkipLineBreaks(s))
  }

  /** A CR or LF anywhere in the input is ignored, as Go's decoder skips `\r` and `\n`. */
  lemma DecodeIgnoresLineBreak(a: seq<byte>, c: byte, b: seq<byte>)
    requires c == CR || c == LF
    ensures Decode(a + [c] + b) == Decode(a + b)
  {
    SkipLineBreaksAppend(a + [c], b);
    SkipLineBreaksAppend(a, [c]);
    SkipLineBreaksAppend(a, b);
    assert SkipLineBreaks([c]) == [];
    assert SkipLineBreaks(a + [c] + b) == SkipLineBreaks(a + b);
  }

  // ---------------------------------------------------------------- round trip

  lemma {:induction false} SkipLineBreaksIdentity(s: seq<byte>)
    requires forall i :: 0 <= i < |s| ==> s[i] != CR && s[i] != LF
    ensures SkipLineBreaks(s) == s
  {
    if s != [] {
      SkipLineBreaksIdentity(s[1..]);
    }
  }

  lemma TripleRoundTrip(b0: byte, b1: byte, b2: byte)
    ensures var e := EncodeTriple(b0, b1, b2); DecodeQuantum(e[0], e[1], e[2], e[3]) == Some([b0, b1, b2])
  {
    SymbolValue(b0 >> 2);
    SymbolValue(((b0 & 3) << 4) | (b1 >> 4));
    SymbolValue(((b1 & 15) << 2) | (b2 >> 6));
    SymbolValue(b2 & 63);
  }

  /** Decoding what was encoded gives back the bytes, for every byte string. */
  lemma {:induction false} DecodeEncode(b: seq<byte>)
    ensures Decode(Encode(b)) == Some(b)
  {
    SkipLineBreaksIdentity(Encode(b));
    DecodeQuantaEncode(b);
  }

  lemma DecodeOneByte(b: seq<byte>)
    requires |b| == 1
    ensures DecodeQuanta(Encode(b)) == Some(b)
  {
    var v0, v1 := b[0] >> 2, (b[0] & 3) << 4;
    SymbolValue(v0);
    SymbolValue(v1);
    assert Encode(b) == [Symbol(v0), Symbol(v1), Pad, Pad];
    assert (v0 << 2) | (v1 >> 4) == b[0];
    assert DecodeFinal(Symbol(v0), Symbol(v1), Pad, Pad) == Some([b[0]]);
    assert b == [b[0]];
  }

  lemma PairBits(x: byte, y: byte)
    ensures ((x >> 2) << 2) | ((((x & 3) << 4) | (y >> 4)) >> 4) == x
    ensures ((((x & 3) << 4) | (y >> 4)) << 4) | (((y & 15) << 2) >> 2) == y
  {
  }

  lemma DecodeFinalTwo(c0: byte, c1: byte, c2: byte)
    requires IsSymbol(c0) && IsSymbol(c1) && IsSymbol(c2)
    ensures DecodeFinal(c0, c1, c2, Pad) == Some([(Value(c0) << 2) | (Value(c1) >> 4), (Value(c1) << 4) | (Value(c2) >> 2)])
  {
  }

  lemma FinalPair(x: byte, y: byte)
    ensures DecodeFinal(Symbol(x >> 2), Symbol(((x & 3) << 4) | (y >> 4)), Symbol((y & 15) << 2), Pad) == Some([x, y])
  {
    var v0, v1, v2 := x >> 2, ((x & 3) << 4) | (y >> 4), (y & 15) << 2;
    var c0, c1, c2 := Symbol(v0), Symbol(v1), Symbol(v2);
    DecodeFinalTwo(c0, c1, c2);
    SymbolValue(v0);
    SymbolValue(v1);
    SymbolValue(v2);
    PairBits(x, y);
  }

  lemma DecodeTwoBytes(b: seq<byte>)
    requires |b| == 2
    ensures DecodeQuanta(Encode(b)) == Some(b)
  {
    assert Encode(b) == [Symbol(b[0] >> 2), Symbol(((b[0] & 3) << 4) | (b[1] >> 4)), Symbol((b[1] & 15) << 2), Pad];
    FinalPair(b[0], b[1]);
    assert b == [b[0], b[1]];
  }

  lemma DecodeThreeBytes(b: seq<byte>)
    requires |b| == 3
    ensures DecodeQuanta(Encode(b)) == Some(b)
  {
    var e := EncodeTriple(b[0], b[1], b[2]);
    assert Encode(b) == e + Encode(b[3..]);
    assert Encode(b[3..]) == [];
    TripleRoundTrip(b[0], b[1], b[2]);
    assert IsSymbol(e[2]) && IsSymbol(e[3]);
    assert b == [b[0], b[1], b[2]];
  }

  lemma {:induction false} DecodeQuantaEncode(b: seq<byte>)
    ensures DecodeQuanta(Encode(b)) == Some(b)
    decreases |b|
  {
    if |b| == 0 {
    } else if |b| == 1 {
      DecodeOneByte(b);
    } else if |b| == 2 {
      DecodeTwoBytes(b);
    } else if |b| == 3 {
      DecodeThreeBytes(b);
    } else {
      var e := Encode(b);
      var head := EncodeTriple(b[0], b[1], b[2]);
      assert e == head + Encode(b[3..]);
      assert e[..4] == head && e[4..] == Encode(b[3..]);
      TripleRoundTrip(b[0], b[1], b[2]);
      DecodeQuantaEncode(b[3..]);
      assert b == [b[0], b[1], b[2]] + b[3..];
    }
  }
}
