/** Bytes, their hexadecimal text, and the lenient reading `Buffer.from(text, 'hex')` gives it. */
module Hex {
  import opened Wrappers
  import opened Utf16

  type Byte = b: int | 0 <= b < 0x100

  type Bytes = seq<Byte>

  /** The lower-case digit of a value below sixteen. */
  function Digit(n: int): CodeUnit
    requires 0 <= n < 16
  {
    if n < 10 then 0x30 + n else 0x57 + n
  }

  /** The value of a hexadecimal digit in either case. */
  function DigitValue(u: CodeUnit): (v: Option<int>)
    ensures v.Some? ==> 0 <= v.value < 16
  {
    if 0x30 <= u <= 0x39 then Some(u - 0x30)
    else if 0x61 <= u <= 0x66 then Some(u - 0x57)
    else if 0x41 <= u <= 0x46 then Some(u - 0x37)
    else None
  }

  /** `Buffer.toString('hex')`. */
  function Encode(bytes: Bytes): (t: Text)
    ensures |t| == 2 * |bytes|
  {
    if bytes == [] then []
    else [Digit(bytes[0] / 16), Digit(bytes[0] % 16)] + Encode(bytes[1..])
  }

  /** `Buffer.from(text, 'hex')`: reading stops before the first pair that is not two digits. */
  function Decode(t: Text): (bytes: Bytes)
    ensures 2 * |bytes| <= |t|
  {
    if |t| < 2 then []
    else
      match (DigitValue(t[0]), DigitValue(t[1]))
      case (Some(high), Some(low)) => [16 * high + low] + Decode(t[2..])
      case _ => []
  }

  lemma {:induction false} DecodeEncode(bytes: Bytes)
    ensures Decode(Encode(bytes)) == bytes
  {
    if bytes != [] {
      var t := Encode(bytes);
      DecodeEncode(bytes[1..]);
      assert t[2..] == Encode(bytes[1..]);
      assert 16 * (bytes[0] / 16) + bytes[0] % 16 == bytes[0];
      assert bytes == [bytes[0]] + bytes[1..];
    }
  }

  lemma EncodeInjective(a: Bytes, b: Bytes)
    requires Encode(a) == Encode(b)
    ensures a == b
  {
    DecodeEncode(a);
    DecodeEncode(b);
  }

  predicate IsLowerDigit(u: CodeUnit) {
    0x30 <= u <= 0x39 || 0x61 <= u <= 0x66
  }

  /** The text of a digest as this code prints it: an even number of lower-case digits. */
  predicate IsLowerHex(t: Text) {
    |t| % 2 == 0 && forall i :: 0 <= i < |t| ==> IsLowerDigit(t[i])
  }

  lemma {:induction false} EncodeIsLowerHex(bytes: Bytes)
    ensures IsLowerHex(Encode(bytes))
  {
    if bytes != [] {
      EncodeIsLowerHex(bytes[1..]);
    }
  }

  lemma LowerDigitReturns(u: CodeUnit)
    requires IsLowerDigit(u)
    ensures DigitValue(u).Some? && Digit(DigitValue(u).value) == u
  {
  }

  /** On lower-case text the lenient reading loses nothing. */
  lemma {:induction false} EncodeDecode(t: Text)
    requires IsLowerHex(t)
    ensures Encode(Decode(t)) == t && 2 * |Decode(t)| == |t|
  {
    if t != [] {
      EncodeDecode(t[2..]);
      LowerDigitReturns(t[0]);
      LowerDigitReturns(t[1]);
      var high, low := DigitValue(t[0]).value, DigitValue(t[1]).value;
      assert Decode(t) == [16 * high + low] + Decode(t[2..]);
      assert (16 * high + low) / 16 == high && (16 * high + low) % 16 == low;
      assert t == [t[0], t[1]] + t[2..];
    }
  }

  /** A text comes back from a decode and an encode exactly when it was lower-case hexadecimal. */
  lemma RoundTripIffLowerHex(t: Text)
    ensures Encode(Decode(t)) == t <==> IsLowerHex(t)
  {
    EncodeIsLowerHex(Decode(t));
    if IsLowerHex(t) {
      EncodeDecode(t);
    }
  }

  function LowerUnit(u: CodeUnit): CodeUnit {
    if 0x41 <= u <= 0x5A then u + 0x20 else u
  }

  /** `toLowerCase` on ASCII; no other character has a hexadecimal digit for its lower case. */
  function LowerCase(t: Text): (lower: Text)
    ensures |lower| == |t| && forall i :: 0 <= i < |t| ==> lower[i] == LowerUnit(t[i])
  {
    seq(|t|, i requires 0 <= i < |t| => LowerUnit(t[i]))
  }

  lemma LowerCaseOfPair(t: Text)
    requires |t| >= 2
    ensures LowerCase(t) == [LowerUnit(t[0]), LowerUnit(t[1])] + LowerCase(t[2..])
  {
  }

  /** Case does not matter to what a text decodes to. */
  lemma {:induction false} DecodeLowerCase(t: Text)
    ensures Decode(LowerCase(t)) == Decode(t)
    decreases |t|
  {
    if |t| >= 2 {
      LowerCaseOfPair(t);
      assert LowerCase(t)[2..] == LowerCase(t[2..]);
      DecodeLowerCase(t[2..]);
    }
  }

  // ---- spellings ----

  lemma DecodePair(b: Byte, tail: Text)
    ensures Decode([Digit(b / 16), Digit(b % 16)] + tail) == [b] + Decode(tail)
  {
    var t := [Digit(b / 16), Digit(b % 16)] + tail;
    assert t[2..] == tail;
    assert 16 * (b / 16) + b % 16 == b;
  }

  lemma EncodeInFront(bytes: Bytes, rest: Text)
    requires bytes != []
    ensures Encode(bytes) + rest == [Digit(bytes[0] / 16), Digit(bytes[0] % 16)] + (Encode(bytes[1..]) + rest)
  {
  }

  /** After digits reading goes on with whatever follows. */
  lemma {:induction false} DecodeConcat(bytes: Bytes, rest: Text)
    ensures Decode(Encode(bytes) + rest) == bytes + Decode(rest)
  {
    if bytes == [] {
      assert Encode(bytes) + rest == rest;
    } else {
      EncodeInFront(bytes, rest);
      DecodePair(bytes[0], Encode(bytes[1..]) + rest);
      DecodeConcat(bytes[1..], rest);
      FirstInFront(bytes, Decode(rest));
    }
  }

  lemma FirstInFront(bytes: Bytes, more: Bytes)
    requires bytes != []
    ensures bytes + more == [bytes[0]] + (bytes[1..] + more)
  {
  }

  /** Reading stops at once: the text does not begin with two digits. */
  predicate Stops(t: Text) {
    |t| < 2 || DigitValue(t[0]).None? || DigitValue(t[1]).None?
  }

  /** The text begins with the digits of the bytes, in either case, and reading stops after them. */
  predicate Spells(t: Text, bytes: Bytes) {
    var n := 2 * |bytes|;
    |t| >= n && LowerCase(t[..n]) == Encode(bytes) && Stops(t[n..])
  }

  lemma DigitOfByte(high: CodeUnit, low: CodeUnit, b: Byte)
    ensures LowerUnit(high) == Digit(b / 16) && LowerUnit(low) == Digit(b % 16)
        <==> DigitValue(high) == Some(b / 16) && DigitValue(low) == Some(b % 16)
  {
  }

  /** The pair in front of a spelling is the first byte, and what is left spells the others. */
  lemma SpellsInPairs(t: Text, bytes: Bytes)
    requires bytes != [] && |t| >= 2
    ensures Spells(t, bytes) <==>
              && LowerUnit(t[0]) == Digit(bytes[0] / 16) && LowerUnit(t[1]) == Digit(bytes[0] % 16)
              && Spells(t[2..], bytes[1..])
  {
    var n := 2 * |bytes|;
    if |t| >= n {
      LowerCaseOfPair(t[..n]);
      assert t[..n][2..] == t[2..][..n - 2];
      assert t[2..][n - 2..] == t[n..];
      var lower, digits := LowerCase(t[..n]), Encode(bytes);
      assert lower == [lower[0], lower[1]] + LowerCase(t[2..][..n - 2]);
      assert digits == [digits[0], digits[1]] + Encode(bytes[1..]);
      assert lower[2..] == LowerCase(t[2..][..n - 2]) && digits[2..] == Encode(bytes[1..]);
    }
  }

  /**
   Exactly which texts decode to given bytes: their digits, in either case, followed by anything that does not
   begin with two digits.
   */
  lemma {:induction false} DecodesToIffSpells(t: Text, bytes: Bytes)
    ensures Decode(t) == bytes <==> Spells(t, bytes)
    decreases |bytes|
  {
    if bytes == [] {
      assert LowerCase(t[..0]) == [] && t[0..] == t;
    } else if |t| >= 2 {
      DecodesToIffSpells(t[2..], bytes[1..]);
      SpellsInPairs(t, bytes);
      DigitOfByte(t[0], t[1], bytes[0]);
      assert bytes == [bytes[0]] + bytes[1..];
    }
  }
}
