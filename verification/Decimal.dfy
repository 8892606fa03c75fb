/** Decimal text of integers, as `BigInt.prototype.toString` writes it and `BigInt(text)` reads it. */
module Decimal {
  import opened Wrappers
  import opened Utf16

  const MINUS: CodeUnit := 0x2D

  predicate IsDigit(u: CodeUnit) {
    0x30 <= u <= 0x39
  }

  predicate AllDigits(t: Text) {
    forall i :: 0 <= i < |t| ==> IsDigit(t[i])
  }

  /** The digits of a natural number, without leading zeros. */
  function Digits(n: nat): (t: Text)
    ensures |t| > 0 && AllDigits(t)
    ensures t[0] == 0x30 ==> n == 0 && |t| == 1
  {
    if n < 10 then [0x30 + n] else Digits(n / 10) + [0x30 + n % 10]
  }

  /** The value of a digit string, most significant digit first. */
  function Value(t: Text): (n: nat)
    requires AllDigits(t)
  {
    if t == [] then 0 else 10 * Value(t[..|t| - 1]) + (t[|t| - 1] - 0x30)
  }

  lemma {:induction false} ValueOfDigits(n: nat)
    ensures Value(Digits(n)) == n
  {
    var t := Digits(n);
    if n >= 10 {
      ValueOfDigits(n / 10);
      assert t[..|t| - 1] == Digits(n / 10);
    } else {
      assert t[..|t| - 1] == [];
    }
  }

  /** The digit strings that some natural number prints as. */
  predicate IsCanonical(t: Text) {
    |t| > 0 && AllDigits(t) && (t[0] == 0x30 ==> |t| == 1)
  }

  lemma {:induction false} DigitsOfValue(t: Text)
    requires IsCanonical(t)
    ensures Digits(Value(t)) == t
  {
    var front := t[..|t| - 1];
    if |t| == 1 {
      assert front == [];
      assert t == [t[0]];
    } else {
      DigitsOfValue(front);
      CanonicalIsPositive(front);
      assert Value(t) / 10 == Value(front);
      assert t == front + [t[|t| - 1]];
    }
  }

  lemma {:induction false} CanonicalIsPositive(t: Text)
    requires IsCanonical(t) && t[0] != 0x30
    ensures Value(t) >= 1
  {
    var front := t[..|t| - 1];
    if |t| > 1 {
      CanonicalIsPositive(front);
    } else {
      assert front == [];
    }
  }

  /** `BigInt.prototype.toString()`. */
  function Print(i: int): (t: Text)
    ensures |t| > 0
  {
    if i < 0 then [MINUS] + Digits(-i) else Digits(i)
  }

  /** The white space and line ends that `BigInt(text)` trims. */
  predicate IsSpace(u: CodeUnit) {
    || 0x09 <= u <= 0x0D || u == 0x20 || u == 0xA0 || u == 0x1680 || 0x2000 <= u <= 0x200A
    || u == 0x2028 || u == 0x2029 || u == 0x202F || u == 0x205F || u == 0x3000 || u == 0xFEFF
  }

  function TrimLeft(t: Text): Text {
    if t != [] && IsSpace(t[0]) then TrimLeft(t[1..]) else t
  }

  function TrimRight(t: Text): Text {
    if t != [] && IsSpace(t[|t| - 1]) then TrimRight(t[..|t| - 1]) else t
  }

  /** Letters count as digits from ten up, in either case. */
  function DigitOf(u: CodeUnit): (d: nat)
  {
    if IsDigit(u) then u - 0x30
    else if 0x61 <= u <= 0x7A then u - 0x57
    else if 0x41 <= u <= 0x5A then u - 0x37
    else 99
  }

  /** An unsigned literal in the given radix; None if it is empty or has a foreign digit. */
  function ParseRadix(t: Text, radix: nat): Option<nat> {
    if t == [] then None
    else
      var d := DigitOf(t[|t| - 1]);
      if d >= radix then None
      else if |t| == 1 then Some(d)
      else
        match ParseRadix(t[..|t| - 1], radix)
        case None => None
        case Some(n) => Some(radix * n + d)
  }

  /** `BigInt(text)`; None where the call throws a SyntaxError. */
  function Parse(text: Text): Option<int> {
    var t := TrimRight(TrimLeft(text));
    if t == [] then Some(0)
    else if AllDigits(t) then Some(Value(t))
    else if t[0] == MINUS && |t| > 1 && AllDigits(t[1..]) then Some(0 - Value(t[1..]))
    else if t[0] == 0x2B && |t| > 1 && AllDigits(t[1..]) then Some(Value(t[1..]))   // +
    else if |t| > 2 && t[0] == 0x30 && t[1] in {0x78, 0x58} then ParseRadix(t[2..], 16)   // 0x
    else if |t| > 2 && t[0] == 0x30 && t[1] in {0x6F, 0x4F} then ParseRadix(t[2..], 8)   // 0o
    else if |t| > 2 && t[0] == 0x30 && t[1] in {0x62, 0x42} then ParseRadix(t[2..], 2)   // 0b
    else None
  }

  lemma ParsePrint(i: int)
    ensures Parse(Print(i)) == Some(i)
  {
    var t := Print(i);
    assert TrimRight(TrimLeft(t)) == t by {
      assert !IsSpace(t[0]) && !IsSpace(t[|t| - 1]);
    }
    if i < 0 {
      ValueOfDigits(-i);
      assert t[1..] == Digits(-i);
      assert !IsDigit(t[0]);
      assert !AllDigits(t);
    } else {
      ValueOfDigits(i);
    }
  }
}
