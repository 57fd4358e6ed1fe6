/**
 * Decimal text for Rust's `u32`, as `increment_version` uses it: `str::parse::<u32>`
 * (the standard library's `from_str_radix` with radix 10) and the `{}` rendering in
 * `format!`. Strings are sequences of characters; the parser looks at one character per
 * byte, which is exact here because every byte of a multi-byte character is outside
 * '0'..'9' and so fails in the same way as the character itself.
 */
module Decimal {
  import opened Wrappers

  /** `u32::MAX`. */
  const U32_MAX: nat := 0xFFFF_FFFF

  /** The error kinds `u32::from_str` can report (`core::num::IntErrorKind`). */
  datatype IntErrorKind = Empty | InvalidDigit | PosOverflow

  predicate IsDigit(c: char) {
    '0' <= c <= '9'
  }

  function DigitValue(c: char): (d: nat)
    requires IsDigit(c)
    ensures d < 10
  {
    c as int - '0' as int
  }

  function DigitChar(d: nat): (c: char)
    requires d < 10
    ensures IsDigit(c) && DigitValue(c) == d
  {
    ('0' as int + d) as char
  }

  predicate AllDigits(s: string) {
    forall i :: 0 <= i < |s| ==> IsDigit(s[i])
  }

  /** The number that the digits `s` denote when read left to right after the digits of `acc`. */
  function ValueFrom(acc: nat, s: string): nat
    requires AllDigits(s)
    decreases |s|
  {
    if s == [] then acc else ValueFrom(acc * 10 + DigitValue(s[0]), s[1..])
  }

  /** The number a digit string denotes (leading zeros allowed). */
  function Value(s: string): nat
    requires AllDigits(s)
  {
    ValueFrom(0, s)
  }

  /** A digit string as `{}` prints an unsigned integer: digits only, no sign, no leading zero. */
  predicate IsCanonical(s: string) {
    |s| > 0 && AllDigits(s) && (s[0] == '0' ==> |s| == 1)
  }

  lemma ValueOfDigit(c: char)
    requires IsDigit(c)
    ensures AllDigits([c]) && Value([c]) == DigitValue(c)
  {
    assert [c][1..] == [];
    assert ValueFrom(0, [c]) == ValueFrom(DigitValue(c), []);
  }

  lemma {:induction false} ValueFromSnoc(acc: nat, s: string, c: char)
    requires AllDigits(s) && IsDigit(c)
    ensures AllDigits(s + [c])
    ensures ValueFrom(acc, s + [c]) == ValueFrom(acc, s) * 10 + DigitValue(c)
    decreases |s|
  {
    assert AllDigits(s + [c]) by {
      forall i | 0 <= i < |s + [c]| ensures IsDigit((s + [c])[i]) {
        if i < |s| { assert (s + [c])[i] == s[i]; }
      }
    }
    if s != [] {
      assert (s + [c])[0] == s[0];
      assert (s + [c])[1..] == s[1..] + [c];
      ValueFromSnoc(acc * 10 + DigitValue(s[0]), s[1..], c);
    }
  }

  lemma {:induction false} ValueFromAtLeast(acc: nat, s: string)
    requires AllDigits(s)
    ensures ValueFrom(acc, s) >= acc
    ensures s != [] ==> ValueFrom(acc, s) >= acc * 10 + DigitValue(s[0])
    decreases |s|
  {
    if s != [] {
      ValueFromAtLeast(acc * 10 + DigitValue(s[0]), s[1..]);
    }
  }

  /** The `{}` rendering of a natural number. */
  function RenderNat(n: nat): (s: string)
    ensures IsCanonical(s) && Value(s) == n
    ensures s[0] == '0' <==> n == 0
    decreases n
  {
    if n < 10 then
      ValueOfDigit(DigitChar(n));
      [DigitChar(n)]
    else
      var prefix := RenderNat(n / 10);
      ValueFromSnoc(0, prefix, DigitChar(n % 10));
      prefix + [DigitChar(n % 10)]
  }

  /** Rendering is the inverse of reading back a canonical digit string. */
  lemma {:induction false} RenderValue(s: string)
    requires IsCanonical(s)
    ensures RenderNat(Value(s)) == s
    decreases |s|
  {
    if |s| == 1 {
      assert s == [s[0]];
      ValueOfDigit(s[0]);
    } else {
      var p, c := s[..|s| - 1], s[|s| - 1];
      assert s == p + [c];
      assert p[0] == s[0];
      assert IsCanonical(p);
      ValueFromSnoc(0, p, c);
      ValueFromAtLeast(0, p);
      RenderValue(p);
      var v := Value(s);
      assert v == Value(p) * 10 + DigitValue(c) && v >= 10;
      assert v / 10 == Value(p) && v % 10 == DigitValue(c);
    }
  }

  /** The digit part of a `u32` literal: Rust drops one leading '+'. */
  function UnsignedDigits(s: string): string {
    if |s| > 0 && s[0] == '+' then s[1..] else s
  }

  /** The strings `u32::from_str` accepts: an optional '+', then at least one digit, denoting at most `u32::MAX`. */
  predicate IsU32Literal(s: string) {
    var d := UnsignedDigits(s);
    |d| > 0 && AllDigits(d) && Value(d) <= U32_MAX
  }

  /**
   * The digit loop of `from_str_radix` for an unsigned type: for each character, stop
   * with `InvalidDigit` if it is not a digit, else multiply by ten and add it with
   * checked arithmetic, stopping with `PosOverflow` at the first step past `u32::MAX`.
   */
  function Accumulate(acc: nat, digits: string): (r: Result<nat, IntErrorKind>)
    requires acc <= U32_MAX
    ensures AllDigits(digits) ==>
              r == if ValueFrom(acc, digits) <= U32_MAX then Ok(ValueFrom(acc, digits)) else Err(PosOverflow)
    ensures !AllDigits(digits) ==> r.Err?
    ensures r != Err(Empty)
    decreases |digits|
  {
    if digits == [] then
      Ok(acc)
    else if !IsDigit(digits[0]) then
      Err(InvalidDigit)
    else if acc * 10 > U32_MAX then
      (if AllDigits(digits) then ValueFromAtLeast(acc, digits); Err(PosOverflow) else Err(PosOverflow))
    else if acc * 10 + DigitValue(digits[0]) > U32_MAX then
      (if AllDigits(digits) then ValueFromAtLeast(acc, digits); Err(PosOverflow) else Err(PosOverflow))
    else
      var r := Accumulate(acc * 10 + DigitValue(digits[0]), digits[1..]);
      assert AllDigits(digits) ==> AllDigits(digits[1..]);
      assert !AllDigits(digits) ==> !AllDigits(digits[1..]) by {
        if !AllDigits(digits) {
          var i :| 0 <= i < |digits| && !IsDigit(digits[i]);
          assert i > 0 && digits[1..][i - 1] == digits[i];
        }
      }
      r
  }

  /** `u32::from_str`: the empty string, a lone sign, and everything that is not a `u32` literal fail. */
  function ParseU32(s: string): (r: Result<nat, IntErrorKind>)
    ensures r == Err(Empty) <==> s == []
    ensures r.Ok? <==> IsU32Literal(s)
    ensures r.Ok? ==> r.value == Value(UnsignedDigits(s)) <= U32_MAX
    ensures (var d := UnsignedDigits(s); |d| > 0 && AllDigits(d) && Value(d) > U32_MAX) ==> r == Err(PosOverflow)
  {
    if s == [] then Err(Empty)
    else if s == "+" || s == "-" then Err(InvalidDigit)
    else Accumulate(0, UnsignedDigits(s))
  }

  /** Parsing what `{}` printed gives the number back. */
  lemma ParseRendered(n: nat)
    requires n <= U32_MAX
    ensures ParseU32(RenderNat(n)) == Ok(n)
  {
  }

  /** Every canonical digit string within the `u32` range parses, and rendering the result gives the string back. */
  lemma CanonicalParsesBack(s: string)
    requires IsCanonical(s) && Value(s) <= U32_MAX
    ensures ParseU32(s).Ok? && RenderNat(ParseU32(s).value) == s
  {
    RenderValue(s);
  }

  /** Leading zeros are accepted and change nothing. */
  lemma ParseLeadingZero(s: string)
    requires |s| > 0 && AllDigits(s)
    ensures ParseU32("0" + s) == ParseU32(s)
  {
  }

  /** One leading '+' is accepted and changes nothing. */
  lemma ParseLeadingPlus(s: string)
    requires |s| > 0 && s[0] != '+'
    ensures ParseU32("+" + s) == ParseU32(s)
  {
  }
}
