/**
 * Number parsing as the app relies on it: `Double(s)` for prices and amounts,
 * and `Int(s)` for order quantities and order numbers. Values are exact
 * (`real` and `int`); floating-point rounding is not modelled.
 */
module Numerals {
  import opened Wrappers
  import opened Text
  import opened Lists

  const Int64Min: int := -0x8000_0000_0000_0000
  const Int64Max: int := 0x7fff_ffff_ffff_ffff

  /** An unsigned decimal literal: digits, optionally a point and more digits,
   *  with at least one digit in all ("5", "5.", ".5", "12.34"). */
  function ParseUnsigned(s: string): (r: Option<real>)
    ensures r.Some? ==> r.value >= 0.0
  {
    var k := IndexOf(s, '.');
    if k == |s| then
      if s != [] && AllDigits(s) then Some(DigitsValue(s) as real) else None
    else
      var whole, fraction := s[..k], s[k + 1..];
      if AllDigits(whole) && AllDigits(fraction) && |whole| + |fraction| >= 1 then
        Some(DigitsValue(whole) as real + FractionValue(fraction))
      else None
  }

  /** The value of the digits after a decimal point: "25" is 0.25. */
  function FractionValue(s: string): (v: real)
    requires AllDigits(s)
    ensures 0.0 <= v < 1.0
  {
    if s == [] then 0.0 else (DigitValue(s[0]) as real + FractionValue(s[1..])) / 10.0
  }

  /** `Double(s)`: an optional sign followed by an unsigned decimal literal. */
  function ParseDouble(s: string): (r: Option<real>)
  {
    var negative := s != [] && s[0] == '-';
    var unsigned := if s != [] && (s[0] == '-' || s[0] == '+') then s[1..] else s;
    match ParseUnsigned(unsigned)
    case Some(v) => Some(if negative then -v else v)
    case None => None
  }

  /** `Int(s)`: an optional sign followed by at least one digit, nothing else, and
   *  the value must fit in 64 bits (otherwise the conversion fails). */
  function ParseInt64(s: string): (r: Option<int>)
    ensures r.Some? ==> Int64Min <= r.value <= Int64Max
  {
    var negative := s != [] && s[0] == '-';
    var digits := if s != [] && (s[0] == '-' || s[0] == '+') then s[1..] else s;
    if digits == [] || !AllDigits(digits) then None
    else
      var magnitude: int := DigitsValue(digits);
      var v := if negative then -magnitude else magnitude;
      if Int64Min <= v <= Int64Max then Some(v) else None
  }

  /** `"\(i)"` of a 64-bit integer parses back to it: the quantity text stored in
   *  an order line is always a valid `Int`. */
  lemma Int64RoundTrip(i: int)
    requires Int64Min <= i <= Int64Max
    ensures ParseInt64(IntToString(i)) == Some(i)
  {
    var s := IntToString(i);
    if i < 0 {
      var digits := NatToDigits(-i);
      assert s == "-" + digits && s[1..] == digits;
      DigitsRoundTrip(-i);
      assert DigitsValue(digits) == -i;
    } else {
      var digits := NatToDigits(i);
      assert s == digits && IsDigit(s[0]);
      DigitsRoundTrip(i);
      assert DigitsValue(digits) == i;
    }
  }
}
