/** `amountFormatter`: the sanitiser run on every change of an amount field, given
 *  the value before and after the change. `NumberFormatter` with the decimal
 *  style is taken to read exactly the unsigned decimal literals of `Numerals`. */
module Amounts {
  import opened Wrappers
  import opened Text
  import opened Numerals
  import opened Lists

  /** The characters an amount may contain. */
  const AmountCharacters: string := "0123456789."

  predicate IsAmountChar(c: char) {
    c in AmountCharacters
  }

  /** The largest amount; anything above it is replaced by this text. */
  const Cap: string := "1000"
  const CapValue: real := 1000.0

  /** `split(separator: ".")`: the pieces around the points, empty ones left out. */
  function Components(s: string): seq<string> {
    NonEmptyParts(Split(s, '.'))
  }

  /** `amountFormatter`. */
  function AmountFormatter(oldValue: string, newValue: string): (r: string)
    ensures r == newValue || r == Filter(newValue, IsAmountChar) || r == oldValue || r == Cap
    ensures newValue == [] ==> r == newValue
    ensures newValue != [] && (exists i :: 0 <= i < |newValue| && !IsAmountChar(newValue[i])) ==>
      r == Filter(newValue, IsAmountChar)
  {
    if newValue == [] then newValue
    else
      var filtered := Filter(newValue, IsAmountChar);
      if filtered != newValue then filtered
      else
        var components := Components(newValue);
        if |components| > 2 then oldValue
        else if |components| == 2 && |components[1]| > 2 then oldValue
        else
          match ParseUnsigned(newValue)
          case None => oldValue
          case Some(v) => if v > CapValue then Cap else newValue
  }

  predicate AllAmountChars(s: string) {
    forall i :: 0 <= i < |s| ==> IsAmountChar(s[i])
  }

  /** Filtering changes the text exactly when it has a character outside
   *  `AmountCharacters`. */
  lemma FilterChanges(s: string)
    ensures Filter(s, IsAmountChar) == s <==> AllAmountChars(s)
  {
    if AllAmountChars(s) {
      FilterAll(s, IsAmountChar);
    }
  }

  /** An amount the field accepts as typed: amount characters only, at most
   *  one fractional part of at most two digits, a decimal literal, at most
   *  1000. */
  predicate WellFormed(s: string) {
    && AllAmountChars(s)
    && |Components(s)| <= 2
    && (|Components(s)| == 2 ==> |Components(s)[1]| <= 2)
    && ParseUnsigned(s).Some?
    && ParseUnsigned(s).value <= CapValue
  }

  /** The rejections and the cap, one condition each, for a text made of
   *  amount characters only. */
  lemma Rejections(oldValue: string, newValue: string)
    requires newValue != [] && AllAmountChars(newValue)
    ensures |Components(newValue)| > 2 ==> AmountFormatter(oldValue, newValue) == oldValue
    ensures |Components(newValue)| == 2 && |Components(newValue)[1]| > 2 ==>
      AmountFormatter(oldValue, newValue) == oldValue
    ensures ParseUnsigned(newValue).None? ==> AmountFormatter(oldValue, newValue) == oldValue
    ensures (&& |Components(newValue)| <= 2
             && (|Components(newValue)| == 2 ==> |Components(newValue)[1]| <= 2)
             && ParseUnsigned(newValue).Some? && ParseUnsigned(newValue).value > CapValue) ==>
      AmountFormatter(oldValue, newValue) == Cap
  {
    FilterChanges(newValue);
  }

  /** A new text that differs from the old one and from the cap is kept exactly
   *  when it is well formed. */
  lemma KeptIffWellFormed(oldValue: string, newValue: string)
    requires newValue != [] && newValue != oldValue && newValue != Cap
    ensures AmountFormatter(oldValue, newValue) == newValue <==> WellFormed(newValue)
  {
    FilterChanges(newValue);
  }

  /** The cap is itself well formed. */
  lemma CapWellFormed()
    ensures WellFormed(Cap)
  {
    CapParses();
    NoSeparatorSplit(Cap, '.');
    assert Components(Cap) == [Cap];
  }

  lemma CapParses()
    ensures ParseUnsigned(Cap) == Some(CapValue)
  {
    assert IndexOf(Cap, '.') == 4;
    CapDigits();
  }

  lemma CapDigits()
    ensures AllDigits(Cap) && DigitsValue(Cap) == 1000
  {
    assert DigitsValue("1") == 1 by { assert "1"[..0] == []; }
    assert DigitsValue("10") == 10 by { assert "10"[..1] == "1"; }
    assert DigitsValue("100") == 100 by { assert "100"[..2] == "10"; }
    assert Cap[..3] == "100";
  }

  /** A character outside `AmountCharacters` typed into a clean text is
   *  filtered away again. */
  lemma {:induction false} FilterInserted(a: string, c: char, b: string)
    requires AllAmountChars(a + b) && !IsAmountChar(c)
    ensures Filter(a + [c] + b, IsAmountChar) == a + b
  {
    AmountCharsParts(a, b);
    FilterAll(a, IsAmountChar);
    FilterAll(b, IsAmountChar);
    FilterRejected(c);
    FilterAppend(a, [c], IsAmountChar);
    assert Filter(a + [c], IsAmountChar) == a;
    FilterAppend(a + [c], b, IsAmountChar);
  }

  lemma AmountCharsParts(a: string, b: string)
    requires AllAmountChars(a + b)
    ensures AllAmountChars(a) && AllAmountChars(b)
  {
    assert forall k :: 0 <= k < |a| ==> a[k] == (a + b)[k];
    assert forall k :: 0 <= k < |b| ==> b[k] == (a + b)[|a| + k];
  }

  lemma FilterRejected(c: char)
    requires !IsAmountChar(c)
    ensures Filter([c], IsAmountChar) == []
  {
    assert [c][1..] == [];
  }

  lemma InsertedAmountChars(a: string, c: char, b: string)
    requires AllAmountChars(a + b) && IsAmountChar(c)
    ensures AllAmountChars(a + [c] + b)
  {
    var s := a + [c] + b;
    forall k | 0 <= k < |s| ensures IsAmountChar(s[k]) {
      if k < |a| {
        assert s[k] == (a + b)[k];
      } else if k > |a| {
        assert s[k] == (a + b)[k - 1];
      }
    }
  }

  /** Typing one character anywhere in a field that is empty or well formed
   *  leaves it empty or well formed: a character outside `AmountCharacters` is
   *  filtered away again, and anything else is kept only when well formed. */
  lemma EditKeepsWellFormed(oldValue: string, i: nat, c: char)
    requires oldValue == [] || WellFormed(oldValue)
    requires i <= |oldValue|
    ensures var r := AmountFormatter(oldValue, oldValue[..i] + [c] + oldValue[i..]); r == [] || WellFormed(r)
  {
    var a, b := oldValue[..i], oldValue[i..];
    assert a + b == oldValue;
    var newValue := a + [c] + b;
    assert newValue == oldValue[..i] + [c] + oldValue[i..];
    var r := AmountFormatter(oldValue, newValue);
    if !IsAmountChar(c) {
      FilterInserted(a, c, b);
      FilterChanges(newValue);
    } else {
      InsertedAmountChars(a, c, b);
      FilterChanges(newValue);
      if r == Cap {
        CapWellFormed();
      } else if newValue != oldValue && newValue != Cap {
        KeptIffWellFormed(oldValue, newValue);
      }
    }
  }
}
