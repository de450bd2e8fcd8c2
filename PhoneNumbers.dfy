/** `phoneNumFormatter`: the sanitiser run on every change of a phone number
 *  field. `Character.isNumber` is taken to be the ASCII digit test. */
module PhoneNumbers {
  import opened Text

  /** The most characters a phone number may have. */
  const MaxLength: nat := 11

  /** The input cut to its first eleven characters. */
  function Truncated(phoneNum: string): (t: string)
    ensures |t| <= MaxLength && t <= phoneNum
    ensures |phoneNum| <= MaxLength ==> t == phoneNum
    ensures |phoneNum| > MaxLength ==> |t| == MaxLength
  {
    if |phoneNum| > MaxLength then phoneNum[..MaxLength] else phoneNum
  }

  /** `phoneNumFormatter`: cut the input to eleven characters, then drop the
   *  last character if what is left is not all digits. */
  function PhoneNumFormatter(phoneNum: string): (r: string)
    ensures |r| <= MaxLength
    ensures r <= phoneNum
    ensures AllDigits(phoneNum) ==> r == Truncated(phoneNum)
    ensures AllDigits(Truncated(phoneNum)) <==> r == Truncated(phoneNum)
    ensures !AllDigits(Truncated(phoneNum)) ==> r == Truncated(phoneNum)[..|Truncated(phoneNum)| - 1]
    ensures phoneNum == [] ==> r == []
  {
    var t := Truncated(phoneNum);
    if AllDigits(t) then t else t[..|t| - 1]
  }

  /** A number the field can hold after typing: digits, at most eleven. */
  predicate WellFormed(phoneNum: string) {
    AllDigits(phoneNum) && |phoneNum| <= MaxLength
  }

  /** A well-formed number is left as it is. */
  lemma WellFormedUnchanged(phoneNum: string)
    requires WellFormed(phoneNum)
    ensures PhoneNumFormatter(phoneNum) == phoneNum
  {
  }

  /** Typing one character after a well-formed number keeps it when it is a
   *  digit and there is room, and otherwise leaves the number as it was; either
   *  way the field stays well formed. */
  lemma Keystroke(phoneNum: string, c: char)
    requires WellFormed(phoneNum)
    ensures PhoneNumFormatter(phoneNum + [c]) ==
      if IsDigit(c) && |phoneNum| < MaxLength then phoneNum + [c] else phoneNum
    ensures WellFormed(PhoneNumFormatter(phoneNum + [c]))
  {
    var s := phoneNum + [c];
    if |phoneNum| == MaxLength {
      assert Truncated(s) == phoneNum;
    } else if !IsDigit(c) {
      assert !AllDigits(s) by { assert !IsDigit(s[|s| - 1]); }
      assert s[..|s| - 1] == phoneNum;
    }
  }

  /** Several characters at once (a paste) can leave a non-digit behind: one
   *  call drops only the last character. */
  lemma PasteKeepsNonDigit()
    ensures PhoneNumFormatter("a1") == "a"
  {
    assert !IsDigit('a');
    assert !AllDigits("a1") by { assert "a1"[0] == 'a'; }
  }
}
