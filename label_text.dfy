/**
 * The label-text bookkeeping of the GUI: the auto-increment of a trailing number and the
 * joining of the chosen prefix with the stripped input. Text is a sequence of characters;
 * digits are the ASCII digits.
 */
module LabelText {

  predicate IsDigit(c: char)
  {
    '0' <= c <= '9'
  }

  predicate AllDigits(s: string)
  {
    forall i :: 0 <= i < |s| ==> IsDigit(s[i])
  }

  function DigitValue(c: char): nat
    requires IsDigit(c)
  {
    (c as int) - ('0' as int)
  }

  function DigitChar(d: nat): (c: char)
    requires d < 10
    ensures IsDigit(c) && DigitValue(c) == d
  {
    ('0' as int + d) as char
  }

  /** int() of a digit string, read most significant digit first. */
  function Value(s: string): nat
    requires AllDigits(s)
  {
    if |s| == 0 then 0 else Value(s[..|s| - 1]) * 10 + DigitValue(s[|s| - 1])
  }

  /** str() of a natural number: non-empty, digits only, no leading zero, and reads back as n. */
  function NatToString(n: nat): (s: string)
    ensures 0 < |s| && AllDigits(s)
    ensures 1 < |s| ==> s[0] != '0'
    ensures Value(s) == n
  {
    if n < 10 then [DigitChar(n)]
    else
      var s := NatToString(n / 10) + [DigitChar(n % 10)];
      assert s[..|s| - 1] == NatToString(n / 10);
      s
  }

  /**
   * Where the match of the pattern (\d+)$ would start: the start of the run of digits that
   * ends the text, or the length of the text when it does not end in a digit.
   */
  function TrailingDigitsStart(s: string): (k: nat)
    ensures k <= |s| && forall i :: k <= i < |s| ==> IsDigit(s[i])
    ensures 0 < k ==> !IsDigit(s[k - 1])
    decreases |s|
  {
    if |s| == 0 || !IsDigit(s[|s| - 1]) then |s|
    else
      var front := s[..|s| - 1];
      var k := TrailingDigitsStart(front);
      assert forall i :: k <= i < |front| ==> front[i] == s[i];
      k
  }

  /** The text before its trailing number. */
  function Stem(s: string): string
  {
    s[..TrailingDigitsStart(s)]
  }

  predicate HasTrailingNumber(s: string)
  {
    TrailingDigitsStart(s) < |s|
  }

  /** The value of the trailing number, or 0 when there is none. */
  function TrailingNumber(s: string): nat
  {
    Value(s[TrailingDigitsStart(s)..])
  }

  /**
   * increment_label and increment_text_only_label. A prefix is present when it is non-empty.
   * With a prefix, an all-digit text becomes str(int(text) + 1), a text with a trailing number
   * has that number incremented, and any other text becomes "1". Without a prefix, a trailing
   * number is incremented and any other text gets " 2" appended.
   */
  function IncrementLabel(text: string, prefix: string): (r: string)
    ensures HasTrailingNumber(r)
  {
    if 0 < |prefix| && 0 < |text| && AllDigits(text) then NatToString(Value(text) + 1)
    else
      var k := TrailingDigitsStart(text);
      if k < |text| then text[..k] + NatToString(Value(text[k..]) + 1)
      else if 0 < |prefix| then "1"
      else text + " 2"
  }

  /** A digit string appended to a stem that does not end in a digit is exactly the trailing number. */
  lemma {:induction false} TrailingDigitsOfConcat(stem: string, digits: string)
    requires 0 < |stem| ==> !IsDigit(stem[|stem| - 1])
    requires AllDigits(digits)
    ensures TrailingDigitsStart(stem + digits) == |stem|
    decreases |digits|
  {
    var s := stem + digits;
    if |digits| == 0 {
      assert s == stem;
    } else {
      var shorter := digits[..|digits| - 1];
      assert s[..|s| - 1] == stem + shorter;
      TrailingDigitsOfConcat(stem, shorter);
    }
  }

  /**
   * With a trailing number, whatever the prefix, the number is replaced by str() of its
   * successor, leading zeros dropped.
   */
  lemma {:induction false} IncrementRewritesTrailingNumber(text: string, prefix: string)
    requires HasTrailingNumber(text)
    ensures IncrementLabel(text, prefix) == Stem(text) + NatToString(TrailingNumber(text) + 1)
  {
    var k := TrailingDigitsStart(text);
    if 0 < |prefix| && 0 < |text| && AllDigits(text) {
      assert k == 0;
      assert text[k..] == text && text[..k] == [];
    }
  }

  /**
   * The same rewrite read back: the stem is unchanged and the trailing number grows by one,
   * whatever the prefix.
   */
  lemma {:induction false} IncrementBumpsTrailingNumber(text: string, prefix: string)
    requires HasTrailingNumber(text)
    ensures IncrementLabel(text, prefix) == Stem(text) + NatToString(TrailingNumber(text) + 1)
    ensures var r := IncrementLabel(text, prefix);
      Stem(r) == Stem(text) && TrailingNumber(r) == TrailingNumber(text) + 1 && HasTrailingNumber(r)
  {
    IncrementRewritesTrailingNumber(text, prefix);
    var k := TrailingDigitsStart(text);
    var digits := NatToString(TrailingNumber(text) + 1);
    var r := text[..k] + digits;
    TrailingDigitsOfConcat(text[..k], digits);
    assert r[..k] == text[..k];
    assert r[k..] == digits;
  }

  /**
   * Without a trailing number and without a prefix, " 2" is appended: the text becomes the stem
   * of a label numbered 2.
   */
  lemma {:induction false} IncrementStartsAtTwo(text: string)
    requires !HasTrailingNumber(text)
    ensures IncrementLabel(text, "") == text + " 2"
    ensures var r := IncrementLabel(text, "");
      Stem(r) == text + " " && TrailingNumber(r) == 2 && r[..|text|] == text
  {
    var r := text + " 2";
    assert r == (text + " ") + "2";
    TrailingDigitsOfConcat(text + " ", "2");
    assert r[..|text| + 1] == text + " ";
    assert r[|text| + 1..] == "2";
  }

  /** Without a trailing number but with a prefix, numbering restarts at 1. */
  lemma {:induction false} IncrementWithPrefixStartsAtOne(text: string, prefix: string)
    requires 0 < |prefix| && !HasTrailingNumber(text)
    ensures IncrementLabel(text, prefix) == "1"
  {
    if 0 < |text| && AllDigits(text) {
      assert false;
    }
  }

  /**
   * The prefix matters only when there is no trailing number: the all-digit branch taken with
   * a prefix gives the same text as the trailing-number rewrite, leading zeros dropped in both.
   */
  lemma {:induction false} PrefixOnlyMattersWithoutNumber(text: string, prefix: string)
    requires HasTrailingNumber(text)
    ensures IncrementLabel(text, prefix) == IncrementLabel(text, "")
  {
    var k := TrailingDigitsStart(text);
    if 0 < |prefix| && 0 < |text| && AllDigits(text) {
      assert text[k..] == text && text[..k] == [];
    }
  }

  lemma IncrementExamples()
    ensures IncrementLabel("Box 9", "") == "Box 10"
    ensures IncrementLabel("007", "Bin") == "8"
    ensures IncrementLabel("Shelf", "") == "Shelf 2"
    ensures IncrementLabel("", "Bin") == "1"
  {
    assert TrailingDigitsStart("Box 9") == 4;
    assert Value("9") == 9;
    assert NatToString(10) == "10";
    assert Value("007") == 7;
    assert TrailingDigitsStart("Shelf") == 5;
  }

  // ---------------------------------------------------------------------------------------------
  // Prefix joining

  /** The characters Python's str.isspace() accepts, which str.strip() removes. */
  predicate IsSpace(c: char)
  {
    || c == ' ' || ('\t' <= c <= '\r') || ('\U{1C}' <= c <= '\U{1F}') || c == '\U{85}' || c == '\U{A0}'
    || c == '\U{1680}' || ('\U{2000}' <= c <= '\U{200A}') || c == '\U{2028}' || c == '\U{2029}'
    || c == '\U{202F}' || c == '\U{205F}' || c == '\U{3000}'
  }

  /**
   * str.strip(): leading and trailing whitespace removed, one character at a time. When the
   * result is not empty it begins and ends with a non-space.
   */
  function Strip(s: string): (t: string)
    ensures 0 < |t| ==> !IsSpace(t[0]) && !IsSpace(t[|t| - 1])
    decreases |s|
  {
    if 0 < |s| && IsSpace(s[0]) then Strip(s[1..])
    else if 0 < |s| && IsSpace(s[|s| - 1]) then Strip(s[..|s| - 1])
    else s
  }

  /**
   * The stripped text is the slice s[i..j], and everything outside the slice is whitespace:
   * only the ends are removed.
   */
  lemma {:induction false} StripIsSlice(s: string) returns (i: nat, j: nat)
    ensures i <= j <= |s| && Strip(s) == s[i..j]
    ensures forall k :: 0 <= k < i ==> IsSpace(s[k])
    ensures forall k :: j <= k < |s| ==> IsSpace(s[k])
    decreases |s|
  {
    if 0 < |s| && IsSpace(s[0]) {
      var i', j' := StripIsSlice(s[1..]);
      i, j := i' + 1, j' + 1;
      assert s[1..][i'..j'] == s[i..j] by {
        assert forall k :: 0 <= k < j' - i' ==> s[1..][i'..j'][k] == s[i..j][k];
      }
      forall k | 0 <= k < i ensures IsSpace(s[k]) {
        if 0 < k {
          assert s[k] == s[1..][k - 1];
        }
      }
      forall k | j <= k < |s| ensures IsSpace(s[k]) {
        assert s[k] == s[1..][k - 1];
      }
    } else if 0 < |s| && IsSpace(s[|s| - 1]) {
      var t := s[..|s| - 1];
      i, j := StripIsSlice(t);
      assert t[i..j] == s[i..j];
      forall k | j <= k < |s| ensures IsSpace(s[k]) {
        if k < |s| - 1 {
          assert s[k] == t[k];
        }
      }
    } else {
      i, j := 0, |s|;
      assert s[0..|s|] == s;
    }
  }

  /** str.strip() gives the empty string exactly when every character is whitespace. */
  lemma {:induction false} StripEmptyIffAllSpace(s: string)
    ensures |Strip(s)| == 0 <==> forall k :: 0 <= k < |s| ==> IsSpace(s[k])
  {
    var i, j := StripIsSlice(s);
    if |Strip(s)| == 0 {
      forall k | 0 <= k < |s| ensures IsSpace(s[k]) {
        if i <= k < j {
          assert false;
        }
      }
    }
  }

  /** A text that begins and ends with a non-space is its own strip. */
  lemma StripKeepsTrimmed(s: string)
    requires 0 < |s| ==> !IsSpace(s[0]) && !IsSpace(s[|s| - 1])
    ensures Strip(s) == s
  {
  }

  lemma {:induction false} StripIdempotent(s: string)
    ensures Strip(Strip(s)) == Strip(s)
  {
    StripKeepsTrimmed(Strip(s));
  }

  /**
   * get_final_label_text and get_final_text_only_label_text: "prefix text" when both the
   * prefix and the stripped input are non-empty, else the stripped input alone.
   */
  function FinalLabelText(prefix: string, input: string): (r: string)
    ensures var text := Strip(input);
      && (0 < |prefix| && 0 < |text| <==> |r| > |text|)
      && |text| <= |r| && r[|r| - |text|..] == text
      && (|r| > |text| ==> |r| == |prefix| + 1 + |text| && r[..|prefix|] == prefix && r[|prefix|] == ' ')
  {
    var text := Strip(input);
    if 0 < |prefix| && 0 < |text| then prefix + " " + text else text
  }

  /**
   * Joining gives nothing to strip when the prefix does not start with whitespace, so the
   * final text survives another pass through the joining with no prefix.
   */
  lemma {:induction false} FinalLabelTextIsStripped(prefix: string, input: string)
    requires 0 < |prefix| ==> !IsSpace(prefix[0])
    ensures FinalLabelText("", FinalLabelText(prefix, input)) == FinalLabelText(prefix, input)
  {
    var text := Strip(input);
    var r := FinalLabelText(prefix, input);
    StripIdempotent(input);
    if 0 < |prefix| && 0 < |text| {
      assert r[0] == prefix[0];
      assert r[|r| - 1] == text[|text| - 1];
      StripKeepsTrimmed(r);
    }
  }
}
