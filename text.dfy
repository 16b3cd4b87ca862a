/**
 * The Python string operations the analyser relies on: substring search
 * (`needle in haystack`), `str.lower()` and `int(text)` in base 10, plus the
 * decimal rendering of an integer used inside finding details.
 */
module Text {
  import opened Wrappers

  predicate IsDigit(c: char) { '0' <= c <= '9' }

  function DigitValue(c: char): nat
    requires IsDigit(c)
  {
    c as int - '0' as int
  }

  function DigitChar(d: nat): char
    requires d < 10
  {
    ('0' as int + d) as char
  }

  // ----- substring search ---------------------------------------------------

  /** `needle` sits in `haystack` starting at index `i`. */
  predicate OccursAt(haystack: string, needle: string, i: int)
  {
    0 <= i && i + |needle| <= |haystack| && haystack[i..i + |needle|] == needle
  }

  /** Python's `needle in haystack` on strings, by scanning from the left. */
  predicate Contains(haystack: string, needle: string)
    decreases |haystack|
  {
    |needle| <= |haystack| &&
    (haystack[..|needle|] == needle || (|haystack| > 0 && Contains(haystack[1..], needle)))
  }

  /** An occurrence anywhere is found by the scan. */
  lemma {:induction false} ContainsFromOccurrence(haystack: string, needle: string, i: int)
    requires OccursAt(haystack, needle, i)
    ensures Contains(haystack, needle)
    decreases i
  {
    if i > 0 {
      assert haystack[1..][i - 1..i - 1 + |needle|] == haystack[i..i + |needle|];
      ContainsFromOccurrence(haystack[1..], needle, i - 1);
    } else {
      assert haystack[..|needle|] == haystack[0..|needle|];
    }
  }

  /** The scan only succeeds on an actual occurrence. */
  lemma {:induction false} OccurrenceFromContains(haystack: string, needle: string) returns (i: int)
    requires Contains(haystack, needle)
    ensures OccursAt(haystack, needle, i)
    decreases |haystack|
  {
    if haystack[..|needle|] == needle {
      i := 0;
      assert haystack[0..|needle|] == haystack[..|needle|];
    } else {
      var j := OccurrenceFromContains(haystack[1..], needle);
      assert haystack[1..][j..j + |needle|] == haystack[j + 1..j + 1 + |needle|];
      i := j + 1;
    }
  }

  /** `Contains` is exactly "occurs at some index". */
  lemma ContainsIff(haystack: string, needle: string)
    ensures Contains(haystack, needle) <==> exists i :: OccursAt(haystack, needle, i)
  {
    if Contains(haystack, needle) {
      var i := OccurrenceFromContains(haystack, needle);
    }
    forall i | OccursAt(haystack, needle, i)
      ensures Contains(haystack, needle)
    {
      ContainsFromOccurrence(haystack, needle, i);
    }
  }

  // ----- str.lower() ----------------------------------------------------------

  /**
   * Lower-casing of one character, restricted to ASCII letters. Python lowers
   * every cased Unicode character, but only U+0130 and U+212A lower to text that
   * holds an ASCII letter ('i' and 'k'), and neither letter occurs in the
   * keywords the analyser searches for, so the keyword test is unaffected.
   */
  function LowerChar(c: char): char
  {
    if 'A' <= c <= 'Z' then (c as int + 32) as char else c
  }

  function ToLower(s: string): (r: string)
  {
    seq(|s|, i requires 0 <= i < |s| => LowerChar(s[i]))
  }

  // ----- int(text) -----------------------------------------------------------

  /**
   * The characters Python's `int()` strips around its digits: the ASCII
   * whitespace 9-13 and 32, plus the non-ASCII characters `str.isspace`
   * accepts (which `int()` first turns into a space). The ASCII separators
   * 28-31 pass `str.isspace` but are not stripped: `int()` rejects them.
   */
  predicate IsPySpace(c: char)
  {
    || '\t' <= c <= '\r'
    || c == ' '
    || c == '\U{85}' || c == '\U{A0}' || c == '\U{1680}'
    || '\U{2000}' <= c <= '\U{200A}'
    || c == '\U{2028}' || c == '\U{2029}' || c == '\U{202F}' || c == '\U{205F}' || c == '\U{3000}'
  }

  function StripLeading(s: string): (r: string)
  {
    if |s| > 0 && IsPySpace(s[0]) then StripLeading(s[1..]) else s
  }

  function StripTrailing(s: string): (r: string)
  {
    if |s| > 0 && IsPySpace(s[|s| - 1]) then StripTrailing(s[..|s| - 1]) else s
  }

  /**
   * The body of a base-10 integer literal as `int()` accepts it: digits,
   * where a single underscore may separate two digits.
   */
  predicate IsDigitBody(s: string)
  {
    && |s| > 0 && IsDigit(s[0]) && IsDigit(s[|s| - 1])
    && DigitsAndSeparators(s)
    && forall i :: 0 <= i < |s| && s[i] == '_' ==> i + 1 < |s| && IsDigit(s[i + 1])
  }

  predicate DigitsAndSeparators(s: string)
  {
    forall i :: 0 <= i < |s| ==> IsDigit(s[i]) || s[i] == '_'
  }

  /** The value of digits read left to right, underscores skipped. */
  function BodyValue(s: string): nat
    requires DigitsAndSeparators(s)
  {
    if s == [] then 0
    else if s[|s| - 1] == '_' then BodyValue(s[..|s| - 1])
    else 10 * BodyValue(s[..|s| - 1]) + DigitValue(s[|s| - 1])
  }

  /** The number of digits in `s`, underscores not counted. */
  function DigitCount(s: string): nat
  {
    if s == [] then 0
    else DigitCount(s[..|s| - 1]) + (if IsDigit(s[|s| - 1]) then 1 else 0)
  }

  /**
   * The default limit on the digits of a decimal string `int()` converts
   * (`sys.get_int_max_str_digits()`); longer text is a ValueError.
   */
  const MaxStrDigits: nat := 4300

  /** A digit body `int()` converts: well formed and within the digit limit. */
  predicate Convertible(body: string)
  {
    IsDigitBody(body) && DigitCount(body) <= MaxStrDigits
  }

  /**
   * Python's `int(text)` in base 10: surrounding whitespace, an optional sign,
   * then a digit body of at most 4300 digits; anything else is a ValueError,
   * here `None`.
   */
  function ParseInt(s: string): Option<int>
  {
    var t := StripTrailing(StripLeading(s));
    if |t| > 0 && (t[0] == '+' || t[0] == '-') then
      if Convertible(t[1..]) then
        var v: int := BodyValue(t[1..]);
        Some(if t[0] == '-' then -v else v)
      else None
    else if Convertible(t) then Some(BodyValue(t))
    else None
  }

  /** `str(n)` for a natural number: digits, no leading zero. */
  function NatToDecimal(n: nat): (r: string)
    ensures |r| > 0
    ensures forall i :: 0 <= i < |r| ==> IsDigit(r[i])
    ensures r[0] == '0' ==> n == 0
  {
    if n < 10 then [DigitChar(n)] else NatToDecimal(n / 10) + [DigitChar(n % 10)]
  }

  /** `str(n)` for any integer. */
  function IntToDecimal(n: int): string
  {
    if n < 0 then "-" + NatToDecimal(-n) else NatToDecimal(n)
  }

  lemma {:induction false} BodyValueOfDecimal(n: nat)
    ensures BodyValue(NatToDecimal(n)) == n
  {
    var r := NatToDecimal(n);
    if n >= 10 {
      assert r[..|r| - 1] == NatToDecimal(n / 10);
      BodyValueOfDecimal(n / 10);
    }
  }

  lemma {:induction false} StripLeadingSpaces(pad: string, s: string)
    requires forall i :: 0 <= i < |pad| ==> IsPySpace(pad[i])
    requires |s| > 0 && !IsPySpace(s[0])
    ensures StripLeading(pad + s) == s
  {
    if pad != [] {
      assert (pad + s)[1..] == pad[1..] + s;
      StripLeadingSpaces(pad[1..], s);
    } else {
      assert pad + s == s;
    }
  }

  lemma {:induction false} StripTrailingSpaces(s: string, pad: string)
    requires forall i :: 0 <= i < |pad| ==> IsPySpace(pad[i])
    requires |s| > 0 && !IsPySpace(s[|s| - 1])
    ensures StripTrailing(s + pad) == s
  {
    if pad != [] {
      assert (s + pad)[..|s + pad| - 1] == s + pad[..|pad| - 1];
      StripTrailingSpaces(s, pad[..|pad| - 1]);
    } else {
      assert s + pad == s;
    }
  }

  /**
   * `int()` reads back what `str()` writes, also when the digits are
   * surrounded by whitespace: `int(" 4444\n") == 4444`.
   */
  lemma ParseIntOfDecimal(left: string, n: nat, right: string)
    requires forall i :: 0 <= i < |left| ==> IsPySpace(left[i])
    requires forall i :: 0 <= i < |right| ==> IsPySpace(right[i])
    requires |NatToDecimal(n)| <= MaxStrDigits
    ensures ParseInt(left + NatToDecimal(n) + right) == Some(n)
  {
    var d := NatToDecimal(n);
    AllDigitsCount(d);
    assert left + d + right == left + (d + right);
    StripLeadingSpaces(left, d + right);
    StripTrailingSpaces(d, right);
    BodyValueOfDecimal(n);
  }

  /** Text made only of digits has as many digits as characters. */
  lemma {:induction false} AllDigitsCount(s: string)
    requires forall i :: 0 <= i < |s| ==> IsDigit(s[i])
    ensures DigitCount(s) == |s|
  {
    if s != [] {
      AllDigitsCount(s[..|s| - 1]);
    }
  }

  /** Leading zeros do not change the value of a digit body (only its digit count). */
  lemma {:induction false} LeadingZero(s: string)
    requires DigitsAndSeparators(s)
    ensures DigitsAndSeparators("0" + s) && BodyValue("0" + s) == BodyValue(s)
  {
    if s != [] {
      assert ("0" + s)[..|s|] == "0" + s[..|s| - 1];
      LeadingZero(s[..|s| - 1]);
    }
  }

  /** The decimal text of 4444, the first listed port. */
  lemma Decimal4444()
    ensures NatToDecimal(4444) == "4444" && BodyValue("4444") == 4444
  {
    assert NatToDecimal(44) == "44";
    assert NatToDecimal(444) == "444";
    BodyValueOfDecimal(4444);
  }

  /** `int()` reads 4444 surrounded by ASCII whitespace. */
  lemma PaddedPort()
    ensures ParseInt(" 4444\n") == Some(4444)
  {
    Decimal4444();
    ParseIntOfDecimal(" ", 4444, "\n");
    assert " " + "4444" + "\n" == " 4444\n";
  }

  function Zeros(k: nat): (r: string)
    ensures |r| == k && forall i :: 0 <= i < k ==> r[i] == '0'
  {
    seq(k, _ => '0')
  }

  lemma {:induction false} ZerosValue(k: nat, d: string)
    requires DigitsAndSeparators(d)
    ensures DigitsAndSeparators(Zeros(k) + d) && BodyValue(Zeros(k) + d) == BodyValue(d)
  {
    if k > 0 {
      ZerosValue(k - 1, d);
      assert Zeros(k) + d == "0" + (Zeros(k - 1) + d);
      LeadingZero(Zeros(k - 1) + d);
    } else {
      assert Zeros(k) + d == d;
    }
  }

  /** Non-empty text of digits alone: `int()` reads its value, within the digit limit. */
  lemma DigitText(s: string)
    requires |s| > 0 && forall i :: 0 <= i < |s| ==> IsDigit(s[i])
    ensures DigitsAndSeparators(s)
    ensures ParseInt(s) == if |s| <= MaxStrDigits then Some(BodyValue(s)) else None
  {
    assert StripLeading(s) == s;
    assert StripTrailing(s) == s;
    assert s[0] != '+' && s[0] != '-';
    assert IsDigitBody(s) by {
      assert forall i :: 0 <= i < |s| ==> s[i] != '_';
    }
    AllDigitsCount(s);
  }

  /**
   * `int()` on the decimal text of `n` behind `k` zeros: the value is `n`
   * while the text has at most 4300 digits, and a ValueError beyond.
   */
  lemma ZeroPadding(k: nat, n: nat)
    ensures ParseInt(Zeros(k) + NatToDecimal(n)) ==
      if k + |NatToDecimal(n)| <= MaxStrDigits then Some(n) else None
  {
    var d := NatToDecimal(n);
    var s := Zeros(k) + d;
    forall i | 0 <= i < |s|
      ensures IsDigit(s[i])
    {
      if i < k {
        assert s[i] == '0';
      } else {
        assert s[i] == d[i - k];
      }
    }
    DigitText(s);
    ZerosValue(k, d);
    BodyValueOfDecimal(n);
  }

  /** `int()` reads 4444 with a leading zero. */
  lemma ZeroPaddedPort()
    ensures ParseInt("04444") == Some(4444)
  {
    Decimal4444();
    ZeroPadding(1, 4444);
    assert Zeros(1) + "4444" == "04444";
  }

  /**
   * Past the digit limit `int()` fails: 4297 zeros before 4444 make 4301
   * digits, a ValueError rather than a port.
   */
  lemma PortPastDigitLimit()
    ensures ParseInt(Zeros(4297) + "4444") == None
    ensures ParseInt(Zeros(4296) + "4444") == Some(4444)
  {
    Decimal4444();
    ZeroPadding(4297, 4444);
    ZeroPadding(4296, 4444);
  }

  /** `int()` reads 4444 with a plus sign. */
  lemma SignedPort()
    ensures ParseInt("+4444") == Some(4444)
  {
    Decimal4444();
    AllDigitsCount("4444");
    assert StripLeading("+4444") == "+4444";
    assert StripTrailing("+4444") == "+4444";
    assert "+4444"[1..] == "4444";
  }

  /** `int()` reads 4444 with an underscore between two digits. */
  lemma GroupedPort()
    ensures ParseInt("4_444") == Some(4444)
  {
    var u := "4_444";
    assert StripLeading(u) == u;
    assert StripTrailing(u) == u;
    assert u[..4] == "4_44";
    assert "4_44"[..3] == "4_4";
    assert "4_4"[..2] == "4_";
    assert "4_"[..1] == "4";
    assert "4"[..0] == "";
    assert BodyValue("4") == 4;
    assert BodyValue("4_") == 4;
    assert BodyValue("4_4") == 44;
    assert BodyValue("4_44") == 444;
    assert BodyValue(u) == 4444;
    assert DigitCount(u) == 4;
  }

  /**
   * Spellings `int()` rejects: an ASCII separator character before the
   * digits, a doubled or a trailing underscore, and empty text.
   */
  lemma PortSpellingsRejected()
    ensures ParseInt("\U{1C}4444") == None
    ensures ParseInt("4__444") == None
    ensures ParseInt("4444_") == None
    ensures ParseInt("") == None
  {
    assert StripTrailing(StripLeading("\U{1C}4444")) == "\U{1C}4444";
    assert StripTrailing(StripLeading("4__444")) == "4__444";
    assert "4__444"[1] == '_' && !IsDigit("4__444"[2]);
    assert StripTrailing(StripLeading("4444_")) == "4444_";
  }
}
