// Character classes of JavaScript's regular expressions and trim().

module Characters {

  predicate IsDigit(c: char) {
    '0' <= c <= '9'
  }

  // \s
  predicate IsWhiteSpace(c: char) {
    || c in {'\t', '\n', '\r', ' ', '\U{b}', '\U{c}', '\U{a0}', '\U{1680}', '\U{2028}', '\U{2029}', '\U{202f}',
             '\U{205f}', '\U{3000}', '\U{feff}'}
    || '\U{2000}' <= c <= '\U{200a}'
  }

  predicate IsNumber(text: string) {
    text != "" && forall i :: 0 <= i < |text| ==> IsDigit(text[i])
  }

  // text.replace(/[^\d]/g, "")
  function DigitsOf(text: string): (digits: string)
    ensures forall i :: 0 <= i < |digits| ==> IsDigit(digits[i])
  {
    if text == [] then []
    else if IsDigit(text[0]) then [text[0]] + DigitsOf(text[1..])
    else DigitsOf(text[1..])
  }

  function DigitValue(c: char): nat
    requires IsDigit(c)
  {
    c as int - '0' as int
  }

  function NatOf(digits: string): nat
    requires forall i :: 0 <= i < |digits| ==> IsDigit(digits[i])
  {
    if digits == "" then 0 else NatOf(digits[..|digits| - 1]) * 10 + DigitValue(digits[|digits| - 1])
  }

  function Decimal(n: nat): (text: string)
    ensures IsNumber(text)
  {
    if n < 10 then [('0' as int + n) as char]
    else Decimal(n / 10) + [('0' as int + n % 10) as char]
  }

  // Rendering a number and reading it back.
  lemma {:induction false} DecimalRoundTrip(n: nat)
    ensures NatOf(Decimal(n)) == n
  {
    if n < 10 {
      assert Decimal(n)[..0] == "";
    } else {
      DecimalRoundTrip(n / 10);
      assert Decimal(n)[..|Decimal(n)| - 1] == Decimal(n / 10);
    }
  }

  lemma DecimalInjective(m: nat, n: nat)
    requires Decimal(m) == Decimal(n)
    ensures m == n
  {
    DecimalRoundTrip(m);
    DecimalRoundTrip(n);
  }

  // ----- /(^|\D)DIGITS(\D|$)/ ------------------------------------------------------

  predicate MentionsExactly(text: string, digits: string) {
    exists p :: 0 <= p <= |text| && MentionsAt(text, digits, p)
  }

  predicate MentionsAt(text: string, digits: string, p: nat) {
    && p + |digits| <= |text|
    && text[p..p + |digits|] == digits
    && (p > 0 ==> !IsDigit(text[p - 1]))
    && (p + |digits| < |text| ==> !IsDigit(text[p + |digits|]))
  }

  // Text around a number that does not run on from it.
  predicate Frames(before: string, after: string) {
    && (before != "" ==> !IsDigit(before[|before| - 1]))
    && (after != "" ==> !IsDigit(after[0]))
  }

  // `from` to `to` is a run of digits that goes on neither to the left nor to the right.
  ghost predicate IsDigitRun(text: string, from: nat, to: nat) {
    && from < to <= |text|
    && (forall i :: from <= i < to ==> IsDigit(text[i]))
    && (from > 0 ==> !IsDigit(text[from - 1]))
    && (to < |text| ==> !IsDigit(text[to]))
  }

  lemma DigitRunsAreApart(text: string, a: nat, b: nat, p: nat, q: nat)
    requires IsDigitRun(text, a, b) && IsDigitRun(text, p, q)
    ensures q <= a || p >= b || (p == a && q == b)
  {
  }

  lemma MentionIsDigitRun(text: string, digits: string, p: nat)
    requires IsNumber(digits) && MentionsAt(text, digits, p)
    ensures IsDigitRun(text, p, p + |digits|)
  {
    assert forall i :: p <= i < p + |digits| ==> text[i] == text[p..p + |digits|][i - p];
  }

  lemma NumberIsDigitRun(before: string, shown: string, after: string)
    requires Frames(before, after) && IsNumber(shown)
    ensures IsDigitRun(before + shown + after, |before|, |before| + |shown|)
  {
  }

  lemma MentionAtIsWhole(before: string, shown: string, after: string, digits: string, p: nat)
    requires Frames(before, after) && IsNumber(shown) && IsNumber(digits)
    requires MentionsAt(before + shown + after, digits, p)
    ensures p + |digits| <= |before| || p >= |before| + |shown| || (p == |before| && |digits| == |shown|)
  {
    NumberIsDigitRun(before, shown, after);
    MentionIsDigitRun(before + shown + after, digits, p);
    DigitRunsAreApart(before + shown + after, |before|, |before| + |shown|, p, p + |digits|);
  }

  // A mention is the number itself, or stands in the text before or after it.
  lemma MentionsInParts(before: string, shown: string, after: string, digits: string)
    requires Frames(before, after) && IsNumber(shown) && IsNumber(digits)
    ensures MentionsExactly(before + shown + after, digits)
       <==> shown == digits || MentionsExactly(before, digits) || MentionsExactly(after, digits)
  {
    var text := before + shown + after;
    var b, s := |before|, |before| + |shown|;
    assert text[b..s] == shown && text[..b] == before && text[s..] == after;
    if MentionsExactly(text, digits) {
      var p :| 0 <= p <= |text| && MentionsAt(text, digits, p);
      MentionAtIsWhole(before, shown, after, digits, p);
      MentionFallsInPart(before, shown, after, digits, p);
    }
    if shown == digits {
      assert MentionsAt(text, digits, b);
    }
    if MentionsExactly(before, digits) {
      var p :| 0 <= p <= |before| && MentionsAt(before, digits, p);
      MentionStaysBefore(before, shown, after, digits, p);
    }
    if MentionsExactly(after, digits) {
      var p :| 0 <= p <= |after| && MentionsAt(after, digits, p);
      MentionStaysAfter(before, shown, after, digits, p);
    }
  }

  lemma MentionFallsInPart(before: string, shown: string, after: string, digits: string, p: nat)
    requires Frames(before, after) && IsNumber(shown) && IsNumber(digits)
    requires MentionsAt(before + shown + after, digits, p)
    requires p + |digits| <= |before| || p >= |before| + |shown| || (p == |before| && |digits| == |shown|)
    ensures shown == digits || MentionsExactly(before, digits) || MentionsExactly(after, digits)
  {
    var text := before + shown + after;
    var s := |before| + |shown|;
    if p + |digits| <= |before| {
      assert text[p..p + |digits|] == before[p..p + |digits|];
      assert MentionsAt(before, digits, p);
    } else if p >= s {
      assert text[p..p + |digits|] == after[p - s..p - s + |digits|];
      assert p > s ==> text[p - 1] == after[p - s - 1];
      assert MentionsAt(after, digits, p - s);
    } else {
      assert text[p..p + |digits|] == shown;
    }
  }

  lemma MentionStaysBefore(before: string, shown: string, after: string, digits: string, p: nat)
    requires Frames(before, after) && IsNumber(shown) && IsNumber(digits) && MentionsAt(before, digits, p)
    ensures MentionsExactly(before + shown + after, digits)
  {
    var text := before + shown + after;
    assert digits[|digits| - 1] == before[p + |digits| - 1];
    assert text[p..p + |digits|] == before[p..p + |digits|];
    assert MentionsAt(text, digits, p);
  }

  lemma MentionStaysAfter(before: string, shown: string, after: string, digits: string, p: nat)
    requires Frames(before, after) && IsNumber(shown) && IsNumber(digits) && MentionsAt(after, digits, p)
    ensures MentionsExactly(before + shown + after, digits)
  {
    var text := before + shown + after;
    var s := |before| + |shown|;
    assert digits[0] == after[p];
    assert text[s + p..s + p + |digits|] == after[p..p + |digits|];
    assert text[s + p - 1] == after[p - 1];
    assert MentionsAt(text, digits, s + p);
  }

  // Exactly when the pattern on a whole text forces the number that stands in it:
  // when neither the text before the number nor the text after it mentions the digits.
  lemma PatternForcesNumberIff(before: string, after: string, digits: string)
    requires Frames(before, after) && IsNumber(digits)
    ensures (forall shown :: IsNumber(shown) && MentionsExactly(before + shown + after, digits) ==> shown == digits)
       <==> !MentionsExactly(before, digits) && !MentionsExactly(after, digits)
  {
    forall shown | IsNumber(shown)
      ensures MentionsExactly(before + shown + after, digits)
         <==> shown == digits || MentionsExactly(before, digits) || MentionsExactly(after, digits)
    {
      MentionsInParts(before, shown, after, digits);
    }
    var longer := digits + "0";
    assert IsNumber(longer) && longer != digits;
  }

  lemma NoDigitsNoMention(text: string, digits: string)
    requires IsNumber(digits) && forall i :: 0 <= i < |text| ==> !IsDigit(text[i])
    ensures !MentionsExactly(text, digits)
  {
    forall p | 0 <= p <= |text|
      ensures !MentionsAt(text, digits, p)
    {
      assert p + |digits| <= |text| ==> text[p..p + |digits|][0] == text[p];
    }
  }
}
