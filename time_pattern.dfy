/** The time pattern the intent router looks for, `\d{1,2}[-:]\d{1,2}|\d{1,2}\s*(am|pm|to|from)`
    searched anywhere in the text: its meaning as a predicate over match positions, and a
    one-pass scanner proved to find a match exactly when there is one. */
module TimePattern {
  import opened Strings

  predicate IsSeparator(c: char) {
    c == '-' || c == ':'
  }

  /** `\d{k}` at `i`, for the repetition counts the pattern allows. */
  predicate DigitRun(s: string, i: int, k: int) {
    1 <= k <= 2 && 0 <= i && i + k <= |s| && forall j | i <= j < i + k :: IsDigit(s[j])
  }

  /** `\s*` spans exactly `s[a..b]`. */
  predicate SpacesBetween(s: string, a: int, b: int) {
    0 <= a <= b <= |s| && forall j | a <= j < b :: IsSpace(s[j])
  }

  /** `(am|pm|to|from)` at `j`. */
  predicate MarkerWordAt(s: string, j: int) {
    OccursAt(s, "am", j) || OccursAt(s, "pm", j) || OccursAt(s, "to", j) || OccursAt(s, "from", j)
  }

  /** `\d{1,2}` at `q`. */
  predicate DigitsAt(s: string, q: int) {
    exists m | 1 <= m <= 2 :: DigitRun(s, q, m)
  }

  /** `[-:]\d{1,2}` at `p`. */
  predicate SeparatorThenDigits(s: string, p: int) {
    0 <= p < |s| && IsSeparator(s[p]) && DigitsAt(s, p + 1)
  }

  /** The first alternative matches at `i`: one or two digits, a separator, one or two digits. */
  predicate SeparatedDigitsAt(s: string, i: int) {
    exists k | 1 <= k <= 2 :: DigitRun(s, i, k) && SeparatorThenDigits(s, i + k)
  }

  /** The second alternative matches at `i`: one or two digits, spaces up to `j`, a marker word. */
  predicate MarkedDigitsAt(s: string, i: int) {
    exists k, j | 1 <= k <= 2 && i + k <= j <= |s| ::
      DigitRun(s, i, k) && SpacesBetween(s, i + k, j) && MarkerWordAt(s, j)
  }

  /** `re.search` finds the pattern: some position starts a match of one of the alternatives. */
  predicate HasTimePattern(s: string) {
    exists i | 0 <= i < |s| :: SeparatedDigitsAt(s, i) || MarkedDigitsAt(s, i)
  }

  /** The first position at or after `j` that is not whitespace. */
  function SkipSpaces(s: string, j: nat): (r: nat)
    requires j <= |s|
    ensures j <= r <= |s| && SpacesBetween(s, j, r)
    ensures r < |s| ==> !IsSpace(s[r])
    decreases |s| - j
  {
    if j < |s| && IsSpace(s[j]) then SkipSpaces(s, j + 1) else j
  }

  /** Whitespace up to a character that is not whitespace is exactly what `SkipSpaces` passes. */
  lemma {:induction false} SkipSpacesTo(s: string, a: nat, j: nat)
    requires SpacesBetween(s, a, j) && j < |s| && !IsSpace(s[j])
    ensures SkipSpaces(s, a) == j
    decreases j - a
  {
    if a < j {
      SkipSpacesTo(s, a + 1, j);
    }
  }

  /** The scanner's test at one position: a digit followed by a separator and a digit, or by
      whitespace and a marker word. A two-digit match is found one position later. */
  predicate QuickMatchAt(s: string, i: nat)
    requires i < |s|
  {
    IsDigit(s[i])
    && ((i + 2 < |s| && IsSeparator(s[i + 1]) && IsDigit(s[i + 2])) || MarkerWordAt(s, SkipSpaces(s, i + 1)))
  }

  /** The scanner: is there a match starting at `i` or later? */
  function FindTime(s: string, i: nat): bool
    requires i <= |s|
    decreases |s| - i
  {
    i < |s| && (QuickMatchAt(s, i) || FindTime(s, i + 1))
  }

  lemma {:induction false} FindTimeFrom(s: string, i: nat)
    requires i <= |s|
    ensures FindTime(s, i) <==> exists t | i <= t < |s| :: QuickMatchAt(s, t)
    decreases |s| - i
  {
    if i < |s| {
      FindTimeFrom(s, i + 1);
      if QuickMatchAt(s, i) {
        assert exists t | i <= t < |s| :: QuickMatchAt(s, t);
      }
      if exists t | i <= t < |s| :: QuickMatchAt(s, t) {
        var t :| i <= t < |s| && QuickMatchAt(s, t);
        if t > i {
          assert exists t' | i + 1 <= t' < |s| :: QuickMatchAt(s, t');
        }
      }
    }
  }

  /** A scanner hit is a match of the pattern. */
  lemma QuickMatchIsMatch(s: string, i: nat)
    requires i < |s| && QuickMatchAt(s, i)
    ensures SeparatedDigitsAt(s, i) || MarkedDigitsAt(s, i)
  {
    if i + 2 < |s| && IsSeparator(s[i + 1]) && IsDigit(s[i + 2]) {
      assert DigitRun(s, i + 2, 1) && DigitsAt(s, i + 2);
      assert DigitRun(s, i, 1) && SeparatorThenDigits(s, i + 1);
    } else {
      var j := SkipSpaces(s, i + 1);
      assert DigitRun(s, i, 1) && SpacesBetween(s, i + 1, j) && MarkerWordAt(s, j);
    }
  }

  /** A match of the first alternative is a scanner hit at its last leading digit. */
  lemma SeparatedIsQuickMatch(s: string, i: nat)
    requires i < |s| && SeparatedDigitsAt(s, i)
    ensures QuickMatchAt(s, i) || (i + 1 < |s| && QuickMatchAt(s, i + 1))
  {
    var k :| 1 <= k <= 2 && DigitRun(s, i, k) && SeparatorThenDigits(s, i + k);
    var m :| 1 <= m <= 2 && DigitRun(s, i + k + 1, m);
    assert IsDigit(s[i + k - 1]) && IsDigit(s[i + k + 1]);
  }

  /** A match of the second alternative is a scanner hit at its last leading digit. */
  lemma MarkedIsQuickMatch(s: string, i: nat)
    requires i < |s| && MarkedDigitsAt(s, i)
    ensures QuickMatchAt(s, i) || (i + 1 < |s| && QuickMatchAt(s, i + 1))
  {
    var k, j :| 1 <= k <= 2 && i + k <= j <= |s| &&
                DigitRun(s, i, k) && SpacesBetween(s, i + k, j) && MarkerWordAt(s, j);
    assert IsDigit(s[i + k - 1]);
    assert j < |s| && !IsSpace(s[j]) by {
      assert s[j] == 'a' || s[j] == 'p' || s[j] == 't' || s[j] == 'f';
    }
    SkipSpacesTo(s, i + k, j);
  }

  /** The scanner agrees with the pattern on every text. */
  lemma FindTimeCorrect(s: string)
    ensures FindTime(s, 0) <==> HasTimePattern(s)
  {
    FindTimeFrom(s, 0);
    if FindTime(s, 0) {
      var t :| 0 <= t < |s| && QuickMatchAt(s, t);
      QuickMatchIsMatch(s, t);
    }
    if HasTimePattern(s) {
      var i :| 0 <= i < |s| && (SeparatedDigitsAt(s, i) || MarkedDigitsAt(s, i));
      if SeparatedDigitsAt(s, i) {
        SeparatedIsQuickMatch(s, i);
      } else {
        MarkedIsQuickMatch(s, i);
      }
    }
  }

  /** `bool(time_pattern.search(text))`, computed by the scanner. */
  function SearchTime(s: string): (found: bool)
    ensures found <==> HasTimePattern(s)
  {
    FindTimeCorrect(s);
    FindTime(s, 0)
  }
}
