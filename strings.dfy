/** The Python `str` operations the core relies on, on `seq<char>`.
    Case mapping covers ASCII letters only; whitespace is the set Python's `str.isspace`
    (and so `strip()`, `split()` and the regular-expression class `\s`) accepts. */
module Strings {
  import opened Wrappers

  /** How many entries a slice of at most `limit` entries keeps from `size` entries, as in
      `xs[:limit]` or `xs[-limit:]`. */
  function SliceCount(size: nat, limit: nat): (n: nat)
    ensures n <= size && n <= limit && (n == size || n == limit)
  {
    if size < limit then size else limit
  }

  /** Python `str.isspace` for one character. */
  predicate IsSpace(c: char) {
    || '\t' <= c <= '\r' || '\U{1C}' <= c <= ' ' || c == '\U{85}' || c == '\U{A0}' || c == '\U{1680}'
    || '\U{2000}' <= c <= '\U{200A}' || c == '\U{2028}' || c == '\U{2029}' || c == '\U{202F}'
    || c == '\U{205F}' || c == '\U{3000}'
  }

  predicate IsDigit(c: char) {
    '0' <= c <= '9'
  }

  predicate AllDigits(s: string) {
    forall i :: 0 <= i < |s| ==> IsDigit(s[i])
  }

  function LowerChar(c: char): char {
    if 'A' <= c <= 'Z' then (c as int + 32) as char else c
  }

  function UpperChar(c: char): char {
    if 'a' <= c <= 'z' then (c as int - 32) as char else c
  }

  /** `s.lower()` */
  function Lower(s: string): (r: string)
    ensures |r| == |s|
    ensures forall i :: 0 <= i < |s| ==> r[i] == LowerChar(s[i])
  {
    seq(|s|, i requires 0 <= i < |s| => LowerChar(s[i]))
  }

  /** `s.upper()` */
  function Upper(s: string): (r: string)
    ensures |r| == |s|
    ensures forall i :: 0 <= i < |s| ==> r[i] == UpperChar(s[i])
  {
    seq(|s|, i requires 0 <= i < |s| => UpperChar(s[i]))
  }

  /** Lower-casing twice is lower-casing once, so a lookup keyed by `Lower` is case-insensitive. */
  lemma LowerIdempotent(s: string)
    ensures Lower(Lower(s)) == Lower(s)
  {
    forall i | 0 <= i < |s|
      ensures Lower(Lower(s))[i] == Lower(s)[i]
    {
      var c := s[i];
      if 'A' <= c <= 'Z' {
        assert 'a' <= LowerChar(c) <= 'z';
      }
    }
  }

  /** `s.capitalize()`: first character upper-cased, the rest lower-cased. */
  function Capitalize(s: string): (r: string)
    ensures |r| == |s|
    ensures |s| > 0 ==> r[0] == UpperChar(s[0]) && r[1..] == Lower(s[1..])
  {
    if |s| == 0 then "" else [UpperChar(s[0])] + Lower(s[1..])
  }

  /** Drops the leading characters that satisfy `p`. */
  function TrimStart(s: string, p: char -> bool): (r: string)
    ensures |r| <= |s| && r == s[|s| - |r|..]
    ensures forall i :: 0 <= i < |s| - |r| ==> p(s[i])
    ensures |r| > 0 ==> !p(r[0])
  {
    if |s| > 0 && p(s[0]) then TrimStart(s[1..], p) else s
  }

  /** Drops the trailing characters that satisfy `p`. */
  function TrimEnd(s: string, p: char -> bool): (r: string)
    ensures |r| <= |s| && r == s[..|r|]
    ensures forall i :: |r| <= i < |s| ==> p(s[i])
    ensures |r| > 0 ==> !p(r[|r| - 1])
  {
    if |s| > 0 && p(s[|s| - 1]) then TrimEnd(s[..|s| - 1], p) else s
  }

  /** `s.strip(chars)` for the characters satisfying `p`. */
  function StripBy(s: string, p: char -> bool): (r: string)
    ensures r == "" <==> forall i :: 0 <= i < |s| ==> p(s[i])
    ensures |r| > 0 ==> !p(r[0]) && !p(r[|r| - 1])
  {
    var t := TrimStart(s, p);
    TrimEnd(t, p)
  }

  /** Every character is white space: what makes `s.strip()` empty. */
  predicate IsBlank(s: string) {
    forall i :: 0 <= i < |s| ==> IsSpace(s[i])
  }

  /** `s.strip()` */
  function Strip(s: string): (r: string)
    ensures r == "" <==> IsBlank(s)
    ensures |r| > 0 ==> !IsSpace(r[0]) && !IsSpace(r[|r| - 1])
  {
    StripBy(s, IsSpace)
  }

  /** `w` occurs in `s` starting at index `i`. */
  predicate OccursAt(s: string, w: string, i: int) {
    0 <= i && i + |w| <= |s| && s[i..i + |w|] == w
  }

  /** `w in s` for strings: `w` occurs as a contiguous piece of `s`. */
  predicate Contains(s: string, w: string) {
    exists i | 0 <= i <= |s| - |w| :: OccursAt(s, w, i)
  }

  /** `any(w in s for w in words)` */
  predicate ContainsAny(s: string, words: seq<string>) {
    exists k | 0 <= k < |words| :: Contains(s, words[k])
  }

  /** `s.replace(a, b)` for single characters. */
  function ReplaceChar(s: string, a: char, b: char): (r: string)
    ensures |r| == |s|
    ensures forall i :: 0 <= i < |s| ==> r[i] == (if s[i] == a then b else s[i])
  {
    seq(|s|, i requires 0 <= i < |s| => if s[i] == a then b else s[i])
  }

  /** `sep.join(parts)` */
  function Join(parts: seq<string>, sep: string): string {
    if |parts| == 0 then ""
    else if |parts| == 1 then parts[0]
    else parts[0] + sep + Join(parts[1..], sep)
  }

  /** `s.split(c)` for one separator character: always at least one piece. */
  function Split(s: string, c: char): (parts: seq<string>)
    ensures |parts| >= 1
    ensures forall k :: 0 <= k < |parts| ==> c !in parts[k]
  {
    if |s| == 0 then [""]
    else
      var rest := Split(s[1..], c);
      if s[0] == c then [""] + rest else [[s[0]] + rest[0]] + rest[1..]
  }

  /** Splitting and joining back with the same separator gives the string again. */
  lemma {:induction false} SplitJoin(s: string, c: char)
    ensures Join(Split(s, c), [c]) == s
  {
    if |s| > 0 {
      var rest := Split(s[1..], c);
      SplitJoin(s[1..], c);
      if s[0] == c {
        assert Split(s, c) == [""] + rest;
        assert s == [c] + s[1..];
      } else {
        var parts := Split(s, c);
        assert parts == [[s[0]] + rest[0]] + rest[1..];
        if |rest| == 1 {
          assert parts == [[s[0]] + rest[0]];
          assert s == [s[0]] + s[1..];
        } else {
          assert parts[1..] == rest[1..];
          assert Join(rest, [c]) == rest[0] + [c] + Join(rest[1..], [c]);
          assert s == [s[0]] + s[1..];
        }
      }
    }
  }

  /** A piece without the separator splits into itself. */
  lemma {:induction false} SplitNoSeparator(a: string, c: char)
    requires c !in a
    ensures Split(a, c) == [a]
  {
    if |a| > 0 {
      SplitNoSeparator(a[1..], c);
      assert [a[0]] + a[1..] == a;
    }
  }

  /** Splitting at the first separator: the piece before it, then the split of the rest. */
  lemma {:induction false} SplitAtSeparator(a: string, c: char, b: string)
    requires c !in a
    ensures Split(a + [c] + b, c) == [a] + Split(b, c)
  {
    var s := a + [c] + b;
    if |a| == 0 {
      assert s[1..] == b;
    } else {
      assert s[1..] == a[1..] + [c] + b;
      SplitAtSeparator(a[1..], c, b);
      assert [a[0]] + a[1..] == a;
    }
  }

  /** Joining pieces that do not contain the separator and splitting again gives the pieces back. */
  lemma {:induction false} JoinSplit(parts: seq<string>, c: char)
    requires |parts| >= 1
    requires forall k :: 0 <= k < |parts| ==> c !in parts[k]
    ensures Split(Join(parts, [c]), c) == parts
  {
    if |parts| == 1 {
      SplitNoSeparator(parts[0], c);
    } else {
      JoinSplit(parts[1..], c);
      SplitAtSeparator(parts[0], c, Join(parts[1..], [c]));
      assert [parts[0]] + parts[1..] == parts;
    }
  }

  /** `s.split()` with no argument: the maximal runs of non-whitespace characters. */
  function Words(s: string): (ws: seq<string>)
    ensures forall k :: 0 <= k < |ws| ==> |ws[k]| > 0
    ensures forall k, i :: 0 <= k < |ws| && 0 <= i < |ws[k]| ==> !IsSpace(ws[k][i])
  {
    WordsBy(s, IsSpace)
  }

  /** The maximal runs of characters that `p` does not pick out. */
  function WordsBy(s: string, p: char -> bool): (ws: seq<string>)
    ensures forall k :: 0 <= k < |ws| ==> |ws[k]| > 0
    ensures forall k, i :: 0 <= k < |ws| && 0 <= i < |ws[k]| ==> !p(ws[k][i])
    ensures |s| > 0 && !p(s[0]) ==> |ws| > 0 && ws[0][0] == s[0]
  {
    if |s| == 0 then []
    else if p(s[0]) then WordsBy(s[1..], p)
    else
      var rest := WordsBy(s[1..], p);
      if |s| > 1 && !p(s[1]) then [[s[0]] + rest[0]] + rest[1..]
      else [[s[0]]] + rest
  }

  /** Words never cross white space: the words of `a + [sp] + b` are those of `a` then those of `b`. */
  lemma WordsAroundSpace(a: string, sp: char, b: string)
    requires IsSpace(sp)
    ensures Words(a + [sp] + b) == Words(a) + Words(b)
  {
    WordsByAroundSeparator(a, sp, b, IsSpace);
  }

  lemma {:induction false} WordsByAroundSeparator(a: string, sp: char, b: string, p: char -> bool)
    requires p(sp)
    ensures WordsBy(a + [sp] + b, p) == WordsBy(a, p) + WordsBy(b, p)
  {
    if |a| == 0 {
      assert a + [sp] + b == [sp] + b;
      assert ([sp] + b)[1..] == b;
    } else {
      var s := a + [sp] + b;
      assert s[1..] == a[1..] + [sp] + b;
      WordsByAroundSeparator(a[1..], sp, b, p);
      if !p(a[0]) && |a| == 1 {
        assert s[1] == sp;
      } else if !p(a[0]) {
        assert s[1] == a[1];
      }
    }
  }

  function DigitChar(d: nat): char
    requires d < 10
  {
    ('0' as int + d) as char
  }

  function DigitValue(c: char): nat
    requires IsDigit(c)
  {
    c as int - '0' as int
  }

  /** `str(n)` for a natural number. */
  function NatToString(n: nat): (s: string)
    ensures |s| > 0 && AllDigits(s)
    decreases n
  {
    if n < 10 then [DigitChar(n)] else NatToString(n / 10) + [DigitChar(n % 10)]
  }

  /** The value of a string of decimal digits, as `int(s)` reads it. */
  function DigitsValue(s: string): nat
    requires AllDigits(s)
  {
    if |s| == 0 then 0 else DigitsValue(s[..|s| - 1]) * 10 + DigitValue(s[|s| - 1])
  }

  /** Reading back what `NatToString` wrote gives the number again. */
  lemma {:induction false} NatToStringRoundTrip(n: nat)
    ensures DigitsValue(NatToString(n)) == n
    decreases n
  {
    var s := NatToString(n);
    if n >= 10 {
      NatToStringRoundTrip(n / 10);
      assert s[..|s| - 1] == NatToString(n / 10);
    }
  }

  /** `f"{n:02d}"`: at least two digits, zero-padded. */
  function Pad2(n: nat): (s: string)
    ensures |s| >= 2 && AllDigits(s) && DigitsValue(s) == n
    ensures n < 100 ==> |s| == 2
  {
    if n < 10 then
      assert DigitsValue("0" + [DigitChar(n)]) == n by {
        assert ("0" + [DigitChar(n)])[..1] == "0";
        assert "0"[..0] == "";
      }
      "0" + [DigitChar(n)]
    else
      NatToStringRoundTrip(n);
      assert n < 100 ==> |NatToString(n)| == 2 by {
        if n < 100 { assert NatToString(n / 10) == [DigitChar(n / 10)]; }
      }
      NatToString(n)
  }

  /** Where `int()` is in its text: leading white space, just after a sign, inside digits,
      just after an underscore, or in trailing white space. */
  datatype IntScan = Leading | AfterSign | InDigits | AfterUnderscore | Trailing

  /** `int(s)` on decimal text, read left to right from `s[i]` on: optional white space, an
      optional sign, digits with single underscores between them, optional white space.
      `None` where Python raises ValueError; non-ASCII digits are not modelled. */
  function ScanInt(s: string, i: nat, state: IntScan, negative: bool, acc: nat): (r: Option<int>)
    requires i <= |s|
    decreases |s| - i
  {
    if i == |s| then
      if state == InDigits || state == Trailing then var v: int := acc; Some(if negative then -v else v) else None
    else
      var c := s[i];
      match state
      case Leading =>
        if IsSpace(c) then ScanInt(s, i + 1, Leading, negative, acc)
        else if c == '+' || c == '-' then ScanInt(s, i + 1, AfterSign, c == '-', acc)
        else if IsDigit(c) then ScanInt(s, i + 1, InDigits, negative, DigitValue(c))
        else None
      case AfterSign =>
        if IsDigit(c) then ScanInt(s, i + 1, InDigits, negative, DigitValue(c)) else None
      case InDigits =>
        if IsDigit(c) then ScanInt(s, i + 1, InDigits, negative, acc * 10 + DigitValue(c))
        else if c == '_' then ScanInt(s, i + 1, AfterUnderscore, negative, acc)
        else if IsSpace(c) then ScanInt(s, i + 1, Trailing, negative, acc)
        else None
      case AfterUnderscore =>
        if IsDigit(c) then ScanInt(s, i + 1, InDigits, negative, acc * 10 + DigitValue(c)) else None
      case Trailing =>
        if IsSpace(c) then ScanInt(s, i + 1, Trailing, negative, acc) else None
  }

  /** `int(s)` */
  function ParseInt(s: string): Option<int> {
    ScanInt(s, 0, Leading, false, 0)
  }

  /** Reading on through the digits of a digit string finishes with its decimal value. */
  lemma {:induction false} ScanDigits(s: string, i: nat)
    requires AllDigits(s) && 1 <= i <= |s|
    ensures ScanInt(s, i, InDigits, false, DigitsValue(s[..i])) == Some(DigitsValue(s))
    decreases |s| - i
  {
    if i == |s| {
      assert s[..i] == s;
    } else {
      assert s[..i + 1][..i] == s[..i];
      ScanDigits(s, i + 1);
    }
  }

  /** `int(s)` of a non-empty digit string is its decimal value. */
  lemma ParseIntDigits(s: string)
    requires AllDigits(s) && |s| > 0
    ensures ParseInt(s) == Some(DigitsValue(s))
  {
    assert s[..1][..0] == [];
    ScanDigits(s, 1);
  }

  function Pow10(w: nat): nat {
    if w == 0 then 1 else 10 * Pow10(w - 1)
  }

  /** The last `w` decimal digits of `n`, zero-padded: `f"{n:0{w}d}"` when `n < 10^w`. */
  function FixedDigits(n: nat, w: nat): (s: string)
    ensures |s| == w && AllDigits(s)
  {
    if w == 0 then "" else FixedDigits(n / 10, w - 1) + [DigitChar(n % 10)]
  }

  /** Reading the padded digits back gives `n` whenever it fits in `w` digits. */
  lemma {:induction false} FixedDigitsRoundTrip(n: nat, w: nat)
    requires n < Pow10(w)
    ensures DigitsValue(FixedDigits(n, w)) == n
  {
    if w > 0 {
      var s := FixedDigits(n, w);
      assert s[..|s| - 1] == FixedDigits(n / 10, w - 1);
      FixedDigitsRoundTrip(n / 10, w - 1);
    }
  }
}
