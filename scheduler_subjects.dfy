/** Subject lists of the scheduler agent: the first-occurrence accumulation behind both the
    case-insensitive de-duplication of `_extract_subjects` and the `if x not in acc` loops of
    `_prioritize_weak_topics`, and the splitting of a marker chunk into subject names. */
module SchedulerSubjects {
  import opened Strings

  /** The comparison key of exact membership. */
  function Identity(s: string): string {
    s
  }

  /** The keys of the entries of `xs`. */
  function KeysOf(xs: seq<string>, key: string -> string): set<string> {
    set y | y in xs :: key(y)
  }

  /** No two entries of `xs` share a key. */
  predicate DistinctKeys(xs: seq<string>, key: string -> string) {
    forall i, j :: 0 <= i < j < |xs| ==> key(xs[i]) != key(xs[j])
  }

  /** `acc` followed by each item, in order, whose key is not yet taken when it comes up. */
  function AppendNew(acc: seq<string>, items: seq<string>, key: string -> string): (r: seq<string>)
    ensures |acc| <= |r| <= |acc| + |items| && r[..|acc|] == acc
    decreases |items|
  {
    if items == [] then acc
    else
      var prev := AppendNew(acc, items[..|items| - 1], key);
      var x := items[|items| - 1];
      if key(x) in KeysOf(prev, key) then prev else prev + [x]
  }

  /** Accumulating two lists in a row is accumulating their concatenation. */
  lemma {:induction false} AppendNewConcat(acc: seq<string>, a: seq<string>, b: seq<string>, key: string -> string)
    ensures AppendNew(acc, a + b, key) == AppendNew(AppendNew(acc, a, key), b, key)
    decreases |b|
  {
    if b == [] {
      assert a + b == a;
    } else {
      assert (a + b)[..|a + b| - 1] == a + b[..|b| - 1];
      AppendNewConcat(acc, a, b[..|b| - 1], key);
    }
  }

  /** Every entry after `acc` is one of the items, and its key was not taken in `acc`. */
  lemma {:induction false} AppendNewElements(acc: seq<string>, items: seq<string>, key: string -> string)
    ensures var r := AppendNew(acc, items, key);
            forall i :: |acc| <= i < |r| ==> r[i] in items && key(r[i]) !in KeysOf(acc, key)
    decreases |items|
  {
    if items != [] {
      var init := items[..|items| - 1];
      AppendNewElements(acc, init, key);
      var prev := AppendNew(acc, init, key);
      var r := AppendNew(acc, items, key);
      var x := items[|items| - 1];
      assert items == init + [x];
      AppendNewSnoc(acc, init, x, key);
      forall i | |acc| <= i < |r| ensures r[i] in items && key(r[i]) !in KeysOf(acc, key) {
        if i < |prev| {
          assert r[i] == prev[i] && prev[i] in init;
        } else {
          assert r[i] == x;
        }
      }
    }
  }

  /** One more entry adds its key. */
  lemma KeysOfSnoc(xs: seq<string>, x: string, key: string -> string)
    ensures KeysOf(xs + [x], key) == KeysOf(xs, key) + {key(x)}
  {
    var ys := xs + [x];
    forall k | k in KeysOf(ys, key) ensures k in KeysOf(xs, key) + {key(x)} {
      var y :| y in ys && key(y) == k;
      var i :| 0 <= i < |ys| && ys[i] == y;
      if i < |xs| {
        assert xs[i] == y;
      }
    }
    forall k | k in KeysOf(xs, key) ensures k in KeysOf(ys, key) {
      var y :| y in xs && key(y) == k;
      assert y in ys;
    }
    assert x in ys;
  }

  /** Accumulating one more item: it is appended exactly when its key is new. */
  lemma AppendNewSnoc(acc: seq<string>, items: seq<string>, x: string, key: string -> string)
    ensures var prev := AppendNew(acc, items, key);
            AppendNew(acc, items + [x], key) == if key(x) in KeysOf(prev, key) then prev else prev + [x]
  {
    assert (items + [x])[..|items|] == items;
  }

  /** Every key of `acc` and of the items is a key of the result, and it has no others. */
  lemma {:induction false} AppendNewKeys(acc: seq<string>, items: seq<string>, key: string -> string)
    ensures KeysOf(AppendNew(acc, items, key), key) == KeysOf(acc, key) + KeysOf(items, key)
    decreases |items|
  {
    if items != [] {
      var init := items[..|items| - 1];
      var x := items[|items| - 1];
      AppendNewKeys(acc, init, key);
      assert items == init + [x];
      KeysOfSnoc(init, x, key);
      KeysOfSnoc(AppendNew(acc, init, key), x, key);
    }
  }

  /** Keys stay distinct: an item is only added under a key not yet taken. */
  lemma {:induction false} AppendNewDistinct(acc: seq<string>, items: seq<string>, key: string -> string)
    requires DistinctKeys(acc, key)
    ensures DistinctKeys(AppendNew(acc, items, key), key)
    decreases |items|
  {
    if items != [] {
      var init := items[..|items| - 1];
      AppendNewDistinct(acc, init, key);
      var prev := AppendNew(acc, init, key);
      var x := items[|items| - 1];
      if key(x) !in KeysOf(prev, key) {
        var r := prev + [x];
        forall i, j | 0 <= i < j < |r| ensures key(r[i]) != key(r[j]) {
          if j == |prev| {
            assert r[i] in prev;
          }
        }
      }
    }
  }

  /** The first item with a given key, when `acc` does not hold that key, is kept with its own
      spelling. */
  lemma {:induction false} AppendNewFirstSpelling(acc: seq<string>, items: seq<string>, key: string -> string, j: nat)
    requires j < |items| && key(items[j]) !in KeysOf(acc, key)
    requires forall i :: 0 <= i < j ==> key(items[i]) != key(items[j])
    ensures items[j] in AppendNew(acc, items, key)
    decreases |items|
  {
    var init := items[..|items| - 1];
    var prev := AppendNew(acc, init, key);
    if j < |items| - 1 {
      AppendNewFirstSpelling(acc, init, key, j);
    } else {
      var x := items[j];
      forall y | y in init
        ensures key(y) != key(x)
      {
        var i :| 0 <= i < |init| && init[i] == y;
        assert items[i] == y;
      }
      AppendNewKeys(acc, init, key);
      assert key(x) !in KeysOf(init, key);
      assert items == init + [x];
      AppendNewSnoc(acc, init, x, key);
    }
  }

  /** Characters Python's `\b` treats as part of a word (ASCII letters, digits and `_`). */
  predicate IsWordChar(c: char) {
    'a' <= c <= 'z' || 'A' <= c <= 'Z' || IsDigit(c) || c == '_'
  }

  /** `\bw\b` matches at `i`, case-insensitively, for a lower-case word `w`. */
  predicate WordAt(s: string, i: nat, w: string) {
    && i + |w| <= |s| && Lower(s[i..i + |w|]) == w
    && (i == 0 || !IsWordChar(s[i - 1]))
    && (i + |w| == |s| || !IsWordChar(s[i + |w|]))
  }

  /** The single characters that always separate subjects. */
  predicate IsSeparatorChar(c: char) {
    c == ',' || c == '/' || c == '&'
  }

  /** The length of the match of `,|/|\band\b|\bthen\b|&` at `i`, or 0 when there is none. */
  function SeparatorAt(s: string, i: nat): (n: nat)
    requires i < |s|
    ensures i + n <= |s|
    ensures IsSeparatorChar(s[i]) ==> n == 1
  {
    if IsSeparatorChar(s[i]) then 1
    else if WordAt(s, i, "and") then 3
    else if WordAt(s, i, "then") then 4
    else 0
  }

  /** The pieces `re.split` leaves between separator matches, scanning from `i` with the current
      piece starting at `start`. */
  function SplitFrom(s: string, start: nat, i: nat): (ps: seq<string>)
    requires start <= i <= |s|
    ensures |ps| >= 1
    decreases |s| - i
  {
    if i == |s| then [s[start..]]
    else if SeparatorAt(s, i) > 0 then [s[start..i]] + SplitFrom(s, i + SeparatorAt(s, i), i + SeparatorAt(s, i))
    else SplitFrom(s, start, i + 1)
  }

  /** `re.split(r",|/|\band\b|\bthen\b|&", chunk, flags=re.IGNORECASE)` */
  function SplitSubjects(s: string): seq<string> {
    SplitFrom(s, 0, 0)
  }

  /** The text holds none of ",", "/" and "&". */
  predicate NoSeparatorChar(p: string) {
    forall k :: 0 <= k < |p| ==> !IsSeparatorChar(p[k])
  }

  /** No piece holds a separator character. */
  lemma {:induction false} SplitFromFree(s: string, start: nat, i: nat)
    requires start <= i <= |s|
    requires forall k :: start <= k < i ==> !IsSeparatorChar(s[k])
    ensures forall p :: p in SplitFrom(s, start, i) ==> NoSeparatorChar(p)
    decreases |s| - i
  {
    if i == |s| {
      PieceFree(s, start, i);
      assert s[start..i] == s[start..];
    } else {
      var n := SeparatorAt(s, i);
      SplitFromStep(s, start, i);
      if n > 0 {
        PieceFree(s, start, i);
        SplitFromFree(s, i + n, i + n);
      } else {
        SplitFromFree(s, start, i + 1);
      }
    }
  }

  /** One step of the scan: a separator match ends the current piece, anything else extends it. */
  lemma SplitFromStep(s: string, start: nat, i: nat)
    requires start <= i < |s|
    ensures var n := SeparatorAt(s, i);
            && (n == 0 ==> !IsSeparatorChar(s[i]))
            && SplitFrom(s, start, i) == if n > 0 then [s[start..i]] + SplitFrom(s, i + n, i + n) else SplitFrom(s, start, i + 1)
  {
  }

  /** A stretch of text with no separator character is a piece without one. */
  lemma PieceFree(s: string, start: nat, i: nat)
    requires start <= i <= |s|
    requires forall k :: start <= k < i ==> !IsSeparatorChar(s[k])
    ensures NoSeparatorChar(s[start..i])
  {
    var piece := s[start..i];
    forall k | 0 <= k < |piece| ensures !IsSeparatorChar(piece[k]) {
      assert piece[k] == s[start + k];
    }
  }

  lemma SplitSubjectsFree(s: string)
    ensures forall p :: p in SplitSubjects(s) ==> NoSeparatorChar(p)
  {
    SplitFromFree(s, 0, 0);
  }

  /** Text with no separator match is one piece, unchanged. */
  lemma {:induction false} SplitFromWhole(s: string, start: nat, i: nat)
    requires start <= i <= |s|
    requires forall k :: i <= k < |s| ==> SeparatorAt(s, k) == 0
    ensures SplitFrom(s, start, i) == [s[start..]]
    decreases |s| - i
  {
    if i < |s| {
      SplitFromWhole(s, start, i + 1);
    }
  }

  lemma SplitSubjectsWhole(s: string)
    requires forall k :: 0 <= k < |s| ==> SeparatorAt(s, k) == 0
    ensures SplitSubjects(s) == [s]
  {
    SplitFromWhole(s, 0, 0);
    assert s[0..] == s;
  }

  /** The characters `part.strip(" .")` removes. */
  predicate IsPadding(c: char) {
    c == ' ' || c == '.'
  }

  /** `part.strip(" .")` */
  function Clean(part: string): string {
    StripBy(part, IsPadding)
  }

  /** The stripped pieces that are not empty, in order. */
  function CleanParts(parts: seq<string>): seq<string>
    decreases |parts|
  {
    if parts == [] then []
    else
      var c := Clean(parts[|parts| - 1]);
      CleanParts(parts[..|parts| - 1]) + (if c == "" then [] else [c])
  }

  lemma CleanPartsSnoc(parts: seq<string>, j: nat)
    requires j < |parts|
    ensures var c := Clean(parts[j]);
            CleanParts(parts[..j + 1]) == CleanParts(parts[..j]) + (if c == "" then [] else [c])
  {
    assert parts[..j + 1][..j] == parts[..j];
  }

  /** The candidate subjects of the chunks, chunk by chunk. */
  function Candidates(chunks: seq<string>): seq<string>
    decreases |chunks|
  {
    if chunks == [] then []
    else Candidates(chunks[..|chunks| - 1]) + CleanParts(SplitSubjects(chunks[|chunks| - 1]))
  }

  lemma CandidatesSnoc(chunks: seq<string>, c: nat)
    requires c < |chunks|
    ensures Candidates(chunks[..c + 1]) == Candidates(chunks[..c]) + CleanParts(SplitSubjects(chunks[c]))
  {
    assert chunks[..c + 1][..c] == chunks[..c];
  }

  /** The subjects named in the marker chunks: each candidate whose lower-case form is new. */
  function Subjects(chunks: seq<string>): seq<string> {
    AppendNew([], Candidates(chunks), Lower)
  }

  /** `_extract_subjects` from the marker chunks on: its loop over the chunks and its `seen` set. */
  method ExtractSubjects(chunks: seq<string>) returns (subjects: seq<string>)
    ensures subjects == Subjects(chunks)
  {
    subjects := [];
    var seen: set<string> := {};
    for c := 0 to |chunks|
      invariant subjects == AppendNew([], Candidates(chunks[..c]), Lower)
      invariant seen == KeysOf(subjects, Lower)
    {
      var parts := SplitSubjects(chunks[c]);
      subjects, seen := AddParts(subjects, seen, parts);
      AppendNewConcat([], Candidates(chunks[..c]), CleanParts(parts), Lower);
      CandidatesSnoc(chunks, c);
    }
    assert chunks[..|chunks|] == chunks;
  }

  /** The inner loop of `_extract_subjects`: each stripped, non-empty piece whose lower-case form is
      not in `seen` is added, and its key with it. */
  method AddParts(subjects0: seq<string>, seen0: set<string>, parts: seq<string>)
    returns (subjects: seq<string>, seen: set<string>)
    requires seen0 == KeysOf(subjects0, Lower)
    ensures subjects == AppendNew(subjects0, CleanParts(parts), Lower)
    ensures seen == KeysOf(subjects, Lower)
  {
    subjects, seen := subjects0, seen0;
    for j := 0 to |parts|
      invariant subjects == AppendNew(subjects0, CleanParts(parts[..j]), Lower)
      invariant seen == KeysOf(subjects, Lower)
    {
      var subject := Clean(parts[j]);
      PartStep(subjects0, subjects, seen, parts, j);
      if subject != "" && Lower(subject) !in seen {
        seen := seen + {Lower(subject)};
        subjects := subjects + [subject];
      }
    }
    assert parts[..|parts|] == parts;
  }

  /** One pass of the inner loop: an empty piece changes nothing, and the `seen` test is the key
      test of `AppendNew`. */
  lemma PartStep(acc: seq<string>, subjects: seq<string>, seen: set<string>, parts: seq<string>, j: nat)
    requires j < |parts|
    requires subjects == AppendNew(acc, CleanParts(parts[..j]), Lower) && seen == KeysOf(subjects, Lower)
    ensures var subject := Clean(parts[j]);
            if subject != "" && Lower(subject) !in seen
            then AppendNew(acc, CleanParts(parts[..j + 1]), Lower) == subjects + [subject]
                 && KeysOf(subjects + [subject], Lower) == seen + {Lower(subject)}
            else AppendNew(acc, CleanParts(parts[..j + 1]), Lower) == subjects
  {
    var subject := Clean(parts[j]);
    CleanPartsSnoc(parts, j);
    if subject != "" {
      assert CleanParts(parts[..j + 1]) == CleanParts(parts[..j]) + [subject];
      KeyStep(acc, subjects, seen, CleanParts(parts[..j]), subject);
    } else {
      assert CleanParts(parts[..j + 1]) == CleanParts(parts[..j]);
    }
  }

  lemma KeyStep(acc: seq<string>, subjects: seq<string>, seen: set<string>, before: seq<string>, subject: string)
    requires subjects == AppendNew(acc, before, Lower) && seen == KeysOf(subjects, Lower)
    ensures Lower(subject) in seen ==> AppendNew(acc, before + [subject], Lower) == subjects
    ensures Lower(subject) !in seen ==> AppendNew(acc, before + [subject], Lower) == subjects + [subject]
                                        && KeysOf(subjects + [subject], Lower) == seen + {Lower(subject)}
  {
    AppendNewSnoc(acc, before, subject, Lower);
    KeysOfSnoc(subjects, subject, Lower);
  }

  /** The subjects are the candidates without case-insensitive repeats: each keeps its first
      spelling, every candidate is represented, and nothing else appears. */
  lemma SubjectsDeduplicated(chunks: seq<string>)
    ensures DistinctKeys(Subjects(chunks), Lower)
    ensures KeysOf(Subjects(chunks), Lower) == KeysOf(Candidates(chunks), Lower)
    ensures forall s :: s in Subjects(chunks) ==> s in Candidates(chunks)
    ensures forall j :: 0 <= j < |Candidates(chunks)| && (forall i :: 0 <= i < j ==> Lower(Candidates(chunks)[i]) != Lower(Candidates(chunks)[j]))
                        ==> Candidates(chunks)[j] in Subjects(chunks)
  {
    var cs := Candidates(chunks);
    AppendNewDistinct([], cs, Lower);
    AppendNewKeys([], cs, Lower);
    AppendNewElements([], cs, Lower);
    forall s | s in Subjects(chunks) ensures s in cs {
      var i :| 0 <= i < |Subjects(chunks)| && Subjects(chunks)[i] == s;
    }
    forall j | 0 <= j < |cs| && (forall i :: 0 <= i < j ==> Lower(cs[i]) != Lower(cs[j]))
      ensures cs[j] in Subjects(chunks)
    {
      AppendNewFirstSpelling([], cs, Lower, j);
    }
  }

  /** Every candidate is free of separator characters, non-empty and has no padding at its ends. */
  lemma {:induction false} CandidatesClean(chunks: seq<string>)
    ensures forall c :: c in Candidates(chunks) ==> c != "" && !IsPadding(c[0]) && !IsPadding(c[|c| - 1])
    decreases |chunks|
  {
    if chunks != [] {
      CandidatesClean(chunks[..|chunks| - 1]);
      CleanPartsTrimmed(SplitSubjects(chunks[|chunks| - 1]));
    }
  }

  lemma {:induction false} CleanPartsTrimmed(parts: seq<string>)
    ensures forall c :: c in CleanParts(parts) ==> c != "" && !IsPadding(c[0]) && !IsPadding(c[|c| - 1])
    decreases |parts|
  {
    if parts != [] {
      var init := parts[..|parts| - 1];
      CleanPartsTrimmed(init);
      var c := Clean(parts[|parts| - 1]);
      forall x | x in CleanParts(parts) ensures x != "" && !IsPadding(x[0]) && !IsPadding(x[|x| - 1]) {
        if x !in CleanParts(init) {
          assert x == c;
        }
      }
    }
  }
}
