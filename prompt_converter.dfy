/** The prompt converter: it turns a natural-language request into a structured prompt of five
    parts (context, intent, constraints, acceptance criteria, priorities) and lays that out as
    markdown. Regular-expression search is a parameter: `FindAll(pattern, prompt)` is what
    `re.findall(pattern, prompt, re.IGNORECASE)` returns; the patterns themselves are the
    converter's own constants. */
module PromptConverter {
  import opened Wrappers
  import opened Strings

  /** `re.findall(pattern, prompt, re.IGNORECASE)` */
  type FindAll = (string, string) -> seq<string>

  /** The five parts of `analyze_prompt`'s result; as a record it always has exactly these. */
  datatype StructuredPrompt = StructuredPrompt(context: string, intent: string, constraints: seq<string>,
                                               criteria: seq<string>, priorities: seq<string>)

  const ContextPatterns: seq<string> := [
    @"in\s+(?:the\s+)?([a-zA-Z_/\.]+\.(?:py|yaml|md|json|txt|ts|tsx|js|jsx))",
    @"([a-zA-Z_/\.]+\.(?:py|yaml|md|json|txt|ts|tsx|js|jsx))\s+(?:file|module|class|component)",
    @"([a-zA-Z_/\.]+/[a-zA-Z_/\.]+\.(?:py|yaml|md|json|txt|ts|tsx|js|jsx))",
    @"([a-zA-Z_]+_agent\.py)",
    @"currently\s+(?:has|does|is|uses)",
    @"right\s+now",
    @"existing\s+(?:code|implementation|system)"]

  const VerbFamilies: seq<string> := [
    "(add|create|implement|build|make|write|generate)",
    "(fix|repair|resolve|solve|correct)",
    "(refactor|improve|optimize|enhance|update)",
    "(remove|delete|eliminate)",
    "(modify|change|alter|update)",
    "(integrate|connect|link)",
    "(test|verify|validate)"]

  const ConstraintPatterns: seq<string> := [
    @"(?:must|should|need to|required to|have to)\s+(?:not\s+)?(.+?)(?:\.|,|$)",
    @"(?:don\'?t|do not|avoid|prevent)\s+(.+?)(?:\.|,|$)",
    @"(?:follow|use|maintain|keep|preserve)\s+(.+?)(?:\.|,|$)",
    @"(?:without|without\s+breaking|maintain)\s+(.+?)(?:\.|,|$)"]

  const CriteriaPatterns: seq<string> := [
    @"(?:should|must|need to)\s+(?:be able to|work|support|handle)\s+(.+?)(?:\.|,|$)",
    @"(?:when|after|once)\s+(.+?)(?:\.|,|$)",
    @"(?:verify|ensure|check|test)\s+(?:that\s+)?(.+?)(?:\.|,|$)"]

  const PriorityPatterns: seq<string> := [
    @"(?:first|priority|start with|begin with|focus on)\s+(.+?)(?:\.|,|$)",
    @"(?:then|next|after that|followed by)\s+(.+?)(?:\.|,|$)"]

  const DefaultConstraints: seq<string> := ["Maintain existing functionality", "Follow existing code patterns", "Ensure all tests pass"]
  const DefaultCriteria: seq<string> := ["Functionality works as expected", "No breaking changes", "Tests pass"]

  const ContextPrefix: string := "Current state involves: "
  const NoContextHint: string := "No specific context detected - please add file paths or current state description"

  /** The most entries a list part keeps. */
  const ListLimit: nat := 5

  // Context

  /** Every match of every pattern, pattern by pattern. */
  function Found(findall: FindAll, patterns: seq<string>, prompt: string): seq<string>
    decreases |patterns|
  {
    if patterns == [] then []
    else Found(findall, patterns[..|patterns| - 1], prompt) + findall(patterns[|patterns| - 1], prompt)
  }

  /** The matches kept for the context: the distinct ones longer than three characters. */
  function LongMatches(found: seq<string>): set<string> {
    set m | m in found && |m| > 3
  }

  /** No entry of `parts` appears twice. */
  ghost predicate NoRepeats(parts: seq<string>) {
    forall i, j :: 0 <= i < j < |parts| ==> parts[i] != parts[j]
  }

  /** `parts` lists the set `s`, each element once, in some order. */
  ghost predicate IsListing(parts: seq<string>, s: set<string>) {
    NoRepeats(parts) && (forall x :: x in s <==> x in parts)
  }

  /** The context text for a listing of the kept matches. */
  function ContextText(parts: seq<string>): string {
    if parts == [] then NoContextHint else ContextPrefix + Join(parts, ", ")
  }

  /** `context` is what `_extract_context` may return for these matches: the kept matches are
      listed in the order a set gives them, which the program does not fix. */
  ghost predicate ContextOf(found: seq<string>, context: string) {
    exists parts :: IsListing(parts, LongMatches(found)) && context == ContextText(parts)
  }

  /** The context is never empty: it is the fixed hint when no match is longer than three
      characters, and otherwise the fixed prefix followed by exactly the long matches, each once. */
  lemma ContextHintRule(found: seq<string>, context: string)
    requires ContextOf(found, context)
    ensures context != ""
    ensures (forall m :: m in found ==> |m| <= 3) ==> context == NoContextHint
    ensures (exists m :: m in found && |m| > 3) ==>
              exists parts :: parts != [] && context == ContextPrefix + Join(parts, ", ")
                              && (forall m :: m in found && |m| > 3 <==> m in parts) && NoRepeats(parts)
  {
    var parts :| IsListing(parts, LongMatches(found)) && context == ContextText(parts);
    assert |NoContextHint| > 0 && |ContextPrefix| > 0;
    ListingOfLongMatches(found, parts);
    if parts != [] {
      assert parts[0] in LongMatches(found);
    }
    if exists m :: m in found && |m| > 3 {
      var m :| m in found && |m| > 3;
      assert m in parts;
      assert parts != [] && context == ContextPrefix + Join(parts, ", ")
             && (forall m :: m in found && |m| > 3 <==> m in parts) && NoRepeats(parts);
    }
  }

  /** A listing of the kept matches holds exactly the matches longer than three characters. */
  lemma ListingOfLongMatches(found: seq<string>, parts: seq<string>)
    requires IsListing(parts, LongMatches(found))
    ensures forall m :: m in found && |m| > 3 <==> m in parts
  {
    forall m
      ensures m in found && |m| > 3 <==> m in parts
    {
      assert m in found && |m| > 3 <==> m in LongMatches(found);
    }
  }

  /** The loop of `_extract_context` that gathers every pattern's matches. */
  method GatherMatches(findall: FindAll, patterns: seq<string>, prompt: string) returns (found: seq<string>)
    ensures found == Found(findall, patterns, prompt)
  {
    found := [];
    for i := 0 to |patterns|
      invariant found == Found(findall, patterns[..i], prompt)
    {
      assert patterns[..i + 1][..i] == patterns[..i];
      found := found + findall(patterns[i], prompt);
    }
    assert patterns[..|patterns|] == patterns;
  }

  /** `list(set(...))`: the elements of a set, each once, in whatever order the set yields. */
  method ListSet(s: set<string>) returns (parts: seq<string>)
    ensures IsListing(parts, s)
  {
    parts := [];
    var rest := s;
    while rest != {}
      invariant forall i, j :: 0 <= i < j < |parts| ==> parts[i] != parts[j]
      invariant forall x :: x in s <==> (x in parts || x in rest)
      invariant forall x :: x in parts ==> x !in rest
      decreases |rest|
    {
      var x :| x in rest;
      parts := parts + [x];
      rest := rest - {x};
    }
  }

  /** `_extract_context` */
  method ExtractContext(findall: FindAll, prompt: string) returns (context: string)
    ensures ContextOf(Found(findall, ContextPatterns, prompt), context)
  {
    var found := GatherMatches(findall, ContextPatterns, prompt);
    var parts := ListSet(LongMatches(found));
    context := if parts == [] then NoContextHint else ContextPrefix + Join(parts, ", ");
    assert context == ContextText(parts);
  }

  // Intent

  /** A sentence break: one of ".!?" followed by white space. */
  predicate IsBreak(p: string, k: int) {
    0 <= k && k + 1 < |p| && p[k] in ".!?" && IsSpace(p[k + 1])
  }

  /** The first break at or after `i`, or the end of the text when there is none. */
  function NextBreak(p: string, i: nat): (j: nat)
    requires i <= |p|
    ensures i <= j <= |p|
    ensures j < |p| ==> IsBreak(p, j)
    ensures forall k :: i <= k < j ==> !IsBreak(p, k)
    decreases |p| - i
  {
    if i == |p| then |p| else if IsBreak(p, i) then i else NextBreak(p, i + 1)
  }

  /** The first piece of `re.split(r'[.!?]\s+', prompt)`: the text before its first break. */
  function FirstSentence(p: string): string {
    p[..NextBreak(p, 0)]
  }

  /** The first sentence is the whole prompt exactly when the prompt has no break, and is empty
      exactly when the prompt is empty or opens with a break. */
  lemma FirstSentenceRule(p: string)
    ensures FirstSentence(p) == p <==> forall k :: !IsBreak(p, k)
    ensures FirstSentence(p) == "" <==> p == "" || IsBreak(p, 0)
  {
    var j := NextBreak(p, 0);
    if FirstSentence(p) == p {
      assert |p| == j;
      forall k ensures !IsBreak(p, k) {
        if 0 <= k < j {
        }
      }
    }
    if j < |p| {
      assert IsBreak(p, j);
    }
  }

  /** The verb of the first family that matches, as `findall` gives it first. */
  function FirstVerb(findall: FindAll, families: seq<string>, prompt: string): (v: Option<string>)
    ensures v.None? <==> forall k :: 0 <= k < |families| ==> findall(families[k], prompt) == []
    ensures v.Some? ==> exists k :: 0 <= k < |families| && findall(families[k], prompt) != []
                                    && v.value == findall(families[k], prompt)[0]
                                    && forall l :: 0 <= l < k ==> findall(families[l], prompt) == []
    decreases |families|
  {
    if families == [] then None
    else if findall(families[0], prompt) != [] then Some(findall(families[0], prompt)[0])
    else
      var v := FirstVerb(findall, families[1..], prompt);
      assert forall k :: 1 <= k < |families| ==> families[k] == families[1..][k - 1];
      v
  }

  /** `_extract_intent` for a found verb (or none): "Verb: first sentence", or the first sentence
      capitalised. */
  function IntentText(verb: Option<string>, prompt: string): (intent: string)
    ensures verb.Some? ==> intent == Capitalize(verb.value) + ": " + FirstSentence(prompt)
    ensures verb.None? ==> intent == Capitalize(FirstSentence(prompt))
  {
    if verb.Some? then Capitalize(verb.value) + ": " + FirstSentence(prompt) else Capitalize(FirstSentence(prompt))
  }

  function IntentOf(findall: FindAll, prompt: string): string {
    IntentText(FirstVerb(findall, VerbFamilies, prompt), prompt)
  }

  /** The intent is empty exactly when no verb family matches and the prompt has no first
      sentence. */
  lemma IntentEmptyRule(findall: FindAll, prompt: string)
    ensures IntentOf(findall, prompt) == "" <==>
              (forall k :: 0 <= k < |VerbFamilies| ==> findall(VerbFamilies[k], prompt) == [])
              && (prompt == "" || IsBreak(prompt, 0))
  {
    FirstSentenceRule(prompt);
    var verb := FirstVerb(findall, VerbFamilies, prompt);
    if verb.Some? {
      assert |IntentOf(findall, prompt)| >= 2;
    }
  }

  /** The search of `_extract_intent`, stopping at the first family that matches. */
  method ExtractIntent(findall: FindAll, prompt: string) returns (intent: string)
    ensures intent == IntentOf(findall, prompt)
  {
    var verb: Option<string> := None;
    var k := 0;
    while k < |VerbFamilies|
      invariant 0 <= k <= |VerbFamilies|
      invariant FirstVerb(findall, VerbFamilies, prompt) == FirstVerb(findall, VerbFamilies[k..], prompt)
    {
      var matches := findall(VerbFamilies[k], prompt);
      if matches != [] {
        verb := Some(matches[0]);
        break;
      }
      assert VerbFamilies[k..][1..] == VerbFamilies[k + 1..];
      k := k + 1;
    }
    if k == |VerbFamilies| {
      assert FirstVerb(findall, VerbFamilies[k..], prompt) == None;
    }
    intent := IntentText(verb, prompt);
  }

  // The list parts

  /** `[m.strip() for m in matches if m.strip()]` */
  function Kept(ms: seq<string>): (ks: seq<string>)
    ensures |ks| <= |ms|
    ensures "" !in ks
    decreases |ms|
  {
    if ms == [] then []
    else
      var k := Strip(ms[0]);
      if k != "" then [k] + Kept(ms[1..]) else Kept(ms[1..])
  }

  /** The stripped, non-blank matches of every pattern, pattern by pattern. */
  function Collected(findall: FindAll, patterns: seq<string>, prompt: string): (cs: seq<string>)
    ensures "" !in cs
    decreases |patterns|
  {
    if patterns == [] then []
    else Collected(findall, patterns[..|patterns| - 1], prompt) + Kept(findall(patterns[|patterns| - 1], prompt))
  }

  /** The first `ListLimit` entries of the found entries, or of the defaults when none was found. */
  function Limited(found: seq<string>, defaults: seq<string>): seq<string> {
    var xs := if found == [] then defaults else found;
    if |xs| <= ListLimit then xs else xs[..ListLimit]
  }

  /** A list part has at most `ListLimit` entries, none blank when its defaults are none blank:
      the first of those found, in order, or the defaults when nothing was found and they fit; it
      is empty only when nothing was found and there are no defaults. */
  lemma ListPartRule(findall: FindAll, patterns: seq<string>, prompt: string, defaults: seq<string>)
    requires forall i :: 0 <= i < |defaults| ==> defaults[i] != ""
    ensures var found := Collected(findall, patterns, prompt);
            var part := Limited(found, defaults);
            && |part| <= ListLimit
            && (found != [] ==> part == found[..SliceCount(|found|, ListLimit)])
            && (found == [] && |defaults| <= ListLimit ==> part == defaults)
            && (part == [] <==> found == [] && defaults == [])
            && forall i :: 0 <= i < |part| ==> part[i] != ""
  {
    var found := Collected(findall, patterns, prompt);
    var part := Limited(found, defaults);
    if found != [] {
      assert forall i :: 0 <= i < |part| ==> part[i] == found[i];
    }
  }

  /** The defaults of the constraints and the criteria are three non-blank entries each, and the
      priorities fall back to nothing only for an empty intent. */
  lemma DefaultsFit(intent: string)
    ensures |DefaultConstraints| == |DefaultCriteria| == 3 <= ListLimit
    ensures forall i :: 0 <= i < 3 ==> DefaultConstraints[i] != "" && DefaultCriteria[i] != ""
    ensures FallbackPriorities(intent) == [] <==> intent == ""
    ensures forall i :: 0 <= i < |FallbackPriorities(intent)| ==> FallbackPriorities(intent)[i] != ""
  {
  }

  /** The loop shared by `_extract_constraints`, `_extract_criteria` and `_extract_priorities`. */
  method CollectMatches(findall: FindAll, patterns: seq<string>, prompt: string) returns (found: seq<string>)
    ensures found == Collected(findall, patterns, prompt)
  {
    found := [];
    for i := 0 to |patterns|
      invariant found == Collected(findall, patterns[..i], prompt)
    {
      assert patterns[..i + 1][..i] == patterns[..i];
      found := found + Kept(findall(patterns[i], prompt));
    }
    assert patterns[..|patterns|] == patterns;
  }

  /** `_extract_constraints` */
  method ExtractConstraints(findall: FindAll, prompt: string) returns (constraints: seq<string>)
    ensures constraints == Limited(Collected(findall, ConstraintPatterns, prompt), DefaultConstraints)
  {
    constraints := CollectMatches(findall, ConstraintPatterns, prompt);
    if constraints == [] {
      constraints := DefaultConstraints;
    }
    if |constraints| > ListLimit {
      constraints := constraints[..ListLimit];
    }
  }

  /** `_extract_criteria` */
  method ExtractCriteria(findall: FindAll, prompt: string) returns (criteria: seq<string>)
    ensures criteria == Limited(Collected(findall, CriteriaPatterns, prompt), DefaultCriteria)
  {
    criteria := CollectMatches(findall, CriteriaPatterns, prompt);
    if criteria == [] {
      criteria := DefaultCriteria;
    }
    if |criteria| > ListLimit {
      criteria := criteria[..ListLimit];
    }
  }

  /** The priorities when nothing was found: the intent alone, unless it is empty. */
  function FallbackPriorities(intent: string): seq<string> {
    if intent != "" then [intent] else []
  }

  /** `_extract_priorities` */
  method ExtractPriorities(findall: FindAll, prompt: string) returns (priorities: seq<string>)
    ensures priorities == Limited(Collected(findall, PriorityPatterns, prompt), FallbackPriorities(IntentOf(findall, prompt)))
  {
    priorities := CollectMatches(findall, PriorityPatterns, prompt);
    if priorities == [] {
      var intent := ExtractIntent(findall, prompt);
      if intent != "" {
        priorities := [intent];
      }
    }
    if |priorities| > ListLimit {
      priorities := priorities[..ListLimit];
    }
  }

  // Analysis

  /** `s` is what `analyze_prompt` may return for the prompt. */
  ghost predicate IsAnalysis(findall: FindAll, prompt: string, s: StructuredPrompt) {
    && ContextOf(Found(findall, ContextPatterns, prompt), s.context)
    && s.intent == IntentOf(findall, prompt)
    && s.constraints == Limited(Collected(findall, ConstraintPatterns, prompt), DefaultConstraints)
    && s.criteria == Limited(Collected(findall, CriteriaPatterns, prompt), DefaultCriteria)
    && s.priorities == Limited(Collected(findall, PriorityPatterns, prompt), FallbackPriorities(s.intent))
  }

  /** `analyze_prompt` */
  method AnalyzePrompt(findall: FindAll, prompt: string) returns (s: StructuredPrompt)
    ensures IsAnalysis(findall, prompt, s)
  {
    var context := ExtractContext(findall, prompt);
    var intent := ExtractIntent(findall, prompt);
    var constraints := ExtractConstraints(findall, prompt);
    var criteria := ExtractCriteria(findall, prompt);
    var priorities := ExtractPriorities(findall, prompt);
    s := StructuredPrompt(context, intent, constraints, criteria, priorities);
  }

  // Layout

  const Header: string := "## Structured Prompt\n"
  const ConstraintsHeading: string := "**CONSTRAINTS:**"
  const CriteriaHeading: string := "**ACCEPTANCE_CRITERIA:**"
  const PrioritiesHeading: string := "**PRIORITIES:**"

  function ContextLine(context: string): string {
    "**CONTEXT:** " + context + "\n"
  }

  function IntentLine(intent: string): string {
    "**INTENT:** " + intent + "\n"
  }

  function Bullet(item: string): string {
    "  - " + item
  }

  function NumberedItem(n: nat, item: string): string {
    "  " + NatToString(n) + ". " + item
  }

  function Bullets(items: seq<string>): seq<string> {
    seq(|items|, i requires 0 <= i < |items| => Bullet(items[i]))
  }

  function NumberedItems(items: seq<string>): seq<string> {
    seq(|items|, i requires 0 <= i < |items| => NumberedItem(i + 1, items[i]))
  }

  /** A list section: its heading, its items and an empty line; nothing for no items. */
  function Section(heading: string, itemLines: seq<string>): seq<string> {
    if itemLines == [] then [] else [heading] + itemLines + [""]
  }

  /** The header, then the context and intent lines of those that are not empty. */
  function HeadLines(s: StructuredPrompt): seq<string> {
    [Header]
    + (if s.context != "" then [ContextLine(s.context)] else [])
    + (if s.intent != "" then [IntentLine(s.intent)] else [])
  }

  /** The lines `format_structured_prompt` joins. */
  function FormatLines(s: StructuredPrompt): seq<string> {
    HeadLines(s)
    + Section(ConstraintsHeading, Bullets(s.constraints))
    + Section(CriteriaHeading, Bullets(s.criteria))
    + Section(PrioritiesHeading, NumberedItems(s.priorities))
  }

  /** One line when an optional head line is present, none otherwise. */
  function LineIf(b: bool): nat {
    if b then 1 else 0
  }

  /** The number of lines a list section takes. */
  function SectionSize(items: seq<string>): nat {
    if items == [] then 0 else |items| + 2
  }

  /** A section of `n` item lines: the heading, the items in order, an empty line. */
  lemma SectionShape(heading: string, itemLines: seq<string>)
    ensures |Section(heading, itemLines)| == SectionSize(itemLines)
    ensures itemLines != [] ==>
              && Section(heading, itemLines)[0] == heading
              && Section(heading, itemLines)[|itemLines| + 1] == ""
              && forall i :: 0 <= i < |itemLines| ==> Section(heading, itemLines)[1 + i] == itemLines[i]
  {
  }

  /** Where the head is: the header first, then the context line and the intent line when they
      are not empty, and then the list sections. */
  lemma HeadLayout(s: StructuredPrompt)
    ensures |HeadLines(s)| == 1 + LineIf(s.context != "") + LineIf(s.intent != "")
    ensures FormatLines(s)[0] == Header
    ensures s.context != "" ==> FormatLines(s)[1] == ContextLine(s.context)
    ensures s.intent != "" ==> FormatLines(s)[1 + LineIf(s.context != "")] == IntentLine(s.intent)
    ensures |FormatLines(s)| == |HeadLines(s)| + SectionSize(s.constraints) + SectionSize(s.criteria) + SectionSize(s.priorities)
  {
    var h := HeadLines(s);
    var rest := Section(ConstraintsHeading, Bullets(s.constraints)) + Section(CriteriaHeading, Bullets(s.criteria))
                + Section(PrioritiesHeading, NumberedItems(s.priorities));
    assert FormatLines(s) == h + rest;
    SectionShape(ConstraintsHeading, Bullets(s.constraints));
    SectionShape(CriteriaHeading, Bullets(s.criteria));
    SectionShape(PrioritiesHeading, NumberedItems(s.priorities));
  }

  /** The constraints section follows the head: heading, one bullet per constraint in order, an
      empty line. */
  lemma ConstraintsLayout(s: StructuredPrompt)
    requires s.constraints != []
    ensures var lines, top := FormatLines(s), |HeadLines(s)|;
            && lines[top] == ConstraintsHeading
            && (forall i :: 0 <= i < |s.constraints| ==> lines[top + 1 + i] == Bullet(s.constraints[i]))
            && lines[top + |s.constraints| + 1] == ""
  {
    var h := HeadLines(s);
    var rest := Section(CriteriaHeading, Bullets(s.criteria)) + Section(PrioritiesHeading, NumberedItems(s.priorities));
    assert FormatLines(s) == h + Section(ConstraintsHeading, Bullets(s.constraints)) + rest;
    SectionLinesAt(h, ConstraintsHeading, Bullets(s.constraints), rest);
  }

  /** The criteria section follows the constraints section: heading, one bullet per criterion in
      order, an empty line. */
  lemma CriteriaLayout(s: StructuredPrompt)
    requires s.criteria != []
    ensures var lines, at := FormatLines(s), |HeadLines(s)| + SectionSize(s.constraints);
            && lines[at] == CriteriaHeading
            && (forall i :: 0 <= i < |s.criteria| ==> lines[at + 1 + i] == Bullet(s.criteria[i]))
            && lines[at + |s.criteria| + 1] == ""
  {
    var h := HeadLines(s) + Section(ConstraintsHeading, Bullets(s.constraints));
    var p := Section(PrioritiesHeading, NumberedItems(s.priorities));
    assert FormatLines(s) == h + Section(CriteriaHeading, Bullets(s.criteria)) + p;
    SectionShape(ConstraintsHeading, Bullets(s.constraints));
    assert |h| == |HeadLines(s)| + SectionSize(s.constraints);
    SectionLinesAt(h, CriteriaHeading, Bullets(s.criteria), p);
  }

  /** The priorities come last, numbered from 1 in order, then an empty line ends the text. */
  lemma PrioritiesLayout(s: StructuredPrompt)
    requires s.priorities != []
    ensures var lines, at := FormatLines(s), |HeadLines(s)| + SectionSize(s.constraints) + SectionSize(s.criteria);
            && lines[at] == PrioritiesHeading
            && (forall i :: 0 <= i < |s.priorities| ==> lines[at + 1 + i] == NumberedItem(i + 1, s.priorities[i]))
            && |lines| == at + |s.priorities| + 2 && lines[|lines| - 1] == ""
  {
    var h := HeadLines(s) + Section(ConstraintsHeading, Bullets(s.constraints)) + Section(CriteriaHeading, Bullets(s.criteria));
    var items := NumberedItems(s.priorities);
    assert FormatLines(s) == h + Section(PrioritiesHeading, items) + [];
    SectionShape(ConstraintsHeading, Bullets(s.constraints));
    SectionShape(CriteriaHeading, Bullets(s.criteria));
    assert |h| == |HeadLines(s)| + SectionSize(s.constraints) + SectionSize(s.criteria);
    SectionLinesAt(h, PrioritiesHeading, items, []);
  }

  /** A non-empty section between two runs of lines: its heading right after the first run, its
      items in order, then the empty line, and the whole as long as the three parts. */
  lemma SectionLinesAt(x: seq<string>, heading: string, itemLines: seq<string>, z: seq<string>)
    requires itemLines != []
    ensures var lines := x + Section(heading, itemLines) + z;
            && |lines| == |x| + |itemLines| + 2 + |z|
            && lines[|x|] == heading
            && (forall i :: 0 <= i < |itemLines| ==> lines[|x| + 1 + i] == itemLines[i])
            && lines[|x| + |itemLines| + 1] == ""
  {
    var y := Section(heading, itemLines);
    SectionShape(heading, itemLines);
    SectionAt(x, y, z);
    assert y[0] == heading;
    forall i | 0 <= i < |itemLines|
      ensures (x + y + z)[|x| + 1 + i] == itemLines[i]
    {
      assert (x + y + z)[|x| + (1 + i)] == y[1 + i];
    }
    assert (x + y + z)[|x| + (|itemLines| + 1)] == y[|itemLines| + 1];
  }

  /** Indexing into the middle of three joined pieces. */
  lemma SectionAt(x: seq<string>, y: seq<string>, z: seq<string>)
    ensures |x + y + z| == |x| + |y| + |z|
    ensures forall i :: 0 <= i < |y| ==> (x + y + z)[|x| + i] == y[i]
  {
  }

  /** `format_structured_prompt`'s loop over a list section's items. */
  method AppendBullets(output: seq<string>, items: seq<string>) returns (out: seq<string>)
    ensures out == output + Bullets(items)
  {
    out := output;
    for i := 0 to |items|
      invariant out == output + Bullets(items[..i])
    {
      assert Bullets(items[..i + 1]) == Bullets(items[..i]) + [Bullet(items[i])];
      out := out + [Bullet(items[i])];
    }
    assert items[..|items|] == items;
  }

  /** `format_structured_prompt`'s numbering loop, counting from 1. */
  method AppendNumbered(output: seq<string>, items: seq<string>) returns (out: seq<string>)
    ensures out == output + NumberedItems(items)
  {
    out := output;
    for i := 0 to |items|
      invariant out == output + NumberedItems(items[..i])
    {
      assert NumberedItems(items[..i + 1]) == NumberedItems(items[..i]) + [NumberedItem(i + 1, items[i])];
      out := out + [NumberedItem(i + 1, items[i])];
    }
    assert items[..|items|] == items;
  }

  /** One bulleted section of `format_structured_prompt`, skipped when it has no items. */
  method AppendBulletSection(output: seq<string>, heading: string, items: seq<string>) returns (out: seq<string>)
    ensures out == output + Section(heading, Bullets(items))
  {
    out := output;
    if items != [] {
      out := AppendBullets(out + [heading], items);
      out := out + [""];
    }
  }

  /** `format_structured_prompt`: the layout's lines joined by newlines. */
  method FormatStructuredPrompt(s: StructuredPrompt) returns (text: string)
    ensures text == Join(FormatLines(s), "\n")
  {
    var output := [Header];
    if s.context != "" {
      output := output + [ContextLine(s.context)];
    }
    if s.intent != "" {
      output := output + [IntentLine(s.intent)];
    }
    assert output == HeadLines(s);
    output := AppendBulletSection(output, ConstraintsHeading, s.constraints);
    output := AppendBulletSection(output, CriteriaHeading, s.criteria);
    var before := output;
    if s.priorities != [] {
      output := AppendNumbered(output + [PrioritiesHeading], s.priorities);
      output := output + [""];
    }
    assert output == before + Section(PrioritiesHeading, NumberedItems(s.priorities));
    text := Join(output, "\n");
  }

  /** `convert`: the layout of an analysis of the prompt. */
  method Convert(findall: FindAll, prompt: string) returns (text: string)
    ensures exists s :: IsAnalysis(findall, prompt, s) && text == Join(FormatLines(s), "\n")
  {
    var s := AnalyzePrompt(findall, prompt);
    text := FormatStructuredPrompt(s);
  }
}
