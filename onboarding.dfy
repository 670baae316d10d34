/** The onboarding questionnaire that creates a new learner's profile. Each question reads lines
    the user types and strips each line it reads; the lines are a sequence given in advance, so
    the questions read the stripped lines, and every question answers with what it read and the
    lines left for the next one. Running out of lines is the `EOFError` the console raises. The
    questions' printed text is not modelled. */
module Onboarding {
  import opened Wrappers
  import opened Strings
  import opened UserProfiles

  /** The twelve guides, in the order they are listed and numbered from 1. */
  const Personas: seq<string> := [
    "Richard Feynman", "Marie Curie", "Steve Jobs", "Carl Sagan", "Kobe Bryant", "David Goggins",
    "Eleanor Roosevelt", "Elon Musk", "Jocko Willink", "Isaac Newton", "Niels Bohr", "Travis Kalanick"]

  /** The study challenges, numbered from 1. */
  const PainPoints: seq<string> := [
    "procrastination", "perfectionism", "burnout", "test anxiety", "time management",
    "motivation issues", "imposter syndrome", "information overload", "distractions", "lack of focus"]

  /** The most topics, and the most goals, one questionnaire collects. */
  const MaxEntries: nat := 10

  const EndOfInput: string := "EOF when reading a line"

  /** Every line as a question reads it: `input().strip()`. */
  function Stripped(lines: seq<string>): (answers: seq<string>)
    ensures |answers| == |lines|
    ensures forall i :: 0 <= i < |lines| ==> answers[i] == Strip(lines[i])
  {
    seq(|lines|, i requires 0 <= i < |lines| => Strip(lines[i]))
  }

  /** What a question read, and the stripped lines left after it. */
  datatype Answer<T> = Answer(value: T, rest: seq<string>)

  /** The answer of the first line `pick` accepts; every line before it is asked again. */
  function FirstAccepted<T>(lines: seq<string>, pick: string -> Option<T>): Result<Answer<T>, string>
    decreases |lines|
  {
    if lines == [] then Err(EndOfInput)
    else if pick(lines[0]).Some? then Ok(Answer(pick(lines[0]).value, lines[1..]))
    else FirstAccepted(lines[1..], pick)
  }

  /** A question asked until it gets an acceptable line: it fails exactly when no line is
      acceptable, and otherwise answers with the first acceptable line and the lines after it. */
  lemma {:induction false} FirstAcceptedIsFirst<T>(lines: seq<string>, pick: string -> Option<T>)
    ensures FirstAccepted(lines, pick).Err? <==> forall i :: 0 <= i < |lines| ==> pick(lines[i]).None?
    ensures FirstAccepted(lines, pick).Ok? ==>
              exists k :: 0 <= k < |lines| && pick(lines[k]) == Some(FirstAccepted(lines, pick).value.value)
                          && FirstAccepted(lines, pick).value.rest == lines[k + 1..]
                          && forall j :: 0 <= j < k ==> pick(lines[j]).None?
    decreases |lines|
  {
    if lines != [] && pick(lines[0]).None? {
      var tail := lines[1..];
      FirstAcceptedIsFirst(tail, pick);
      assert forall i :: 0 <= i < |tail| ==> tail[i] == lines[i + 1];
      if FirstAccepted(tail, pick).Ok? {
        var k :| 0 <= k < |tail| && pick(tail[k]) == Some(FirstAccepted(tail, pick).value.value)
                 && FirstAccepted(tail, pick).value.rest == tail[k + 1..]
                 && forall j :: 0 <= j < k ==> pick(tail[j]).None?;
        assert lines[k + 1 + 1..] == tail[k + 1..];
        assert forall j :: 0 <= j < k + 1 ==> pick(lines[j]).None? by {
          forall j | 0 <= j < k + 1
            ensures pick(lines[j]).None?
          {
            if j > 0 {
              assert lines[j] == tail[j - 1];
            }
          }
        }
      } else {
        forall i | 0 <= i < |lines|
          ensures pick(lines[i]).None?
        {
          if i > 0 {
            assert lines[i] == tail[i - 1];
          }
        }
      }
    } else if lines != [] {
      assert pick(lines[0]) == Some(FirstAccepted(lines, pick).value.value);
    }
  }

  /** `_collect_name`'s test of a stripped line: it is the name when it is not empty. */
  function NameChoice(answer: string): (r: Option<string>)
    ensures r.Some? <==> answer != ""
    ensures r.Some? ==> r.value == answer
  {
    if answer != "" then Some(answer) else None
  }

  /** `_select_persona`'s test of a stripped line: an integer from 1 to 12 picks that guide. */
  function PersonaChoice(answer: string): (r: Option<string>)
    ensures r.Some? ==> r.value in Personas
    ensures r.Some? <==> ParseInt(answer).Some? && 1 <= ParseInt(answer).value <= |Personas|
    ensures r.Some? ==> r.value == Personas[ParseInt(answer).value - 1]
  {
    match ParseInt(answer)
    case Some(n) => if 1 <= n <= |Personas| then Some(Personas[n - 1]) else None
    case None => None
  }

  /** The name is the first line that is not blank. */
  lemma NameIsFirstNonBlank(answers: seq<string>)
    ensures var r := FirstAccepted(answers, NameChoice);
            && (r.Err? <==> forall i :: 0 <= i < |answers| ==> answers[i] == "")
            && (r.Ok? ==> exists k :: 0 <= k < |answers| && r.value.value == answers[k] != ""
                                      && r.value.rest == answers[k + 1..]
                                      && forall j :: 0 <= j < k ==> answers[j] == "")
  {
    FirstAcceptedIsFirst(answers, NameChoice);
  }

  /** The guide is the one numbered by the first line that is a number from 1 to 12. */
  lemma PersonaIsFirstInRange(answers: seq<string>)
    ensures var r := FirstAccepted(answers, PersonaChoice);
            && (r.Err? <==> forall i :: 0 <= i < |answers| ==> PersonaChoice(answers[i]).None?)
            && (r.Ok? ==> r.value.value in Personas
                          && exists k :: 0 <= k < |answers| && PersonaChoice(answers[k]) == Some(r.value.value)
                                         && r.value.rest == answers[k + 1..]
                                         && forall j :: 0 <= j < k ==> PersonaChoice(answers[j]).None?)
  {
    FirstAcceptedIsFirst(answers, PersonaChoice);
  }

  /** `_collect_name`: asks until the answer is not blank. */
  method CollectName(answers: seq<string>) returns (r: Result<Answer<string>, string>)
    ensures r == FirstAccepted(answers, NameChoice)
  {
    var i := 0;
    while i < |answers|
      invariant 0 <= i <= |answers|
      invariant FirstAccepted(answers, NameChoice) == FirstAccepted(answers[i..], NameChoice)
    {
      var name := answers[i];
      if name != "" {
        return Ok(Answer(name, answers[i + 1..]));
      }
      assert answers[i..][1..] == answers[i + 1..];
      i := i + 1;
    }
    r := Err(EndOfInput);
  }

  /** `_select_persona`: asks until the answer is a number of one of the listed guides. */
  method SelectPersona(answers: seq<string>) returns (r: Result<Answer<string>, string>)
    ensures r == FirstAccepted(answers, PersonaChoice)
  {
    var i := 0;
    while i < |answers|
      invariant 0 <= i <= |answers|
      invariant FirstAccepted(answers, PersonaChoice) == FirstAccepted(answers[i..], PersonaChoice)
    {
      var choice := ParseInt(answers[i]);
      if choice.Some? && 0 <= choice.value - 1 < |Personas| {
        return Ok(Answer(Personas[choice.value - 1], answers[i + 1..]));
      }
      assert answers[i..][1..] == answers[i + 1..];
      i := i + 1;
    }
    r := Err(EndOfInput);
  }

  /** `_collect_academic_field`: one line; a blank one skips the question. */
  function AcademicField(answers: seq<string>): (r: Result<Answer<Option<string>>, string>)
    ensures answers == [] <==> r.Err?
    ensures r.Ok? ==> r.value.rest == answers[1..]
    ensures r.Ok? ==> (r.value.value.None? <==> answers[0] == "")
    ensures r.Ok? && r.value.value.Some? ==> r.value.value.value == answers[0]
  {
    if answers == [] then Err(EndOfInput)
    else Ok(Answer(if answers[0] != "" then Some(answers[0]) else None, answers[1..]))
  }

  /** How many answers come before the first blank one. */
  function LeadingCount(answers: seq<string>): (k: nat)
    ensures k <= |answers|
    ensures forall j :: 0 <= j < k ==> answers[j] != ""
    ensures k < |answers| ==> answers[k] == ""
  {
    if answers == [] || answers[0] == "" then 0 else 1 + LeadingCount(answers[1..])
  }

  /** What `_collect_study_topics` and `_collect_goals` read: the answers up to the first blank
      one, which is consumed too, but never more than `MaxEntries` of them; running out of lines
      before either is the end-of-input error. */
  function ReadEntries(answers: seq<string>): (r: Result<Answer<seq<string>>, string>)
    ensures r.Err? <==> |answers| < MaxEntries && forall j :: 0 <= j < |answers| ==> answers[j] != ""
    ensures r.Ok? ==> var v := r.value.value;
                      && |v| <= MaxEntries && |v| <= |answers| && v == answers[..|v|]
                      && (forall j :: 0 <= j < |v| ==> v[j] != "")
                      && (|v| < MaxEntries ==> |v| < |answers| && answers[|v|] == "" && r.value.rest == answers[|v| + 1..])
                      && (|v| == MaxEntries ==> r.value.rest == answers[MaxEntries..])
  {
    var k := LeadingCount(answers);
    if k >= MaxEntries then Ok(Answer(answers[..MaxEntries], answers[MaxEntries..]))
    else if k < |answers| then Ok(Answer(answers[..k], answers[k + 1..]))
    else Err(EndOfInput)
  }

  /** `_collect_study_topics` and `_collect_goals`: the loop that reads entries until a blank line
      or `MaxEntries` of them. */
  method CollectEntries(answers: seq<string>) returns (r: Result<Answer<seq<string>>, string>)
    ensures r == ReadEntries(answers)
  {
    var entries: seq<string> := [];
    var i := 0;
    while i < |answers|
      invariant 0 <= i <= |answers| && i < MaxEntries
      invariant entries == answers[..i] && forall j :: 0 <= j < i ==> answers[j] != ""
    {
      var entry := answers[i];
      if entry == "" {
        return Ok(Answer(entries, answers[i + 1..]));
      }
      entries := entries + [entry];
      assert entries == answers[..i + 1];
      if |entries| >= MaxEntries {
        return Ok(Answer(entries, answers[i + 1..]));
      }
      i := i + 1;
    }
    r := Err(EndOfInput);
  }

  /** What `int(x.strip())` gives for each comma-separated token. */
  function Numbers(tokens: seq<string>): (ns: seq<Option<int>>)
    ensures |ns| == |tokens|
    ensures forall k :: 0 <= k < |tokens| ==> ns[k] == ParseInt(Strip(tokens[k]))
  {
    seq(|tokens|, k requires 0 <= k < |tokens| => ParseInt(Strip(tokens[k])))
  }

  /** The zero-based indices of the numbers, or `None` when one token is not an integer: the
      `ValueError` of building the whole list. */
  function Indices(ns: seq<Option<int>>): (r: Option<seq<int>>)
    ensures r.None? <==> exists k :: 0 <= k < |ns| && ns[k].None?
    ensures r.Some? ==> |r.value| == |ns| && forall k :: 0 <= k < |ns| ==> r.value[k] == ns[k].value - 1
  {
    if forall k :: 0 <= k < |ns| ==> ns[k].Some? then Some(seq(|ns|, k requires 0 <= k < |ns| && ns[k].Some? => ns[k].value - 1))
    else None
  }

  /** When every token is a number, the indices are those numbers less one. */
  lemma IndicesOfNumbers(ns: seq<Option<int>>, indices: seq<int>)
    requires |indices| == |ns|
    requires forall j :: 0 <= j < |ns| ==> ns[j].Some? && indices[j] == ns[j].value - 1
    ensures Indices(ns) == Some(indices)
  {
    assert Indices(ns).value == indices;
  }

  /** The challenges the indices name, in their order, duplicates kept, out-of-range ones dropped. */
  function Selected(indices: seq<int>): (r: seq<string>)
    ensures |r| <= |indices|
    ensures forall i :: 0 <= i < |r| ==> r[i] in PainPoints
  {
    if indices == [] then []
    else
      var last := indices[|indices| - 1];
      Selected(indices[..|indices| - 1]) + (if 0 <= last < |PainPoints| then [PainPoints[last]] else [])
  }

  /** Selection goes index by index: selecting from two runs of indices is selecting from each. */
  lemma {:induction false} SelectedAppend(a: seq<int>, b: seq<int>)
    ensures Selected(a + b) == Selected(a) + Selected(b)
    decreases |b|
  {
    if b == [] {
      assert a + b == a;
    } else {
      var init := b[..|b| - 1];
      assert (a + b)[..|a + b| - 1] == a + init;
      SelectedAppend(a, init);
    }
  }

  /** Nothing is selected exactly when every index is out of range. */
  lemma {:induction false} SelectedNothing(indices: seq<int>)
    ensures Selected(indices) == [] <==> forall i :: 0 <= i < |indices| ==> !(0 <= indices[i] < |PainPoints|)
    decreases |indices|
  {
    if indices != [] {
      var init := indices[..|indices| - 1];
      SelectedNothing(init);
      assert forall i :: 0 <= i < |init| ==> indices[i] == init[i];
    }
  }

  /** `_collect_pain_points`' reading of its stripped line. */
  function PainPointsOf(answer: string): seq<string> {
    if answer == "" then []
    else
      match Indices(Numbers(Split(answer, ',')))
      case None => []
      case Some(indices) => Selected(indices)
  }

  /** A blank line selects nothing; a token that is not an integer discards the whole selection;
      otherwise each number from 1 to 10, in order and with repeats, names its challenge. */
  lemma PainPointsRules(answer: string)
    ensures answer == "" ==> PainPointsOf(answer) == []
    ensures var ns := Numbers(Split(answer, ','));
            (exists k :: 0 <= k < |ns| && ns[k].None?) ==> PainPointsOf(answer) == []
    ensures forall i :: 0 <= i < |PainPointsOf(answer)| ==> PainPointsOf(answer)[i] in PainPoints
    ensures |PainPointsOf(answer)| <= |Split(answer, ',')|
  {
    var ns := Numbers(Split(answer, ','));
    assert |ns| == |Split(answer, ',')|;
  }

  /** `_collect_pain_points`: one line, read as comma-separated numbers. */
  function PainPointsFrom(answers: seq<string>): Result<Answer<seq<string>>, string> {
    if answers == [] then Err(EndOfInput) else Ok(Answer(PainPointsOf(answers[0]), answers[1..]))
  }

  /** `_collect_pain_points`: the reading of its line, in the loops below. */
  method CollectPainPoints(answers: seq<string>) returns (r: Result<Answer<seq<string>>, string>)
    ensures r == PainPointsFrom(answers)
  {
    if answers == [] {
      return Err(EndOfInput);
    }
    var selection := answers[0];
    if selection == "" {
      return Ok(Answer([], answers[1..]));
    }
    var indices := ReadIndices(Split(selection, ','));
    if indices.None? {
      return Ok(Answer([], answers[1..]));
    }
    var selected := SelectPainPoints(indices.value);
    r := Ok(Answer(selected, answers[1..]));
  }

  /** The list comprehension of `_collect_pain_points`: every token read as a number, or none. */
  method ReadIndices(tokens: seq<string>) returns (r: Option<seq<int>>)
    ensures r == Indices(Numbers(tokens))
  {
    r := IndicesOf(Numbers(tokens));
  }

  /** The comprehension's loop over the tokens' numbers: the first one missing ends it. */
  method IndicesOf(ns: seq<Option<int>>) returns (r: Option<seq<int>>)
    ensures r == Indices(ns)
  {
    var indices: seq<int> := [];
    for k := 0 to |ns|
      invariant |indices| == k
      invariant forall j :: 0 <= j < k ==> ns[j].Some? && indices[j] == ns[j].value - 1
    {
      if ns[k].None? {
        return None;
      }
      indices := indices + [ns[k].value - 1];
    }
    IndicesOfNumbers(ns, indices);
    r := Some(indices);
  }

  /** The selection loop of `_collect_pain_points`. */
  method SelectPainPoints(indices: seq<int>) returns (selected: seq<string>)
    ensures selected == Selected(indices)
  {
    selected := [];
    for k := 0 to |indices|
      invariant selected == Selected(indices[..k])
    {
      assert indices[..k + 1][..k] == indices[..k];
      if 0 <= indices[k] < |PainPoints| {
        selected := selected + [PainPoints[indices[k]]];
      }
    }
    assert indices[..|indices|] == indices;
  }

  /** The profile `run_onboarding` creates from the answers: the chosen guide is the only preferred
      one and the first topic, if any, is the current focus. */
  function NewProfile(userId: string, name: string, persona: string, field: Option<string>,
                      topics: seq<string>, goals: seq<string>, traits: seq<string>): (r: ProfileRecord)
    ensures r.userId == userId && r.name == name && r.primaryPersona == persona
    ensures r.preferredPersonas == [persona] && r.academicField == field
    ensures r.studyTopics == topics && r.goals == goals && r.traits == traits
    ensures r.currentFocus == (if topics == [] then None else Some(topics[0]))
    ensures r.progressLog == [] && r.lastMotivationAt == None
  {
    ProfileRecord(userId, name, persona, [persona], field, topics, goals, traits, [],
                  if topics != [] then Some(topics[0]) else None, None)
  }

  /** The questions in order, each reading on from where the one before stopped. */
  function Questionnaire(userId: string, answers: seq<string>): Result<ProfileRecord, string> {
    var name :- FirstAccepted(answers, NameChoice);
    var persona :- FirstAccepted(name.rest, PersonaChoice);
    var field :- AcademicField(persona.rest);
    var topics :- ReadEntries(field.rest);
    var goals :- ReadEntries(topics.rest);
    var traits :- PainPointsFrom(goals.rest);
    Ok(NewProfile(userId, name.value, persona.value, field.value, topics.value, goals.value, traits.value))
  }

  /** What any completed questionnaire gives: a non-blank name, one of the twelve guides as the
      only preferred one, at most ten topics and ten goals, none blank, known challenges only, and
      the first topic as the focus. */
  lemma QuestionnaireProfile(userId: string, answers: seq<string>)
    ensures var r := Questionnaire(userId, answers);
            r.Ok? ==>
              && r.value.userId == userId && r.value.name != ""
              && r.value.primaryPersona in Personas && r.value.preferredPersonas == [r.value.primaryPersona]
              && |r.value.studyTopics| <= MaxEntries && |r.value.goals| <= MaxEntries
              && (forall i :: 0 <= i < |r.value.studyTopics| ==> r.value.studyTopics[i] != "")
              && (forall i :: 0 <= i < |r.value.goals| ==> r.value.goals[i] != "")
              && (forall i :: 0 <= i < |r.value.traits| ==> r.value.traits[i] in PainPoints)
              && (r.value.currentFocus.Some? <==> r.value.studyTopics != [])
              && (r.value.currentFocus.Some? ==> r.value.currentFocus.value == r.value.studyTopics[0])
  {
    var r := Questionnaire(userId, answers);
    var name := FirstAccepted(answers, NameChoice);
    if name.Ok? {
      FirstAcceptedIsFirst(answers, NameChoice);
      var persona := FirstAccepted(name.value.rest, PersonaChoice);
      FirstAcceptedIsFirst(name.value.rest, PersonaChoice);
      if persona.Ok? {
        var field := AcademicField(persona.value.rest);
        if field.Ok? {
          var topics := ReadEntries(field.value.rest);
          if topics.Ok? {
            var goals := ReadEntries(topics.value.rest);
            if goals.Ok? {
              var traits := PainPointsFrom(goals.value.rest);
              if traits.Ok? {
                PainPointsRules(goals.value.rest[0]);
                assert r == Ok(NewProfile(userId, name.value.value, persona.value.value, field.value.value,
                                          topics.value.value, goals.value.value, traits.value.value));
              }
            }
          }
        }
      }
    }
  }

  /** `OnboardingAgent`: the questionnaire, saving into the profile store. */
  class OnboardingAgent {
    const store: UserProfileStore

    constructor(store: UserProfileStore)
      ensures this.store == store
    {
      this.store := store;
    }

    /** `run_onboarding`: asks the questions in order, then saves and returns the new profile; when
        the input runs out, nothing is saved. */
    method RunOnboarding(userId: string, lines: seq<string>) returns (r: Result<UserProfile, string>)
      modifies store
      ensures var q := Questionnaire(userId, Stripped(lines));
              && (q.Err? ==> r == Err(q.error) && store.files == old(store.files))
              && (q.Ok? ==> r.Ok? && fresh(r.value) && r.value.Record() == q.value
                            && store.files == SaveTo(old(store.files), store.root, q.value))
    {
      var answers := Stripped(lines);
      var name := CollectName(answers);
      if name.Err? {
        return Err(name.error);
      }
      var persona := SelectPersona(name.value.rest);
      if persona.Err? {
        return Err(persona.error);
      }
      var field := AcademicField(persona.value.rest);
      if field.Err? {
        return Err(field.error);
      }
      var topics := CollectEntries(field.value.rest);
      if topics.Err? {
        return Err(topics.error);
      }
      var goals := CollectEntries(topics.value.rest);
      if goals.Err? {
        return Err(goals.error);
      }
      var traits := CollectPainPoints(goals.value.rest);
      if traits.Err? {
        return Err(traits.error);
      }
      var profile := new UserProfile(NewProfile(userId, name.value.value, persona.value.value, field.value.value,
                                                topics.value.value, goals.value.value, traits.value.value));
      store.Save(profile);
      r := Ok(profile);
    }
  }
}
