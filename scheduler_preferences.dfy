/** The study preferences of the scheduler agent: the dictionary the language model's reply must
    decode to (`_parse_preferences`), the heuristic reading of the user's note used when there is no
    model or its reply fails (`_heuristic_preferences`), and the choice between them
    (`_collect_preferences`). The model is a fallible function from prompt to reply, and
    `json.loads` a function from reply to decoded value, `None` when the reply is not JSON. */
module SchedulerPreferences {
  import opened Wrappers
  import opened Strings
  import opened JsonValues
  import opened SchedulerClock
  import opened SchedulerSubjects

  /** What `_prioritize_weak_topics` adds to the preferences: `weak_points_prioritized` (true exactly
      when this is present) and the severe and moderate topic lists. */
  datatype Prioritisation = Prioritisation(severeTopics: seq<string>, moderateTopics: seq<string>)

  /** The preferences dictionary. `startTime` and `endTime` are whatever the reply held (the plan
      checks them); `extra` holds every key of the reply besides the four the scheduler names. */
  datatype Preferences = Preferences(
    startTime: Json,
    endTime: Json,
    subjects: seq<string>,
    notes: Option<Json>,
    prioritisation: Option<Prioritisation>,
    extra: map<string, Json>)

  const RequiredKeys: set<string> := {"start_time", "end_time", "subjects"}

  /** The keys a `Preferences` value holds in its own fields rather than in `extra`. */
  const NamedKeys: set<string> := RequiredKeys + {"notes"}

  /** A list of strings as a decoded value. */
  function StringList(ss: seq<string>): (j: Json)
    ensures j.JArray? && |j.items| == |ss|
    ensures forall i :: 0 <= i < |ss| ==> j.items[i] == JString(ss[i])
  {
    JArray(seq(|ss|, i requires 0 <= i < |ss| => JString(ss[i])))
  }

  /** The preferences as the dictionary they stand for: the `extra` keys, overridden by the keys
      the record names. */
  function Fields(p: Preferences): map<string, Json> {
    p.extra + OwnFields(p)
  }

  /** The keys the record's own fields stand for. */
  function OwnFields(p: Preferences): map<string, Json> {
    var own := map["start_time" := p.startTime, "end_time" := p.endTime, "subjects" := StringList(p.subjects)];
    var withNotes := if p.notes.Some? then own["notes" := p.notes.value] else own;
    var withFlags :=
      if p.prioritisation.None? then withNotes
      else withNotes["weak_points_prioritized" := JBool(true)]
                    ["severe_topics" := StringList(p.prioritisation.value.severeTopics)]
                    ["moderate_topics" := StringList(p.prioritisation.value.moderateTopics)];
    withFlags
  }

  /** The Python type name in the TypeError of `key in parsed` for a value that is not a container. */
  function TypeName(v: Json): string {
    match v
    case JNull => "NoneType"
    case JBool(_) => "bool"
    case JNumber(_) => "int"
    case JString(_) => "str"
    case JArray(_) => "list"
    case JObject(_) => "dict"
  }

  /** A value `key in parsed` can test: a dictionary (its keys), a list (its items) or a string
      (its substrings). */
  predicate IsContainer(v: Json) {
    v.JObject? || v.JArray? || v.JString?
  }

  /** The required keys `key not in parsed` reports missing. */
  function MissingKeys(v: Json): set<string>
    requires IsContainer(v)
  {
    match v
    case JObject(fields) => set k | k in RequiredKeys && k !in fields
    case JArray(items) => set k | k in RequiredKeys && JString(k) !in items
    case JString(s) => set k | k in RequiredKeys && !Contains(s, k)
  }

  /** An acceptable subject: a string that is not blank, so that it strips to a non-empty one. */
  predicate IsSubject(v: Json) {
    v.JString? && !IsBlank(v.s)
  }

  /** The subjects of a list that passed the check, as strings. */
  function SubjectNames(items: seq<Json>): (ss: seq<string>)
    requires forall i :: 0 <= i < |items| ==> items[i].JString?
    ensures StringList(ss) == JArray(items)
  {
    var ss := seq(|items|, i requires 0 <= i < |items| => items[i].s);
    assert StringList(ss).items == items;
    ss
  }

  /** `_parse_preferences` on the decoded reply: the checks in the order the source makes them. */
  function ParsePreferences(decoded: Option<Json>): Result<Preferences, SchedulerError> {
    if decoded.None? then Err(ValueError("Scheduler LLM must return valid JSON."))
    else
      var v := decoded.value;
      if !IsContainer(v) then Err(TypeError("argument of type '" + TypeName(v) + "' is not iterable"))
      else if MissingKeys(v) != {} then Err(MissingFields(MissingKeys(v)))
      else if v.JArray? then Err(TypeError("list indices must be integers or slices, not str"))
      else if v.JString? then Err(TypeError("string indices must be integers, not 'str'"))
      else
        NoneMissing(v.fields);
        ObjectPreferences(v.fields)
  }

  /** A dictionary missing none of the required keys holds each of them. */
  lemma NoneMissing(fields: map<string, Json>)
    requires MissingKeys(JObject(fields)) == {}
    ensures "start_time" in fields && "end_time" in fields && "subjects" in fields
  {
    assert forall k :: k in RequiredKeys && k !in fields ==> k in MissingKeys(JObject(fields));
    assert "start_time" in RequiredKeys && "end_time" in RequiredKeys && "subjects" in RequiredKeys;
  }

  /** The subjects check and the preferences of a dictionary holding the required keys. */
  function ObjectPreferences(fields: map<string, Json>): Result<Preferences, SchedulerError>
    requires "start_time" in fields && "end_time" in fields && "subjects" in fields
  {
    var subjects := fields["subjects"];
    if !subjects.JArray? || subjects.items == [] then
      Err(ValueError("Scheduler LLM must return a non-empty 'subjects' list."))
    else if exists i | 0 <= i < |subjects.items| :: !IsSubject(subjects.items[i]) then
      Err(ValueError("Each subject must be a non-empty string."))
    else
      Ok(Preferences(fields["start_time"], fields["end_time"], SubjectNames(subjects.items),
                     if "notes" in fields then Some(fields["notes"]) else None, None,
                     fields - NamedKeys))
  }

  /** A reply is accepted exactly when it decodes to a dictionary with the three required keys and
      a non-empty list of non-blank strings as its subjects. */
  lemma ParseAccepts(decoded: Option<Json>)
    ensures ParsePreferences(decoded).Ok? <==>
              && decoded.Some? && decoded.value.JObject? && RequiredKeys <= decoded.value.fields.Keys
              && var subjects := decoded.value.fields["subjects"];
                 subjects.JArray? && |subjects.items| > 0
                 && forall i :: 0 <= i < |subjects.items| ==> IsSubject(subjects.items[i])
  {
    if decoded.Some? && decoded.value.JObject? && RequiredKeys <= decoded.value.fields.Keys {
      assert MissingKeys(decoded.value) == {};
    }
    if decoded.Some? && decoded.value.JObject? && !(RequiredKeys <= decoded.value.fields.Keys) {
      var k :| k in RequiredKeys && k !in decoded.value.fields;
      assert k in MissingKeys(decoded.value);
    }
  }

  /** An accepted reply is kept as it is: the preferences stand for exactly the decoded dictionary,
      with non-empty subjects. */
  lemma ParseKeepsReply(decoded: Option<Json>)
    requires ParsePreferences(decoded).Ok?
    ensures Fields(ParsePreferences(decoded).value) == decoded.value.fields
    ensures |ParsePreferences(decoded).value.subjects| > 0
    ensures ParsePreferences(decoded).value.prioritisation.None?
  {
    var fields := decoded.value.fields;
    var p := ParsePreferences(decoded).value;
    assert MissingKeys(decoded.value) == {};
    assert "start_time" in fields && "end_time" in fields && "subjects" in fields by {
      assert "start_time" !in MissingKeys(decoded.value);
      assert "end_time" !in MissingKeys(decoded.value);
      assert "subjects" !in MissingKeys(decoded.value);
    }
    assert StringList(p.subjects) == fields["subjects"];
    assert Fields(p) == fields by {
      assert Fields(p).Keys == fields.Keys;
    }
  }

  /** The reply's failures, in the order they are checked. */
  lemma ParseRejects(decoded: Option<Json>)
    ensures decoded.None? ==> ParsePreferences(decoded) == Err(ValueError("Scheduler LLM must return valid JSON."))
    ensures decoded.Some? && !IsContainer(decoded.value) ==> ParsePreferences(decoded).error.TypeError?
    ensures decoded.Some? && decoded.value.JObject? ==>
              var missing := set k | k in RequiredKeys && k !in decoded.value.fields;
              missing != {} ==> ParsePreferences(decoded) == Err(MissingFields(missing))
    ensures decoded.Some? && decoded.value.JObject? && RequiredKeys <= decoded.value.fields.Keys
            && (!decoded.value.fields["subjects"].JArray? || decoded.value.fields["subjects"].items == [])
            ==> ParsePreferences(decoded) == Err(ValueError("Scheduler LLM must return a non-empty 'subjects' list."))
  {
    if decoded.Some? && decoded.value.JObject? && RequiredKeys <= decoded.value.fields.Keys {
      assert MissingKeys(decoded.value) == {};
    }
  }

  const DefaultStartTime := "09:00"
  const HeuristicNote := "Generated via heuristic parser (LLM unavailable)."
  const GeneralStudy := "General Study"

  /** A string value Python treats as true: present and not empty. */
  predicate Truthy(s: Option<string>) {
    s.Some? && s.value != ""
  }

  /** The heuristic subjects: those extracted from the note, the context topic appended when it is
      set and not among them, and "General Study" when that leaves none. */
  function HeuristicSubjects(extracted: seq<string>, topic: Option<string>): (ss: seq<string>)
    ensures |ss| > 0
    ensures Truthy(topic) ==> topic.value in ss
    ensures forall s :: s in ss ==> s in extracted || (Truthy(topic) && s == topic.value) || ss == [GeneralStudy]
    ensures extracted != [] ==> |extracted| <= |ss| && ss[..|extracted|] == extracted
    ensures extracted == [] && !Truthy(topic) ==> ss == [GeneralStudy]
  {
    var withTopic := if Truthy(topic) && topic.value !in extracted then extracted + [topic.value] else extracted;
    if withTopic == [] then [GeneralStudy] else withTopic
  }

  /** The start the heuristic settles on: the one found in the note, or 09:00. */
  function HeuristicStart(range: (Option<string>, Option<string>)): string {
    if Truthy(range.0) then range.0.value else DefaultStartTime
  }

  /** The start and end the heuristic settles on for the range found in the note: a missing end is
      the start plus an hour, and so is an end that does not read as later than the start. */
  function HeuristicWindow(range: (Option<string>, Option<string>)): (r: Result<(string, string), SchedulerError>)
    ensures r.Err? ==> r.error.ValueError?
  {
    var start := HeuristicStart(range);
    var end0 :- if Truthy(range.1) then Ok(range.1.value) else AddMinutes(start, 60);
    var endMinutes :- TimeToMinutes(end0);
    var startMinutes :- TimeToMinutes(start);
    var end :- if endMinutes <= startMinutes then AddMinutes(start, 60) else Ok(end0);
    Ok((start, end))
  }

  /** The window the heuristic settles on starts at the heuristic start and ends either at a time
      that reads as later than it or at the start plus an hour. */
  lemma HeuristicWindowOrdered(range: (Option<string>, Option<string>))
    ensures var w := HeuristicWindow(range);
            w.Ok? ==>
              && w.value.0 == HeuristicStart(range)
              && (|| (TimeToMinutes(w.value.1).Ok? && TimeToMinutes(w.value.0).Ok?
                      && TimeToMinutes(w.value.1).value > TimeToMinutes(w.value.0).value)
                  || AddMinutes(w.value.0, 60) == Ok(w.value.1))
  {
    var start := HeuristicStart(range);
    var end0 := if Truthy(range.1) then Ok(range.1.value) else AddMinutes(start, 60);
    var w := HeuristicWindow(range);
    if w.Ok? {
      assert end0.Ok?;
      var em, sm := TimeToMinutes(end0.value), TimeToMinutes(start);
      assert em.Ok? && sm.Ok?;
      if em.value <= sm.value {
        assert AddMinutes(start, 60) == Ok(w.value.1);
      } else {
        assert w.value.1 == end0.value;
      }
    }
  }

  /** `_heuristic_preferences`: the time range and subjects read from the note, with the defaults
      for what is missing. `markers` gives the text each subject marker expression captures, in the
      order of the expressions. */
  function HeuristicPreferences(userInput: string, topic: Option<string>, scan: string -> TimeMatches,
                                markers: string -> seq<string>): (r: Result<Preferences, SchedulerError>)
    ensures r.Err? ==> r.error.ValueError?
  {
    var range :- ExtractTimeRange(userInput, scan);
    var subjects := HeuristicSubjects(Subjects(markers(userInput)), topic);
    var window :- HeuristicWindow(range);
    Ok(Preferences(JString(window.0), JString(window.1), subjects, Some(JString(HeuristicNote)), None, map[]))
  }

  /** What the heuristic settles on when it succeeds: the start found or 09:00, an end that reads
      as later than the start or else is the start plus an hour, the heuristic subjects, and its
      note. */
  lemma HeuristicOutcome(userInput: string, topic: Option<string>, scan: string -> TimeMatches,
                         markers: string -> seq<string>)
    ensures var r := HeuristicPreferences(userInput, topic, scan, markers);
            r.Ok? ==>
              && ExtractTimeRange(userInput, scan).Ok?
              && var start := HeuristicStart(ExtractTimeRange(userInput, scan).value);
              && r.value.startTime == JString(start)
              && r.value.endTime.JString?
              && (|| (TimeToMinutes(r.value.endTime.s).Ok? && TimeToMinutes(start).Ok?
                      && TimeToMinutes(r.value.endTime.s).value > TimeToMinutes(start).value)
                  || AddMinutes(start, 60) == Ok(r.value.endTime.s))
              && r.value.subjects == HeuristicSubjects(Subjects(markers(userInput)), topic)
              && r.value.notes == Some(JString(HeuristicNote))
              && r.value.prioritisation.None? && r.value.extra == map[]
  {
    var range := ExtractTimeRange(userInput, scan);
    if range.Ok? {
      HeuristicWindowOrdered(range.value);
    }
  }

  /** `preferences.setdefault("notes", "")` */
  function WithNotes(p: Preferences): (q: Preferences)
    ensures q.notes.Some?
    ensures p.notes.Some? ==> q == p
    ensures p.notes.None? ==> Fields(q) == Fields(p)["notes" := JString("")]
  {
    if p.notes.Some? then p else p.(notes := Some(JString("")))
  }

  /** The fixed instructions that open the prompt. */
  const SchedulerInstructions: string :=
      "You are Study Pal's scheduling assistant.\n"
    + "Extract the user's study availability and subjects from the note below and respond ONLY with JSON.\n"
    + "Required keys: start_time (HH:MM 24-hour), end_time (HH:MM 24-hour), subjects (array of strings).\n"
    + "Optional key: notes (string) for assumptions or clarifications.\n"

  /** The prompt sent to the language model: the instructions, then the user's note. */
  function SchedulerPrompt(userInput: string): string {
    SchedulerInstructions + "USER_NOTE: " + userInput + "\n"
  }

  /** A language model: the reply to a prompt, or the failure of the call. */
  type Llm = string -> Result<string, string>

  /** The preferences the model's reply gives, when there is a model, its call succeeds and the
      reply is accepted. */
  function ModelPreferences(userInput: string, llm: Option<Llm>, decode: string -> Option<Json>): Option<Preferences> {
    if llm.None? then None
    else
      var reply := llm.value(SchedulerPrompt(userInput));
      if reply.Err? then None
      else
        var parsed := ParsePreferences(decode(reply.value));
        if parsed.Ok? then Some(parsed.value) else None
  }

  /** `_collect_preferences`: the model's preferences when it gives them, the heuristic ones
      otherwise, and a "notes" key either way. */
  function CollectPreferences(userInput: string, llm: Option<Llm>, decode: string -> Option<Json>,
                              topic: Option<string>, scan: string -> TimeMatches,
                              markers: string -> seq<string>): Result<Preferences, SchedulerError>
  {
    var fromModel := ModelPreferences(userInput, llm, decode);
    var p :- if fromModel.Some? then Ok(fromModel.value) else HeuristicPreferences(userInput, topic, scan, markers);
    Ok(WithNotes(p))
  }

  /** The model's preferences are there exactly when there is a model, its call succeeds and the
      reply is accepted, and they are then the accepted reply. */
  lemma ModelPreferencesCases(userInput: string, llm: Option<Llm>, decode: string -> Option<Json>)
    ensures var m := ModelPreferences(userInput, llm, decode);
            m.Some? <==> (&& llm.Some? && llm.value(SchedulerPrompt(userInput)).Ok?
                          && ParsePreferences(decode(llm.value(SchedulerPrompt(userInput)).value)).Ok?)
    ensures var m := ModelPreferences(userInput, llm, decode);
            m.Some? ==> m.value == ParsePreferences(decode(llm.value(SchedulerPrompt(userInput)).value)).value
                        && Fields(m.value) == decode(llm.value(SchedulerPrompt(userInput)).value).value.fields
                        && |m.value.subjects| > 0
  {
    if ModelPreferences(userInput, llm, decode).Some? {
      ParseKeepsReply(decode(llm.value(SchedulerPrompt(userInput)).value));
    }
  }

  /** Without model preferences, the heuristic decides, with a "notes" key added. */
  lemma CollectFallsBack(userInput: string, llm: Option<Llm>, decode: string -> Option<Json>,
                         topic: Option<string>, scan: string -> TimeMatches, markers: string -> seq<string>)
    requires ModelPreferences(userInput, llm, decode).None?
    ensures var h := HeuristicPreferences(userInput, topic, scan, markers);
            CollectPreferences(userInput, llm, decode, topic, scan, markers)
              == if h.Ok? then Ok(WithNotes(h.value)) else Err(h.error)
  {
  }

  /** With model preferences, the accepted reply decides, with a "notes" key added; the heuristic
      is not consulted. */
  lemma CollectFromModel(userInput: string, llm: Option<Llm>, decode: string -> Option<Json>,
                         topic: Option<string>, scan: string -> TimeMatches, markers: string -> seq<string>)
    requires ModelPreferences(userInput, llm, decode).Some?
    ensures var reply := decode(llm.value(SchedulerPrompt(userInput)).value);
            CollectPreferences(userInput, llm, decode, topic, scan, markers)
              == Ok(WithNotes(ParsePreferences(reply).value))
  {
    ModelPreferencesCases(userInput, llm, decode);
  }

  /** Only the heuristic can make collecting fail. */
  lemma CollectErrors(userInput: string, llm: Option<Llm>, decode: string -> Option<Json>,
                      topic: Option<string>, scan: string -> TimeMatches, markers: string -> seq<string>)
    ensures var r := CollectPreferences(userInput, llm, decode, topic, scan, markers);
            r.Err? ==> ModelPreferences(userInput, llm, decode).None?
                       && r.error == HeuristicPreferences(userInput, topic, scan, markers).error
  {
  }

  /** Whichever source decides, the collected preferences carry notes and at least one subject;
      and when they cannot be collected, the error is a ValueError (only the heuristic can fail,
      and only on a time it cannot read). */
  lemma CollectOutcome(userInput: string, llm: Option<Llm>, decode: string -> Option<Json>,
                       topic: Option<string>, scan: string -> TimeMatches, markers: string -> seq<string>)
    ensures var r := CollectPreferences(userInput, llm, decode, topic, scan, markers);
            && (r.Ok? ==> r.value.notes.Some? && |r.value.subjects| > 0)
            && (r.Err? ==> r.error.ValueError?)
  {
    CollectErrors(userInput, llm, decode, topic, scan, markers);
    ModelPreferencesCases(userInput, llm, decode);
    var h := HeuristicPreferences(userInput, topic, scan, markers);
    if ModelPreferences(userInput, llm, decode).None? && h.Ok? {
      HeuristicOutcome(userInput, topic, scan, markers);
    }
  }
}
