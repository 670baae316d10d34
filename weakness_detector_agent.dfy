/** The weakness detector agent: a transcript and a prompt built from the conversation, a language
    model asked for an analysis, and its decoded reply turned into recommendations. The model call
    (`complete`) and `json.loads` (`decode`) are parameters; `now` stands for `utcnow()`. */
module WeaknessDetectorAgent {
  import opened Wrappers
  import opened Strings
  import opened DateTimes
  import opened Messages
  import opened WeaknessAnalyzer

  /** One transcript line: the student speaks in human messages, the tutor in every other kind. */
  function TranscriptLine(m: Message): (line: string)
    ensures m.HumanMessage? ==> line == "Student: " + m.content
    ensures !m.HumanMessage? ==> line == "Tutor: " + m.content
  {
    (if m.HumanMessage? then "Student: " else "Tutor: ") + m.content
  }

  function TranscriptLines(ms: seq<Message>): (lines: seq<string>)
    ensures |lines| == |ms|
    ensures forall i :: 0 <= i < |ms| ==> lines[i] == TranscriptLine(ms[i])
  {
    seq(|ms|, i requires 0 <= i < |ms| => TranscriptLine(ms[i]))
  }

  /** The transcript: one line per message, in order, separated by newlines. */
  function Transcript(ms: seq<Message>): string {
    Join(TranscriptLines(ms), "\n")
  }

  /** `_build_transcript`, with its loop over the messages. */
  method BuildTranscript(ms: seq<Message>) returns (t: string)
    ensures t == Transcript(ms)
  {
    var lines: seq<string> := [];
    var i := 0;
    while i < |ms|
      invariant 0 <= i <= |ms|
      invariant lines == TranscriptLines(ms[..i])
    {
      lines := lines + [TranscriptLine(ms[i])];
      i := i + 1;
    }
    assert ms[..i] == ms;
    t := Join(lines, "\n");
  }

  /** When no message contains a newline, the transcript's lines are exactly the messages' lines. */
  lemma TranscriptLinesRecoverable(ms: seq<Message>)
    requires |ms| > 0
    requires forall i :: 0 <= i < |ms| ==> '\n' !in ms[i].content
    ensures Split(Transcript(ms), '\n') == TranscriptLines(ms)
  {
    var lines := TranscriptLines(ms);
    forall k | 0 <= k < |lines| ensures '\n' !in lines[k] {
      var prefix := if ms[k].HumanMessage? then "Student: " else "Tutor: ";
      assert lines[k] == prefix + ms[k].content;
    }
    JoinSplit(lines, '\n');
  }

  const Instruction := "\nAnalyze this tutoring session and identify topics where the student struggled."

  /** The "Session Topic" line, as one of the prompt's parts. */
  function TopicLine(topic: string): string {
    "Session Topic: " + topic + "\n"
  }

  /** The "Session Topic" header, present only for a non-empty topic, and the empty line after it. */
  function TopicHeader(topic: Option<string>): string {
    if topic.Some? && topic.value != "" then TopicLine(topic.value) + "\n" else ""
  }

  const TranscriptTitle := "Conversation Transcript:"

  /** The parts `_build_analysis_prompt` joins. */
  function PromptParts(transcript: string, topic: Option<string>): seq<string> {
    (if topic.Some? && topic.value != "" then [TopicLine(topic.value)] else [])
    + [TranscriptTitle, transcript, Instruction]
  }

  /** `_build_analysis_prompt`: the parts joined by newlines. */
  function AnalysisPrompt(transcript: string, topic: Option<string>): string {
    Join(PromptParts(transcript, topic), "\n")
  }

  /** Three parts joined: each separator between two neighbours. */
  lemma JoinThree(a: string, b: string, c: string, sep: string)
    ensures Join([a, b, c], sep) == a + sep + (b + sep + c)
  {
    assert [a, b, c][1..] == [b, c];
    assert [b, c][1..] == [c];
    assert Join([c], sep) == c;
    assert Join([b, c], sep) == b + sep + c;
  }

  /** The prompt is the topic header, the transcript title on its own line, the transcript, and the
      instruction after a newline. */
  lemma AnalysisPromptText(transcript: string, topic: Option<string>)
    ensures AnalysisPrompt(transcript, topic)
            == TopicHeader(topic) + (TranscriptTitle + "\n" + (transcript + "\n" + Instruction))
  {
    var tail := [TranscriptTitle, transcript, Instruction];
    JoinThree(TranscriptTitle, transcript, Instruction, "\n");
    var parts := PromptParts(transcript, topic);
    if topic.Some? && topic.value != "" {
      assert parts == [TopicLine(topic.value)] + tail;
      assert parts[1..] == tail;
    } else {
      assert parts == tail;
    }
  }

  /** The transcript sits unchanged between the "Conversation Transcript:" line and the
      instruction, so it can be read back from the prompt. */
  lemma TranscriptInPrompt(transcript: string, topic: Option<string>)
    ensures |AnalysisPrompt(transcript, topic)|
            == |TopicHeader(topic)| + |TranscriptTitle| + |transcript| + |Instruction| + 2
    ensures var p := AnalysisPrompt(transcript, topic);
            p[|TopicHeader(topic)| + |TranscriptTitle| + 1..|p| - |Instruction| - 1] == transcript
  {
    AnalysisPromptText(transcript, topic);
    CutMiddle(TopicHeader(topic), TranscriptTitle, transcript, Instruction, "\n");
  }

  /** The text framed by a header, a title and a trailer, each separated by `nl`, is found between
      them. */
  lemma CutMiddle(h: string, t: string, x: string, i: string, nl: string)
    ensures var p := h + (t + nl + (x + nl + i));
            && |p| == |h| + |t| + |nl| + |x| + |nl| + |i|
            && p[|h| + |t| + |nl|..|p| - |i| - |nl|] == x
  {
    var p := h + (t + nl + (x + nl + i));
    assert p == (h + t + nl) + x + (nl + i);
  }

  /** `_convert_to_recommendations`: like `from_dict`, but the summary defaults to "No summary available"
      and the timestamp is always the current time. */
  function ConvertToRecommendations(result: RecommendationsDict, now: DateTime): (r: SessionRecommendations)
    ensures r.weakPoints == WeakPointsOf(result.weakPoints.GetOr([]))
    ensures r.priorityTopics == result.priorityTopics.GetOr([])
    ensures r.suggestedFocusTime == result.suggestedFocusTime.GetOr(map[])
    ensures r.studyApproachTips == result.studyApproachTips.GetOr([])
    ensures r.sessionSummary == result.sessionSummary.GetOr("No summary available")
    ensures r.timestamp == now
  {
    SessionRecommendations(WeakPointsOf(result.weakPoints.GetOr([])), result.priorityTopics.GetOr([]),
                           result.suggestedFocusTime.GetOr(map[]), result.studyApproachTips.GetOr([]),
                           result.sessionSummary.GetOr("No summary available"), now)
  }

  /** Converting a serialised recommendation gives it back, stamped with the current time. */
  lemma ConvertToDict(r: SessionRecommendations, now: DateTime)
    ensures ConvertToRecommendations(ToDict(r), now) == r.(timestamp := now)
  {
    var wps := WeakPointsOf(ToDict(r).weakPoints.value);
    forall i | 0 <= i < |r.weakPoints| ensures wps[i] == r.weakPoints[i] {
      assert ToDict(r).weakPoints.value[i] == WeakPointToDict(r.weakPoints[i]);
    }
  }

  /** With a summary present and no timestamp, conversion and `from_dict` agree. */
  lemma ConvertAgreesWithFromDict(result: RecommendationsDict, now: DateTime)
    requires result.sessionSummary.Some?
    ensures Recommendations(result.(timestamp := None), now) == Ok(ConvertToRecommendations(result, now))
  {
  }

  /** The recommendations returned when the analysis fails for any reason. */
  function FailedAnalysis(now: DateTime): (r: SessionRecommendations)
    ensures r.weakPoints == [] && r.priorityTopics == [] && r.suggestedFocusTime == map[]
    ensures r.studyApproachTips == ["Analysis failed. Please try again."]
    ensures r.sessionSummary == "Analysis failed"
  {
    SessionRecommendations([], [], map[], ["Analysis failed. Please try again."], "Analysis failed", now)
  }

  /** `analyze_conversation`: a reply that fails, is empty or does not decode yields `FailedAnalysis`. */
  method AnalyzeConversation(ms: seq<Message>, topic: Option<string>, complete: string -> Result<string, string>,
                             decode: string -> Option<RecommendationsDict>, now: DateTime)
    returns (r: SessionRecommendations)
    ensures var reply := complete(AnalysisPrompt(Transcript(ms), topic));
            if reply.Ok? && reply.value != "" && decode(reply.value).Some?
            then r == ConvertToRecommendations(decode(reply.value).value, now)
            else r == FailedAnalysis(now)
  {
    var transcript := BuildTranscript(ms);
    var prompt := AnalysisPrompt(transcript, topic);
    var reply := complete(prompt);
    if reply.Err? || reply.value == "" {
      return FailedAnalysis(now);
    }
    var result := decode(reply.value);
    if result.None? {
      return FailedAnalysis(now);
    }
    r := ConvertToRecommendations(result.value, now);
  }
}
