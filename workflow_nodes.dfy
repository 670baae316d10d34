/** The nodes of the study workflow: the intent router, which reads the last message and names
    the next node, and the four handlers (tutor, scheduler, analyzer, motivator), each of which
    answers with one AI message and ends the turn. A node returns a patch and never changes the
    state it is given. The retriever, the chat model, the detector and the motivator are
    parameters; a node call that raises is an `Err` carrying the exception's text. */
module WorkflowNodes {
  import opened Wrappers
  import opened Strings
  import opened JsonValues
  import opened DateTimes
  import opened Messages
  import opened WeaknessAnalyzer
  import opened WeaknessDetectorAgent
  import opened SchedulerClock
  import opened SchedulerPreferences
  import opened SchedulerPlan
  import opened Scheduler
  import opened TimePattern
  import opened WorkflowState

  function Last(ms: seq<Message>): Message
    requires ms != []
  {
    ms[|ms| - 1]
  }

  /** The text of the `IndexError` that `state["messages"][-1]` raises on no messages. */
  const IndexErrorText: string := "list index out of range"

  const EndNode: string := "end"

  /** A handler's patch: the reply as the one new message, and the turn handed to the end. */
  function Reply(text: string): (p: Patch)
    ensures PatchKeys(p) == {"messages", "next_agent"}
  {
    Patch([AIMessage(text)], None, Some(EndNode), None, None)
  }

  /** What every handler promises of its patch. */
  predicate RepliesOnce(p: Patch) {
    |p.messages| == 1 && p.messages[0].AIMessage? && p.nextAgent == Some(EndNode) && p.currentIntent.None?
  }

  // ---------------------------------------------------------------------------------------------
  // Intent router

  const ScheduleWords: seq<string> := ["schedule", "plan", "calendar", "studying"]
  const AnalyzeWords: seq<string> := ["analyze", "session", "weak points", "finish", "review"]
  const MotivateWords: seq<string> := ["motivate", "encourage", "inspiration"]

  predicate WantsSchedule(text: string) {
    ContainsAny(text, ScheduleWords) || HasTimePattern(text)
  }

  /** The intent of a lower-cased message: scheduling wins over analysis, analysis over
      motivation, and tutoring is the default. */
  function IntentOf(text: string): (intent: string)
    ensures intent == "schedule" <==> WantsSchedule(text)
    ensures intent == "analyze" <==> !WantsSchedule(text) && ContainsAny(text, AnalyzeWords)
    ensures intent == "motivate" <==>
              !WantsSchedule(text) && !ContainsAny(text, AnalyzeWords) && ContainsAny(text, MotivateWords)
    ensures intent == "tutor" <==>
              !WantsSchedule(text) && !ContainsAny(text, AnalyzeWords) && !ContainsAny(text, MotivateWords)
  {
    if ContainsAny(text, ScheduleWords) || SearchTime(text) then "schedule"
    else if ContainsAny(text, AnalyzeWords) then "analyze"
    else if ContainsAny(text, MotivateWords) then "motivate"
    else "tutor"
  }

  /** The node paired with each intent label. */
  function NodeFor(intent: string): string {
    match intent
    case "schedule" => "scheduler"
    case "analyze" => "analyzer"
    case "motivate" => "motivator"
    case _ => "tutor"
  }

  /** `intent_router_node`: with no messages, tutoring; otherwise the intent of the last message,
      lower-cased, and the node paired with it. The patch holds nothing else. */
  function RouterNode(s: State): (p: Patch)
    ensures PatchKeys(p) == {"current_intent", "next_agent"}
    ensures s.messages == [] ==> p.currentIntent == Some("tutor") && p.nextAgent == Some("tutor")
    ensures s.messages != [] ==> p.currentIntent == Some(IntentOf(Lower(Last(s.messages).content)))
    ensures p.currentIntent.Some? && p.nextAgent == Some(NodeFor(p.currentIntent.value))
    ensures p.nextAgent.value in {"tutor", "scheduler", "analyzer", "motivator"}
  {
    var intent := if s.messages == [] then "tutor" else IntentOf(Lower(Last(s.messages).content));
    Patch([], Some(intent), Some(NodeFor(intent)), None, None)
  }

  /** Only the last message matters to the router; the earlier ones and every other key of the
      state do not. */
  lemma RouterReadsLastMessageOnly(s: State, t: State)
    requires s.messages != [] && t.messages != []
    requires Last(s.messages).content == Last(t.messages).content
    ensures RouterNode(s) == RouterNode(t)
  {
  }

  /** Routing ignores case: a message and its lower-cased form are routed alike. */
  lemma RouterIgnoresCase(s: State, t: State)
    requires s.messages != [] && t.messages != []
    requires Last(t.messages).content == Lower(Last(s.messages).content)
    ensures RouterNode(s) == RouterNode(t)
  {
    LowerIdempotent(Last(s.messages).content);
  }

  // ---------------------------------------------------------------------------------------------
  // Tutor

  /** `tutor.get_context(question, k)`: the retrieved chunks, or what it raised. */
  type Retriever = (string, nat) -> Result<seq<string>, string>

  /** `llm.invoke(messages).content`, or what it raised. */
  type ChatModel = seq<Message> -> Result<string, string>

  const ContextChunks: nat := 5

  const NoMaterialsReply: string :=
    "I don't have any study materials loaded yet. Please upload a PDF using /ingest command first."

  const TutorInstructions: string :=
    "You are a helpful AI tutor assisting a student with their study materials.\n\nYour task:\n"
    + "1. Read the context provided from the student's study materials\n"
    + "2. Read the recent conversation history to understand what the student is asking about\n"
    + "3. Answer their question based on the context and conversation history\n"
    + "4. If the student is answering a quiz question, grade their answer and provide feedback\n"
    + "5. If the context text has formatting issues (like spaces between letters), interpret it as best you can\n"
    + "6. If you can answer from the context, give a clear, helpful answer\n"
    + "7. If the context doesn't help answer the question, say so and summarize what the materials do contain\n\n"
    + "Be conversational, helpful, and remember what you discussed earlier!"

  const HistoryHeader: string := "\n\nRecent conversation:\n"

  /** The chunks the tutor works from: a retrieval that raises counts as none. */
  function RetrievedContext(retrieve: Retriever, question: string): (chunks: seq<string>)
    ensures retrieve(question, ContextChunks).Err? ==> chunks == []
    ensures retrieve(question, ContextChunks).Ok? ==> chunks == retrieve(question, ContextChunks).value
  {
    match retrieve(question, ContextChunks)
    case Ok(cs) => cs
    case Err(_) => []
  }

  function ChunkBlock(i: nat, chunk: string): string {
    "[Chunk " + NatToString(i + 1) + "]\n" + chunk
  }

  /** The chunks numbered from 1, separated by blank lines. */
  function ContextText(chunks: seq<string>): string {
    Join(seq(|chunks|, i requires 0 <= i < |chunks| => ChunkBlock(i, chunks[i])), "\n\n")
  }

  /** `messages[-7:-1]` when there is more than one message: the up to six messages before the
      current one. */
  function RecentMessages(ms: seq<Message>): (r: seq<Message>)
    ensures |ms| <= 1 ==> r == []
    ensures |ms| > 1 ==> |r| == SliceCount(|ms| - 1, 6) && r == ms[|ms| - 1 - |r|..|ms| - 1]
  {
    if |ms| > 1 then ms[(if |ms| >= 7 then |ms| - 7 else 0)..|ms| - 1] else []
  }

  /** One "Student: …" or "Tutor: …" line per message, each ending in a newline. */
  function HistoryBody(ms: seq<Message>): string
    decreases |ms|
  {
    if ms == [] then "" else HistoryBody(ms[..|ms| - 1]) + TranscriptLine(ms[|ms| - 1]) + "\n"
  }

  /** The conversation history of the prompt: nothing without recent messages. */
  function History(recent: seq<Message>): string {
    if recent == [] then "" else HistoryHeader + HistoryBody(recent)
  }

  /** The history loop of `tutor_agent_node`. */
  method BuildHistory(recent: seq<Message>) returns (h: string)
    ensures h == History(recent)
  {
    h := "";
    if recent != [] {
      h := HistoryHeader;
      for i := 0 to |recent|
        invariant h == HistoryHeader + HistoryBody(recent[..i])
      {
        assert recent[..i + 1][..i] == recent[..i];
        h := h + TranscriptLine(recent[i]) + "\n";
      }
      assert recent[..|recent|] == recent;
    }
  }

  lemma {:induction false} JoinSnoc(parts: seq<string>, x: string, sep: string)
    requires parts != []
    ensures Join(parts + [x], sep) == Join(parts, sep) + sep + x
    decreases |parts|
  {
    if |parts| > 1 {
      JoinSnoc(parts[1..], x, sep);
      assert (parts + [x])[1..] == parts[1..] + [x];
    }
  }

  /** The tutor's history lines are the weakness detector's transcript lines, each followed by a
      newline. */
  lemma {:induction false} HistoryIsTranscript(ms: seq<Message>)
    requires ms != []
    ensures HistoryBody(ms) == Transcript(ms) + "\n"
    decreases |ms|
  {
    var init := ms[..|ms| - 1];
    assert HistoryBody(ms) == HistoryBody(init) + TranscriptLine(ms[|ms| - 1]) + "\n";
    if init == [] {
      assert HistoryBody(init) == "";
      assert TranscriptLines(ms) == [TranscriptLine(ms[0])];
    } else {
      HistoryIsTranscript(init);
      assert TranscriptLines(ms) == TranscriptLines(init) + [TranscriptLine(ms[|ms| - 1])];
      JoinSnoc(TranscriptLines(init), TranscriptLine(ms[|ms| - 1]), "\n");
    }
  }

  const ContextLabel: string := "Context from study materials:\n"
  const QuestionLabel: string := "\n\nStudent's current message: "
  const ResponseRequest: string := "\n\nPlease respond based on the context and conversation history above."

  /** The user prompt: the context, the history, the current message and the instruction. */
  function TutorPrompt(context: string, history: string, question: string): string {
    ContextLabel + context + "\n" + history + QuestionLabel + question + ResponseRequest
  }

  /** The two messages the chat model receives. */
  function TutorMessages(chunks: seq<string>, ms: seq<Message>): (m: seq<Message>)
    requires ms != []
    ensures |m| == 2 && m[0] == HumanMessage(TutorInstructions)
    ensures m[1] == HumanMessage(TutorPrompt(ContextText(chunks), History(RecentMessages(ms)), Last(ms).content))
  {
    [HumanMessage(TutorInstructions),
     HumanMessage(TutorPrompt(ContextText(chunks), History(RecentMessages(ms)), Last(ms).content))]
  }

  /** `tutor_agent_node`: an answer grounded in the retrieved chunks, the fixed reply when there
      are none, and the exception when there is no message or the chat model raises. */
  function TutorNode(s: State, retrieve: Retriever, generate: ChatModel): (r: Result<Patch, string>)
    ensures s.messages == [] ==> r == Err(IndexErrorText)
    ensures r.Ok? ==> RepliesOnce(r.value) && PatchKeys(r.value) == {"messages", "next_agent"}
  {
    if s.messages == [] then Err(IndexErrorText)
    else
      var chunks := RetrievedContext(retrieve, Last(s.messages).content);
      if chunks == [] then Ok(Reply(NoMaterialsReply))
      else
        match generate(TutorMessages(chunks, s.messages))
        case Ok(answer) => Ok(Reply(answer))
        case Err(e) => Err(e)
  }

  /** Without chunks, retrieval failed or found nothing alike, the tutor gives the fixed reply
      and does not consult the chat model: any two models give the same result. */
  lemma TutorWithoutMaterials(s: State, retrieve: Retriever, g1: ChatModel, g2: ChatModel)
    requires s.messages != [] && RetrievedContext(retrieve, Last(s.messages).content) == []
    ensures TutorNode(s, retrieve, g1) == TutorNode(s, retrieve, g2) == Ok(Reply(NoMaterialsReply))
  {
  }

  /** With chunks, the reply is the chat model's answer to the instructions and the prompt built
      from the chunks, the messages before the current one and the current one. */
  lemma TutorAsksModel(s: State, retrieve: Retriever, generate: ChatModel)
    requires s.messages != []
    requires RetrievedContext(retrieve, Last(s.messages).content) != []
    ensures var chunks := RetrievedContext(retrieve, Last(s.messages).content);
            var answer := generate(TutorMessages(chunks, s.messages));
            TutorNode(s, retrieve, generate) == if answer.Ok? then Ok(Reply(answer.value)) else Err(answer.error)
  {
  }

  // ---------------------------------------------------------------------------------------------
  // Scheduler

  const SubjectWords: seq<string> := ["study", "focus", "subject", "topic"]
  const DefaultSubjectSuffix: string := " studying General Topics"

  /** The availability text handed to the scheduler: a default subject is added when the message
      names none. */
  function SchedulerRequest(input: string): (r: string)
    ensures ContainsAny(Lower(input), SubjectWords) ==> r == input
    ensures !ContainsAny(Lower(input), SubjectWords) ==> r == input + DefaultSubjectSuffix
  {
    if ContainsAny(Lower(input), SubjectWords) then input else input + DefaultSubjectSuffix
  }

  /** The request always names a subject word, so it is never sent twice through the default. */
  lemma SchedulerRequestNamesSubject(input: string)
    ensures ContainsAny(Lower(SchedulerRequest(input)), SubjectWords)
    ensures SchedulerRequest(SchedulerRequest(input)) == SchedulerRequest(input)
  {
    if !ContainsAny(Lower(input), SubjectWords) {
      var r := input + DefaultSubjectSuffix;
      var i := |input| + 1;
      assert r[i..i + 5] == DefaultSubjectSuffix[1..6];
      assert DefaultSubjectSuffix[1..6] == "study" by {
        assert DefaultSubjectSuffix[1] == 's' && DefaultSubjectSuffix[2] == 't' && DefaultSubjectSuffix[3] == 'u';
        assert DefaultSubjectSuffix[4] == 'd' && DefaultSubjectSuffix[5] == 'y';
      }
      var lr := Lower(r);
      assert lr[i..i + 5] == r[i..i + 5];
      assert OccursAt(lr, "study", i);
      assert Contains(lr, SubjectWords[0]);
    }
  }

  const ScheduleHeader: string := "\U{1F4DA} I've created your study schedule!\n\n"
  const SyncQuestion: string := "\nWould you like me to sync this to your calendar?"
  const ScheduleFailure: string := "Sorry, I had trouble creating a schedule: "
  const ListedSessions: nat := 5

  /** The line of the `idx`-th session in the reply; a break has none. */
  function ScheduleEntry(idx: nat, s: Session): string {
    if s.Study? then
      NatToString(idx) + ". \U{1F4D6} " + TimeText(s.start) + " - " + TimeText(s.end) + ": " + s.subject + "\n"
    else ""
  }

  /** The lines of the sessions shown, numbered from 1 by their place among them. */
  function ScheduleListing(shown: seq<Session>): string
    decreases |shown|
  {
    if shown == [] then "" else ScheduleListing(shown[..|shown| - 1]) + ScheduleEntry(|shown|, shown[|shown| - 1])
  }

  /** The reply: the number of study blocks in the whole plan, then the study blocks among the
      first five sessions. */
  function ScheduleReply(sessions: seq<Session>): string {
    ScheduleHeader + "Found " + NatToString(|StudySessions(sessions)|) + " study sessions:\n\n"
    + ScheduleListing(sessions[..SliceCount(|sessions|, ListedSessions)]) + SyncQuestion
  }

  /** Only study blocks are listed: the listing is empty exactly when no shown session is one. */
  lemma {:induction false} ScheduleListingStudyOnly(shown: seq<Session>)
    ensures ScheduleListing(shown) == "" <==> forall i :: 0 <= i < |shown| ==> !shown[i].Study?
    decreases |shown|
  {
    if shown != [] {
      var init := shown[..|shown| - 1];
      var last := shown[|shown| - 1];
      ScheduleListingStudyOnly(init);
      ScheduleEntryEmpty(|shown|, last);
      var before, entry := ScheduleListing(init), ScheduleEntry(|shown|, last);
      assert ScheduleListing(shown) == before + entry;
      assert before + entry == "" <==> before == "" && entry == "";
      assert forall i :: 0 <= i < |init| ==> init[i] == shown[i];
    }
  }

  /** A session has a line exactly when it is a study block. */
  lemma ScheduleEntryEmpty(idx: nat, s: Session)
    ensures ScheduleEntry(idx, s) == "" <==> !s.Study?
  {
    if s.Study? {
      var e := ScheduleEntry(idx, s);
      assert e[|e| - 1] == '\n';
    }
  }

  /** The listing of one more session ends with that session's line. */
  lemma ScheduleListingStep(shown: seq<Session>, idx: nat)
    requires 1 <= idx <= |shown|
    ensures ScheduleListing(shown[..idx]) == ScheduleListing(shown[..idx - 1]) + ScheduleEntry(idx, shown[idx - 1])
  {
    assert shown[..idx][..idx - 1] == shown[..idx - 1];
  }

  /** The reply loop of `scheduler_agent_node`. */
  method BuildScheduleReply(sessions: seq<Session>) returns (reply: string)
    ensures reply == ScheduleReply(sessions)
  {
    reply := ScheduleHeader;
    reply := reply + "Found " + NatToString(|StudySessions(sessions)|) + " study sessions:\n\n";
    var shown := sessions[..SliceCount(|sessions|, ListedSessions)];
    var listing := "";
    for idx := 1 to |shown| + 1
      invariant listing == ScheduleListing(shown[..idx - 1])
    {
      ScheduleListingStep(shown, idx);
      listing := listing + ScheduleEntry(idx, shown[idx - 1]);
    }
    assert shown[..|shown|] == shown;
    reply := reply + listing + SyncQuestion;
  }

  /** `str(e)` of what `generate_schedule` can raise here. */
  function ErrorText(e: SchedulerError): string
    requires e.ValueError? || e.TypeError?
  {
    e.message
  }

  /** The recommendations the scheduler receives: the stored analysis, when there is one. */
  function StoredRecommendations(s: State): (rec: RecommendationsInput)
    ensures s.weakPoints.None? <==> rec == NoRecommendations
  {
    if s.weakPoints.Some? then RecommendationsMap(s.weakPoints.value) else NoRecommendations
  }

  /** The schedule the node asks for: the last message with the default subject when it names
      none, the stored analysis, and the default Pomodoro lengths. */
  function RequestedSchedule(s: State, factory: Option<Llm>, decode: string -> Option<Json>,
                             scan: string -> TimeMatches, markers: string -> seq<string>,
                             now: DateTime): (r: Result<Schedule, SchedulerError>)
    requires s.messages != []
    ensures r.Err? ==> r.error.ValueError? || r.error.TypeError?
  {
    ScheduleWellFormed(Context(Some(SchedulerRequest(Last(s.messages).content)), None, None), factory, decode,
                       scan, markers, StoredRecommendations(s), now, DefaultPomodoroMinutes, DefaultBreakMinutes);
    ScheduleFor(Context(Some(SchedulerRequest(Last(s.messages).content)), None, None), factory, decode, scan,
                markers, StoredRecommendations(s), now, DefaultPomodoroMinutes, DefaultBreakMinutes)
  }

  /** The node's patch for a schedule outcome: the schedule and its summary, or the reason it
      could not be made. */
  function SchedulePatch(schedule: Result<Schedule, SchedulerError>): (p: Patch)
    requires schedule.Err? ==> schedule.error.ValueError? || schedule.error.TypeError?
    ensures RepliesOnce(p) && p.weakPoints.None?
    ensures p.generatedSchedule == (if schedule.Ok? then Some(schedule.value) else None)
    ensures schedule.Ok? ==> p.messages[0].content == ScheduleReply(schedule.value.sessions)
    ensures schedule.Err? ==> p.messages[0].content == ScheduleFailure + ErrorText(schedule.error)
  {
    if schedule.Ok? then
      Patch([AIMessage(ScheduleReply(schedule.value.sessions))], None, Some(EndNode), None, Some(schedule.value))
    else Reply(ScheduleFailure + ErrorText(schedule.error))
  }

  /** `scheduler_agent_node`: only a missing message escapes as an exception; every outcome of
      the schedule is answered. */
  function SchedulerNode(s: State, factory: Option<Llm>, decode: string -> Option<Json>,
                         scan: string -> TimeMatches, markers: string -> seq<string>,
                         now: DateTime): (r: Result<Patch, string>)
    ensures s.messages == [] ==> r == Err(IndexErrorText)
    ensures s.messages != [] ==> r == Ok(SchedulePatch(RequestedSchedule(s, factory, decode, scan, markers, now)))
  {
    if s.messages == [] then Err(IndexErrorText)
    else Ok(SchedulePatch(RequestedSchedule(s, factory, decode, scan, markers, now)))
  }

  // ---------------------------------------------------------------------------------------------
  // Analyzer

  /** The detector as the node uses it: a dictionary of recommendations, or what it raised. */
  type Detector = (seq<Message>, Option<string>) -> Result<RecommendationsDict, string>

  const MinimumMessages: nat := 4
  const ListedWeakPoints: nat := 3
  const NeedMoreConversation: string := "I need more conversation to analyze. Ask me a few questions first!"
  const GreatSession: string := "\U{2705} Great session! No significant difficulties detected."
  const AnalysisHeader: string := "\U{1F4CA} Session Analysis:\n\n"
  const ScheduleOffer: string := "\nWould you like me to create a study schedule focusing on these topics?"
  const AnalysisFailure: string := "Sorry, I had trouble analyzing the session: "

  /** Red for severe, yellow for moderate, green for every other label. */
  function SeverityIcon(difficulty: string): string {
    if difficulty == "severe" then "\U{1F534}" else if difficulty == "moderate" then "\U{1F7E1}" else "\U{1F7E2}"
  }

  /** The line of the `idx`-th weak point: its topic upper-cased ("Unknown" when absent) and its
      difficulty ("mild" when absent). */
  function WeakPointEntry(idx: nat, wp: WeakPointDict): string {
    var difficulty := wp.difficultyLevel.GetOr("mild");
    NatToString(idx) + ". " + SeverityIcon(difficulty) + " " + Upper(wp.topic.GetOr("Unknown")) + " - "
    + difficulty + " difficulty\n"
  }

  function WeakPointListing(shown: seq<WeakPointDict>): string
    decreases |shown|
  {
    if shown == [] then "" else WeakPointListing(shown[..|shown| - 1]) + WeakPointEntry(|shown|, shown[|shown| - 1])
  }

  /** The report on found weak points: how many there are, then the first three. */
  function AnalysisReport(wps: seq<WeakPointDict>): string {
    AnalysisHeader + "I identified " + NatToString(|wps|) + " areas to focus on:\n\n"
    + WeakPointListing(wps[..SliceCount(|wps|, ListedWeakPoints)]) + ScheduleOffer
  }

  /** The reply loop of `analyzer_agent_node`. */
  method BuildAnalysisReport(wps: seq<WeakPointDict>) returns (reply: string)
    ensures reply == AnalysisReport(wps)
  {
    reply := AnalysisHeader + "I identified " + NatToString(|wps|) + " areas to focus on:\n\n";
    var shown := wps[..SliceCount(|wps|, ListedWeakPoints)];
    var listing := "";
    for idx := 1 to |shown| + 1
      invariant listing == WeakPointListing(shown[..idx - 1])
    {
      WeakPointListingStep(shown, idx);
      listing := listing + WeakPointEntry(idx, shown[idx - 1]);
    }
    assert shown[..|shown|] == shown;
    reply := reply + listing + ScheduleOffer;
  }

  /** The listing of one more weak point ends with that point's entry. */
  lemma WeakPointListingStep(shown: seq<WeakPointDict>, idx: nat)
    requires 1 <= idx <= |shown|
    ensures WeakPointListing(shown[..idx]) == WeakPointListing(shown[..idx - 1]) + WeakPointEntry(idx, shown[idx - 1])
  {
    assert shown[..idx][..idx - 1] == shown[..idx - 1];
  }

  /** Every weak point shown gets one line: the listing is empty only when nothing is shown. */
  lemma {:induction false} WeakPointListingNonEmpty(shown: seq<WeakPointDict>)
    ensures WeakPointListing(shown) == "" <==> shown == []
    decreases |shown|
  {
    if shown != [] {
      var last := shown[|shown| - 1];
      var entry := WeakPointEntry(|shown|, last);
      assert entry[|entry| - 1] == '\n';
    }
  }

  /** The reply to an analysis: the report when it found weak points, the praise otherwise. */
  function AnalysisText(d: RecommendationsDict): (text: string)
    ensures d.weakPoints.GetOr([]) == [] ==> text == GreatSession
    ensures d.weakPoints.GetOr([]) != [] ==> text == AnalysisReport(d.weakPoints.value)
  {
    var wps := d.weakPoints.GetOr([]);
    if wps == [] then GreatSession else AnalysisReport(wps)
  }

  /** `analyzer_agent_node` as its caller means it: too short a conversation is refused, otherwise
      the analysis of all the messages and the session topic is reported and stored. */
  function AnalyzerNode(s: State, detect: Detector): (p: Patch)
    ensures RepliesOnce(p) && p.generatedSchedule.None?
    ensures |s.messages| < MinimumMessages ==> p == Reply(NeedMoreConversation) && p.weakPoints.None?
    ensures |s.messages| >= MinimumMessages ==>
              var d := detect(s.messages, s.currentTopic);
              && (d.Ok? ==> p.weakPoints == Some(d.value) && p.messages[0].content == AnalysisText(d.value))
              && (d.Err? ==> p == Reply(AnalysisFailure + d.error))
  {
    if |s.messages| < MinimumMessages then Reply(NeedMoreConversation)
    else
      match detect(s.messages, s.currentTopic)
      case Ok(d) => Patch([AIMessage(AnalysisText(d))], None, Some(EndNode), Some(d), None)
      case Err(e) => Reply(AnalysisFailure + e)
  }

  /** The text of the `AttributeError` raised by `result.get(...)` when `result` is the
      recommendations object the agent returns. */
  const NoGetAttribute: string := "'SessionRecommendations' object has no attribute 'get'"

  /** `analyzer_agent_node` as written: the agent's detector returns an object, which has no `get`,
      so every analysis ends in the error reply. */
  function AnalyzerNodeAsWritten(s: State): (p: Patch)
    ensures RepliesOnce(p) && p.weakPoints.None?
  {
    if |s.messages| < MinimumMessages then Reply(NeedMoreConversation)
    else Reply(AnalysisFailure + NoGetAttribute)
  }

  /** As written, a long enough conversation is never analysed: whatever the detector finds, the
      reply is the error and no analysis is stored, while the intended node stores it. */
  lemma AnalyzerAsWrittenLosesAnalysis(s: State, detect: Detector)
    requires |s.messages| >= MinimumMessages && detect(s.messages, s.currentTopic).Ok?
    ensures AnalyzerNodeAsWritten(s).weakPoints.None?
    ensures AnalyzerNode(s, detect).weakPoints == Some(detect(s.messages, s.currentTopic).value)
    ensures AnalyzerNodeAsWritten(s) != AnalyzerNode(s, detect)
  {
  }

  // ---------------------------------------------------------------------------------------------
  // Motivator

  /** A motivator's message text for a user, or what it raised. */
  type Motivator = string -> Result<string, string>

  const FallbackMotivation: string := "Keep pushing forward! You're doing great! \U{1F680}"
  const PersonaSignature: string := "\n\n\U{2014} Steve Jobs"

  /** `motivator_agent_node` as its caller means it: the message crafted for the user, signed,
      or the fixed encouragement when crafting fails. */
  function MotivatorNode(s: State, craft: Motivator): (p: Patch)
    ensures RepliesOnce(p) && PatchKeys(p) == {"messages", "next_agent"}
    ensures craft(s.userId).Err? ==> p == Reply(FallbackMotivation)
    ensures craft(s.userId).Ok? ==> p == Reply("\U{1F4AA} " + craft(s.userId).value + PersonaSignature)
  {
    match craft(s.userId)
    case Ok(text) => Reply("\U{1F4AA} " + text + PersonaSignature)
    case Err(_) => Reply(FallbackMotivation)
  }

  /** `motivator_agent_node` as written: the agent is built with keyword arguments it does not
      take, the `TypeError` is caught, and the reply is always the fixed encouragement. */
  function MotivatorNodeAsWritten(s: State): (p: Patch)
    ensures p == Reply(FallbackMotivation)
  {
    Reply(FallbackMotivation)
  }

  /** As written, the motivator's reply never depends on what could be crafted; the intended
      node gives the fixed text only when crafting fails. */
  lemma MotivatorAsWrittenNeverCrafts(s: State, craft: Motivator)
    requires craft(s.userId).Ok?
    ensures MotivatorNodeAsWritten(s).messages[0].content == FallbackMotivation
    ensures MotivatorNode(s, craft).messages[0].content != FallbackMotivation
  {
    var text := "\U{1F4AA} " + craft(s.userId).value + PersonaSignature;
    assert text[0] == '\U{1F4AA}' != FallbackMotivation[0];
  }
}
