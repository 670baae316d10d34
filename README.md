# Study Pal, modelled in Dafny

Study Pal is a study assistant. A conversation graph routes each user message to one of four
agents:

- a tutor, which answers from the user's uploaded course material;
- a scheduler, which builds a Pomodoro study plan;
- an analyzer, which finds the student's weak points in the conversation;
- a motivator, which writes an encouraging message.

Around the graph sit a chatbot that keeps the session state, a PDF processor that loads and
chunks course material, a weakness detector with its recommendation records, a user-profile
store with an onboarding questionnaire, and a prompt converter that structures a free-form
prompt.

This project models that deterministic core. It has one Dafny module per source file:

| Dafny file | Source file |
|---|---|
| `agent_avatars.dfy` | `core/agent_avatars.py` |
| `messages.dfy`, `workflow_state.dfy` | `core/workflow_state.py` |
| `workflow_graph.dfy` | `core/workflow_graph.py` |
| `workflow_nodes.dfy`, `time_pattern.dfy` | `core/workflow_nodes.py` |
| `langgraph_chatbot.dfy` | `core/langgraph_chatbot.py` |
| `llm_weakness_detector.dfy` | `core/llm_weakness_detector.py` |
| `weakness_analyzer.dfy` | `core/weakness_analyzer.py` |
| `weakness_detector_agent.dfy` | `agents/weakness_detector_agent.py` |
| `document_processor.dfy` | `core/document_processor.py` |
| `scheduler_*.dfy` | `agents/scheduler_agent.py`, split by concern |
| `user_profile.dfy` | `agents/user_profile.py` |
| `onboarding.dfy` | `agents/onboarding.py` |
| `motivator_agent.dfy` | `agents/motivator_agent.py` |
| `prompt_converter.dfy` | `scripts/prompt_converter.py` |
| `strings.dfy`, `datetimes.dfy`, `json_values.dfy`, `wrappers.dfy` | shared helpers |

The scheduler files split `agents/scheduler_agent.py` like this:

| Dafny file | What it models |
|---|---|
| `scheduler_clock.dfy` | clock times |
| `scheduler_subjects.dfy` | subject extraction |
| `scheduler_preferences.dfy` | preference parsing and the fallback |
| `scheduler_priority.dfy` | weak-topic prioritisation |
| `scheduler_plan.dfy` | the Pomodoro plan |
| `scheduler_agent.dfy` | the agent itself |

Each stateful object is a class whose fields its methods update. The objects are:

- the chatbot;
- the scheduler agent and its calendar connector;
- a user profile and the profile store;
- the motivator agent;
- the onboarding agent.

Pure logic is written as functions. Loops become methods proved against those functions.

Some collaborators are parameters of the model, because their behaviour is not part of it:

- the language models, each as a function from a prompt to a reply or an error;
- the JSON decoder, whose dictionaries are read as typed records (see "## Left out");
- the regular-expression scanners;
- the PDF reader and the text splitter;
- the quote scraper;
- the retriever;
- the graph's nodes, when the graph is seen as a whole.

"Now" is an explicit `DateTime` parameter. A clock time is a number of minutes since midnight.
The profile store's directory is a map from a file path to a stored profile.

## Model

| member | source | states |
|---|---|---|
| AgentAvatars.AgentAvatar | core/agent_avatars.py:4-25 | the avatar table entry for the lower-cased agent name, or the robot avatar for an unknown name |
| AgentAvatars.AgentAvatarIgnoresCase | core/agent_avatars.py:15-25 | the lookup does not depend on letter case |
| AgentAvatars.SystemAvatarIsDefault | core/agent_avatars.py:11-25 | every unknown name gets the same avatar as the system entry, the robot |
| AgentAvatars.UserAvatar | core/agent_avatars.py:28-30 | the user avatar is the bust silhouette, the same as the table entry for "user" |
| Messages.Conversation | core/langgraph_chatbot.py:138-143 | keeps exactly the human and AI messages, never a system message, in order |
| Messages.ConversationSnoc | core/langgraph_chatbot.py:138-143 | filtering one more message adds it unless it is a system message |
| WorkflowState.DefaultState | core/workflow_state.py:14-107 | a fresh state carries the given messages and user, all flags off and no optional entries |
| WorkflowState.PatchKeys | core/workflow_state.py:14-107 | each of the five updatable keys is present iff the update sets it, and no other key appears |
| WorkflowState.Apply | core/workflow_state.py:44 | messages are appended, since the messages key is an add-reducer; every other key the update sets replaces the old value, and the rest stay |
| WorkflowState.ApplyKeepsOtherKeys | core/workflow_state.py:14-107 | applying an update leaves the user, session, topic, flags and materials alone |
| WorkflowState.ApplyEmpty | core/workflow_state.py:44 | an empty update changes nothing |
| WorkflowState.ApplyTwice | core/workflow_state.py:44 | two updates in a row equal one merged update |
| WorkflowGraph.EdgeMapReachesSuccessors | core/workflow_graph.py:105-148 | every conditional-edge label leads to a declared successor, and every successor of a node other than the motivator is reached by some label |
| WorkflowGraph.RouteAfterIntent | core/workflow_graph.py:84-102 | the route is `next_agent` when it names one of the four agents, and the end otherwise |
| WorkflowGraph.Next | core/workflow_graph.py:105-148 | a step only goes to a successor; the motivator always ends; the router follows its edge map |
| WorkflowGraph.NothingEntersRouter | core/workflow_graph.py:78-148 | the router is the entry point and no edge leads back into it |
| WorkflowGraph.NodeNamed | core/workflow_graph.py:69-73 | each route label names its registered node |
| WorkflowGraph.RouterPatchIsFollowed | core/workflow_graph.py:84-115 | after the router's update, the graph goes to the agent the router chose |
| WorkflowGraph.InitialState | core/workflow_graph.py:190-215 | a run starts from one human message for the user, with the default flags |
| WorkflowGraph.Run | core/workflow_graph.py:222 | defines `app.invoke` as at most `steps` steps: each node's update is merged, then its route is followed, and an error ends the run; `RunKeepsMessages` and `MotivatorTurn` are about it |
| WorkflowGraph.RunKeepsMessages | core/workflow_state.py:44 | a run only appends messages: the starting messages stay a prefix of the result |
| WorkflowGraph.MotivatorTurn | core/workflow_graph.py:105-148 | a message routed to the motivator runs the motivator once and then ends, with its reply appended |
| TimePattern.FindTimeFrom | core/workflow_nodes.py:64 | the scan from position i finds a match iff a quick match starts at or after i |
| TimePattern.QuickMatchIsMatch | core/workflow_nodes.py:64 | a quick match is a real time pattern |
| TimePattern.SeparatedIsQuickMatch | core/workflow_nodes.py:64 | a digit range such as "14-15" is found by the scan |
| TimePattern.MarkedIsQuickMatch | core/workflow_nodes.py:64 | digits followed by am, pm, to or from are found by the scan |
| TimePattern.FindTimeCorrect | core/workflow_nodes.py:64 | the scan from the start finds a match iff the text holds the time pattern |
| TimePattern.SearchTime | core/workflow_nodes.py:64 | the loop returns true iff the text holds the time pattern |
| WorkflowNodes.Reply | core/workflow_nodes.py:194-197 | a reply update holds messages and next_agent only |
| WorkflowNodes.IntentOf | core/workflow_nodes.py:56-79 | schedule iff a schedule word or a time pattern appears; otherwise analyze iff an analysis word appears; then motivate; tutor by default |
| WorkflowNodes.RouterNode | core/workflow_nodes.py:26-86 | the intent of the last message, lower-cased, and its node; with no messages, the tutor |
| WorkflowNodes.RouterReadsLastMessageOnly | core/workflow_nodes.py:56-86 | the router's decision depends only on the last message's text |
| WorkflowNodes.RouterIgnoresCase | core/workflow_nodes.py:59 | the router's decision does not depend on letter case |
| WorkflowNodes.RetrievedContext | core/workflow_nodes.py:128-136 | the retrieved chunks, or none when retrieval raises |
| WorkflowNodes.RecentMessages | core/workflow_nodes.py:148-153 | at most six messages before the current one, the latest ones, in order |
| WorkflowNodes.BuildHistory | core/workflow_nodes.py:146-153 | the loop builds the history text of the recent messages |
| WorkflowNodes.JoinSnoc | core/workflow_nodes.py:144-153 | joining one more part adds the separator and the part |
| WorkflowNodes.HistoryIsTranscript | core/workflow_nodes.py:146-153 | the history body is the Student/Tutor transcript of the same messages plus a newline |
| WorkflowNodes.TutorMessages | core/workflow_nodes.py:155-179 | the model gets the fixed instructions, then the prompt of numbered chunks, history and question |
| WorkflowNodes.TutorNode | core/workflow_nodes.py:93-197 | no messages raise an index error; a reply is one AI message that ends the turn |
| WorkflowNodes.TutorWithoutMaterials | core/workflow_nodes.py:184-188 | with nothing retrieved, the fixed upload hint is the reply, whatever the model |
| WorkflowNodes.TutorAsksModel | core/workflow_nodes.py:138-183 | with context, the reply is the model's answer, or its error |
| WorkflowNodes.SchedulerRequest | core/workflow_nodes.py:230-232 | the input gets the general-studies suffix exactly when it names no subject word |
| WorkflowNodes.SchedulerRequestNamesSubject | core/workflow_nodes.py:230-232 | the request always names a subject word; adding the suffix twice changes nothing |
| WorkflowNodes.ScheduleListingStudyOnly | core/workflow_nodes.py:256-260 | the listing is empty iff none of the shown sessions is a study block |
| WorkflowNodes.ScheduleEntryEmpty | core/workflow_nodes.py:257-260 | a session gets a line iff it is a study block |
| WorkflowNodes.ScheduleListingStep | core/workflow_nodes.py:256-260 | one more session adds its own line, numbered by position |
| WorkflowNodes.BuildScheduleReply | core/workflow_nodes.py:252-262 | the loop builds the reply: header, study-block count, first five sessions, sync question |
| WorkflowNodes.ScheduleReply | core/workflow_nodes.py:252-262 | defines the scheduler's reply: the header, the study-block count, the study blocks among the first five sessions, and the sync question; `ScheduleListingStudyOnly` and `ScheduleEntryEmpty` are about it |
| WorkflowNodes.StoredRecommendations | core/workflow_nodes.py:248 | the stored weak points are passed on iff there are any |
| WorkflowNodes.RequestedSchedule | core/workflow_nodes.py:228-250 | the scheduler fails only with a ValueError or a TypeError |
| WorkflowNodes.SchedulePatch | core/workflow_nodes.py:264-277 | success stores the schedule and lists it; failure stores none and reports the error |
| WorkflowNodes.SchedulerNode | core/workflow_nodes.py:204-277 | no messages raise an index error; otherwise the update for the schedule requested by the last message |
| WorkflowNodes.BuildAnalysisReport | core/workflow_nodes.py:318-333 | the loop builds the report: count, first three weak points with icon and difficulty, schedule offer |
| WorkflowNodes.AnalysisReport | core/workflow_nodes.py:318-333 | defines the analyzer's report: the count, the first three weak points and the schedule offer; `WeakPointListingNonEmpty` is about it |
| WorkflowNodes.WeakPointListingStep | core/workflow_nodes.py:324-330 | one more weak point adds its own numbered line |
| WorkflowNodes.WeakPointListingNonEmpty | core/workflow_nodes.py:324-330 | the listing is empty iff there are no weak points to show |
| WorkflowNodes.AnalysisText | core/workflow_nodes.py:318-335 | no weak points give the praise text; otherwise the report |
| WorkflowNodes.AnalyzerNode | core/workflow_nodes.py:284-350 | under four messages, the fixed request for more; otherwise the detector's result is stored and reported, or its error is reported |
| WorkflowNodes.AnalyzerNodeAsWritten | core/workflow_nodes.py:308-350 | as written, the node never stores weak points |
| WorkflowNodes.AnalyzerAsWrittenLosesAnalysis | core/workflow_nodes.py:312-318 | with a successful analysis, the node as written differs from the intended one and loses the weak points |
| WorkflowNodes.MotivatorNode | core/workflow_nodes.py:357-406 | the crafted message, signed, or the fixed encouragement when crafting fails |
| WorkflowNodes.MotivatorNodeAsWritten | core/workflow_nodes.py:373-406 | as written, the reply is always the fixed encouragement |
| WorkflowNodes.MotivatorAsWrittenNeverCrafts | core/workflow_nodes.py:378-388 | when a message could be crafted, the node as written still gives the fallback and the intended node does not |
| LangGraphChatbot.NoReplyWithoutAI | core/langgraph_chatbot.py:146-152 | there is no reply iff no message is an AI message |
| LangGraphChatbot.ReplyIsLastAI | core/langgraph_chatbot.py:146-152 | a reply is the text of one of the AI messages |
| LangGraphChatbot.LastAIIndex | core/langgraph_chatbot.py:146-152 | the reply is the text of the last AI message: none comes after it |
| LangGraphChatbot.SummaryText | core/langgraph_chatbot.py:220-226 | the fixed text for no messages; otherwise the message count and half of it as exchanges |
| LangGraphChatbot.WithUserMessage | core/langgraph_chatbot.py:122 | the user's message is appended to the state's messages |
| LangGraphChatbot.RebuildMemory | core/langgraph_chatbot.py:138-143 | the loop rebuilds the history as the human and AI messages of the result |
| LangGraphChatbot.LatestReply | core/langgraph_chatbot.py:146-152 | the loop finds the last AI message's text, or the fallback text |
| LangGraphChatbot.ReplyOf | core/langgraph_chatbot.py:146-152 | defines the answer to a turn: the last AI message's text, or the fixed text; `NoReplyWithoutAI`, `ReplyIsLastAI` and `LastAIIndex` are about it |
| LangGraphChatbot.Chatbot.constructor | core/langgraph_chatbot.py:39-93 | a new chatbot holds the default state for its user and an empty history |
| LangGraphChatbot.Chatbot.Chat | core/langgraph_chatbot.py:97-157 | on success the graph's result becomes the state, the history is rebuilt, and the reply is the last AI message; on error the state keeps the user message and the reply reports the error |
| LangGraphChatbot.Chatbot.ClearConversation | core/langgraph_chatbot.py:190-218 | the state is reset for the same user; the history is left as it is |
| LangGraphChatbot.Chatbot.Summary | core/langgraph_chatbot.py:220-226 | the summary text for the number of state messages |
| LangGraphChatbot.Chatbot.LastIntent | core/langgraph_chatbot.py:228-230 | the stored intent, which is None when there is none |
| LangGraphChatbot.Chatbot.CurrentAvatar | core/langgraph_chatbot.py:240-245 | the stored avatar when it is non-empty, otherwise the robot |
| LangGraphChatbot.ClearTwice | core/langgraph_chatbot.py:190-218 | clearing is idempotent: a second clear gives the same state and reply |
| LangGraphChatbot.ClearedSummary | core/langgraph_chatbot.py:190-226 | after a clear the summary says there are no messages |
| LangGraphChatbot.SummaryExchanges | core/langgraph_chatbot.py:222-225 | 2k and 2k+1 messages both count as k exchanges |
| WeaknessAnalyzer.ToDict | core/weakness_analyzer.py:32-50 | the dictionary lists as many weak points as the record, and the ISO text of its timestamp |
| WeaknessAnalyzer.WeakPointOf | core/weakness_analyzer.py:65-73 | each field is read, or gets its default: unknown, mild, none, 1, 0 |
| WeaknessAnalyzer.WeakPointsOf | core/weakness_analyzer.py:64-74 | one weak point per dictionary, in order |
| WeaknessAnalyzer.Recommendations | core/weakness_analyzer.py:53-89 | it fails iff a timestamp text is not in one of the naive ISO shapes that `isoformat` writes; fields get their defaults; a missing timestamp is now |
| WeaknessAnalyzer.FromDict | core/weakness_analyzer.py:53-89 | the loop over weak points gives the same record as `Recommendations` |
| WeaknessAnalyzer.FromDictToDict | core/weakness_analyzer.py:32-89 | reading back a record's dictionary gives the same record |
| LlmWeaknessDetector.FailedResult | core/llm_weakness_detector.py:97-102 | the failure dictionary: exactly the keys `weak_points` (an empty list) and `session_summary` ("Analysis failed") |
| LlmWeaknessDetector.AnalyzeConversation | core/llm_weakness_detector.py:50-102 | the decoded reply unchanged, whatever JSON value it is; the failure dictionary when the call fails, the reply is empty or it does not decode |
| WeaknessDetectorAgent.TranscriptLine | agents/weakness_detector_agent.py:144-149 | a human message is the student's line; any other message is the tutor's |
| WeaknessDetectorAgent.TranscriptLines | agents/weakness_detector_agent.py:140-151 | one line per message, in order |
| WeaknessDetectorAgent.Transcript | agents/weakness_detector_agent.py:140-151 | defines the transcript: the lines of `TranscriptLines` joined by newlines; `TranscriptLinesRecoverable` splits it back |
| WeaknessDetectorAgent.BuildTranscript | agents/weakness_detector_agent.py:140-151 | the loop builds the transcript |
| WeaknessDetectorAgent.TranscriptLinesRecoverable | agents/weakness_detector_agent.py:140-151 | for one-line messages, splitting the transcript at newlines gives back the lines |
| WeaknessDetectorAgent.AnalysisPrompt | agents/weakness_detector_agent.py:153-164 | defines `_build_analysis_prompt`: the prompt parts joined by newlines; `AnalysisPromptText` and `TranscriptInPrompt` state its layout |
| WeaknessDetectorAgent.AnalysisPromptText | agents/weakness_detector_agent.py:153-164 | the prompt is the instructions, the transcript and the optional topic line, joined |
| WeaknessDetectorAgent.TranscriptInPrompt | agents/weakness_detector_agent.py:153-164 | the transcript appears whole in the prompt at a known position |
| WeaknessDetectorAgent.ConvertToRecommendations | agents/weakness_detector_agent.py:109-138 | each field is taken from the result or gets its default; the timestamp is now |
| WeaknessDetectorAgent.ConvertToDict | agents/weakness_detector_agent.py:109-138 | converting a record's dictionary back gives the record, with the timestamp now |
| WeaknessDetectorAgent.ConvertAgreesWithFromDict | agents/weakness_detector_agent.py:109-138 | with a summary and no timestamp, the conversion agrees with `from_dict` |
| WeaknessDetectorAgent.FailedAnalysis | agents/weakness_detector_agent.py:98-107 | the failure record: no weak points, one retry tip, "Analysis failed" |
| WeaknessDetectorAgent.AnalyzeConversation | agents/weakness_detector_agent.py:52-107 | the converted reply, or the failure record when the call fails, the reply is empty or it does not decode |
| DocumentProcessing.PathName | core/document_processor.py:54 | the final path component: a suffix of the path without a slash |
| DocumentProcessing.LastDot | core/document_processor.py:54 | the position of the last dot of a name, if any |
| DocumentProcessing.Suffix | core/document_processor.py:54-55 | empty, or a dot and at least one more character, with no other dot, taken from the file name |
| DocumentProcessing.LoadPdf | core/document_processor.py:37-69 | a missing file raises FileNotFoundError; a non-.pdf suffix raises ValueError; a reader error is passed on; otherwise one page each, with its source |
| DocumentProcessing.AddSource | core/document_processor.py:62-64 | each page gets the file's name and path as metadata |
| DocumentProcessing.SourceEach | core/document_processor.py:62-64 | the loop adds the source to every page |
| DocumentProcessing.ChunkDocuments | core/document_processor.py:71-91 | no documents give no chunks; otherwise the split pieces, each numbered with its index and size |
| DocumentProcessing.NumberChunks | core/document_processor.py:87-89 | the loop numbers every piece |
| DocumentProcessing.NumberedKeepsOtherKeys | core/document_processor.py:84-89 | numbering keeps the text and all other metadata and adds exactly the index and size keys |
| DocumentProcessing.SplitDocumentsAppend | core/document_processor.py:84 | splitting distributes over concatenation |
| DocumentProcessing.OneDocumentChunks | core/document_processor.py:84-89 | one document gives one chunk per piece of its text, in order |
| DocumentProcessing.ChunkDocumentsMethod | core/document_processor.py:71-91 | the method computes `ChunkDocuments` |
| DocumentProcessing.ExtractMetadata | core/document_processor.py:93-114 | all metadata plus the content length and word count; the page number from "page" when present |
| DocumentProcessing.ProcessPdf | core/document_processor.py:116-139 | the corrected pipeline: the loading error, or the chunks of the loaded pages |
| DocumentProcessing.ProcessPdfAsWritten | core/document_processor.py:131-137 | as written: the same, except that zero chunks raise ZeroDivisionError |
| DocumentProcessing.EmptyPdfRaises | core/document_processor.py:137 | a readable .pdf with no pages makes the pipeline as written raise |
| DocumentProcessing.LoadPdfMethod | core/document_processor.py:37-69 | the method computes `LoadPdf` |
| DocumentProcessing.ProcessPdfMethod | core/document_processor.py:116-139 | the method computes the corrected `ProcessPdf` |
| SchedulerClock.ClockText | agents/scheduler_agent.py:400-401 | two-digit hours and minutes give five characters |
| SchedulerClock.MatchHour | agents/scheduler_agent.py:442-446 | an hour read by strptime is below 24 and one or two digits long |
| SchedulerClock.MatchMinute | agents/scheduler_agent.py:442-446 | a minute read by strptime is below 60 and one or two digits long |
| SchedulerClock.Strptime | agents/scheduler_agent.py:442-446 | a parsed time is a time of day |
| SchedulerClock.StrptimeClockText | agents/scheduler_agent.py:400-446 | a formatted clock time parses back to the same minute |
| SchedulerClock.ParseClock | agents/scheduler_agent.py:442-449 | Ok iff the value is text that parses; a non-text value is a TypeError |
| SchedulerClock.AddMinutes | agents/scheduler_agent.py:403-406 | the result parses to the time plus the minutes, wrapped at midnight; an unreadable time is a ValueError |
| SchedulerClock.TimeToMinutes | agents/scheduler_agent.py:408-410 | it fails only with a ValueError |
| SchedulerClock.TimeToMinutesClockText | agents/scheduler_agent.py:400-410 | a formatted clock time reads back as hours times sixty plus minutes |
| SchedulerClock.MarkedHour | agents/scheduler_agent.py:393-400 | with a marker the hour is a time of day: pm is afternoon, am is morning |
| SchedulerClock.EffectiveMarker | agents/scheduler_agent.py:395 | a time's own marker, or else the other end's |
| SchedulerClock.FormatTimeMinutes | agents/scheduler_agent.py:386-410 | the formatted time reads back as the marked hour and the minute |
| SchedulerClock.FormatTimeIsClockTime | agents/scheduler_agent.py:386-401 | a marked time formats to a clock time that strptime reads |
| SchedulerClock.ExtractTimeRange | agents/scheduler_agent.py:363-384 | a range wins, each end taking the other's am/pm marker when it has none; otherwise the first two single times; otherwise one time and an hour after it; otherwise nothing |
| SchedulerClock.RangeSharesMarker | agents/scheduler_agent.py:370-371 | a marker on one end of a range applies to the other |
| SchedulerPlan.TimeText | agents/scheduler_agent.py:249-263 | a minute count formats to the clock time of that minute, wrapped at midnight |
| SchedulerPlan.Plan | agents/scheduler_agent.py:240-267 | defines the sessions the `while` loop emits from a time on: a study block when one fits, then a break when one fits after it; its properties are `PlanIsPlan`, `PlanIsUnique` and `PlanBounds` |
| SchedulerPlan.PlanIsPlan | agents/scheduler_agent.py:240-267 | the plan alternates study and break, rotates the subjects, keeps the lengths, is contiguous and stays in the window |
| SchedulerPlan.PlanIsUnique | agents/scheduler_agent.py:240-267 | any sequence with those properties is the plan |
| SchedulerPlan.PlanBounds | agents/scheduler_agent.py:240-267 | the plan's blocks lie inside the window |
| SchedulerPlan.StartsIncrease | agents/scheduler_agent.py:240-267 | blocks start in order, each at or after the window start |
| SchedulerPlan.PomodoroPlanOutcome | agents/scheduler_agent.py:228-272 | the clock errors come first; then the ValueError for an end not after the start, the ValueError when no block fits, and the ZeroDivisionError of `subjects[i % len(subjects)]` when there are no subjects; otherwise exactly the plan of the window, a non-empty plan with every promised property |
| SchedulerPlan.PomodoroPlan | agents/scheduler_agent.py:228-272 | defines `_build_pomodoro_plan`: both clock texts parsed, then the plan of the window; its outcome is `PomodoroPlanOutcome` |
| SchedulerPlan.WindowPlanOutcome | agents/scheduler_agent.py:231-272 | for a window in minutes: the two ValueErrors and the ZeroDivisionError in the source's order; the result is Ok iff the window is ordered, a block fits and there are subjects, and it is then the plan of the window |
| SchedulerPlan.WindowPlan | agents/scheduler_agent.py:231-272 | defines the checks in the source's order: end not after start, no block fitting, no subjects (the `%` by zero), then the plan; its outcome is `WindowPlanOutcome` |
| SchedulerPlan.BuildPomodoroPlan | agents/scheduler_agent.py:228-272 | the method computes `PomodoroPlan` |
| SchedulerPlan.BuildWindowPlan | agents/scheduler_agent.py:231-272 | the method computes `WindowPlan` |
| SchedulerPlan.PlanLoop | agents/scheduler_agent.py:236-267 | the loop produces the plan |
| SchedulerPreferences.ParseAccepts | agents/scheduler_agent.py:209-226 | a reply is accepted iff it is an object with the three keys and a non-empty list of text subjects |
| SchedulerPreferences.ParsePreferences | agents/scheduler_agent.py:209-226 | defines `_parse_preferences`: undecodable JSON, a non-container, missing keys and a list or text reply fail in the source's order; an object gives its fields; its cases are `ParseAccepts`, `ParseKeepsReply` and `ParseRejects` |
| SchedulerPreferences.ParseKeepsReply | agents/scheduler_agent.py:209-226 | accepted preferences hold exactly the reply's keys and values |
| SchedulerPreferences.ParseRejects | agents/scheduler_agent.py:210-224 | invalid JSON, a non-container reply, missing keys and a bad subject list each give their error |
| SchedulerPreferences.HeuristicSubjects | agents/scheduler_agent.py:340-348 | the extracted subjects first, then the topic; "General Study" when there is neither |
| SchedulerPreferences.HeuristicWindow | agents/scheduler_agent.py:350-354 | the window, with a one-hour default end |
| SchedulerPreferences.HeuristicWindowOrdered | agents/scheduler_agent.py:350-354 | the end is after the start, or it is the start plus one hour |
| SchedulerPreferences.HeuristicPreferences | agents/scheduler_agent.py:338-361 | the fallback fails only with a ValueError |
| SchedulerPreferences.HeuristicOutcome | agents/scheduler_agent.py:338-361 | the fallback's start, end, subjects and fixed note |
| SchedulerPreferences.WithNotes | agents/scheduler_agent.py:206 | notes are always present; missing notes become empty text |
| SchedulerPreferences.ModelPreferencesCases | agents/scheduler_agent.py:194-199 | the model's answer is used iff it is accepted, and then it holds exactly the reply |
| SchedulerPreferences.ModelPreferences | agents/scheduler_agent.py:194-199 | defines the model path of `_collect_preferences`: a model, a successful call and an accepted reply; its cases are `ModelPreferencesCases` |
| SchedulerPreferences.CollectFallsBack | agents/scheduler_agent.py:194-205 | without an accepted answer, the heuristic preferences are used |
| SchedulerPreferences.CollectFromModel | agents/scheduler_agent.py:197-206 | an accepted answer is used, with notes |
| SchedulerPreferences.CollectErrors | agents/scheduler_agent.py:181-207 | an error can only come from the fallback |
| SchedulerPreferences.CollectOutcome | agents/scheduler_agent.py:181-207 | collected preferences have notes and subjects; an error is a ValueError |
| SchedulerPreferences.CollectPreferences | agents/scheduler_agent.py:181-207 | defines `_collect_preferences`: the model's preferences, else the heuristic ones, with notes set by default; its properties are `CollectFallsBack`, `CollectFromModel`, `CollectErrors` and `CollectOutcome` |
| SchedulerPriority.TopicsAt | agents/scheduler_agent.py:296-320 | the topics of the given difficulty, in order |
| SchedulerPriority.TopicsAtMembers | agents/scheduler_agent.py:296-320 | a topic is listed iff some weak point of that difficulty has it |
| SchedulerPriority.PrioritizedFields | agents/scheduler_agent.py:330-334 | the old fields with exactly the subjects, the prioritised flag and the severe and moderate topic lists overwritten |
| SchedulerPriority.PrioritizedOrdered | agents/scheduler_agent.py:293-328 | severe topics come before moderate, before mild, before the original subjects |
| SchedulerPriority.PrioritizedDistinct | agents/scheduler_agent.py:301-328 | no subject appears twice |
| SchedulerPriority.PrioritizedMembers | agents/scheduler_agent.py:289-328 | a subject is listed iff it is an original subject or a weak topic of a known difficulty |
| SchedulerPriority.Prioritized | agents/scheduler_agent.py:274-336 | defines `_prioritize_weak_topics` on the preferences: the prioritised subjects (the old ones when there are none) and the recorded severe and moderate topics; its properties are `PrioritizedFields`, `PrioritizedOrdered`, `PrioritizedDistinct`, `PrioritizedMembers` and `PrioritizedNonEmpty` |
| SchedulerPriority.PrioritizedNonEmpty | agents/scheduler_agent.py:331 | non-empty subjects stay non-empty |
| SchedulerPriority.AppendMissing | agents/scheduler_agent.py:301-303 | the loop appends the items not yet present |
| SchedulerPriority.PrioritizeWeakTopics | agents/scheduler_agent.py:274-336 | the method computes the prioritised preferences |
| SchedulerSubjects.AppendNewDistinct | agents/scheduler_agent.py:436-439 | appending only unseen keys keeps the keys distinct |
| SchedulerSubjects.AppendNewFirstSpelling | agents/scheduler_agent.py:436-439 | the first spelling of a new key is the one kept |
| SchedulerSubjects.SplitSubjectsFree | agents/scheduler_agent.py:431 | no piece of a split contains a separator |
| SchedulerSubjects.SplitSubjects | agents/scheduler_agent.py:431 | defines the `re.split` of a chunk at ",", "/", "&" and the words "and" and "then"; its properties are `SplitSubjectsFree` and `SplitSubjectsWhole` |
| SchedulerSubjects.SplitSubjectsWhole | agents/scheduler_agent.py:431 | text without a separator is one piece |
| SchedulerSubjects.ExtractSubjects | agents/scheduler_agent.py:412-440 | the loop computes the subjects |
| SchedulerSubjects.Subjects | agents/scheduler_agent.py:412-440 | defines the subjects of the marker chunks: each cleaned candidate whose lower-case form is new; its properties are `SubjectsDeduplicated` and `CandidatesClean` |
| SchedulerSubjects.AddParts | agents/scheduler_agent.py:432-439 | the inner loop appends the cleaned parts not yet seen, and tracks the seen keys |
| SchedulerSubjects.SubjectsDeduplicated | agents/scheduler_agent.py:428-440 | subjects are distinct ignoring case, cover every candidate, and keep each first spelling |
| SchedulerSubjects.CandidatesClean | agents/scheduler_agent.py:433-435 | every candidate is non-empty and trimmed |
| Scheduler.UserInput | agents/scheduler_agent.py:62 | the user input, else the preferences text |
| Scheduler.DictToRecommendations | agents/scheduler_agent.py:91-116 | the weak points with defaults, their first five topics as priorities, 15 minutes per topic, default tips and summary, and now |
| Scheduler.BuildRecommendations | agents/scheduler_agent.py:91-116 | the loop computes `DictToRecommendations` |
| Scheduler.ScheduleFor | agents/scheduler_agent.py:47-89 | no input is the ValueError with the fixed message |
| Scheduler.ScheduleFrom | agents/scheduler_agent.py:69-89 | defines the rest of `generate_schedule`: prioritise when there are weak points, then build the plan; its outcome is `ScheduleOutcome` and `ScheduleFromWellFormed` |
| Scheduler.ScheduleOutcome | agents/scheduler_agent.py:69-89 | a schedule holds the preferences, prioritised iff there are weak points, and a plan of their window |
| Scheduler.BuildRecommendationsOf | agents/scheduler_agent.py:69-75 | the recommendations argument, a dictionary converted |
| Scheduler.BuildSchedule | agents/scheduler_agent.py:69-89 | the method computes the rest of the schedule |
| Scheduler.ScheduleWellFormed | agents/scheduler_agent.py:47-89 | a schedule has notes and subjects; an error is a ValueError or TypeError |
| Scheduler.ScheduleFromWellFormed | agents/scheduler_agent.py:69-89 | the same for the part after the preferences |
| Scheduler.PrioritizeKeepsSubjects | agents/scheduler_agent.py:69-75 | prioritising keeps subjects present |
| Scheduler.PlanNeedsNoDivisionByZero | agents/scheduler_agent.py:228-272 | with subjects, the plan fails only with a ValueError or TypeError |
| Scheduler.StudySessions | agents/scheduler_agent.py:127-130 | the study blocks, no more than the sessions |
| Scheduler.StudySessionsStep | agents/scheduler_agent.py:127-130 | one more session adds itself iff it is a study block |
| Scheduler.StudySessionsMembers | agents/scheduler_agent.py:127-130 | the study blocks are exactly the sessions that are study blocks |
| Scheduler.Accepted | agents/scheduler_agent.py:127-140 | the created events are no more than the requests |
| Scheduler.AcceptedSnoc | agents/scheduler_agent.py:127-140 | one more request adds itself iff it does not fail |
| Scheduler.AcceptedMembers | agents/scheduler_agent.py:127-140 | every request that does not fail is created |
| Scheduler.CalendarConnector.constructor | agents/scheduler_agent.py:118-140 | a connector starts with no requests and no events |
| Scheduler.CalendarConnector.CreateEvent | agents/scheduler_agent.py:135-140 | the request is recorded; the event is created iff it does not fail |
| Scheduler.SchedulerAgent.constructor | agents/scheduler_agent.py:35-45 | the agent holds its model, lengths and connector, and no schedule |
| Scheduler.SchedulerAgent.EnsureLlm | agents/scheduler_agent.py:167-179 | the model is kept, or built once |
| Scheduler.SchedulerAgent.GenerateSchedule | agents/scheduler_agent.py:47-89 | the schedule of `ScheduleFor`; it is remembered when produced; the model is built only when there is input |
| Scheduler.SchedulerAgent.SyncSchedule | agents/scheduler_agent.py:118-140 | the schedule is remembered; the connector gets one request per study block, in order, and creates those that do not fail |
| UserProfiles.DefaultProfile | agents/user_profile.py:22-38 | a new profile has the default persona and empty lists |
| UserProfiles.Recent | agents/user_profile.py:40-45 | defines the kept log: the last 50 events; `RecentIsBoundedTail`, `RegisterAllIsRecent` and `RecentOfRecent` are about it |
| UserProfiles.RecentIsBoundedTail | agents/user_profile.py:40-45 | the kept log is the latest entries, at most the limit |
| UserProfiles.RegisterAllIsRecent | agents/user_profile.py:40-45 | registering events one by one equals trimming the whole log once |
| UserProfiles.RecentOfRecent | agents/user_profile.py:40-45 | trimming early loses nothing that trimming late would keep |
| UserProfiles.UserProfile.constructor | agents/user_profile.py:22-38 | the profile holds the given record |
| UserProfiles.UserProfile.RegisterEvent | agents/user_profile.py:40-45 | the event is appended and the log trimmed to the limit; nothing else changes |
| UserProfiles.SafeId | agents/user_profile.py:54-56 | each slash becomes an underscore, and nothing else changes |
| UserProfiles.SafeIdKeepsPlainIds | agents/user_profile.py:54-56 | an id without a slash is kept |
| UserProfiles.SafeIdCollision | agents/user_profile.py:54-56 | two ids share a file iff they differ only by slash against underscore, as "a/b" and "a_b" do |
| UserProfiles.PathFor | agents/user_profile.py:54-56 | defines `_path_for`: the root, then the safe id with ".json"; `PathForSameFile` is about it |
| UserProfiles.PathForSameFile | agents/user_profile.py:54-56 | two ids share a path iff their safe ids are equal |
| UserProfiles.LoadAfterSave | agents/user_profile.py:58-70 | a saved profile loads back; other files are unchanged |
| UserProfiles.LoadMissing | agents/user_profile.py:58-64 | a missing file is an error naming the path |
| UserProfiles.UserProfileStore.constructor | agents/user_profile.py:51-52 | the store holds its root and files |
| UserProfiles.LoadFrom | agents/user_profile.py:58-64 | defines `load` on the files: the record at the id's path, or the not-found error naming the path; `LoadAfterSave` and `LoadMissing` are about it |
| UserProfiles.UserProfileStore.Load | agents/user_profile.py:58-64 | a new profile of the stored record, or the not-found error |
| UserProfiles.SaveTo | agents/user_profile.py:66-70 | defines `save` on the files: the record written at its id's path; `LoadAfterSave` is about it |
| UserProfiles.UserProfileStore.Save | agents/user_profile.py:66-70 | the profile's record is written to its path |
| Onboarding.Stripped | agents/onboarding.py:112-271 | each answer is stripped |
| Onboarding.FirstAcceptedIsFirst | agents/onboarding.py:112-150 | the first accepted answer and the rest after it; an error iff none is accepted |
| Onboarding.NameChoice | agents/onboarding.py:112-118 | a name is accepted iff it is not blank |
| Onboarding.PersonaChoice | agents/onboarding.py:139-150 | a number from 1 to the persona count picks that persona |
| Onboarding.NameIsFirstNonBlank | agents/onboarding.py:112-118 | the name is the first non-blank answer |
| Onboarding.PersonaIsFirstInRange | agents/onboarding.py:133-150 | the persona is the first answer in range |
| Onboarding.CollectName | agents/onboarding.py:112-118 | the loop computes the name choice |
| Onboarding.SelectPersona | agents/onboarding.py:120-150 | the loop computes the persona choice |
| Onboarding.AcademicField | agents/onboarding.py:152-163 | the first answer, none when blank; an error without input |
| Onboarding.LeadingCount | agents/onboarding.py:178-188 | the number of non-blank answers before the first blank |
| Onboarding.ReadEntries | agents/onboarding.py:165-228 | up to ten non-blank entries, ended by a blank answer or the limit |
| Onboarding.CollectEntries | agents/onboarding.py:178-188 | the loop computes `ReadEntries` |
| Onboarding.Numbers | agents/onboarding.py:256-258 | each comma-separated token, stripped and read as a number |
| Onboarding.Indices | agents/onboarding.py:256-258 | one index per number, each minus one; none if any token is not a number |
| Onboarding.IndicesOfNumbers | agents/onboarding.py:256-258 | all numbers read give their indices |
| Onboarding.Selected | agents/onboarding.py:258-261 | only pain points, at most one per index |
| Onboarding.SelectedAppend | agents/onboarding.py:258-261 | selection distributes over concatenation |
| Onboarding.SelectedNothing | agents/onboarding.py:258-261 | nothing is selected iff every index is out of range |
| Onboarding.PainPointsRules | agents/onboarding.py:230-271 | a blank answer or a bad token selects nothing; only pain points, at most one per token |
| Onboarding.CollectPainPoints | agents/onboarding.py:230-271 | the method computes the pain points step |
| Onboarding.ReadIndices | agents/onboarding.py:256-258 | the method computes the indices |
| Onboarding.IndicesOf | agents/onboarding.py:256-258 | the loop computes the indices |
| Onboarding.SelectPainPoints | agents/onboarding.py:258-261 | the loop computes the selection |
| Onboarding.NewProfile | agents/onboarding.py:81-95 | the profile of the answers; the first topic is the current focus |
| Onboarding.Questionnaire | agents/onboarding.py:53-110 | defines the questions in order (name, persona, field, topics, goals, pain points), each reading on from the previous one; `QuestionnaireProfile` states what it gives |
| Onboarding.QuestionnaireProfile | agents/onboarding.py:53-110 | a completed questionnaire gives a profile with a name, a known persona, at most ten non-blank topics and goals, and pain points only |
| Onboarding.OnboardingAgent.constructor | agents/onboarding.py:44-51 | the agent holds its store |
| Onboarding.OnboardingAgent.RunOnboarding | agents/onboarding.py:53-110 | on error nothing is saved; on success a new profile of the answers is returned and saved |
| MotivatorAgents.PersonaOf | agents/motivator_agent.py:88 | the profile's persona, never empty |
| MotivatorAgents.LoadProfileStores | agents/motivator_agent.py:135-143 | the loaded profile can be loaded again; a missing one is a default profile named by the id |
| MotivatorAgents.Motivation | agents/motivator_agent.py:88-126 | no scraper is an ImportError; a message has the persona, the user's name and the time |
| MotivatorAgents.ScrapingComesFirst | agents/motivator_agent.py:100-111 | no quotes is the error, whatever the model |
| MotivatorAgents.MessageFromFirstQuote | agents/motivator_agent.py:106-126 | the message is the model's text for the first quote, with that quote's source |
| MotivatorAgents.MotivatorAgent.constructor | agents/motivator_agent.py:49-54 | the agent holds its store and model |
| MotivatorAgents.MotivatorAgent.LoadProfile | agents/motivator_agent.py:135-143 | a new profile of the loaded record; a missing one is created and saved |
| MotivatorAgents.MotivatorAgent.CraftPersonalizedMessage | agents/motivator_agent.py:56-133 | no store is a ValueError; otherwise `Motivation`, and on success the profile is saved with the time of the motivation |
| PromptConverter.ContextHintRule | scripts/prompt_converter.py:54-66 | the context is never empty: the fixed no-context hint when no match is longer than three characters, otherwise the fixed prefix and a listing of exactly the matches longer than three characters, each once |
| PromptConverter.GatherMatches | scripts/prompt_converter.py:54-58 | the loop gathers every pattern's matches |
| PromptConverter.ListSet | scripts/prompt_converter.py:61 | a listing of a set: each element once |
| PromptConverter.ExtractContext | scripts/prompt_converter.py:41-66 | the context hint of the matches |
| PromptConverter.NextBreak | scripts/prompt_converter.py:89 | the next sentence break, with none in between |
| PromptConverter.FirstSentenceRule | scripts/prompt_converter.py:89-90 | the whole prompt iff it has no break; empty iff it starts with one |
| PromptConverter.FirstVerb | scripts/prompt_converter.py:81-86 | the first match of the first verb family that matches; none iff no family matches |
| PromptConverter.IntentText | scripts/prompt_converter.py:92-94 | the capitalised verb and the first sentence, or the capitalised first sentence |
| PromptConverter.IntentEmptyRule | scripts/prompt_converter.py:68-94 | the intent is empty iff no verb matches and the first sentence is empty |
| PromptConverter.ExtractIntent | scripts/prompt_converter.py:68-94 | the method computes the intent |
| PromptConverter.Kept | scripts/prompt_converter.py:110 | empty matches are dropped |
| PromptConverter.Collected | scripts/prompt_converter.py:108-110 | no collected match is empty |
| PromptConverter.ListPartRule | scripts/prompt_converter.py:108-163 | the first five matches, or the defaults when there are none; never an empty item |
| PromptConverter.DefaultsFit | scripts/prompt_converter.py:112-161 | the defaults fit the limit and are not empty; the priority fallback is empty iff the intent is |
| PromptConverter.CollectMatches | scripts/prompt_converter.py:108-110 | the loop collects the non-empty matches |
| PromptConverter.ExtractConstraints | scripts/prompt_converter.py:96-118 | the constraints list part |
| PromptConverter.ExtractCriteria | scripts/prompt_converter.py:120-141 | the criteria list part |
| PromptConverter.ExtractPriorities | scripts/prompt_converter.py:143-163 | the priorities list part, defaulting to the intent |
| PromptConverter.AnalyzePrompt | scripts/prompt_converter.py:30-39 | all five parts of the analysis |
| PromptConverter.SectionShape | scripts/prompt_converter.py:176-192 | a section is its heading, its items and a blank line |
| PromptConverter.HeadLayout | scripts/prompt_converter.py:167-174 | the header, then the context and intent lines when present |
| PromptConverter.ConstraintsLayout | scripts/prompt_converter.py:176-180 | the constraints heading and one bullet per constraint |
| PromptConverter.CriteriaLayout | scripts/prompt_converter.py:182-186 | the criteria heading and one bullet per criterion |
| PromptConverter.PrioritiesLayout | scripts/prompt_converter.py:188-192 | the priorities heading and numbered items, last |
| PromptConverter.AppendBullets | scripts/prompt_converter.py:178-179 | the loop appends one bullet per item |
| PromptConverter.AppendNumbered | scripts/prompt_converter.py:190-191 | the loop appends one numbered line per item |
| PromptConverter.AppendBulletSection | scripts/prompt_converter.py:176-186 | the method appends a bullet section |
| PromptConverter.FormatStructuredPrompt | scripts/prompt_converter.py:165-194 | the lines joined by newlines |
| PromptConverter.Convert | scripts/prompt_converter.py:196-199 | the formatted text of an analysis of the prompt |

## Left out

- The language models, the OpenAI clients and their model classes are parameters. The same goes for the JSON decoder, the retriever and vector store, the PDF loader, the text splitter, the quote scraper and the calendar client. Only what the core does with their answers is modelled.
- The regular expressions are parameters or hand-written scanners. `re.findall` in the prompt converter, the time-range scanner and the subject marker search are parameters. The router's time pattern is written out as `TimePattern`.
- The clocks (`datetime.now`, `datetime.utcnow`), environment variables, printing and logging are left out. Now is a parameter.
- File I/O is modelled only as the profile store's map from a path to a record. `Path.exists` in the PDF loader is a set of existing paths.
- `_build_calendar_event_payload` (agents/scheduler_agent.py:142-165) is left out. It depends on the local time zone and the current date. The connector records each study block instead.
- Scheduler.ScheduleFor, SchedulerPlan.PomodoroPlan and their callers require `pomodoro + break > 0`. For other lengths, the `while` loop of agents/scheduler_agent.py:242-267 never ends once a block fits, so those lengths are left out. This is a defect of the source: `SchedulerAgent` takes both lengths from its caller and never checks them (agents/scheduler_agent.py:35-45).
- SchedulerPreferences.ParseRejects: the missing required keys are reported as a set. Python lists them in set order, which is not fixed.
- PromptConverter.ExtractContext lists the context matches in any order, each once. The source iterates a Python set.
- Route functions after the tutor, scheduler and analyzer nodes are a `Routes` parameter of `WorkflowGraph.Next`.
- WorkflowGraph.RunKeepsMessages: a run takes at most `steps` steps. The source's graph has no step bound.
- Streaming (`stream_workflow`) and the graph's saved-state memory are left out. Concurrency is also left out.
- The chatbot's `ingest_material`, `get_materials_count`, `clear_materials`, `get_weak_points` and `get_schedule` are left out. They are getters or calls into the retriever, which is outside the model.
- `interactive_mode` and `main` of the prompt converter, and every command-line, UI and API entry point, are left out.
- The onboarding agent's printed prompts are left out. Running out of answers is modelled as the error that `input` raises at end of file.
- JSON numbers are integers. Floating-point fields are not modelled.
- agents/quote_store.py is not part of this model. The motivator node reaches the agent through a `Motivator` function.
- WeaknessAnalyzer.WeakPointOf does not check the difficulty level, because the source accepts any text there.
- LangGraphChatbot.Chatbot.LastIntent returns `None` when no intent was stored. The key is always present in the state, so the "unknown" default of core/langgraph_chatbot.py:230 never applies.
- WorkflowNodes.RouterNode sends a conversation without messages to the tutor, as the source does. The tutor then raises an index error (`WorkflowNodes.TutorNode`).
- The confirmation dialogue after a schedule and the detection of leaving the tutor are not in the code, so they are not modelled.
- tests/test_scheduler_agent.py:66-75 expect errors that the heuristic fallback handles. The model follows the code.
- MotivatorAgents.MotivatorAgent.CraftPersonalizedMessage: a profile record is always truthy, so the missing-profile check fails only when there is no store.
- Strings.Lower, Strings.Upper, Strings.Capitalize, Strings.IsDigit and SchedulerSubjects.IsWordChar know ASCII letters and digits only. Python's `str.lower`, `str.upper`, `str.capitalize`, `\d`, `\w`, `\b`, `int()` and `strptime` also accept non-ASCII letters and digits. Those are not modelled.
- SchedulerSubjects.SubjectsDeduplicated, WorkflowNodes.RouterIgnoresCase and AgentAvatars.AgentAvatarIgnoresCase hold for ASCII case only, because they rest on the ASCII case mapping above.
- WeaknessAnalyzer.Recommendations reads timestamps only in the naive shapes that `isoformat()` writes: a date, or a date and 'T' followed by HH:MM, HH:MM:SS or HH:MM:SS.ffffff. Python's `fromisoformat` also accepts other shapes, depending on the version: a space separator, an hour alone, other fraction lengths and UTC offsets. The model reports those as errors.
- WeaknessAnalyzer.WeakPointOf, WeaknessDetectorAgent.ConvertToRecommendations, Scheduler.DictToRecommendations, Scheduler.ScheduleWellFormed and WorkflowNodes.RequestedSchedule read decoded dictionaries as typed records. A key that is present with a `null` value is treated as absent and gets its default. Python's `.get` would return `None` for it instead. A value of the wrong type cannot be represented, such as a `null` `weak_points` or a list entry that is not a dictionary. So the `TypeError` and `AttributeError` those values raise are not modelled.
- DocumentProcessing.PathName reads the path text as `str(path)` gives it, already normalised by `pathlib`. The normalisation itself (dropping a trailing '/', repeated '/' and "." components) is not modelled.

## Findings

| source | as written | input that shows it | evidently intended | confidence | as-written member | corrected member |
|---|---|---|---|---|---|---|
| core/document_processor.py:137 | `process_pdf` divides by `len(chunks)` when reporting the average chunk size | a readable `.pdf` whose loader returns no pages, which gives zero chunks | return the empty chunk list | not executed | DocumentProcessing.ProcessPdfAsWritten (shown by DocumentProcessing.EmptyPdfRaises) | DocumentProcessing.ProcessPdf |
| core/workflow_nodes.py:312-318 | the analyzer node calls `.get("weak_points")` on the detector's result, a `SessionRecommendations` object with no `get` | any conversation of four or more messages that the detector analyses | read the weak points from the result and store them | not executed | WorkflowNodes.AnalyzerNodeAsWritten (shown by WorkflowNodes.AnalyzerAsWrittenLosesAnalysis) | WorkflowNodes.AnalyzerNode |
| core/workflow_nodes.py:378-388 | the motivator node builds `MotivatorAgent(fetcher=..., quote_store=...)` and calls `craft_message`, which the agent does not have; the `TypeError` is caught | any message routed to the motivator | craft the personalised message for the user and sign it | not executed | WorkflowNodes.MotivatorNodeAsWritten (shown by WorkflowNodes.MotivatorAsWrittenNeverCrafts) | WorkflowNodes.MotivatorNode |
