/** The language-model weakness detector that returns the decoded analysis as it is. It builds the
    same transcript and prompt as the weakness detector agent; the model call (`complete`) and
    `json.loads` (`decode`) are parameters, and the decoded value is any JSON value. */
module LlmWeaknessDetector {
  import opened Wrappers
  import opened JsonValues
  import opened Messages
  import WeaknessDetectorAgent

  const WeakPointsKey: string := "weak_points"
  const SessionSummaryKey: string := "session_summary"
  const FailedSummary: string := "Analysis failed"

  /** The dictionary returned when the analysis fails: exactly two keys, no weak points and the
      summary "Analysis failed". */
  function FailedResult(): (j: Json)
    ensures j.JObject? && j.fields.Keys == {WeakPointsKey, SessionSummaryKey}
    ensures j.fields[WeakPointsKey] == JArray([])
    ensures j.fields[SessionSummaryKey] == JString(FailedSummary)
  {
    JObject(map[WeakPointsKey := JArray([]), SessionSummaryKey := JString(FailedSummary)])
  }

  /** `analyze_conversation`: the decoded reply unchanged, whatever JSON value it is, or
      `FailedResult` when the call fails, the reply is empty or it does not decode. */
  method AnalyzeConversation(ms: seq<Message>, topic: Option<string>, complete: string -> Result<string, string>,
                             decode: string -> Option<Json>)
    returns (r: Json)
    ensures var reply := complete(WeaknessDetectorAgent.AnalysisPrompt(WeaknessDetectorAgent.Transcript(ms), topic));
            if reply.Ok? && reply.value != "" && decode(reply.value).Some?
            then r == decode(reply.value).value
            else r == FailedResult()
  {
    var transcript := WeaknessDetectorAgent.BuildTranscript(ms);
    var prompt := WeaknessDetectorAgent.AnalysisPrompt(transcript, topic);
    var reply := complete(prompt);
    if reply.Err? || reply.value == "" {
      return FailedResult();
    }
    var result := decode(reply.value);
    if result.None? {
      return FailedResult();
    }
    r := result.value;
  }
}
