/** The shared state of the study workflow (`StudyPalState`) and the partial updates the nodes
    return. Values the state carries without inspecting them are decoded JSON values. */
module WorkflowState {
  import opened Wrappers
  import opened JsonValues
  import opened Messages
  import opened WeaknessAnalyzer
  import opened Scheduler

  datatype SessionMode =
    | SchedulingRequested | Scheduled | ActiveTutoring | AnalysisRequested | AnalysisCompleted
    | MotivationRequested | Complete

  /** The state dictionary. `weakPoints` holds the analyzer's result in its dictionary form and
      `generatedSchedule` the scheduler's result. `currentAgentAvatar` is the extra key the chatbot
      keeps beside the declared ones. */
  datatype State = State(
    messages: seq<Message>,
    userId: string,
    currentTopic: Option<string>,
    currentIntent: Option<string>,
    weakPoints: Option<RecommendationsDict>,
    generatedSchedule: Option<Schedule>,
    schedulePlan: Option<Json>,
    nextAgent: Option<string>,
    workflowComplete: bool,
    sessionMode: Option<SessionMode>,
    tutorSessionActive: bool,
    analysisResults: Option<Json>,
    sessionAnalysis: Option<Json>,
    userWantsScheduling: bool,
    needsMotivation: bool,
    startTutorAfterSchedule: bool,
    readyForTutoring: bool,
    tutorExitRequested: bool,
    awaitingScheduleConfirmation: bool,
    awaitingScheduleDetails: bool,
    pendingScheduleRequest: Option<string>,
    ragPipeline: Option<Json>,
    userProfile: Option<Json>,
    currentAgentAvatar: Option<string>)

  /** The state with the given messages and user, every flag false and every optional value
      absent. */
  function DefaultState(messages: seq<Message>, userId: string): (s: State)
    ensures s.messages == messages && s.userId == userId
    ensures NoFlags(s) && NoOptionals(s)
  {
    State(messages, userId, None, None, None, None, None, None, false, None, false, None, None,
          false, false, false, false, false, false, false, None, None, None, None)
  }

  predicate NoFlags(s: State) {
    && !s.workflowComplete && !s.tutorSessionActive && !s.userWantsScheduling && !s.needsMotivation
    && !s.startTutorAfterSchedule && !s.readyForTutoring && !s.tutorExitRequested
    && !s.awaitingScheduleConfirmation && !s.awaitingScheduleDetails
  }

  predicate NoOptionals(s: State) {
    && s.currentTopic.None? && s.currentIntent.None? && s.weakPoints.None? && s.generatedSchedule.None?
    && s.schedulePlan.None? && s.nextAgent.None? && s.sessionMode.None? && s.analysisResults.None?
    && s.sessionAnalysis.None? && s.pendingScheduleRequest.None? && s.ragPipeline.None?
    && s.userProfile.None? && s.currentAgentAvatar.None?
  }

  /** The dictionary a node returns. A `None` field is a key the node leaves out; `messages` are
      new messages to add. */
  datatype Patch = Patch(
    messages: seq<Message>,
    currentIntent: Option<string>,
    nextAgent: Option<string>,
    weakPoints: Option<RecommendationsDict>,
    generatedSchedule: Option<Schedule>)

  /** The keys a patch holds. */
  function PatchKeys(p: Patch): (keys: set<string>)
    ensures "messages" in keys <==> p.messages != []
    ensures "current_intent" in keys <==> p.currentIntent.Some?
    ensures "next_agent" in keys <==> p.nextAgent.Some?
    ensures "weak_points" in keys <==> p.weakPoints.Some?
    ensures "generated_schedule" in keys <==> p.generatedSchedule.Some?
    ensures keys <= {"messages", "current_intent", "next_agent", "weak_points", "generated_schedule"}
  {
    (if p.messages != [] then {"messages"} else {})
    + (if p.currentIntent.Some? then {"current_intent"} else {})
    + (if p.nextAgent.Some? then {"next_agent"} else {})
    + (if p.weakPoints.Some? then {"weak_points"} else {})
    + (if p.generatedSchedule.Some? then {"generated_schedule"} else {})
  }

  /** Merging a patch into the state: the messages reducer adds the new messages after the old
      ones; every other key the patch holds replaces the state's value. */
  function Apply(s: State, p: Patch): (t: State)
    ensures t.messages == s.messages + p.messages
    ensures t.currentIntent == (if p.currentIntent.Some? then p.currentIntent else s.currentIntent)
    ensures t.nextAgent == (if p.nextAgent.Some? then p.nextAgent else s.nextAgent)
    ensures t.weakPoints == (if p.weakPoints.Some? then p.weakPoints else s.weakPoints)
    ensures t.generatedSchedule == (if p.generatedSchedule.Some? then p.generatedSchedule else s.generatedSchedule)
  {
    s.(messages := s.messages + p.messages,
       currentIntent := Override(s.currentIntent, p.currentIntent),
       nextAgent := Override(s.nextAgent, p.nextAgent),
       weakPoints := Override(s.weakPoints, p.weakPoints),
       generatedSchedule := Override(s.generatedSchedule, p.generatedSchedule))
  }

  /** The value a key ends with: the patch's when it holds the key, the old one otherwise. */
  function Override<T>(current: Option<T>, patched: Option<T>): Option<T> {
    if patched.Some? then patched else current
  }

  /** Merging a patch changes no key the patch cannot hold. */
  lemma ApplyKeepsOtherKeys(s: State, p: Patch)
    ensures var t := Apply(s, p);
            && t.userId == s.userId && t.currentTopic == s.currentTopic
            && t.schedulePlan == s.schedulePlan && t.workflowComplete == s.workflowComplete
            && t.sessionMode == s.sessionMode && t.tutorSessionActive == s.tutorSessionActive
            && t.analysisResults == s.analysisResults && t.sessionAnalysis == s.sessionAnalysis
            && t.userWantsScheduling == s.userWantsScheduling && t.needsMotivation == s.needsMotivation
            && t.startTutorAfterSchedule == s.startTutorAfterSchedule
            && t.readyForTutoring == s.readyForTutoring && t.tutorExitRequested == s.tutorExitRequested
            && t.awaitingScheduleConfirmation == s.awaitingScheduleConfirmation
            && t.awaitingScheduleDetails == s.awaitingScheduleDetails
            && t.pendingScheduleRequest == s.pendingScheduleRequest && t.ragPipeline == s.ragPipeline
            && t.userProfile == s.userProfile && t.currentAgentAvatar == s.currentAgentAvatar
  {
  }

  /** The empty patch changes nothing. */
  lemma ApplyEmpty(s: State)
    ensures Apply(s, Patch([], None, None, None, None)) == s
  {
    assert s.messages + [] == s.messages;
  }

  /** Two patches in a row act as one: the messages of both in order, and the later value of
      each other key. */
  lemma ApplyTwice(s: State, p: Patch, q: Patch)
    ensures Apply(Apply(s, p), q) == Apply(s, Patch(
              p.messages + q.messages,
              if q.currentIntent.Some? then q.currentIntent else p.currentIntent,
              if q.nextAgent.Some? then q.nextAgent else p.nextAgent,
              if q.weakPoints.Some? then q.weakPoints else p.weakPoints,
              if q.generatedSchedule.Some? then q.generatedSchedule else p.generatedSchedule))
  {
    assert s.messages + p.messages + q.messages == s.messages + (p.messages + q.messages);
  }
}
