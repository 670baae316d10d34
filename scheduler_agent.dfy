/** The scheduler agent itself: `generate_schedule`, which turns the conversational context and
    the tutor's recommendations into preferences and a Pomodoro plan, and `sync_schedule`, which
    hands the study blocks to a calendar connector. */
module Scheduler {
  import opened Wrappers
  import opened JsonValues
  import opened DateTimes
  import opened WeaknessAnalyzer
  import opened SchedulerClock
  import opened SchedulerPreferences
  import opened SchedulerPlan
  import opened SchedulerPriority

  const DefaultPomodoroMinutes: int := 25
  const DefaultBreakMinutes: int := 5

  /** The keys of the context dictionary the agent reads; `None` is an absent key. */
  datatype Context = Context(userInput: Option<string>, preferencesText: Option<string>, topic: Option<string>)

  /** `context.get("user_input") or context.get("preferences_text")` */
  function UserInput(ctx: Context): (u: Option<string>)
    ensures Truthy(u) <==> Truthy(ctx.userInput) || Truthy(ctx.preferencesText)
    ensures Truthy(ctx.userInput) ==> u == ctx.userInput
  {
    if Truthy(ctx.userInput) then ctx.userInput else ctx.preferencesText
  }

  const MissingInputMessage: string := "Context must include 'user_input' describing availability and subjects."

  /** The recommendations argument: absent, a recommendations object, or its dictionary form. */
  datatype RecommendationsInput =
    | NoRecommendations
    | RecommendationsObject(recs: SessionRecommendations)
    | RecommendationsMap(data: RecommendationsDict)

  /** The topics of some weak points. */
  function TopicSet(wps: seq<WeakPoint>): set<string> {
    set wp | wp in wps :: wp.topic
  }

  /** `_dict_to_recommendations`: the weak points with their defaults, the first five topics as the
      priority, 15 minutes for each topic, and defaults for the tips and summary. Keys of the
      dictionary other than these are ignored, and the timestamp is the current time. */
  function DictToRecommendations(data: RecommendationsDict, now: DateTime): (r: SessionRecommendations)
    ensures r.weakPoints == WeakPointsOf(data.weakPoints.GetOr([]))
    ensures |r.priorityTopics| == (if |r.weakPoints| < 5 then |r.weakPoints| else 5)
    ensures forall i :: 0 <= i < |r.priorityTopics| ==> r.priorityTopics[i] == r.weakPoints[i].topic
    ensures forall t :: t in r.suggestedFocusTime <==> exists i :: 0 <= i < |r.weakPoints| && r.weakPoints[i].topic == t
    ensures forall t :: t in r.suggestedFocusTime ==> r.suggestedFocusTime[t] == 15
    ensures r.studyApproachTips == data.studyApproachTips.GetOr([])
    ensures r.sessionSummary == data.sessionSummary.GetOr("Session analyzed")
    ensures r.timestamp == now
  {
    var wps := WeakPointsOf(data.weakPoints.GetOr([]));
    var first := if |wps| < 5 then wps else wps[..5];
    SessionRecommendations(
      wps,
      seq(|first|, i requires 0 <= i < |first| => first[i].topic),
      map t | t in TopicSet(wps) :: 15,
      data.studyApproachTips.GetOr([]),
      data.sessionSummary.GetOr("Session analyzed"),
      now)
  }

  /** `_dict_to_recommendations`, with its loop over the weak-point dictionaries. */
  method BuildRecommendations(data: RecommendationsDict, now: DateTime) returns (r: SessionRecommendations)
    ensures r == DictToRecommendations(data, now)
  {
    var ds := data.weakPoints.GetOr([]);
    var wps: seq<WeakPoint> := [];
    for i := 0 to |ds|
      invariant wps == WeakPointsOf(ds[..i])
    {
      wps := wps + [WeakPointOf(ds[i])];
    }
    assert ds[..|ds|] == ds;
    var first := if |wps| < 5 then wps else wps[..5];
    r := SessionRecommendations(
      wps,
      seq(|first|, i requires 0 <= i < |first| => first[i].topic),
      map t | t in TopicSet(wps) :: 15,
      data.studyApproachTips.GetOr([]),
      data.sessionSummary.GetOr("Session analyzed"),
      now);
  }

  /** The recommendations an argument stands for, a dictionary converted at time `now`. */
  function RecommendationsOf(rec: RecommendationsInput, now: DateTime): Option<SessionRecommendations> {
    match rec
    case NoRecommendations => None
    case RecommendationsObject(r) => Some(r)
    case RecommendationsMap(d) => Some(DictToRecommendations(d, now))
  }

  /** Whether there are recommendations with at least one weak point. */
  predicate HasWeakPoints(recs: Option<SessionRecommendations>) {
    recs.Some? && |recs.value.weakPoints| > 0
  }

  /** The schedule dictionary: the preferences, the plan, and whether weak points shaped it. */
  datatype Schedule = Schedule(preferences: Preferences, sessions: seq<Session>, basedOnWeakPoints: bool)

  /** `generate_schedule` once the model is settled: the input check, the preferences, then
      the rest of the schedule. */
  function ScheduleFor(ctx: Context, llm: Option<Llm>, decode: string -> Option<Json>, scan: string -> TimeMatches,
                       markers: string -> seq<string>, rec: RecommendationsInput, now: DateTime,
                       pomodoro: int, break_: int): (r: Result<Schedule, SchedulerError>)
    requires pomodoro + break_ > 0
    ensures !Truthy(ctx.userInput) && !Truthy(ctx.preferencesText) ==> r == Err(ValueError(MissingInputMessage))
  {
    var input := UserInput(ctx);
    if !Truthy(input) then Err(ValueError(MissingInputMessage))
    else ScheduleFrom(CollectPreferences(input.value, llm, decode, ctx.topic, scan, markers),
                      RecommendationsOf(rec, now), pomodoro, break_)
  }

  /** The schedule from the collected preferences: the prioritisation when there are weak points,
      and the plan. */
  function ScheduleFrom(collected: Result<Preferences, SchedulerError>, recs: Option<SessionRecommendations>,
                        pomodoro: int, break_: int): Result<Schedule, SchedulerError>
    requires pomodoro + break_ > 0
  {
    var collected :- collected;
    var preferences := if HasWeakPoints(recs) then Prioritized(collected, recs.value.weakPoints) else collected;
    var sessions :- PomodoroPlan(preferences.startTime, preferences.endTime, pomodoro, break_, preferences.subjects);
    Ok(Schedule(preferences, sessions, HasWeakPoints(recs)))
  }

  /** A schedule that is produced holds the collected preferences, prioritised exactly when there
      are weak points (and then it says so), and a plan of their window over their subjects. */
  lemma ScheduleOutcome(collected: Result<Preferences, SchedulerError>, recs: Option<SessionRecommendations>,
                        pomodoro: int, break_: int)
    requires pomodoro + break_ > 0
    ensures var r := ScheduleFrom(collected, recs, pomodoro, break_);
            r.Ok? ==>
              var s := r.value;
              && collected.Ok?
              && (s.basedOnWeakPoints <==> recs.Some? && |recs.value.weakPoints| > 0)
              && (s.basedOnWeakPoints ==> s.preferences == Prioritized(collected.value, recs.value.weakPoints))
              && (!s.basedOnWeakPoints ==> s.preferences == collected.value)
              && |s.sessions| > 0
              && ParseClock(s.preferences.startTime).Ok? && ParseClock(s.preferences.endTime).Ok?
              && IsPlan(s.sessions, ParseClock(s.preferences.startTime).value, ParseClock(s.preferences.endTime).value,
                        pomodoro, break_, s.preferences.subjects, 0)
  {
    var r := ScheduleFrom(collected, recs, pomodoro, break_);
    if r.Ok? {
      var p := if HasWeakPoints(recs) then Prioritized(collected.value, recs.value.weakPoints) else collected.value;
      var plan := PomodoroPlan(p.startTime, p.endTime, pomodoro, break_, p.subjects);
      assert plan.Ok? && r.value == Schedule(p, plan.value, HasWeakPoints(recs));
      PomodoroPlanOutcome(p.startTime, p.endTime, pomodoro, break_, p.subjects);
    }
  }

  /** The recommendations argument converted, a dictionary by `BuildRecommendations`. */
  method BuildRecommendationsOf(rec: RecommendationsInput, now: DateTime) returns (recs: Option<SessionRecommendations>)
    ensures recs == RecommendationsOf(rec, now)
  {
    match rec {
      case NoRecommendations => recs := None;
      case RecommendationsObject(x) => recs := Some(x);
      case RecommendationsMap(d) => var x := BuildRecommendations(d, now); recs := Some(x);
    }
  }

  /** The rest of `generate_schedule` after the preferences: prioritising by the weak points when
      there are any, then the plan built by its loop. */
  method BuildSchedule(collected: Result<Preferences, SchedulerError>, recs: Option<SessionRecommendations>,
                       pomodoro: int, break_: int) returns (r: Result<Schedule, SchedulerError>)
    requires pomodoro + break_ > 0
    ensures r == ScheduleFrom(collected, recs, pomodoro, break_)
  {
    if collected.Err? {
      return Err(collected.error);
    }
    var preferences := collected.value;
    if HasWeakPoints(recs) {
      preferences := PrioritizeWeakTopics(preferences, recs.value.weakPoints);
    }
    var sessions := BuildPomodoroPlan(preferences.startTime, preferences.endTime, pomodoro, break_,
                                      preferences.subjects);
    if sessions.Err? {
      return Err(sessions.error);
    }
    r := Ok(Schedule(preferences, sessions.value, HasWeakPoints(recs)));
  }

  /** The collected preferences always carry notes and subjects, so a produced schedule does; the
      `%` by the number of subjects never fails, and a failure is a ValueError or, for a time
      that is not text, a TypeError. */
  lemma ScheduleWellFormed(ctx: Context, llm: Option<Llm>, decode: string -> Option<Json>,
                           scan: string -> TimeMatches, markers: string -> seq<string>,
                           rec: RecommendationsInput, now: DateTime, pomodoro: int, break_: int)
    requires pomodoro + break_ > 0
    ensures var r := ScheduleFor(ctx, llm, decode, scan, markers, rec, now, pomodoro, break_);
            && (r.Err? ==> r.error.ValueError? || r.error.TypeError?)
            && (r.Ok? ==> r.value.preferences.notes.Some? && |r.value.preferences.subjects| > 0)
  {
    var input := UserInput(ctx);
    if Truthy(input) {
      CollectOutcome(input.value, llm, decode, ctx.topic, scan, markers);
      ScheduleFromWellFormed(CollectPreferences(input.value, llm, decode, ctx.topic, scan, markers),
                             RecommendationsOf(rec, now), pomodoro, break_);
    }
  }

  lemma ScheduleFromWellFormed(collected: Result<Preferences, SchedulerError>, recs: Option<SessionRecommendations>,
                               pomodoro: int, break_: int)
    requires pomodoro + break_ > 0
    requires collected.Ok? ==> collected.value.notes.Some? && |collected.value.subjects| > 0
    requires collected.Err? ==> collected.error.ValueError?
    ensures var r := ScheduleFrom(collected, recs, pomodoro, break_);
            && (r.Err? ==> r.error.ValueError? || r.error.TypeError?)
            && (r.Ok? ==> r.value.preferences.notes.Some? && |r.value.preferences.subjects| > 0)
  {
    if collected.Ok? {
      PrioritizeKeepsSubjects(collected.value, recs);
      var preferences := if HasWeakPoints(recs) then Prioritized(collected.value, recs.value.weakPoints) else collected.value;
      PlanNeedsNoDivisionByZero(preferences.startTime, preferences.endTime, pomodoro, break_, preferences.subjects);
    }
  }

  /** Prioritising keeps a non-empty subject list non-empty. */
  lemma PrioritizeKeepsSubjects(p: Preferences, recs: Option<SessionRecommendations>)
    requires |p.subjects| > 0
    ensures HasWeakPoints(recs) ==> |Prioritized(p, recs.value.weakPoints).subjects| > 0
  {
    if HasWeakPoints(recs) {
      PrioritizedNonEmpty(p, recs.value.weakPoints);
    }
  }

  /** A plan over subjects that are there never fails by division: only a time it cannot read or a
      window it cannot fill stops it. */
  lemma PlanNeedsNoDivisionByZero(startTime: Json, endTime: Json, pomodoro: int, break_: int, subjects: seq<string>)
    requires pomodoro + break_ > 0 && |subjects| > 0
    ensures var r := PomodoroPlan(startTime, endTime, pomodoro, break_, subjects);
            r.Err? ==> r.error.ValueError? || r.error.TypeError?
  {
  }

  /** The study blocks of a plan, in order; breaks are skipped. */
  function StudySessions(sessions: seq<Session>): (ss: seq<Session>)
    ensures |ss| <= |sessions|
    decreases |sessions|
  {
    if sessions == [] then []
    else
      var last := sessions[|sessions| - 1];
      StudySessions(sessions[..|sessions| - 1]) + if last.Study? then [last] else []
  }

  /** One more session adds itself to the study blocks when it is one. */
  lemma StudySessionsStep(sessions: seq<Session>, i: nat)
    requires i < |sessions|
    ensures sessions[i].Study? ==> StudySessions(sessions[..i + 1]) == StudySessions(sessions[..i]) + [sessions[i]]
    ensures !sessions[i].Study? ==> StudySessions(sessions[..i + 1]) == StudySessions(sessions[..i])
  {
    assert sessions[..i + 1][..i] == sessions[..i];
  }

  /** The study blocks are exactly the sessions that are study blocks. */
  lemma {:induction false} StudySessionsMembers(sessions: seq<Session>)
    ensures forall s :: s in StudySessions(sessions) <==> s in sessions && s.Study?
    decreases |sessions|
  {
    if sessions != [] {
      var init := sessions[..|sessions| - 1];
      StudySessionsMembers(init);
      assert sessions == init + [sessions[|sessions| - 1]];
    }
  }

  /** The study blocks the connector accepts, in order. */
  function Accepted(sessions: seq<Session>, fails: Session -> bool): (ss: seq<Session>)
    ensures |ss| <= |sessions|
    decreases |sessions|
  {
    if sessions == [] then []
    else
      var last := sessions[|sessions| - 1];
      Accepted(sessions[..|sessions| - 1], fails) + if fails(last) then [] else [last]
  }

  lemma AcceptedSnoc(sessions: seq<Session>, s: Session, fails: Session -> bool)
    ensures Accepted(sessions + [s], fails) == Accepted(sessions, fails) + if fails(s) then [] else [s]
  {
    assert (sessions + [s])[..|sessions|] == sessions;
  }

  /** Every session the connector did not reject is created: one failure does not stop the rest. */
  lemma {:induction false} AcceptedMembers(sessions: seq<Session>, fails: Session -> bool)
    ensures forall s :: s in Accepted(sessions, fails) <==> s in sessions && !fails(s)
    decreases |sessions|
  {
    if sessions != [] {
      var init := sessions[..|sessions| - 1];
      AcceptedMembers(init, fails);
      assert sessions == init + [sessions[|sessions| - 1]];
    }
  }

  /** A calendar connector that records the study blocks it is asked to create. `fails` says which
      requests raise; the event payload built from a session is not part of this model. */
  class CalendarConnector {
    const fails: Session -> bool
    var requested: seq<Session>
    var created: seq<Session>

    constructor(fails: Session -> bool)
      ensures this.fails == fails && requested == [] && created == []
    {
      this.fails := fails;
      requested := [];
      created := [];
    }

    /** `create_event`: the request is recorded, and the event is created unless it fails. */
    method CreateEvent(s: Session) returns (ok: bool)
      modifies this
      ensures ok == !fails(s)
      ensures requested == old(requested) + [s]
      ensures created == old(created) + if ok then [s] else []
    {
      requested := requested + [s];
      ok := !fails(s);
      if ok {
        created := created + [s];
      }
    }
  }

  /** The agent: its model (settled on first use), the block lengths, the optional connector and
      the last schedule it produced or synchronised. */
  class SchedulerAgent {
    var llm: Option<Llm>
    const pomodoroMinutes: int
    const breakMinutes: int
    const connector: CalendarConnector?
    var lastSchedule: Option<Schedule>

    constructor(llm: Option<Llm>, pomodoroMinutes: int, breakMinutes: int, connector: CalendarConnector?)
      ensures this.llm == llm && this.pomodoroMinutes == pomodoroMinutes && this.breakMinutes == breakMinutes
      ensures this.connector == connector && lastSchedule.None?
    {
      this.llm := llm;
      this.pomodoroMinutes := pomodoroMinutes;
      this.breakMinutes := breakMinutes;
      this.connector := connector;
      lastSchedule := None;
    }

    /** `_ensure_llm`: keep the model, or take the one `factory` builds (`None` when building it
        fails). */
    method EnsureLlm(factory: Option<Llm>) returns (m: Option<Llm>)
      modifies this
      ensures llm == (if old(llm).Some? then old(llm) else factory) && m == llm
      ensures lastSchedule == old(lastSchedule)
    {
      if llm.None? {
        llm := factory;
      }
      m := llm;
    }

    /** `generate_schedule`: the schedule of `ScheduleFor` with the settled model, remembered as the
        last schedule when it is produced. Without an input the model is not touched. */
    method GenerateSchedule(ctx: Context, rec: RecommendationsInput, factory: Option<Llm>,
                            decode: string -> Option<Json>, scan: string -> TimeMatches,
                            markers: string -> seq<string>, now: DateTime) returns (r: Result<Schedule, SchedulerError>)
      requires pomodoroMinutes + breakMinutes > 0
      modifies this
      ensures llm == if Truthy(UserInput(ctx)) && old(llm).None? then factory else old(llm)
      ensures r == ScheduleFor(ctx, llm, decode, scan, markers, rec, now, pomodoroMinutes, breakMinutes)
      ensures lastSchedule == if r.Ok? then Some(r.value) else old(lastSchedule)
    {
      var input := UserInput(ctx);
      if !Truthy(input) {
        return Err(ValueError(MissingInputMessage));
      }
      var model := EnsureLlm(factory);
      var collected := CollectPreferences(input.value, model, decode, ctx.topic, scan, markers);
      var recs := BuildRecommendationsOf(rec, now);
      r := BuildSchedule(collected, recs, pomodoroMinutes, breakMinutes);
      if r.Ok? {
        lastSchedule := Some(r.value);
      }
    }

    /** `sync_schedule`: remember the schedule, then, when there is a connector, ask it for one event
        per study block in order, carrying on past the ones that fail. */
    method SyncSchedule(schedule: Schedule)
      modifies this, connector
      ensures lastSchedule == Some(schedule) && llm == old(llm)
      ensures connector != null ==>
                && connector.requested == old(connector.requested) + StudySessions(schedule.sessions)
                && connector.created == old(connector.created) + Accepted(StudySessions(schedule.sessions), connector.fails)
    {
      lastSchedule := Some(schedule);
      if connector == null {
        return;
      }
      var sessions := schedule.sessions;
      var c := connector;
      for i := 0 to |sessions|
        invariant lastSchedule == Some(schedule) && llm == old(llm)
        invariant c.requested == old(c.requested) + StudySessions(sessions[..i])
        invariant c.created == old(c.created) + Accepted(StudySessions(sessions[..i]), c.fails)
      {
        var before := StudySessions(sessions[..i]);
        StudySessionsStep(sessions, i);
        if sessions[i].Study? {
          var _ := c.CreateEvent(sessions[i]);
          AcceptedSnoc(before, sessions[i], c.fails);
        }
      }
      assert sessions[..|sessions|] == sessions;
    }
  }
}
