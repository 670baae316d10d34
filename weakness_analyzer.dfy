/** Weak points found in a tutoring session and the recommendations built from them,
    with their dictionary form (`to_dict` / `from_dict`) for serialisation. */
module WeaknessAnalyzer {
  import opened Wrappers
  import opened DateTimes

  /** A topic the student struggled with. `difficultyLevel` is meant to be "mild", "moderate"
      or "severe", but nothing checks it, so any label can occur. */
  datatype WeakPoint = WeakPoint(
    topic: string,
    difficultyLevel: string,
    evidence: seq<string>,
    frequency: int,
    confusionIndicators: int)

  datatype SessionRecommendations = SessionRecommendations(
    weakPoints: seq<WeakPoint>,
    priorityTopics: seq<string>,
    suggestedFocusTime: map<string, int>,
    studyApproachTips: seq<string>,
    sessionSummary: string,
    timestamp: DateTime)

  /** A decoded weak-point dictionary: `None` is a key that is absent. */
  datatype WeakPointDict = WeakPointDict(
    topic: Option<string>,
    difficultyLevel: Option<string>,
    evidence: Option<seq<string>>,
    frequency: Option<int>,
    confusionIndicators: Option<int>)

  /** What a `timestamp` key can hold: ISO text, or a datetime object already. */
  datatype TimestampValue = IsoText(text: string) | DateTimeObject(dt: DateTime)

  /** A decoded recommendations dictionary; `timestamp == None` covers both an absent key and `null`. */
  datatype RecommendationsDict = RecommendationsDict(
    weakPoints: Option<seq<WeakPointDict>>,
    priorityTopics: Option<seq<string>>,
    suggestedFocusTime: Option<map<string, int>>,
    studyApproachTips: Option<seq<string>>,
    sessionSummary: Option<string>,
    timestamp: Option<TimestampValue>)

  function WeakPointToDict(wp: WeakPoint): WeakPointDict {
    WeakPointDict(Some(wp.topic), Some(wp.difficultyLevel), Some(wp.evidence), Some(wp.frequency),
                  Some(wp.confusionIndicators))
  }

  /** `SessionRecommendations.to_dict`: every key present, the timestamp as ISO text. */
  function ToDict(r: SessionRecommendations): (d: RecommendationsDict)
    ensures d.weakPoints.Some? && |d.weakPoints.value| == |r.weakPoints|
    ensures d.timestamp == Some(IsoText(IsoFormat(r.timestamp)))
  {
    RecommendationsDict(
      Some(seq(|r.weakPoints|, i requires 0 <= i < |r.weakPoints| => WeakPointToDict(r.weakPoints[i]))),
      Some(r.priorityTopics), Some(r.suggestedFocusTime), Some(r.studyApproachTips),
      Some(r.sessionSummary), Some(IsoText(IsoFormat(r.timestamp))))
  }

  /** A weak point built from its dictionary, each absent key replaced by its default:
      topic "unknown", level "mild", no evidence, frequency 1, no confusion indicators. */
  function WeakPointOf(d: WeakPointDict): (wp: WeakPoint)
    ensures wp.topic == d.topic.GetOr("unknown")
    ensures wp.difficultyLevel == d.difficultyLevel.GetOr("mild")
    ensures wp.evidence == d.evidence.GetOr([])
    ensures wp.frequency == d.frequency.GetOr(1)
    ensures wp.confusionIndicators == d.confusionIndicators.GetOr(0)
  {
    WeakPoint(d.topic.GetOr("unknown"), d.difficultyLevel.GetOr("mild"), d.evidence.GetOr([]),
              d.frequency.GetOr(1), d.confusionIndicators.GetOr(0))
  }

  /** The weak points of a decoded list, one for one and in order. */
  function WeakPointsOf(ds: seq<WeakPointDict>): (wps: seq<WeakPoint>)
    ensures |wps| == |ds|
    ensures forall i :: 0 <= i < |ds| ==> wps[i] == WeakPointOf(ds[i])
  {
    seq(|ds|, i requires 0 <= i < |ds| => WeakPointOf(ds[i]))
  }

  /** The timestamp `from_dict` settles on: parsed ISO text, a datetime kept as it is, or `now`
      (the value of `utcnow()`) when there is none. */
  function TimestampOf(t: Option<TimestampValue>, now: DateTime): Result<DateTime, IsoError> {
    match t
    case None => Ok(now)
    case Some(IsoText(text)) => FromIsoFormat(text)
    case Some(DateTimeObject(dt)) => Ok(dt)
  }

  /** The recommendations `from_dict` builds: the weak points one for one, every other absent key
      empty, and a failure exactly when the timestamp is text that is not ISO. */
  function Recommendations(data: RecommendationsDict, now: DateTime): (r: Result<SessionRecommendations, IsoError>)
    ensures r.Err? <==> data.timestamp.Some? && data.timestamp.value.IsoText?
                        && FromIsoFormat(data.timestamp.value.text).Err?
    ensures r.Ok? ==> r.value.weakPoints == WeakPointsOf(data.weakPoints.GetOr([]))
    ensures r.Ok? ==> && r.value.priorityTopics == data.priorityTopics.GetOr([])
                      && r.value.suggestedFocusTime == data.suggestedFocusTime.GetOr(map[])
                      && r.value.studyApproachTips == data.studyApproachTips.GetOr([])
                      && r.value.sessionSummary == data.sessionSummary.GetOr("")
    ensures r.Ok? && data.timestamp.None? ==> r.value.timestamp == now
  {
    var ts :- TimestampOf(data.timestamp, now);
    Ok(SessionRecommendations(WeakPointsOf(data.weakPoints.GetOr([])), data.priorityTopics.GetOr([]),
                              data.suggestedFocusTime.GetOr(map[]), data.studyApproachTips.GetOr([]),
                              data.sessionSummary.GetOr(""), ts))
  }

  /** `SessionRecommendations.from_dict`, with its loop over the weak-point dictionaries. */
  method FromDict(data: RecommendationsDict, now: DateTime) returns (r: Result<SessionRecommendations, IsoError>)
    ensures r == Recommendations(data, now)
  {
    var ds := data.weakPoints.GetOr([]);
    var weakPoints: seq<WeakPoint> := [];
    var i := 0;
    while i < |ds|
      invariant 0 <= i <= |ds|
      invariant weakPoints == WeakPointsOf(ds[..i])
    {
      weakPoints := weakPoints + [WeakPointOf(ds[i])];
      i := i + 1;
    }
    assert ds[..i] == ds;
    var ts := TimestampOf(data.timestamp, now);
    if ts.Err? {
      return Err(ts.error);
    }
    r := Ok(SessionRecommendations(weakPoints, data.priorityTopics.GetOr([]),
                                   data.suggestedFocusTime.GetOr(map[]), data.studyApproachTips.GetOr([]),
                                   data.sessionSummary.GetOr(""), ts.value));
  }

  /** `from_dict(to_dict(r)) == r`, whatever the current time. */
  lemma {:induction false} FromDictToDict(r: SessionRecommendations, now: DateTime)
    ensures Recommendations(ToDict(r), now) == Ok(r)
  {
    IsoRoundTrip(r.timestamp);
    var wps := WeakPointsOf(ToDict(r).weakPoints.value);
    assert wps == r.weakPoints by {
      forall i | 0 <= i < |r.weakPoints| ensures wps[i] == r.weakPoints[i] {
        assert ToDict(r).weakPoints.value[i] == WeakPointToDict(r.weakPoints[i]);
      }
    }
  }
}
