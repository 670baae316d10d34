/** The learner's profile that guides motivational messages: its attributes and defaults, the
    progress log that keeps only the most recent events, and the store that keeps one profile per
    file name derived from the user id. The files are a map from path to the saved record. */
module UserProfiles {
  import opened Wrappers
  import opened Strings
  import opened DateTimes

  datatype Category = Win | Struggle | Burnout | Milestone | Checkpoint | Custom

  datatype Sentiment = Positive | Neutral | Negative

  /** `UserProgressEvent`; the default timestamp, the current time, is the caller's value. */
  datatype ProgressEvent = ProgressEvent(timestamp: DateTime, category: Category, summary: string,
                                         details: Option<string>, sentiment: Option<Sentiment>)

  /** The values a `UserProfile` holds, as saved in its file. */
  datatype ProfileRecord = ProfileRecord(
    userId: string,
    name: string,
    primaryPersona: string,
    preferredPersonas: seq<string>,
    academicField: Option<string>,
    studyTopics: seq<string>,
    goals: seq<string>,
    traits: seq<string>,
    progressLog: seq<ProgressEvent>,
    currentFocus: Option<string>,
    lastMotivationAt: Option<DateTime>)

  const DefaultPersona: string := "default"

  /** The most events the progress log keeps. */
  const LogLimit: nat := 50

  /** A profile given only its id and name: the default persona, every list empty, every optional
      value absent. */
  function DefaultProfile(userId: string, name: string): (r: ProfileRecord)
    ensures r.userId == userId && r.name == name && r.primaryPersona == DefaultPersona
    ensures r.preferredPersonas == r.studyTopics == r.goals == r.traits == [] && r.progressLog == []
    ensures r.academicField == r.currentFocus == None && r.lastMotivationAt == None
  {
    ProfileRecord(userId, name, DefaultPersona, [], None, [], [], [], [], None, None)
  }

  /** The log `register_event` keeps: its last `LogLimit` events. */
  function Recent(log: seq<ProgressEvent>): seq<ProgressEvent> {
    if |log| > LogLimit then log[|log| - LogLimit..] else log
  }

  /** The kept log is bounded, is the tail of the whole log, and is all of it while within the
      bound. */
  lemma RecentIsBoundedTail(log: seq<ProgressEvent>)
    ensures |Recent(log)| <= LogLimit && |Recent(log)| == SliceCount(|log|, LogLimit)
    ensures Recent(log) == log[|log| - |Recent(log)|..]
    ensures |log| <= LogLimit ==> Recent(log) == log
  {
  }

  /** The log after registering `events` one after the other. */
  function RegisterAll(log: seq<ProgressEvent>, events: seq<ProgressEvent>): seq<ProgressEvent>
    decreases |events|
  {
    if events == [] then log else RegisterAll(Recent(log + [events[0]]), events[1..])
  }

  /** Keeping the recent part at every step keeps the recent part of the whole: after at least one
      registration the log is the last `LogLimit` events of the old log and the new ones. */
  lemma {:induction false} RegisterAllIsRecent(log: seq<ProgressEvent>, events: seq<ProgressEvent>)
    requires events != []
    ensures RegisterAll(log, events) == Recent(log + events)
    decreases |events|
  {
    var first := Recent(log + [events[0]]);
    if |events| == 1 {
      assert log + events == log + [events[0]];
    } else {
      RegisterAllIsRecent(first, events[1..]);
      RecentOfRecent(log + [events[0]], events[1..]);
      assert log + [events[0]] + events[1..] == log + events;
    }
  }

  /** Cutting the front of a log before appending keeps the same last `LogLimit` events. */
  lemma RecentOfRecent(log: seq<ProgressEvent>, more: seq<ProgressEvent>)
    ensures Recent(Recent(log) + more) == Recent(log + more)
  {
    if |log| > LogLimit {
      var cut := |log| - LogLimit;
      assert log + more == log[..cut] + (Recent(log) + more);
    }
  }

  /** `UserProfile`: the attributes of one learner, updated in place. */
  class UserProfile {
    var userId: string
    var name: string
    var primaryPersona: string
    var preferredPersonas: seq<string>
    var academicField: Option<string>
    var studyTopics: seq<string>
    var goals: seq<string>
    var traits: seq<string>
    var progressLog: seq<ProgressEvent>
    var currentFocus: Option<string>
    var lastMotivationAt: Option<DateTime>

    /** The profile's values. */
    function Record(): ProfileRecord
      reads this
    {
      ProfileRecord(userId, name, primaryPersona, preferredPersonas, academicField, studyTopics, goals,
                    traits, progressLog, currentFocus, lastMotivationAt)
    }

    /** A profile holding the given values (what the keyword arguments and defaults give). */
    constructor(r: ProfileRecord)
      ensures Record() == r
    {
      userId := r.userId;
      name := r.name;
      primaryPersona := r.primaryPersona;
      preferredPersonas := r.preferredPersonas;
      academicField := r.academicField;
      studyTopics := r.studyTopics;
      goals := r.goals;
      traits := r.traits;
      progressLog := r.progressLog;
      currentFocus := r.currentFocus;
      lastMotivationAt := r.lastMotivationAt;
    }

    /** `register_event`: the event is appended and the log cut to its last `LogLimit` events, so
        the event is always the last one kept. Nothing else changes. */
    method RegisterEvent(event: ProgressEvent)
      modifies this
      ensures Record() == old(Record()).(progressLog := Recent(old(progressLog) + [event]))
      ensures |progressLog| <= LogLimit && progressLog[|progressLog| - 1] == event
      ensures |old(progressLog)| < LogLimit ==> progressLog == old(progressLog) + [event]
    {
      progressLog := progressLog + [event];
      if |progressLog| > LogLimit {
        progressLog := progressLog[|progressLog| - LogLimit..];
      }
      RecentIsBoundedTail(old(progressLog) + [event]);
    }
  }

  /** `_path_for`'s file-name part: every "/" of the id replaced by "_". */
  function SafeId(userId: string): (safe: string)
    ensures |safe| == |userId|
    ensures forall i :: 0 <= i < |safe| ==> safe[i] != '/'
    ensures forall i :: 0 <= i < |safe| ==> safe[i] == (if userId[i] == '/' then '_' else userId[i])
  {
    ReplaceChar(userId, '/', '_')
  }

  /** An id with no "/" is its own file-name part. */
  lemma SafeIdKeepsPlainIds(userId: string)
    requires forall i :: 0 <= i < |userId| ==> userId[i] != '/'
    ensures SafeId(userId) == userId
  {
  }

  /** Two ids share a file exactly when they agree everywhere except where one has "/" and the
      other "_"; so "a/b" and "a_b" are saved to the same file. */
  lemma SafeIdCollision(a: string, b: string)
    ensures SafeId(a) == SafeId(b) <==>
              |a| == |b| && forall i :: 0 <= i < |a| ==> (a[i] == b[i] || (a[i] in "/_" && b[i] in "/_"))
    ensures SafeId("a/b") == SafeId("a_b")
  {
    if |a| == |b| && forall i :: 0 <= i < |a| ==> (a[i] == b[i] || (a[i] in "/_" && b[i] in "/_")) {
      assert forall i :: 0 <= i < |a| ==> SafeId(a)[i] == SafeId(b)[i];
    }
    if SafeId(a) == SafeId(b) {
      forall i | 0 <= i < |a|
        ensures a[i] == b[i] || (a[i] in "/_" && b[i] in "/_")
      {
        assert SafeId(a)[i] == SafeId(b)[i];
      }
    }
  }

  /** `_path_for`: the store's directory, then the id's file name. */
  function PathFor(root: string, userId: string): string {
    root + "/" + SafeId(userId) + ".json"
  }

  /** Two ids have the same path exactly when they have the same file-name part. */
  lemma PathForSameFile(root: string, a: string, b: string)
    ensures PathFor(root, a) == PathFor(root, b) <==> SafeId(a) == SafeId(b)
  {
    var pa, pb := PathFor(root, a), PathFor(root, b);
    if pa == pb {
      assert SafeId(a) == pa[|root| + 1..|pa| - 5];
      assert SafeId(b) == pb[|root| + 1..|pb| - 5];
    }
  }

  const NotFoundPrefix: string := "Profile file not found: "

  /** `load` over the files: the saved record, or not-found naming the path. */
  function LoadFrom(files: map<string, ProfileRecord>, root: string, userId: string): Result<ProfileRecord, string> {
    var path := PathFor(root, userId);
    if path in files then Ok(files[path]) else Err(NotFoundPrefix + path)
  }

  /** `save` over the files: the record replaces whatever its id's file held. */
  function SaveTo(files: map<string, ProfileRecord>, root: string, r: ProfileRecord): map<string, ProfileRecord> {
    files[PathFor(root, r.userId) := r]
  }

  /** Loading after saving gives back the saved record; any id whose file differs is unaffected. */
  lemma LoadAfterSave(files: map<string, ProfileRecord>, root: string, r: ProfileRecord, userId: string)
    ensures LoadFrom(SaveTo(files, root, r), root, r.userId) == Ok(r)
    ensures SafeId(userId) != SafeId(r.userId) ==>
              LoadFrom(SaveTo(files, root, r), root, userId) == LoadFrom(files, root, userId)
    ensures SafeId(userId) == SafeId(r.userId) ==> LoadFrom(SaveTo(files, root, r), root, userId) == Ok(r)
  {
    PathForSameFile(root, userId, r.userId);
  }

  /** Loading an id whose file is absent fails with not-found. */
  lemma LoadMissing(files: map<string, ProfileRecord>, root: string, userId: string)
    requires PathFor(root, userId) !in files
    ensures LoadFrom(files, root, userId) == Err(NotFoundPrefix + PathFor(root, userId))
  {
  }

  /** `UserProfileStore`: the directory and the profile files it holds. */
  class UserProfileStore {
    const root: string
    var files: map<string, ProfileRecord>

    constructor(root: string, files: map<string, ProfileRecord>)
      ensures this.root == root && this.files == files
    {
      this.root := root;
      this.files := files;
    }

    /** `load`: a new profile holding the saved values, or not-found. */
    method Load(userId: string) returns (r: Result<UserProfile, string>)
      ensures LoadFrom(files, root, userId).Err? ==> r == Err(LoadFrom(files, root, userId).error)
      ensures LoadFrom(files, root, userId).Ok? ==>
                r.Ok? && fresh(r.value) && r.value.Record() == LoadFrom(files, root, userId).value
    {
      var path := PathFor(root, userId);
      if path !in files {
        return Err(NotFoundPrefix + path);
      }
      var profile := new UserProfile(files[path]);
      r := Ok(profile);
    }

    /** `save`: the profile's values are written to its id's file. */
    method Save(profile: UserProfile)
      modifies this
      ensures files == SaveTo(old(files), root, profile.Record())
    {
      files := files[PathFor(root, profile.userId) := profile.Record()];
    }
  }
}
