/** The Pomodoro plan of the scheduler agent: study blocks and breaks laid end to end from the
    start of the availability window until no further study block fits. Times are minutes since
    midnight; a session's "HH:MM" text is `ClockText` of its minutes. */
module SchedulerPlan {
  import opened Wrappers
  import opened JsonValues
  import opened SchedulerClock

  /** One entry of the plan: a study block with its subject, or a break. */
  datatype Session = Study(subject: string, start: int, end: int) | Break(start: int, end: int)

  /** The "HH:MM" text `strftime` gives the time `t` minutes after midnight of the start day:
      the clock wraps at 24:00, and a time before midnight reads as one of the day before. */
  function TimeText(t: int): (s: string)
    ensures Strptime(s) == Parsed(t % MinutesPerDay)
  {
    var d := t % MinutesPerDay;
    StrptimeClockText(d / 60, d % 60);
    ClockText(d / 60, d % 60)
  }

  /** The plan the `while` loop of `_build_pomodoro_plan` produces from `current` on, with
      `k` study blocks already emitted: a study block when one fits, then a break when one fits
      after it, then the rest of the plan. */
  function Plan(current: int, end: int, pomodoro: int, break_: int, subjects: seq<string>, k: nat): seq<Session>
    requires pomodoro + break_ > 0 && |subjects| > 0
    decreases end - current
  {
    if current + pomodoro > end then []
    else
      var blockEnd := current + pomodoro;
      var study := Study(subjects[k % |subjects|], current, blockEnd);
      if blockEnd + break_ > end then [study]
      else [study, Break(blockEnd, blockEnd + break_)] + Plan(blockEnd + break_, end, pomodoro, break_, subjects, k + 1)
  }

  /** Entries alternate: study blocks at even positions, breaks at odd ones. */
  predicate Alternates(ss: seq<Session>) {
    forall i :: 0 <= i < |ss| ==> (ss[i].Study? <==> i % 2 == 0)
  }

  /** The first entry starts at `current` and each later one where the one before ended. */
  predicate Contiguous(ss: seq<Session>, current: int) {
    && (|ss| > 0 ==> ss[0].start == current)
    && (forall i :: 0 < i < |ss| ==> ss[i].start == ss[i - 1].end)
  }

  /** Study blocks last `pomodoro` minutes and breaks `break_` minutes. */
  predicate Durations(ss: seq<Session>, pomodoro: int, break_: int) {
    forall i :: 0 <= i < |ss| ==> ss[i].end == ss[i].start + (if ss[i].Study? then pomodoro else break_)
  }

  /** The study block at position `i` takes subject number `k + i / 2`, cycling through the list. */
  predicate Rotates(ss: seq<Session>, subjects: seq<string>, k: nat)
    requires |subjects| > 0
  {
    forall i :: 0 <= i < |ss| && ss[i].Study? ==> ss[i].subject == subjects[(k + i / 2) % |subjects|]
  }

  /** No entry ends after the end of the window. */
  predicate WithinWindow(ss: seq<Session>, end: int) {
    forall i :: 0 <= i < |ss| ==> ss[i].end <= end
  }

  /** Nothing more fits: no study block at all, no break after the last study block, or no study
      block after the last break. */
  predicate Maximal(ss: seq<Session>, current: int, end: int, pomodoro: int, break_: int) {
    if |ss| == 0 then current + pomodoro > end
    else if ss[|ss| - 1].Study? then ss[|ss| - 1].end + break_ > end
    else ss[|ss| - 1].end + pomodoro > end
  }

  /** Everything the scheduler promises of a plan, stated without the loop. */
  predicate IsPlan(ss: seq<Session>, current: int, end: int, pomodoro: int, break_: int, subjects: seq<string>, k: nat)
    requires |subjects| > 0
  {
    && Alternates(ss) && Contiguous(ss, current) && Durations(ss, pomodoro, break_)
    && Rotates(ss, subjects, k) && WithinWindow(ss, end) && Maximal(ss, current, end, pomodoro, break_)
  }

  /** The plan has every promised property. */
  lemma {:induction false} PlanIsPlan(current: int, end: int, pomodoro: int, break_: int, subjects: seq<string>, k: nat)
    requires pomodoro + break_ > 0 && |subjects| > 0
    ensures IsPlan(Plan(current, end, pomodoro, break_, subjects, k), current, end, pomodoro, break_, subjects, k)
    decreases end - current
  {
    if current + pomodoro > end || current + pomodoro + break_ > end {
      LastBlockIsPlan(current, end, pomodoro, break_, subjects, k);
    } else {
      PlanIsPlan(current + pomodoro + break_, end, pomodoro, break_, subjects, k + 1);
      PlanStepIsPlan(current, end, pomodoro, break_, subjects, k);
    }
  }

  /** A plan from the end of the first break, with a study block and that break in front, is the plan. */
  lemma PlanStepIsPlan(current: int, end: int, pomodoro: int, break_: int, subjects: seq<string>, k: nat)
    requires pomodoro + break_ > 0 && |subjects| > 0
    requires current + pomodoro <= end && current + pomodoro + break_ <= end
    requires IsPlan(Plan(current + pomodoro + break_, end, pomodoro, break_, subjects, k + 1),
                    current + pomodoro + break_, end, pomodoro, break_, subjects, k + 1)
    ensures IsPlan(Plan(current, end, pomodoro, break_, subjects, k), current, end, pomodoro, break_, subjects, k)
  {
    var rest := Plan(current + pomodoro + break_, end, pomodoro, break_, subjects, k + 1);
    IsPlanCons(rest, current, end, pomodoro, break_, subjects, k);
    PlanUnfold(current, end, pomodoro, break_, subjects, k);
  }

  /** Where no study block and break fit any more, the plan is at most one study block, and a plan. */
  lemma LastBlockIsPlan(current: int, end: int, pomodoro: int, break_: int, subjects: seq<string>, k: nat)
    requires pomodoro + break_ > 0 && |subjects| > 0
    requires current + pomodoro > end || current + pomodoro + break_ > end
    ensures IsPlan(Plan(current, end, pomodoro, break_, subjects, k), current, end, pomodoro, break_, subjects, k)
  {
    var ss := Plan(current, end, pomodoro, break_, subjects, k);
    if current + pomodoro <= end {
      assert ss == [Study(subjects[k % |subjects|], current, current + pomodoro)];
      assert ss[0].Study? && ss[0].subject == subjects[(k + 0 / 2) % |subjects|];
    } else {
      assert ss == [];
    }
  }

  /** A study block and a break in front of a plan that starts where the break ends make a plan. */
  lemma IsPlanCons(rest: seq<Session>, current: int, end: int, pomodoro: int, break_: int, subjects: seq<string>, k: nat)
    requires |subjects| > 0 && current + pomodoro <= end && current + pomodoro + break_ <= end
    requires IsPlan(rest, current + pomodoro + break_, end, pomodoro, break_, subjects, k + 1)
    ensures IsPlan(Head(current, pomodoro, break_, subjects, k) + rest, current, end, pomodoro, break_, subjects, k)
  {
    var ss := Head(current, pomodoro, break_, subjects, k) + rest;
    ConsShape(rest, current, pomodoro, break_, subjects, k);
    ConsDurations(rest, current, end, pomodoro, break_, subjects, k);
    ConsContiguous(rest, current, pomodoro, break_, subjects, k);
    assert Maximal(ss, current, end, pomodoro, break_) by {
      if |rest| > 0 {
        assert ss[|ss| - 1] == rest[|rest| - 1];
      }
    }
  }

  /** The study block and break that open a plan at `current`. */
  function Head(current: int, pomodoro: int, break_: int, subjects: seq<string>, k: nat): (h: seq<Session>)
    requires |subjects| > 0
    ensures |h| == 2
  {
    [Study(subjects[k % |subjects|], current, current + pomodoro), Break(current + pomodoro, current + pomodoro + break_)]
  }

  lemma ConsShape(rest: seq<Session>, current: int, pomodoro: int, break_: int, subjects: seq<string>, k: nat)
    requires |subjects| > 0
    requires Alternates(rest) && Rotates(rest, subjects, k + 1)
    ensures var ss := Head(current, pomodoro, break_, subjects, k) + rest;
            Alternates(ss) && Rotates(ss, subjects, k)
  {
    var ss := Head(current, pomodoro, break_, subjects, k) + rest;
    forall i | 2 <= i < |ss|
      ensures ss[i] == rest[i - 2]
      ensures (ss[i].Study? <==> i % 2 == 0)
      ensures ss[i].Study? ==> ss[i].subject == subjects[(k + i / 2) % |subjects|]
    {
      assert (k + 1) + (i - 2) / 2 == k + i / 2;
    }
  }

  lemma ConsDurations(rest: seq<Session>, current: int, end: int, pomodoro: int, break_: int, subjects: seq<string>, k: nat)
    requires |subjects| > 0 && current + pomodoro <= end && current + pomodoro + break_ <= end
    requires Durations(rest, pomodoro, break_) && WithinWindow(rest, end)
    ensures var ss := Head(current, pomodoro, break_, subjects, k) + rest;
            Durations(ss, pomodoro, break_) && WithinWindow(ss, end)
  {
    var ss := Head(current, pomodoro, break_, subjects, k) + rest;
    forall i | 2 <= i < |ss| ensures ss[i] == rest[i - 2] { }
  }

  lemma ConsContiguous(rest: seq<Session>, current: int, pomodoro: int, break_: int, subjects: seq<string>, k: nat)
    requires |subjects| > 0
    requires Contiguous(rest, current + pomodoro + break_)
    ensures Contiguous(Head(current, pomodoro, break_, subjects, k) + rest, current)
  {
    var ss := Head(current, pomodoro, break_, subjects, k) + rest;
    forall i | 2 < i < |ss| ensures ss[i].start == ss[i - 1].end {
      assert ss[i] == rest[i - 2] && ss[i - 1] == rest[i - 3];
    }
  }

  /** Conversely, the promised properties pin the plan down: any sequence that has them is the plan. */
  lemma {:induction false} PlanIsUnique(ss: seq<Session>, current: int, end: int, pomodoro: int, break_: int,
                                        subjects: seq<string>, k: nat)
    requires pomodoro + break_ > 0 && |subjects| > 0
    requires IsPlan(ss, current, end, pomodoro, break_, subjects, k)
    ensures ss == Plan(current, end, pomodoro, break_, subjects, k)
    decreases end - current
  {
    if |ss| == 1 {
      SingleIsPlan(ss, current, end, pomodoro, break_, subjects, k);
    } else if |ss| >= 2 {
      var next := current + pomodoro + break_;
      TailIsPlan(ss, current, end, pomodoro, break_, subjects, k);
      PlanIsUnique(ss[2..], next, end, pomodoro, break_, subjects, k + 1);
      PlanUnfold(current, end, pomodoro, break_, subjects, k);
      assert ss == ss[..2] + ss[2..];
    }
  }

  /** A plan of one entry is the study block that leaves no room for a break. */
  lemma SingleIsPlan(ss: seq<Session>, current: int, end: int, pomodoro: int, break_: int, subjects: seq<string>, k: nat)
    requires pomodoro + break_ > 0 && |subjects| > 0 && |ss| == 1
    requires IsPlan(ss, current, end, pomodoro, break_, subjects, k)
    ensures ss == Plan(current, end, pomodoro, break_, subjects, k)
  {
    assert ss[0].Study? && ss[0].start == current;
    assert ss[0].subject == subjects[k % |subjects|];
  }

  lemma AppendTwo(before: seq<Session>, x: Session, y: Session, rest: seq<Session>)
    ensures before + [x] + [y] + rest == before + ([x, y] + rest)
  {
  }

  /** When no study block fits, the plan is empty. */
  lemma PlanEnds(current: int, end: int, pomodoro: int, break_: int, subjects: seq<string>, k: nat)
    requires pomodoro + break_ > 0 && |subjects| > 0 && current + pomodoro > end
    ensures Plan(current, end, pomodoro, break_, subjects, k) == []
  {
  }

  /** When a study block fits but no break after it, the plan is that study block. */
  lemma PlanLastBlock(current: int, end: int, pomodoro: int, break_: int, subjects: seq<string>, k: nat)
    requires pomodoro + break_ > 0 && |subjects| > 0
    requires current + pomodoro <= end && current + pomodoro + break_ > end
    ensures Plan(current, end, pomodoro, break_, subjects, k) == [Study(subjects[k % |subjects|], current, current + pomodoro)]
  {
  }

  /** When a study block and a break fit, the plan opens with them. */
  lemma PlanUnfold(current: int, end: int, pomodoro: int, break_: int, subjects: seq<string>, k: nat)
    requires pomodoro + break_ > 0 && |subjects| > 0
    requires current + pomodoro <= end && current + pomodoro + break_ <= end
    ensures Plan(current, end, pomodoro, break_, subjects, k)
         == Head(current, pomodoro, break_, subjects, k) + Plan(current + pomodoro + break_, end, pomodoro, break_, subjects, k + 1)
  {
  }

  /** A plan of two entries or more opens with a study block and a break that fit, and the rest of it
      is a plan from the end of that break. */
  lemma TailIsPlan(ss: seq<Session>, current: int, end: int, pomodoro: int, break_: int, subjects: seq<string>, k: nat)
    requires |subjects| > 0 && |ss| >= 2
    requires IsPlan(ss, current, end, pomodoro, break_, subjects, k)
    ensures current + pomodoro <= end && current + pomodoro + break_ <= end
    ensures ss[..2] == Head(current, pomodoro, break_, subjects, k)
    ensures IsPlan(ss[2..], current + pomodoro + break_, end, pomodoro, break_, subjects, k + 1)
  {
    assert ss[0].Study? && ss[1].Break?;
    assert ss[0].subject == subjects[k % |subjects|];
    assert ss[..2] == [ss[0], ss[1]];
    var rest := ss[2..];
    TailShape(ss, subjects, k);
    assert Contiguous(rest, current + pomodoro + break_) by {
      if |rest| > 0 {
        assert rest[0].start == ss[1].end;
      }
      forall i | 0 < i < |rest| ensures rest[i].start == rest[i - 1].end {
        assert rest[i] == ss[i + 2] && rest[i - 1] == ss[i + 1];
      }
    }
    assert Maximal(rest, current + pomodoro + break_, end, pomodoro, break_) by {
      if |rest| > 0 {
        assert rest[|rest| - 1] == ss[|ss| - 1];
      }
    }
  }

  lemma TailShape(ss: seq<Session>, subjects: seq<string>, k: nat)
    requires |subjects| > 0 && |ss| >= 2
    ensures Alternates(ss) ==> Alternates(ss[2..])
    ensures Rotates(ss, subjects, k) ==> Rotates(ss[2..], subjects, k + 1)
    ensures forall pomodoro, break_ :: Durations(ss, pomodoro, break_) ==> Durations(ss[2..], pomodoro, break_)
    ensures forall end :: WithinWindow(ss, end) ==> WithinWindow(ss[2..], end)
  {
    var rest := ss[2..];
    forall i | 0 <= i < |rest|
      ensures rest[i] == ss[i + 2]
      ensures (i + 2) % 2 == i % 2
      ensures k + (i + 2) / 2 == k + 1 + i / 2
    {
    }
  }

  /** Every entry lies between `current` and the end of the window (breaks of negative length
      aside, which `break_ >= 0` rules out). */
  lemma PlanBounds(current: int, end: int, pomodoro: int, break_: int, subjects: seq<string>, k: nat)
    requires pomodoro > 0 && break_ >= 0 && |subjects| > 0
    ensures var ss := Plan(current, end, pomodoro, break_, subjects, k);
            forall i :: 0 <= i < |ss| ==> current <= ss[i].start <= ss[i].end <= end
  {
    var ss := Plan(current, end, pomodoro, break_, subjects, k);
    PlanIsPlan(current, end, pomodoro, break_, subjects, k);
    StartsIncrease(ss, current, pomodoro, break_);
  }

  lemma {:induction false} StartsIncrease(ss: seq<Session>, current: int, pomodoro: int, break_: int)
    requires pomodoro > 0 && break_ >= 0
    requires Contiguous(ss, current) && Durations(ss, pomodoro, break_)
    ensures forall i :: 0 <= i < |ss| ==> current <= ss[i].start <= ss[i].end
  {
    if |ss| > 0 {
      var init := ss[..|ss| - 1];
      assert Contiguous(init, current) && Durations(init, pomodoro, break_) by {
        forall i | 0 <= i < |init| ensures init[i] == ss[i] { }
      }
      StartsIncrease(init, current, pomodoro, break_);
      forall i | 0 <= i < |ss| ensures current <= ss[i].start <= ss[i].end {
        if i < |ss| - 1 {
          assert init[i] == ss[i];
        } else if i > 0 {
          assert init[i - 1] == ss[i - 1];
        }
      }
    }
  }

  /** The message of Python's `ZeroDivisionError` for `x % 0`. */
  const ModuloByZero := "integer modulo by zero"

  /** `_build_pomodoro_plan` as a value: the clock checks, then the plan of the window. */
  function PomodoroPlan(startTime: Json, endTime: Json, pomodoro: int, break_: int, subjects: seq<string>)
    : (r: Result<seq<Session>, SchedulerError>)
    requires pomodoro + break_ > 0
  {
    var start :- ParseClock(startTime);
    var end :- ParseClock(endTime);
    WindowPlan(start, end, pomodoro, break_, subjects)
  }

  /** The plan of a window whose ends are parsed: the window check, the `%` by the empty subject
      list that the first study block would perform, and the refusal of an empty plan. */
  function WindowPlan(start: int, end: int, pomodoro: int, break_: int, subjects: seq<string>)
    : (r: Result<seq<Session>, SchedulerError>)
    requires pomodoro + break_ > 0
  {
    if end <= start then Err(ValueError("End time must be after start time."))
    else if start + pomodoro > end then Err(ValueError("No Pomodoro blocks fit within the provided availability window."))
    else if |subjects| == 0 then Err(ZeroDivisionError(ModuloByZero))
    else Ok(Plan(start, end, pomodoro, break_, subjects, 0))
  }

  /** The outcome of `_build_pomodoro_plan`: errors exactly as the source raises them, and
      otherwise a non-empty plan with every promised property, inside the day. */
  lemma PomodoroPlanOutcome(startTime: Json, endTime: Json, pomodoro: int, break_: int, subjects: seq<string>)
    requires pomodoro + break_ > 0
    ensures var r := PomodoroPlan(startTime, endTime, pomodoro, break_, subjects);
            && (ParseClock(startTime).Err? ==> r == Err(ParseClock(startTime).error))
            && (ParseClock(startTime).Ok? && ParseClock(endTime).Err? ==> r == Err(ParseClock(endTime).error))
            && (ParseClock(startTime).Ok? && ParseClock(endTime).Ok? ==>
                  var start, end := ParseClock(startTime).value, ParseClock(endTime).value;
                  && (end <= start ==> r == Err(ValueError("End time must be after start time.")))
                  && (start < end && start + pomodoro > end ==>
                        r == Err(ValueError("No Pomodoro blocks fit within the provided availability window.")))
                  && (start < end && start + pomodoro <= end && |subjects| == 0 ==>
                        r == Err(ZeroDivisionError(ModuloByZero)))
                  && (start < end && start + pomodoro <= end && |subjects| > 0 ==>
                        r == Ok(Plan(start, end, pomodoro, break_, subjects, 0)))
                  && (r.Ok? ==> |r.value| > 0 && |subjects| > 0 && end < MinutesPerDay
                                && IsPlan(r.value, start, end, pomodoro, break_, subjects, 0)))
  {
    if ParseClock(startTime).Ok? && ParseClock(endTime).Ok? {
      var start, end := ParseClock(startTime).value, ParseClock(endTime).value;
      assert PomodoroPlan(startTime, endTime, pomodoro, break_, subjects) == WindowPlan(start, end, pomodoro, break_, subjects);
      WindowPlanOutcome(start, end, pomodoro, break_, subjects);
    }
  }

  /** The outcome for a window in minutes: the two ValueErrors, the ZeroDivisionError of the
      first study block when there are no subjects, and otherwise the plan of the window, which is
      a non-empty plan with every promised property. */
  lemma WindowPlanOutcome(start: int, end: int, pomodoro: int, break_: int, subjects: seq<string>)
    requires pomodoro + break_ > 0
    ensures var r := WindowPlan(start, end, pomodoro, break_, subjects);
            && (end <= start ==> r == Err(ValueError("End time must be after start time.")))
            && (start < end && start + pomodoro > end ==>
                  r == Err(ValueError("No Pomodoro blocks fit within the provided availability window.")))
            && (start < end && start + pomodoro <= end && |subjects| == 0 ==> r == Err(ZeroDivisionError(ModuloByZero)))
            && (start < end && start + pomodoro <= end && |subjects| > 0 ==>
                  r == Ok(Plan(start, end, pomodoro, break_, subjects, 0)))
            && (r.Ok? <==> start < end && start + pomodoro <= end && |subjects| > 0)
            && (r.Ok? ==> |r.value| > 0 && |subjects| > 0 && IsPlan(r.value, start, end, pomodoro, break_, subjects, 0))
  {
    if start < end && start + pomodoro <= end && |subjects| > 0 {
      PlanIsPlan(start, end, pomodoro, break_, subjects, 0);
    }
  }

  /** `_build_pomodoro_plan`: both clocks parsed, then the loop of `BuildWindowPlan`. */
  method BuildPomodoroPlan(startTime: Json, endTime: Json, pomodoro: int, break_: int, subjects: seq<string>)
    returns (r: Result<seq<Session>, SchedulerError>)
    requires pomodoro + break_ > 0
    ensures r == PomodoroPlan(startTime, endTime, pomodoro, break_, subjects)
  {
    var start :- ParseClock(startTime);
    var end :- ParseClock(endTime);
    r := BuildWindowPlan(start, end, pomodoro, break_, subjects);
  }

  /** The window check of `_build_pomodoro_plan`, the `%` that its first study block performs on
      the subject list, its `while` loop, and the refusal of an empty plan. */
  method BuildWindowPlan(start: int, end: int, pomodoro: int, break_: int, subjects: seq<string>)
    returns (r: Result<seq<Session>, SchedulerError>)
    requires pomodoro + break_ > 0
    ensures r == WindowPlan(start, end, pomodoro, break_, subjects)
  {
    if end <= start {
      return Err(ValueError("End time must be after start time."));
    }
    if start + pomodoro <= end && |subjects| == 0 {
      return Err(ZeroDivisionError(ModuloByZero));
    }
    if |subjects| == 0 {
      return Err(ValueError("No Pomodoro blocks fit within the provided availability window."));
    }
    var sessions := PlanLoop(start, end, pomodoro, break_, subjects);
    if |sessions| == 0 {
      return Err(ValueError("No Pomodoro blocks fit within the provided availability window."));
    }
    r := Ok(sessions);
  }

  /** The `while` loop of `_build_pomodoro_plan`, with its `break`. */
  method PlanLoop(start: int, end: int, pomodoro: int, break_: int, subjects: seq<string>)
    returns (sessions: seq<Session>)
    requires pomodoro + break_ > 0 && |subjects| > 0
    ensures sessions == Plan(start, end, pomodoro, break_, subjects, 0)
  {
    sessions := [];
    var subjectIndex: nat := 0;
    var current := start;
    while current + pomodoro <= end
      invariant sessions + Plan(current, end, pomodoro, break_, subjects, subjectIndex)
                == Plan(start, end, pomodoro, break_, subjects, 0)
      decreases end - current
    {
      ghost var before, c0 := sessions, current;
      var blockEnd := current + pomodoro;
      var subject := subjects[subjectIndex % |subjects|];
      sessions := sessions + [Study(subject, current, blockEnd)];
      current := blockEnd;
      if current + break_ > end {
        PlanLastBlock(c0, end, pomodoro, break_, subjects, subjectIndex);
        return;
      }
      var breakEnd := current + break_;
      sessions := sessions + [Break(current, breakEnd)];
      current := breakEnd;
      PlanUnfold(c0, end, pomodoro, break_, subjects, subjectIndex);
      AppendTwo(before, Study(subject, c0, blockEnd), Break(blockEnd, breakEnd),
                Plan(current, end, pomodoro, break_, subjects, subjectIndex + 1));
      subjectIndex := subjectIndex + 1;
    }
    PlanEnds(current, end, pomodoro, break_, subjects, subjectIndex);
    assert sessions + [] == sessions;
  }
}
