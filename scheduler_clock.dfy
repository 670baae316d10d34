/** Clock handling of the scheduler agent: reading "HH:MM" the way `strptime(.., "%H:%M")` does,
    writing it back, adding minutes with the 24-hour wrap, and turning the hour/minute/marker
    pieces found in free text into "HH:MM". Times of day are minutes since midnight. */
module SchedulerClock {
  import opened Wrappers
  import opened Strings
  import opened JsonValues

  /** The exceptions the scheduler raises, by Python class. `MissingFields` is the ValueError that
      lists the required keys a reply lacks; Python lists them in the iteration order of a set of
      strings, which depends on the hash seed, so the model keeps the set itself. */
  datatype SchedulerError =
    | ValueError(message: string)
    | MissingFields(fields: set<string>)
    | TypeError(message: string)
    | ZeroDivisionError(message: string)

  const MinutesPerDay: nat := 1440

  /** The text of `f"{hour:02d}:{minute:02d}"`, which for a time of day is also `strftime("%H:%M")`. */
  function ClockText(hour: nat, minute: nat): (s: string)
    ensures hour < 100 && minute < 100 ==> |s| == 5
  {
    Pad2(hour) + ":" + Pad2(minute)
  }

  /** The `%H` directive at the start of `s`: `2[0-3]|[0-1]\d|\d`, tried in that order.
      Gives the hour and the number of characters it took. */
  function MatchHour(s: string): (r: Option<(nat, nat)>)
    ensures r.Some? ==> r.value.0 < 24 && 1 <= r.value.1 <= 2 && r.value.1 <= |s|
  {
    if |s| >= 2 && s[0] == '2' && '0' <= s[1] <= '3' then Some((20 + DigitValue(s[1]), 2))
    else if |s| >= 2 && (s[0] == '0' || s[0] == '1') && IsDigit(s[1]) then Some((10 * DigitValue(s[0]) + DigitValue(s[1]), 2))
    else if |s| >= 1 && IsDigit(s[0]) then Some((DigitValue(s[0]), 1))
    else None
  }

  /** The `%M` directive at the start of `s`: `[0-5]\d|\d`. */
  function MatchMinute(s: string): (r: Option<(nat, nat)>)
    ensures r.Some? ==> r.value.0 < 60 && 1 <= r.value.1 <= 2 && r.value.1 <= |s|
  {
    if |s| >= 2 && '0' <= s[0] <= '5' && IsDigit(s[1]) then Some((10 * DigitValue(s[0]) + DigitValue(s[1]), 2))
    else if |s| >= 1 && IsDigit(s[0]) then Some((DigitValue(s[0]), 1))
    else None
  }

  /** The outcome of `strptime(s, "%H:%M")`: no match, a match that leaves text over, or a time. */
  datatype StrptimeOutcome = NoMatch | UnconvertedData(rest: string) | Parsed(minutes: nat)

  /** `strptime(s, "%H:%M")`: the format's regular expression matched at the start of `s`,
      and all of `s` consumed. */
  function Strptime(s: string): (r: StrptimeOutcome)
    ensures r.Parsed? ==> r.minutes < MinutesPerDay
  {
    match MatchHour(s)
    case None => NoMatch
    case Some((h, lh)) =>
      if lh >= |s| || s[lh] != ':' then NoMatch
      else match MatchMinute(s[lh + 1..])
        case None => NoMatch
        case Some((m, lm)) =>
          if lh + 1 + lm < |s| then UnconvertedData(s[lh + 1 + lm..]) else Parsed(h * 60 + m)
  }

  lemma TwoDigits(s: string)
    requires |s| == 2 && AllDigits(s)
    ensures DigitsValue(s) == 10 * DigitValue(s[0]) + DigitValue(s[1])
  {
    var first := s[..1];
    assert first[..0] == [] && first[0] == s[0];
    assert DigitsValue(first[..0]) == 0;
    assert DigitsValue(first) == DigitValue(s[0]);
    assert s[..|s| - 1] == first;
    assert DigitsValue(s) == DigitsValue(first) * 10 + DigitValue(s[1]);
  }

  /** Every time of day written as "HH:MM" reads back as itself. */
  lemma StrptimeClockText(hour: nat, minute: nat)
    requires hour < 24 && minute < 60
    ensures Strptime(ClockText(hour, minute)) == Parsed(hour * 60 + minute)
  {
    var s := ClockText(hour, minute);
    var hh, mm := Pad2(hour), Pad2(minute);
    TwoDigits(hh);
    TwoDigits(mm);
    assert s[0] == hh[0] && s[1] == hh[1] && s[2] == ':';
    assert s[3..] == mm;
    assert MatchHour(s) == Some((hour, 2));
    assert MatchMinute(mm) == Some((minute, 2));
  }

  /** `_parse_clock`: a time of day from a decoded value, or the exception it raises. */
  function ParseClock(v: Json): (r: Result<nat, SchedulerError>)
    ensures r.Ok? <==> v.JString? && Strptime(v.s).Parsed?
    ensures r.Ok? ==> r.value == Strptime(v.s).minutes && r.value < MinutesPerDay
    ensures !v.JString? ==> r.Err? && r.error.TypeError?
  {
    match v
    case JString(s) =>
      if Strptime(s).Parsed? then Ok(Strptime(s).minutes)
      else Err(ValueError("Times must be provided in HH:MM 24-hour format."))
    case _ => Err(TypeError("strptime() argument 1 must be str"))
  }

  /** The ValueError `strptime` raises when it cannot read `s`. */
  function StrptimeError(s: string, outcome: StrptimeOutcome): SchedulerError
    requires !outcome.Parsed?
  {
    if outcome.UnconvertedData? then ValueError("unconverted data remains: " + outcome.rest)
    else ValueError("time data '" + s + "' does not match format '%H:%M'")
  }

  /** `_add_minutes`: the time read from `s`, moved by `minutes` and wrapped into the day. */
  function AddMinutes(s: string, minutes: int): (r: Result<string, SchedulerError>)
    ensures r.Ok? <==> Strptime(s).Parsed?
    ensures r.Ok? ==> Strptime(r.value) == Parsed((Strptime(s).minutes + minutes) % MinutesPerDay)
    ensures r.Err? ==> r.error.ValueError?
  {
    var outcome := Strptime(s);
    if !outcome.Parsed? then Err(StrptimeError(s, outcome))
    else
      var t := (outcome.minutes + minutes) % MinutesPerDay;
      StrptimeClockText(t / 60, t % 60);
      Ok(ClockText(t / 60, t % 60))
  }

  /** `_time_to_minutes`: `int(hour) * 60 + int(minute)` from the two sides of the colon. */
  function TimeToMinutes(s: string): (r: Result<int, SchedulerError>)
    ensures r.Err? ==> r.error.ValueError?
  {
    MinutesOfParts(Split(s, ':'))
  }

  function MinutesOfParts(parts: seq<string>): Result<int, SchedulerError> {
    if |parts| != 2 then Err(ValueError("expected exactly one ':' in the time"))
    else
      var hour := ParseInt(parts[0]);
      var minute := ParseInt(parts[1]);
      if hour.None? || minute.None? then Err(ValueError("invalid literal for int() with base 10"))
      else Ok(hour.value * 60 + minute.value)
  }

  /** Reading the minutes of "HH:MM" gives `hour * 60 + minute` back, whatever the numbers. */
  lemma TimeToMinutesClockText(hour: nat, minute: nat)
    ensures TimeToMinutes(ClockText(hour, minute)) == Ok(hour * 60 + minute)
  {
    TimeToMinutesDigits(Pad2(hour), Pad2(minute), hour, minute);
  }

  /** Two digit strings around a colon read back as their values. */
  lemma TimeToMinutesDigits(a: string, b: string, hour: nat, minute: nat)
    requires AllDigits(a) && AllDigits(b) && |a| > 0 && |b| > 0
    requires DigitsValue(a) == hour && DigitsValue(b) == minute
    ensures TimeToMinutes(a + ":" + b) == Ok(hour * 60 + minute)
  {
    TimeToMinutesAroundColon(a, b);
    MinutesOfDigitParts(a, b, hour, minute);
  }

  lemma TimeToMinutesAroundColon(a: string, b: string)
    requires AllDigits(a) && AllDigits(b)
    ensures TimeToMinutes(a + ":" + b) == MinutesOfParts([a, b])
  {
    SplitAroundColon(a, b);
  }

  lemma SplitAroundColon(a: string, b: string)
    requires AllDigits(a) && AllDigits(b)
    ensures Split(a + ":" + b, ':') == [a, b]
  {
    assert ':' !in a && ':' !in b;
    assert a + ":" + b == a + [':'] + b;
    SplitAtSeparator(a, ':', b);
    SplitNoSeparator(b, ':');
  }

  lemma MinutesOfDigitParts(a: string, b: string, hour: nat, minute: nat)
    requires AllDigits(a) && AllDigits(b) && |a| > 0 && |b| > 0
    requires DigitsValue(a) == hour && DigitsValue(b) == minute
    ensures MinutesOfParts([a, b]) == Ok(hour * 60 + minute)
  {
    ParseIntDigits(a);
    ParseIntDigits(b);
    MinutesOfTwoParts(a, b, hour, minute);
  }

  lemma MinutesOfTwoParts(a: string, b: string, hour: int, minute: int)
    requires ParseInt(a) == Some(hour) && ParseInt(b) == Some(minute)
    ensures MinutesOfParts([a, b]) == Ok(hour * 60 + minute)
  {
  }

  /** The am/pm marker of a time written in free text. */
  datatype Marker = AM | PM

  /** A time found in free text: one or two digits of hour, optionally two of minute and a marker. */
  datatype ClockMatch = ClockMatch(hour: nat, minute: Option<nat>, marker: Option<Marker>)

  /** The hour a marker implies: `hour % 12`, plus 12 after noon; without a marker the hour unchanged. */
  function MarkedHour(hour: nat, marker: Option<Marker>): (h: nat)
    ensures marker.Some? ==> h < 24
    ensures marker == Some(PM) ==> h >= 12
    ensures marker == Some(AM) ==> h < 12
  {
    match marker
    case None => hour
    case Some(AM) => hour % 12
    case Some(PM) => hour % 12 + 12
  }

  /** The marker a time is read with: its own, else the fallback. */
  function EffectiveMarker(c: ClockMatch, fallback: Option<Marker>): (m: Option<Marker>)
    ensures m == (if c.marker.Some? then c.marker else fallback)
  {
    if c.marker.Some? then c.marker else fallback
  }

  /** `_format_time`: the hour adjusted by the effective marker, the minute 0 when absent. */
  function FormatTime(c: ClockMatch, fallback: Option<Marker>): string {
    ClockText(MarkedHour(c.hour, EffectiveMarker(c, fallback)), c.minute.GetOr(0))
  }

  /** The formatted time reads back through `_time_to_minutes` as the marked hour and the minute. */
  lemma FormatTimeMinutes(c: ClockMatch, fallback: Option<Marker>)
    ensures TimeToMinutes(FormatTime(c, fallback)) == Ok(MarkedHour(c.hour, EffectiveMarker(c, fallback)) * 60 + c.minute.GetOr(0))
  {
    TimeToMinutesClockText(MarkedHour(c.hour, EffectiveMarker(c, fallback)), c.minute.GetOr(0));
  }

  /** With a marker and a minute under 60, the formatted time is a valid 24-hour "HH:MM". */
  lemma FormatTimeIsClockTime(c: ClockMatch, fallback: Option<Marker>)
    requires c.marker.Some? || fallback.Some?
    requires c.minute.GetOr(0) < 60
    ensures Strptime(FormatTime(c, fallback)) == Parsed(MarkedHour(c.hour, EffectiveMarker(c, fallback)) * 60 + c.minute.GetOr(0))
  {
    StrptimeClockText(MarkedHour(c.hour, EffectiveMarker(c, fallback)), c.minute.GetOr(0));
  }

  /** What the two time expressions of `_extract_time_range` find in the text: the first
      `H[:MM][am|pm] (-|to) H[:MM][am|pm]` range, and every standalone time in order. Matching the
      expressions is left to the regular-expression engine, a parameter of `ExtractTimeRange`. */
  datatype TimeMatches = TimeMatches(range: Option<(ClockMatch, ClockMatch)>, singles: seq<ClockMatch>)

  /** `_extract_time_range`: a range wins, each end borrowing the other's marker when it has none;
      otherwise the first two standalone times, or one time and an hour after it; otherwise nothing. */
  function ExtractTimeRange(text: string, scan: string -> TimeMatches): (r: Result<(Option<string>, Option<string>), SchedulerError>)
    ensures var m := scan(text);
            m.range.Some? ==> r == Ok((Some(FormatTime(m.range.value.0, m.range.value.1.marker)),
                                      Some(FormatTime(m.range.value.1, m.range.value.0.marker))))
    ensures var m := scan(text);
            m.range.None? && |m.singles| >= 2 ==> r == Ok((Some(FormatTime(m.singles[0], None)),
                                                          Some(FormatTime(m.singles[1], None))))
    ensures var m := scan(text);
            m.range.None? && |m.singles| == 1 ==>
              var start := FormatTime(m.singles[0], None);
              r == (match AddMinutes(start, 60)
                    case Ok(end) => Ok((Some(start), Some(end)))
                    case Err(e) => Err(e))
    ensures var m := scan(text);
            m.range.None? && |m.singles| == 0 ==> r == Ok((None, None))
    ensures r.Err? ==> r.error.ValueError?
  {
    var m := scan(text);
    if m.range.Some? then
      var (a, b) := m.range.value;
      Ok((Some(FormatTime(a, b.marker)), Some(FormatTime(b, a.marker))))
    else if |m.singles| >= 2 then
      Ok((Some(FormatTime(m.singles[0], None)), Some(FormatTime(m.singles[1], None))))
    else if |m.singles| == 1 then
      var start := FormatTime(m.singles[0], None);
      var end :- AddMinutes(start, 60);
      Ok((Some(start), Some(end)))
    else
      Ok((None, None))
  }

  /** In a range where only one end carries a marker, both ends are read with that marker. */
  lemma RangeSharesMarker(a: ClockMatch, b: ClockMatch, marker: Marker)
    requires (a.marker == Some(marker) && b.marker.None?) || (a.marker.None? && b.marker == Some(marker))
    ensures TimeToMinutes(FormatTime(a, b.marker)) == Ok(MarkedHour(a.hour, Some(marker)) * 60 + a.minute.GetOr(0))
    ensures TimeToMinutes(FormatTime(b, a.marker)) == Ok(MarkedHour(b.hour, Some(marker)) * 60 + b.minute.GetOr(0))
  {
    FormatTimeMinutes(a, b.marker);
    FormatTimeMinutes(b, a.marker);
  }
}
