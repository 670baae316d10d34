/** Naive `datetime.datetime` values, `isoformat()` and the part of `fromisoformat()` that reads
    what `isoformat()` writes. Time zones and the current clock are not part of this model:
    a call to `utcnow()` becomes a `DateTime` parameter. */
module DateTimes {
  import opened Wrappers
  import opened Strings

  function DaysInMonth(year: int, month: int): int {
    if month == 2 then (if (year % 4 == 0 && year % 100 != 0) || year % 400 == 0 then 29 else 28)
    else if month in {4, 6, 9, 11} then 30
    else 31
  }

  /** A representable naive datetime (years 1 to 9999, as Python's `MINYEAR`/`MAXYEAR`). */
  predicate ValidFields(year: int, month: int, day: int, hour: int, minute: int, second: int, micro: int) {
    && 1 <= year <= 9999 && 1 <= month <= 12 && 1 <= day <= DaysInMonth(year, month)
    && 0 <= hour < 24 && 0 <= minute < 60 && 0 <= second < 60 && 0 <= micro < 1000000
  }

  datatype DateTimeFields = DateTimeFields(year: int, month: int, day: int, hour: int, minute: int,
                                           second: int, micro: int)

  type DateTime = d: DateTimeFields | ValidFields(d.year, d.month, d.day, d.hour, d.minute, d.second, d.micro)
    witness DateTimeFields(1, 1, 1, 0, 0, 0, 0)

  /** `d.isoformat()`: `YYYY-MM-DDTHH:MM:SS`, followed by `.ffffff` only when there are microseconds. */
  function IsoFormat(d: DateTime): (s: string)
    ensures |s| == (if d.micro == 0 then 19 else 26)
  {
    DatePart(d) + "T" + TimePart(d) + (if d.micro == 0 then "" else "." + FixedDigits(d.micro, 6))
  }

  function DatePart(d: DateTime): (s: string)
    ensures |s| == 10
  {
    FixedDigits(d.year, 4) + "-" + FixedDigits(d.month, 2) + "-" + FixedDigits(d.day, 2)
  }

  function TimePart(d: DateTime): (s: string)
    ensures |s| == 8
  {
    FixedDigits(d.hour, 2) + ":" + FixedDigits(d.minute, 2) + ":" + FixedDigits(d.second, 2)
  }

  /** The number written in `s[i..i + w]`, when those characters are all digits. */
  function DigitField(s: string, i: nat, w: nat): Option<nat>
    requires i + w <= |s|
  {
    if AllDigits(s[i..i + w]) then Some(DigitsValue(s[i..i + w])) else None
  }

  datatype IsoError = InvalidIsoFormat(text: string)

  /** `datetime.fromisoformat(s)` for the shapes `YYYY-MM-DD`, `YYYY-MM-DDTHH:MM`,
      `YYYY-MM-DDTHH:MM:SS` and `YYYY-MM-DDTHH:MM:SS.ffffff`; anything else is rejected. */
  function FromIsoFormat(s: string): (r: Result<DateTime, IsoError>)
    ensures r.Ok? ==> |s| in {10, 16, 19, 26}
  {
    if |s| !in {10, 16, 19, 26} then Err(InvalidIsoFormat(s))
    else if s[4] != '-' || s[7] != '-' then Err(InvalidIsoFormat(s))
    else if |s| > 10 && (s[10] != 'T' || s[13] != ':') then Err(InvalidIsoFormat(s))
    else if |s| > 16 && s[16] != ':' then Err(InvalidIsoFormat(s))
    else if |s| > 19 && s[19] != '.' then Err(InvalidIsoFormat(s))
    else
      var year := DigitField(s, 0, 4);
      var month := DigitField(s, 5, 2);
      var day := DigitField(s, 8, 2);
      var hour := if |s| > 10 then DigitField(s, 11, 2) else Some(0);
      var minute := if |s| > 10 then DigitField(s, 14, 2) else Some(0);
      var second := if |s| > 16 then DigitField(s, 17, 2) else Some(0);
      var micro := if |s| > 19 then DigitField(s, 20, 6) else Some(0);
      if year.None? || month.None? || day.None? || hour.None? || minute.None? || second.None? || micro.None?
      then Err(InvalidIsoFormat(s))
      else if !ValidFields(year.value, month.value, day.value, hour.value, minute.value, second.value, micro.value)
      then Err(InvalidIsoFormat(s))
      else Ok(DateTimeFields(year.value, month.value, day.value, hour.value, minute.value, second.value, micro.value))
  }

  /** The date fields of `isoformat()` read back as the date. */
  lemma DateFieldsRead(d: DateTime)
    ensures var s := IsoFormat(d);
            && s[4] == '-' && s[7] == '-' && s[10] == 'T'
            && DigitField(s, 0, 4) == Some(d.year) && DigitField(s, 5, 2) == Some(d.month)
            && DigitField(s, 8, 2) == Some(d.day)
  {
    var s := IsoFormat(d);
    var dp := DatePart(d);
    assert s[..10] == dp;
    assert s[0..4] == FixedDigits(d.year, 4);
    assert s[5..7] == FixedDigits(d.month, 2);
    assert s[8..10] == FixedDigits(d.day, 2);
    FixedDigitsRoundTrip(d.year, 4);
    FixedDigitsRoundTrip(d.month, 2);
    FixedDigitsRoundTrip(d.day, 2);
  }

  /** The time fields of `isoformat()` read back as the time of day. */
  lemma TimeFieldsRead(d: DateTime)
    ensures var s := IsoFormat(d);
            && s[13] == ':' && s[16] == ':'
            && DigitField(s, 11, 2) == Some(d.hour) && DigitField(s, 14, 2) == Some(d.minute)
            && DigitField(s, 17, 2) == Some(d.second)
  {
    var s := IsoFormat(d);
    var tp := TimePart(d);
    assert s[11..19] == tp;
    assert s[11..13] == FixedDigits(d.hour, 2);
    assert s[14..16] == FixedDigits(d.minute, 2);
    assert s[17..19] == FixedDigits(d.second, 2);
    FixedDigitsRoundTrip(d.hour, 2);
    FixedDigitsRoundTrip(d.minute, 2);
    FixedDigitsRoundTrip(d.second, 2);
  }

  /** The microseconds of `isoformat()`, when written, read back. */
  lemma MicroFieldRead(d: DateTime)
    requires d.micro != 0
    ensures var s := IsoFormat(d);
            s[19] == '.' && DigitField(s, 20, 6) == Some(d.micro)
  {
    var s := IsoFormat(d);
    assert s[20..26] == FixedDigits(d.micro, 6);
    FixedDigitsRoundTrip(d.micro, 6);
  }

  /** `fromisoformat(d.isoformat()) == d`: the serialised timestamp reads back unchanged. */
  lemma IsoRoundTrip(d: DateTime)
    ensures FromIsoFormat(IsoFormat(d)) == Ok(d)
  {
    DateFieldsRead(d);
    TimeFieldsRead(d);
    if d.micro != 0 {
      MicroFieldRead(d);
    }
  }
}
