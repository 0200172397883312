/** Clock values passed into the model: calendar dates, monotonic instants and times of day. */
module Clock {
  import opened Wrappers
  import opened Numbers

  /** A `chrono::NaiveDate`, as a day number. */
  type Date = int

  /** A `tokio::time::Instant`, in whole seconds of a monotonic clock. */
  type Instant = int

  /** A `chrono::NaiveTime` at whole-second resolution: seconds since midnight. */
  type TimeOfDay = t: int | 0 <= t < 86400

  function Hour(t: TimeOfDay): (h: nat)
    ensures h < 24 && h * 3600 <= t < (h + 1) * 3600
  {
    t / 3600
  }

  function Minute(t: TimeOfDay): (m: nat)
    ensures m < 60 && Hour(t) * 3600 + m * 60 <= t < Hour(t) * 3600 + (m + 1) * 60
  {
    t % 3600 / 60
  }

  /** `Instant::elapsed().as_secs()`: the seconds since `since`, saturating at zero. */
  function Elapsed(since: Instant, now: Instant): (d: nat)
    ensures since <= now ==> since + d == now
    ensures now <= since ==> d == 0
  {
    if since <= now then now - since else 0
  }

  /** An hour and minute as given by an "HH:MM" setting. */
  datatype HourMinute = HourMinute(hour: nat, minute: nat) {

    predicate Valid() {
      hour < 24 && minute < 60
    }

    /** The time of day this hour and minute denote (seconds set to zero). */
    function Seconds(): (t: TimeOfDay)
      requires Valid()
      ensures Hour(t) == hour && Minute(t) == minute
    {
      hour * 3600 + minute * 60
    }
  }

  /** `NaiveTime::parse_from_str(s, "%H:%M")` for the two-digit form: two digits,
      a colon, two digits, with the hour below 24 and the minute below 60. */
  function ParseHourMinute(s: string): (r: Option<HourMinute>)
    ensures r.Some? ==> r.value.Valid()
    ensures r.Some? ==> |s| == 5 && s[2] == ':'
  {
    if |s| == 5 && IsDigit(s[0]) && IsDigit(s[1]) && s[2] == ':' && IsDigit(s[3]) && IsDigit(s[4]) then
      var h := DigitValue(s[0]) * 10 + DigitValue(s[1]);
      var m := DigitValue(s[3]) * 10 + DigitValue(s[4]);
      if h < 24 && m < 60 then Some(HourMinute(h, m)) else None
    else
      None
  }

  function TwoDigits(n: nat): (s: string)
    requires n < 100
    ensures |s| == 2 && AllDigits(s)
  {
    [DigitChar(n / 10), DigitChar(n % 10)]
  }

  /** `format("%H:%M")`: zero-padded hour, a colon, zero-padded minute. */
  function FormatHourMinute(hm: HourMinute): (s: string)
    requires hm.Valid()
    ensures |s| == 5
  {
    TwoDigits(hm.hour) + ":" + TwoDigits(hm.minute)
  }

  /** Every valid hour and minute survives formatting and parsing. */
  lemma FormatThenParse(hm: HourMinute)
    requires hm.Valid()
    ensures ParseHourMinute(FormatHourMinute(hm)) == Some(hm)
  {
    var s := FormatHourMinute(hm);
    assert DigitValue(s[0]) == hm.hour / 10 && DigitValue(s[1]) == hm.hour % 10;
    assert DigitValue(s[3]) == hm.minute / 10 && DigitValue(s[4]) == hm.minute % 10;
  }

  /** Every accepted setting is the canonical text of what it parses to. */
  lemma ParseThenFormat(s: string)
    requires ParseHourMinute(s).Some?
    ensures FormatHourMinute(ParseHourMinute(s).value) == s
  {
    var hm := ParseHourMinute(s).value;
    var f := FormatHourMinute(hm);
    assert hm.hour / 10 == DigitValue(s[0]) && hm.hour % 10 == DigitValue(s[1]);
    assert hm.minute / 10 == DigitValue(s[3]) && hm.minute % 10 == DigitValue(s[4]);
    assert f[0] == s[0] && f[1] == s[1] && f[2] == s[2] && f[3] == s[3] && f[4] == s[4];
  }
}
