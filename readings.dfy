/**
 * One sensor reading, as the simulated source builds it on every script run
 * (BHM2.0.py lines 49-55). The wall clock and numpy's random draws are not
 * modelled: they arrive as parameters, and each draw is reduced into the range
 * numpy would draw from.
 */
module Readings {
  import opened Wrappers
  import opened Draws

  /** A row of the frame with the columns Timestamp, Vibration, Slope, Weather, Risk. */
  datatype Reading = Reading(timestamp: string, vibration: real, slope: real, weather: string, risk: int)

  /** The weather labels the simulated source picks from. */
  const WeatherOptions: seq<string> := ["Sunny", "Rainy", "Cloudy", "Windy"]

  // ---------------------------------------------------------------------------
  // The timestamp: `datetime.now().strftime("%H:%M:%S")`.

  datatype TimeOfDay = TimeOfDay(hour: nat, minute: nat, second: nat)

  predicate ValidTime(t: TimeOfDay)
  {
    t.hour < 24 && t.minute < 60 && t.second < 60
  }

  function DigitChar(d: nat): char
    requires d < 10
  {
    (48 + d) as char
  }

  predicate IsDigit(c: char)
  {
    '0' <= c <= '9'
  }

  function DigitValue(c: char): (d: nat)
    requires IsDigit(c)
    ensures d < 10
  {
    c as int - 48
  }

  /** A zero-padded two-digit field, as `%H`, `%M` and `%S` print it. */
  function TwoDigits(n: nat): (s: string)
    requires n < 100
    ensures |s| == 2 && IsDigit(s[0]) && IsDigit(s[1])
    ensures DigitValue(s[0]) * 10 + DigitValue(s[1]) == n
  {
    [DigitChar(n / 10), DigitChar(n % 10)]
  }

  function FormatTime(t: TimeOfDay): (s: string)
    requires ValidTime(t)
    ensures |s| == 8 && s[2] == ':' && s[5] == ':'
  {
    TwoDigits(t.hour) + ":" + TwoDigits(t.minute) + ":" + TwoDigits(t.second)
  }

  function FieldAt(s: string, i: nat): (n: nat)
    requires i + 1 < |s| && IsDigit(s[i]) && IsDigit(s[i + 1])
    ensures n < 100
  {
    DigitValue(s[i]) * 10 + DigitValue(s[i + 1])
  }

  /** Reads back an `HH:MM:SS` stamp; anything else is not a time of day. */
  function ParseTime(s: string): (r: Option<TimeOfDay>)
    ensures r.Some? ==> ValidTime(r.value) && |s| == 8
  {
    if |s| == 8 && s[2] == ':' && s[5] == ':'
       && IsDigit(s[0]) && IsDigit(s[1]) && IsDigit(s[3]) && IsDigit(s[4])
       && IsDigit(s[6]) && IsDigit(s[7])
    then
      var t := TimeOfDay(FieldAt(s, 0), FieldAt(s, 3), FieldAt(s, 6));
      if ValidTime(t) then Some(t) else None
    else None
  }

  lemma ParseFormatTime(t: TimeOfDay)
    requires ValidTime(t)
    ensures ParseTime(FormatTime(t)) == Some(t)
  {
    var s := FormatTime(t);
    assert s[0..2] == TwoDigits(t.hour) && s[3..5] == TwoDigits(t.minute) && s[6..8] == TwoDigits(t.second);
  }

  lemma FormatParseTime(s: string)
    requires ParseTime(s).Some?
    ensures FormatTime(ParseTime(s).value) == s
  {
    var t := ParseTime(s).value;
    var f := FormatTime(t);
    forall i | 0 <= i < 8
      ensures f[i] == s[i]
    {
      assert f[0..2] == TwoDigits(t.hour) && f[3..5] == TwoDigits(t.minute) && f[6..8] == TwoDigits(t.second);
    }
  }

  // ---------------------------------------------------------------------------
  // The generated reading.

  /** What every reading of the simulated source satisfies. */
  predicate ValidGenerated(r: Reading)
  {
    0 <= r.risk <= 99 && r.weather in WeatherOptions && ParseTime(r.timestamp).Some?
  }

  /**
   * The row appended on one run. `vibration` and `slope` are the already rounded
   * normal draws; `weatherDraw` and `riskDraw` stand for `np.random.choice` and
   * `np.random.randint(0, 100)`.
   */
  function Generate(clock: TimeOfDay, vibration: real, slope: real, weatherDraw: nat, riskDraw: nat): (r: Reading)
    requires ValidTime(clock)
    ensures ValidGenerated(r)
    ensures ParseTime(r.timestamp) == Some(clock)
    ensures r.vibration == vibration && r.slope == slope
  {
    ParseFormatTime(clock);
    Reading(FormatTime(clock), vibration, slope, Choice(WeatherOptions, weatherDraw), RandInt(0, 100, riskDraw))
  }

  /** Every risk and weather value the source can draw is produced by some draws. */
  lemma GenerateReachesAll(clock: TimeOfDay, vibration: real, slope: real, weather: string, risk: int)
    requires ValidTime(clock) && weather in WeatherOptions && 0 <= risk <= 99
    ensures exists w: nat, k: nat :: Generate(clock, vibration, slope, w, k).weather == weather
                                   && Generate(clock, vibration, slope, w, k).risk == risk
  {
    var w :| 0 <= w < |WeatherOptions| && WeatherOptions[w] == weather;
    assert Generate(clock, vibration, slope, w, risk).weather == weather;
  }
}
