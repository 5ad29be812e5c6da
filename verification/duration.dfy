/** `calculateDuration` of the confirmation mail: the length of an event,
    rounded to whole minutes and spelled as Spanish hours and minutes. */
module Duration {
  import opened JsText

  const MsPerMinute: int := 60000

  /** `Math.round(ms / 60000)`: the nearest whole number of minutes, a half
      minute rounding up (towards +infinity, as `Math.round` does for negative
      values too). */
  function RoundedMinutes(ms: int): (m: int)
    ensures -MsPerMinute / 2 <= ms - m * MsPerMinute < MsPerMinute / 2
  {
    (ms + MsPerMinute / 2) / MsPerMinute
  }

  /** ECMAScript `a % 60`: the remainder takes the sign of `a`, unlike
      Dafny's `%`, whose remainder is never negative. */
  function JsRemainder60(a: int): (r: int)
    ensures (a - r) % 60 == 0
    ensures a >= 0 ==> 0 <= r < 60
    ensures a < 0 ==> -60 < r <= 0
  {
    if a >= 0 then a % 60 else -((-a) % 60)
  }

  /** `[Math.floor(minutes / 60), minutes % 60]`. */
  function Split(minutes: int): (hm: (int, int))
    ensures minutes >= 0 ==> hm.0 * 60 + hm.1 == minutes && 0 <= hm.1 < 60
    ensures minutes >= 0 ==> hm.0 >= 0
  {
    (minutes / 60, JsRemainder60(minutes))
  }

  /** The plural suffix: 's' exactly when the count is above one. */
  function Plural(n: int): string {
    if n > 1 then "s" else ""
  }

  function Hours(h: int): string {
    IntToString(h) + " hora" + Plural(h)
  }

  function Minutes(m: int): string {
    IntToString(m) + " minuto" + Plural(m)
  }

  /** The rendering of a whole number of minutes. */
  function Render(minutes: int): string {
    var (hours, mins) := Split(minutes);
    if hours > 0 && mins > 0 then Hours(hours) + " y " + Minutes(mins)
    else if hours > 0 then Hours(hours)
    else Minutes(mins)
  }

  /** `calculateDuration(start, end)` on the two instants in milliseconds. */
  function CalculateDuration(startMs: int, endMs: int): string {
    Render(RoundedMinutes(endMs - startMs))
  }

  /** Rounding example: a minute and a half rounds up to two minutes. */
  lemma RoundsHalfUp()
    ensures RoundedMinutes(90000) == 2
    ensures RoundedMinutes(89999) == 1
  {
  }

  /** A duration with both an hour and a minute part names both. */
  lemma RenderMixed(h: int, m: int)
    requires h > 0 && 0 < m < 60
    ensures Render(h * 60 + m) == Hours(h) + " y " + Minutes(m)
  {
    var hm := Split(h * 60 + m);
    assert hm.0 == h && hm.1 == m;
  }

  /** A whole number of hours names only the hours. */
  lemma RenderWholeHours(h: int)
    requires h > 0
    ensures Render(h * 60) == Hours(h)
  {
    var hm := Split(h * 60);
    assert hm.0 == h && hm.1 == 0;
  }

  /** Under an hour names only the minutes, including zero. */
  lemma RenderUnderAnHour(m: int)
    requires 0 <= m < 60
    ensures Render(m) == Minutes(m)
  {
    var hm := Split(m);
    assert hm.0 == 0 && hm.1 == m;
  }

  /** The suffix is 's' only above one, so zero and one are singular. */
  lemma SingularCounts()
    ensures Render(0) == "0 minuto"
    ensures Render(1) == "1 minuto"
    ensures Render(60) == "1 hora"
    ensures Render(150) == "2 horas y 30 minutos"
  {
    RenderUnderAnHour(0);
    RenderUnderAnHour(1);
    RenderWholeHours(1);
    RenderMixed(2, 30);
    assert NatToString(30) == "30" by {
      assert NatToString(3) == "3";
    }
  }

  /** An end before the start: the floored hours are negative, so only the
      minute count is named, and the truncating remainder keeps the sign of
      the minutes, so that count lies between -59 and 0. */
  lemma NegativeDurations(m: int)
    requires m < 0
    ensures Render(m) == Minutes(JsRemainder60(m))
    ensures -60 < JsRemainder60(m) <= 0
  {
    var hm := Split(m);
    assert hm.0 < 0;
  }

  /** An event that ends before it starts is described by a minute count
      alone, between -59 and 0. */
  lemma EarlyEnd(startMs: int, endMs: int)
    requires endMs < startMs
    ensures var m := JsRemainder60(RoundedMinutes(endMs - startMs));
      CalculateDuration(startMs, endMs) == Minutes(m) && -60 < m <= 0
  {
    var m := RoundedMinutes(endMs - startMs);
    if m < 0 {
      NegativeDurations(m);
    } else {
      assert m == 0;
      RenderUnderAnHour(0);
    }
  }

  /** Instances of `NegativeDurations`: a whole negative hour reads as zero
      minutes. */
  lemma NegativeDurationExamples()
    ensures Render(-90) == "-30 minuto"
    ensures Render(-60) == "0 minuto"
    ensures CalculateDuration(3600000, 0) == "0 minuto"
  {
    assert Split(-90) == (-2, -30);
    assert Split(-60) == (-1, 0);
    assert RoundedMinutes(-3600000) == -60;
    assert NatToString(30) == "30" by {
      assert NatToString(3) == "3";
    }
  }

  /** Every event the booking flow creates lasts one hour and is described as
      "1 hora". */
  lemma OneHourEvent(start: int)
    ensures CalculateDuration(start, start + 3600000) == "1 hora"
  {
    assert RoundedMinutes(3600000) == 60;
    SingularCounts();
  }
}
