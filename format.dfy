/** `formatRelativeTime` (`src/lib/format.ts`): the remaining time of a cart
    reservation as text. Times are whole milliseconds; the current time is a
    parameter. */
module Format {
  import opened Text

  /** Which of the four texts applies, with the figures it shows. */
  datatype RelativeTime = Expired | Seconds(secs: nat) | Minutes(mins: nat) | HoursMinutes(hours: nat, mins: nat)

  /** The branching on `diffSecs`, `diffMins` and `diffHours`, each a
      `Math.floor` of a division by a positive constant (which Dafny's `/`
      computes also for negative operands). */
  function Classify(diffMs: int): (r: RelativeTime)
    ensures r.Expired? <==> diffMs < 0
    ensures r.Seconds? <==> 0 <= diffMs < 60_000
    ensures r.Minutes? <==> 60_000 <= diffMs < 3_600_000
    ensures r.Seconds? ==> r.secs * 1000 <= diffMs < (r.secs + 1) * 1000
    ensures r.Minutes? ==> r.mins * 60_000 <= diffMs < (r.mins + 1) * 60_000
    ensures r.HoursMinutes? ==>
      && r.hours >= 1 && r.mins < 60
      && (r.hours * 60 + r.mins) * 60_000 <= diffMs < (r.hours * 60 + r.mins + 1) * 60_000
  {
    var diffSecs := diffMs / 1000;
    var diffMins := diffSecs / 60;
    var diffHours := diffMins / 60;
    if diffSecs < 0 then Expired
    else if diffSecs < 60 then Seconds(diffSecs)
    else if diffMins < 60 then Minutes(diffMins)
    else HoursMinutes(diffHours, diffMins % 60)
  }

  const ExpiredText := "Expirado"

  /** The text for a target time `targetMs` seen at `nowMs`: "Expirado" once the
      target is past, then the whole seconds, the whole minutes, or the whole
      hours and the minutes past the hour that are left. */
  function FormatRelativeTime(targetMs: int, nowMs: int): (r: string)
    ensures r == ExpiredText <==> targetMs < nowMs
    ensures 0 <= targetMs - nowMs < 60_000 ==>
      r == NatToDecimal((targetMs - nowMs) / 1000) + "s"
    ensures 60_000 <= targetMs - nowMs < 3_600_000 ==>
      r == NatToDecimal((targetMs - nowMs) / 60_000) + "min"
    ensures 3_600_000 <= targetMs - nowMs ==>
      r == NatToDecimal((targetMs - nowMs) / 3_600_000) + "h " + NatToDecimal((targetMs - nowMs) / 60_000 % 60) + "min"
  {
    var d := targetMs - nowMs;
    match Classify(d)
    case Expired => ExpiredText
    case Seconds(s) =>
      var r := NatToDecimal(s) + "s";
      assert r[|r| - 1] != ExpiredText[|ExpiredText| - 1];
      r
    case Minutes(m) =>
      var r := NatToDecimal(m) + "min";
      assert r[|r| - 1] != ExpiredText[|ExpiredText| - 1];
      assert m == d / 60_000 by { NestedFloors(d); }
      r
    case HoursMinutes(h, m) =>
      var r := NatToDecimal(h) + "h " + NatToDecimal(m) + "min";
      assert r[|r| - 1] != ExpiredText[|ExpiredText| - 1];
      assert h == d / 3_600_000 && m == d / 60_000 % 60 by { NestedFloors(d); }
      r
  }

  /** Flooring to seconds, then minutes, then hours is flooring straight to minutes
      and to hours. */
  lemma NestedFloors(d: int)
    requires d >= 0
    ensures d / 1000 / 60 == d / 60_000
    ensures d / 1000 / 60 / 60 == d / 3_600_000
  {
    var s, m, h := d / 1000, d / 1000 / 60, d / 1000 / 60 / 60;
    assert s * 1000 <= d < s * 1000 + 1000;
    assert m * 60 <= s < m * 60 + 60;
    assert m * 60_000 <= d < m * 60_000 + 60_000;
    assert h * 60 <= m < h * 60 + 60;
    assert h * 3_600_000 <= d < h * 3_600_000 + 3_600_000;
  }

  /** Under a minute left, the text is the digits of the whole seconds left
      followed by `s`, and those digits read back as that number. */
  lemma SecondsReadBack(targetMs: int, nowMs: int)
    requires 0 <= targetMs - nowMs < 60_000
    ensures var r := FormatRelativeTime(targetMs, nowMs);
      && |r| >= 2 && r[|r| - 1] == 's'
      && (forall k :: 0 <= k < |r| - 1 ==> '0' <= r[k] <= '9')
      && DecimalValue(r[..|r| - 1]) == (targetMs - nowMs) / 1000
  {
    var r := FormatRelativeTime(targetMs, nowMs);
    var digits := NatToDecimal((targetMs - nowMs) / 1000);
    assert r[..|r| - 1] == digits;
    DecimalRoundTrip((targetMs - nowMs) / 1000);
  }

  /** Under an hour left, the text is the digits of the whole minutes left followed
      by `min`, and those digits read back as that number. */
  lemma MinutesReadBack(targetMs: int, nowMs: int)
    requires 60_000 <= targetMs - nowMs < 3_600_000
    ensures var r := FormatRelativeTime(targetMs, nowMs);
      && |r| >= 4 && r[|r| - 3..] == "min"
      && (forall k :: 0 <= k < |r| - 3 ==> '0' <= r[k] <= '9')
      && DecimalValue(r[..|r| - 3]) == (targetMs - nowMs) / 60_000
  {
    var r := FormatRelativeTime(targetMs, nowMs);
    var digits := NatToDecimal((targetMs - nowMs) / 60_000);
    assert r[..|r| - 3] == digits;
    DecimalRoundTrip((targetMs - nowMs) / 60_000);
  }

  /** `r` reads `<h>h <m>min`, its hours digits ending at `i`. */
  ghost predicate HoursTextAt(r: string, i: int, h: nat, m: nat) {
    && 0 < i < |r| - 5 && r[i..i + 2] == "h " && r[|r| - 3..] == "min"
    && DecimalValue(r[..i]) == h && DecimalValue(r[i + 2..|r| - 3]) == m
  }

  /** `r`, split at `i`, reads the whole hours from `nowMs` to `targetMs` and
      the minutes past them. */
  ghost predicate ShowsHoursAt(r: string, i: int, targetMs: int, nowMs: int)
    requires targetMs >= nowMs
  {
    HoursTextAt(r, i, (targetMs - nowMs) / 3_600_000, (targetMs - nowMs) / 60_000 % 60)
  }

  /** From an hour on, the text is `<hours>h <minutes>min`, whose two numbers
      read back as the whole hours left and the minutes past them (which
      `HoursAndMinutes` shows make up the whole minutes left). */
  lemma HoursReadBack(targetMs: int, nowMs: int)
    requires 3_600_000 <= targetMs - nowMs
    ensures exists i :: ShowsHoursAt(FormatRelativeTime(targetMs, nowMs), i, targetMs, nowMs)
  {
    var h, m := (targetMs - nowMs) / 3_600_000, (targetMs - nowMs) / 60_000 % 60;
    var i := HoursTextReadBack(h, m);
    HoursText(targetMs, nowMs);
    assert HoursTextAt(FormatRelativeTime(targetMs, nowMs), i, h, m);
    assert ShowsHoursAt(FormatRelativeTime(targetMs, nowMs), i, targetMs, nowMs);
  }

  lemma HoursText(targetMs: int, nowMs: int)
    requires 3_600_000 <= targetMs - nowMs
    ensures FormatRelativeTime(targetMs, nowMs) ==
      NatToDecimal((targetMs - nowMs) / 3_600_000) + "h " + NatToDecimal((targetMs - nowMs) / 60_000 % 60) + "min"
  {
  }

  /** The text `<h>h <m>min` splits back into its two numbers. */
  lemma HoursTextReadBack(h: nat, m: nat) returns (i: int)
    ensures HoursTextAt(NatToDecimal(h) + "h " + NatToDecimal(m) + "min", i, h, m)
  {
    var hs, ms := NatToDecimal(h), NatToDecimal(m);
    var r := hs + "h " + ms + "min";
    assert r[..|hs|] == hs && r[|hs|..|hs| + 2] == "h " && r[|hs| + 2..|r| - 3] == ms && r[|r| - 3..] == "min";
    DecimalRoundTrip(h);
    DecimalRoundTrip(m);
    i := |hs|;
  }

  /** The whole hours and the minutes past them (fewer than sixty) make up the
      whole minutes. */
  lemma HoursAndMinutes(d: int)
    requires d >= 0
    ensures d / 60_000 % 60 < 60
    ensures d / 3_600_000 * 60 + d / 60_000 % 60 == d / 60_000
  {
    NestedFloors(d);
    var m := d / 60_000;
    assert d / 3_600_000 == m / 60;
    assert m / 60 * 60 + m % 60 == m;
  }
}
