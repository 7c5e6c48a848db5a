/** `readable_time` (helper.py): a duration in seconds as `H:MM:SS`, or `MM:SS` below one hour. */
module Clock {
  import opened Wrappers
  import opened Text
  import opened Decimal

  datatype Parts = Parts(hours: int, minutes: nat, seconds: nat)

  /** The floor divisions of helper.py:244-247. For the positive divisors 3600 and 60, Dafny's
      Euclidean `/` and `%` agree with Python's `//` and `%`, negative durations included. */
  function ClockParts(seconds: int): (p: Parts)
    ensures p.hours * 3600 + p.minutes * 60 + p.seconds == seconds
    ensures p.minutes < 60 && p.seconds < 60
    ensures 0 <= seconds <==> 0 <= p.hours
    ensures 0 <= seconds ==> (p.hours == 0 <==> seconds < 3600)
  {
    var rest := seconds % 3600;
    Parts(seconds / 3600, rest / 60, rest % 60)
  }

  /** helper.py:248-249: the hours only when positive, minutes and seconds padded to two digits. */
  function Render(p: Parts): (r: string)
    ensures Fields(r, ':') ==
      if p.hours > 0 then [Dec(p.hours), Pad2(p.minutes), Pad2(p.seconds)] else [Pad2(p.minutes), Pad2(p.seconds)]
  {
    var mm, ss := Pad2(p.minutes), Pad2(p.seconds);
    NoSeparatorInDigits(mm, ':');
    NoSeparatorInDigits(ss, ':');
    if p.hours > 0 then
      var hh := Dec(p.hours);
      NoSeparatorInDigits(hh, ':');
      FieldsOfThree(hh, mm, ss);
      hh + ":" + mm + ":" + ss
    else
      FieldsOfTwo(mm, ss);
      mm + ":" + ss
  }

  /** helper.py:235-249. A non-negative duration reads back as itself. */
  function ReadableTime(seconds: int): (r: string)
    ensures 0 <= seconds ==> ParseClock(r) == Some(seconds)
  {
    var p := ClockParts(seconds);
    if 0 <= seconds && p.hours > 0 then
      RenderWithHours(p);
      Render(p)
    else if 0 <= seconds then
      RenderWithoutHours(p);
      Render(p)
    else Render(p)
  }

  predicate IsNumber(s: string)
  {
    |s| > 0 && AllDigits(s)
  }

  /** Reads a clock string back into seconds: `H:MM:SS` or `MM:SS`, every field a number. */
  function ParseClock(t: string): Option<int>
  {
    ParseFields(Fields(t, ':'))
  }

  function ParseFields(f: seq<string>): Option<int>
  {
    if |f| == 2 && IsNumber(f[0]) && IsNumber(f[1]) then
      Some(Value(f[0]) * 60 + Value(f[1]))
    else if |f| == 3 && IsNumber(f[0]) && IsNumber(f[1]) && IsNumber(f[2]) then
      Some(Value(f[0]) * 3600 + Value(f[1]) * 60 + Value(f[2]))
    else None
  }

  lemma FieldsOfTwo(mm: string, ss: string)
    requires ':' !in mm && ':' !in ss
    ensures Fields(mm + ":" + ss, ':') == [mm, ss]
  {
    assert mm + ":" + ss == mm + [':'] + ss;
    FieldsOfJoin(mm, ':', ss);
  }

  lemma FieldsOfThree(hh: string, mm: string, ss: string)
    requires ':' !in hh && ':' !in mm && ':' !in ss
    ensures Fields(hh + ":" + mm + ":" + ss, ':') == [hh, mm, ss]
  {
    var rest := mm + ":" + ss;
    assert Fields(rest, ':') == [mm, ss] by {
      FieldsOfTwo(mm, ss);
    }
    assert hh + ":" + mm + ":" + ss == hh + [':'] + rest;
    FieldsOfJoin(hh, ':', rest);
  }

  lemma RenderWithHours(p: Parts)
    requires p.hours > 0 && p.minutes < 60 && p.seconds < 60
    ensures ParseClock(Render(p)) == Some(p.hours * 3600 + p.minutes * 60 + p.seconds)
  {
    var hh, mm, ss := Dec(p.hours), Pad2(p.minutes), Pad2(p.seconds);
    ValueOfDec(p.hours);
    assert ParseFields([hh, mm, ss]) == Some(p.hours * 3600 + p.minutes * 60 + p.seconds);
  }

  lemma RenderWithoutHours(p: Parts)
    requires p.hours == 0 && p.minutes < 60 && p.seconds < 60
    ensures ParseClock(Render(p)) == Some(p.minutes * 60 + p.seconds)
  {
    assert ParseFields([Pad2(p.minutes), Pad2(p.seconds)]) == Some(p.minutes * 60 + p.seconds);
  }

  /** For a non-negative duration the string has three fields exactly from one hour on, and its
      last two fields, the minutes and the seconds, have two digits each. */
  lemma ReadableTimeShape(seconds: int)
    requires 0 <= seconds
    ensures var f := Fields(ReadableTime(seconds), ':');
      && (|f| == 3 <==> 3600 <= seconds)
      && (|f| == 2 <==> seconds < 3600)
      && |f[|f| - 2]| == 2 && |f[|f| - 1]| == 2
  {
    var p := ClockParts(seconds);
    assert ReadableTime(seconds) == Render(p);
  }

  /** A negative duration is shown as its remainder modulo one hour, without hours. */
  lemma ReadableTimeNegative(seconds: int)
    requires seconds < 0
    ensures ReadableTime(seconds) == ReadableTime(seconds % 3600)
    ensures |Fields(ReadableTime(seconds), ':')| == 2
  {
    var r := seconds % 3600;
    assert r / 3600 == 0 && r % 3600 == r;
    ReadableTimeShape(r);
  }
}
