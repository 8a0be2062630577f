/**
 * Clip arguments: `[datetime.strptime(i, "%M:%S").time() for i in clip.split(",")]`
 * unpacked into a start and an end (dylt/core.py), and the seconds conversion and
 * minimum-duration check of `clip_audio_video`.
 */
module Clip {
  import opened Base
  import Text

  /** A `datetime.time`; strptime with "%M:%S" always gives hour 0. */
  datatype ClockTime = ClockTime(hour: nat, minute: nat, second: nat)

  /** The one message the model gives for any refused time; Python's text varies with how the string fails. */
  const NoMatch := "time data does not match format '%M:%S'"
  /** Python's messages for unpacking a list of the wrong length into two names. */
  const TooManyValues := "too many values to unpack (expected 2)"
  const NotEnoughValues := "not enough values to unpack (expected 2, got 1)"

  predicate IsDigit(c: char) { '0' <= c <= '9' }

  function DigitValue(c: char): nat
    requires IsDigit(c)
  {
    (c - '0') as nat
  }

  /**
   * A "%M" or "%S" field: one or two ASCII digits with a value of at most 59.
   * (strptime's patterns take a two-digit field only when its first digit is
   * 0-5, and `datetime` rejects the leap seconds 60 and 61 that "%S" admits.)
   */
  function Field(s: string): (r: Option<nat>)
    ensures r.Some? ==> r.value < 60
  {
    if |s| == 1 && IsDigit(s[0]) then Some(DigitValue(s[0]))
    else if |s| == 2 && IsDigit(s[0]) && IsDigit(s[1]) && 10 * DigitValue(s[0]) + DigitValue(s[1]) < 60 then
      Some(10 * DigitValue(s[0]) + DigitValue(s[1]))
    else None
  }

  /** `datetime.strptime(s, "%M:%S").time()`. */
  function ParseMinSec(s: string): (r: Result<ClockTime>)
    ensures r.Ok? ==> r.value.hour == 0 && r.value.minute < 60 && r.value.second < 60
    ensures r.Err? ==> r.error == ValueError(NoMatch)
  {
    var fields := Text.Split(s, ':');
    if |fields| != 2 then Err(ValueError(NoMatch))
    else match (Field(fields[0]), Field(fields[1]))
      case (Some(m), Some(sec)) => Ok(ClockTime(0, m, sec))
      case _ => Err(ValueError(NoMatch))
  }

  /** The list comprehension: every part is parsed, in order, and the first failure propagates. */
  function ParseAll(parts: seq<string>): (r: Result<seq<ClockTime>>)
    ensures r.Ok? ==> |r.value| == |parts|
    ensures r.Ok? ==> forall i :: 0 <= i < |parts| ==> ParseMinSec(parts[i]) == Ok(r.value[i])
    ensures r.Err? ==> exists i :: 0 <= i < |parts| && ParseMinSec(parts[i]).Err?
    ensures r.Err? ==> r.error == ValueError(NoMatch)
  {
    if parts == [] then Ok([])
    else match ParseMinSec(parts[0])
      case Err(e) => Err(e)
      case Ok(t) =>
        match ParseAll(parts[1..])
        case Err(e) => Err(e)
        case Ok(ts) => Ok([t] + ts)
  }

  /**
   * `clip_start, clip_end = [... for i in clip.split(",")]`: a start and an end,
   * or `ValueError` from a failed parse (first) or from unpacking a list that
   * does not hold exactly two times.
   */
  function ParseClip(clip: string): (r: Result<(ClockTime, ClockTime)>)
    ensures r.Ok? <==> var parts := Text.Split(clip, ',');
      |parts| == 2 && ParseMinSec(parts[0]).Ok? && ParseMinSec(parts[1]).Ok?
    ensures r.Ok? ==> var parts := Text.Split(clip, ',');
      ParseMinSec(parts[0]) == Ok(r.value.0) && ParseMinSec(parts[1]) == Ok(r.value.1)
    ensures r.Err? ==> r.error.ValueError?
  {
    var parts := Text.Split(clip, ',');
    match ParseAll(parts)
    case Err(e) => Err(e)
    case Ok(ts) =>
      if |ts| > 2 then Err(ValueError(TooManyValues))
      else if |ts| < 2 then Err(ValueError(NotEnoughValues))
      else Ok((ts[0], ts[1]))
  }

  /** `time2seconds`: minutes and seconds only; the hour is ignored. */
  function Seconds(t: ClockTime): nat
  {
    60 * t.minute + t.second
  }

  /** What `clip_audio_video` logs before clipping. */
  datatype ClipLog = TooShort(start: nat, minimum: int)

  /** The offsets `subclip` is called with and what was logged on the way. */
  datatype ClipPlan = ClipPlan(start: nat, end: nat, logs: seq<ClipLog>)

  /**
   * The arithmetic part of `clip_audio_video`. A start below `minimumDuration`
   * is only logged; the clip still goes ahead, and the end is never compared
   * with the start.
   */
  function ClipAudioVideo(clipStart: ClockTime, clipEnd: ClockTime, minimumDuration: int := 1): (r: ClipPlan)
    ensures r.start == Seconds(clipStart) && r.end == Seconds(clipEnd)
    ensures r.logs == [] || r.logs == [TooShort(r.start, minimumDuration)]
    ensures r.logs != [] <==> Seconds(clipStart) < minimumDuration
  {
    var start, end := Seconds(clipStart), Seconds(clipEnd);
    ClipPlan(start, end, if start < minimumDuration then [TooShort(start, minimumDuration)] else [])
  }

  // ---- properties -------------------------------------------------------

  /** Seconds of a parsed time stay below an hour and give back minute and second. */
  lemma SecondsInverse(t: ClockTime)
    requires t.minute < 60 && t.second < 60
    ensures Seconds(t) < 3600
    ensures Seconds(t) / 60 == t.minute && Seconds(t) % 60 == t.second
  {
  }

  /** The hour of a time plays no part in its seconds. */
  lemma SecondsIgnoresHour(t: ClockTime, h: nat)
    ensures Seconds(ClockTime(h, t.minute, t.second)) == Seconds(t)
  {
  }

  function DigitChar(d: nat): char
    requires d < 10
  {
    '0' + d as char
  }

  /** Renders a value below 60 as strptime reads it back: one digit, or two. */
  function FormatField(n: nat): (s: string)
    requires n < 60
    ensures Field(s) == Some(n)
    ensures ':' !in s && ',' !in s
  {
    if n < 10 then [DigitChar(n)] else [DigitChar(n / 10), DigitChar(n % 10)]
  }

  function FormatMinSec(t: ClockTime): string
    requires t.minute < 60 && t.second < 60
  {
    FormatField(t.minute) + ":" + FormatField(t.second)
  }

  /** `M:S` text for a time of hour 0 parses back to that time. */
  lemma ParseFormatMinSec(t: ClockTime)
    requires t.hour == 0 && t.minute < 60 && t.second < 60
    ensures ParseMinSec(FormatMinSec(t)) == Ok(t)
    ensures ',' !in FormatMinSec(t)
  {
    var a, b := FormatField(t.minute), FormatField(t.second);
    Text.SplitJoin([a, b], ':');
    assert Text.Join([a, b], ":") == a + ":" + b by { assert [a, b][1..] == [b]; }
  }

  /** Formatting two times and joining them with ',' gives a clip argument that parses back to them. */
  lemma ParseFormatClip(start: ClockTime, end: ClockTime)
    requires start.hour == 0 && start.minute < 60 && start.second < 60
    requires end.hour == 0 && end.minute < 60 && end.second < 60
    ensures ParseClip(FormatMinSec(start) + "," + FormatMinSec(end)) == Ok((start, end))
  {
    var a, b := FormatMinSec(start), FormatMinSec(end);
    ParseFormatMinSec(start);
    ParseFormatMinSec(end);
    Text.SplitJoin([a, b], ',');
    assert Text.Join([a, b], ",") == a + "," + b by { assert [a, b][1..] == [b]; }
  }

  /** Every accepted clip argument consists of two parsed times with fields below 60 and hour 0. */
  lemma ParsedClipInRange(clip: string)
    requires ParseClip(clip).Ok?
    ensures var (s, e) := ParseClip(clip).value;
      s.hour == 0 && s.minute < 60 && s.second < 60 && e.hour == 0 && e.minute < 60 && e.second < 60
  {
  }

  /** A clip argument with three times is refused by the unpacking even though each time parses. */
  lemma ThreeTimesRefused(a: ClockTime, b: ClockTime, c: ClockTime)
    requires a.hour == 0 && a.minute < 60 && a.second < 60
    requires b.hour == 0 && b.minute < 60 && b.second < 60
    requires c.hour == 0 && c.minute < 60 && c.second < 60
    ensures ParseClip(FormatMinSec(a) + "," + FormatMinSec(b) + "," + FormatMinSec(c)) == Err(ValueError(TooManyValues))
  {
    var parts := [FormatMinSec(a), FormatMinSec(b), FormatMinSec(c)];
    ParseFormatMinSec(a);
    ParseFormatMinSec(b);
    ParseFormatMinSec(c);
    Text.SplitJoin(parts, ',');
    assert Text.Join(parts, ",") == parts[0] + "," + parts[1] + "," + parts[2] by {
      var rest := parts[1..];
      assert rest == [parts[1], parts[2]] && rest[1..] == [parts[2]];
      assert Text.Join(rest, ",") == parts[1] + "," + parts[2];
    }
    assert ParseAll(parts).Ok?;
  }

  /** "0:10,0:15" clips from second 10 to second 15 and logs nothing. */
  lemma TenToFifteen()
    ensures var t := ParseClip("0:10,0:15");
      && t == Ok((ClockTime(0, 0, 10), ClockTime(0, 0, 15)))
      && ClipAudioVideo(t.value.0, t.value.1) == ClipPlan(10, 15, [])
  {
    SplitTenFifteen();
    ParsesAs("0:10", ClockTime(0, 0, 10));
    ParsesAs("0:15", ClockTime(0, 0, 15));
  }

  lemma SplitTenFifteen()
    ensures Text.Split("0:10,0:15", ',') == ["0:10", "0:15"]
  {
    var parts := ["0:10", "0:15"];
    Text.SplitJoin(parts, ',');
    assert Text.Join(parts, ",") == "0:10,0:15" by { assert parts[1..] == ["0:15"]; }
  }

  /** `M:S` text spelled out as a literal parses to its time. */
  lemma ParsesAs(text: string, t: ClockTime)
    requires t.hour == 0 && t.minute < 60 && t.second < 60
    requires text == FormatMinSec(t)
    ensures ParseMinSec(text) == Ok(t)
  {
    ParseFormatMinSec(t);
  }

  /** An end before the start is accepted: nothing compares the two. */
  lemma EndBeforeStartAccepted()
    ensures var p := ClipAudioVideo(ClockTime(0, 0, 10), ClockTime(0, 0, 5));
      p.end < p.start && p.logs == []
  {
  }

  /** The minimum-duration check looks at the start offset, not the clip's length. */
  lemma MinimumCheckUsesStart()
    ensures ClipAudioVideo(ClockTime(0, 0, 0), ClockTime(0, 0, 30)).logs != []
    ensures ClipAudioVideo(ClockTime(0, 0, 10), ClockTime(0, 0, 10)).logs == []
  {
    assert Seconds(ClockTime(0, 0, 0)) < 1;
  }
}
