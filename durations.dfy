/**
 * The duration renderings of the interface (the several `formatTime` helpers),
 * each with a reader proving that the rendering shows the values it claims to.
 */
module Durations {
  import opened Options
  import opened Numerals

  /** Whole hours, the minutes past the hour, and the seconds past the minute. */
  function Hours(seconds: nat): nat { seconds / 3600 }
  function MinutesPart(seconds: nat): nat { (seconds % 3600) / 60 }
  function SecondsPart(seconds: nat): nat { seconds % 60 }

  /** The three parts recompose the duration, and the two lower parts are below 60. */
  lemma PartsRecompose(seconds: nat)
    ensures MinutesPart(seconds) < 60 && SecondsPart(seconds) < 60
    ensures Hours(seconds) * 3600 + MinutesPart(seconds) * 60 + SecondsPart(seconds) == seconds
  {
  }

  /** `${hours}h ${minutes}m`: the dashboard's rendering, hours always shown. */
  function HoursMinutes(seconds: nat): (r: string)
    ensures |r| >= 4 && r[|r| - 1] == 'm'
  {
    NatToString(Hours(seconds)) + "h " + NatToString(MinutesPart(seconds)) + "m"
  }

  /** `${hours}h ${minutes}m` from one hour on, `${minutes}m` below: the task cards' rendering. */
  function Compact(seconds: nat): (r: string)
    ensures |r| >= 2 && r[|r| - 1] == 'm'
    ensures seconds < 3600 ==> r == NatToString(MinutesPart(seconds)) + "m"
    ensures seconds >= 3600 ==> r == HoursMinutes(seconds)
  {
    if Hours(seconds) > 0 then HoursMinutes(seconds)
    else NatToString(MinutesPart(seconds)) + "m"
  }

  /** `h:mm:ss` from one hour on, `m:ss` below: the running timer's rendering. */
  function Clock(seconds: nat): (r: string)
    ensures |r| >= 4
  {
    if Hours(seconds) > 0 then
      NatToString(Hours(seconds)) + ":" + Pad2(MinutesPart(seconds)) + ":" + Pad2(SecondsPart(seconds))
    else
      NatToString(MinutesPart(seconds)) + ":" + Pad2(SecondsPart(seconds))
  }

  /** `${hours}h ${mins}m` or `${mins}m` for a duration counted in whole minutes. */
  function MinutesLabel(minutes: nat): (r: string)
    ensures |r| >= 2 && r[|r| - 1] == 'm'
  {
    var hours := minutes / 60;
    var mins := minutes % 60;
    if hours > 0 then NatToString(hours) + "h " + NatToString(mins) + "m"
    else NatToString(mins) + "m"
  }

  /** Reads `<h>h <m>m`. */
  function ParseHoursMinutes(s: string): Option<(nat, nat)>
  {
    match ReadNat(s)
    case None => None
    case Some((h, rest)) =>
      if |rest| >= 2 && rest[..2] == "h " then
        match ReadNat(rest[2..])
        case None => None
        case Some((m, tail)) => if tail == "m" then Some((h, m)) else None
      else None
  }

  /** Reads `<m>m` as zero hours, or `<h>h <m>m`. */
  function ParseCompact(s: string): Option<(nat, nat)>
  {
    match ReadNat(s)
    case None => None
    case Some((n, rest)) => if rest == "m" then Some((0, n)) else ParseHoursMinutes(s)
  }

  /** Reads exactly two digits. */
  function ReadTwo(s: string): Option<(nat, string)>
  {
    if |s| >= 2 && AllDigits(s[..2]) then Some((DigitsValue(s[..2]), s[2..])) else None
  }

  /** Reads `<m>:<ss>` as zero hours, or `<h>:<mm>:<ss>`. */
  function ParseClock(s: string): Option<(nat, nat, nat)>
  {
    match ReadNat(s)
    case None => None
    case Some((a, r1)) => ParseClockAfterFirst(a, r1)
  }

  /** Reads `:<mm>` after the leading number, then either the end or `:<ss>`. */
  function ParseClockAfterFirst(a: nat, r1: string): Option<(nat, nat, nat)>
  {
    if r1 == [] || r1[0] != ':' then None
    else match ReadTwo(r1[1..])
      case None => None
      case Some((b, r2)) => if r2 == [] then Some((0, a, b)) else ParseClockSeconds(a, b, r2)
  }

  /** Reads the trailing `:<ss>` of the long form. */
  function ParseClockSeconds(a: nat, b: nat, r2: string): Option<(nat, nat, nat)>
  {
    if r2 == [] || r2[0] != ':' then None
    else match ReadTwo(r2[1..])
      case None => None
      case Some((c, r3)) => if r3 == [] then Some((a, b, c)) else None
  }

  lemma ReadTwoPad2(n: nat, rest: string)
    requires n < 100
    ensures ReadTwo(Pad2(n) + rest) == Some((n, rest))
  {
    var p := Pad2(n);
    assert (p + rest)[..2] == p;
    assert (p + rest)[2..] == rest;
    Pad2Value(n);
  }

  lemma ReadHoursMinutesTail(h: nat, m: nat)
    ensures ParseHoursMinutes(NatToString(h) + "h " + NatToString(m) + "m") == Some((h, m))
  {
    var tail := "h " + NatToString(m) + "m";
    assert NatToString(h) + "h " + NatToString(m) + "m" == NatToString(h) + tail;
    ReadNatToString(h, tail);
    assert tail[..2] == "h ";
    assert tail[2..] == NatToString(m) + "m";
    ReadNatToString(m, "m");
  }

  /** The dashboard's rendering shows exactly the whole hours and the minutes past the hour. */
  lemma HoursMinutesRoundTrip(seconds: nat)
    ensures ParseHoursMinutes(HoursMinutes(seconds)) == Some((Hours(seconds), MinutesPart(seconds)))
    ensures MinutesPart(seconds) < 60
  {
    ReadHoursMinutesTail(Hours(seconds), MinutesPart(seconds));
  }

  /** The card rendering shows the whole hours (zero when omitted) and the minutes past the hour. */
  lemma CompactRoundTrip(seconds: nat)
    ensures ParseCompact(Compact(seconds)) == Some((Hours(seconds), MinutesPart(seconds)))
    ensures (Hours(seconds) > 0) <==> seconds >= 3600
  {
    var h, m := Hours(seconds), MinutesPart(seconds);
    if h > 0 {
      var tail := "h " + NatToString(m) + "m";
      assert Compact(seconds) == NatToString(h) + tail;
      ReadNatToString(h, tail);
      ReadHoursMinutesTail(h, m);
    } else {
      ReadNatToString(m, "m");
    }
  }

  lemma ReadClockSeconds(a: nat, b: nat, sec: nat)
    requires sec < 60
    ensures ParseClockSeconds(a, b, ":" + Pad2(sec)) == Some((a, b, sec))
  {
    assert (":" + Pad2(sec))[1..] == Pad2(sec) + [];
    ReadTwoPad2(sec, []);
  }

  lemma ReadClockMinutesSeconds(a: nat, m: nat, sec: nat)
    requires m < 60 && sec < 60
    ensures ParseClockAfterFirst(a, ":" + (Pad2(m) + (":" + Pad2(sec)))) == Some((a, m, sec))
  {
    var r2 := ":" + Pad2(sec);
    assert (":" + (Pad2(m) + r2))[1..] == Pad2(m) + r2;
    ReadTwoPad2(m, r2);
    ReadClockSeconds(a, m, sec);
  }

  /** The long timer form reads back as its three parts. */
  lemma ReadLongClock(h: nat, m: nat, sec: nat)
    requires m < 60 && sec < 60
    ensures ParseClock(NatToString(h) + ":" + Pad2(m) + ":" + Pad2(sec)) == Some((h, m, sec))
  {
    var r1 := ":" + (Pad2(m) + (":" + Pad2(sec)));
    assert NatToString(h) + ":" + Pad2(m) + ":" + Pad2(sec) == NatToString(h) + r1;
    ReadNatToString(h, r1);
    ReadClockMinutesSeconds(h, m, sec);
  }

  /** The short timer form reads back as zero hours, the minutes and the seconds. */
  lemma ReadShortClock(m: nat, sec: nat)
    requires sec < 60
    ensures ParseClock(NatToString(m) + ":" + Pad2(sec)) == Some((0, m, sec))
  {
    var r1 := ":" + Pad2(sec);
    assert NatToString(m) + ":" + Pad2(sec) == NatToString(m) + r1;
    ReadNatToString(m, r1);
    assert r1[1..] == Pad2(sec) + [];
    ReadTwoPad2(sec, []);
  }

  /** The timer rendering shows hours, minutes and seconds, so it loses nothing. */
  lemma ClockRoundTrip(seconds: nat)
    ensures ParseClock(Clock(seconds)) == Some((Hours(seconds), MinutesPart(seconds), SecondsPart(seconds)))
  {
    if Hours(seconds) > 0 {
      ReadLongClock(Hours(seconds), MinutesPart(seconds), SecondsPart(seconds));
    } else {
      ReadShortClock(MinutesPart(seconds), SecondsPart(seconds));
    }
  }

  /** Two durations with the same timer rendering are equal. */
  lemma ClockInjective(s: nat, t: nat)
    requires Clock(s) == Clock(t)
    ensures s == t
  {
    ClockRoundTrip(s);
    ClockRoundTrip(t);
    PartsRecompose(s);
    PartsRecompose(t);
  }

  /** The minute rendering of the breakdown dialog is the card rendering of the same span in seconds. */
  lemma MinutesLabelIsCompact(minutes: nat)
    ensures MinutesLabel(minutes) == Compact(60 * minutes)
  {
    var s := 60 * minutes;
    assert Hours(s) == minutes / 60;
    assert MinutesPart(s) == minutes % 60;
  }
}
