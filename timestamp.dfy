/**
 * `format_timestamp_srt`, the SubRip cue-time formatter both scripts share.
 * A time offset is a whole number of milliseconds: the model starts where the
 * source has already truncated its float to `total_seconds` and `millis`.
 */
module Timestamp {
  import opened Wrappers
  import opened PyStr

  /** The four fields of an `HH:MM:SS,mmm` timestamp. */
  datatype Fields = Fields(hours: nat, minutes: nat, secs: nat, millis: nat)

  /**
   * Splits an offset into fields the way the source does: hours is
   * `total_seconds // 3600` (no wrap at 24), minutes `(total_seconds % 3600) // 60`,
   * secs `total_seconds % 60`, and millis the sub-second remainder.
   */
  function Decompose(totalMillis: nat): Fields
  {
    var totalSeconds := totalMillis / 1000;
    Fields(totalSeconds / 3600, (totalSeconds % 3600) / 60, totalSeconds % 60, totalMillis % 1000)
  }

  /**
   * The fields add back up to the offset, minutes and secs stay below 60,
   * millis below 1000, and hours is not reduced modulo 24.
   */
  lemma DecomposeExact(totalMillis: nat)
    ensures var f := Decompose(totalMillis);
      && f.hours * 3600 + f.minutes * 60 + f.secs == totalMillis / 1000
      && f.minutes < 60 && f.secs < 60 && f.millis < 1000
      && f.millis == totalMillis % 1000
      && f.hours == totalMillis / 3600000
  {
    SecondsSplit(totalMillis / 1000);
    HoursOfMillis(totalMillis);
  }

  /** Seconds within the hour split into whole minutes and the seconds left over. */
  lemma SecondsSplit(t: nat)
    ensures t % 60 == (t % 3600) % 60
    ensures (t / 3600) * 3600 + ((t % 3600) / 60) * 60 + t % 60 == t
    ensures (t % 3600) / 60 < 60
  {
    var q, r := t / 3600, t % 3600;
    assert t == (q * 60) * 60 + r;
    ModOfMultiple(q * 60, r);
  }

  lemma ModOfMultiple(k: nat, r: nat)
    ensures (k * 60 + r) % 60 == r % 60
  {
    var n := k * 60 + r;
    assert n == (k + r / 60) * 60 + r % 60;
  }

  /** Whole hours computed from whole seconds agree with hours computed from milliseconds. */
  lemma HoursOfMillis(totalMillis: nat)
    ensures (totalMillis / 1000) / 3600 == totalMillis / 3600000
  {
    var q, r := totalMillis / 3600000, totalMillis % 3600000;
    var t := totalMillis / 1000;
    assert totalMillis == q * 3600000 + r;
    assert t == q * 3600 + r / 1000;
    assert r / 1000 < 3600;
  }

  /** `f"{hours:02}:{minutes:02}:{secs:02},{millis:03}"` over the decomposed offset. */
  function FormatTimestampSrt(totalMillis: nat): string
  {
    var f := Decompose(totalMillis);
    PadNat(f.hours, 2) + ":" + PadNat(f.minutes, 2) + ":" + PadNat(f.secs, 2) + "," + PadNat(f.millis, 3)
  }

  /** Below 100 hours a timestamp is exactly 12 characters; beyond, hours takes more digits. */
  lemma FormatLength(totalMillis: nat)
    ensures |FormatTimestampSrt(totalMillis)| >= 12
    ensures totalMillis < 360000000 <==> |FormatTimestampSrt(totalMillis)| == 12
  {
    var f := Decompose(totalMillis);
    DecomposeExact(totalMillis);
    FieldWidths(f);
    if f.hours >= 100 {
      assert |NatToString(f.hours)| > 2;
    }
  }

  /** A timestamp is made of digits, ':' and ',' only. */
  lemma FormatAlphabet(totalMillis: nat, c: char)
    requires !IsDigit(c) && c != ':' && c != ','
    ensures c !in FormatTimestampSrt(totalMillis)
  {
    var f := Decompose(totalMillis);
    NoSeparatorInDigits(PadNat(f.hours, 2), c);
    NoSeparatorInDigits(PadNat(f.minutes, 2), c);
    NoSeparatorInDigits(PadNat(f.secs, 2), c);
    NoSeparatorInDigits(PadNat(f.millis, 3), c);
  }

  lemma FieldWidths(f: Fields)
    requires f.minutes < 60 && f.secs < 60 && f.millis < 1000
    ensures |PadNat(f.minutes, 2)| == 2 && |PadNat(f.secs, 2)| == 2 && |PadNat(f.millis, 3)| == 3
    ensures f.hours < 100 ==> |PadNat(f.hours, 2)| == 2
  {
    assert Pow10(2) == 100 && Pow10(3) == 1000;
    NatToStringLength(f.minutes, 2);
    NatToStringLength(f.secs, 2);
    NatToStringLength(f.millis, 3);
    if f.hours < 100 { NatToStringLength(f.hours, 2); }
  }

  /** A field of exactly `width` digits whose value is below `bound`. */
  function ParseField(s: string, width: nat, bound: nat): Option<nat>
  {
    if |s| != width then None
    else
      match ParseNat(s)
      case Some(n) => if n < bound then Some(n) else None
      case None => None
  }

  /**
   * Reads `H:MM:SS,mmm` (hours at least two digits) back into milliseconds:
   * the partner of FormatTimestampSrt.
   */
  function ParseTimestampSrt(s: string): Option<nat>
  {
    var hoursRest :- SplitFirst(s, ':');
    var minutesRest :- SplitFirst(hoursRest.1, ':');
    var secsMillis :- SplitFirst(minutesRest.1, ',');
    var hours :- if |hoursRest.0| >= 2 then ParseNat(hoursRest.0) else None;
    var minutes :- ParseField(minutesRest.0, 2, 60);
    var secs :- ParseField(secsMillis.0, 2, 60);
    var millis :- ParseField(secsMillis.1, 3, 1000);
    Some((hours * 3600 + minutes * 60 + secs) * 1000 + millis)
  }

  /** Reading back four well-formed fields joined by the separators gives their value. */
  lemma ParseOfFields(h: string, m: string, sec: string, ms: string, f: Fields)
    requires |h| >= 2 && ParseNat(h) == Some(f.hours) && AllDigits(h)
    requires |m| == 2 && ParseNat(m) == Some(f.minutes) && AllDigits(m) && f.minutes < 60
    requires |sec| == 2 && ParseNat(sec) == Some(f.secs) && AllDigits(sec) && f.secs < 60
    requires |ms| == 3 && ParseNat(ms) == Some(f.millis) && f.millis < 1000
    ensures ParseTimestampSrt(h + ":" + m + ":" + sec + "," + ms)
         == Some((f.hours * 3600 + f.minutes * 60 + f.secs) * 1000 + f.millis)
  {
    NoSeparatorInDigits(h, ':');
    NoSeparatorInDigits(m, ':');
    NoSeparatorInDigits(sec, ',');
    var tail2 := sec + [','] + ms;
    var tail1 := m + [':'] + tail2;
    assert h + ":" + m + ":" + sec + "," + ms == h + [':'] + tail1;
    SplitFirstOfJoin(h, ':', tail1);
    SplitFirstOfJoin(m, ':', tail2);
    SplitFirstOfJoin(sec, ',', ms);
  }

  /** Formatting and reading back gives the same offset. */
  lemma ParseFormatRoundTrip(totalMillis: nat)
    ensures ParseTimestampSrt(FormatTimestampSrt(totalMillis)) == Some(totalMillis)
  {
    var f := Decompose(totalMillis);
    DecomposeExact(totalMillis);
    FieldWidths(f);
    PadNatRoundTrip(f.hours, 2);
    PadNatRoundTrip(f.minutes, 2);
    PadNatRoundTrip(f.secs, 2);
    PadNatRoundTrip(f.millis, 3);
    ParseOfFields(PadNat(f.hours, 2), PadNat(f.minutes, 2), PadNat(f.secs, 2), PadNat(f.millis, 3), f);
    assert (f.hours * 3600 + f.minutes * 60 + f.secs) * 1000 + f.millis == totalMillis;
  }

  /** Distinct offsets never share a timestamp string. */
  lemma FormatInjective(a: nat, b: nat)
    requires FormatTimestampSrt(a) == FormatTimestampSrt(b)
    ensures a == b
  {
    ParseFormatRoundTrip(a);
    ParseFormatRoundTrip(b);
  }

  lemma SmallPads()
    ensures PadNat(0, 2) == "00" && PadNat(0, 3) == "000"
    ensures PadNat(1, 2) == "01" && PadNat(500, 3) == "500"
  {
    assert NatToString(0) == "0" && NatToString(1) == "1" && NatToString(5) == "5";
    assert NatToString(50) == "50";
    assert NatToString(500) == "500";
    assert Zeros(1) == "0" && Zeros(2) == "00";
  }

  /** The two sample values: 0 s and 3661.5 s. */
  lemma FormatExamples()
    ensures FormatTimestampSrt(0) == "00:00:00,000"
    ensures FormatTimestampSrt(3661500) == "01:01:01,500"
  {
    SmallPads();
    assert Decompose(0) == Fields(0, 0, 0, 0);
    assert Decompose(3661500) == Fields(1, 1, 1, 500);
  }
}
