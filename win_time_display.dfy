/** average_win_time_display of roundRobin/models.py (and of ipx1/roundRobin/models.py):
    the average win time as "MM:SS", together with a reader of that text that shows
    what the text denotes. */
module WinTimeDisplay {
  import opened Options
  import opened Stats

  /** int(duration.total_seconds()): whole seconds, truncated toward zero. */
  function TruncatedSeconds(d: Duration): (t: int)
    ensures d >= 0 ==> 0 <= t * MicrosPerSecond <= d < (t + 1) * MicrosPerSecond
    ensures d < 0 ==> (t - 1) * MicrosPerSecond < d <= t * MicrosPerSecond <= 0
  {
    if d >= 0 then d / MicrosPerSecond else -((-d) / MicrosPerSecond)
  }

  function DigitChar(d: nat): char
    requires d < 10
  {
    ('0' as int + d) as char
  }

  /** The decimal numeral of a natural number, without leading zeros. */
  function Digits(n: nat): string
    decreases n
  {
    if n < 10 then [DigitChar(n)] else Digits(n / 10) + [DigitChar(n % 10)]
  }

  /** f"{n:02}": at least two characters, zero-padded after the sign. */
  function Pad2(n: int): string
  {
    if n < 0 then "-" + Digits(-n)
    else if n < 10 then "0" + Digits(n)
    else Digits(n)
  }

  /** average_win_time_display */
  function AverageWinTimeDisplay(p: Player): string
  {
    var duration := AverageWinTime(p);
    if duration == 0 then "00:00"
    else
      var totalSeconds := TruncatedSeconds(duration);
      Pad2(totalSeconds / 60) + ":" + Pad2(totalSeconds % 60)
  }

  // ---- reading the text back ----

  datatype Clock = Clock(minutes: int, seconds: int)

  function DigitValue(c: char): Option<nat>
  {
    if '0' <= c <= '9' then Some(c as int - '0' as int) else None
  }

  /** The value of a non-empty string of decimal digits. */
  function ParseNat(s: string): Option<nat>
    decreases |s|
  {
    if s == [] then None
    else match DigitValue(s[|s| - 1])
      case None => None
      case Some(d) =>
        if |s| == 1 then Some(d)
        else match ParseNat(s[..|s| - 1])
          case None => None
          case Some(n) => Some(n * 10 + d)
  }

  /** The value of an optionally signed numeral. */
  function ParseInt(s: string): Option<int>
  {
    if |s| > 0 && s[0] == '-' then
      match ParseNat(s[1..])
      case None => None
      case Some(n) => Some(-(n as int))
    else
      match ParseNat(s)
      case None => None
      case Some(n) => Some(n)
  }

  /** Reads "M...:SS": a signed minute count, a colon and two second digits. */
  function ParseClock(s: string): Option<Clock>
  {
    if |s| < 3 || s[|s| - 3] != ':' then None
    else match (ParseInt(s[..|s| - 3]), ParseNat(s[|s| - 2..]))
      case (Some(m), Some(sec)) => Some(Clock(m, sec))
      case _ => None
  }

  lemma {:induction false} DigitsShape(n: nat)
    ensures |Digits(n)| > 0 && Digits(n)[0] != '-'
    ensures n < 10 ==> |Digits(n)| == 1
    ensures 10 <= n < 100 ==> |Digits(n)| == 2
    decreases n
  {
    if n >= 10 {
      DigitsShape(n / 10);
    }
  }

  /** Reading a numeral gives back the number it was written from. */
  lemma {:induction false} ParseDigits(n: nat)
    ensures ParseNat(Digits(n)) == Some(n)
    decreases n
  {
    var s := Digits(n);
    if n < 10 {
      assert s == [DigitChar(n)];
      assert DigitValue(DigitChar(n)) == Some(n);
    } else {
      ParseDigits(n / 10);
      DigitsShape(n / 10);
      assert s[..|s| - 1] == Digits(n / 10);
      assert s[|s| - 1] == DigitChar(n % 10);
      assert DigitValue(DigitChar(n % 10)) == Some(n % 10);
    }
  }

  /** A digit padded with a leading zero reads back as the digit. */
  lemma ParsePaddedDigit(n: nat)
    requires n < 10
    ensures |Pad2(n)| == 2 && Pad2(n)[0] == '0'
    ensures ParseNat(Pad2(n)) == Some(n)
  {
    var s := Pad2(n);
    assert s == ['0', DigitChar(n)];
    assert s[..1] == "0";
    assert DigitValue(DigitChar(n)) == Some(n);
    assert DigitValue('0') == Some(0);
  }

  /** A negative number is written as a minus sign and its numeral. */
  lemma ParseNegative(n: int)
    requires n < 0
    ensures ParseInt(Pad2(n)) == Some(n)
  {
    ParseDigits(-n);
    var s := Pad2(n);
    assert s[0] == '-';
    assert s[1..] == Digits(-n);
  }

  /** Reading f"{n:02}" gives back n. */
  lemma ParsePad2(n: int)
    ensures ParseInt(Pad2(n)) == Some(n)
    ensures 0 <= n < 100 ==> |Pad2(n)| == 2 && ParseNat(Pad2(n)) == Some(n)
  {
    if n < 0 {
      ParseNegative(n);
    } else if n < 10 {
      ParsePaddedDigit(n);
    } else {
      ParseDigits(n);
      DigitsShape(n);
    }
  }

  /** Reading the text written for a whole number of seconds gives back its
      minutes and its seconds. */
  lemma ParseClockText(t: int)
    ensures ParseClock(Pad2(t / 60) + ":" + Pad2(t % 60)) == Some(Clock(t / 60, t % 60))
  {
    var mm, ss := Pad2(t / 60), Pad2(t % 60);
    var s := mm + ":" + ss;
    ParsePad2(t / 60);
    ParsePad2(t % 60);
    assert s[..|s| - 3] == mm;
    assert s[|s| - 2..] == ss;
  }

  /** The display always denotes the average win time, truncated to whole
      seconds: minutes times sixty plus the seconds, with the seconds in 0..59.
      Below a hundred minutes the minutes are shown with exactly two digits. */
  lemma DisplayDenotesAverage(p: Player)
    ensures match ParseClock(AverageWinTimeDisplay(p))
      case Some(c) =>
        && c.minutes * 60 + c.seconds == TruncatedSeconds(AverageWinTime(p))
        && 0 <= c.seconds <= 59
      case None => false
    ensures 0 <= TruncatedSeconds(AverageWinTime(p)) < 100 * 60 ==> |AverageWinTimeDisplay(p)| == 5
  {
    var duration := AverageWinTime(p);
    var t := TruncatedSeconds(duration);
    if duration == 0 {
      ParseClockText(0);
      assert Pad2(0) + ":" + Pad2(0) == "00:00";
    } else {
      ParseClockText(t);
      if 0 <= t < 100 * 60 {
        ParsePad2(t / 60);
        ParsePad2(t % 60);
      }
    }
  }

  /** "00:00" is shown exactly when the average truncates to zero whole seconds
      (and so whenever the player has not won). */
  lemma ZeroDisplay(p: Player)
    ensures AverageWinTimeDisplay(p) == "00:00" <==> TruncatedSeconds(AverageWinTime(p)) == 0
    ensures p.wins == 0 ==> AverageWinTimeDisplay(p) == "00:00"
  {
    var duration := AverageWinTime(p);
    var t := TruncatedSeconds(duration);
    DisplayDenotesAverage(p);
    if duration != 0 && t == 0 {
      assert Pad2(0) == "00";
    }
    if AverageWinTimeDisplay(p) == "00:00" {
      var s := "00:00";
      assert s[..|s| - 3] == "00" && s[|s| - 2..] == "00";
      ParsePad2(0);
      assert Pad2(0) == "00";
      assert ParseClock(s) == Some(Clock(0, 0));
    }
  }
}
