/**
 * Song duration text shown in a candidate row ("M:SS" or "MM:SS") and its
 * conversion to seconds.
 */
module Duration {
  import opened Wrappers
  import opened Text
  import opened Constants

  /** The largest duration the accepted format can express: 23:59. */
  const MAX_PARSED_DURATION: int := 23 * 60 + 59

  /** Minutes field of `^([0-1]?[0-9]|2[0-3]):[0-5][0-9]$`. */
  predicate MinutesField(m: string) {
    || (|m| == 1 && IsDigit(m[0]))
    || (|m| == 2 && '0' <= m[0] <= '1' && IsDigit(m[1]))
    || (|m| == 2 && m[0] == '2' && '0' <= m[1] <= '3')
  }

  /** Seconds field of the same pattern. */
  predicate SecondsField(s: string) {
    |s| == 2 && '0' <= s[0] <= '5' && IsDigit(s[1])
  }

  /** `is_valid_time_format`: minutes 0 to 23, a colon, seconds 00 to 59. */
  predicate IsValidTimeFormat(t: string) {
    && 4 <= |t| <= 5
    && t[|t| - 3] == ':'
    && MinutesField(t[..|t| - 3])
    && SecondsField(t[|t| - 2..])
  }

  /** `time_to_seconds`: the two fields around the colon read as integers. */
  function TimeToSeconds(t: string): (r: int)
    requires IsValidTimeFormat(t)
    ensures 0 <= r <= MAX_PARSED_DURATION
  {
    var minutes := DigitsValue(t[..|t| - 3]);
    var seconds := DigitsValue(t[|t| - 2..]);
    assert minutes <= 23 by { MinutesBound(t[..|t| - 3]); }
    assert seconds <= 59 by { SecondsBound(t[|t| - 2..]); }
    minutes * 60 + seconds
  }

  lemma MinutesBound(m: string)
    requires MinutesField(m)
    ensures DigitsValue(m) <= 23
  {
    if |m| == 2 {
      DigitsValueTwo(m);
    } else {
      DigitsValueOne(m);
    }
  }

  lemma SecondsBound(s: string)
    requires SecondsField(s)
    ensures DigitsValue(s) == DigitValue(s[0]) * 10 + DigitValue(s[1]) <= 59
  {
    DigitsValueTwo(s);
  }

  /**
   * `get_song_duration` applied to the duration span of a row: `None` when
   * the span is missing (`span == None`) or its text is not a finished
   * duration.
   */
  function SongDuration(span: Option<string>): (r: Option<int>)
    ensures r.Some? <==>
      && span.Some?
      && span.value != ""
      && |span.value| <= SUNO_SONG_DURATION_STRING_LENGTH
      && span.value != UNFINISHED_SONG_LENGTH_PLACEHOLDER
      && IsValidTimeFormat(span.value)
    ensures r.Some? ==> 0 <= r.value <= MAX_PARSED_DURATION
  {
    match span
    case None => None
    case Some(text) =>
      if && text != ""
         && |text| <= SUNO_SONG_DURATION_STRING_LENGTH
         && text != UNFINISHED_SONG_LENGTH_PLACEHOLDER
         && IsValidTimeFormat(text)
      then Some(TimeToSeconds(text))
      else None
  }

  /**
   * A parsed duration read with Python truthiness: `0:00` parses to 0,
   * which the callers treat exactly like a missing duration.
   */
  predicate IsFinished(d: Option<int>) {
    d.Some? && d.value != 0
  }

  /** The length, placeholder and emptiness checks are implied by the format. */
  lemma FormatImpliesGuards(t: string)
    requires IsValidTimeFormat(t)
    ensures t != "" && |t| <= SUNO_SONG_DURATION_STRING_LENGTH
    ensures t != UNFINISHED_SONG_LENGTH_PLACEHOLDER
  {
  }

  /** How the site prints a duration: minutes without padding, two-digit seconds. */
  function FormatDuration(n: nat): string
    requires n <= MAX_PARSED_DURATION
  {
    NatToString(n / 60) + ":" + [DigitChar(n % 60 / 10), DigitChar(n % 10)]
  }

  /** Every printable duration is read back as itself. */
  lemma DurationRoundTrip(n: nat)
    requires n <= MAX_PARSED_DURATION
    ensures SongDuration(Some(FormatDuration(n))) == Some(n)
  {
    var m, sec := n / 60, n % 60;
    var t := FormatDuration(n);
    MinutesText(m);
    SecondsText(sec);
    SecondsOfFormat(n);
    assert t == NatToString(m) + ":" + [DigitChar(sec / 10), DigitChar(sec % 10)];
    TimeFields(NatToString(m), [DigitChar(sec / 10), DigitChar(sec % 10)]);
    FormatImpliesGuards(t);
  }

  /** A minutes field and a seconds field around a colon form a valid time read field by field. */
  lemma TimeFields(ms: string, ss: string)
    requires MinutesField(ms) && SecondsField(ss)
    ensures var t := ms + ":" + ss;
      && IsValidTimeFormat(t)
      && TimeToSeconds(t) == DigitsValue(ms) * 60 + DigitsValue(ss)
  {
    var t := ms + ":" + ss;
    assert t[..|t| - 3] == ms && t[|t| - 3] == ':' && t[|t| - 2..] == ss;
  }

  /** Printed minutes up to 23 fit the minutes field and read back as themselves. */
  lemma MinutesText(m: nat)
    requires m <= 23
    ensures MinutesField(NatToString(m)) && DigitsValue(NatToString(m)) == m
  {
    NatToStringRoundTrip(m);
    if m >= 10 {
      assert NatToString(m) == NatToString(m / 10) + [DigitChar(m % 10)];
      assert NatToString(m / 10) == [DigitChar(m / 10)];
    }
  }

  /** Two printed digits of a value below 60 fit the seconds field and read back as it. */
  lemma SecondsText(sec: nat)
    requires sec < 60
    ensures var ss := [DigitChar(sec / 10), DigitChar(sec % 10)];
      SecondsField(ss) && DigitsValue(ss) == sec
  {
    DigitsValueTwo([DigitChar(sec / 10), DigitChar(sec % 10)]);
  }

  /** The seconds digits printed from `n` are those of `n % 60`. */
  lemma SecondsOfFormat(n: nat)
    requires n <= MAX_PARSED_DURATION
    ensures FormatDuration(n) == NatToString(n / 60) + ":" + [DigitChar(n % 60 / 10), DigitChar(n % 60 % 10)]
  {
    var q, r := n / 60, n % 60;
    assert n == 10 * (6 * q + r / 10) + r % 10;
    assert n % 10 == r % 10;
  }

  /** Division by 60 recovers minutes and seconds. */
  lemma DivSixty(n: int, m: nat, sec: nat)
    requires n == m * 60 + sec && sec < 60
    ensures n / 60 == m && n % 60 == sec
  {
  }

  /** A seconds field is the two-digit print of its value. */
  lemma SecondsCanonical(ss: string)
    requires SecondsField(ss)
    ensures var v := DigitsValue(ss); v < 60 && [DigitChar(v / 10), DigitChar(v % 10)] == ss
  {
    SecondsBound(ss);
  }

  /** A minutes field is the print of its value, possibly after one leading zero. */
  lemma MinutesCanonical(ms: string)
    requires MinutesField(ms)
    ensures var m := DigitsValue(ms);
      NatToString(m) == ms || (|ms| == 2 && ms[0] == '0' && NatToString(m) == ms[1..])
  {
    if |ms| == 1 {
      DigitsValueOne(ms);
      DigitCharOfValue(ms[0]);
    } else if ms[0] == '0' {
      PaddedMinutes(ms);
    } else {
      TwoDigitMinutes(ms);
    }
  }

  lemma PaddedMinutes(ms: string)
    requires |ms| == 2 && ms[0] == '0' && IsDigit(ms[1])
    ensures NatToString(DigitsValue(ms)) == ms[1..]
  {
    DigitsValueTwo(ms);
    DigitCharOfValue(ms[1]);
    assert ms[1..] == [ms[1]];
  }

  lemma TwoDigitMinutes(ms: string)
    requires |ms| == 2 && '1' <= ms[0] <= '9' && IsDigit(ms[1])
    ensures NatToString(DigitsValue(ms)) == ms
  {
    DigitsValueTwo(ms);
    DigitCharOfValue(ms[0]);
    DigitCharOfValue(ms[1]);
    TwoDigitPrint(DigitValue(ms[0]), DigitValue(ms[1]));
    assert ms == [ms[0], ms[1]];
  }

  lemma DigitCharOfValue(c: char)
    requires IsDigit(c)
    ensures DigitValue(c) < 10 && DigitChar(DigitValue(c)) == c
  {
  }

  /** A two-digit number with a non-zero first digit prints as those two digits. */
  lemma TwoDigitPrint(hi: nat, lo: nat)
    requires 1 <= hi < 10 && lo < 10
    ensures NatToString(hi * 10 + lo) == [DigitChar(hi), DigitChar(lo)]
  {
    var m := hi * 10 + lo;
    DivTen(hi, lo);
    assert NatToString(m) == NatToString(hi) + [DigitChar(lo)];
  }

  lemma DivTen(hi: nat, lo: nat)
    requires lo < 10
    ensures (hi * 10 + lo) / 10 == hi && (hi * 10 + lo) % 10 == lo
  {
    var m := hi * 10 + lo;
    var q, r := m / 10, m % 10;
    assert m == 10 * q + r && 0 <= r < 10;
    assert 10 * (q - hi) == lo - r && -10 < lo - r < 10;
  }

  /**
   * Reading is faithful: a parsed text is the printed form of its value,
   * up to one leading zero on the minutes.
   */
  lemma DurationCanonical(t: string, n: int)
    requires SongDuration(Some(t)) == Some(n)
    ensures 0 <= n
    ensures FormatDuration(n) == t || (|t| == 5 && t[0] == '0' && FormatDuration(n) == t[1..])
  {
    var ms, ss := t[..|t| - 3], t[|t| - 2..];
    var m, sec := DigitsValue(ms), DigitsValue(ss);
    MinutesBound(ms);
    SecondsCanonical(ss);
    assert n == m * 60 + sec;
    DivSixty(n, m, sec);
    SecondsOfFormat(n);
    MinutesCanonical(ms);
    assert t == ms + ":" + ss;
    assert FormatDuration(n) == NatToString(m) + ":" + ss;
    if |t| == 5 && ms[0] == '0' {
      assert t[1..] == ms[1..] + ":" + ss;
    }
  }
}
