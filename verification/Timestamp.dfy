/** `format_unix_utc`: the `YYYY-MM-DDTHH:MM:SSZ` stamp of a Unix second, and the reader that
    takes a stamp back to its second. */
module Timestamp {
  import opened Calendar
  import opened Wrappers

  // ----- Decimal numerals -----

  function DigitChar(n: nat): char
    requires n < 10
  {
    ('0' as int + n) as char
  }

  predicate IsDigit(c: char) {
    '0' <= c <= '9'
  }

  predicate AllDigits(s: string) {
    forall i :: 0 <= i < |s| ==> IsDigit(s[i])
  }

  function Digits(n: nat): string {
    if n < 10 then [DigitChar(n)] else Digits(n / 10) + [DigitChar(n % 10)]
  }

  function Value(s: string): nat
    requires AllDigits(s)
  {
    if s == [] then 0 else Value(s[..|s| - 1]) * 10 + (s[|s| - 1] as int - '0' as int)
  }

  function ZeroPad(s: string, width: nat): string
    decreases width - |s|
  {
    if |s| >= width then s else ZeroPad("0" + s, width)
  }

  lemma {:induction false} DigitsReadBack(n: nat)
    ensures AllDigits(Digits(n)) && |Digits(n)| >= 1 && Value(Digits(n)) == n
    ensures n < 100 ==> |Digits(n)| <= 2
  {
    if n >= 10 {
      DigitsReadBack(n / 10);
      assert Digits(n)[..|Digits(n)| - 1] == Digits(n / 10);
    }
  }

  lemma {:induction false} LeadingZero(s: string)
    requires AllDigits(s)
    ensures AllDigits("0" + s) && Value("0" + s) == Value(s)
  {
    var z := "0" + s;
    if s == [] {
      assert z[..0] == [];
    } else {
      assert z[..|z| - 1] == "0" + s[..|s| - 1];
      LeadingZero(s[..|s| - 1]);
    }
  }

  lemma {:induction false} ZeroPadReadsBack(s: string, width: nat)
    requires AllDigits(s)
    ensures AllDigits(ZeroPad(s, width)) && Value(ZeroPad(s, width)) == Value(s)
    ensures |ZeroPad(s, width)| == if |s| >= width then |s| else width
    decreases width - |s|
  {
    if |s| < width {
      LeadingZero(s);
      ZeroPadReadsBack("0" + s, width);
    }
  }

  // ----- The stamp -----

  /** `{n:02}` of a value below 100. */
  function TwoDigits(n: nat): string {
    ZeroPad(Digits(n), 2)
  }

  /** `{year:04}`: the sign counts towards the width. */
  function YearText(y: int): string {
    if y >= 0 then ZeroPad(Digits(y), 4) else "-" + ZeroPad(Digits(-y), 3)
  }

  /** Everything after the year: `-MM-DDTHH:MM:SSZ`, sixteen characters. */
  function TailText(month: nat, day: nat, hours: nat, minutes: nat, seconds: nat): string {
    "-" + TwoDigits(month) + "-" + TwoDigits(day) + "T" + TwoDigits(hours) + ":" + TwoDigits(minutes) + ":"
    + TwoDigits(seconds) + "Z"
  }

  function Stamp(secs: nat): string {
    var d := YmdFromDays(secs / 86400);
    var t := secs % 86400;
    CivilFromDaysIsInverse(secs / 86400);
    YearText(d.year) + TailText(d.month, d.day, t / 3600, t % 3600 / 60, t % 60)
  }

  /** `format_unix_utc`, which reduces `secs` in place. */
  method FormatUnixUtc(secs: nat) returns (text: string)
    requires secs < TWO_64
    ensures text == Stamp(secs)
  {
    var rest := secs;
    var days := rest / 86400;
    rest := rest % 86400;
    var hours := rest / 3600;
    rest := rest % 3600;
    var minutes := rest / 60;
    var seconds := rest % 60;
    assert seconds == secs % 86400 % 60;
    var year, month, day := DaysToYmd(days);
    text := YearText(year) + TailText(month, day, hours, minutes, seconds);
  }

  // ----- The reader -----

  datatype Tail = Tail(month: nat, day: nat, second: nat)

  /** Reads the fixed-width part: separators in place, digits elsewhere, an existing time. */
  function ParseTail(t: string): Option<Tail> {
    if !(|t| == 16 && t[0] == '-' && t[3] == '-' && t[6] == 'T' && t[9] == ':' && t[12] == ':' && t[15] == 'Z') then None
    else
      var mo, da, ho, mi, se := t[1..3], t[4..6], t[7..9], t[10..12], t[13..15];
      if !(AllDigits(mo) && AllDigits(da) && AllDigits(ho) && AllDigits(mi) && AllDigits(se)) then None
      else if !(Value(ho) < 24 && Value(mi) < 60 && Value(se) < 60) then None
      else Some(Tail(Value(mo), Value(da), Value(ho) * 3600 + Value(mi) * 60 + Value(se)))
  }

  /** Reads a stamp: the digits of a year, then the tail; rejects dates that do not exist. */
  function ParseStamp(s: string): Option<int> {
    if |s| < 17 then None else
    var y := s[..|s| - 16];
    var tail := ParseTail(s[|s| - 16..]);
    if tail.None? || !AllDigits(y) then None
    else
      var d := Date(Value(y), tail.value.month, tail.value.day);
      if ValidDate(d) then Some(DaysFromCivil(d) * 86400 + tail.value.second) else None
  }

  lemma TwoDigitsReadBack(n: nat)
    requires n < 100
    ensures |TwoDigits(n)| == 2 && AllDigits(TwoDigits(n)) && Value(TwoDigits(n)) == n
  {
    DigitsReadBack(n);
    ZeroPadReadsBack(Digits(n), 2);
  }

  lemma TailIsLaidOut(a: string, b: string, c: string, d: string, e: string)
    requires |a| == |b| == |c| == |d| == |e| == 2
    ensures var t := "-" + a + "-" + b + "T" + c + ":" + d + ":" + e + "Z";
            && |t| == 16 && t[0] == '-' && t[3] == '-' && t[6] == 'T' && t[9] == ':' && t[12] == ':' && t[15] == 'Z'
            && t[1..3] == a && t[4..6] == b && t[7..9] == c && t[10..12] == d && t[13..15] == e
  {
  }

  lemma TailReadsBack(month: nat, day: nat, hours: nat, minutes: nat, seconds: nat)
    requires month < 100 && day < 100 && hours < 24 && minutes < 60 && seconds < 60
    ensures var t := TailText(month, day, hours, minutes, seconds);
            |t| == 16 && ParseTail(t) == Some(Tail(month, day, hours * 3600 + minutes * 60 + seconds))
  {
    TwoDigitsReadBack(month);
    TwoDigitsReadBack(day);
    TwoDigitsReadBack(hours);
    TwoDigitsReadBack(minutes);
    TwoDigitsReadBack(seconds);
    hide TwoDigits, Value, AllDigits;
    TailIsLaidOut(TwoDigits(month), TwoDigits(day), TwoDigits(hours), TwoDigits(minutes), TwoDigits(seconds));
  }

  lemma YearReadsBack(y: int)
    ensures |YearText(y)| >= 1
    ensures AllDigits(YearText(y)) <==> y >= 0
    ensures y >= 0 ==> Value(YearText(y)) == y
  {
    if y >= 0 {
      DigitsReadBack(y);
      ZeroPadReadsBack(Digits(y), 4);
    } else {
      assert !IsDigit(YearText(y)[0]);
    }
  }

  /** What the reader makes of a stamp with a given year, written or wrapped. */
  lemma ParseOfParts(y: int, d: Date, hours: nat, minutes: nat, seconds: nat)
    requires ValidDate(d) && hours < 24 && minutes < 60 && seconds < 60
    ensures var s := YearText(y) + TailText(d.month, d.day, hours, minutes, seconds);
            ParseStamp(s) == if y >= 0 && ValidDate(d.(year := y))
                             then Some(DaysFromCivil(d.(year := y)) * 86400 + (hours * 3600 + minutes * 60 + seconds))
                             else None
  {
    hide TailText, YearText, ParseTail, DaysFromCivil;
    var t := TailText(d.month, d.day, hours, minutes, seconds);
    TailReadsBack(d.month, d.day, hours, minutes, seconds);
    YearReadsBack(y);
    var s := YearText(y) + t;
    assert s[..|s| - 16] == YearText(y) && s[|s| - 16..] == t;
  }

  // ----- When the stamp can be read back -----

  /** The first second of year 2147483648, the first year that `as i32` does not keep. */
  const FIRST_WRAPPED_SECOND: nat := 67767976233532800
  /** The first second of year 10000. */
  const YEAR_10000: nat := 253402300800

  function FirstDayOfYear(y: int): int {
    365 * y + LeapsThrough(y - 1) - 719527
  }

  lemma YearBound(days: int, y: int)
    ensures CivilFromDays(days).year < y <==> days < FirstDayOfYear(y)
    ensures CivilFromDays(FirstDayOfYear(y)) == Date(y, 1, 1)
  {
    hide CivilFromDays;
    var d := CivilFromDays(days);
    CivilFromDaysIsInverse(days);
    var first := Date(y, 1, 1);
    DaysBeforeYearClosed(y);
    CivilFromDaysIsOnto(first);
    if d.year < y {
      DaysFromCivilIncreases(d, first);
    } else if d != first {
      DaysFromCivilIncreases(first, d);
    }
  }

  /** Reading a stamp gives back the second it was made from, exactly for the seconds before
      the year outgrows 32 bits. */
  lemma StampReadsBack(secs: nat)
    ensures ParseStamp(Stamp(secs)) == Some(secs) <==> secs < FIRST_WRAPPED_SECOND
  {
    hide CivilFromDays, Stamp, ParseStamp, ClockSecond;
    YearsOfRange(secs / 86400);
    ClockAddsUp(secs % 86400);
    ParseOfStamp(secs);
  }

  lemma ParseOfStamp(secs: nat)
    ensures ParseStamp(Stamp(secs)) == Some(secs / 86400 * 86400 + ClockSecond(secs % 86400))
            <==> CivilFromDays(secs / 86400).year < TWO_31
  {
    hide CivilFromDays, TailText, YearText, ParseStamp, DaysFromCivil;
    var days, t := secs / 86400, secs % 86400;
    var d := CivilFromDays(days);
    CivilFromDaysIsInverse(days);
    YearsOfRange(days);
    ParseOfParts(WrapI32(d.year), d, t / 3600, t % 3600 / 60, t % 60);
    if d.year >= TWO_31 {
      var w := d.(year := WrapI32(d.year));
      if w.year >= 0 && ValidDate(w) {
        DaysFromCivilIncreases(w, d);
      }
    }
  }

  function ClockSecond(t: nat): nat {
    t / 3600 * 3600 + t % 3600 / 60 * 60 + t % 60
  }

  lemma ClockAddsUp(t: nat)
    ensures ClockSecond(t) == t
  {
    var h, r := t / 3600, t % 3600;
    var m, s := r / 60, r % 60;
    assert t == 60 * (60 * h + m) + s;
  }

  lemma YearsOfRange(days: nat)
    ensures 1970 <= CivilFromDays(days).year
    ensures CivilFromDays(days).year < TWO_31 <==> days * 86400 < FIRST_WRAPPED_SECOND
    ensures CivilFromDays(days).year < 10000 <==> days * 86400 < YEAR_10000
  {
    hide CivilFromDays;
    YearBound(days, TWO_31);
    YearBound(days, 10000);
    YearBound(days, 1970);
  }

  /** Distinct seconds have distinct stamps up to that bound. */
  lemma StampIsInjective(a: nat, b: nat)
    requires a < FIRST_WRAPPED_SECOND && b < FIRST_WRAPPED_SECOND
    requires Stamp(a) == Stamp(b)
    ensures a == b
  {
    StampReadsBack(a);
    StampReadsBack(b);
  }

  /** The stamp has the twenty characters of its pattern exactly through year 9999. */
  lemma StampWidth(secs: nat)
    requires secs < FIRST_WRAPPED_SECOND
    ensures |Stamp(secs)| == 20 <==> secs < YEAR_10000
  {
    hide CivilFromDays;
    YearsOfRange(secs / 86400);
    StampLength(secs);
    FourDigits(CivilFromDays(secs / 86400).year);
  }

  lemma StampLength(secs: nat)
    requires 0 <= CivilFromDays(secs / 86400).year < TWO_31
    ensures |Stamp(secs)| == 16 + |YearText(CivilFromDays(secs / 86400).year)|
  {
    var d, t := CivilFromDays(secs / 86400), secs % 86400;
    CivilFromDaysIsInverse(secs / 86400);
    TailReadsBack(d.month, d.day, t / 3600, t % 3600 / 60, t % 60);
  }

  lemma FourDigits(n: nat)
    ensures |YearText(n)| == 4 <==> n < 10000
  {
    DigitsReadBack(n);
    ZeroPadReadsBack(Digits(n), 4);
    DigitsReadBack(n / 10 / 10 / 10 / 10);
    if n >= 10 {
      assert |Digits(n)| == |Digits(n / 10)| + 1;
      if n / 10 >= 10 {
        assert |Digits(n / 10)| == |Digits(n / 10 / 10)| + 1;
        if n / 10 / 10 >= 10 {
          assert |Digits(n / 10 / 10)| == |Digits(n / 10 / 10 / 10)| + 1;
        }
      }
    }
  }

  /** Beyond the bound two seconds of the `u64` range do share a stamp. */
  lemma WrappedStampsCollide()
    ensures var late := 135536076801504000; late < TWO_64 && Stamp(late) == Stamp(0)
  {
    hide CivilFromDays;
    YearBound(0, 1970);
    YearBound(0, 1970 + TWO_32);
    var late, lateDay := 135536076801504000, 1568704592610;
    assert FirstDayOfYear(1970) == 0 && FirstDayOfYear(1970 + TWO_32) == lateDay;
    assert YmdFromDays(lateDay) == YmdFromDays(0);
    assert late / 86400 == lateDay && late % 86400 == 0;
  }
}
