/** Calendar instants as the application sees them through `Date`, date-fns and
    `Date.toISOString`, all in UTC. An instant is a proleptic Gregorian date and
    time of day to the millisecond; months are numbered 1..12. */
module Calendar {
  import opened Wrappers

  datatype Date = Date(year: int, month: int, day: int,
                       hour: int, minute: int, second: int, millis: int)

  predicate IsLeapYear(y: int) {
    (y % 4 == 0 && y % 100 != 0) || y % 400 == 0
  }

  function DaysInMonth(y: int, m: int): (n: int)
    ensures 28 <= n <= 31
  {
    if m == 2 then (if IsLeapYear(y) then 29 else 28)
    else if m == 4 || m == 6 || m == 9 || m == 11 then 30
    else 31
  }

  /** A date whose every field is in range, with a four-digit year (the range
      `toISOString` writes without a sign). */
  predicate Valid(d: Date) {
    && 0 <= d.year <= 9999
    && 1 <= d.month <= 12
    && 1 <= d.day <= DaysInMonth(d.year, d.month)
    && 0 <= d.hour < 24 && 0 <= d.minute < 60 && 0 <= d.second < 60
    && 0 <= d.millis < 1000
  }

  /** The valid instants: every `Date` value of the domain is one. */
  type Instant = d: Date | Valid(d) witness Date(1970, 1, 1, 0, 0, 0, 0)

  /** `new Date(0)`, the start of the Unix epoch. */
  const Epoch: Instant := Date(1970, 1, 1, 0, 0, 0, 0)

  /** A number that orders instants chronologically (a mixed-radix reading of
      the fields; its differences are not durations). */
  function Rank(d: Date): int {
    ((((((d.year * 12 + d.month - 1) * 31 + d.day - 1) * 24 + d.hour) * 60
        + d.minute) * 60 + d.second) * 1000 + d.millis)
  }

  /** Months counted from January of year 0: the month an instant lies in. */
  function MonthIndex(d: Date): int {
    d.year * 12 + d.month - 1
  }

  /** `isWithinInterval(d, {start: startOfMonth(m), end: endOfMonth(m)})` for
      the month with index `mi`. */
  predicate InMonth(d: Date, mi: int) {
    MonthIndex(d) == mi
  }

  /** The month number (1..12) of a month index: what `subMonths` lands on. */
  function MonthOfIndex(mi: int): (m: int)
    ensures 1 <= m <= 12
  {
    mi % 12 + 1
  }

  function YearOfIndex(mi: int): int {
    mi / 12
  }

  lemma MonthIndexOfParts(d: Date)
    requires Valid(d)
    ensures MonthOfIndex(MonthIndex(d)) == d.month
    ensures YearOfIndex(MonthIndex(d)) == d.year
  {
  }

  /** date-fns `format(d, 'MMM')`. */
  function MonthAbbrev(m: int): (s: string)
    requires 1 <= m <= 12
    ensures |s| == 3
  {
    ["Jan", "Feb", "Mar", "Apr", "May", "Jun",
     "Jul", "Aug", "Sep", "Oct", "Nov", "Dec"][m - 1]
  }

  /** `new Date("yyyy-MM-dd")`: midnight UTC of the instant's day. */
  function StartOfDay(d: Instant): (r: Instant)
    ensures r.year == d.year && r.month == d.month && r.day == d.day
    ensures r.hour == 0 && r.minute == 0 && r.second == 0 && r.millis == 0
    ensures Rank(r) <= Rank(d)
  {
    Date(d.year, d.month, d.day, 0, 0, 0, 0)
  }

  // ---------------------------------------------------------------------
  // Fixed-width decimal fields

  predicate IsDigit(c: char) {
    '0' <= c <= '9'
  }

  predicate AllDigits(s: string) {
    forall i :: 0 <= i < |s| ==> IsDigit(s[i])
  }

  function DigitChar(n: int): (c: char)
    requires 0 <= n < 10
    ensures IsDigit(c)
  {
    (48 + n) as char
  }

  function DigitValue(c: char): (n: int)
    requires IsDigit(c)
    ensures 0 <= n < 10
  {
    c as int - 48
  }

  function Two(n: int): (s: string)
    requires 0 <= n < 100
    ensures |s| == 2 && AllDigits(s)
  {
    [DigitChar(n / 10), DigitChar(n % 10)]
  }

  function Three(n: int): (s: string)
    requires 0 <= n < 1000
    ensures |s| == 3 && AllDigits(s)
  {
    [DigitChar(n / 100)] + Two(n % 100)
  }

  function Four(n: int): (s: string)
    requires 0 <= n < 10000
    ensures |s| == 4 && AllDigits(s)
  {
    Two(n / 100) + Two(n % 100)
  }

  /** The value of a two-, three- or four-digit field. */
  function ReadTwo(s: string): (n: int)
    requires |s| == 2 && AllDigits(s)
    ensures 0 <= n < 100
  {
    DigitValue(s[0]) * 10 + DigitValue(s[1])
  }

  function ReadThree(s: string): (n: int)
    requires |s| == 3 && AllDigits(s)
    ensures 0 <= n < 1000
  {
    DigitValue(s[0]) * 100 + ReadTwo(s[1..])
  }

  function ReadFour(s: string): (n: int)
    requires |s| == 4 && AllDigits(s)
    ensures 0 <= n < 10000
  {
    ReadTwo(s[..2]) * 100 + ReadTwo(s[2..])
  }

  lemma SplitHundred(a: int, b: int)
    requires 0 <= b < 100
    ensures (a * 100 + b) / 100 == a && (a * 100 + b) % 100 == b
  {
  }

  lemma SplitTen(a: int, b: int)
    requires 0 <= b < 10
    ensures (a * 10 + b) / 10 == a && (a * 10 + b) % 10 == b
  {
  }

  /** Writing a field and reading it back gives the number; reading a field
      and writing it back gives the text: fixed-width fields are canonical. */
  lemma TwoRoundTrip(n: int)
    requires 0 <= n < 100
    ensures ReadTwo(Two(n)) == n
  {
  }

  lemma TwoOfRead(s: string)
    requires |s| == 2 && AllDigits(s)
    ensures Two(ReadTwo(s)) == s
  {
    SplitTen(DigitValue(s[0]), DigitValue(s[1]));
  }

  lemma ThreeRoundTrip(n: int)
    requires 0 <= n < 1000
    ensures ReadThree(Three(n)) == n
  {
    assert Three(n)[1..] == Two(n % 100);
  }

  lemma ThreeOfRead(s: string)
    requires |s| == 3 && AllDigits(s)
    ensures Three(ReadThree(s)) == s
  {
    SplitHundred(DigitValue(s[0]), ReadTwo(s[1..]));
    TwoOfRead(s[1..]);
  }

  lemma FourRoundTrip(n: int)
    requires 0 <= n < 10000
    ensures ReadFour(Four(n)) == n
  {
    assert Four(n)[..2] == Two(n / 100);
    assert Four(n)[2..] == Two(n % 100);
  }

  lemma FourOfRead(s: string)
    requires |s| == 4 && AllDigits(s)
    ensures Four(ReadFour(s)) == s
  {
    SplitHundred(ReadTwo(s[..2]), ReadTwo(s[2..]));
    TwoOfRead(s[..2]);
    TwoOfRead(s[2..]);
  }

  // ---------------------------------------------------------------------
  // Texts: date-fns `format(d, 'yyyy-MM-dd')`, `format(d, 'MMM yyyy')` and
  // `Date.toISOString()`, and their readers (`new Date(text)`)

  /** `format(d, 'yyyy-MM-dd')`. */
  function DayText(d: Instant): (s: string)
    ensures |s| == 10
  {
    Four(d.year) + "-" + Two(d.month) + "-" + Two(d.day)
  }

  /** `format(d, 'MMM yyyy')`. */
  function MonthLabel(d: Instant): (s: string)
    ensures |s| == 8
  {
    MonthAbbrev(d.month) + " " + Four(d.year)
  }

  /** `d.toISOString()`: `YYYY-MM-DDTHH:mm:ss.sssZ`. */
  function IsoText(d: Instant): (s: string)
    ensures |s| == 24
  {
    DayText(d) + "T" + Two(d.hour) + ":" + Two(d.minute) + ":" + Two(d.second)
      + "." + Three(d.millis) + "Z"
  }

  predicate DayShaped(s: string) {
    && |s| >= 10
    && AllDigits(s[..4]) && s[4] == '-'
    && AllDigits(s[5..7]) && s[7] == '-'
    && AllDigits(s[8..10])
  }

  predicate IsoShaped(s: string) {
    && |s| == 24 && DayShaped(s)
    && s[10] == 'T' && AllDigits(s[11..13])
    && s[13] == ':' && AllDigits(s[14..16])
    && s[16] == ':' && AllDigits(s[17..19])
    && s[19] == '.' && AllDigits(s[20..23])
    && s[23] == 'Z'
  }

  /** `new Date("yyyy-MM-dd")`: midnight UTC of that day, or None for a text
      that is not a day of the calendar (an Invalid Date). */
  function ParseDay(s: string): (r: Option<Instant>)
    ensures r.Some? ==> r.value == StartOfDay(r.value)
  {
    if |s| == 10 && DayShaped(s) then
      var d := Date(ReadFour(s[..4]), ReadTwo(s[5..7]), ReadTwo(s[8..10]), 0, 0, 0, 0);
      if Valid(d) then Some(d) else None
    else None
  }

  /** `new Date(iso)` for the text `toISOString` writes, or None when the
      text is not such a timestamp. */
  function ParseIso(s: string): (r: Option<Instant>)
  {
    if IsoShaped(s) then
      var d := Date(ReadFour(s[..4]), ReadTwo(s[5..7]), ReadTwo(s[8..10]),
                    ReadTwo(s[11..13]), ReadTwo(s[14..16]), ReadTwo(s[17..19]),
                    ReadThree(s[20..23]));
      if Valid(d) then Some(d) else None
    else None
  }

  lemma DayTextParts(d: Instant)
    ensures DayText(d)[..4] == Four(d.year) && DayText(d)[4] == '-'
    ensures DayText(d)[5..7] == Two(d.month) && DayText(d)[7] == '-'
    ensures DayText(d)[8..10] == Two(d.day)
  {
  }

  lemma IsoTextParts(d: Instant)
    ensures IsoText(d)[..10] == DayText(d)
    ensures IsoText(d)[10] == 'T' && IsoText(d)[11..13] == Two(d.hour)
    ensures IsoText(d)[13] == ':' && IsoText(d)[14..16] == Two(d.minute)
    ensures IsoText(d)[16] == ':' && IsoText(d)[17..19] == Two(d.second)
    ensures IsoText(d)[19] == '.' && IsoText(d)[20..23] == Three(d.millis)
    ensures IsoText(d)[23] == 'Z'
  {
  }

  /** Reading back the day text of an instant gives midnight of its day. */
  lemma {:induction false} DayTextRoundTrip(d: Instant)
    ensures ParseDay(DayText(d)) == Some(StartOfDay(d))
  {
    var s := DayText(d);
    DayTextParts(d);
    FourRoundTrip(d.year);
    TwoRoundTrip(d.month);
    TwoRoundTrip(d.day);
  }

  /** A day text that reads as a day is the canonical text of that day. */
  lemma {:induction false} ParseDayCanonical(s: string)
    requires ParseDay(s).Some?
    ensures DayText(ParseDay(s).value) == s
  {
    FourOfRead(s[..4]);
    TwoOfRead(s[5..7]);
    TwoOfRead(s[8..10]);
    var t := DayText(ParseDay(s).value);
    DayTextParts(ParseDay(s).value);
    assert t[..4] == s[..4] && t[5..7] == s[5..7] && t[8..10] == s[8..10];
    assert forall i | 0 <= i < 10 :: t[i] == s[i] by {
      forall i | 0 <= i < 10 ensures t[i] == s[i] {
        if i < 4 { assert t[i] == t[..4][i]; assert s[i] == s[..4][i]; }
        else if 5 <= i < 7 { assert t[i] == t[5..7][i - 5]; assert s[i] == s[5..7][i - 5]; }
        else if 8 <= i { assert t[i] == t[8..10][i - 8]; assert s[i] == s[8..10][i - 8]; }
      }
    }
  }

  /** The ISO timestamp of an instant reads back as that instant. */
  lemma {:induction false} IsoRoundTrip(d: Instant)
    ensures ParseIso(IsoText(d)) == Some(d)
  {
    var s := IsoText(d);
    IsoTextParts(d);
    DayTextParts(d);
    assert s[..4] == Four(d.year) && s[5..7] == Two(d.month) && s[8..10] == Two(d.day) by {
      assert s[..4] == s[..10][..4] && s[5..7] == s[..10][5..7] && s[8..10] == s[..10][8..10];
    }
    FourRoundTrip(d.year);
    TwoRoundTrip(d.month);
    TwoRoundTrip(d.day);
    TwoRoundTrip(d.hour);
    TwoRoundTrip(d.minute);
    TwoRoundTrip(d.second);
    ThreeRoundTrip(d.millis);
  }

  /** A text that reads as an ISO timestamp is the canonical text of it. */
  lemma {:induction false} ParseIsoCanonical(s: string)
    requires ParseIso(s).Some?
    ensures IsoText(ParseIso(s).value) == s
  {
    var d := ParseIso(s).value;
    FourOfRead(s[..4]);
    TwoOfRead(s[5..7]);
    TwoOfRead(s[8..10]);
    TwoOfRead(s[11..13]);
    TwoOfRead(s[14..16]);
    TwoOfRead(s[17..19]);
    ThreeOfRead(s[20..23]);
    var t := IsoText(d);
    IsoTextParts(d);
    DayTextParts(d);
    assert t[..4] == Four(d.year) && t[5..7] == Two(d.month) && t[8..10] == Two(d.day) by {
      assert t[..4] == t[..10][..4] && t[5..7] == t[..10][5..7] && t[8..10] == t[..10][8..10];
    }
    forall i | 0 <= i < 24 ensures t[i] == s[i] {
      if i < 4 { assert t[i] == t[..4][i]; assert s[i] == s[..4][i]; }
      else if 5 <= i < 7 { assert t[i] == t[5..7][i - 5]; assert s[i] == s[5..7][i - 5]; }
      else if 8 <= i < 10 { assert t[i] == t[8..10][i - 8]; assert s[i] == s[8..10][i - 8]; }
      else if 11 <= i < 13 { assert t[i] == t[11..13][i - 11]; assert s[i] == s[11..13][i - 11]; }
      else if 14 <= i < 16 { assert t[i] == t[14..16][i - 14]; assert s[i] == s[14..16][i - 14]; }
      else if 17 <= i < 19 { assert t[i] == t[17..19][i - 17]; assert s[i] == s[17..19][i - 17]; }
      else if 20 <= i < 23 { assert t[i] == t[20..23][i - 20]; assert s[i] == s[20..23][i - 20]; }
    }
  }
}
