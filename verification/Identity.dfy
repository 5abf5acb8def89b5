/** The technical identities the platform synthesises from business fields. */
module Identity {
  import opened Events

  // ----- The proleptic Gregorian calendar, days counted from 0001-01-01 -----

  const SECONDS_PER_DAY := 86_400
  const EPOCH_DAY := 719_162  // 1970-01-01
  const DAYS_IN_CALENDAR := 3_652_059  // 0001-01-01 to 9999-12-31

  predicate IsLeap(y: int) { y % 4 == 0 && (y % 100 != 0 || y % 400 == 0) }

  function DaysBeforeYear(y: int): int {
    var p := y - 1;
    p * 365 + p / 4 - p / 100 + p / 400
  }

  function DaysInMonth(y: int, m: int): int {
    if m == 2 then (if IsLeap(y) then 29 else 28)
    else if m == 4 || m == 6 || m == 9 || m == 11 then 30 else 31
  }

  function DaysBeforeMonth(y: int, m: nat): nat {
    if m <= 1 then 0 else DaysBeforeMonth(y, m - 1) + DaysInMonth(y, m - 1)
  }

  lemma QuotientStep(p: int, k: int)
    requires k > 1
    ensures (p + 1) / k == p / k + if (p + 1) % k == 0 then 1 else 0
  {
    var q, r := p / k, p % k;
    assert p == q * k + r;
    if r == k - 1 {
      assert p + 1 == (q + 1) * k;
      QuotientIs(p + 1, k, q + 1, 0);
    } else {
      QuotientIs(p + 1, k, q, r + 1);
    }
  }

  lemma QuotientIs(n: int, k: int, q: int, r: int)
    requires k > 0 && 0 <= r < k && n == q * k + r
    ensures n / k == q && n % k == r
  {
    var d := n / k - q;
    AtLeastOne(d, k);
    assert d * k == r - n % k;
  }

  lemma AtLeastOne(d: int, k: int)
    requires k > 0
    ensures d >= 1 ==> d * k >= k
    ensures d <= -1 ==> d * k <= -k
  {
    if d >= 1 {
      assert (d - 1) * k >= 0;
    } else if d <= -1 {
      assert (-d - 1) * k >= 0;
    }
  }

  lemma YearLength(y: int)
    ensures DaysBeforeYear(y + 1) - DaysBeforeYear(y) == if IsLeap(y) then 366 else 365
  {
    QuotientStep(y - 1, 4);
    QuotientStep(y - 1, 100);
    QuotientStep(y - 1, 400);
  }

  lemma MonthsFillYear(y: int)
    ensures DaysBeforeMonth(y, 13) == if IsLeap(y) then 366 else 365
  {
    assert DaysBeforeMonth(y, 1) == 0;
    assert DaysBeforeMonth(y, 2) == 31;
    var march := DaysBeforeMonth(y, 3);
    assert DaysBeforeMonth(y, 4) == march + 31;
    assert DaysBeforeMonth(y, 5) == march + 61;
    assert DaysBeforeMonth(y, 6) == march + 92;
    assert DaysBeforeMonth(y, 7) == march + 122;
    assert DaysBeforeMonth(y, 8) == march + 153;
    assert DaysBeforeMonth(y, 9) == march + 184;
    assert DaysBeforeMonth(y, 10) == march + 214;
    assert DaysBeforeMonth(y, 11) == march + 245;
    assert DaysBeforeMonth(y, 12) == march + 275;
  }

  /** The year that contains a day, searched upwards from `y`. */
  function YearFrom(day: int, y: int): (r: int)
    requires DaysBeforeYear(y) <= day
    ensures y <= r && DaysBeforeYear(r) <= day < DaysBeforeYear(r + 1)
    decreases day - DaysBeforeYear(y)
  {
    YearLength(y);
    if day < DaysBeforeYear(y + 1) then y else YearFrom(day, y + 1)
  }

  /** The month that contains a day of a year, searched upwards from `m`. */
  function MonthFrom(y: int, doy: nat, m: nat): (r: nat)
    requires 1 <= m <= 12 && DaysBeforeMonth(y, m) <= doy < DaysBeforeMonth(y, 13)
    ensures m <= r <= 12
    ensures DaysBeforeMonth(y, r) <= doy < DaysBeforeMonth(y, r) + DaysInMonth(y, r)
    decreases 12 - m
  {
    assert DaysBeforeMonth(y, m + 1) == DaysBeforeMonth(y, m) + DaysInMonth(y, m);
    if doy < DaysBeforeMonth(y, m + 1) then m else MonthFrom(y, doy, m + 1)
  }

  datatype Civil = Civil(year: int, month: int, day: int, hour: int, minute: int, second: int)

  /** The UTC calendar fields of a whole second, for the years 1 to 9999. */
  function CivilOf(seconds: int): (c: Civil)
    requires 0 <= seconds + EPOCH_DAY * SECONDS_PER_DAY < DAYS_IN_CALENDAR * SECONDS_PER_DAY
    ensures 1 <= c.year <= 9999 && 1 <= c.month <= 12 && 1 <= c.day <= 31
    ensures 0 <= c.hour < 24 && 0 <= c.minute < 60 && 0 <= c.second < 60
    ensures SecondsOf(c) == seconds
  {
    var absolute := seconds + EPOCH_DAY * SECONDS_PER_DAY;
    var days, rest := absolute / SECONDS_PER_DAY, absolute % SECONDS_PER_DAY;
    var y := YearFrom(days, 1);
    assert y <= 9999 by {
      if y >= 10_000 { YearsGrow(10_000, y); }
    }
    YearLength(y);
    MonthsFillYear(y);
    var doy := days - DaysBeforeYear(y);
    var m := MonthFrom(y, doy, 1);
    Civil(y, m, doy - DaysBeforeMonth(y, m) + 1, rest / 3600, rest % 3600 / 60, rest % 60)
  }

  lemma {:induction false} YearsGrow(a: int, b: int)
    requires a <= b
    ensures DaysBeforeYear(a) <= DaysBeforeYear(b)
    decreases b - a
  {
    if a < b {
      YearLength(a);
      YearsGrow(a + 1, b);
    }
  }

  /** The whole second that calendar fields name: the inverse of `CivilOf`. */
  function SecondsOf(c: Civil): int
    requires c.month >= 0
  {
    (DaysBeforeYear(c.year) + DaysBeforeMonth(c.year, c.month) + c.day - 1 - EPOCH_DAY) * SECONDS_PER_DAY
    + c.hour * 3600 + c.minute * 60 + c.second
  }

  // ----- Text -----

  const DIGITS := "0123456789"

  function Digit(n: int): (c: char)
    requires 0 <= n < 10
    ensures c != ':'
    ensures ValueOf(c) == n
  {
    DIGITS[n]
  }

  function ValueOf(c: char): int { c as int - '0' as int }

  function Pad2(n: int): (s: string)
    requires 0 <= n < 100
    ensures |s| == 2 && ValueOf(s[0]) * 10 + ValueOf(s[1]) == n
  {
    [Digit(n / 10), Digit(n % 10)]
  }

  function Pad4(n: int): (s: string)
    requires 0 <= n < 10_000
    ensures |s| == 4
    ensures ValueOf(s[0]) * 1000 + ValueOf(s[1]) * 100 + ValueOf(s[2]) * 10 + ValueOf(s[3]) == n
  {
    Pad2(n / 100) + Pad2(n % 100)
  }

  function DateText(c: Civil): (s: string)
    requires 0 <= c.year < 10_000 && 0 <= c.month < 100 && 0 <= c.day < 100
    ensures |s| == 10
  {
    Pad4(c.year) + ("-" + Pad2(c.month)) + ("-" + Pad2(c.day))
  }

  function TimeText(c: Civil): (s: string)
    requires 0 <= c.hour < 100 && 0 <= c.minute < 100 && 0 <= c.second < 100
    ensures |s| == 8
  {
    Pad2(c.hour) + (":" + Pad2(c.minute)) + (":" + Pad2(c.second))
  }

  lemma DateTextFields(c: Civil)
    requires 0 <= c.year < 10_000 && 0 <= c.month < 100 && 0 <= c.day < 100
    ensures var s := DateText(c); s[..4] == Pad4(c.year) && s[5..7] == Pad2(c.month) && s[8..] == Pad2(c.day)
  {
  }

  lemma TimeTextFields(c: Civil)
    requires 0 <= c.hour < 100 && 0 <= c.minute < 100 && 0 <= c.second < 100
    ensures var s := TimeText(c); s[..2] == Pad2(c.hour) && s[3..5] == Pad2(c.minute) && s[6..] == Pad2(c.second)
  {
  }

  /** `datetime.isoformat()` of a whole UTC second: always 25 characters. */
  function Iso(seconds: int): (s: string)
    requires 0 <= seconds + EPOCH_DAY * SECONDS_PER_DAY < DAYS_IN_CALENDAR * SECONDS_PER_DAY
    ensures |s| == 25
  {
    var c := CivilOf(seconds);
    DateText(c) + ("T" + TimeText(c)) + "+00:00"
  }

  lemma IsoInjective(a: int, b: int)
    requires 0 <= a + EPOCH_DAY * SECONDS_PER_DAY < DAYS_IN_CALENDAR * SECONDS_PER_DAY
    requires 0 <= b + EPOCH_DAY * SECONDS_PER_DAY < DAYS_IN_CALENDAR * SECONDS_PER_DAY
    requires Iso(a) == Iso(b)
    ensures a == b
  {
    hide CivilOf, DateText, TimeText;
    var c, d := CivilOf(a), CivilOf(b);
    assert Iso(a)[..10] == DateText(c) && Iso(a)[11..19] == TimeText(c);
    assert Iso(b)[..10] == DateText(d) && Iso(b)[11..19] == TimeText(d);
    SameCivil(c, d);
  }

  lemma SameCivil(c: Civil, d: Civil)
    requires 0 <= c.year < 10_000 && 0 <= c.month < 100 && 0 <= c.day < 100
    requires 0 <= d.year < 10_000 && 0 <= d.month < 100 && 0 <= d.day < 100
    requires 0 <= c.hour < 100 && 0 <= c.minute < 100 && 0 <= c.second < 100
    requires 0 <= d.hour < 100 && 0 <= d.minute < 100 && 0 <= d.second < 100
    requires DateText(c) == DateText(d) && TimeText(c) == TimeText(d)
    ensures c == d
  {
    DateTextFields(c);
    DateTextFields(d);
    TimeTextFields(c);
    TimeTextFields(d);
  }

  // ----- window_id -----

  const MIN_INSTANT := -EPOCH_DAY * SECONDS_PER_DAY * SECOND
  const MAX_INSTANT := (DAYS_IN_CALENDAR - EPOCH_DAY) * SECONDS_PER_DAY * SECOND - 1

  /** The instants a `datetime` can hold. */
  predicate Representable(instant: int) { MIN_INSTANT <= instant <= MAX_INSTANT }

  /** A window starts on a whole representable second. */
  predicate StartInstant(instant: int) { Representable(instant) && instant % SECOND == 0 }

  function WindowIdFor(symbol: string, start: int): string
    requires StartInstant(start)
  {
    symbol + ":" + Iso(start / SECOND)
  }

  /** The primary key `window_id` and the unique pair `(symbol, window_start)` agree,
      whatever characters a symbol contains. */
  lemma WindowIdInjective(symbol: string, start: int, symbol': string, start': int)
    requires StartInstant(start) && StartInstant(start')
    ensures WindowIdFor(symbol, start) == WindowIdFor(symbol', start') <==>
            symbol == symbol' && start == start'
  {
    var id, id' := WindowIdFor(symbol, start), WindowIdFor(symbol', start');
    if id == id' {
      var n := |id| - 25;
      assert id[n..] == Iso(start / SECOND) && id'[n..] == Iso(start' / SECOND);
      assert id[..n - 1] == symbol && id'[..n - 1] == symbol';
      IsoInjective(start / SECOND, start' / SECOND);
    }
  }

  // ----- Known instants -----

  /** The first and the last microsecond a `datetime` can hold, from the calendar itself. */
  lemma CalendarLimits()
    ensures MIN_INSTANT == -62_135_596_800 * SECOND
    ensures MAX_INSTANT == 253_402_300_800 * SECOND - 1
    ensures SecondsOf(Civil(1, 1, 1, 0, 0, 0)) * SECOND == MIN_INSTANT
    ensures SecondsOf(Civil(10_000, 1, 1, 0, 0, 0)) * SECOND == MAX_INSTANT + 1
    ensures SecondsOf(Civil(1970, 1, 1, 0, 0, 0)) == 0
  {
    assert DaysBeforeMonth(1, 1) == 0 && DaysBeforeMonth(10_000, 1) == 0 && DaysBeforeMonth(1970, 1) == 0;
  }

  /** Calendar fields in range name one second, so `CivilOf` gives back the fields it was made from. */
  lemma CivilIsUnique(c: Civil, d: Civil)
    requires CivilDate(c) && CivilDate(d) && SecondsOf(c) == SecondsOf(d)
    ensures c == d
  {
    DayOf(c);
    DayOf(d);
    YearIsUnique(c, d);
    MonthIsUnique(c.year, c.month, DayInYear(c), d.month);
  }

  /** A date of the calendar, with a time of the day. */
  predicate CivilDate(c: Civil) {
    && 1 <= c.month <= 12 && 1 <= c.day <= DaysInMonth(c.year, c.month)
    && 0 <= c.hour < 24 && 0 <= c.minute < 60 && 0 <= c.second < 60
  }

  function DayInYear(c: Civil): int
    requires c.month >= 0
  {
    DaysBeforeMonth(c.year, c.month) + c.day - 1
  }

  lemma {:induction false} MonthsAscend(y: int, m: nat, n: nat)
    requires m <= n
    ensures DaysBeforeMonth(y, m) <= DaysBeforeMonth(y, n)
    ensures 1 <= m < n ==> DaysBeforeMonth(y, m) + DaysInMonth(y, m) <= DaysBeforeMonth(y, n)
    decreases n - m
  {
    if m < n {
      MonthsAscend(y, m, n - 1);
      assert n > 1 ==> DaysBeforeMonth(y, n) == DaysBeforeMonth(y, n - 1) + DaysInMonth(y, n - 1);
    }
  }

  lemma DayOf(c: Civil)
    requires CivilDate(c)
    ensures var days := DaysBeforeYear(c.year) + DayInYear(c);
            && 0 <= DayInYear(c) < DaysBeforeYear(c.year + 1) - DaysBeforeYear(c.year)
            && (SecondsOf(c) + EPOCH_DAY * SECONDS_PER_DAY) / SECONDS_PER_DAY == days
            && (SecondsOf(c) + EPOCH_DAY * SECONDS_PER_DAY) % SECONDS_PER_DAY ==
               c.hour * 3600 + c.minute * 60 + c.second
  {
    hide DaysBeforeYear, DaysInMonth;
    MonthsAscend(c.year, c.month, 13);
    MonthsFillYear(c.year);
    YearLength(c.year);
  }

  lemma YearIsUnique(c: Civil, d: Civil)
    requires CivilDate(c) && CivilDate(d) && SecondsOf(c) == SecondsOf(d)
    ensures c.year == d.year
  {
    hide DaysBeforeYear, DaysBeforeMonth, SecondsOf;
    DayOf(c);
    DayOf(d);
    if c.year < d.year {
      YearsGrow(c.year + 1, d.year);
    } else if d.year < c.year {
      YearsGrow(d.year + 1, c.year);
    }
  }

  lemma MonthIsUnique(y: int, m: nat, doy: int, n: nat)
    requires 1 <= m <= 12 && 1 <= n <= 12
    requires DaysBeforeMonth(y, m) <= doy < DaysBeforeMonth(y, m) + DaysInMonth(y, m)
    requires DaysBeforeMonth(y, n) <= doy < DaysBeforeMonth(y, n) + DaysInMonth(y, n)
    ensures m == n
  {
    if m < n {
      MonthsAscend(y, m, n);
    } else if n < m {
      MonthsAscend(y, n, m);
    }
  }

  /** The text of the epoch. */
  lemma EpochText()
    ensures Iso(0) == "1970-01-01T00:00:00+00:00"
  {
    hide DateText, TimeText, SecondsOf, CivilOf, CivilDate;
    var c := Civil(1970, 1, 1, 0, 0, 0);
    EpochTextSecond();
    KnownText(0, c);
    DateDigits(c, "1970-01-01");
    TimeDigits(c, "00:00:00");
  }

  /** A whole window id. */
  lemma WindowIdText()
    ensures WindowIdFor("BTC-USD", 0) == "BTC-USD:1970-01-01T00:00:00+00:00"
  {
    hide Iso;
    EpochText();
    assert 0 / SECOND == 0;
  }

  lemma EpochTextSecond()
    ensures var c := Civil(1970, 1, 1, 0, 0, 0); CivilDate(c) && SecondsOf(c) == 0
  {
    assert DaysBeforeMonth(1970, 1) == 0;
  }

  /** The text of a second of a leap day. */
  lemma LeapDayText()
    ensures Iso(1_709_210_096) == "2024-02-29T12:34:56+00:00"
  {
    hide DateText, TimeText, SecondsOf, CivilOf, CivilDate;
    var c := Civil(2024, 2, 29, 12, 34, 56);
    LeapDayTextSecond();
    KnownText(1_709_210_096, c);
    DateDigits(c, "2024-02-29");
    TimeDigits(c, "12:34:56");
  }

  lemma LeapDayTextSecond()
    ensures var c := Civil(2024, 2, 29, 12, 34, 56); CivilDate(c) && SecondsOf(c) == 1_709_210_096
  {
    assert DaysBeforeMonth(2024, 2) == DaysBeforeMonth(2024, 1) + 31 == 31;
  }

  /** The text of the last second of the calendar. */
  lemma LastSecondText()
    ensures Iso(253_402_300_799) == "9999-12-31T23:59:59+00:00"
  {
    hide DateText, TimeText, SecondsOf, CivilOf, CivilDate;
    var c := Civil(9999, 12, 31, 23, 59, 59);
    LastSecondTextSecond();
    KnownText(253_402_300_799, c);
    DateDigits(c, "9999-12-31");
    TimeDigits(c, "23:59:59");
  }

  lemma LastSecondTextSecond()
    ensures var c := Civil(9999, 12, 31, 23, 59, 59); CivilDate(c) && SecondsOf(c) == 253_402_300_799
  {
    MonthsFillYear(9999);
    assert DaysBeforeMonth(9999, 13) == DaysBeforeMonth(9999, 12) + 31;
  }

  /** The two decimal digits of a number. */
  predicate IsPad2(s: string, n: int) {
    |s| == 2 && '0' <= s[0] <= '9' && '0' <= s[1] <= '9' && ValueOf(s[0]) * 10 + ValueOf(s[1]) == n
  }

  lemma Pad2Is(n: int, s: string)
    requires 0 <= n < 100 && IsPad2(s, n)
    ensures Pad2(n) == s
  {
    DigitIs(n / 10, s[0]);
    DigitIs(n % 10, s[1]);
  }

  lemma DigitIs(n: int, c: char)
    requires 0 <= n < 10 && '0' <= c <= '9' && ValueOf(c) == n
    ensures Digit(n) == c
  {
    assert c as int == '0' as int + n;
    assert Digit(n) as int == '0' as int + n;
  }

  /** A date written out: four digits, two and two, with dashes between. */
  lemma DateDigits(c: Civil, s: string)
    requires 0 <= c.year < 10_000 && 0 <= c.month < 100 && 0 <= c.day < 100
    requires |s| == 10 && s[4] == '-' && s[7] == '-'
    requires IsPad2(s[..2], c.year / 100) && IsPad2(s[2..4], c.year % 100)
    requires IsPad2(s[5..7], c.month) && IsPad2(s[8..], c.day)
    ensures DateText(c) == s
  {
    hide Pad2, IsPad2;
    Pad2Is(c.year / 100, s[..2]);
    Pad2Is(c.year % 100, s[2..4]);
    Pad2Is(c.month, s[5..7]);
    Pad2Is(c.day, s[8..]);
    assert s == s[..2] + s[2..4] + ("-" + s[5..7]) + ("-" + s[8..]);
  }

  /** A time written out: two digits each, with colons between. */
  lemma TimeDigits(c: Civil, s: string)
    requires 0 <= c.hour < 100 && 0 <= c.minute < 100 && 0 <= c.second < 100
    requires |s| == 8 && s[2] == ':' && s[5] == ':'
    requires IsPad2(s[..2], c.hour) && IsPad2(s[3..5], c.minute) && IsPad2(s[6..], c.second)
    ensures TimeText(c) == s
  {
    hide Pad2, IsPad2;
    Pad2Is(c.hour, s[..2]);
    Pad2Is(c.minute, s[3..5]);
    Pad2Is(c.second, s[6..]);
    assert s == s[..2] + (":" + s[3..5]) + (":" + s[6..]);
  }

  lemma KnownText(seconds: int, c: Civil)
    requires CivilDate(c) && SecondsOf(c) == seconds && 0 <= c.year < 10_000
    requires 0 <= seconds + EPOCH_DAY * SECONDS_PER_DAY < DAYS_IN_CALENDAR * SECONDS_PER_DAY
    ensures Iso(seconds) == DateText(c) + ("T" + TimeText(c)) + "+00:00"
  {
    hide DateText, TimeText;
    CivilIsUnique(CivilOf(seconds), c);
  }

  // ----- The development feed's event_id -----

  function NatText(n: nat): (s: string)
    ensures |s| > 0 && s[0] != '-' && ':' !in s
  {
    if n < 10 then [Digit(n)] else NatText(n / 10) + [Digit(n % 10)]
  }

  function NatOf(s: string): int {
    if |s| == 0 then 0 else NatOf(s[..|s| - 1]) * 10 + ValueOf(s[|s| - 1])
  }

  lemma {:induction false} NatTextRoundTrip(n: nat)
    ensures NatOf(NatText(n)) == n
  {
    if n < 10 {
      assert NatText(n)[..0] == "";
    } else {
      NatTextRoundTrip(n / 10);
      assert NatText(n)[..|NatText(n)| - 1] == NatText(n / 10);
    }
  }

  /** `str(n)` of a Python integer. */
  function IntText(n: int): (s: string)
    ensures ':' !in s
  {
    if n < 0 then "-" + NatText(-n) else NatText(n)
  }

  lemma NatTextInjective(a: nat, b: nat)
    requires NatText(a) == NatText(b)
    ensures a == b
  {
    NatTextRoundTrip(a);
    NatTextRoundTrip(b);
  }

  lemma SignShows(n: int)
    ensures |IntText(n)| > 0 && (IntText(n)[0] == '-' <==> n < 0)
    ensures n < 0 ==> IntText(n)[1..] == NatText(-n)
    ensures n >= 0 ==> IntText(n) == NatText(n)
  {
  }

  lemma IntTextInjective(a: int, b: int)
    requires IntText(a) == IntText(b)
    ensures a == b
  {
    SignShows(a);
    SignShows(b);
    if a < 0 {
      NatTextInjective(-a, -b);
    } else {
      NatTextInjective(a, b);
    }
  }

  function DevEventId(tradeId: string, tradeTimeMs: int): string {
    "dev:" + tradeId + ":" + IntText(tradeTimeMs)
  }

  /** A whole development event id. */
  lemma DevEventIdText()
    ensures DevEventId("a:b", 1_700) == "dev:a:b:1700"
  {
    hide NatText;
    NatTextGrows(1);
    NatTextGrows(17);
    NatTextGrows(170);
    NatTextGrows(1_700);
    DigitIs(1, '1');
    DigitIs(7, '7');
    DigitIs(0, '0');
    assert NatText(1_700) == "1700";
  }

  lemma NatTextGrows(n: nat)
    ensures NatText(n) == if n < 10 then [Digit(n)] else NatText(n / 10) + [Digit(n % 10)]
  {
  }

  /** A negative number has one sign in front. */
  lemma NegativeText(n: nat)
    requires n > 0
    ensures IntText(0 - n) == "-" + IntText(n)
  {
  }

  lemma ColonInTail(a: string, t: string, b: string, u: string)
    requires |a| < |b| && a + ":" + t == b + ":" + u
    ensures ':' in t
  {
    assert (b + ":" + u)[|b|] == ':';
    assert (a + ":" + t)[|b|] == t[|b| - |a| - 1];
  }

  /** Two texts that end in a colon and a colon-free tail split in one way only. */
  lemma LastColonSplits(a: string, t: string, b: string, u: string)
    requires ':' !in t && ':' !in u && a + ":" + t == b + ":" + u
    ensures a == b && t == u
  {
    if |a| < |b| {
      ColonInTail(a, t, b, u);
    } else if |b| < |a| {
      ColonInTail(b, u, a, t);
    } else {
      var s := a + ":" + t;
      assert s[..|a|] == a && s[..|a|] == b;
      assert s[|a| + 1..] == t && s[|a| + 1..] == u;
    }
  }

  /** Distinct raw identities never share a Bronze row. */
  lemma DevEventIdInjective(tradeId: string, ms: int, tradeId': string, ms': int)
    ensures DevEventId(tradeId, ms) == DevEventId(tradeId', ms') <==> tradeId == tradeId' && ms == ms'
  {
    if DevEventId(tradeId, ms) == DevEventId(tradeId', ms') {
      LastColonSplits("dev:" + tradeId, IntText(ms), "dev:" + tradeId', IntText(ms'));
      assert ("dev:" + tradeId)[4..] == tradeId && ("dev:" + tradeId')[4..] == tradeId';
      IntTextInjective(ms, ms');
    }
  }
}
