/** Calendar dates and the two date texts the tracker meets: "dd/mm/yyyy",
    the format it writes, and "yyyy-mm-dd", an older format it rewrites.
    Parsing follows datetime.strptime, formatting date.strftime. */
module DateText {
  import opened Options

  /** A calendar date, as a datetime.date holds it. */
  datatype Date = Date(day: int, month: int, year: int)

  predicate IsLeapYear(year: int) {
    year % 4 == 0 && (year % 100 != 0 || year % 400 == 0)
  }

  function DaysInMonth(month: int, year: int): (n: int)
    requires 1 <= month <= 12
    ensures 28 <= n <= 31
  {
    if month == 2 then (if IsLeapYear(year) then 29 else 28)
    else if month == 4 || month == 6 || month == 9 || month == 11 then 30
    else 31
  }

  /** The dates datetime.date accepts: years 1 to 9999 of the proleptic
      Gregorian calendar, and no day past the end of its month. */
  predicate ValidDate(d: Date) {
    1 <= d.year <= 9999 && 1 <= d.month <= 12 && 1 <= d.day <= DaysInMonth(d.month, d.year)
  }

  /** How two datetime values at midnight compare: by year, then month, then day. */
  predicate NotAfter(a: Date, b: Date) {
    a.year < b.year || (a.year == b.year && (a.month < b.month || (a.month == b.month && a.day <= b.day)))
  }

  lemma NotAfterIsTotalOrder(a: Date, b: Date, c: Date)
    ensures NotAfter(a, a)
    ensures NotAfter(a, b) || NotAfter(b, a)
    ensures NotAfter(a, b) && NotAfter(b, a) ==> a == b
    ensures NotAfter(a, b) && NotAfter(b, c) ==> NotAfter(a, c)
  {
  }

  predicate IsDigit(c: char) {
    '0' <= c <= '9'
  }

  function DigitValue(c: char): (n: int)
    requires IsDigit(c)
    ensures 0 <= n <= 9
  {
    c as int - '0' as int
  }

  function DigitChar(n: int): (c: char)
    requires 0 <= n <= 9
    ensures IsDigit(c) && DigitValue(c) == n
  {
    ('0' as int + n) as char
  }

  /** The day field of strptime's %d, whose pattern is
      3[01] | [12]\d | 0[1-9] | [1-9] | " "[1-9]. */
  function ParseDayField(t: string): (n: Option<int>)
    ensures n.Some? ==> 1 <= n.value <= 31
  {
    if |t| == 1 then
      (if '1' <= t[0] <= '9' then Some(DigitValue(t[0])) else None)
    else if |t| == 2 && (t[0] == ' ' || t[0] == '0') && '1' <= t[1] <= '9' then
      Some(DigitValue(t[1]))
    else if |t| == 2 && (t[0] == '1' || t[0] == '2') && IsDigit(t[1]) then
      Some(10 * DigitValue(t[0]) + DigitValue(t[1]))
    else if |t| == 2 && t[0] == '3' && (t[1] == '0' || t[1] == '1') then
      Some(30 + DigitValue(t[1]))
    else
      None
  }

  /** The month field of strptime's %m, whose pattern is 1[0-2] | 0[1-9] | [1-9]. */
  function ParseMonthField(t: string): (n: Option<int>)
    ensures n.Some? ==> 1 <= n.value <= 12
  {
    if |t| == 1 then
      (if '1' <= t[0] <= '9' then Some(DigitValue(t[0])) else None)
    else if |t| == 2 && t[0] == '0' && '1' <= t[1] <= '9' then
      Some(DigitValue(t[1]))
    else if |t| == 2 && t[0] == '1' && '0' <= t[1] <= '2' then
      Some(10 + DigitValue(t[1]))
    else
      None
  }

  /** The year field of strptime's %Y: exactly four digits. */
  function ParseYearField(t: string): (n: Option<int>)
    ensures n.Some? ==> 0 <= n.value <= 9999
  {
    if |t| == 4 && IsDigit(t[0]) && IsDigit(t[1]) && IsDigit(t[2]) && IsDigit(t[3]) then
      Some(1000 * DigitValue(t[0]) + 100 * DigitValue(t[1]) + 10 * DigitValue(t[2]) + DigitValue(t[3]))
    else
      None
  }

  /** The pieces of s between occurrences of sep, as Python's s.split(sep). */
  function Split(s: string, sep: char): (parts: seq<string>)
    ensures |parts| >= 1
  {
    if s == [] then [""]
    else
      var rest := Split(s[1..], sep);
      if s[0] == sep then [""] + rest else [[s[0]] + rest[0]] + rest[1..]
  }

  lemma {:induction false} SplitWithoutSeparator(a: string, sep: char)
    requires sep !in a
    ensures Split(a, sep) == [a]
  {
    if a != [] {
      SplitWithoutSeparator(a[1..], sep);
      assert [a[0]] + a[1..] == a;
    }
  }

  lemma {:induction false} SplitAtSeparator(a: string, sep: char, b: string)
    requires sep !in a
    ensures Split(a + [sep] + b, sep) == [a] + Split(b, sep)
  {
    var s := a + [sep] + b;
    if a == [] {
      assert s[1..] == b;
    } else {
      assert s[1..] == a[1..] + [sep] + b;
      SplitAtSeparator(a[1..], sep, b);
      assert [a[0]] + a[1..] == a;
    }
  }

  /** The date three parsed fields name, if datetime.date accepts it. */
  function DateOfFields(day: Option<int>, month: Option<int>, year: Option<int>): Option<Date> {
    if day.Some? && month.Some? && year.Some? && ValidDate(Date(day.value, month.value, year.value))
    then Some(Date(day.value, month.value, year.value))
    else None
  }

  /** datetime.strptime(s, "%d/%m/%Y"), or None where it raises ValueError:
      the whole text must be day, month and year fields separated by '/'. */
  function ParseDmy(s: string): (d: Option<Date>)
    ensures d.Some? ==> ValidDate(d.value)
  {
    var parts := Split(s, '/');
    if |parts| != 3 then None
    else DateOfFields(ParseDayField(parts[0]), ParseMonthField(parts[1]), ParseYearField(parts[2]))
  }

  /** datetime.strptime(s, "%Y-%m-%d"), or None where it raises ValueError. */
  function ParseYmd(s: string): (d: Option<Date>)
    ensures d.Some? ==> ValidDate(d.value)
  {
    var parts := Split(s, '-');
    if |parts| != 3 then None
    else DateOfFields(ParseDayField(parts[2]), ParseMonthField(parts[1]), ParseYearField(parts[0]))
  }

  function TwoDigits(n: int): string
    requires 0 <= n <= 99
  {
    [DigitChar(n / 10), DigitChar(n % 10)]
  }

  function FourDigits(n: int): string
    requires 0 <= n <= 9999
  {
    TwoDigits(n / 100) + TwoDigits(n % 100)
  }

  /** date.strftime("%d/%m/%Y"): day and month zero-padded to two digits,
      the year to four. */
  function FormatDmy(d: Date): (s: string)
    requires ValidDate(d)
    ensures |s| == 10 && s[2] == '/' && s[5] == '/'
  {
    TwoDigits(d.day) + "/" + TwoDigits(d.month) + "/" + FourDigits(d.year)
  }

  lemma DayFieldOfTwoDigits(n: int)
    requires 1 <= n <= 31
    ensures ParseDayField(TwoDigits(n)) == Some(n)
  {
  }

  lemma MonthFieldOfTwoDigits(n: int)
    requires 1 <= n <= 12
    ensures ParseMonthField(TwoDigits(n)) == Some(n)
  {
  }

  lemma YearFieldOfFourDigits(n: int)
    requires 0 <= n <= 9999
    ensures ParseYearField(FourDigits(n)) == Some(n)
  {
    var hi, lo := n / 100, n % 100;
    assert n == 100 * hi + lo;
    assert hi == 10 * (hi / 10) + hi % 10;
    assert lo == 10 * (lo / 10) + lo % 10;
    var t := FourDigits(n);
    assert t == [DigitChar(hi / 10), DigitChar(hi % 10), DigitChar(lo / 10), DigitChar(lo % 10)];
  }

  /** Reading back a formatted date gives the same date: what the tracker
      writes is always accepted by its own parser. */
  lemma FormatDmyRoundTrip(d: Date)
    requires ValidDate(d)
    ensures ParseDmy(FormatDmy(d)) == Some(d)
  {
    var dd, mm, yyyy := TwoDigits(d.day), TwoDigits(d.month), FourDigits(d.year);
    SplitWithoutSeparator(yyyy, '/');
    SplitAtSeparator(mm, '/', yyyy);
    SplitAtSeparator(dd, '/', mm + ['/'] + yyyy);
    assert FormatDmy(d) == dd + ['/'] + (mm + ['/'] + yyyy);
    DayFieldOfTwoDigits(d.day);
    MonthFieldOfTwoDigits(d.month);
    YearFieldOfFourDigits(d.year);
  }

  /** The migration applied to one stored date: a date valid as "dd/mm/yyyy"
      is kept, a valid "yyyy-mm-dd" date is rewritten as "dd/mm/yyyy", and any
      other text is kept as it is. */
  function NormalizeDate(s: string): string {
    if ParseDmy(s).Some? then s
    else match ParseYmd(s)
      case Some(d) => FormatDmy(d)
      case None => s
  }

  /** A rewritten date names the same day, month and year; the outcome parses
      as "dd/mm/yyyy" exactly when the input parsed in either format. */
  lemma NormalizeDateMeaning(s: string)
    ensures ParseDmy(s).Some? ==> NormalizeDate(s) == s
    ensures ParseDmy(s).None? && ParseYmd(s).Some? ==> ParseDmy(NormalizeDate(s)) == ParseYmd(s)
    ensures ParseDmy(s).None? && ParseYmd(s).None? ==> NormalizeDate(s) == s
    ensures ParseDmy(NormalizeDate(s)).Some? <==> ParseDmy(s).Some? || ParseYmd(s).Some?
  {
    if ParseDmy(s).None? && ParseYmd(s).Some? {
      FormatDmyRoundTrip(ParseYmd(s).value);
    }
  }

  lemma NormalizeDateIdempotent(s: string)
    ensures NormalizeDate(NormalizeDate(s)) == NormalizeDate(s)
  {
    NormalizeDateMeaning(s);
  }
}
