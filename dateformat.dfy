/**
 * The service's one date format, "%m-%d-%Y": parse_date (datetime.strptime)
 * and the strftime calls that key the ledger by date.
 */
module DateFormat {
  import opened Wrappers
  import opened Calendar

  predicate IsDigit(c: char)
  {
    '0' <= c <= '9'
  }

  function DigitValue(c: char): int
  {
    c as int - '0' as int
  }

  function Digit(n: int): (c: char)
    requires 0 <= n <= 9
    ensures IsDigit(c) && DigitValue(c) == n
  {
    ('0' as int + n) as char
  }

  /** Two digits, zero-padded (strftime %m and %d). */
  function Pad2(n: int): (s: string)
    requires 0 <= n < 100
  {
    [Digit(n / 10), Digit(n % 10)]
  }

  /** Four digits, zero-padded (strftime %Y for years 1000..9999). */
  function Pad4(n: int): (s: string)
    requires 0 <= n < 10000
  {
    Pad2(n / 100) + Pad2(n % 100)
  }

  /** The value of a string of four decimal digits. */
  function FourDigitValue(s: string): int
    requires |s| == 4
  {
    DigitValue(s[0]) * 1000 + DigitValue(s[1]) * 100 + DigitValue(s[2]) * 10 + DigitValue(s[3])
  }

  /** Years whose %Y rendering is four digits on every platform. */
  predicate FormattableYear(d: Date)
  {
    1000 <= d.year <= 9999
  }

  /** date.strftime("%m-%d-%Y"). */
  function FormatDate(d: Date): (s: string)
    requires ValidDate(d) && FormattableYear(d)
    ensures |s| == 10 && s[2] == '-' && s[5] == '-'
  {
    Pad2(d.month) + "-" + Pad2(d.day) + "-" + Pad4(d.year)
  }

  /**
   * The %m directive of strptime: the regular expression 1[0-2]|0[1-9]|[1-9].
   * Gives the month and the number of characters it took. When a two-character
   * alternative matches, the one-character one would leave a digit where the
   * format needs '-', so trying the alternatives in order and never
   * backtracking finds the same matches as the regular-expression engine.
   */
  function MonthField(s: string): Option<(int, nat)>
  {
    if |s| >= 2 && s[0] == '1' && '0' <= s[1] <= '2' then Some((10 + DigitValue(s[1]), 2))
    else if |s| >= 2 && s[0] == '0' && '1' <= s[1] <= '9' then Some((DigitValue(s[1]), 2))
    else if |s| >= 1 && '1' <= s[0] <= '9' then Some((DigitValue(s[0]), 1))
    else None
  }

  /** The %d directive: 3[01]|[12]\d|0[1-9]|[1-9]| [1-9], in that order. */
  function DayField(s: string): Option<(int, nat)>
  {
    if |s| >= 2 && s[0] == '3' && '0' <= s[1] <= '1' then Some((30 + DigitValue(s[1]), 2))
    else if |s| >= 2 && '1' <= s[0] <= '2' && IsDigit(s[1]) then Some((DigitValue(s[0]) * 10 + DigitValue(s[1]), 2))
    else if |s| >= 2 && s[0] == '0' && '1' <= s[1] <= '9' then Some((DigitValue(s[1]), 2))
    else if |s| >= 1 && '1' <= s[0] <= '9' then Some((DigitValue(s[0]), 1))
    else if |s| >= 2 && s[0] == ' ' && '1' <= s[1] <= '9' then Some((DigitValue(s[1]), 2))
    else None
  }

  /**
   * datetime.strptime(s, "%m-%d-%Y"): the whole string must match, %Y is four
   * digits, and the fields must name a real date of year 1 or later; any other
   * string raises ValueError, here None.
   */
  function ParseDate(s: string): (r: Option<Date>)
    ensures r.Some? ==> ValidDate(r.value) && InDatetimeRange(r.value)
  {
    match MonthField(s)
    case None => None
    case Some((m, k)) =>
      if k < |s| && s[k] == '-' then
        var rest := s[k + 1..];
        match DayField(rest)
        case None => None
        case Some((d, j)) =>
          if j < |rest| && rest[j] == '-' && |rest| == j + 5
             && forall i :: j + 1 <= i < |rest| ==> IsDigit(rest[i])
          then
            var date := Date(FourDigitValue(rest[j + 1..]), m, d);
            if date.year >= 1 && ValidDate(date) then Some(date) else None
          else None
      else None
  }

  lemma MonthFieldOfPad2(m: int, rest: string)
    requires 1 <= m <= 12
    ensures MonthField(Pad2(m) + rest) == Some((m, 2))
  {
  }

  lemma DayFieldOfPad2(d: int, rest: string)
    requires 1 <= d <= 31
    ensures DayField(Pad2(d) + rest) == Some((d, 2))
  {
  }

  lemma FourDigitValueOfPad4(y: int)
    requires 0 <= y < 10000
    ensures FourDigitValue(Pad4(y)) == y
  {
    var hi, lo := y / 100, y % 100;
    var s := Pad4(y);
    assert s[0] == Digit(hi / 10) && s[1] == Digit(hi % 10) && s[2] == Digit(lo / 10) && s[3] == Digit(lo % 10);
    DigitsOf(hi);
    DigitsOf(lo);
  }

  lemma DigitsOf(n: int)
    requires 0 <= n < 100
    ensures n == 10 * (n / 10) + n % 10
  {
  }

  /** Parsing a formatted date gives the date back. */
  lemma ParseFormatRoundTrip(d: Date)
    requires ValidDate(d) && FormattableYear(d)
    ensures ParseDate(FormatDate(d)) == Some(d)
  {
    var s := FormatDate(d);
    MonthFieldOfPad2(d.month, "-" + Pad2(d.day) + "-" + Pad4(d.year));
    assert s == Pad2(d.month) + ("-" + Pad2(d.day) + "-" + Pad4(d.year));
    var rest := s[3..];
    assert rest == Pad2(d.day) + ("-" + Pad4(d.year));
    DayFieldOfPad2(d.day, "-" + Pad4(d.year));
    assert rest[2] == '-' && |rest| == 7;
    var year := rest[3..];
    assert year == Pad4(d.year);
    assert forall i :: 3 <= i < |rest| ==> IsDigit(rest[i]) by {
      forall i | 3 <= i < |rest|
        ensures IsDigit(rest[i])
      {
        assert rest[i] == year[i - 3];
      }
    }
    FourDigitValueOfPad4(d.year);
  }

  /** Distinct dates have distinct keys in the ledger. */
  lemma FormatInjective(a: Date, b: Date)
    requires ValidDate(a) && FormattableYear(a) && ValidDate(b) && FormattableYear(b)
    requires FormatDate(a) == FormatDate(b)
    ensures a == b
  {
    ParseFormatRoundTrip(a);
    ParseFormatRoundTrip(b);
  }

  /** strptime also takes unpadded months and days. */
  lemma ParseAcceptsUnpadded()
    ensures ParseDate("1-5-2024") == Some(Date(2024, 1, 5))
  {
    var s := "1-5-2024";
    assert MonthField(s) == Some((1, 1));
    var rest := s[2..];
    assert rest == "5-2024";
    assert DayField(rest) == Some((5, 1));
    assert rest[2..] == "2024";
    assert IsDigit(rest[2]) && IsDigit(rest[3]) && IsDigit(rest[4]) && IsDigit(rest[5]);
    assert FourDigitValue(rest[2..]) == 2024;
  }

  /** A day the month does not have is refused. */
  lemma ParseRejectsFeb30()
    ensures ParseDate("02-30-2024") == None
  {
  }

  /** A month number past 12 is refused. */
  lemma ParseRejectsMonth13()
    ensures ParseDate("13-01-2024") == None
  {
  }
}
