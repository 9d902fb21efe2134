/** The appointment date check: `datetime.strptime(date, "%Y-%m-%d")`, which
    succeeds exactly when the text matches the directive pattern as a whole and
    names a real date of the proleptic Gregorian calendar in years 1..9999. */
module Calendar {
  import opened Base

  datatype Date = Date(year: int, month: int, day: int)

  predicate IsLeapYear(y: int)
  {
    y % 4 == 0 && (y % 100 != 0 || y % 400 == 0)
  }

  function DaysInMonth(y: int, m: int): (r: int)
    requires 1 <= m <= 12
    ensures 28 <= r <= 31
    ensures r == 29 <==> m == 2 && IsLeapYear(y)
  {
    if m == 2 then (if IsLeapYear(y) then 29 else 28)
    else if m == 4 || m == 6 || m == 9 || m == 11 then 30
    else 31
  }

  /** A calendar date that Python's `datetime.date` accepts. */
  predicate IsValid(d: Date)
  {
    && 1 <= d.year <= 9999
    && 1 <= d.month <= 12
    && 1 <= d.day <= DaysInMonth(d.year, d.month)
  }

  predicate IsDigit(c: char)
  {
    '0' <= c <= '9'
  }

  predicate IsNonZeroDigit(c: char)
  {
    '1' <= c <= '9'
  }

  function Digit(c: char): (r: int)
    requires IsDigit(c)
    ensures 0 <= r <= 9
  {
    c as int - '0' as int
  }

  /** A directive matched at the start of some text: its numeric value and the
      number of characters it consumed. */
  datatype Field = Field(value: int, width: nat)

  /** The `%m` directive, the alternatives `1[0-2]`, `0[1-9]`, `[1-9]` tried in
      that order. Since a `-` must follow, backtracking into a later alternative
      can never lead to a different overall match. */
  function MatchMonth(s: string): (r: Option<Field>)
    ensures r.Some? ==> 1 <= r.value.width <= 2 && r.value.width <= |s|
    ensures r.Some? ==> 1 <= r.value.value <= 12
  {
    if |s| >= 2 && s[0] == '1' && '0' <= s[1] <= '2' then Some(Field(10 + Digit(s[1]), 2))
    else if |s| >= 2 && s[0] == '0' && IsNonZeroDigit(s[1]) then Some(Field(Digit(s[1]), 2))
    else if |s| >= 1 && IsNonZeroDigit(s[0]) then Some(Field(Digit(s[0]), 1))
    else None
  }

  /** The `%d` directive, the alternatives `3[01]`, `[12]\d`, `0[1-9]`, `[1-9]`,
      ` [1-9]` tried in that order. It ends the pattern, so the first alternative
      that matches decides how much is consumed. */
  function MatchDay(s: string): (r: Option<Field>)
    ensures r.Some? ==> 1 <= r.value.width <= 2 && r.value.width <= |s|
    ensures r.Some? ==> 1 <= r.value.value <= 31
  {
    if |s| >= 2 && s[0] == '3' && (s[1] == '0' || s[1] == '1') then Some(Field(30 + Digit(s[1]), 2))
    else if |s| >= 2 && (s[0] == '1' || s[0] == '2') && IsDigit(s[1]) then Some(Field(10 * Digit(s[0]) + Digit(s[1]), 2))
    else if |s| >= 2 && s[0] == '0' && IsNonZeroDigit(s[1]) then Some(Field(Digit(s[1]), 2))
    else if |s| >= 1 && IsNonZeroDigit(s[0]) then Some(Field(Digit(s[0]), 1))
    else if |s| >= 2 && s[0] == ' ' && IsNonZeroDigit(s[1]) then Some(Field(Digit(s[1]), 2))
    else None
  }

  /** The `%Y` directive: exactly four digits. */
  predicate HasYearPrefix(s: string)
  {
    |s| >= 4 && IsDigit(s[0]) && IsDigit(s[1]) && IsDigit(s[2]) && IsDigit(s[3])
  }

  function YearOf(s: string): int
    requires HasYearPrefix(s)
  {
    1000 * Digit(s[0]) + 100 * Digit(s[1]) + 10 * Digit(s[2]) + Digit(s[3])
  }

  /** `strptime(s, "%Y-%m-%d")`: the date it names, or None where Python raises
      `ValueError` (no match, unconverted data left over, or no such day). */
  function ParseDate(s: string): (r: Option<Date>)
    ensures r.Some? ==> IsValid(r.value)
    ensures r.Some? ==> 8 <= |s| <= 10 && s[4] == '-'
  {
    if !HasYearPrefix(s) || |s| < 5 || s[4] != '-' then None
    else
      match MatchMonth(s[5..])
      case None => None
      case Some(m) =>
        var rest := s[5 + m.width..];
        if |rest| == 0 || rest[0] != '-' then None
        else
          match MatchDay(rest[1..])
          case None => None
          case Some(d) =>
            var date := Date(YearOf(s), m.value, d.value);
            if d.width != |rest| - 1 || !IsValid(date) then None
            else Some(date)
  }

  /** The zero-padded form `YYYY-MM-DD`, as `strftime("%Y-%m-%d")` writes it. */
  predicate IsCanonicalShape(s: string)
  {
    && |s| == 10
    && IsDigit(s[0]) && IsDigit(s[1]) && IsDigit(s[2]) && IsDigit(s[3])
    && s[4] == '-' && IsDigit(s[5]) && IsDigit(s[6])
    && s[7] == '-' && IsDigit(s[8]) && IsDigit(s[9])
  }

  /** The three numbers written in a canonical-shape string, valid or not. */
  function FieldsOf(s: string): Date
    requires IsCanonicalShape(s)
  {
    Date(YearOf(s), 10 * Digit(s[5]) + Digit(s[6]), 10 * Digit(s[8]) + Digit(s[9]))
  }

  /** On zero-padded text the check accepts exactly the real calendar dates:
      "2024-13-40" and "2023-02-29" are refused, "2024-02-29" is accepted. */
  lemma CanonicalAcceptedIffValid(s: string)
    requires IsCanonicalShape(s)
    ensures ParseDate(s) == (if IsValid(FieldsOf(s)) then Some(FieldsOf(s)) else None)
  {
    var rest := s[5..];
    var f := FieldsOf(s);
    if s[5] == '1' && '0' <= s[6] <= '2' {
      assert MatchMonth(rest) == Some(Field(f.month, 2));
    } else if s[5] == '0' && IsNonZeroDigit(s[6]) {
      assert MatchMonth(rest) == Some(Field(f.month, 2));
    } else {
      assert !(1 <= f.month <= 12);
      if IsNonZeroDigit(s[5]) {
        assert MatchMonth(rest) == Some(Field(Digit(s[5]), 1));
        assert s[5 + 1..][0] == s[6];
      }
      return;
    }
    var tail := s[8..];
    assert s[7..][1..] == tail;
    if s[8] == '3' && (s[9] == '0' || s[9] == '1') {
    } else if (s[8] == '1' || s[8] == '2') {
    } else if s[8] == '0' && IsNonZeroDigit(s[9]) {
    } else {
      assert !IsValid(f);
    }
  }

  function DigitChar(n: int): (c: char)
    requires 0 <= n <= 9
    ensures IsDigit(c) && Digit(c) == n
  {
    ('0' as int + n) as char
  }

  /** Four digits of a year in 0..9999, most significant first. */
  function YearDigits(y: int): (r: string)
    requires 0 <= y <= 9999
    ensures |r| == 4 && IsDigit(r[0]) && IsDigit(r[1]) && IsDigit(r[2]) && IsDigit(r[3])
    ensures 1000 * Digit(r[0]) + 100 * Digit(r[1]) + 10 * Digit(r[2]) + Digit(r[3]) == y
  {
    var low := y % 1000;
    var mid := low % 100;
    [DigitChar(y / 1000), DigitChar(low / 100), DigitChar(mid / 10), DigitChar(mid % 10)]
  }

  /** Two digits of a number in 0..99. */
  function TwoDigits(n: int): (r: string)
    requires 0 <= n <= 99
    ensures |r| == 2 && IsDigit(r[0]) && IsDigit(r[1])
    ensures 10 * Digit(r[0]) + Digit(r[1]) == n
  {
    [DigitChar(n / 10), DigitChar(n % 10)]
  }

  /** `strftime("%Y-%m-%d")` of a valid date. */
  function Format(d: Date): (s: string)
    requires IsValid(d)
    ensures IsCanonicalShape(s) && FieldsOf(s) == d
  {
    var y := YearDigits(d.year);
    var m := TwoDigits(d.month);
    var dd := TwoDigits(d.day);
    var s := y + "-" + m + "-" + dd;
    assert s[0..4] == y && s[5] == m[0] && s[6] == m[1] && s[8] == dd[0] && s[9] == dd[1];
    assert YearOf(s) == d.year by {
      assert s[0] == y[0] && s[1] == y[1] && s[2] == y[2] && s[3] == y[3];
    }
    s
  }

  /** Every valid date, written the way the program writes dates, is accepted
      back as the same date. */
  lemma FormatThenParse(d: Date)
    requires IsValid(d)
    ensures ParseDate(Format(d)) == Some(d)
  {
    CanonicalAcceptedIffValid(Format(d));
  }

  /** The cases the appointment form is known for, in zero-padded form. */
  lemma KnownCanonicalDates()
    ensures ParseDate("2024-05-01") == Some(Date(2024, 5, 1))
    ensures ParseDate("2024-13-40").None?
    ensures ParseDate("2023-02-29").None?
    ensures ParseDate("2024-02-29") == Some(Date(2024, 2, 29))
  {
    CanonicalAcceptedIffValid("2024-05-01");
    CanonicalAcceptedIffValid("2024-13-40");
    CanonicalAcceptedIffValid("2023-02-29");
    CanonicalAcceptedIffValid("2024-02-29");
  }

  /** Unpadded month and day are accepted; trailing text is not. */
  lemma KnownLenientDates()
    ensures ParseDate("2024-5-1") == Some(Date(2024, 5, 1))
    ensures ParseDate("2024-05-01 ").None?
  {
    var s := "2024-5-1";
    assert s[5..] == "5-1";
    assert s[6..] == "-1";
    assert s[6..][1..] == "1";
    var t := "2024-05-01 ";
    assert t[5..] == "05-01 ";
    assert t[7..] == "-01 ";
    assert t[7..][1..] == "01 ";
  }
}
