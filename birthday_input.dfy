/**
 * The birthday onboarding step: the text field is kept in the layout
 * MM/DD/YYYY, the "next" button is enabled only for a plausible date of
 * birth, and pressing return in the field forwards the text as it is.
 */
module BirthdayInput {
  import opened Text
  import opened Wrappers

  /** `formatBirthday`: keeps the digits and lays out at most eight of them as MM/DD/YYYY. */
  function Format(value: string): (r: string)
    ensures |r| <= 10
  {
    if value == "" then value
    else
      var d := Digits(value);
      if |d| < 2 then d
      else if |d| < 4 then d[..2] + "/" + d[2..]
      else d[..2] + "/" + d[2..4] + "/" + d[4..Min(|d|, 8)]
  }

  /**
   * Where the slashes go: a single digit stands bare; two or three digits get
   * a '/' after the month, so exactly two digits end in a slash; from four on
   * a second '/' follows the day. Every other position holds a digit.
   */
  lemma {:induction false} FormatLayout(value: string)
    ensures var d := Digits(value); var r := Format(value);
      && (|d| < 2 ==> r == d)
      && (|d| == 2 ==> r == d + "/")
      && (2 <= |d| < 4 ==>
            |r| == |d| + 1 && r[2] == '/'
            && forall k :: 0 <= k < |r| && k != 2 ==> IsDigit(r[k]))
      && (4 <= |d| ==>
            |r| == Min(|d|, 8) + 2 && r[2] == '/' && r[5] == '/'
            && forall k :: 0 <= k < |r| && k != 2 && k != 5 ==> IsDigit(r[k]))
  {
  }

  lemma {:induction false} DigitsOfShortLayout(a: string, b: string)
    requires AllDigits(a) && AllDigits(b)
    ensures Digits(a + "/" + b) == a + b
  {
    DigitsOfDigits(a);
    DigitsOfDigits(b);
    DigitsSkip(a, "/", b);
  }

  lemma {:induction false} DigitsOfFullLayout(a: string, b: string, c: string)
    requires AllDigits(a) && AllDigits(b) && AllDigits(c)
    ensures Digits(a + "/" + b + "/" + c) == a + b + c
  {
    DigitsOfShortLayout(a, b);
    DigitsOfDigits(c);
    DigitsSkip(a + "/" + b, "/", c);
  }

  /** The digits of the formatted text are the first eight (or fewer) digits typed, in order. */
  lemma {:induction false} FormatDigits(value: string)
    ensures var d := Digits(value); Digits(Format(value)) == d[..Min(|d|, 8)]
  {
    var d := Digits(value);
    if value != [] && |d| >= 4 {
      var m := Min(|d|, 8);
      DigitsOfFullLayout(d[..2], d[2..4], d[4..m]);
      assert d[..2] + d[2..4] + d[4..m] == d[..m];
    } else if value != [] && |d| >= 2 {
      DigitsOfShortLayout(d[..2], d[2..]);
      assert d[..2] + d[2..] == d;
    } else if value != [] {
      DigitsOfDigits(d);
    }
  }

  /** Re-formatting the field's content changes nothing. */
  lemma {:induction false} FormatIdempotent(value: string)
    ensures Format(Format(value)) == Format(value)
  {
    var d := Digits(value);
    var r := Format(value);
    FormatDigits(value);
    if r != "" {
      var e := Digits(r);
      assert e == d[..Min(|d|, 8)];
      if |d| >= 4 {
        assert e[..2] == d[..2] && e[2..4] == d[2..4] && e[4..Min(|e|, 8)] == d[4..Min(|d|, 8)];
      }
    }
  }

  // ---------------------------------------------------------------------------
  // Dates

  /** A calendar date in the device's local time zone; months and days count from 1. */
  datatype Date = Date(year: int, month: int, day: int)

  predicate IsLeapYear(y: int) {
    y % 4 == 0 && (y % 100 != 0 || y % 400 == 0)
  }

  function DaysInMonth(y: int, m: int): (n: int)
    requires 1 <= m <= 12
    ensures 28 <= n <= 31
  {
    if m == 2 then (if IsLeapYear(y) then 29 else 28)
    else if m == 4 || m == 6 || m == 9 || m == 11 then 30
    else 31
  }

  /**
   * The date `new Date(year, month - 1, day)` denotes for a month in 1..12
   * and a day in 1..31: a day past the end of the month rolls over into the
   * next month (31 February 2000 is 2 March 2000).
   */
  function CalendarDate(y: int, m: int, d: int): (r: Date)
    requires 1 <= m <= 12 && 1 <= d <= 31
    ensures 1 <= r.month <= 12 && 1 <= r.day <= DaysInMonth(r.year, r.month)
    ensures r.year == y && m <= r.month <= m + 1
    ensures r.month == m <==> d <= DaysInMonth(y, m)
    ensures r.month == m ==> r.day == d
    ensures r.month == m + 1 ==> r.day == d - DaysInMonth(y, m)
  {
    if d <= DaysInMonth(y, m) then Date(y, m, d)
    else Date(y, m + 1, d - DaysInMonth(y, m))
  }

  /** `a <= b` for two dates, the first taken at midnight. */
  predicate NotAfter(a: Date, b: Date) {
    a.year < b.year
    || (a.year == b.year && a.month < b.month)
    || (a.year == b.year && a.month == b.month && a.day <= b.day)
  }

  /**
   * `parseInt(s, 10)`: leading white space and one sign are skipped, then the
   * longest run of digits is read; without a digit the result is NaN (None).
   */
  function ParseInt(s: string): Option<int> {
    var t := TrimStart(s);
    var signed := t != [] && (t[0] == '+' || t[0] == '-');
    var u := if signed then t[1..] else t;
    var ds := LeadingDigits(u);
    var v: int := if ds == [] then 0 else DigitsValue(ds);
    if ds == [] then None
    else if signed && t[0] == '-' then Some(-v)
    else Some(v)
  }

  /** A run of digits parses to its value, below 10 to the power of its length. */
  lemma {:induction false} ParseDigits(s: string)
    requires AllDigits(s) && s != []
    ensures ParseInt(s) == Some(DigitsValue(s))
    ensures 0 <= ParseInt(s).value < Pow10(|s|)
  {
    assert !IsWhitespace(s[0]);
    assert TrimStart(s) == s;
    LeadingDigitsOfDigits(s);
  }

  /**
   * `isValidBirthday`: three '/'-separated numbers, a month in 1..12, a day in
   * 1..31, a year from 1900 to this year, and a date that is not after today.
   * A missing or empty part is NaN and fails every comparison.
   */
  predicate IsValid(date: string, today: Date) {
    var parts := Split(date, '/');
    |parts| == 3 && ValidParts(ParseInt(parts[0]), ParseInt(parts[1]), ParseInt(parts[2]), today)
  }

  /** The range checks on the three parsed numbers. */
  predicate ValidParts(month: Option<int>, day: Option<int>, year: Option<int>, today: Date) {
    && month.Some? && day.Some? && year.Some?
    && 1 <= month.value <= 12
    && 1 <= day.value <= 31
    && 1900 <= year.value <= today.year
    && NotAfter(CalendarDate(year.value, month.value, day.value), today)
  }

  /** Two separators make three pieces. */
  lemma {:induction false} SplitThree(a: string, b: string, c: string)
    requires '/' !in a && '/' !in b && '/' !in c
    ensures Split(a + "/" + b + "/" + c, '/') == [a, b, c]
  {
    SplitAt(b, '/', c);
    SplitNone(c, '/');
    SplitAt(a, '/', b + "/" + c);
    assert a + "/" + b + "/" + c == a + ['/'] + (b + ['/'] + c);
  }

  lemma {:induction false} DigitsHaveNoSlash(s: string)
    requires AllDigits(s)
    ensures '/' !in s
  {
  }

  lemma {:induction false} ParseEmpty()
    ensures ParseInt("") == None
  {
    assert TrimStart("") == "";
  }

  /**
   * A text that does not hold exactly two '/' splits into a number of parts
   * other than three, so it is never a valid birthday.
   */
  lemma {:induction false} FewPartsInvalid(s: string, today: Date)
    requires multiset(s)['/'] != 2
    ensures !IsValid(s, today)
  {
    SplitCount(s, '/');
  }

  /** One or two '/'-free digit runs have fewer than two separators and are invalid. */
  lemma {:induction false} DigitRunsInvalid(a: string, b: string, today: Date)
    requires AllDigits(a) && AllDigits(b)
    ensures !IsValid(a, today) && !IsValid(a + "/" + b, today)
  {
    DigitsHaveNoSlash(a);
    DigitsHaveNoSlash(b);
    assert multiset(a + "/" + b) == multiset(a) + multiset("/") + multiset(b);
    FewPartsInvalid(a, today);
    FewPartsInvalid(a + "/" + b, today);
  }

  /** With fewer than four year digits the year is below 1900 or missing. */
  lemma {:induction false} ShortYearInvalid(a: string, b: string, y: string, today: Date)
    requires AllDigits(a) && AllDigits(b) && AllDigits(y) && |y| < 4
    ensures !IsValid(a + "/" + b + "/" + y, today)
  {
    DigitsHaveNoSlash(a);
    DigitsHaveNoSlash(b);
    DigitsHaveNoSlash(y);
    SplitThree(a, b, y);
    if y == [] {
      ParseEmpty();
    } else {
      ParseDigits(y);
      Pow10Monotone(|y|, 3);
      assert Pow10(3) == 1000;
    }
  }

  /** Fewer than eight digits never make a valid date. */
  lemma {:induction false} ShortFormatInvalid(value: string, today: Date)
    requires |Digits(value)| < 8
    ensures !IsValid(Format(value), today)
  {
    var d := Digits(value);
    if value == "" {
      DigitRunsInvalid("", "", today);
    } else if |d| < 2 {
      DigitRunsInvalid(d, "", today);
    } else if |d| < 4 {
      DigitRunsInvalid(d[..2], d[2..], today);
    } else {
      var y := d[4..Min(|d|, 8)];
      assert Format(value) == d[..2] + "/" + d[2..4] + "/" + y;
      ShortYearInvalid(d[..2], d[2..4], y, today);
    }
  }

  /** A formatted text that passes the check carries all eight digits: the full MM/DD/YYYY. */
  lemma {:induction false} ValidFormattedIsComplete(value: string, today: Date)
    requires IsValid(Format(value), today)
    ensures |Digits(value)| >= 8 && |Format(value)| == 10
  {
    if |Digits(value)| < 8 {
      ShortFormatInvalid(value, today);
    }
  }

  lemma {:induction false} Pow10Monotone(i: nat, j: nat)
    requires i <= j
    ensures Pow10(i) <= Pow10(j)
    decreases j
  {
    if i < j {
      Pow10Monotone(i, j - 1);
    }
  }

  /** A half-typed date such as "12/31/" is stored by the field and rejected by the check. */
  lemma {:induction false} PartialDateRejected(today: Date)
    ensures Format("1231") == "12/31/"
    ensures !IsValid("12/31/", today)
  {
    var s := "1231";
    assert s[0] == '1' && s[1] == '2' && s[2] == '3' && s[3] == '1';
    DigitsOfDigits(s);
    assert s[..2] == "12" && s[2..4] == "31" && s[4..4] == "";
    assert Format(s) == "12" + "/" + "31" + "/" + "";
    ShortYearInvalid("12", "31", "", today);
  }

  /** The day is not checked against the month: 31 February 2000 passes. */
  lemma {:induction false} DayNotCheckedAgainstMonth()
    ensures IsValid("02/31/2000", Date(2026, 10, 19))
  {
    SplitThree("02", "31", "2000");
    assert "02/31/2000" == "02" + "/" + "31" + "/" + "2000";
    ParseTwoDigits();
    ParseYear2000();
    assert ValidParts(Some(2), Some(31), Some(2000), Date(2026, 10, 19));
  }

  lemma {:induction false} ParseTwoDigits()
    ensures ParseInt("02") == Some(2) && ParseInt("31") == Some(31)
  {
    Value02();
    Value31();
    ParseDigits("02");
    ParseDigits("31");
  }

  lemma {:induction false} Value02()
    ensures AllDigits("02") && DigitsValue("02") == 2
  {
    assert "02"[0] == '0' && "02"[1] == '2' && "02"[..1] == "0" && "0"[..0] == "";
    assert DigitsValue("0") == 0;
  }

  lemma {:induction false} Value31()
    ensures AllDigits("31") && DigitsValue("31") == 31
  {
    assert "31"[0] == '3' && "31"[1] == '1' && "31"[..1] == "3" && "3"[..0] == "";
    assert DigitsValue("3") == 3;
  }

  lemma {:induction false} ParseYear2000()
    ensures ParseInt("2000") == Some(2000)
  {
    Value2000();
    ParseDigits("2000");
  }

  lemma {:induction false} Value2000()
    ensures AllDigits("2000") && DigitsValue("2000") == 2000
  {
    var s := "2000";
    assert s[0] == '2' && s[1] == '0' && s[2] == '0' && s[3] == '0';
    assert s[..3] == "200" && "200"[..2] == "20" && "20"[..1] == "2" && "2"[..0] == "";
    assert DigitsValue("2") == 2;
    assert DigitsValue("20") == 20;
    assert DigitsValue("200") == 200;
  }

  /** The birthday screen: its text field state `birthday`. */
  class BirthdayInputScreen {
    var birthday: string

    constructor ()
      ensures birthday == ""
    {
      birthday := "";
    }

    /** `handleBirthdayChange`: the length guard never rejects, so the field always takes the formatted text. */
    method HandleBirthdayChange(text: string)
      modifies this
      ensures birthday == Format(text)
    {
      var formatted := Format(text);
      if |formatted| <= 10 {
        birthday := formatted;
      }
    }

    /** The "next" button: disabled unless the stored text passes `isValidBirthday`. */
    method PressNext(today: Date) returns (next: Option<string>)
      ensures next.Some? <==> IsValid(birthday, today)
      ensures next.Some? ==> next.value == birthday
    {
      if IsValid(birthday, today) {
        next := Some(birthday);
      } else {
        next := None;
      }
    }

    /** Return key (`onSubmitEditing`): `handleSubmit` forwards the text without validating it. */
    method SubmitEditing() returns (next: string)
      ensures next == birthday
    {
      next := birthday;
    }
  }
}
