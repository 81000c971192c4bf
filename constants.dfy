/**
 * The payday estimator (sassaalert/constants.ts): from today's day of month,
 * month index and year it produces four estimated paydays, all in one target
 * month, for four fixed grant categories.
 */
module Constants {
  import opened Wrappers
  import opened Types
  import opened Text

  /** Name of the storage slot that holds the subscriber list (`MockDatabase.UserStore.slot`). */
  const MockDbKey: string := "sassa_users_db"

  /** Long English month names, indexed like JavaScript month indices (0 is January). */
  const MonthNames: seq<string> := [
    "January", "February", "March", "April", "May", "June",
    "July", "August", "September", "October", "November", "December"]

  /** The fields `getDate()`, `getMonth()` and `getFullYear()` of the current date. */
  datatype Today = Today(day: int, month: int, year: int)

  /**
   * Month carry of a JavaScript Date built from `year` and `month`: a month
   * index outside 0..11 moves whole years into the year, leaving the month
   * index in 0..11. Only that month index is used. The Date constructor's
   * own mapping of years 0..99 to 1900..1999 is not modelled here.
   */
  function NormalizeMonth(year: int, month: int): (ym: (int, int))
    ensures 0 <= ym.1 < 12
    ensures 12 * ym.0 + ym.1 == 12 * year + month
  {
    (year + month / 12, month % 12)
  }

  /** The long month name of `new Date(year, month, 1)`. */
  function LongMonthName(year: int, month: int): (name: string)
    ensures name in MonthNames
    ensures 0 <= month < 12 ==> name == MonthNames[month]
    ensures month == 12 ==> name == "January"
  {
    var k := NormalizeMonth(year, month).1;
    assert MonthNames[k] in MonthNames;
    assert 0 <= month < 12 ==> k == month;
    assert month == 12 ==> k == 0;
    MonthNames[k]
  }

  /** Past the 5th the estimate moves to the following month index (which may be 12). */
  function TargetMonth(t: Today): int
  {
    if t.day > 5 then t.month + 1 else t.month
  }

  /** The year moves on only when the following month is taken from December. */
  function TargetYear(t: Today): int
  {
    if t.day > 5 && t.month == 11 then t.year + 1 else t.year
  }

  /** The display date `<month name> <day>, <year>`. */
  function FormatDate(monthName: string, day: nat, year: int): string
  {
    monthName + " " + DayAndYearText(day, year)
  }

  /** The `<day>, <year>` part of a display date. */
  function DayAndYearText(day: nat, year: int): string
  {
    NatToString(day) + ", " + IntToString(year)
  }

  /** The estimated paydays for the current date. */
  function GetNextPayDates(t: Today): (dates: seq<PaydayDate>)
    ensures |dates| == 4
    ensures dates[0].grantType == OldAge && dates[1].grantType == Disability
    ensures dates[2].grantType == ChildSupport && dates[3].grantType == Srd
    ensures forall d <- dates :: d.estimated && d.grantType != FosterChild
    ensures forall i, j :: 0 <= i < j < |dates| ==> dates[i].grantType != dates[j].grantType
  {
    var targetYear := TargetYear(t);
    var monthName := LongMonthName(targetYear, TargetMonth(t));
    [
      PaydayDate(OldAge, FormatDate(monthName, 2, targetYear), true),
      PaydayDate(Disability, FormatDate(monthName, 3, targetYear), true),
      PaydayDate(ChildSupport, FormatDate(monthName, 4, targetYear), true),
      PaydayDate(Srd, FormatDate(monthName, 25, targetYear), true)
    ]
  }

  // ---------------------------------------------------------------------
  // Reading a display date back, and what the dates mean on the calendar.
  // ---------------------------------------------------------------------

  /** The parts a display date is built from. */
  datatype DateParts = DateParts(monthName: string, day: nat, year: int)

  /** Splits `<month name> <day>, <year>` into its parts, if it has that shape. */
  function ParseDisplayDate(s: string): Option<DateParts>
  {
    var space := IndexOf(s, ' ');
    if space == |s| then None
    else
      match ParseDayAndYear(s[space + 1..])
      case None => None
      case Some((day, year)) => Some(DateParts(s[..space], day, year))
  }

  /** Splits `<day>, <year>` into its two numbers, if it has that shape. */
  function ParseDayAndYear(s: string): Option<(nat, int)>
  {
    var comma := IndexOf(s, ',');
    if comma == 0 || comma == |s| || !AllDigits(s[..comma]) then None
    else
      var tail := s[comma + 1..];
      if |tail| == 0 || tail[0] != ' ' then None
      else
        match ParseInt(tail[1..])
        case None => None
        case Some(year) => Some((ParseNat(s[..comma]), year))
  }

  /** `<digits>, <year text>` splits at the comma into the number and the year. */
  lemma DayAndYearSplit(d: string, y: string, year: int)
    requires |d| >= 1 && AllDigits(d) && ParseInt(y) == Some(year)
    ensures ParseDayAndYear(d + ", " + y) == Some((ParseNat(d), year))
  {
    var s := d + ", " + y;
    CommaSplit(d, y);
    var tail := s[|d| + 1..];
    assert tail[1..] == y;
  }

  /** In `<digits>, <rest>` the first comma ends the digits. */
  lemma CommaSplit(d: string, y: string)
    requires AllDigits(d)
    ensures IndexOf(d + ", " + y, ',') == |d|
    ensures (d + ", " + y)[..|d|] == d
    ensures (d + ", " + y)[|d| + 1..] == " " + y
  {
    assert ',' !in d by {
      forall i | 0 <= i < |d| ensures d[i] != ',' {
        assert IsDigit(d[i]);
      }
    }
    assert d + ", " + y == d + [','] + (" " + y);
    IndexOfAfter(d, ',', " " + y);
  }

  lemma DayAndYearRoundTrip(day: nat, year: int)
    ensures ParseDayAndYear(DayAndYearText(day, year)) == Some((day, year))
  {
    ParseIntToString(year);
    DayAndYearSplit(NatToString(day), IntToString(year), year);
    ParseNatToString(day);
  }

  lemma FormatDateRoundTrip(monthName: string, day: nat, year: int)
    requires ' ' !in monthName
    ensures ParseDisplayDate(FormatDate(monthName, day, year)) == Some(DateParts(monthName, day, year))
  {
    var rest := DayAndYearText(day, year);
    var s := FormatDate(monthName, day, year);
    IndexOfAfter(monthName, ' ', rest);
    assert s[..|monthName|] == monthName;
    assert s[|monthName| + 1..] == rest;
    DayAndYearRoundTrip(day, year);
  }

  lemma MonthNamesHaveNoSpace()
    ensures forall k :: 0 <= k < |MonthNames| ==> ' ' !in MonthNames[k]
  {
  }

  /** The fixed day of each estimate, in result order. */
  const PayDays: seq<nat> := [2, 3, 4, 25]

  /** Every estimate reads back as the target month name, its fixed day and the target year. */
  lemma EstimateDate(t: Today, i: nat)
    requires i < 4
    ensures ParseDisplayDate(GetNextPayDates(t)[i].date)
         == Some(DateParts(LongMonthName(TargetYear(t), TargetMonth(t)), PayDays[i], TargetYear(t)))
  {
    MonthNamesHaveNoSpace();
    FormatDateRoundTrip(LongMonthName(TargetYear(t), TargetMonth(t)), PayDays[i], TargetYear(t));
  }

  /** All four estimates fall in the same month of the same year. */
  lemma EstimatesShareMonthAndYear(t: Today, i: nat, j: nat)
    requires i < 4 && j < 4
    ensures ParseDisplayDate(GetNextPayDates(t)[i].date).Some?
    ensures ParseDisplayDate(GetNextPayDates(t)[j].date).Some?
    ensures ParseDisplayDate(GetNextPayDates(t)[i].date).value.monthName
         == ParseDisplayDate(GetNextPayDates(t)[j].date).value.monthName
    ensures ParseDisplayDate(GetNextPayDates(t)[i].date).value.year
         == ParseDisplayDate(GetNextPayDates(t)[j].date).value.year
  {
    EstimateDate(t, i);
    EstimateDate(t, j);
  }

  /** The year only ever moves on from December, and then by one. */
  lemma TargetYearRollsOverOnlyFromDecember(t: Today, i: nat)
    requires i < 4
    ensures ParseDisplayDate(GetNextPayDates(t)[i].date).Some?
    ensures ParseDisplayDate(GetNextPayDates(t)[i].date).value.year == t.year + 1
        <==> t.day > 5 && t.month == 11
    ensures ParseDisplayDate(GetNextPayDates(t)[i].date).value.year != t.year + 1
        ==> ParseDisplayDate(GetNextPayDates(t)[i].date).value.year == t.year
  {
    EstimateDate(t, i);
  }

  /** The month that follows (year, month) on the calendar. */
  function NextCalendarMonth(year: int, month: int): (ym: (int, int))
    requires 0 <= month < 12
    ensures 0 <= ym.1 < 12
    ensures 12 * ym.0 + ym.1 == 12 * year + month + 1
  {
    if month == 11 then (year + 1, 0) else (year, month + 1)
  }

  /** Up to the 5th, the estimates are for the current month of the current year. */
  lemma EarlyInMonthShowsCurrentMonth(t: Today, i: nat)
    requires 0 <= t.month < 12 && t.day <= 5 && i < 4
    ensures ParseDisplayDate(GetNextPayDates(t)[i].date)
         == Some(DateParts(MonthNames[t.month], PayDays[i], t.year))
  {
    EstimateDate(t, i);
  }

  /** After the 5th, the estimates are for the next calendar month, December moving on to January. */
  lemma LateInMonthShowsNextMonth(t: Today, i: nat)
    requires 0 <= t.month < 12 && t.day > 5 && i < 4
    ensures ParseDisplayDate(GetNextPayDates(t)[i].date)
         == Some(DateParts(MonthNames[NextCalendarMonth(t.year, t.month).1], PayDays[i],
                           NextCalendarMonth(t.year, t.month).0))
  {
    EstimateDate(t, i);
    var next := NextCalendarMonth(t.year, t.month);
    assert TargetYear(t) == next.0;
    if t.month == 11 {
      assert LongMonthName(TargetYear(t), 12) == MonthNames[0];
    } else {
      assert LongMonthName(TargetYear(t), t.month + 1) == MonthNames[next.1];
    }
  }

  /** The four dates spelled out from the target month's name and the target year's text. */
  lemma DatesSpelledOut(t: Today, monthName: string, yearText: string)
    requires LongMonthName(TargetYear(t), TargetMonth(t)) == monthName
    requires IntToString(TargetYear(t)) == yearText
    ensures GetNextPayDates(t) == [
      PaydayDate(OldAge, monthName + " 2, " + yearText, true),
      PaydayDate(Disability, monthName + " 3, " + yearText, true),
      PaydayDate(ChildSupport, monthName + " 4, " + yearText, true),
      PaydayDate(Srd, monthName + " 25, " + yearText, true)]
  {
    var year := TargetYear(t);
    assert FormatDate(monthName, 2, year) == monthName + " 2, " + yearText by {
      assert NatToString(2) == "2";
    }
    assert FormatDate(monthName, 3, year) == monthName + " 3, " + yearText by {
      assert NatToString(3) == "3";
    }
    assert FormatDate(monthName, 4, year) == monthName + " 4, " + yearText by {
      assert NatToString(4) == "4";
    }
    assert FormatDate(monthName, 25, year) == monthName + " 25, " + yearText;
  }

  /** On 10 March 2024 the estimates are the April paydays of 2024. */
  lemma MarchTenthExample(t: Today)
    requires t == Today(10, 2, 2024)
    ensures GetNextPayDates(t) == [
      PaydayDate(OldAge, "April 2, 2024", true),
      PaydayDate(Disability, "April 3, 2024", true),
      PaydayDate(ChildSupport, "April 4, 2024", true),
      PaydayDate(Srd, "April 25, 2024", true)]
  {
    YearText(2024, "2024");
    DatesSpelledOut(t, "April", "2024");
    AprilTwentyTwentyFourTexts();
  }

  /** On 10 December 2024 the estimates are the January paydays of 2025. */
  lemma DecemberTenthExample(t: Today)
    requires t == Today(10, 11, 2024)
    ensures GetNextPayDates(t) == [
      PaydayDate(OldAge, "January 2, 2025", true),
      PaydayDate(Disability, "January 3, 2025", true),
      PaydayDate(ChildSupport, "January 4, 2025", true),
      PaydayDate(Srd, "January 25, 2025", true)]
  {
    YearText(2025, "2025");
    DatesSpelledOut(t, "January", "2025");
    JanuaryTwentyTwentyFiveTexts();
  }

  /** On 5 December 2024 the estimates stay in December 2024. */
  lemma DecemberFifthExample(t: Today)
    requires t == Today(5, 11, 2024)
    ensures GetNextPayDates(t) == [
      PaydayDate(OldAge, "December 2, 2024", true),
      PaydayDate(Disability, "December 3, 2024", true),
      PaydayDate(ChildSupport, "December 4, 2024", true),
      PaydayDate(Srd, "December 25, 2024", true)]
  {
    YearText(2024, "2024");
    DatesSpelledOut(t, "December", "2024");
    DecemberTwentyTwentyFourTexts();
  }

  /** The text of a year 2020..2029. */
  lemma YearText(year: nat, text: string)
    requires 2020 <= year < 2030 && text == "202" + [DigitChar(year - 2020)]
    ensures IntToString(year) == text
  {
  }

  /** The four April 2024 display texts, each in one piece; a lemma of its own keeps the example's proof small. */
  lemma AprilTwentyTwentyFourTexts()
    ensures "April" + " 2, " + "2024" == "April 2, 2024"
    ensures "April" + " 3, " + "2024" == "April 3, 2024"
    ensures "April" + " 4, " + "2024" == "April 4, 2024"
    ensures "April" + " 25, " + "2024" == "April 25, 2024"
  {
  }

  /** The four January 2025 display texts, each in one piece; a lemma of its own keeps the example's proof small. */
  lemma JanuaryTwentyTwentyFiveTexts()
    ensures "January" + " 2, " + "2025" == "January 2, 2025"
    ensures "January" + " 3, " + "2025" == "January 3, 2025"
    ensures "January" + " 4, " + "2025" == "January 4, 2025"
    ensures "January" + " 25, " + "2025" == "January 25, 2025"
  {
  }

  /** The four December 2024 display texts, each in one piece; a lemma of its own keeps the example's proof small. */
  lemma DecemberTwentyTwentyFourTexts()
    ensures "December" + " 2, " + "2024" == "December 2, 2024"
    ensures "December" + " 3, " + "2024" == "December 3, 2024"
    ensures "December" + " 4, " + "2024" == "December 4, 2024"
    ensures "December" + " 25, " + "2024" == "December 25, 2024"
  {
  }
}
