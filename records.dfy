/**
 * A validated transaction row and its period label (`formatDate`).
 *
 * Only the fields the analysis reads are kept: the transaction date as the
 * text of a `YYYYMMDD` number, the community name, the price, the district
 * and the coordinates.
 */
module Records {
  import opened Js

  datatype PeriodType = Month | Quarter

  datatype HouseRecord = HouseRecord(
    date: string,
    community: string,
    price: real,
    district: string,
    lat: real,
    lng: real)

  /** `parseInt(date.slice(4, 6))`. */
  function MonthField(date: string): Option<nat>
  {
    ParseInt(Slice(date, 4, 6))
  }

  /** `Math.ceil(m / 3)` for a non-negative integer month. */
  function QuarterOf(m: nat): nat
  {
    (m + 2) / 3
  }

  /**
   * `formatDate(date, periodType)`: the first four characters as the year,
   * then `-MM` (the parsed month padded to two digits) or `-Qk` with
   * `k = ceil(month / 3)`. A month that does not parse renders as `NaN`.
   */
  function FormatDate(date: string, mode: PeriodType): string
  {
    var year := Slice(date, 0, 4);
    var month := MonthField(date);
    match mode
    case Month => year + "-" + PadStart2(NumberText(month))
    case Quarter =>
      year + "-Q" + NumberText(match month case None => None case Some(m) => Some(QuarterOf(m)))
  }

  /**
   * Whatever the date, the label starts with `date.slice(0, 4)` (the whole
   * date when it is shorter) and a dash, and at least two more characters
   * follow; for a date of four or more characters that prefix is its
   * first four characters.
   */
  lemma FormatDateKeepsYear(date: string, mode: PeriodType)
    ensures var year := Slice(date, 0, 4);
      |year| == (if |date| < 4 then |date| else 4) &&
      |FormatDate(date, mode)| >= |year| + 3 &&
      FormatDate(date, mode)[..|year| + 1] == year + "-"
    ensures |date| >= 4 ==> FormatDate(date, mode)[..5] == date[..4] + "-"
    ensures |date| < 4 ==> FormatDate(date, mode)[..|date| + 1] == date + "-"
  {
  }

  lemma DigitRoundTrip(c: char)
    requires IsDigit(c)
    ensures DigitChar(DigitValue(c)) == c
  {
  }

  /** Two digits parse to a month that `padStart(2, '0')` renders as the same two digits. */
  lemma TwoDigitsRoundTrip(s: string)
    requires |s| == 2 && AllDigits(s)
    ensures DigitsValue(s) == 10 * DigitValue(s[0]) + DigitValue(s[1])
    ensures PadStart2(NatToString(DigitsValue(s))) == s
  {
    assert s[..1][..0] == [];
    assert DigitsValue(s[..1]) == DigitValue(s[0]);
    var v := DigitsValue(s);
    DigitRoundTrip(s[0]);
    DigitRoundTrip(s[1]);
    if DigitValue(s[0]) == 0 {
      assert NatToString(v) == [DigitChar(DigitValue(s[1]))];
      assert s == ['0', s[1]];
    } else {
      assert v / 10 == DigitValue(s[0]) && v % 10 == DigitValue(s[1]);
      assert NatToString(v) == [DigitChar(DigitValue(s[0]))] + [DigitChar(DigitValue(s[1]))];
      assert s == [s[0], s[1]];
    }
  }

  /** For a digit date, the month label is exactly `YYYY-MM` copied from the date. */
  lemma FormatDateMonth(date: string)
    requires |date| >= 6 && AllDigits(date[4..6])
    ensures MonthField(date) == Some(DigitsValue(date[4..6]))
    ensures FormatDate(date, Month) == date[..4] + "-" + date[4..6]
  {
    assert Slice(date, 4, 6) == date[4..6];
    TwoDigitsRoundTrip(date[4..6]);
  }

  /**
   * For a digit date with month `m`, the quarter label is `YYYY-Q` followed
   * by `ceil(m/3)`; months 1..12 give exactly one digit 1..4.
   */
  lemma FormatDateQuarter(date: string)
    requires |date| >= 6 && AllDigits(date[4..6])
    ensures var m := DigitsValue(date[4..6]);
      FormatDate(date, Quarter) == date[..4] + "-Q" + NatToString(QuarterOf(m))
    ensures var m := DigitsValue(date[4..6]);
      1 <= m <= 12 ==>
        1 <= QuarterOf(m) <= 4 &&
        FormatDate(date, Quarter) == date[..4] + "-Q" + [DigitChar(QuarterOf(m))]
  {
    assert Slice(date, 4, 6) == date[4..6];
    assert ParseInt(date[4..6]) == Some(DigitsValue(date[4..6]));
  }

  /** Documented example: a March date gives the month label `2024-03`. */
  lemma MonthLabelExample()
    ensures FormatDate("20240315", Month) == "2024-03"
  {
    hide FormatDate, PadStart2, NumberText, ParseInt, Slice, MonthField, LeadingDigits, DigitsValue;
    var d := "20240315";
    FormatDateMonth(d);
    assert d[..4] == "2024" && d[4..6] == "03";
  }

  /** Documented example: a July date falls in the third quarter. */
  lemma QuarterLabelExample()
    ensures FormatDate("20240715", Quarter) == "2024-Q3"
  {
    hide FormatDate, PadStart2, NumberText, ParseInt, Slice, MonthField, LeadingDigits, DigitsValue;
    var d := "20240715";
    assert d[..4] == "2024" && d[4..6] == "07";
    TwoDigitsRoundTrip(d[4..6]);
    assert DigitsValue(d[4..6]) == 7;
    FormatDateQuarter(d);
    assert QuarterOf(7) == 3 && DigitChar(3) == '3';
  }

  /** No calendar check: month 13 yields the fifth quarter. */
  lemma QuarterOverflowExample()
    ensures FormatDate("20241301", Quarter) == "2024-Q5"
  {
    hide FormatDate, PadStart2, NumberText, ParseInt, Slice, MonthField, LeadingDigits, DigitsValue;
    var d := "20241301";
    assert d[..4] == "2024" && d[4..6] == "13";
    TwoDigitsRoundTrip(d[4..6]);
    assert DigitsValue(d[4..6]) == 13;
    FormatDateQuarter(d);
    assert QuarterOf(13) == 5 && NatToString(5) == [DigitChar(5)] && DigitChar(5) == '5';
  }
}
