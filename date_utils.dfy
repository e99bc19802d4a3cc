/**
 * `formatRelativeDate` and `getDaysUntil` of `src/utils/dateUtils.js`, on whole
 * day numbers: a date is the number of its day, so `differenceInDays` is a
 * subtraction, and "today" is a parameter instead of a clock reading.
 */
module DateUtils {
  import opened Wrappers

  /**
   * The labels `formatRelativeDate` produces, with the number each interpolates:
   * '' , 'Hoje', 'Ontem', '<n> dias atrás', '<n> semanas atrás', '<n> meses atrás'
   * and '<n> anos atrás'.
   */
  datatype Label = Blank | Today | Yesterday | DaysAgo(n: int) | WeeksAgo(n: int) | MonthsAgo(n: int) | YearsAgo(n: int)

  /**
   * The if-chain on the day difference. Every difference below 7 other than 0
   * and 1 reads as days ago, a future date's negative one included; weeks run
   * from 1 to 4, months from 1 to 12, years from 1 up.
   */
  function Relative(days: int): (l: Label)
    ensures l != Blank
    ensures l == Today <==> days == 0
    ensures l == Yesterday <==> days == 1
    ensures l.DaysAgo? <==> days < 7 && days != 0 && days != 1
    ensures l.DaysAgo? ==> l.n == days
    ensures l.WeeksAgo? <==> 7 <= days < 30
    ensures l.WeeksAgo? ==> l.n == days / 7 && 1 <= l.n <= 4
    ensures l.MonthsAgo? <==> 30 <= days < 365
    ensures l.MonthsAgo? ==> l.n == days / 30 && 1 <= l.n <= 12
    ensures l.YearsAgo? <==> days >= 365
    ensures l.YearsAgo? ==> l.n == days / 365 && l.n >= 1
  {
    if days == 0 then Today
    else if days == 1 then Yesterday
    else if days < 7 then DaysAgo(days)
    else if days < 30 then WeeksAgo(days / 7)
    else if days < 365 then MonthsAgo(days / 30)
    else YearsAgo(days / 365)
  }

  /** `formatRelativeDate(date)`: '' for a falsy date, otherwise the label of `today - date`. */
  function FormatRelativeDate(date: Option<int>, today: int): (l: Label)
    ensures l == Blank <==> date.None?
    ensures date.Some? ==> l == Relative(today - date.value)
  {
    match date
    case None => Blank
    case Some(d) => Relative(today - d)
  }

  /** `getDaysUntil(date)`: 0 for a falsy date, otherwise the days from today to it. */
  function GetDaysUntil(date: Option<int>, today: int): (n: int)
    ensures date.None? ==> n == 0
    ensures date.Some? ==> date.value == today + n
  {
    match date
    case None => 0
    case Some(d) => d - today
  }

  /**
   * The two functions agree on a date still to come: `getDaysUntil` counts the
   * days to it and `formatRelativeDate` shows that many days with a minus sign.
   */
  lemma {:induction false} FutureDateReadsNegated(date: Option<int>, today: int)
    requires date.Some? && date.value > today
    ensures GetDaysUntil(date, today) > 0
    ensures FormatRelativeDate(date, today) == DaysAgo(-GetDaysUntil(date, today))
  {
    assert today - date.value < 0;
  }

  /** The number of days a label stands for, counting a week as 7, a month as 30 and a year as 365. */
  function Magnitude(l: Label): int
  {
    match l
    case Blank => 0
    case Today => 0
    case Yesterday => 1
    case DaysAgo(n) => n
    case WeeksAgo(n) => 7 * n
    case MonthsAgo(n) => 30 * n
    case YearsAgo(n) => 365 * n
  }

  /** The label never overstates the elapsed days, and understates them by less than its unit. */
  lemma {:induction false} MagnitudeWithinUnit(days: int)
    ensures Magnitude(Relative(days)) <= days
    ensures days >= 365 ==> days - Magnitude(Relative(days)) < 365
    ensures 30 <= days < 365 ==> days - Magnitude(Relative(days)) < 30
    ensures 7 <= days < 30 ==> days - Magnitude(Relative(days)) < 7
    ensures days < 7 ==> Magnitude(Relative(days)) == days
  {
    if days >= 365 {
      assert 365 * (days / 365) <= days < 365 * (days / 365) + 365;
    } else if days >= 30 {
      assert 30 * (days / 30) <= days < 30 * (days / 30) + 30;
    } else if days >= 7 {
      assert 7 * (days / 7) <= days < 7 * (days / 7) + 7;
    }
  }
}
