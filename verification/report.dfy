/** The report's date handling in `analyze_stock`: the date string the writer
    chain is given (`strftime('%B %d, %Y')`) and the post-processing that
    replaces the four known "today's date" placeholders with it. */
module Report {
  import opened Strings
  import opened MarketData

  const InsertDate := "[Insert Date]"
  const InsertDateLower := "[insert date]"
  const TodaysDate := "[TODAY'S DATE]"
  const CurrentDate := "[Current Date]"

  /** The placeholders, in the order they are replaced. */
  const Placeholders: seq<string> := [InsertDate, InsertDateLower, TodaysDate, CurrentDate]

  const MonthNames: seq<string> := [
    "January", "February", "March", "April", "May", "June", "July",
    "August", "September", "October", "November", "December"]

  /** `%d`: the day of the month as two digits. */
  function TwoDigits(n: nat): (r: string)
    requires n < 100
    ensures |r| == 2 && IsDigit(r[0]) && IsDigit(r[1])
  {
    [DigitChar(n / 10), DigitChar(n % 10)]
  }

  /** What a replacement date must look like for the post-processing to leave no
      placeholder behind: no brackets, and at least one digit. */
  predicate DateLike(s: string) {
    '[' !in s && ']' !in s && exists i :: 0 <= i < |s| && IsDigit(s[i])
  }

  /** `date.strftime('%B %d, %Y')`, e.g. "March 07, 2025": the month's name and a
      space, then the digits. Every such date is date-like. */
  function LongDate(d: Date): (r: string)
    requires ValidDate(d)
    ensures DateLike(r)
    ensures StartsWith(r, MonthNames[d.month - 1] + " ")
  {
    var month := MonthNames[d.month - 1];
    var day := TwoDigits(d.day);
    var year := DecimalDigits(d.year);
    var r := month + " " + day + ", " + year;
    assert r[|month| + 1] == day[0];
    assert !IsDigit('[') && !IsDigit(']');
    assert '[' !in year && ']' !in year;
    assert '[' !in month && ']' !in month;
    assert r[..|month| + 1] == month + " ";
    r
  }

  predicate NoPlaceholder(s: string) {
    forall p :: p in Placeholders ==> !Occurs(p, s)
  }

  /** A date-like replacement satisfies what `ReplaceAllAvoids` asks of it for
      every placeholder. */
  lemma DateAvoidsPlaceholder(date: string, p: string)
    requires DateLike(date) && p in Placeholders
    ensures |p| > 0 && p[0] !in date && p[|p| - 1] !in date && HasCharOutside(date, p)
  {
    var i :| 0 <= i < |date| && IsDigit(date[i]);
    assert forall j :: 0 <= j < |p| ==> !IsDigit(p[j]);
    assert date[i] !in p;
  }

  /** The four literal replacements of `analyze_stock`, in order. With a
      date-like date none of the four placeholders is left; a report without
      placeholders comes back as it was. */
  function PostProcess(report: string, date: string): (r: string)
    ensures DateLike(date) ==> NoPlaceholder(r)
    ensures NoPlaceholder(report) ==> r == report
  {
    var r1 := ReplaceAll(report, InsertDate, date);
    var r2 := ReplaceAll(r1, InsertDateLower, date);
    var r3 := ReplaceAll(r2, TodaysDate, date);
    var r4 := ReplaceAll(r3, CurrentDate, date);
    assert DateLike(date) ==> NoPlaceholder(r4) by {
      if DateLike(date) {
        DateAvoidsPlaceholder(date, InsertDate);
        DateAvoidsPlaceholder(date, InsertDateLower);
        DateAvoidsPlaceholder(date, TodaysDate);
        DateAvoidsPlaceholder(date, CurrentDate);
        ReplaceAllAvoids(report, InsertDate, date, InsertDate);
        ReplaceAllAvoids(r1, InsertDateLower, date, InsertDate);
        ReplaceAllAvoids(r2, TodaysDate, date, InsertDate);
        ReplaceAllAvoids(r3, CurrentDate, date, InsertDate);
        ReplaceAllAvoids(r1, InsertDateLower, date, InsertDateLower);
        ReplaceAllAvoids(r2, TodaysDate, date, InsertDateLower);
        ReplaceAllAvoids(r3, CurrentDate, date, InsertDateLower);
        ReplaceAllAvoids(r2, TodaysDate, date, TodaysDate);
        ReplaceAllAvoids(r3, CurrentDate, date, TodaysDate);
        ReplaceAllAvoids(r3, CurrentDate, date, CurrentDate);
      }
    }
    r4
  }

  /** A report that still says "[Insert Date]" comes out carrying the date. */
  lemma PostProcessFillsInsertDate(report: string, date: string)
    requires DateLike(date) && Occurs(InsertDate, report)
    ensures Occurs(date, PostProcess(report, date))
  {
    var i :| 0 <= i < |date| && IsDigit(date[i]);
    var r1 := ReplaceAll(report, InsertDate, date);
    var r2 := ReplaceAll(r1, InsertDateLower, date);
    var r3 := ReplaceAll(r2, TodaysDate, date);
    ReplaceAllIntroduces(report, InsertDate, date);
    assert date[i] !in InsertDateLower && date[i] !in TodaysDate && date[i] !in CurrentDate;
    ReplaceAllKeeps(r1, InsertDateLower, date, date);
    ReplaceAllKeeps(r2, TodaysDate, date, date);
    ReplaceAllKeeps(r3, CurrentDate, date, date);
  }
}
