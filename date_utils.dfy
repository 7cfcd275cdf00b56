/**
 * The web front end's date helpers: an absolute `yyyy-mm-dd` rendering of a
 * calendar date and a relative phrase ("today", "3 days ago", "2 weeks ago",
 * "long time ago") chosen from the number of whole days between that date
 * and today.
 */
module DateUtils {

  import opened Wrappers
  import opened Text

  /** `Date.getMonth()`: January is 0. */
  type Month = m: int | 0 <= m < 12
  /** `Date.getDate()`. */
  type Day = d: int | 1 <= d <= 31 witness 1

  datatype CalendarDate = CalendarDate(year: int, month: Month, day: Day)

  /**
   * `formatDate`: the year as written by `String`, then the 1-based month
   * and the day, each padded to two digits.
   */
  function FormatDate(date: CalendarDate): (s: string)
    ensures |s| >= 7 && s[|s| - 6] == '-' && s[|s| - 3] == '-'
    ensures s[..|s| - 6] == IntToString(date.year)
    ensures s[|s| - 5..|s| - 3] == TwoDigits(date.month + 1)
    ensures s[|s| - 2..] == TwoDigits(date.day)
  {
    var y := IntToString(date.year);
    var m := TwoDigits(date.month + 1);
    var d := TwoDigits(date.day);
    TwoDigitsValue(date.month + 1);
    TwoDigitsValue(date.day);
    DatePartsSplit(y, m, d);
    y + "-" + m + "-" + d
  }

  lemma DatePartsSplit(y: string, m: string, d: string)
    requires |m| == 2 && |d| == 2
    ensures var s := y + "-" + m + "-" + d;
      |s| == |y| + 6 && s[|s| - 6] == '-' && s[|s| - 3] == '-' &&
      s[..|s| - 6] == y && s[|s| - 5..|s| - 3] == m && s[|s| - 2..] == d
  {
  }

  /** Reads a `yyyy-mm-dd` string back into a calendar date. */
  function ParseDate(s: string): Option<CalendarDate> {
    if |s| < 7 || s[|s| - 6] != '-' || s[|s| - 3] != '-' then None
    else ParseDateParts(s[..|s| - 6], s[|s| - 5..|s| - 3], s[|s| - 2..])
  }

  function ParseDateParts(ys: string, ms: string, ds: string): Option<CalendarDate> {
    if !AllDigits(ms) || !AllDigits(ds) then None
    else
      var y, m, d := ParseInt(ys), ParseDigits(ms), ParseDigits(ds);
      if y.Some? && 1 <= m <= 12 && 1 <= d <= 31 then Some(CalendarDate(y.value, m - 1, d)) else None
  }

  /** The rendering loses nothing: year, month and day can be read back. */
  lemma ParseFormatDate(date: CalendarDate)
    ensures ParseDate(FormatDate(date)) == Some(date)
  {
    FormatDateSplit(date);
    ParseDateOfParts(date);
  }

  lemma FormatDateSplit(date: CalendarDate)
    ensures ParseDate(FormatDate(date))
         == ParseDateParts(IntToString(date.year), TwoDigits(date.month + 1), TwoDigits(date.day))
  {
  }

  lemma ParseDateOfParts(date: CalendarDate)
    ensures ParseDateParts(IntToString(date.year), TwoDigits(date.month + 1), TwoDigits(date.day)) == Some(date)
  {
    var y, m, d := IntToString(date.year), TwoDigits(date.month + 1), TwoDigits(date.day);
    ParseIntToString(date.year);
    TwoDigitsValue(date.month + 1);
    TwoDigitsValue(date.day);
    ParseDatePartsOf(y, m, d, date);
  }

  lemma ParseDatePartsOf(ys: string, ms: string, ds: string, date: CalendarDate)
    requires ParseInt(ys) == Some(date.year)
    requires AllDigits(ms) && ParseDigits(ms) == date.month + 1
    requires AllDigits(ds) && ParseDigits(ds) == date.day
    ensures ParseDateParts(ys, ms, ds) == Some(date)
  {
  }

  /** Distinct dates are rendered differently. */
  lemma FormatDateInjective(a: CalendarDate, b: CalendarDate)
    requires FormatDate(a) == FormatDate(b)
    ensures a == b
  {
    ParseFormatDate(a);
    ParseFormatDate(b);
  }

  /**
   * `getRelativeDate` once the day difference is known, branch by branch:
   * the chain says exactly what the classification into a unit says.
   */
  function RelativeDate(diffDays: int): (r: string)
    ensures r == Phrase(Classify(diffDays))
  {
    if diffDays == 0 then "today"
    else if diffDays == 1 then "1 day ago"
    else if diffDays < 7 then IntToString(diffDays) + " days ago"
    else if diffDays < 14 then "1 week ago"
    else if diffDays < 30 then IntToString(diffDays / 7) + " weeks ago"
    else if diffDays < 60 then "1 month ago"
    else if diffDays < 365 then IntToString(diffDays / 30) + " months ago"
    else "long time ago"
  }

  /** What a relative phrase says: how long ago, in which unit. */
  datatype Elapsed = Today | DaysAgo(days: int) | WeeksAgo(weeks: nat) | MonthsAgo(months: nat) | LongAgo

  /** The unit is the largest that fits, counting whole weeks and 30-day months. */
  function Classify(diffDays: int): (e: Elapsed)
    ensures e.Today? <==> diffDays == 0
    ensures e.DaysAgo? <==> diffDays != 0 && diffDays < 7
    ensures e.DaysAgo? ==> e.days == diffDays
    ensures e.WeeksAgo? <==> 7 <= diffDays < 30
    ensures e.WeeksAgo? ==> 1 <= e.weeks <= 4 && 7 * e.weeks <= diffDays < 7 * e.weeks + 7
    ensures e.MonthsAgo? <==> 30 <= diffDays < 365
    ensures e.MonthsAgo? ==> 1 <= e.months <= 12 && 30 * e.months <= diffDays < 30 * e.months + 30
    ensures e.LongAgo? <==> 365 <= diffDays
  {
    if diffDays == 0 then Today
    else if diffDays < 7 then DaysAgo(diffDays)
    else if diffDays < 30 then WeeksAgo(diffDays / 7)
    else if diffDays < 365 then MonthsAgo(diffDays / 30)
    else LongAgo
  }

  /** English wording, singular for a count of one. */
  function Phrase(e: Elapsed): string {
    match e
    case Today => "today"
    case DaysAgo(n) => if n == 1 then "1 day ago" else IntToString(n) + " days ago"
    case WeeksAgo(n) => if n == 1 then "1 week ago" else IntToString(n) + " weeks ago"
    case MonthsAgo(n) => if n == 1 then "1 month ago" else IntToString(n) + " months ago"
    case LongAgo => "long time ago"
  }

  /** A date in the future is still phrased in the past tense, with a negative count. */
  lemma FutureDateReadsAsDaysAgo(diffDays: int)
    requires diffDays < 0
    ensures RelativeDate(diffDays) == "-" + NatToString(-diffDays) + " days ago"
  {
  }

  predicate EndsWith(s: string, suffix: string) {
    |s| >= |suffix| && s[|s| - |suffix|..] == suffix
  }

  /** Reads a phrase back into what it says. */
  function ParsePhrase(s: string): Option<Elapsed> {
    if s == "today" then Some(Today)
    else if s == "long time ago" then Some(LongAgo)
    else if s == "1 day ago" then Some(DaysAgo(1))
    else if s == "1 week ago" then Some(WeeksAgo(1))
    else if s == "1 month ago" then Some(MonthsAgo(1))
    else if EndsWith(s, " days ago") then
      match ParseInt(s[..|s| - 9])
      case Some(n) => Some(DaysAgo(n))
      case None => None
    else if EndsWith(s, " weeks ago") then
      match ParseInt(s[..|s| - 10])
      case Some(n) => if n >= 0 then Some(WeeksAgo(n)) else None
      case None => None
    else if EndsWith(s, " months ago") then
      match ParseInt(s[..|s| - 11])
      case Some(n) => if n >= 0 then Some(MonthsAgo(n)) else None
      case None => None
    else None
  }

  /** A phrase can be read back into the elapsed time it was made from. */
  lemma ParsePhraseOfPhrase(e: Elapsed)
    ensures ParsePhrase(Phrase(e)) == Some(e)
  {
    match e
    case Today =>
    case LongAgo =>
    case DaysAgo(n) =>
      if n != 1 { DaysPhraseParses(n); }
    case WeeksAgo(n) =>
      if n != 1 { WeeksPhraseParses(n); }
    case MonthsAgo(n) =>
      if n != 1 { MonthsPhraseParses(n); }
  }

  lemma DaysPhraseParses(n: int)
    requires n != 1
    ensures ParsePhrase(IntToString(n) + " days ago") == Some(DaysAgo(n))
  {
    var k := IntToString(n);
    var s := k + " days ago";
    ParseIntToString(n);
    assert EndsWith(s, " days ago") && s[..|s| - 9] == k;
    assert s[|s| - 8] == 'd';
    assert s != "long time ago" by {
      if |s| == 13 { assert "long time ago"[5] == 't'; }
    }
    assert s != "1 day ago" && s != "1 week ago" && s != "1 month ago" by {
      if |s| == 10 { assert "1 week ago"[2] == 'w'; }
      if |s| == 11 { assert "1 month ago"[3] == 'o'; }
    }
  }

  lemma WeeksPhraseParses(n: nat)
    requires n != 1
    ensures ParsePhrase(IntToString(n) + " weeks ago") == Some(WeeksAgo(n))
  {
    var k := IntToString(n);
    var s := k + " weeks ago";
    ParseIntToString(n);
    assert EndsWith(s, " weeks ago") && s[..|s| - 10] == k;
    assert s[|s| - 9] == 'w';
    assert !EndsWith(s, " days ago");
    assert s != "long time ago" by {
      if |s| == 13 { assert "long time ago"[4] == ' '; }
    }
    assert s != "1 day ago" && s != "1 week ago" && s != "1 month ago" by {
      if |s| == 11 { assert k[0] != '1' || |k| != 1; }
    }
  }

  lemma MonthsPhraseParses(n: nat)
    requires n != 1
    ensures ParsePhrase(IntToString(n) + " months ago") == Some(MonthsAgo(n))
  {
    var k := IntToString(n);
    var s := k + " months ago";
    ParseIntToString(n);
    assert EndsWith(s, " months ago") && s[..|s| - 11] == k;
    assert s[|s| - 9] == 'o' && s[|s| - 10] == 'm';
    assert !EndsWith(s, " days ago") && !EndsWith(s, " weeks ago");
    assert s != "long time ago" by {
      if |s| == 13 { assert "long time ago"[3] == 'g'; }
    }
    assert s != "1 day ago" && s != "1 week ago" && s != "1 month ago";
  }

  /** Different elapsed times never share a phrase. */
  lemma PhraseInjective(a: Elapsed, b: Elapsed)
    requires Phrase(a) == Phrase(b)
    ensures a == b
  {
    ParsePhraseOfPhrase(a);
    ParsePhraseOfPhrase(b);
  }

  /**
   * Two day differences get the same phrase exactly when they fall in the
   * same bucket: same day count below a week, same whole weeks below 30
   * days, same 30-day months below a year, or both a year or more.
   */
  lemma RelativeDateSame(x: int, y: int)
    ensures RelativeDate(x) == RelativeDate(y) <==> Classify(x) == Classify(y)
  {
    if RelativeDate(x) == RelativeDate(y) {
      PhraseInjective(Classify(x), Classify(y));
    }
  }

  datatype DateDisplay = DateDisplay(absolute: string, relative: string)

  /**
   * `getDateDisplay`: both renderings of one date; `diffDays` is the number
   * of whole days from that date to today.
   */
  function GetDateDisplay(date: CalendarDate, diffDays: int): (r: DateDisplay)
    ensures r.absolute == FormatDate(date)
    ensures ParseDate(r.absolute) == Some(date)
    ensures r.relative == Phrase(Classify(diffDays))
  {
    ParseFormatDate(date);
    DateDisplay(FormatDate(date), RelativeDate(diffDays))
  }
}
