/**
 * The goal period and progress engine: parsing a goal's start date, the
 * renewal cycle that contains a reference day, the batched progress query
 * (one `SELECT` per goal, five parameters each, combined with `UNION ALL`
 * and summed per goal id) and the response built for every goal.
 *
 * Dates are day numbers (UTC midnights) and amounts are integer cents.
 */
module GoalsService {
  import opened JsValues
  import opened Calendar
  import opened Ledger

  /** What the engine can throw. */
  datatype GoalError =
    | InvalidStartDate  // Error('Data inicial inválida para a meta.')
    | RangeError        // toISOString of an Invalid Date
    | QueryError        // the database rejects a parameter of the progress query

  function GoalErrorMessage(e: GoalError): string
  {
    match e
    case InvalidStartDate => "Data inicial inválida para a meta."
    case RangeError => "Invalid time value"
    case QueryError => "invalid input syntax for type date"
  }

  /**
   * A goal as `mapGoalRow` returns it. `intervalDays` is `None` when
   * `Number(row.interval_days)` is NaN.
   */
  datatype Goal = Goal(
    id: int,
    walletId: int,
    name: string,
    kind: TxType,
    targetAmount: int,
    startDate: string,
    intervalDays: Option<int>,
    createdAt: string,
    updatedAt: string)

  /** The inclusive window `{ start, end }` of one renewal cycle. */
  datatype Period = Period(start: JsDate, end: JsDate)

  /** `n - 1` on a JavaScript number. */
  function MinusOne(n: JsNumber): JsNumber
  {
    match n
    case Finite(r) => Finite(r - 1.0)
    case _ => n
  }

  /**
   * `parseUTCDate(value)`: `None` is `null`. The parts after the third are
   * ignored; a missing part is `undefined`, which is not NaN, so a value with
   * fewer than three parts gives an Invalid Date rather than `null`.
   */
  function ParseUTCDate(js: Engine, value: string): (r: Option<JsDate>)
    ensures r.None? <==>
      var parts := Split(value, '-');
      value == "" ||
      StringToNumber(js, parts[0]).NaN? ||
      (|parts| > 1 && StringToNumber(js, parts[1]).NaN?) ||
      (|parts| > 2 && StringToNumber(js, parts[2]).NaN?)
    ensures r.Some? && |Split(value, '-')| < 3 ==> r == Some(InvalidDate)
  {
    if value == "" then None
    else
      var parts := Split(value, '-');
      var year := StringToNumber(js, parts[0]);
      var month := if |parts| > 1 then Some(StringToNumber(js, parts[1])) else None;
      var day := if |parts| > 2 then Some(StringToNumber(js, parts[2])) else None;
      if year.NaN? || (month.Some? && month.value.NaN?) || (day.Some? && day.value.NaN?) then None
      else if month.None? || day.None? then Some(InvalidDate)
      else Some(DateUtc(year, MinusOne(month.value), day.value))
  }

  /** `addDays(date, amount)`: a shift by whole days, subject to TimeClip. */
  function AddDays(date: JsDate, amount: int): JsDate
  {
    match date
    case InvalidDate => InvalidDate
    case ValidDate(d) => TimeClip(d + amount)
  }

  /** Two shifts make one, as long as the intermediate date is valid. */
  lemma AddDaysTwice(date: JsDate, a: int, b: int)
    requires AddDays(date, a).ValidDate?
    ensures AddDays(AddDays(date, a), b) == AddDays(date, a + b)
  {
  }

  /** `formatDate(date)`: the date part of `toISOString`, which throws on an Invalid Date. */
  function FormatDate(date: JsDate): (r: Result<string, GoalError>)
    ensures r.Err? <==> date.InvalidDate?
    ensures r.Err? ==> r.error == RangeError
    ensures r.Ok? ==> r.value == IsoDateString(date.day)
  {
    match date
    case InvalidDate => Err(RangeError)
    case ValidDate(d) => Ok(IsoDateString(d))
  }

  /** `Math.max(Number(intervalDays) || 1, 1)` on an integer interval. */
  function SafeInterval(intervalDays: Option<int>): (n: int)
    ensures n >= 1
    ensures intervalDays.Some? && intervalDays.value >= 1 ==> n == intervalDays.value
    ensures intervalDays.None? || intervalDays.value < 1 ==> n == 1
  {
    match intervalDays
    case Some(v) => if v >= 1 then v else 1
    case None => 1
  }

  /** `p` is `start` moved forward by a whole number of cycles of `safe` days. */
  ghost predicate CycleStart(start: int, safe: int, p: int)
  {
    exists k: nat :: p == start + k * safe
  }

  /**
   * `Math.floor(diffDays / safeInterval) * safeInterval`: the offset of the
   * first day of the cycle that day `elapsed` falls in.
   */
  function CycleOffset(elapsed: int, safe: int): (offset: int)
    requires elapsed >= 0 && safe >= 1
    ensures 0 <= offset <= elapsed < offset + safe
    ensures CycleStart(0, safe, offset)
  {
    var cycles := elapsed / safe;
    assert elapsed == cycles * safe + elapsed % safe;
    assert 0 + cycles * safe == cycles * safe;
    cycles * safe
  }

  /**
   * `calculateCurrentPeriod(startDate, intervalDays, reference)`. The
   * reference day is a parameter (the source reads the clock).
   */
  function CalculateCurrentPeriod(js: Engine, startDate: string, intervalDays: Option<int>, reference: Day)
    : (r: Result<Period, GoalError>)
    ensures r.Err? <==> ParseUTCDate(js, startDate).None?
    ensures r.Err? ==> r.error == InvalidStartDate
    ensures ParseUTCDate(js, startDate) == Some(InvalidDate) ==> r == Ok(Period(InvalidDate, InvalidDate))
    ensures ParseUTCDate(js, startDate).Some? && ParseUTCDate(js, startDate).value.ValidDate? ==>
      var start := ParseUTCDate(js, startDate).value.day;
      var safe := SafeInterval(intervalDays);
      r.Ok? && r.value.start.ValidDate? &&
      r.value.end == TimeClip(r.value.start.day + safe - 1) &&
      (reference < start ==> r.value.start.day == start) &&
      (start <= reference ==>
        start <= r.value.start.day <= reference < r.value.start.day + safe &&
        CycleStart(start, safe, r.value.start.day))
  {
    match ParseUTCDate(js, startDate)
    case None => Err(InvalidStartDate)
    case Some(InvalidDate) => Ok(Period(InvalidDate, InvalidDate))
    case Some(ValidDate(start)) =>
      var safe := SafeInterval(intervalDays);
      if reference < start then
        Ok(Period(ValidDate(start), AddDays(ValidDate(start), safe - 1)))
      else
        var currentStart := AddDays(ValidDate(start), CycleOffset(reference - start, safe));
        Ok(Period(currentStart, AddDays(currentStart, safe - 1)))
  }

  /** The calendar date `c` written as `YYYY-MM-DD`. */
  function IsoText(c: Civil): string
    requires ValidCivil(c) && 0 <= c.year
  {
    Digits(c.year, 4) + "-" + Digits(c.month, 2) + "-" + Digits(c.day, 2)
  }

  /** Every date with a four-digit year lies inside the TimeClip range. */
  lemma FourDigitYearInRange(c: Civil)
    requires ValidCivil(c) && 0 <= c.year <= 9999
    ensures -MaxDay <= DaysFromCivil(c) <= MaxDay
  {
    DayInYear(c);
    if c.year > 0 { DayFromYearGrows(0, c.year); }
    if c.year + 1 < 10000 { DayFromYearGrows(c.year + 1, 10000); }
  }

  lemma ParseDigits(js: Engine, v: nat, w: nat)
    requires 1 <= w <= MaxExactDigits && v < Pow10(w)
    ensures StringToNumber(js, Digits(v, w)) == Finite(v as real)
  {
    DigitsValueOfDigits(v, w);
    assert IsDigitString(Digits(v, w));
  }

  /** The parts of `YYYY-MM-DD` and the number each one reads as. */
  lemma SplitIsoText(js: Engine, c: Civil)
    requires ValidCivil(c) && 0 <= c.year <= 9999
    ensures Split(IsoText(c), '-') == [Digits(c.year, 4), Digits(c.month, 2), Digits(c.day, 2)]
    ensures StringToNumber(js, Digits(c.year, 4)) == Finite(c.year as real)
    ensures StringToNumber(js, Digits(c.month, 2)) == Finite(c.month as real)
    ensures StringToNumber(js, Digits(c.day, 2)) == Finite(c.day as real)
  {
    var y, m, d := Digits(c.year, 4), Digits(c.month, 2), Digits(c.day, 2);
    assert '-' !in y && '-' !in m && '-' !in d by {
      assert forall i :: 0 <= i < |y| ==> IsDigit(y[i]);
    }
    assert IsoText(c) == y + ['-'] + m + ['-'] + d;
    SplitThree(y, m, d, '-');
    assert Pow10(2) == 100 && Pow10(4) == 10000;
    MonthTable(c.month - 1, IsLeapYear(c.year));
    ParseDigits(js, c.year, 4);
    ParseDigits(js, c.month, 2);
    ParseDigits(js, c.day, 2);
  }

  /** What `parseUTCDate` computes for a `YYYY-MM-DD` text. */
  lemma ParseIsoText(js: Engine, c: Civil)
    requires ValidCivil(c) && 0 <= c.year <= 9999
    ensures ParseUTCDate(js, IsoText(c))
         == Some(DateUtc(Finite(c.year as real), Finite((c.month - 1) as real), Finite(c.day as real)))
  {
    SplitIsoText(js, c);
    assert MinusOne(Finite(c.month as real)) == Finite((c.month - 1) as real);
  }

  /**
   * A `YYYY-MM-DD` date with a year from 100 to 9999 parses to its own day,
   * and formatting that day gives the text back.
   */
  lemma ParseIsoCivil(js: Engine, c: Civil)
    requires ValidCivil(c) && 100 <= c.year <= 9999
    ensures -MaxDay <= DaysFromCivil(c) <= MaxDay
    ensures ParseUTCDate(js, IsoText(c)) == Some(ValidDate(DaysFromCivil(c)))
    ensures FormatDate(ValidDate(DaysFromCivil(c))) == Ok(IsoText(c))
  {
    FourDigitYearInRange(c);
    ParseIsoText(js, c);
    DateUtcOfCivil(c);
    IsoDateOfCivil(c);
  }

  /** Formatting a day with a year from 100 to 9999 and parsing the text gives the day back. */
  lemma FormatParseRoundTrip(js: Engine, n: Day)
    requires 100 <= CivilFromDays(n).year <= 9999
    ensures FormatDate(ValidDate(n)).Ok?
    ensures ParseUTCDate(js, FormatDate(ValidDate(n)).value) == Some(ValidDate(n))
  {
    var c := CivilFromDays(n);
    assert IsoDateString(n) == IsoText(c);
    ParseIsoCivil(js, c);
  }

  /**
   * `Date.UTC` reads the years 0 to 99 as 1900 to 1999, so a start date such
   * as `0050-06-15` parses to the day of `1950-06-15` and not to its own day.
   */
  lemma ParseTwoDigitYear(js: Engine, c: Civil)
    requires ValidCivil(c) && 0 <= c.year <= 99
    requires ValidCivil(Civil(1900 + c.year, c.month, c.day))
    ensures ParseUTCDate(js, IsoText(c)) == Some(ValidDate(DaysFromCivil(Civil(1900 + c.year, c.month, c.day))))
    ensures ParseUTCDate(js, IsoText(c)) != Some(TimeClip(DaysFromCivil(c)))
  {
    var c' := Civil(1900 + c.year, c.month, c.day);
    TwoDigitYearDate(js, c);
    FourDigitYearInRange(c');
    assert DaysFromCivil(c) < DaysFromCivil(c') by {
      DayInYear(c);
      DayInYear(c');
      DayFromYearGrows(c.year + 1, c'.year);
    }
  }

  lemma TwoDigitYearDate(js: Engine, c: Civil)
    requires ValidCivil(c) && 0 <= c.year <= 99
    requires ValidCivil(Civil(1900 + c.year, c.month, c.day))
    ensures ParseUTCDate(js, IsoText(c)) == Some(TimeClip(DaysFromCivil(Civil(1900 + c.year, c.month, c.day))))
  {
    var c' := Civil(1900 + c.year, c.month, c.day);
    var y, m, d := Finite(c.year as real), Finite((c.month - 1) as real), Finite(c.day as real);
    assert ParseUTCDate(js, IsoText(c)) == Some(DateUtc(y, m, d)) by { ParseIsoText(js, c); }
    TwoDigitYearUtc(c);
  }

  /** `Date.UTC` on a year from 0 to 99 gives the day of the same date in the 1900s. */
  lemma TwoDigitYearUtc(c: Civil)
    requires 0 <= c.year <= 99
    requires ValidCivil(Civil(1900 + c.year, c.month, c.day))
    ensures DateUtc(Finite(c.year as real), Finite((c.month - 1) as real), Finite(c.day as real))
         == TimeClip(DaysFromCivil(Civil(1900 + c.year, c.month, c.day)))
  {
    var c' := Civil(1900 + c.year, c.month, c.day);
    var m, d := Finite((c.month - 1) as real), Finite(c.day as real);
    DateUtcTwoDigit(c.year, m, d);
    DateUtcOfCivil(c');
  }

  lemma DateUtcTwoDigit(y: int, m: JsNumber, d: JsNumber)
    requires 0 <= y <= 99
    ensures DateUtc(Finite(y as real), m, d) == DateUtc(Finite((1900 + y) as real), m, d)
  {
    assert Truncate(y as real) == y;
  }

  lemma MulAtLeast(a: int, b: int)
    requires a >= 1 && b >= 1
    ensures a * b >= b
  {
  }

  lemma SameCycle(start: int, safe: int, p: int, q: int, d: int)
    requires safe >= 1 && CycleStart(start, safe, p) && CycleStart(start, safe, q)
    requires p <= d < p + safe && q <= d < q + safe
    ensures p == q
  {
    var j: nat :| p == start + j * safe;
    var k: nat :| q == start + k * safe;
    if j < k {
      MulAtLeast(k - j, safe);
    } else if k < j {
      MulAtLeast(j - k, safe);
    }
  }

  /** Every reference day inside the current window yields that same window. */
  lemma PeriodStable(js: Engine, startDate: string, intervalDays: Option<int>, reference: Day, other: Day)
    requires ParseUTCDate(js, startDate).Some? && ParseUTCDate(js, startDate).value.ValidDate?
    requires ParseUTCDate(js, startDate).value.day <= reference
    requires var p := CalculateCurrentPeriod(js, startDate, intervalDays, reference).value;
      p.start.day <= other < p.start.day + SafeInterval(intervalDays)
    ensures CalculateCurrentPeriod(js, startDate, intervalDays, other)
         == CalculateCurrentPeriod(js, startDate, intervalDays, reference)
  {
    var start := ParseUTCDate(js, startDate).value.day;
    var p := CalculateCurrentPeriod(js, startDate, intervalDays, reference).value;
    var q := CalculateCurrentPeriod(js, startDate, intervalDays, other).value;
    SameCycle(start, SafeInterval(intervalDays), p.start.day, q.start.day, other);
  }

  /** Start 2024-01-01, a 30-day interval and reference 2024-02-05 give the window 2024-01-31..2024-02-29. */
  lemma ThirtyDayExample(js: Engine, startDate: string)
    requires startDate == "2024-01-01"
    ensures
      var r := CalculateCurrentPeriod(js, startDate, Some(30), DaysFromCivil(Civil(2024, 2, 5)));
      r.Ok? && FormatDate(r.value.start) == Ok("2024-01-31") && FormatDate(r.value.end) == Ok("2024-02-29")
  {
    assert DaysFromCivil(Civil(2024, 2, 5)) == 19758;
    ExampleStartParses(js);
    ThirtyDayWindow(js, startDate);
    ExampleStartFormats();
    ExampleEndFormats();
  }

  lemma ExampleStartParses(js: Engine)
    ensures ParseUTCDate(js, "2024-01-01") == Some(ValidDate(19723))
  {
    assert DaysFromCivil(Civil(2024, 1, 1)) == 19723;
    assert "2024-01-01" == IsoText(Civil(2024, 1, 1));
    ParseIsoCivil(js, Civil(2024, 1, 1));
  }

  lemma ExampleStartFormats()
    ensures FormatDate(ValidDate(19753)) == Ok("2024-01-31")
  {
    assert DaysFromCivil(Civil(2024, 1, 31)) == 19753;
    assert "2024-01-31" == IsoText(Civil(2024, 1, 31));
    IsoDateOfCivil(Civil(2024, 1, 31));
  }

  lemma ExampleEndFormats()
    ensures FormatDate(ValidDate(19782)) == Ok("2024-02-29")
  {
    assert DaysFromCivil(Civil(2024, 2, 29)) == 19782;
    assert "2024-02-29" == IsoText(Civil(2024, 2, 29));
    IsoDateOfCivil(Civil(2024, 2, 29));
  }

  lemma ThirtyDayWindow(js: Engine, startDate: string)
    requires ParseUTCDate(js, startDate) == Some(ValidDate(19723))
    ensures CalculateCurrentPeriod(js, startDate, Some(30), 19758) == Ok(Period(ValidDate(19753), ValidDate(19782)))
  {
    assert SafeInterval(Some(30)) == 30;
    assert (19758 - 19723) / 30 == 1;
    assert AddDays(ValidDate(19723), 1 * 30) == ValidDate(19753);
    assert AddDays(ValidDate(19753), 30 - 1) == ValidDate(19782);
  }



  // ---------------------------------------------------------------------
  // The response for one goal
  // ---------------------------------------------------------------------

  datatype GoalStatus = InProgress | Achieved

  function GoalStatusName(s: GoalStatus): string
  {
    match s
    case InProgress => "in_progress"
    case Achieved => "achieved"
  }

  /** `{ ...goal, currentPeriodStart, currentPeriodEnd, progressAmount, progressPercentage, remainingAmount, status }`. */
  datatype GoalResponse = GoalResponse(
    goal: Goal,
    currentPeriodStart: string,
    currentPeriodEnd: string,
    progressAmount: int,
    progressPercentage: int,
    remainingAmount: int,
    status: GoalStatus)

  /** `Math.round(progress / target * 100)` for a positive target, rounding halves up. */
  function RoundedPercent(progress: int, target: int): (r: int)
    requires target > 0
    ensures 2 * target * r - target <= 200 * progress < 2 * target * r + target
    ensures progress >= 0 ==> r >= 0
  {
    var a, b := 200 * progress + target, 2 * target;
    assert a == (a / b) * b + a % b;
    var r := a / b;
    if r < 0 then MulAtLeast(-r, b); r else r
  }

  /** `Math.min(Math.round(ratio * 100), 999)`, the ratio being 0 for a target that is not positive. */
  function ProgressPercentage(progress: int, target: int): (pct: int)
    ensures pct <= 999
    ensures target <= 0 ==> pct == 0
    ensures target > 0 && pct < 999 ==> 2 * target * pct - target <= 200 * progress < 2 * target * pct + target
    ensures target > 0 && pct == 999 ==> 200 * progress >= 2 * target * 999 - target
    ensures target > 0 && progress >= 0 ==> pct >= 0
  {
    var rounded := if target > 0 then RoundedPercent(progress, target) else 0;
    if rounded < 999 then rounded else 999
  }

  /** The fields of a goal response that follow from its progress: `progressAmount` to `status`. */
  datatype Figures = Figures(progressAmount: int, progressPercentage: int, remainingAmount: int, status: GoalStatus)

  /**
   * The figures `buildGoalResponse` derives from a goal's target and the
   * progress it is given. `None` is a progress for which `Number()` gives
   * NaN; it counts as 0.
   */
  function GoalFigures(targetAmount: int, progressAmount: Option<int>): (f: Figures)
    ensures f.progressAmount == if progressAmount.Some? then progressAmount.value else 0
    ensures f.status == Achieved <==> f.progressAmount >= targetAmount
    ensures f.remainingAmount == if f.status == Achieved then 0 else targetAmount - f.progressAmount
    ensures f.remainingAmount >= 0
    ensures f.progressPercentage == ProgressPercentage(f.progressAmount, targetAmount)
  {
    var safeProgress := if progressAmount.Some? then progressAmount.value else 0;
    var progressPercentage := ProgressPercentage(safeProgress, targetAmount);
    var remainingAmount := if targetAmount - safeProgress > 0 then targetAmount - safeProgress else 0;
    var status := if safeProgress >= targetAmount then Achieved else InProgress;
    Figures(safeProgress, progressPercentage, remainingAmount, status)
  }

  function FiguresOf(response: GoalResponse): Figures
  {
    Figures(response.progressAmount, response.progressPercentage, response.remainingAmount, response.status)
  }

  /** `buildGoalResponse(goal, periodStart, periodEnd, progressAmount)`. */
  function BuildGoalResponse(goal: Goal, periodStart: JsDate, periodEnd: JsDate, progressAmount: Option<int>)
    : (r: Result<GoalResponse, GoalError>)
    ensures r.Err? <==> periodStart.InvalidDate? || periodEnd.InvalidDate?
    ensures r.Err? ==> r.error == RangeError
    ensures r.Ok? ==>
      r.value.goal == goal &&
      FormatDate(periodStart) == Ok(r.value.currentPeriodStart) &&
      FormatDate(periodEnd) == Ok(r.value.currentPeriodEnd) &&
      FiguresOf(r.value) == GoalFigures(goal.targetAmount, progressAmount)
  {
    var figures := GoalFigures(goal.targetAmount, progressAmount);
    match FormatDate(periodStart)
    case Err(e) => Err(e)
    case Ok(currentStart) =>
      match FormatDate(periodEnd)
      case Err(e) => Err(e)
      case Ok(currentEnd) =>
        Ok(GoalResponse(goal, currentStart, currentEnd,
          figures.progressAmount, figures.progressPercentage, figures.remainingAmount, figures.status))
  }

  // ---------------------------------------------------------------------
  // The batched progress query
  // ---------------------------------------------------------------------

  /** `{ goal, periodStart, periodEnd }`, one element of the batch. */
  datatype GoalPeriod = GoalPeriod(goal: Goal, periodStart: JsDate, periodEnd: JsDate)

  /**
   * One `SELECT $a::int AS goal_id, $b::int AS wallet_id, $c::transaction_type
   * AS type, $d::date AS start_date, $e::date AS end_date`, by its
   * placeholder numbers.
   */
  datatype PeriodSelect = PeriodSelect(goalId: int, walletId: int, kind: int, startDate: int, endDate: int)

  /**
   * A query parameter: a number, a text, or the text `formatDate` writes for
   * a day, which is kept as that day (`DateTextCast` relates the two).
   */
  datatype Param = IntParam(n: int) | TextParam(s: string) | DateText(day: Day)

  /** A row of the `goal_periods` table the selects build. */
  datatype Window = Window(goalId: int, walletId: int, kind: TxType, startDay: int, endDay: int)

  /** A row of the query result: `goal_id`, `COALESCE(SUM(t.amount), 0) AS progress`. */
  datatype ProgressRow = ProgressRow(goalId: int, progress: int)

  predicate HasValidDates(p: GoalPeriod)
  {
    p.periodStart.ValidDate? && p.periodEnd.ValidDate?
  }

  /** The dates PostgreSQL accepts in the `YYYY-MM-DD` form: the years 1 to 9999. */
  predicate InPgRange(n: Day)
  {
    DayFromYear(1) <= n < DayFromYear(10000)
  }

  /** Both dates of the period format to text that the `::date` cast accepts. */
  predicate Queryable(p: GoalPeriod)
  {
    HasValidDates(p) && InPgRange(p.periodStart.day) && InPgRange(p.periodEnd.day)
  }

  /** The window the query builds for a period with valid dates. */
  function WindowOf(p: GoalPeriod): Window
    requires HasValidDates(p)
  {
    Window(p.goal.id, p.goal.walletId, p.goal.kind, p.periodStart.day, p.periodEnd.day)
  }

  function Windows(periods: seq<GoalPeriod>): (ws: seq<Window>)
    requires forall k :: 0 <= k < |periods| ==> HasValidDates(periods[k])
    ensures |ws| == |periods| && forall k :: 0 <= k < |periods| ==> ws[k] == WindowOf(periods[k])
  {
    seq(|periods|, k requires 0 <= k < |periods| => WindowOf(periods[k]))
  }

  /** The placeholders of the `k`-th select: `5k+1` to `5k+5`. */
  function SelectAt(k: int): PeriodSelect
  {
    PeriodSelect(5 * k + 1, 5 * k + 2, 5 * k + 3, 5 * k + 4, 5 * k + 5)
  }

  /** `goal.id, goal.walletId, goal.type, formatDate(periodStart), formatDate(periodEnd)`. */
  function SlotParams(p: GoalPeriod): seq<Param>
    requires HasValidDates(p)
  {
    [IntParam(p.goal.id), IntParam(p.goal.walletId), TextParam(TxTypeName(p.goal.kind)),
     DateText(p.periodStart.day), DateText(p.periodEnd.day)]
  }

  /** The placeholders and parameters the batch is written with: five per goal, in batch order. */
  ghost predicate Layout(periods: seq<GoalPeriod>, selects: seq<PeriodSelect>, params: seq<Param>)
  {
    |selects| == |periods| && |params| == 5 * |periods| &&
    forall k :: 0 <= k < |periods| ==>
      HasValidDates(periods[k]) && selects[k] == SelectAt(k) && params[5 * k..5 * k + 5] == SlotParams(periods[k])
  }

  lemma LayoutExtend(periods: seq<GoalPeriod>, selects: seq<PeriodSelect>, params: seq<Param>, p: GoalPeriod)
    requires Layout(periods, selects, params) && HasValidDates(p)
    ensures Layout(periods + [p], selects + [SelectAt(|periods|)], params + SlotParams(p))
  {
    var periods', selects', params' := periods + [p], selects + [SelectAt(|periods|)], params + SlotParams(p);
    forall k | 0 <= k < |periods'|
      ensures HasValidDates(periods'[k]) && selects'[k] == SelectAt(k) && params'[5 * k..5 * k + 5] == SlotParams(periods'[k])
    {
      if k < |periods| {
        assert params'[5 * k..5 * k + 5] == params[5 * k..5 * k + 5];
      } else {
        assert params'[5 * k..5 * k + 5] == SlotParams(p);
      }
    }
  }

  /**
   * The `forEach` of `fetchProgress` that fills `selects` and `params`; it
   * stops with the RangeError of the first period whose date does not format.
   */
  method BuildProgressQuery(periods: seq<GoalPeriod>) returns (r: Result<(seq<PeriodSelect>, seq<Param>), GoalError>)
    ensures r.Err? <==> exists k :: 0 <= k < |periods| && !HasValidDates(periods[k])
    ensures r.Err? ==> r.error == RangeError
    ensures r.Ok? ==> Layout(periods, r.value.0, r.value.1)
  {
    var selects: seq<PeriodSelect> := [];
    var params: seq<Param> := [];
    var index := 0;
    while index < |periods|
      invariant 0 <= index <= |periods|
      invariant |selects| == index
      invariant Layout(periods[..index], selects[..index], params)
    {
      var period := periods[index];
      var base := index * 5;
      selects := selects + [PeriodSelect(base + 1, base + 2, base + 3, base + 4, base + 5)];
      // formatDate(periodStart) and formatDate(periodEnd), which throw on an Invalid Date
      if period.periodStart.InvalidDate? || period.periodEnd.InvalidDate? {
        return Err(RangeError);
      }
      LayoutExtend(periods[..index], selects[..index], params, period);
      params := params + [IntParam(period.goal.id), IntParam(period.goal.walletId),
        TextParam(TxTypeName(period.goal.kind)), DateText(period.periodStart.day), DateText(period.periodEnd.day)];
      assert periods[..index + 1] == periods[..index] + [period];
      assert selects[..index + 1] == selects[..index] + [SelectAt(index)];
      index := index + 1;
    }
    assert periods[..index] == periods && selects[..index] == selects;
    return Ok((selects, params));
  }

  /**
   * The PostgreSQL `::date` cast of a date text, as this model assumes it:
   * exactly the `YYYY-MM-DD` texts of real dates with a year from 1 to 9999
   * are accepted; `None` is a query error.
   */
  function PgDate(text: string): Option<int>
  {
    if |text| == 10 && text[4] == '-' && text[7] == '-' &&
       IsDigitString(text[..4]) && IsDigitString(text[5..7]) && IsDigitString(text[8..])
    then
      var c := Civil(DigitsValue(text[..4]), DigitsValue(text[5..7]), DigitsValue(text[8..]));
      if ValidCivil(c) && 1 <= c.year then Some(DaysFromCivil(c)) else None
    else None
  }

  lemma PgRangeYears(n: Day)
    ensures InPgRange(n) <==> 1 <= CivilFromDays(n).year <= 9999
  {
    var c := CivilFromDays(n);
    assert DayFromYear(c.year) <= n < DayFromYear(c.year + 1) by { DayInYear(c); }
    YearRange(n, c.year);
  }

  /** A day of year `y` lies between the first day of year 1 and the last day of year 9999 exactly when `y` does. */
  lemma YearRange(n: int, y: int)
    requires DayFromYear(y) <= n < DayFromYear(y + 1)
    ensures DayFromYear(1) <= n < DayFromYear(10000) <==> 1 <= y <= 9999
  {
    if 1 <= y <= 9999 {
      assert DayFromYear(1) <= DayFromYear(y) by { if 1 < y { DayFromYearGrows(1, y); } }
      assert DayFromYear(y + 1) <= DayFromYear(10000) by { if y + 1 < 10000 { DayFromYearGrows(y + 1, 10000); } }
    } else if y < 1 {
      assert DayFromYear(y + 1) <= DayFromYear(1) by { if y + 1 < 1 { DayFromYearGrows(y + 1, 1); } }
    } else {
      assert DayFromYear(10000) <= DayFromYear(y) by { if 10000 < y { DayFromYearGrows(10000, y); } }
    }
  }

  lemma IsoTextParts(c: Civil)
    requires ValidCivil(c) && 0 <= c.year <= 9999
    ensures |IsoText(c)| == 10 && IsoText(c)[4] == '-' && IsoText(c)[7] == '-'
    ensures IsoText(c)[..4] == Digits(c.year, 4)
    ensures IsoText(c)[5..7] == Digits(c.month, 2)
    ensures IsoText(c)[8..] == Digits(c.day, 2)
  {
  }

  lemma PgDateOfIsoText(c: Civil)
    requires ValidCivil(c) && 0 <= c.year <= 9999
    ensures PgDate(IsoText(c)) == if 1 <= c.year then Some(DaysFromCivil(c)) else None
  {
    var text := IsoText(c);
    IsoTextParts(c);
    assert Pow10(2) == 100 && Pow10(4) == 10000;
    assert c.day < 100 by { MonthTable(c.month - 1, IsLeapYear(c.year)); }
    assert DigitsValue(text[..4]) == c.year by { DigitsValueOfDigits(c.year, 4); }
    assert DigitsValue(text[5..7]) == c.month by { DigitsValueOfDigits(c.month, 2); }
    assert DigitsValue(text[8..]) == c.day by { DigitsValueOfDigits(c.day, 2); }
    assert Civil(DigitsValue(text[..4]), DigitsValue(text[5..7]), DigitsValue(text[8..])) == c;
  }

  /** The `::date` cast accepts exactly the formatted dates with a year from 1 to 9999, and reads back their day. */
  lemma PgDateOfIsoDate(n: Day)
    ensures PgDate(IsoDateString(n)) == if InPgRange(n) then Some(n) else None
  {
    var c := CivilFromDays(n);
    DayYearBound(n);
    PgRangeYears(n);
    if 0 <= c.year <= 9999 {
      assert IsoDateString(n) == IsoText(c);
      PgDateOfIsoText(c);
    } else {
      assert |IsoYear(c.year)| == 7;
    }
  }

  function ParamAt(params: seq<Param>, placeholder: int): Option<Param>
  {
    if 1 <= placeholder <= |params| then Some(params[placeholder - 1]) else None
  }

  function CastInt(p: Option<Param>): Option<int>
  {
    if p.Some? && p.value.IntParam? then Some(p.value.n) else None
  }

  function CastTxType(p: Option<Param>): Option<TxType>
  {
    if p == Some(TextParam("income")) then Some(Income)
    else if p == Some(TextParam("expense")) then Some(Expense)
    else None
  }

  function CastDate(p: Option<Param>): Option<int>
  {
    match p
    case Some(TextParam(s)) => PgDate(s)
    case Some(DateText(d)) => if InPgRange(d) then Some(d) else None
    case _ => None
  }

  /** A formatted day casts as the text of its ISO date does. */
  lemma DateTextCast(d: Day)
    ensures CastDate(Some(DateText(d))) == CastDate(Some(TextParam(IsoDateString(d))))
  {
    PgDateOfIsoDate(d);
  }

  /** The row one select produces, or `None` when a parameter is missing or does not cast. */
  function EvalSelect(sel: PeriodSelect, params: seq<Param>): Option<Window>
  {
    var goalId := CastInt(ParamAt(params, sel.goalId));
    var walletId := CastInt(ParamAt(params, sel.walletId));
    var kind := CastTxType(ParamAt(params, sel.kind));
    var startDay := CastDate(ParamAt(params, sel.startDate));
    var endDay := CastDate(ParamAt(params, sel.endDate));
    if goalId.Some? && walletId.Some? && kind.Some? && startDay.Some? && endDay.Some? then
      Some(Window(goalId.value, walletId.value, kind.value, startDay.value, endDay.value))
    else None
  }

  /** The `goal_periods` table: the `UNION ALL` of the selects, or `None` when one of them fails. */
  function EvalSelects(selects: seq<PeriodSelect>, params: seq<Param>): Option<seq<Window>>
  {
    if forall k :: 0 <= k < |selects| ==> EvalSelect(selects[k], params).Some? then
      Some(seq(|selects|, k requires 0 <= k < |selects| => EvalSelect(selects[k], params).value))
    else None
  }

  /** The `LEFT JOIN` condition: same wallet, same type, date within the window, both ends included. */
  predicate InWindow(t: TransactionRow, w: Window)
  {
    t.walletId == w.walletId && t.kind == w.kind && w.startDay <= t.date <= w.endDay
  }

  /** The sum of the amounts of the transactions in the window; 0 when there are none. */
  function WindowSum(txs: seq<TransactionRow>, w: Window): int
  {
    if txs == [] then 0
    else WindowSum(txs[..|txs| - 1], w) + (if InWindow(txs[|txs| - 1], w) then txs[|txs| - 1].amount else 0)
  }

  /** `SUM(t.amount)` of a goal id: the windows of every row with that id count. */
  function GroupSum(ws: seq<Window>, txs: seq<TransactionRow>, goalId: int): int
  {
    if ws == [] then 0
    else
      var last := ws[|ws| - 1];
      GroupSum(ws[..|ws| - 1], txs, goalId) + (if last.goalId == goalId then WindowSum(txs, last) else 0)
  }

  function GoalIds(ws: seq<Window>): (ids: seq<int>)
    ensures |ids| == |ws| && forall k :: 0 <= k < |ws| ==> ids[k] == ws[k].goalId
  {
    seq(|ws|, k requires 0 <= k < |ws| => ws[k].goalId)
  }

  /** The rows of `GROUP BY gp.goal_id`: one per distinct goal id. */
  function GroupRows(ws: seq<Window>, txs: seq<TransactionRow>): (rows: seq<ProgressRow>)
    ensures |rows| == |Dedup(GoalIds(ws))|
    ensures forall k :: 0 <= k < |rows| ==>
      rows[k] == ProgressRow(Dedup(GoalIds(ws))[k], GroupSum(ws, txs, Dedup(GoalIds(ws))[k]))
  {
    var ids := Dedup(GoalIds(ws));
    seq(|ids|, k requires 0 <= k < |ids| => ProgressRow(ids[k], GroupSum(ws, txs, ids[k])))
  }

  /** `pool.query(query, params)` over the `transactions` table `txs`. */
  function RunProgressQuery(selects: seq<PeriodSelect>, params: seq<Param>, txs: seq<TransactionRow>)
    : Result<seq<ProgressRow>, GoalError>
  {
    match EvalSelects(selects, params)
    case None => Err(QueryError)
    case Some(ws) => Ok(GroupRows(ws, txs))
  }

  /** The `k`-th select reads back the window of the `k`-th period, or fails when a date is out of range. */
  lemma EvalSlot(periods: seq<GoalPeriod>, selects: seq<PeriodSelect>, params: seq<Param>, k: int)
    requires Layout(periods, selects, params) && 0 <= k < |periods|
    ensures EvalSelect(selects[k], params) == if Queryable(periods[k]) then Some(WindowOf(periods[k])) else None
  {
    var p := periods[k];
    var slot := params[5 * k..5 * k + 5];
    assert slot == SlotParams(p);
    assert ParamAt(params, 5 * k + 1) == Some(slot[0]);
    assert ParamAt(params, 5 * k + 2) == Some(slot[1]);
    assert ParamAt(params, 5 * k + 3) == Some(slot[2]);
    assert ParamAt(params, 5 * k + 4) == Some(slot[3]);
    assert ParamAt(params, 5 * k + 5) == Some(slot[4]);
    assert CastTxType(Some(TextParam(TxTypeName(p.goal.kind)))) == Some(p.goal.kind);
  }

  /** The query's `goal_periods` table is the batch's windows, or the query fails when a date is out of range. */
  lemma EvalLayout(periods: seq<GoalPeriod>, selects: seq<PeriodSelect>, params: seq<Param>)
    requires Layout(periods, selects, params)
    ensures EvalSelects(selects, params) ==
      if forall k :: 0 <= k < |periods| ==> Queryable(periods[k]) then Some(Windows(periods)) else None
  {
    forall k | 0 <= k < |periods|
      ensures EvalSelect(selects[k], params) == if Queryable(periods[k]) then Some(WindowOf(periods[k])) else None
    {
      EvalSlot(periods, selects, params, k);
    }
    if forall k :: 0 <= k < |periods| ==> Queryable(periods[k]) {
      assert EvalSelects(selects, params).Some?;
      assert EvalSelects(selects, params).value == Windows(periods);
    } else {
      var k :| 0 <= k < |periods| && !Queryable(periods[k]);
      assert EvalSelect(selects[k], params).None?;
    }
  }

  /** Splitting the transactions splits the sum. */
  lemma {:induction false} WindowSumAppend(a: seq<TransactionRow>, b: seq<TransactionRow>, w: Window)
    ensures WindowSum(a + b, w) == WindowSum(a, w) + WindowSum(b, w)
    decreases |b|
  {
    if b != [] {
      var b' := b[..|b| - 1];
      assert (a + b)[..|a + b| - 1] == a + b';
      WindowSumAppend(a, b', w);
    } else {
      assert a + b == a;
    }
  }

  /** With positive amounts (as the validators require), a window's sum is 0 exactly when no transaction falls in it. */
  lemma {:induction false} WindowSumPositive(txs: seq<TransactionRow>, w: Window)
    requires forall k :: 0 <= k < |txs| ==> txs[k].amount > 0
    ensures WindowSum(txs, w) >= 0
    ensures WindowSum(txs, w) == 0 <==> forall k :: 0 <= k < |txs| ==> !InWindow(txs[k], w)
  {
    if txs != [] {
      var prefix := txs[..|txs| - 1];
      WindowSumPositive(prefix, w);
      assert forall k :: 0 <= k < |prefix| ==> prefix[k] == txs[k];
    }
  }

  lemma {:induction false} GroupSumAbsent(ws: seq<Window>, txs: seq<TransactionRow>, goalId: int)
    requires forall k :: 0 <= k < |ws| ==> ws[k].goalId != goalId
    ensures GroupSum(ws, txs, goalId) == 0
  {
    if ws != [] {
      GroupSumAbsent(ws[..|ws| - 1], txs, goalId);
    }
  }

  /** When the goal ids of the batch are distinct, each goal's sum is the sum of its own window. */
  lemma {:induction false} GroupSumOfDistinct(ws: seq<Window>, txs: seq<TransactionRow>, k: int)
    requires NoDuplicates(GoalIds(ws)) && 0 <= k < |ws|
    ensures GroupSum(ws, txs, ws[k].goalId) == WindowSum(txs, ws[k])
  {
    var prefix := ws[..|ws| - 1];
    assert GoalIds(ws)[k] == ws[k].goalId;
    if k == |ws| - 1 {
      forall j | 0 <= j < |prefix| ensures prefix[j].goalId != ws[k].goalId {
        assert GoalIds(ws)[j] == ws[j].goalId;
      }
      GroupSumAbsent(prefix, txs, ws[k].goalId);
    } else {
      assert GoalIds(ws)[|ws| - 1] == ws[|ws| - 1].goalId;
      assert NoDuplicates(GoalIds(prefix)) by {
        forall i, j | 0 <= i < j < |prefix| ensures GoalIds(prefix)[i] != GoalIds(prefix)[j] {
          assert GoalIds(ws)[i] == ws[i].goalId && GoalIds(ws)[j] == ws[j].goalId;
        }
      }
      GroupSumOfDistinct(prefix, txs, k);
    }
  }

  /** What the database answers to the query written for the batch. */
  lemma QueryOfLayout(periods: seq<GoalPeriod>, selects: seq<PeriodSelect>, params: seq<Param>, txs: seq<TransactionRow>)
    requires Layout(periods, selects, params)
    ensures RunProgressQuery(selects, params, txs) ==
      if forall k :: 0 <= k < |periods| ==> Queryable(periods[k]) then Ok(GroupRows(Windows(periods), txs))
      else Err(QueryError)
  {
    EvalLayout(periods, selects, params);
  }

  /** No later row carries the goal id of row `j`. */
  predicate LastWithId(rows: seq<ProgressRow>, j: int)
    requires 0 <= j < |rows|
  {
    forall i :: j < i < |rows| ==> rows[i].goalId != rows[j].goalId
  }

  /**
   * `result.rows.forEach(row => { progressMap[row.goal_id] = Number(row.progress) })`:
   * every goal id of the rows is a key, holding the progress of the last row with that id.
   */
  method ProgressMap(rows: seq<ProgressRow>) returns (progressMap: map<int, int>)
    ensures forall g :: g in progressMap <==> exists j :: 0 <= j < |rows| && rows[j].goalId == g
    ensures forall j :: 0 <= j < |rows| && LastWithId(rows, j) ==> progressMap[rows[j].goalId] == rows[j].progress
  {
    progressMap := map[];
    var i := 0;
    while i < |rows|
      invariant 0 <= i <= |rows|
      invariant forall g :: g in progressMap <==> exists j :: 0 <= j < i && rows[j].goalId == g
      invariant forall j :: 0 <= j < i && LastWithId(rows[..i], j) ==> progressMap[rows[j].goalId] == rows[j].progress
    {
      progressMap := progressMap[rows[i].goalId := rows[i].progress];
      i := i + 1;
    }
  }

  /** The goal ids of the windows are the goal ids of the batch. */
  lemma WindowIds(periods: seq<GoalPeriod>, g: int)
    requires forall k :: 0 <= k < |periods| ==> HasValidDates(periods[k])
    ensures g in GoalIds(Windows(periods)) <==> exists k :: 0 <= k < |periods| && periods[k].goal.id == g
  {
    var ids := GoalIds(Windows(periods));
    if g in ids {
      var k :| 0 <= k < |ids| && ids[k] == g;
      assert periods[k].goal.id == g;
    }
    if exists k :: 0 <= k < |periods| && periods[k].goal.id == g {
      var k :| 0 <= k < |periods| && periods[k].goal.id == g;
      assert ids[k] == g;
    }
  }

  /** The map built from the grouped rows holds every goal id of the windows with its group sum. */
  lemma ProgressOfGroupRows(ws: seq<Window>, txs: seq<TransactionRow>, progressMap: map<int, int>)
    requires forall g :: g in progressMap <==>
      exists j :: 0 <= j < |GroupRows(ws, txs)| && GroupRows(ws, txs)[j].goalId == g
    requires forall j :: 0 <= j < |GroupRows(ws, txs)| && LastWithId(GroupRows(ws, txs), j) ==>
      progressMap[GroupRows(ws, txs)[j].goalId] == GroupRows(ws, txs)[j].progress
    ensures forall g :: g in progressMap <==> g in GoalIds(ws)
    ensures forall g :: g in progressMap ==> progressMap[g] == GroupSum(ws, txs, g)
  {
    var rows := GroupRows(ws, txs);
    var ids := Dedup(GoalIds(ws));
    forall g ensures g in progressMap <==> g in GoalIds(ws) {
      if g in ids {
        var j :| 0 <= j < |ids| && ids[j] == g;
        assert rows[j].goalId == g;
      }
    }
    forall g | g in progressMap ensures progressMap[g] == GroupSum(ws, txs, g) {
      var j :| 0 <= j < |rows| && rows[j].goalId == g;
      forall i | j < i < |rows| ensures rows[i].goalId != g {
        assert ids[i] != ids[j];
      }
    }
  }

  /**
   * The map `fetchProgress` resolves to: every goal id of the batch, holding
   * the `SUM` of its `GROUP BY` group.
   */
  function ProgressOf(periods: seq<GoalPeriod>, txs: seq<TransactionRow>): map<int, int>
    requires forall k :: 0 <= k < |periods| ==> HasValidDates(periods[k])
  {
    var ws := Windows(periods);
    map g | g in GoalIds(ws) :: GroupSum(ws, txs, g)
  }

  /** A map with the keys and values `fetchProgress` promises is that map. */
  lemma ProgressOfKeysAndValues(periods: seq<GoalPeriod>, txs: seq<TransactionRow>, progressMap: map<int, int>)
    requires forall k :: 0 <= k < |periods| ==> HasValidDates(periods[k])
    requires forall g :: g in progressMap <==> exists k :: 0 <= k < |periods| && periods[k].goal.id == g
    requires forall g :: g in progressMap ==> progressMap[g] == GroupSum(Windows(periods), txs, g)
    ensures progressMap == ProgressOf(periods, txs)
  {
    forall g ensures g in progressMap <==> g in ProgressOf(periods, txs) {
      WindowIds(periods, g);
    }
  }

  /**
   * What `fetchProgress(periods)` resolves or rejects with over the
   * `transactions` table `txs`: the RangeError of `formatDate` on an Invalid
   * Date, then the query's error on a date `::date` does not accept;
   * otherwise the map of each goal id to the sum of its group.
   */
  function FetchedProgress(periods: seq<GoalPeriod>, txs: seq<TransactionRow>): Result<map<int, int>, GoalError>
  {
    if exists k :: 0 <= k < |periods| && !HasValidDates(periods[k]) then Err(RangeError)
    else if exists k :: 0 <= k < |periods| && !Queryable(periods[k]) then Err(QueryError)
    else Ok(ProgressOf(periods, txs))
  }

  /** `fetchProgress(periods)`; `queries` counts the calls to `pool.query`. */
  method FetchProgress(periods: seq<GoalPeriod>, txs: seq<TransactionRow>)
    returns (r: Result<map<int, int>, GoalError>, queries: nat)
    ensures r == FetchedProgress(periods, txs)
    ensures r.Ok? ==> forall k :: 0 <= k < |periods| ==> HasValidDates(periods[k])
    ensures queries == (if |periods| > 0 && forall k :: 0 <= k < |periods| ==> HasValidDates(periods[k]) then 1 else 0)
  {
    if |periods| == 0 {
      assert ProgressOf(periods, txs) == map[];
      return Ok(map[]), 0;
    }
    var built := BuildProgressQuery(periods);
    if built.Err? {
      return Err(built.error), 0;
    }
    QueryOfLayout(periods, built.value.0, built.value.1, txs);
    queries := 1;
    var result := RunProgressQuery(built.value.0, built.value.1, txs);
    if result.Err? {
      return Err(result.error), queries;
    }
    var progressMap := ProgressMap(result.value);
    ProgressOfGroupRows(Windows(periods), txs, progressMap);
    forall g ensures g in progressMap <==> exists k :: 0 <= k < |periods| && periods[k].goal.id == g {
      WindowIds(periods, g);
    }
    ProgressOfKeysAndValues(periods, txs, progressMap);
    return Ok(progressMap), queries;
  }

  /** `goals.map(goal => ({ goal, periodStart, periodEnd }))`; the first start date that does not parse throws. */
  function PeriodsFor(js: Engine, goals: seq<Goal>, reference: Day): (r: Result<seq<GoalPeriod>, GoalError>)
    ensures r.Err? <==> exists i :: 0 <= i < |goals| && ParseUTCDate(js, goals[i].startDate).None?
    ensures r.Err? ==> r.error == InvalidStartDate
    ensures r.Ok? ==> |r.value| == |goals| && forall i :: 0 <= i < |goals| ==>
      r.value[i].goal == goals[i] &&
      CalculateCurrentPeriod(js, goals[i].startDate, goals[i].intervalDays, reference)
        == Ok(Period(r.value[i].periodStart, r.value[i].periodEnd))
  {
    if goals == [] then Ok([])
    else
      match CalculateCurrentPeriod(js, goals[0].startDate, goals[0].intervalDays, reference)
      case Err(e) => Err(e)
      case Ok(p) =>
        match PeriodsFor(js, goals[1..], reference)
        case Err(e) =>
          assert forall i :: 1 <= i < |goals| ==> goals[1..][i - 1] == goals[i];
          Err(e)
        case Ok(rest) =>
          assert forall i :: 1 <= i < |goals| ==> goals[1..][i - 1] == goals[i];
          Ok([GoalPeriod(goals[0], p.start, p.end)] + rest)
  }

  /** `progressMap[goal.id] ?? 0`. */
  function Lookup(progressMap: map<int, int>, goalId: int): int
  {
    if goalId in progressMap then progressMap[goalId] else 0
  }

  /** `periods.map(... buildGoalResponse(goal, periodStart, periodEnd, progressMap[goal.id] ?? 0))`. */
  function ResponsesFor(periods: seq<GoalPeriod>, progressMap: map<int, int>): (rs: seq<GoalResponse>)
    requires forall k :: 0 <= k < |periods| ==> HasValidDates(periods[k])
    ensures |rs| == |periods|
    ensures forall k :: 0 <= k < |periods| ==>
      var p := periods[k];
      BuildGoalResponse(p.goal, p.periodStart, p.periodEnd, Some(Lookup(progressMap, p.goal.id))) == Ok(rs[k])
  {
    seq(|periods|, k requires 0 <= k < |periods| && HasValidDates(periods[k]) =>
      var p := periods[k];
      BuildGoalResponse(p.goal, p.periodStart, p.periodEnd, Some(Lookup(progressMap, p.goal.id))).value)
  }

  predicate DistinctGoalIds(goals: seq<Goal>)
  {
    forall i, j :: 0 <= i < j < |goals| ==> goals[i].id != goals[j].id
  }

  /** With the map `fetchProgress` returns, each response carries its goal's group sum. */
  lemma ResponsesOfProgress(periods: seq<GoalPeriod>, txs: seq<TransactionRow>)
    requires forall k :: 0 <= k < |periods| ==> HasValidDates(periods[k])
    ensures forall i :: 0 <= i < |periods| ==>
      BuildGoalResponse(periods[i].goal, periods[i].periodStart, periods[i].periodEnd,
        Some(GroupSum(Windows(periods), txs, periods[i].goal.id))) == Ok(ResponsesFor(periods, ProgressOf(periods, txs))[i])
  {
    var progressMap := ProgressOf(periods, txs);
    forall i | 0 <= i < |periods|
      ensures Lookup(progressMap, periods[i].goal.id) == GroupSum(Windows(periods), txs, periods[i].goal.id)
    {
      assert GoalIds(Windows(periods))[i] == periods[i].goal.id;
    }
  }

  /** With distinct goal ids, each goal's group sum is the sum of its own window. */
  lemma ProgressOfDistinct(periods: seq<GoalPeriod>, txs: seq<TransactionRow>)
    requires forall k :: 0 <= k < |periods| ==> HasValidDates(periods[k])
    requires forall i, j :: 0 <= i < j < |periods| ==> periods[i].goal.id != periods[j].goal.id
    ensures forall i :: 0 <= i < |periods| ==>
      GroupSum(Windows(periods), txs, periods[i].goal.id) == WindowSum(txs, WindowOf(periods[i]))
  {
    var ws := Windows(periods);
    assert NoDuplicates(GoalIds(ws)) by {
      forall i, j | 0 <= i < j < |ws| ensures GoalIds(ws)[i] != GoalIds(ws)[j] {
        assert GoalIds(ws)[i] == periods[i].goal.id && GoalIds(ws)[j] == periods[j].goal.id;
      }
    }
    forall i | 0 <= i < |periods|
      ensures GroupSum(ws, txs, periods[i].goal.id) == WindowSum(txs, WindowOf(periods[i]))
    {
      GroupSumOfDistinct(ws, txs, i);
    }
  }

  /**
   * What the rest of `composeGoalsResponse` resolves or rejects with once the
   * periods are known: a period date that does not format, then a date the
   * query cannot cast; otherwise one response per period, in batch order.
   */
  function BatchResponse(periods: seq<GoalPeriod>, txs: seq<TransactionRow>): Result<seq<GoalResponse>, GoalError>
  {
    match FetchedProgress(periods, txs)
    case Err(e) => Err(e)
    case Ok(progressMap) => Ok(ResponsesFor(periods, progressMap))
  }

  /**
   * What `composeGoalsResponse(goals)` resolves or rejects with at reference
   * day `reference` over the `transactions` table `txs`: first a start date
   * that does not parse, then what the batch of periods comes to.
   */
  function GoalsResponse(js: Engine, goals: seq<Goal>, reference: Day, txs: seq<TransactionRow>)
    : Result<seq<GoalResponse>, GoalError>
  {
    match PeriodsFor(js, goals, reference)
    case Err(e) => Err(e)
    case Ok(periods) => BatchResponse(periods, txs)
  }

  /**
   * `composeGoalsResponse(goals)`; `queries` counts the calls to
   * `pool.query`: one for the whole batch, none without goals.
   */
  method ComposeGoalsResponse(js: Engine, goals: seq<Goal>, reference: Day, txs: seq<TransactionRow>)
    returns (r: Result<seq<GoalResponse>, GoalError>, queries: nat)
    ensures r == GoalsResponse(js, goals, reference, txs)
    ensures queries <= 1
    ensures |goals| == 0 ==> queries == 0
  {
    var built := PeriodsFor(js, goals, reference);
    if built.Err? {
      return Err(built.error), 0;
    }
    r, queries := RespondToBatch(built.value, txs);
  }

  /** The steps of `composeGoalsResponse` after `goals.map`: `fetchProgress`, then `buildGoalResponse` for each. */
  method RespondToBatch(periods: seq<GoalPeriod>, txs: seq<TransactionRow>)
    returns (r: Result<seq<GoalResponse>, GoalError>, queries: nat)
    ensures r == BatchResponse(periods, txs)
    ensures queries <= 1
    ensures |periods| == 0 ==> queries == 0
  {
    var progress;
    progress, queries := FetchProgress(periods, txs);
    if progress.Err? {
      return Err(progress.error), queries;
    }
    r := Ok(ResponsesFor(periods, progress.value));
  }

  /** Without goals there is nothing to answer but the empty list. */
  lemma GoalsResponseEmpty(js: Engine, reference: Day, txs: seq<TransactionRow>)
    ensures GoalsResponse(js, [], reference, txs) == Ok([])
  {
  }

  /** The answer is the start-date error exactly when some goal's start date does not parse. */
  lemma GoalsResponseStartError(js: Engine, goals: seq<Goal>, reference: Day, txs: seq<TransactionRow>)
    ensures GoalsResponse(js, goals, reference, txs) == Err(InvalidStartDate) <==>
      exists i :: 0 <= i < |goals| && ParseUTCDate(js, goals[i].startDate).None?
  {
  }

  /** There is an answer exactly when every start date parses and every period is queryable. */
  lemma GoalsResponseOk(js: Engine, goals: seq<Goal>, reference: Day, txs: seq<TransactionRow>)
    ensures GoalsResponse(js, goals, reference, txs).Ok? <==>
      PeriodsFor(js, goals, reference).Ok? &&
      forall k :: 0 <= k < |goals| ==> Queryable(PeriodsFor(js, goals, reference).value[k])
  {
    var built := PeriodsFor(js, goals, reference);
    if built.Ok? {
      assert |built.value| == |goals|;
      BatchResponseOk(built.value, txs);
    }
  }

  /** The batch has an answer exactly when every period is queryable. */
  lemma BatchResponseOk(periods: seq<GoalPeriod>, txs: seq<TransactionRow>)
    ensures BatchResponse(periods, txs).Ok? <==> forall k :: 0 <= k < |periods| ==> Queryable(periods[k])
  {
    if forall k :: 0 <= k < |periods| ==> Queryable(periods[k]) {
      assert forall k :: 0 <= k < |periods| ==> HasValidDates(periods[k]);
    }
  }

  /** Each response is the goal's response built with the sum of the goal id's group. */
  lemma GoalsResponses(js: Engine, goals: seq<Goal>, reference: Day, txs: seq<TransactionRow>)
    requires GoalsResponse(js, goals, reference, txs).Ok?
    ensures var rs := GoalsResponse(js, goals, reference, txs).value;
      var periods := PeriodsFor(js, goals, reference).value;
      |rs| == |goals| &&
      forall i :: 0 <= i < |goals| ==>
        BuildGoalResponse(goals[i], periods[i].periodStart, periods[i].periodEnd,
          Some(GroupSum(Windows(periods), txs, goals[i].id))) == Ok(rs[i])
  {
    var periods := PeriodsFor(js, goals, reference).value;
    assert forall i :: 0 <= i < |goals| ==> periods[i].goal == goals[i];
    BatchResponses(periods, txs);
  }

  /** Each response of the batch is its goal's response built with the sum of the goal id's group. */
  lemma BatchResponses(periods: seq<GoalPeriod>, txs: seq<TransactionRow>)
    requires BatchResponse(periods, txs).Ok?
    ensures forall k :: 0 <= k < |periods| ==> HasValidDates(periods[k])
    ensures var rs := BatchResponse(periods, txs).value;
      |rs| == |periods| &&
      forall i :: 0 <= i < |periods| ==>
        BuildGoalResponse(periods[i].goal, periods[i].periodStart, periods[i].periodEnd,
          Some(GroupSum(Windows(periods), txs, periods[i].goal.id))) == Ok(rs[i])
  {
    assert forall k :: 0 <= k < |periods| ==> HasValidDates(periods[k]);
    assert BatchResponse(periods, txs).value == ResponsesFor(periods, ProgressOf(periods, txs));
    ResponsesOfProgress(periods, txs);
  }

  /** With distinct goal ids, each response's progress is the sum of the goal's own window. */
  lemma GoalsResponseOfDistinct(js: Engine, goals: seq<Goal>, reference: Day, txs: seq<TransactionRow>)
    requires GoalsResponse(js, goals, reference, txs).Ok? && DistinctGoalIds(goals)
    ensures var rs := GoalsResponse(js, goals, reference, txs).value;
      var periods := PeriodsFor(js, goals, reference).value;
      |rs| == |goals| &&
      forall i :: 0 <= i < |goals| ==> rs[i].progressAmount == WindowSum(txs, WindowOf(periods[i]))
  {
    var periods := PeriodsFor(js, goals, reference).value;
    assert forall i :: 0 <= i < |goals| ==> periods[i].goal == goals[i];
    BatchProgressOfDistinct(periods, txs);
  }

  /** With distinct goal ids, each response of the batch carries the sum of its own window. */
  lemma BatchProgressOfDistinct(periods: seq<GoalPeriod>, txs: seq<TransactionRow>)
    requires BatchResponse(periods, txs).Ok?
    requires forall i, j :: 0 <= i < j < |periods| ==> periods[i].goal.id != periods[j].goal.id
    ensures forall k :: 0 <= k < |periods| ==> HasValidDates(periods[k])
    ensures |BatchResponse(periods, txs).value| == |periods|
    ensures forall i :: 0 <= i < |periods| ==>
      BatchResponse(periods, txs).value[i].progressAmount == WindowSum(txs, WindowOf(periods[i]))
  {
    assert forall k :: 0 <= k < |periods| ==> HasValidDates(periods[k]);
    var rs := ResponsesFor(periods, ProgressOf(periods, txs));
    assert BatchResponse(periods, txs).value == rs;
    ResponsesOfProgress(periods, txs);
    ProgressOfDistinct(periods, txs);
    forall i | 0 <= i < |periods| ensures rs[i].progressAmount == WindowSum(txs, WindowOf(periods[i])) {
      assert FiguresOf(rs[i]) == GoalFigures(periods[i].goal.targetAmount, Some(GroupSum(Windows(periods), txs, periods[i].goal.id)));
    }
  }
}
