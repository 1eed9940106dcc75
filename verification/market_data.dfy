/** One attempt of the market-data fetch tool: what `YFinanceStockTool._run` does
    with the provider's answers inside a single pass of its retry loop, from the
    empty-history check to the assembled snapshot. The provider's answers and the
    clock are inputs; numbers are Python floats written as `real`. */
module MarketData {
  import opened Wrappers
  import opened Strings

  /** A calendar date, as `datetime` holds it. */
  datatype Date = Date(year: int, month: int, day: int)

  predicate IsLeapYear(y: int) {
    y % 4 == 0 && (y % 100 != 0 || y % 400 == 0)
  }

  function DaysInMonth(y: int, m: int): int
    requires 1 <= m <= 12
  {
    if m == 2 then (if IsLeapYear(y) then 29 else 28)
    else if m == 4 || m == 6 || m == 9 || m == 11 then 30
    else 31
  }

  /** The dates `datetime` can represent. */
  predicate ValidDate(d: Date) {
    1 <= d.year <= 9999 && 1 <= d.month <= 12 && 1 <= d.day <= DaysInMonth(d.year, d.month)
  }

  /** Message of the ValueError `datetime.replace` raises for a day the target
      month does not have. */
  const DayOutOfRange := "day is out of range for month"

  /** The year fix applied to a bar's date: a date in a year after `currentYear`
      is moved into `currentYear` with month and day kept
      (`date.replace(year=current_year)`), which raises when that day does not
      exist in `currentYear`; any other date is kept as it is. */
  function ClampYear(d: Date, currentYear: int): (r: Result<Date, string>)
    requires ValidDate(d) && 1 <= currentYear <= 9999
    ensures r.Ok? ==> ValidDate(r.value)
    ensures r.Ok? ==> r.value.month == d.month && r.value.day == d.day
    ensures r.Ok? ==> r.value.year == if d.year > currentYear then currentYear else d.year
    ensures r.Err? <==> d.year > currentYear && d.day > DaysInMonth(currentYear, d.month)
  {
    if d.year > currentYear then
      if d.day > DaysInMonth(currentYear, d.month) then Err(DayOutOfRange)
      else Ok(Date(currentYear, d.month, d.day))
    else Ok(d)
  }

  /** The only date the year fix can fail on is 29 February, moved into a year
      that is not a leap year. */
  lemma ClampYearFailsOnlyOnLeapDay(d: Date, currentYear: int)
    requires ValidDate(d) && 1 <= currentYear <= 9999
    ensures ClampYear(d, currentYear).Err? <==>
            d.year > currentYear && d.month == 2 && d.day == 29 && !IsLeapYear(currentYear)
  {
  }

  /** Clamping a date already clamped changes nothing. */
  lemma ClampYearIdempotent(d: Date, currentYear: int)
    requires ValidDate(d) && 1 <= currentYear <= 9999
    requires ClampYear(d, currentYear).Ok?
    ensures ClampYear(ClampYear(d, currentYear).value, currentYear) == ClampYear(d, currentYear)
  {
  }

  /** One daily bar of price history. */
  datatype Bar = Bar(date: Date, open: real, high: real, low: real, close: real, volume: int)

  /** A value from the provider's metadata dictionary: a number, a string or None. */
  datatype Value = Num(n: real) | Text(s: string) | Null

  /** The marker the tool writes for anything unavailable. */
  const NA: Value := Text("N/A")

  /** `info.get(key, "N/A")` */
  function InfoGet(info: map<string, Value>, key: string): (v: Value)
    ensures key in info ==> v == info[key]
    ensures key !in info ==> v == NA
  {
    if key in info then info[key] else NA
  }

  /** `hist['High'].idxmax()` as a position: the first bar carrying the largest High. */
  function HighestBar(bars: seq<Bar>): (k: nat)
    requires |bars| > 0
    ensures k < |bars|
    ensures forall j :: 0 <= j < |bars| ==> bars[j].high <= bars[k].high
    ensures forall j :: 0 <= j < k ==> bars[j].high < bars[k].high
    decreases |bars|
  {
    if |bars| == 1 then 0
    else
      var k := HighestBar(bars[..|bars| - 1]);
      if bars[|bars| - 1].high > bars[k].high then |bars| - 1 else k
  }

  /** `hist['Low'].idxmin()` as a position: the first bar carrying the smallest Low. */
  function LowestBar(bars: seq<Bar>): (k: nat)
    requires |bars| > 0
    ensures k < |bars|
    ensures forall j :: 0 <= j < |bars| ==> bars[k].low <= bars[j].low
    ensures forall j :: 0 <= j < k ==> bars[k].low < bars[j].low
    decreases |bars|
  {
    if |bars| == 1 then 0
    else
      var k := LowestBar(bars[..|bars| - 1]);
      if bars[|bars| - 1].low < bars[k].low then |bars| - 1 else k
  }

  /** Message of the ZeroDivisionError a Python float division by zero raises. */
  const FloatDivisionByZero := "float division by zero"

  /** The price the latest close is compared with: the previous bar's close when
      there are at least two bars, else the latest bar's own open. */
  function ChangeBase(hist: seq<Bar>): real
    requires |hist| > 0
  {
    if |hist| > 1 then hist[|hist| - 2].close else hist[|hist| - 1].open
  }

  /** Percent change of the latest close against its base; a zero base raises. */
  function PercentChange(hist: seq<Bar>): (r: Result<real, string>)
    requires |hist| > 0
    ensures r.Err? <==> ChangeBase(hist) == 0.0
    ensures r.Err? ==> r.error == FloatDivisionByZero
    ensures r.Ok? ==> r.value * ChangeBase(hist) == (hist[|hist| - 1].close - ChangeBase(hist)) * 100.0
  {
    var base := ChangeBase(hist);
    if base == 0.0 then Err(FloatDivisionByZero)
    else Ok((hist[|hist| - 1].close - base) / base * 100.0)
  }

  /** With two or more bars only the last two matter: bars further back never
      change the percent change. */
  lemma PercentChangeUsesLastTwoBars(older: seq<Bar>, hist: seq<Bar>)
    requires |hist| >= 2
    ensures PercentChange(older + hist) == PercentChange(hist)
  {
    var all := older + hist;
    assert all[|all| - 1] == hist[|hist| - 1];
    assert all[|all| - 2] == hist[|hist| - 2];
  }

  /** A lone bar is measured against its own open. */
  lemma PercentChangeOfLoneBar(b: Bar)
    requires b.open != 0.0
    ensures PercentChange([b]) == Ok((b.close - b.open) / b.open * 100.0)
  {
  }

  /** For a positive base the change is positive exactly when the close rose above it. */
  lemma PercentChangeSign(hist: seq<Bar>)
    requires |hist| > 0 && ChangeBase(hist) > 0.0
    ensures PercentChange(hist).Ok?
    ensures PercentChange(hist).value > 0.0 <==> hist[|hist| - 1].close > ChangeBase(hist)
    ensures PercentChange(hist).value == 0.0 <==> hist[|hist| - 1].close == ChangeBase(hist)
  {
    var base := ChangeBase(hist);
    var close := hist[|hist| - 1].close;
    var v := PercentChange(hist).value;
    assert v * base == (close - base) * 100.0;
    if v > 0.0 {
      assert v * base > 0.0;
    } else if v == 0.0 {
    } else {
      assert v * base < 0.0;
    }
  }

  /** Position of the close within the 52-week range, in percent. Either bound
      being "N/A" gives "N/A"; a bound that is not a number raises TypeError and
      an empty range raises ZeroDivisionError, both turned into "N/A". */
  function RangePosition(close: real, high: Value, low: Value): (r: Value)
    ensures r == NA || r.Num?
    ensures r.Num? <==> high.Num? && low.Num? && high.n != low.n
    ensures r.Num? ==> r.n * (high.n - low.n) == (close - low.n) * 100.0
  {
    if high != NA && low != NA then
      if high.Num? && low.Num? then
        if high.n - low.n == 0.0 then NA
        else Num((close - low.n) / (high.n - low.n) * 100.0)
      else NA
    else NA
  }

  /** A close inside a non-empty range sits between 0 and 100 percent of it. */
  lemma RangePositionWithinRange(close: real, high: real, low: real)
    requires low < high && low <= close <= high
    ensures RangePosition(close, Num(high), Num(low)).Num?
    ensures 0.0 <= RangePosition(close, Num(high), Num(low)).n <= 100.0
  {
    var p := RangePosition(close, Num(high), Num(low)).n;
    var width := high - low;
    assert p * width == (close - low) * 100.0;
    assert (close - low) * 100.0 <= width * 100.0;
  }

  /** Whether the exchange is open, from the local wall-clock time alone. */
  datatype TradingStatus = MarketOpen | MarketClosed

  const MicrosPerDay: nat := 24 * 60 * 60 * 1000000
  /** 09:30 and 16:00, in microseconds since midnight (`datetime.time`'s resolution). */
  const OpensAt: nat := (9 * 60 + 30) * 60 * 1000000
  const ClosesAt: nat := 16 * 60 * 60 * 1000000

  /** "Market Closed" before 09:30 or after 16:00, "Market Open" otherwise. */
  function Status(timeOfDay: nat): (s: TradingStatus)
    ensures s == MarketOpen <==> OpensAt <= timeOfDay <= ClosesAt
  {
    if timeOfDay < OpensAt || timeOfDay > ClosesAt then MarketClosed else MarketOpen
  }

  /** Both boundary instants count as open; one microsecond outside does not. */
  lemma StatusAtBoundaries()
    ensures Status(OpensAt) == MarketOpen && Status(ClosesAt) == MarketOpen
    ensures Status(OpensAt - 1) == MarketClosed && Status(ClosesAt + 1) == MarketClosed
  {
  }

  /** What `stock.quarterly_financials` gives: None, a table (its column count and
      its most recent column, by row label), or an exception. */
  datatype Statements =
    | NoStatements
    | Table(columns: nat, latest: map<string, real>)
    | StatementsRaise(message: string)

  const RevenueRow := "Total Revenue"
  const NetIncomeRow := "Net Income"

  /** Revenue and net income from the most recent quarter; each is "N/A" when the
      statements are missing, empty, raise, or lack that row. */
  function StatementFigures(f: Statements): (figures: (Value, Value))
    ensures figures.0 == NA || figures.0.Num?
    ensures figures.1 == NA || figures.1.Num?
    ensures figures.0.Num? <==> f.Table? && f.columns > 0 && RevenueRow in f.latest
    ensures figures.0.Num? ==> figures.0.n == f.latest[RevenueRow]
    ensures figures.1.Num? <==> f.Table? && f.columns > 0 && NetIncomeRow in f.latest
    ensures figures.1.Num? ==> figures.1.n == f.latest[NetIncomeRow]
  {
    match f
    case NoStatements => (NA, NA)
    case StatementsRaise(_) => (NA, NA)
    case Table(columns, latest) =>
      if columns == 0 || |latest| == 0 then (NA, NA)
      else
        (if RevenueRow in latest then Num(latest[RevenueRow]) else NA,
         if NetIncomeRow in latest then Num(latest[NetIncomeRow]) else NA)
  }

  /** Message of the ValueError `format` raises for a `.2f` spec on a string. */
  const FormatOfString := "Unknown format code 'f' for object of type 'str'"

  /** The dividend yield: "N/A" when absent or None, else the value times 100
      (formatted to two decimals by the tool); a string value makes the format raise. */
  function DividendYield(info: map<string, Value>): (r: Result<Value, string>)
    ensures ("dividendYield" !in info || info["dividendYield"] == Null) ==> r == Ok(NA)
    ensures "dividendYield" in info && info["dividendYield"].Num? ==>
              r == Ok(Num(info["dividendYield"].n * 100.0))
    ensures r.Err? <==> "dividendYield" in info && info["dividendYield"].Text?
  {
    if "dividendYield" !in info then Ok(NA)
    else match info["dividendYield"]
      case Null => Ok(NA)
      case Num(y) => Ok(Num(y * 100.0))
      case Text(_) => Err(FormatOfString)
  }

  /** The metadata fields the snapshot copies with `info.get(key, "N/A")`. */
  const CopiedInfoKeys: seq<string> := [
    "longName", "marketCap", "forwardPE", "trailingEPS", "beta", "profitMargins",
    "sector", "industry", "website", "fullTimeEmployees", "longBusinessSummary",
    "recommendationKey", "targetMeanPrice", "numberOfAnalystOpinions"]

  function CopiedInfo(info: map<string, Value>): (m: map<string, Value>)
    ensures m.Keys == set k | k in CopiedInfoKeys
    ensures forall k :: k in m ==> m[k] == InfoGet(info, k)
  {
    map k | k in CopiedInfoKeys :: InfoGet(info, k)
  }

  datatype LatestTrading = LatestTrading(
    date: Date, price: real, volume: int, open: real, high: real, low: real,
    changePercent: real, status: TradingStatus)

  /** 52-week high and low with their dates ("N/A" dates are None) and the
      close's position within the range. */
  datatype YearRange = YearRange(
    high: Value, highDate: Option<Date>, low: Value, lowDate: Option<Date>, position: Value)

  /** The structured record one successful attempt produces. */
  datatype Snapshot = Snapshot(
    timestamp: string,
    latest: LatestTrading,
    yearRange: YearRange,
    revenue: Value,
    netIncome: Value,
    dividendYield: Value,
    info: map<string, Value>)

  /** The tool's string result: the snapshot as JSON, or one of three messages. */
  datatype ToolOutput =
    | Data(snapshot: Snapshot)
    | NoRecentData(symbol: string)
    | FetchError(symbol: string, cause: string)
    | RetriesExhausted(symbol: string, attempts: nat)

  /** The text of the three message results. */
  function Message(o: ToolOutput): (m: string)
    requires !o.Data?
    ensures |m| >= 2 && ((m[0] == 'N' && m[1] == 'o') || m[0] == 'E' || m[0] == 'F')
  {
    match o
    case NoRecentData(s) => "No recent trading data available for " + s
    case FetchError(s, c) => "Error fetching data for " + s + ": " + c
    case RetriesExhausted(s, n) =>
      "Failed to fetch data for " + s + " after " + DecimalDigits(n) + " attempts due to rate limiting."
  }

  /** The 1-year history request: bars, or an exception. */
  datatype History = History(bars: seq<Bar>) | HistoryRaise(message: string)

  /** Everything the provider answers during one attempt. `Raises` covers an
      exception from building the ticker, reading `.info` or the 1-month history. */
  datatype Attempt =
    | Raises(message: string)
    | Responds(info: map<string, Value>, month: seq<Bar>, year: History, statements: Statements)

  /** The clock as the tool reads it: the current year, the local time of day and
      the formatted timestamp it stamps the snapshot with. */
  datatype Clock = Clock(currentYear: int, timeOfDay: nat, timestamp: string)

  predicate ValidClock(c: Clock) {
    1 <= c.currentYear <= 9999 && c.timeOfDay < MicrosPerDay
  }

  predicate BarsDated(bars: seq<Bar>) {
    forall i :: 0 <= i < |bars| ==> ValidDate(bars[i].date)
  }

  /** The provider only hands out real calendar dates. */
  predicate WellDated(a: Attempt) {
    a.Responds? ==> BarsDated(a.month) && (a.year.History? ==> BarsDated(a.year.bars))
  }

  /** 52-week figures: from the 1-year bars when there are any (their dates
      clamped, which may raise), else from the metadata with "N/A" dates. */
  function YearFigures(bars: seq<Bar>, info: map<string, Value>, currentYear: int, close: real): (r: Result<YearRange, string>)
    requires BarsDated(bars) && 1 <= currentYear <= 9999
    ensures r.Ok? && |bars| > 0 ==>
              r.value.high.Num? && r.value.low.Num? && r.value.highDate.Some? && r.value.lowDate.Some?
    ensures r.Ok? && |bars| > 0 ==>
              (forall j :: 0 <= j < |bars| ==> r.value.low.n <= bars[j].low && bars[j].high <= r.value.high.n)
    ensures r.Ok? && |bars| > 0 ==>
              r.value.highDate.value.year <= currentYear && r.value.lowDate.value.year <= currentYear
    ensures |bars| > 0 ==>
              var hi := bars[HighestBar(bars)];
              var lo := bars[LowestBar(bars)];
              (r.Err? <==> ClampYear(hi.date, currentYear).Err? || ClampYear(lo.date, currentYear).Err?) &&
              (r.Ok? ==>
                 r.value.high == Num(hi.high) && r.value.low == Num(lo.low) &&
                 r.value.highDate == Some(ClampYear(hi.date, currentYear).value) &&
                 r.value.lowDate == Some(ClampYear(lo.date, currentYear).value) &&
                 r.value.position == RangePosition(close, r.value.high, r.value.low))
    ensures |bars| == 0 ==>
              r == Ok(YearRange(InfoGet(info, "fiftyTwoWeekHigh"), None, InfoGet(info, "fiftyTwoWeekLow"), None,
                                RangePosition(close, InfoGet(info, "fiftyTwoWeekHigh"), InfoGet(info, "fiftyTwoWeekLow"))))
    ensures r.Err? ==> r.error == DayOutOfRange
  {
    if |bars| > 0 then
      var hi := HighestBar(bars);
      var lo := LowestBar(bars);
      match ClampYear(bars[hi].date, currentYear)
      case Err(m) => Err(m)
      case Ok(highDate) =>
        match ClampYear(bars[lo].date, currentYear)
        case Err(m) => Err(m)
        case Ok(lowDate) =>
          var high := Num(bars[hi].high);
          var low := Num(bars[lo].low);
          Ok(YearRange(high, Some(highDate), low, Some(lowDate), RangePosition(close, high, low)))
    else
      var high := InfoGet(info, "fiftyTwoWeekHigh");
      var low := InfoGet(info, "fiftyTwoWeekLow");
      Ok(YearRange(high, None, low, None, RangePosition(close, high, low)))
  }

  /** How one pass of the retry loop ends: returning a result, or raising. */
  datatype Step = Returned(output: ToolOutput) | Raised(message: string)

  /** One pass of the loop body, up to its `return json.dumps(...)`. */
  function RunAttempt(symbol: string, a: Attempt, clock: Clock): (s: Step)
    requires WellDated(a) && ValidClock(clock)
    ensures a.Raises? ==> s == Raised(a.message)
    ensures s == Returned(NoRecentData(symbol)) <==> a.Responds? && |a.month| == 0
    ensures s.Returned? ==> s.output.Data? || s.output.NoRecentData?
    ensures s.Returned? && s.output.Data? ==>
              a.Responds? && |a.month| > 0 &&
              s.output.snapshot.latest.date.year <= clock.currentYear &&
              s.output.snapshot.latest.price == a.month[|a.month| - 1].close &&
              s.output.snapshot.latest.status == Status(clock.timeOfDay)
    ensures a.Responds? && |a.month| > 0 ==>
              var last := a.month[|a.month| - 1];
              s.Raised? <==>
                ClampYear(last.date, clock.currentYear).Err? || PercentChange(a.month).Err? || a.year.HistoryRaise? ||
                (a.year.History? && YearFigures(a.year.bars, a.info, clock.currentYear, last.close).Err?) ||
                DividendYield(a.info).Err?
    ensures a.Responds? && s.Raised? ==>
              s.message in {DayOutOfRange, FloatDivisionByZero, FormatOfString} ||
              (a.year.HistoryRaise? && s.message == a.year.message)
    ensures a.Responds? && |a.month| > 0 ==>
              var last := a.month[|a.month| - 1];
              if ClampYear(last.date, clock.currentYear).Err? then s == Raised(DayOutOfRange)
              else if PercentChange(a.month).Err? then s == Raised(FloatDivisionByZero)
              else if a.year.HistoryRaise? then s == Raised(a.year.message)
              else if YearFigures(a.year.bars, a.info, clock.currentYear, last.close).Err? then s == Raised(DayOutOfRange)
              else if DividendYield(a.info).Err? then s == Raised(FormatOfString)
              else s.Returned? && s.output.Data?
    ensures s.Returned? && s.output.Data? ==>
              a.Responds? && |a.month| > 0 && a.year.History? &&
              var last := a.month[|a.month| - 1];
              var snap := s.output.snapshot;
              ClampYear(last.date, clock.currentYear).Ok? && PercentChange(a.month).Ok? &&
              YearFigures(a.year.bars, a.info, clock.currentYear, last.close).Ok? && DividendYield(a.info).Ok? &&
              snap.timestamp == clock.timestamp &&
              snap.latest == LatestTrading(ClampYear(last.date, clock.currentYear).value, last.close, last.volume,
                                           last.open, last.high, last.low, PercentChange(a.month).value,
                                           Status(clock.timeOfDay)) &&
              snap.yearRange == YearFigures(a.year.bars, a.info, clock.currentYear, last.close).value &&
              (snap.revenue, snap.netIncome) == StatementFigures(a.statements) &&
              snap.dividendYield == DividendYield(a.info).value &&
              snap.info == CopiedInfo(a.info)
  {
    match a
    case Raises(m) => Raised(m)
    case Responds(info, month, year, statements) =>
      if |month| == 0 then Returned(NoRecentData(symbol))
      else
        var last := month[|month| - 1];
        match ClampYear(last.date, clock.currentYear)
        case Err(m) => Raised(m)
        case Ok(latestDate) =>
          match PercentChange(month)
          case Err(m) => Raised(m)
          case Ok(change) =>
            match year
            case HistoryRaise(m) => Raised(m)
            case History(bars) =>
              match YearFigures(bars, info, clock.currentYear, last.close)
              case Err(m) => Raised(m)
              case Ok(range) =>
                var figures := StatementFigures(statements);
                match DividendYield(info)
                case Err(m) => Raised(m)
                case Ok(dividend) =>
                  var latest := LatestTrading(latestDate, last.close, last.volume, last.open, last.high,
                                              last.low, change, Status(clock.timeOfDay));
                  Returned(Data(Snapshot(clock.timestamp, latest, range, figures.0, figures.1, dividend,
                                         CopiedInfo(info))))
  }

  /** The snapshot's trading date is the latest bar's date with only its year
      clamped: month and day are kept, and a future year becomes the current one. */
  lemma SnapshotDateIsClampedLatest(symbol: string, a: Attempt, clock: Clock)
    requires WellDated(a) && ValidClock(clock)
    requires RunAttempt(symbol, a, clock).Returned? && RunAttempt(symbol, a, clock).output.Data?
    ensures var last := a.month[|a.month| - 1].date;
            var date := RunAttempt(symbol, a, clock).output.snapshot.latest.date;
            date.month == last.month && date.day == last.day &&
            date.year == (if last.year > clock.currentYear then clock.currentYear else last.year)
  {
  }

  /** An empty 1-month history ends the attempt at once: neither the 1-year
      history nor the statements are looked at. */
  lemma EmptyMonthIgnoresLaterRequests(symbol: string, info: map<string, Value>, y1: History, y2: History,
                                       s1: Statements, s2: Statements, clock: Clock)
    requires ValidClock(clock) && WellDated(Responds(info, [], y1, s1)) && WellDated(Responds(info, [], y2, s2))
    ensures RunAttempt(symbol, Responds(info, [], y1, s1), clock) == RunAttempt(symbol, Responds(info, [], y2, s2), clock)
    ensures RunAttempt(symbol, Responds(info, [], y1, s1), clock) == Returned(NoRecentData(symbol))
  {
  }
}
