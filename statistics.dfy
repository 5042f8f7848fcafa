/**
 * The statistics page (src/app/statistics/statistics.component.ts): per-day counts
 * become chart labels and data, the count for today is picked out of them, and a
 * chart's data set can be saved as a CSV file.
 */
module Statistics {
  import opened Wrappers
  import opened Strings

  /** One property of a JSON object of numbers, in `Object.keys` order. */
  datatype Entry = Entry(key: string, value: int)

  /** A JSON object has each key once. */
  predicate DistinctKeys(s: seq<Entry>) {
    forall i, j :: 0 <= i < j < |s| ==> s[i].key != s[j].key
  }

  /** A `{ [datetimeString: string]: number }` reply. */
  type PerDay = s: seq<Entry> | DistinctKeys(s) witness []

  /** `Object.keys(val)` */
  function Keys(val: PerDay): (keys: seq<string>)
    ensures |keys| == |val|
    ensures forall i :: 0 <= i < |val| ==> keys[i] == val[i].key
  {
    seq(|val|, i requires 0 <= i < |val| => val[i].key)
  }

  /** `Object.values(val)` */
  function Values(val: PerDay): (values: seq<int>)
    ensures |values| == |val|
    ensures forall i :: 0 <= i < |val| ==> values[i] == val[i].value
  {
    seq(|val|, i requires 0 <= i < |val| => val[i].value)
  }

  /** `val[key]`, `None` for a key the object does not have. */
  function Lookup(val: seq<Entry>, key: string): Option<int> {
    if |val| == 0 then None
    else if val[0].key == key then Some(val[0].value)
    else Lookup(val[1..], key)
  }

  /** Each key of the object looks up its own value. */
  lemma {:induction false} LookupAt(val: seq<Entry>, i: int)
    requires DistinctKeys(val)
    requires 0 <= i < |val|
    ensures Lookup(val, val[i].key) == Some(val[i].value)
  {
    if i > 0 {
      assert val[0].key != val[i].key;
      assert DistinctKeys(val[1..]) by {
        forall a, b | 0 <= a < b < |val[1..]|
          ensures val[1..][a].key != val[1..][b].key
        {
          assert val[1..][a] == val[a + 1] && val[1..][b] == val[b + 1];
        }
      }
      LookupAt(val[1..], i - 1);
    }
  }

  /** Chart labels and data line up: the i-th label is the key of the i-th value. */
  lemma KeysValuesAlign(val: PerDay)
    ensures |Keys(val)| == |Values(val)|
    ensures forall i :: 0 <= i < |val| ==> Lookup(val, Keys(val)[i]) == Some(Values(val)[i])
  {
    forall i | 0 <= i < |val|
      ensures Lookup(val, Keys(val)[i]) == Some(Values(val)[i])
    {
      LookupAt(val, i);
    }
  }

  // Calendar days as the local getters of a `Date` give them: month 0 to 11, date from 1.

  datatype Day = Day(year: int, month: int, date: int)

  predicate IsLeapYear(y: int) {
    y % 4 == 0 && (y % 100 != 0 || y % 400 == 0)
  }

  function DaysInMonth(y: int, m: int): (n: int)
    requires 0 <= m < 12
    ensures 28 <= n <= 31
  {
    if m == 1 then (if IsLeapYear(y) then 29 else 28)
    else if m == 3 || m == 5 || m == 8 || m == 10 then 30
    else 31
  }

  predicate ValidDay(d: Day) {
    0 <= d.month < 12 && 1 <= d.date <= DaysInMonth(d.year, d.month)
  }

  type CalendarDay = d: Day | ValidDay(d) witness Day(1970, 0, 1)

  /** Days of year `y` before the first of month `m`. */
  function DaysBeforeMonth(y: int, m: int): (n: int)
    requires 0 <= m <= 12
    ensures n >= 0
  {
    if m == 0 then 0 else DaysBeforeMonth(y, m - 1) + DaysInMonth(y, m - 1)
  }

  function YearLength(y: int): int {
    DaysBeforeMonth(y, 12)
  }

  /** Days from 1970-01-01 to the first of January of `y`. */
  function YearStart(y: int): int
    decreases if y >= 1970 then y - 1970 else 1970 - y
  {
    if y == 1970 then 0
    else if y > 1970 then YearStart(y - 1) + YearLength(y - 1)
    else YearStart(y + 1) - YearLength(y)
  }

  const MsPerDay := 86400000

  /** The year `Date.UTC` computes with: a year from 0 to 99 is read as 1900 plus it. */
  function UtcYear(y: int): int {
    if 0 <= y <= 99 then 1900 + y else y
  }

  /**
   * `Date.UTC(year, month, date)`: milliseconds from the epoch to that day's UTC
   * midnight, in the year `UtcYear` gives (a date past the month's end, such as
   * 29 February of the year 0 read as 1900, runs on into the next month).
   */
  function UtcMidnight(d: CalendarDay): int {
    var y := UtcYear(d.year);
    (YearStart(y) + DaysBeforeMonth(y, d.month) + d.date - 1) * MsPerDay
  }

  lemma {:induction false} MonthOrder(y: int, m: int, n: int)
    requires 0 <= m < n <= 12
    ensures DaysBeforeMonth(y, m) + DaysInMonth(y, m) <= DaysBeforeMonth(y, n)
    decreases n - m
  {
    if m + 1 < n {
      MonthOrder(y, m + 1, n);
    }
  }

  lemma {:induction false} YearOrder(y: int, z: int)
    requires y < z
    ensures YearStart(y) + YearLength(y) <= YearStart(z)
    decreases z - y
  {
    assert YearStart(y + 1) == YearStart(y) + YearLength(y);
    if y + 1 < z {
      MonthOrder(y + 1, 0, 12);
      YearOrder(y + 1, z);
    }
  }

  /** Only February's length depends on the year, by one day at most. */
  lemma MonthLengths(y: int, z: int, m: int)
    requires 0 <= m < 12
    ensures m != 1 ==> DaysInMonth(y, m) == DaysInMonth(z, m)
    ensures DaysInMonth(y, m) <= DaysInMonth(z, m) + 1
  {
  }

  /** A day lies within the year `Date.UTC` reads for it. */
  lemma DayInYear(d: CalendarDay)
    ensures var y := UtcYear(d.year); 0 <= DaysBeforeMonth(y, d.month) + d.date - 1 < YearLength(y)
  {
    var y := UtcYear(d.year);
    MonthLengths(d.year, y, d.month);
    if d.month == 1 {
      MonthOrder(y, 2, 12);
    } else if d.month < 11 {
      MonthOrder(y, d.month, 12);
    }
  }

  /**
   * Two calendar days share a UTC midnight only when `Date.UTC` reads their years
   * alike; outside the years 0 to 99 they share it exactly when they are the same day.
   */
  lemma UtcMidnightInjective(a: CalendarDay, b: CalendarDay)
    ensures UtcMidnight(a) == UtcMidnight(b) ==> UtcYear(a.year) == UtcYear(b.year)
    ensures !(0 <= a.year <= 99) && !(0 <= b.year <= 99) ==> (UtcMidnight(a) == UtcMidnight(b) <==> a == b)
  {
    if UtcMidnight(a) == UtcMidnight(b) {
      var ya, yb := UtcYear(a.year), UtcYear(b.year);
      var da := YearStart(ya) + DaysBeforeMonth(ya, a.month) + a.date - 1;
      var db := YearStart(yb) + DaysBeforeMonth(yb, b.month) + b.date - 1;
      assert da == db;
      DayInYear(a);
      DayInYear(b);
      if ya < yb {
        YearOrder(ya, yb);
        assert false;
      } else if yb < ya {
        YearOrder(yb, ya);
        assert false;
      }
      if !(0 <= a.year <= 99) && !(0 <= b.year <= 99) {
        if a.month < b.month {
          MonthOrder(ya, a.month, b.month);
          assert false;
        } else if b.month < a.month {
          MonthOrder(ya, b.month, a.month);
          assert false;
        }
      }
    }
  }

  /** `Date.UTC` reads the year 50 as 1950: 1 June 0050 and 1 June 1950 share a midnight. */
  lemma TwoDigitYearsCollide()
    ensures UtcMidnight(Day(50, 5, 1)) == UtcMidnight(Day(1950, 5, 1))
  {
  }

  /**
   * compareWithToday: the string parsed as a local date (`None` for an invalid date,
   * whose time value is NaN) falls on today's calendar day.
   */
  function CompareWithToday(dateString: string, parse: string -> Option<CalendarDay>, today: CalendarDay): (same: bool)
    ensures parse(dateString) == Some(today) ==> same
    ensures same ==> parse(dateString).Some? && UtcYear(parse(dateString).value.year) == UtcYear(today.year)
    ensures !(0 <= today.year <= 99) && !(1900 <= today.year <= 1999) ==> (same <==> parse(dateString) == Some(today))
  {
    match parse(dateString)
    case None => false
    case Some(d) =>
      UtcMidnightInjective(d, today);
      UtcMidnight(d) == UtcMidnight(today)
  }

  /** getTodayStat: the value of the most recent key when that key is today, and 0 otherwise. */
  function GetTodayStat(val: PerDay, parse: string -> Option<CalendarDay>, today: CalendarDay): (stat: int)
    ensures |val| == 0 ==> stat == 0
    ensures |val| > 0 && val[|val| - 1].key == "" ==> stat == 0
    ensures |val| > 0 && val[|val| - 1].key != "" ==>
              stat == (if CompareWithToday(val[|val| - 1].key, parse, today) then val[|val| - 1].value else 0)
    ensures |val| > 0 && val[|val| - 1].key != "" && !(0 <= today.year <= 99) && !(1900 <= today.year <= 1999) ==>
              stat == (if parse(val[|val| - 1].key) == Some(today) then val[|val| - 1].value else 0)
  {
    if |val| == 0 then 0
    else
      var mostRecent := Keys(val)[|val| - 1];
      if mostRecent == "" then 0
      else if CompareWithToday(mostRecent, parse, today) then
        LookupAt(val, |val| - 1);
        Lookup(val, mostRecent).value
      else 0
  }

  /** The part of chart.js's `ChartData` the page uses: labels and the first data set. */
  datatype ChartData = ChartData(labels: seq<string>, data: seq<int>, datasetLabel: Option<string>)

  datatype PerDayChart = PerDayChart(ref: string, chartData: ChartData, todayStat: Option<int>, todayTitleText: string)

  const ChartRefs: seq<string> := ["userPerDayChart", "loginsPerDayChart", "postsPerDayChart", "commentsPerDayChart"]
  const ChartLabels: seq<string> := ["New users/day", "Logins/day", "Posts/day", "Comments/day"]
  const TodayTitles: seq<string> := ["New users today", "Logins today", "Posts today", "Comments today"]

  /** initChartDate: no labels, no data, the given data set label. */
  function InitChartData(name: string): ChartData {
    ChartData([], [], Some(name))
  }

  const CsvHeader := "Date;Amount"
  const DataUriPrefix := "data:text/csv;charset=utf-8,"

  /** The text of `data[i]` in a template literal; past the end of the data it is `undefined`. */
  function CellText(data: seq<int>, i: int): string {
    if 0 <= i < |data| then IntToString(data[i]) else "undefined"
  }

  function RowText(labels: seq<string>, data: seq<int>, i: int): string
    requires 0 <= i < |labels|
  {
    labels[i] + ";" + CellText(data, i)
  }

  /** The CSV text up to the first `n` labels' lines: the header line, then one line per label. */
  function CsvUpTo(labels: seq<string>, data: seq<int>, n: int): (text: string)
    requires 0 <= n <= |labels|
    ensures |text| > 0 && text[|text| - 1] == '\n'
  {
    if n == 0 then CsvHeader + "\n" else CsvUpTo(labels, data, n - 1) + (RowText(labels, data, n - 1) + "\n")
  }

  /** The CSV text of a chart; with no labels it is the header line alone. */
  function CsvText(chart: ChartData): string {
    CsvUpTo(chart.labels, chart.data, |chart.labels|)
  }

  /** The lines of the CSV text before its final newline, as a reader splits them. */
  function CsvLines(labels: seq<string>, data: seq<int>, n: int): (lines: seq<string>)
    requires 0 <= n <= |labels|
    ensures |lines| == n + 1 && lines[0] == CsvHeader
  {
    if n == 0 then [CsvHeader] else CsvLines(labels, data, n - 1) + [RowText(labels, data, n - 1)]
  }

  lemma Associate(a: string, b: string, c: string)
    ensures a + b + c == a + (b + c)
  {
  }

  lemma RowHasNoNewline(labels: seq<string>, data: seq<int>, i: int)
    requires 0 <= i < |labels|
    requires '\n' !in labels[i]
    ensures '\n' !in RowText(labels, data, i)
  {
    if 0 <= i < |data| {
      NumeralExcludes(data[i], '\n');
    }
  }

  /** No line holds a newline. */
  predicate SingleLines(lines: seq<string>) {
    forall i :: 0 <= i < |lines| ==> '\n' !in lines[i]
  }

  /** No line of the CSV text holds a newline of its own. */
  lemma CsvLinesNoNewline(labels: seq<string>, data: seq<int>, n: int)
    requires 0 <= n <= |labels|
    requires SingleLines(labels)
    ensures SingleLines(CsvLines(labels, data, n))
  {
    forall i | 0 <= i <= n {
      CsvLineSingle(labels, data, n, i);
    }
  }

  lemma CsvLineSingle(labels: seq<string>, data: seq<int>, n: int, i: int)
    requires 0 <= i <= n <= |labels|
    requires SingleLines(labels)
    ensures '\n' !in CsvLines(labels, data, n)[i]
  {
    if i == 0 {
      HeaderSingle(labels, data, n);
    } else {
      RowSingle(labels, data, n, i - 1);
    }
  }

  lemma HeaderSingle(labels: seq<string>, data: seq<int>, n: int)
    requires 0 <= n <= |labels|
    ensures '\n' !in CsvLines(labels, data, n)[0]
  {
    assert '\n' !in CsvHeader;
  }

  lemma RowSingle(labels: seq<string>, data: seq<int>, n: int, i: int)
    requires 0 <= i < n <= |labels|
    requires '\n' !in labels[i]
    ensures '\n' !in CsvLines(labels, data, n)[i + 1]
  {
    CsvLineAt(labels, data, n, i);
    RowHasNoNewline(labels, data, i);
  }

  /** The text the download loop builds is its lines joined by newlines, plus a final newline. */
  lemma {:induction false} CsvIsJoinedLines(labels: seq<string>, data: seq<int>, n: int)
    requires 0 <= n <= |labels|
    ensures CsvUpTo(labels, data, n) == Join(CsvLines(labels, data, n), '\n') + "\n"
  {
    if n == 0 {
      assert CsvLines(labels, data, 0) == [CsvHeader];
      assert Join([CsvHeader], '\n') == CsvHeader;
    } else {
      CsvIsJoinedLines(labels, data, n - 1);
      var lines := CsvLines(labels, data, n - 1);
      var row := RowText(labels, data, n - 1);
      var joined := Join(lines, '\n');
      assert CsvLines(labels, data, n) == lines + [row];
      assert CsvUpTo(labels, data, n) == (joined + "\n") + (row + "\n");
      JoinSnoc(lines, row, '\n');
      assert (joined + "\n") + (row + "\n") == (joined + ['\n'] + row) + "\n";
    }
  }

  lemma {:induction false} CsvSplitUpTo(labels: seq<string>, data: seq<int>, n: int)
    requires 0 <= n <= |labels|
    requires SingleLines(labels)
    ensures Split(CsvUpTo(labels, data, n), '\n') == CsvLines(labels, data, n) + [""]
  {
    var lines := CsvLines(labels, data, n);
    CsvIsJoinedLines(labels, data, n);
    JoinSnoc(lines, "", '\n');
    assert Join(lines + [""], '\n') == CsvUpTo(labels, data, n);
    CsvLinesNoNewline(labels, data, n);
    SplitJoin(lines + [""], '\n');
  }

  /** Read back line by line, the CSV text gives the header, each row in label order, and an empty last line. */
  lemma {:induction false} CsvRoundTrip(chart: ChartData)
    requires forall i :: 0 <= i < |chart.labels| ==> '\n' !in chart.labels[i]
    ensures Split(CsvText(chart), '\n') == CsvLines(chart.labels, chart.data, |chart.labels|) + [""]
    ensures Split(CsvText(chart), '\n')[0] == CsvHeader
    ensures forall i :: 0 <= i < |chart.labels| ==>
              Split(CsvText(chart), '\n')[i + 1] == chart.labels[i] + ";" + CellText(chart.data, i)
  {
    CsvSplitUpTo(chart.labels, chart.data, |chart.labels|);
    forall i | 0 <= i < |chart.labels|
      ensures Split(CsvText(chart), '\n')[i + 1] == chart.labels[i] + ";" + CellText(chart.data, i)
    {
      CsvLineAt(chart.labels, chart.data, |chart.labels|, i);
    }
  }

  lemma {:induction false} CsvLineAt(labels: seq<string>, data: seq<int>, n: int, i: int)
    requires 0 <= i < n <= |labels|
    ensures CsvLines(labels, data, n)[i + 1] == RowText(labels, data, i)
  {
    if i < n - 1 {
      CsvLineAt(labels, data, n - 1, i);
    }
  }

  /** One pass of the download loop appends the next label's line to the text so far. */
  lemma DownloadStep(labels: seq<string>, data: seq<int>, k: int, text: string, line: string)
    requires 0 <= k < |labels|
    requires text == DataUriPrefix + CsvUpTo(labels, data, k)
    requires line == RowText(labels, data, k) + "\n"
    ensures text + line == DataUriPrefix + CsvUpTo(labels, data, k + 1)
  {
    Associate(DataUriPrefix, CsvUpTo(labels, data, k), line);
  }

  /**
   * download: the `data:` link's text (before URI encoding) and the file name. The
   * loop writes one line per label, in label order.
   */
  method Download(chart: ChartData) returns (csvContent: string, fileName: string)
    ensures csvContent == DataUriPrefix + CsvText(chart)
    ensures fileName == chart.datasetLabel.GetOr("undefined") + ".csv"
  {
    csvContent := DataUriPrefix + (CsvHeader + "\n");
    var counter := 0;
    while counter < |chart.labels|
      invariant 0 <= counter <= |chart.labels|
      invariant csvContent == DataUriPrefix + CsvUpTo(chart.labels, chart.data, counter)
    {
      var line := RowText(chart.labels, chart.data, counter) + "\n";
      DownloadStep(chart.labels, chart.data, counter, csvContent, line);
      csvContent := csvContent + line;
      counter := counter + 1;
    }
    fileName := chart.datasetLabel.GetOr("undefined") + ".csv";
  }

  class StatisticsComponent {
    var genderPieData: ChartData
    var perDayCharts: seq<PerDayChart>

    /** The four per-day charts keep their order, references, titles and data set labels. */
    ghost predicate Valid()
      reads this
    {
      |perDayCharts| == 4
      && forall i :: 0 <= i < 4 ==>
           perDayCharts[i].ref == ChartRefs[i] && perDayCharts[i].todayTitleText == TodayTitles[i]
           && perDayCharts[i].chartData.datasetLabel == Some(ChartLabels[i])
    }

    constructor ()
      ensures Valid()
      ensures genderPieData == ChartData([], [], None)
      ensures forall i :: 0 <= i < 4 ==>
                perDayCharts[i].chartData == InitChartData(ChartLabels[i]) && perDayCharts[i].todayStat == None
    {
      genderPieData := ChartData([], [], None);
      perDayCharts := seq(4, i requires 0 <= i < 4 =>
        PerDayChart(ChartRefs[i], InitChartData(ChartLabels[i]), None, TodayTitles[i]));
    }

    /** The gender distribution reply: its keys label the pie and its values are the slices. */
    method OnGenderDistribution(res: PerDay)
      requires Valid()
      modifies this
      ensures Valid()
      ensures genderPieData.labels == Keys(res) && genderPieData.data == Values(res)
      ensures genderPieData.datasetLabel == old(genderPieData.datasetLabel) && perDayCharts == old(perDayCharts)
    {
      genderPieData := genderPieData.(labels := Keys(res), data := Values(res));
    }

    /**
     * Reply `i` of the four per-day requests: that chart's labels are the days, its data
     * the counts (each count under its own day), and its today number the count for today.
     */
    method OnPerDayResponse(i: int, res: PerDay, parse: string -> Option<CalendarDay>, today: CalendarDay)
      requires Valid()
      requires 0 <= i <= 3
      modifies this
      ensures Valid()
      ensures perDayCharts[i].chartData.labels == Keys(res) && perDayCharts[i].chartData.data == Values(res)
      ensures |perDayCharts[i].chartData.labels| == |perDayCharts[i].chartData.data|
      ensures forall k :: 0 <= k < |res| ==>
                Lookup(res, perDayCharts[i].chartData.labels[k]) == Some(perDayCharts[i].chartData.data[k])
      ensures perDayCharts[i].todayStat == Some(GetTodayStat(res, parse, today))
      ensures forall j :: 0 <= j < 4 && j != i ==> perDayCharts[j] == old(perDayCharts[j])
      ensures genderPieData == old(genderPieData)
    {
      KeysValuesAlign(res);
      var chart := perDayCharts[i];
      chart := chart.(chartData := chart.chartData.(labels := Keys(res), data := Values(res)));
      chart := chart.(todayStat := Some(GetTodayStat(res, parse, today)));
      perDayCharts := perDayCharts[i := chart];
    }
  }
}
