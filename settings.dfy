/** The settings page's export: the date range it starts with and how editing one of its
    inputs changes it, and the CSV file of the expenses dated within it. The date formatter
    and the number-to-text conversion are parameters. */
module Settings {
  import opened Util
  import opened Types
  import opened Views
  import opened Dates
  import Csv

  /** The range starts as the first day of the current month through today, each written as
      its ISO day. */
  function DefaultRange(year: nat, month: nat, day: nat): (r: DateRange)
    ensures r.startDate == DayString(year, month, 1) && r.endDate == DayString(year, month, day)
  {
    DateRange(DayString(year, month, 1), DayString(year, month, day))
  }

  /** The default range holds exactly the days of this month up to today. */
  lemma DefaultRangeIsMonthToDate(year: nat, month: nat, day: nat, y: nat, m: nat, d: nat)
    requires year < 10000 && month < 100 && day < 100 && y < 10000 && m < 100 && d < 100
    ensures var r := DefaultRange(year, month, day);
      InRange(DayString(y, m, d), r.startDate, r.endDate) <==> y == year && m == month && 1 <= d <= day
  {
    DayStringOrder(y, m, d, year, month, 1);
    DayStringOrder(year, month, day, y, m, d);
  }

  /** The two date inputs, by their `name`. */
  datatype RangeField = StartDate | EndDate

  /** `{ ...prev, [name]: value }`: the named bound takes the value, the other stays. */
  function SetRangeField(r: DateRange, field: RangeField, value: string): (s: DateRange)
    ensures field == StartDate ==> s.startDate == value && s.endDate == r.endDate
    ensures field == EndDate ==> s.endDate == value && s.startDate == r.startDate
  {
    match field
    case StartDate => r.(startDate := value)
    case EndDate => r.(endDate := value)
  }

  /** Editing the two inputs in either order gives the same range, and editing the same
      input twice keeps the last value. */
  lemma SetRangeFieldOrder(r: DateRange, a: string, b: string, field: RangeField)
    ensures SetRangeField(SetRangeField(r, StartDate, a), EndDate, b) == SetRangeField(SetRangeField(r, EndDate, b), StartDate, a)
    ensures SetRangeField(SetRangeField(r, field, a), field, b) == SetRangeField(r, field, b)
  {
  }

  /** `[format(new Date(expense.date), 'MM/dd/yyyy'), expense.description, expense.category,
      expense.amount.toString()]`. */
  function CsvRow(formatDate: string -> string, show: real -> string): Expense -> seq<string>
  {
    (e: Expense) => [formatDate(e.date), e.description, e.category, show(e.amount)]
  }

  /** exportToCSV's file: the expenses dated within the range, in their stored order. */
  function ExportCsv(expenses: seq<Expense>, range: DateRange, formatDate: string -> string, show: real -> string): string
  {
    var filtered := DatedWithin(expenses, range.startDate, range.endDate);
    Csv.Content(filtered, CsvRow(formatDate, show), show)
  }

  /** No field of the export, nor the total's text, holds a line break. */
  predicate Unbroken(es: seq<Expense>, formatDate: string -> string, show: real -> string)
  {
    (forall i :: 0 <= i < |es| ==> ('\n' !in formatDate(es[i].date) && '\n' !in es[i].description
      && '\n' !in es[i].category && '\n' !in show(es[i].amount)))
    && '\n' !in show(Total(es))
  }

  /** The exported file is the header, each expense dated within the range as
      `date,description,category,amount` in order, then the total of exactly those. */
  lemma ExportCsvLines(expenses: seq<Expense>, range: DateRange, formatDate: string -> string, show: real -> string)
    requires Unbroken(DatedWithin(expenses, range.startDate, range.endDate), formatDate, show)
    ensures var filtered := DatedWithin(expenses, range.startDate, range.endDate);
      var lines := Split(ExportCsv(expenses, range, formatDate, show), '\n');
      |lines| == |filtered| + 2 && lines[0] == "Date,Description,Category,Amount"
      && (forall i :: 0 <= i < |filtered| ==>
            lines[i + 1] == formatDate(filtered[i].date) + "," + filtered[i].description + "," + filtered[i].category + "," + show(filtered[i].amount))
      && lines[|filtered| + 1] == ",,Total," + show(Total(filtered))
  {
    var filtered := DatedWithin(expenses, range.startDate, range.endDate);
    var row := CsvRow(formatDate, show);
    assert forall i :: 0 <= i < |filtered| ==> Csv.NoBreak(row(filtered[i]));
    Csv.SplitsIntoLines(filtered, row, show);
    forall i | 0 <= i < |filtered|
      ensures Join(row(filtered[i]), ',') == formatDate(filtered[i].date) + "," + filtered[i].description + "," + filtered[i].category + "," + show(filtered[i].amount)
    {
      Csv.JoinFour(formatDate(filtered[i].date), filtered[i].description, filtered[i].category, show(filtered[i].amount));
    }
  }
}
