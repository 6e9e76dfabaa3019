/** The expense list view: the five-field filter, the sortable table and the CSV export. */
module ExpenseList {
  import opened Util
  import opened Sorting
  import opened Types
  import opened Views
  import Csv

  /** The filter form; an empty field imposes nothing. */
  datatype Filters = Filters(category: string, startDate: string, endDate: string, minAmount: string, maxAmount: string)

  datatype FilterField = CategoryField | StartDateField | EndDateField | MinAmountField | MaxAmountField

  /** `resetFilters`: every field empty. */
  function ResetFilters(): (f: Filters)
    ensures f.category == "" && f.startDate == "" && f.endDate == ""
    ensures f.minAmount == "" && f.maxAmount == ""
  {
    Filters("", "", "", "", "")
  }

  /** `handleFilterChange`: the named field takes the value, the others stay. */
  function SetFilter(f: Filters, field: FilterField, value: string): (g: Filters)
    ensures g.category == (if field == CategoryField then value else f.category)
    ensures g.startDate == (if field == StartDateField then value else f.startDate)
    ensures g.endDate == (if field == EndDateField then value else f.endDate)
    ensures g.minAmount == (if field == MinAmountField then value else f.minAmount)
    ensures g.maxAmount == (if field == MaxAmountField then value else f.maxAmount)
  {
    match field
      case CategoryField => f.(category := value)
      case StartDateField => f.(startDate := value)
      case EndDateField => f.(endDate := value)
      case MinAmountField => f.(minAmount := value)
      case MaxAmountField => f.(maxAmount := value)
  }

  /** `amount < n` for a JavaScript number `n`: never true against NaN. */
  predicate Below(amount: real, n: Num)
  {
    match n
      case Finite(v) => amount < v
      case PosInf => true
      case NegInf => false
      case NaN => false
  }

  /** `amount > n` for a JavaScript number `n`: never true against NaN. */
  predicate Above(amount: real, n: Num)
  {
    match n
      case Finite(v) => amount > v
      case PosInf => false
      case NegInf => true
      case NaN => false
  }

  /** The five early returns of the filter callback. */
  predicate Keep(f: Filters, parse: string -> Num, e: Expense)
  {
    !(f.category != "" && e.category != f.category)
    && !(f.startDate != "" && LexLt(e.date, f.startDate))
    && !(f.endDate != "" && LexLt(f.endDate, e.date))
    && !(f.minAmount != "" && Below(e.amount, parse(f.minAmount)))
    && !(f.maxAmount != "" && Above(e.amount, parse(f.maxAmount)))
  }

  function Kept(f: Filters, parse: string -> Num): Expense -> bool
  {
    (e: Expense) => Keep(f, parse, e)
  }

  /** `filteredExpenses`: kept are exactly the expenses of the chosen category, dated within
      the inclusive string bounds, with an amount within the inclusive parsed bounds. */
  function FilteredExpenses(expenses: seq<Expense>, f: Filters, parse: string -> Num): (r: seq<Expense>)
    ensures forall i :: 0 <= i < |r| ==> (r[i] in expenses
      && (f.category != "" ==> r[i].category == f.category)
      && (f.startDate != "" ==> LexLe(f.startDate, r[i].date))
      && (f.endDate != "" ==> LexLe(r[i].date, f.endDate))
      && (f.minAmount != "" && parse(f.minAmount).Finite? ==> parse(f.minAmount).v <= r[i].amount)
      && (f.maxAmount != "" && parse(f.maxAmount).Finite? ==> r[i].amount <= parse(f.maxAmount).v))
    ensures forall i :: 0 <= i < |expenses| && Keep(f, parse, expenses[i]) ==> expenses[i] in r
    ensures |r| <= |expenses|
  {
    Filter(Kept(f, parse), expenses)
  }

  /** With every field empty, nothing is filtered out. */
  lemma ResetKeepsAll(expenses: seq<Expense>, parse: string -> Num)
    ensures FilteredExpenses(expenses, ResetFilters(), parse) == expenses
  {
    FilterAll(Kept(ResetFilters(), parse), expenses);
  }

  /** The bounds are inclusive: an expense sitting exactly on all of them is kept, and an
      amount bound that parses to NaN restricts nothing. */
  lemma BoundsInclusive(e: Expense, parse: string -> Num, text: string, junk: string)
    requires e.date != "" && text != "" && parse(text) == Finite(e.amount)
    requires junk != "" && parse(junk) == NaN
    ensures Keep(Filters(e.category, e.date, e.date, text, text), parse, e)
    ensures Keep(Filters("", "", "", junk, junk), parse, e)
  {
    LexIrreflexive(e.date);
  }

  // ---------------------------------------------------------------------
  // Sorting

  datatype SortKey = ById | ByDescription | ByAmount | ByCategory | ByDate

  datatype Direction = Ascending | Descending

  datatype SortConfig = SortConfig(key: SortKey, direction: Direction)

  /** `a[key] < b[key]` and `a[key] > b[key]` as one three-way comparison. */
  function KeyCmp(key: SortKey, a: Expense, b: Expense): int
  {
    match key
      case ById => StrCmp(a.id, b.id)
      case ByDescription => StrCmp(a.description, b.description)
      case ByAmount => RealCmp(a.amount, b.amount)
      case ByCategory => StrCmp(a.category, b.category)
      case ByDate => StrCmp(a.date, b.date)
  }

  /** The comparator the list sorts with: newest date first without a configuration, else
      the key in the chosen direction. */
  function SortCmp(config: Option<SortConfig>): (Expense, Expense) -> int
  {
    match config
      case None => NewestFirst
      case Some(c) =>
        if c.direction == Ascending then (a: Expense, b: Expense) => KeyCmp(c.key, a, b)
        else (a: Expense, b: Expense) => KeyCmp(c.key, b, a)
  }

  lemma KeyCmpOrder(key: SortKey)
    ensures forall a, b :: KeyCmp(key, a, b) <= 0 || KeyCmp(key, b, a) <= 0
    ensures forall a, b, c :: KeyCmp(key, a, b) <= 0 && KeyCmp(key, b, c) <= 0 ==> KeyCmp(key, a, c) <= 0
  {
    StrCmpOrder();
  }

  lemma SortCmpIsPreorder(config: Option<SortConfig>)
    ensures TotalPreorder(SortCmp(config))
  {
    NewestFirstIsPreorder();
    if config.Some? {
      KeyCmpOrder(config.value.key);
    }
  }

  /** `a[key] <= b[key]` on the key's own order. */
  predicate KeyLe(key: SortKey, a: Expense, b: Expense)
  {
    match key
      case ById => LexLe(a.id, b.id)
      case ByDescription => LexLe(a.description, b.description)
      case ByAmount => a.amount <= b.amount
      case ByCategory => LexLe(a.category, b.category)
      case ByDate => LexLe(a.date, b.date)
  }

  lemma KeyCmpMeaning(key: SortKey, a: Expense, b: Expense)
    ensures KeyCmp(key, a, b) <= 0 <==> KeyLe(key, a, b)
  {
    match key
      case ById => StrCmpLe(a.id, b.id);
      case ByDescription => StrCmpLe(a.description, b.description);
      case ByAmount =>
      case ByCategory => StrCmpLe(a.category, b.category);
      case ByDate => StrCmpLe(a.date, b.date);
  }

  /** What a list sorted by the list's comparator looks like: dates not increasing without a
      configuration, else the key not decreasing (ascending) or not increasing (descending). */
  lemma SortedMeaning(config: Option<SortConfig>, s: seq<Expense>, i: int, j: int)
    requires SortedBy(s, SortCmp(config)) && 0 <= i < j < |s|
    ensures config.None? ==> LexLe(s[j].date, s[i].date)
    ensures config.Some? && config.value.direction == Ascending ==> KeyLe(config.value.key, s[i], s[j])
    ensures config.Some? && config.value.direction == Descending ==> KeyLe(config.value.key, s[j], s[i])
  {
    assert SortCmp(config)(s[i], s[j]) <= 0;
    if config.None? {
      NewestFirstMeaning(s, i, j);
    } else {
      KeyCmpMeaning(config.value.key, s[i], s[j]);
      KeyCmpMeaning(config.value.key, s[j], s[i]);
    }
  }

  /** `sortedExpenses`: a sorted copy of the filtered list. */
  method SortedExpenses(filtered: seq<Expense>, config: Option<SortConfig>) returns (r: seq<Expense>)
    ensures multiset(r) == multiset(filtered) && |r| == |filtered|
    ensures SortedBy(r, SortCmp(config))
  {
    SortCmpIsPreorder(config);
    r := SortedCopy(filtered, SortCmp(config));
  }

  /** `requestSort`: the key becomes the sort key; descending exactly when that key was
      already sorted ascending. */
  function RequestSort(config: Option<SortConfig>, key: SortKey): (c: SortConfig)
    ensures c.key == key
    ensures c.direction == Descending <==> config == Some(SortConfig(key, Ascending))
  {
    if config.Some? && config.value.key == key && config.value.direction == Ascending then SortConfig(key, Descending)
    else SortConfig(key, Ascending)
  }

  /** Asking for the same key again flips the direction back and forth, starting ascending. */
  lemma RequestSortToggles(config: Option<SortConfig>, key: SortKey)
    ensures RequestSort(None, key) == SortConfig(key, Ascending)
    ensures RequestSort(Some(RequestSort(Some(SortConfig(key, Ascending)), key)), key) == SortConfig(key, Ascending)
    ensures config.Some? && config.value.key != key ==> RequestSort(config, key).direction == Ascending
  {
  }

  // ---------------------------------------------------------------------
  // CSV export

  /** `[expense.date, expense.description, expense.category, expense.amount.toString()]`. */
  function CsvRow(show: real -> string): Expense -> seq<string>
  {
    (e: Expense) => [e.date, e.description, e.category, show(e.amount)]
  }

  /** No field of the export, nor the total's text, holds a line break. */
  predicate Unbroken(es: seq<Expense>, show: real -> string)
  {
    (forall i :: 0 <= i < |es| ==> ('\n' !in es[i].date && '\n' !in es[i].description
      && '\n' !in es[i].category && '\n' !in show(es[i].amount)))
    && '\n' !in show(Total(es))
  }

  /** exportToCSV's file over the sorted expenses. */
  function ExportCsv(sorted: seq<Expense>, show: real -> string): string
  {
    Csv.Content(sorted, CsvRow(show), show)
  }

  /** The exported file is the header, each expense as `date,description,category,amount`
      in order, then the total line. */
  lemma ExportCsvLines(sorted: seq<Expense>, show: real -> string)
    requires Unbroken(sorted, show)
    ensures var lines := Split(ExportCsv(sorted, show), '\n');
      |lines| == |sorted| + 2 && lines[0] == "Date,Description,Category,Amount"
      && (forall i :: 0 <= i < |sorted| ==>
            lines[i + 1] == sorted[i].date + "," + sorted[i].description + "," + sorted[i].category + "," + show(sorted[i].amount))
      && lines[|sorted| + 1] == ",,Total," + show(Total(sorted))
  {
    assert forall i :: 0 <= i < |sorted| ==> Csv.NoBreak(CsvRow(show)(sorted[i]));
    Csv.SplitsIntoLines(sorted, CsvRow(show), show);
    forall i | 0 <= i < |sorted|
      ensures Join(CsvRow(show)(sorted[i]), ',') == sorted[i].date + "," + sorted[i].description + "," + sorted[i].category + "," + show(sorted[i].amount)
    {
      Csv.JoinFour(sorted[i].date, sorted[i].description, sorted[i].category, show(sorted[i].amount));
    }
  }
}
