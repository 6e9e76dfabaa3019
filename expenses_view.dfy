/** The expenses page: its search and category filter, its two-way sort by date or amount,
    the sort button, and the payload its add form submits. */
module ExpensesView {
  import opened Util
  import opened Sorting
  import opened Types

  /** The description contains the search term, ignoring case, and the category is the
      selected one, or none is selected. */
  predicate Matches(e: Expense, searchTerm: string, selectedCategory: string)
  {
    Contains(ToLower(e.description), ToLower(searchTerm))
    && (selectedCategory == "" || e.category == selectedCategory)
  }

  function Matching(searchTerm: string, selectedCategory: string): Expense -> bool
  {
    (e: Expense) => Matches(e, searchTerm, selectedCategory)
  }

  /** The search ignores case: a term matches as its lower-case form does. */
  lemma SearchIgnoresCase(e: Expense, searchTerm: string, selectedCategory: string)
    ensures Matches(e, searchTerm, selectedCategory) <==> Matches(e, ToLower(searchTerm), selectedCategory)
  {
    ToLowerIdempotent(searchTerm);
  }

  /** With an empty search and no category selected, every expense is shown. */
  lemma EmptySearchKeepsAll(expenses: seq<Expense>)
    ensures Filter(Matching("", ""), expenses) == expenses
  {
    forall i | 0 <= i < |expenses| ensures Matches(expenses[i], "", "") {
      assert OccursAt(ToLower(expenses[i].description), ToLower(""), 0);
    }
    FilterAll(Matching("", ""), expenses);
  }

  datatype SortField = ByDate | ByAmount

  datatype SortDirection = Asc | Desc

  /** `multiplier * (a.date - b.date)` or `multiplier * (a.amount - b.amount)`, by sign. */
  function Cmp(field: SortField, direction: SortDirection): (Expense, Expense) -> int
  {
    var multiplier := if direction == Asc then 1 else -1;
    match field
    case ByDate => (a: Expense, b: Expense) => multiplier * StrCmp(a.date, b.date)
    case ByAmount => (a: Expense, b: Expense) => multiplier * RealCmp(a.amount, b.amount)
  }

  lemma CmpIsPreorder(field: SortField, direction: SortDirection)
    ensures TotalPreorder(Cmp(field, direction))
  {
    StrCmpOrder();
    StrCmpAntisymmetric();
  }

  /** What a sorted list promises about two of its positions. */
  predicate InOrder(field: SortField, direction: SortDirection, a: Expense, b: Expense)
  {
    match (field, direction)
    case (ByDate, Asc) => LexLe(a.date, b.date)
    case (ByDate, Desc) => LexLe(b.date, a.date)
    case (ByAmount, Asc) => a.amount <= b.amount
    case (ByAmount, Desc) => b.amount <= a.amount
  }

  lemma CmpMeaning(field: SortField, direction: SortDirection, a: Expense, b: Expense)
    requires Cmp(field, direction)(a, b) <= 0
    ensures InOrder(field, direction, a, b)
  {
    StrCmpLe(a.date, b.date);
    StrCmpLe(b.date, a.date);
    if field == ByDate && LexLt(a.date, b.date) {
      LexAsymmetric(a.date, b.date);
    }
  }

  /** The shown list: exactly the matching expenses, each taken from the state, ordered by
      the chosen field in the chosen direction. */
  method FilteredExpenses(expenses: seq<Expense>, searchTerm: string, selectedCategory: string,
                          field: SortField, direction: SortDirection) returns (r: seq<Expense>)
    ensures multiset(r) == multiset(Filter(Matching(searchTerm, selectedCategory), expenses))
    ensures forall i :: 0 <= i < |r| ==> r[i] in expenses && Matches(r[i], searchTerm, selectedCategory)
    ensures forall i, j :: 0 <= i < j < |r| ==> InOrder(field, direction, r[i], r[j])
  {
    var matching := Filter(Matching(searchTerm, selectedCategory), expenses);
    CmpIsPreorder(field, direction);
    r := SortedCopy(matching, Cmp(field, direction));
    forall i | 0 <= i < |r| ensures r[i] in expenses && Matches(r[i], searchTerm, selectedCategory) {
      assert r[i] in multiset(matching);
    }
    forall i, j | 0 <= i < j < |r| ensures InOrder(field, direction, r[i], r[j]) {
      CmpMeaning(field, direction, r[i], r[j]);
    }
  }

  /** The sort state starts at newest first. */
  const INITIAL_SORT: (SortField, SortDirection) := (ByDate, Desc)

  /** The sort button switches the field and the direction at once. */
  function ToggleSort(s: (SortField, SortDirection)): (t: (SortField, SortDirection))
    ensures t.0 != s.0 && t.1 != s.1
  {
    (if s.0 == ByDate then ByAmount else ByDate, if s.1 == Asc then Desc else Asc)
  }

  function Presses(n: nat): (SortField, SortDirection)
  {
    if n == 0 then INITIAL_SORT else ToggleSort(Presses(n - 1))
  }

  /** Since both flip together, only newest first and smallest amount first can ever be
      shown: oldest first and largest amount first are unreachable. */
  lemma {:induction false} ReachableSorts(n: nat)
    ensures Presses(n) == (if n % 2 == 0 then (ByDate, Desc) else (ByAmount, Asc))
  {
    if n > 0 {
      ReachableSorts(n - 1);
    }
  }

  /** The add form's fields, all text. */
  datatype FormData = FormData(description: string, amount: string, category: string, date: string)

  /** A blank form dated today. */
  function BlankForm(today: string): (f: FormData)
    ensures f.description == "" && f.amount == "" && f.category == "" && f.date == today
  {
    FormData("", "", "", today)
  }

  /** handleSubmit: the fields as typed, the amount parsed and the date turned into an ISO
      timestamp; the payload has no id of its own. Afterwards the form is blank again. */
  function Submit(f: FormData, parseFloat: string -> real, toIso: string -> string, today: string): (r: (Expense, FormData))
    ensures r.0 == Expense("", f.description, parseFloat(f.amount), f.category, toIso(f.date))
    ensures r.1 == BlankForm(today)
  {
    (Expense("", f.description, parseFloat(f.amount), f.category, toIso(f.date)), BlankForm(today))
  }
}
