/** What the client's derived views share: the newest-first order, the inclusive date-range
    test on ISO day strings, and the per-category spending fold. */
module Views {
  import opened Util
  import opened Sorting
  import opened Types

  /** `new Date(b.date).getTime() - new Date(a.date).getTime()` on ISO day strings: the later
      date sorts first. */
  function NewestFirst(a: Expense, b: Expense): int
  {
    StrCmp(b.date, a.date)
  }

  lemma NewestFirstIsPreorder()
    ensures TotalPreorder(NewestFirst)
  {
    StrCmpOrder();
  }

  /** In a list sorted newest first, no date is later than one before it. */
  lemma NewestFirstMeaning(s: seq<Expense>, i: int, j: int)
    requires SortedBy(s, NewestFirst) && 0 <= i < j < |s|
    ensures LexLe(s[j].date, s[i].date)
  {
    assert NewestFirst(s[i], s[j]) <= 0;
    StrCmpLe(s[j].date, s[i].date);
  }

  /** `lo <= date && date <= hi` on day strings. */
  predicate InRange(date: string, lo: string, hi: string)
  {
    LexLe(lo, date) && LexLe(date, hi)
  }

  function Within(lo: string, hi: string): Expense -> bool
  {
    (e: Expense) => InRange(e.date, lo, hi)
  }

  /** The expenses dated within the inclusive bounds, in their order. */
  function DatedWithin(expenses: seq<Expense>, lo: string, hi: string): (r: seq<Expense>)
    ensures forall i :: 0 <= i < |r| ==> r[i] in expenses && InRange(r[i].date, lo, hi)
    ensures forall i :: 0 <= i < |expenses| && InRange(expenses[i].date, lo, hi) ==> expenses[i] in r
  {
    Filter(Within(lo, hi), expenses)
  }

  /** The per-category spending map holds: its keys are the categories that occur, and each
      value is that category's total. */
  ghost predicate SpendingMap(m: map<string, real>, es: seq<Expense>)
  {
    (forall c :: c in m <==> exists i :: 0 <= i < |es| && es[i].category == c)
    && forall c :: c in m ==> m[c] == SpentIn(es, c)
  }

  /** The `reduce` that adds each expense's amount into `acc[expense.category]`, starting
      from `acc[category] || 0`. */
  method SpendingByCategory(es: seq<Expense>) returns (m: map<string, real>)
    ensures SpendingMap(m, es)
  {
    m := map[];
    var i := 0;
    while i < |es|
      invariant 0 <= i <= |es|
      invariant SpendingMap(m, es[..i])
    {
      var e := es[i];
      var before := if e.category in m then m[e.category] else 0.0;
      assert es[..i + 1] == es[..i] + [e];
      forall c ensures SpentIn(es[..i + 1], c) == SpentIn(es[..i], c) + (if e.category == c then e.amount else 0.0) {
        SumWhereAppend(CategoryOf, Amount, es[..i], e, c);
      }
      if e.category !in m {
        SumWhereAbsent(CategoryOf, Amount, es[..i], e.category);
      }
      m := m[e.category := before + e.amount];
      i := i + 1;
    }
    assert es[..|es|] == es;
  }

  /** The expenses dated within a month, and their per-category spending map, whose values
      add up to the month's total. */
  method MonthSpending(expenses: seq<Expense>, monthStart: string, monthEnd: string)
    returns (month: seq<Expense>, spending: map<string, real>)
    ensures forall i :: 0 <= i < |month| ==> month[i] in expenses && InRange(month[i].date, monthStart, monthEnd)
    ensures forall i :: 0 <= i < |expenses| && InRange(expenses[i].date, monthStart, monthEnd) ==> expenses[i] in month
    ensures SpendingMap(spending, month)
    ensures MapTotal(spending, KeysOf(CategoryOf, month)) == Total(month)
  {
    month := DatedWithin(expenses, monthStart, monthEnd);
    spending := SpendingByCategory(month);
    SpendingMapTotal(spending, month);
  }

  /** `acc[category] || 0`: what was spent in a category, 0 when it has no entry. */
  function SpentOr0(m: map<string, real>, c: string): real
  {
    if c in m then m[c] else 0.0
  }

  /** Reading a spending map with the 0 default gives the category's total, whether or not
      the category occurs. */
  lemma SpentOr0IsSpentIn(m: map<string, real>, es: seq<Expense>, c: string)
    requires SpendingMap(m, es)
    ensures SpentOr0(m, c) == SpentIn(es, c)
  {
    if c !in m {
      SumWhereAbsent(CategoryOf, Amount, es, c);
    }
  }

  /** The map's values, over the categories in order of first occurrence. */
  function MapTotal(m: map<string, real>, ks: seq<string>): real
  {
    if ks == [] then 0.0 else SpentOr0(m, ks[0]) + MapTotal(m, ks[1..])
  }

  /** The values of a spending map add up to the total of the expenses. */
  lemma SpendingMapTotal(m: map<string, real>, es: seq<Expense>)
    requires SpendingMap(m, es)
    ensures MapTotal(m, KeysOf(CategoryOf, es)) == Total(es)
  {
    MapTotalIsSumKeys(m, es, KeysOf(CategoryOf, es));
    KeysPartition(CategoryOf, Amount, es);
  }

  lemma {:induction false} MapTotalIsSumKeys(m: map<string, real>, es: seq<Expense>, ks: seq<string>)
    requires SpendingMap(m, es)
    ensures MapTotal(m, ks) == SumKeys(CategoryOf, Amount, es, ks)
  {
    if ks != [] {
      SpentOr0IsSpentIn(m, es, ks[0]);
      MapTotalIsSumKeys(m, es, ks[1..]);
    }
  }
}
