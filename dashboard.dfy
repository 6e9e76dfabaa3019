/** The dashboard's derived figures: this month's and the last week's totals, the average
    per day, per-category spending, each budget's status and the alerts over 80%, the five
    most recent expenses, the seven-day bar data, the category boxes and the selected
    category's expenses. Today's date and the bounds derived from it are parameters. */
module Dashboard {
  import opened Util
  import opened Sorting
  import opened Types
  import opened Views

  /** A window's total never exceeds the overall total when no amount is negative, and what
      the window leaves out makes up the difference. */
  lemma {:induction false} WindowTotal(expenses: seq<Expense>, lo: string, hi: string)
    ensures Total(DatedWithin(expenses, lo, hi)) + Total(Filter(Outside(lo, hi), expenses)) == Total(expenses)
    ensures (forall i :: 0 <= i < |expenses| ==> expenses[i].amount >= 0.0) ==> Total(DatedWithin(expenses, lo, hi)) <= Total(expenses)
  {
    if expenses != [] {
      WindowTotal(expenses[1..], lo, hi);
      assert expenses == [expenses[0]] + expenses[1..];
      SumNonNegative(Filter(Outside(lo, hi), expenses));
    } else {
      SumNonNegative(Filter(Outside(lo, hi), expenses));
    }
  }

  function Outside(lo: string, hi: string): Expense -> bool
  {
    (e: Expense) => !InRange(e.date, lo, hi)
  }

  lemma {:induction false} SumNonNegative(es: seq<Expense>)
    ensures (forall i :: 0 <= i < |es| ==> es[i].amount >= 0.0) ==> Total(es) >= 0.0
  {
    if es != [] {
      SumNonNegative(es[1..]);
    }
  }

  /** `currentMonthTotal / Math.max(today.getDate(), 1)`: spread over the days of the month so
      far, never dividing by zero. */
  function AverageDaily(monthTotal: real, dayOfMonth: int): (avg: real)
    ensures var days := if dayOfMonth < 1 then 1 else dayOfMonth;
      avg * days as real == monthTotal
    ensures dayOfMonth <= 1 ==> avg == monthTotal
  {
    monthTotal / (if dayOfMonth < 1 then 1 else dayOfMonth) as real
  }

  /** One entry of the budget status list. */
  datatype Status = Status(category: string, budget: real, spent: real, remaining: real, percentage: Num)

  /** A budget's status: the month's spending in its category (0 when none), what is left,
      and the percentage used rounded to a whole number and not clamped; a zero budget
      shows Infinity when something was spent and NaN when nothing was. */
  function StatusOf(b: Budget, spending: map<string, real>): (s: Status)
    ensures s.category == b.category && s.budget == b.amount
    ensures s.spent == SpentOr0(spending, b.category)
    ensures s.remaining + s.spent == b.amount
    ensures b.amount != 0.0 ==> (s.percentage.Finite? && s.percentage.v == s.percentage.v.Floor as real
      && s.percentage.v - 0.5 <= s.spent / b.amount * 100.0 < s.percentage.v + 0.5)
    ensures b.amount == 0.0 ==> ((s.percentage == PosInf <==> s.spent > 0.0)
      && (s.percentage == NegInf <==> s.spent < 0.0) && (s.percentage == NaN <==> s.spent == 0.0))
  {
    var spent := SpentOr0(spending, b.category);
    Status(b.category, b.amount, spent, b.amount - spent, Round(Percent(spent, b.amount)))
  }

  /** `budgets.map(...)`: one status per budget, in the budgets' order. */
  function BudgetStatus(budgets: seq<Budget>, spending: map<string, real>): (r: seq<Status>)
    ensures |r| == |budgets|
    ensures forall i :: 0 <= i < |r| ==> r[i] == StatusOf(budgets[i], spending)
  {
    seq(|budgets|, i requires 0 <= i < |budgets| => StatusOf(budgets[i], spending))
  }

  /** Over this month's spending map, each status's `spent` is the month's total in that
      budget's category, whether or not anything was spent there. */
  lemma StatusSpent(budgets: seq<Budget>, spending: map<string, real>, month: seq<Expense>, i: int)
    requires SpendingMap(spending, month) && 0 <= i < |budgets|
    ensures BudgetStatus(budgets, spending)[i].spent == SpentIn(month, budgets[i].category)
    ensures BudgetStatus(budgets, spending)[i].remaining == budgets[i].amount - SpentIn(month, budgets[i].category)
  {
    SpentOr0IsSpentIn(spending, month, budgets[i].category);
  }

  /** `status.percentage >= 80`. */
  predicate Alerted(s: Status)
  {
    AtLeast(s.percentage, 80.0)
  }

  /** The alerts are exactly the statuses at or above 80%, in the statuses' order. */
  function BudgetAlerts(statuses: seq<Status>): (r: seq<Status>)
    ensures forall i :: 0 <= i < |r| ==> r[i] in statuses && Alerted(r[i])
    ensures forall i :: 0 <= i < |statuses| && Alerted(statuses[i]) ==> statuses[i] in r
  {
    Filter(Alerted, statuses)
  }

  /** Because the percentage is rounded first, a budget is alerted from 79.5% used; a zero
      budget is alerted as soon as anything is spent. */
  lemma AlertThreshold(b: Budget, spending: map<string, real>)
    ensures var spent := SpentOr0(spending, b.category);
      (b.amount > 0.0 ==> (Alerted(StatusOf(b, spending)) <==> spent * 100.0 >= 79.5 * b.amount))
      && (b.amount < 0.0 ==> (Alerted(StatusOf(b, spending)) <==> spent * 100.0 <= 79.5 * b.amount))
      && (b.amount == 0.0 ==> (Alerted(StatusOf(b, spending)) <==> spent > 0.0))
  {
    var s := StatusOf(b, spending);
    if b.amount != 0.0 {
      RoundedAtLeast80(s.spent / b.amount * 100.0, s.percentage.v);
      PercentAtLeast(s.spent, b.amount, 79.5);
    }
  }

  /** A whole number within half of `x` is at least 80 exactly when `x` is at least 79.5. */
  lemma RoundedAtLeast80(x: real, p: real)
    requires p == p.Floor as real && p - 0.5 <= x < p + 0.5
    ensures p >= 80.0 <==> x >= 79.5
  {
    var k := p.Floor;
    assert p == k as real;
  }

  /** `width: Math.min(status.percentage, 100)%`: the bar stops at 100 while the shown
      percentage does not. */
  function BarWidth(p: Num): (w: Num)
    ensures p.Finite? ==> w.Finite? && w.v <= 100.0 && (p.v <= 100.0 ==> w == p)
    ensures p == PosInf ==> w == Finite(100.0)
  {
    Min(p, 100.0)
  }

  datatype Color = Red | Yellow | Green

  /** The bar is red above 90%, yellow above 70%, green otherwise (NaN included); every
      alerted budget's bar is red or yellow. */
  function BarColor(p: Num): (c: Color)
    ensures c == Red <==> GreaterThan(p, 90.0)
    ensures c == Yellow <==> !GreaterThan(p, 90.0) && GreaterThan(p, 70.0)
    ensures AtLeast(p, 80.0) ==> c != Green
  {
    if GreaterThan(p, 90.0) then Red else if GreaterThan(p, 70.0) then Yellow else Green
  }

  /** Spending twice the budget shows 200% and an alert, while the bar is full at 100%. */
  lemma OverspendShownUnclamped(b: Budget, spending: map<string, real>)
    requires b.amount > 0.0 && SpentOr0(spending, b.category) == 2.0 * b.amount
    ensures StatusOf(b, spending).percentage == Finite(200.0)
    ensures BarWidth(StatusOf(b, spending).percentage) == Finite(100.0)
    ensures Alerted(StatusOf(b, spending)) && BarColor(StatusOf(b, spending).percentage) == Red
  {
    var s := StatusOf(b, spending);
    assert s.spent / b.amount == 2.0;
    var k := s.percentage.v.Floor;
    assert s.percentage.v == k as real;
    assert k == 200;
  }

  /** The (at most) five most recent expenses, newest first: no expense left out is newer
      than any that was kept. */
  method RecentTransactions(expenses: seq<Expense>) returns (r: seq<Expense>)
    ensures |r| == if |expenses| < 5 then |expenses| else 5
    ensures multiset(r) <= multiset(expenses)
    ensures SortedBy(r, NewestFirst)
    ensures forall x, i :: x in multiset(expenses) - multiset(r) && 0 <= i < |r| ==> LexLe(x.date, r[i].date)
  {
    NewestFirstIsPreorder();
    var sorted := SortedCopy(expenses, NewestFirst);
    var n := if |sorted| < 5 then |sorted| else 5;
    r := sorted[..n];
    assert sorted == r + sorted[n..];
    assert multiset(sorted) == multiset(r) + multiset(sorted[n..]);
    SortedPrefix(sorted, NewestFirst, n);
    forall x, i | x in multiset(expenses) - multiset(r) && 0 <= i < |r| ensures LexLe(x.date, r[i].date) {
      assert x in sorted[n..];
      var k :| 0 <= k < |sorted[n..]| && sorted[n..][k] == x;
      NewestFirstMeaning(sorted, i, n + k);
    }
  }

  /** The day strings of the bar chart, oldest first: `dayBefore(k)` is the day `k` days
      before today. */
  function Last7Days(dayBefore: nat -> string): (days: seq<string>)
    ensures |days| == 7 && days[6] == dayBefore(0) && days[0] == dayBefore(6)
    ensures forall i :: 0 <= i < 7 ==> days[i] == dayBefore(6 - i)
  {
    seq(7, i requires 0 <= i < 7 => dayBefore(6 - i))
  }

  function DateOf(e: Expense): string { e.date }

  function OnDay(day: string): Expense -> bool
  {
    (e: Expense) => e.date == day
  }

  /** The total of the expenses dated exactly `day`. */
  function DayTotal(expenses: seq<Expense>, day: string): real
  {
    Total(Filter(OnDay(day), expenses))
  }

  /** A day's bar is the sum of the amounts over the expenses of exactly that date. */
  lemma {:induction false} DayTotalIsSumWhere(expenses: seq<Expense>, day: string)
    ensures DayTotal(expenses, day) == SumWhere(DateOf, Amount, expenses, day)
  {
    if expenses != [] {
      DayTotalIsSumWhere(expenses[1..], day);
      assert expenses == [expenses[0]] + expenses[1..];
    }
  }

  /** The bar data: seven day totals, oldest day first, today last. */
  function BarData(expenses: seq<Expense>, dayBefore: nat -> string): (r: seq<real>)
    ensures |r| == 7
    ensures forall i :: 0 <= i < 7 ==> r[i] == SumWhere(DateOf, Amount, expenses, dayBefore(6 - i))
  {
    var days := Last7Days(dayBefore);
    forall i | 0 <= i < 7 ensures DayTotal(expenses, days[i]) == SumWhere(DateOf, Amount, expenses, days[i]) {
      DayTotalIsSumWhere(expenses, days[i]);
    }
    seq(7, i requires 0 <= i < 7 => DayTotal(expenses, days[i]))
  }

  /** The category boxes, in their fixed order. */
  const BOX_CATEGORIES: seq<string> := ["food", "shopping", "housing", "transportation", "healthcare", "entertainment"]

  /** Each box shows its category's all-time total, 0 when nothing was spent there. */
  function CategoryBoxes(totals: map<string, real>): (r: seq<(string, real)>)
    ensures |r| == |BOX_CATEGORIES|
    ensures forall i :: 0 <= i < |r| ==> r[i] == (BOX_CATEGORIES[i], SpentOr0(totals, BOX_CATEGORIES[i]))
  {
    seq(|BOX_CATEGORIES|, i requires 0 <= i < |BOX_CATEGORIES| => (BOX_CATEGORIES[i], SpentOr0(totals, BOX_CATEGORIES[i])))
  }

  /** Over the all-time spending map, each box shows that category's total. */
  lemma CategoryBoxTotals(totals: map<string, real>, expenses: seq<Expense>, i: int)
    requires SpendingMap(totals, expenses) && 0 <= i < |BOX_CATEGORIES|
    ensures CategoryBoxes(totals)[i].1 == SpentIn(expenses, BOX_CATEGORIES[i])
  {
    SpentOr0IsSpentIn(totals, expenses, BOX_CATEGORIES[i]);
  }

  /** Clicking a box selects its category, or clears the selection when it was already the
      selected one. */
  function Toggle(selected: Option<string>, category: string): (r: Option<string>)
    ensures r.None? <==> selected == Some(category)
    ensures r.Some? ==> r.value == category
  {
    if selected == Some(category) then None else Some(category)
  }

  /** Clicking the same box twice, from no selection or from that box, comes back to where
      it started. */
  lemma ToggleTwice(selected: Option<string>, category: string)
    requires selected.None? || selected == Some(category)
    ensures Toggle(Toggle(selected, category), category) == selected
  {
    assert selected.None? ==> Toggle(selected, category) == Some(category);
  }

  function InCategory(category: string): Expense -> bool
  {
    (e: Expense) => e.category == category
  }

  /** The selected category's expenses, newest first; nothing when no category is selected. */
  method CategoryTransactions(expenses: seq<Expense>, selected: Option<string>) returns (r: seq<Expense>)
    ensures !Truthy(selected) ==> r == []
    ensures Truthy(selected) ==> (multiset(r) == multiset(Filter(InCategory(selected.value), expenses))
      && SortedBy(r, NewestFirst))
    ensures Truthy(selected) ==> forall i :: 0 <= i < |r| ==> r[i] in expenses && r[i].category == selected.value
  {
    if !Truthy(selected) {
      return [];
    }
    var matching := Filter(InCategory(selected.value), expenses);
    NewestFirstIsPreorder();
    r := SortedCopy(matching, NewestFirst);
    forall i | 0 <= i < |r| ensures r[i] in expenses && r[i].category == selected.value {
      assert r[i] in multiset(matching);
    }
  }
}
