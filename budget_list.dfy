/** The budget list: this month's bounds, spending per category, the alerts, and each
    budget's card (spent, remaining, the clamped percentage, the over-budget and near-limit
    flags and the bar colour). The current year and month and the month's last day are
    parameters. */
module BudgetList {
  import opened Util
  import opened Types
  import opened Views
  import opened Dates
  import Dashboard

  /** `${currentYear}-${currentMonth.toString().padStart(2, '0')}-01`: the first day of the
      month, as the ISO day string of that day. */
  function StartOfMonth(year: nat, month: nat): string
  {
    Decimal(year) + "-" + Pad2(Decimal(month)) + "-01"
  }

  /** For a four-digit year and a calendar month, the first day of the month is the ISO day
      string of that day. */
  lemma StartOfMonthIsDayString(year: nat, month: nat)
    requires 1000 <= year < 10000 && 1 <= month <= 12
    ensures StartOfMonth(year, month) == DayString(year, month, 1)
  {
    DecimalIsDigits(year, 4);
    PaddedMonth(month);
    assert Pow10(3) == 1000 && Pow10(4) == 10000;
    assert Digits(1, 2) == "01" by {
      assert Digits(0, 1) == Digits(0, 0) + [Digit(0)];
    }
    assert "-01" == ['-'] + Digits(1, 2);
  }

  /** The month filter keeps exactly the days of this month up to its last day: the string
      comparison is the calendar comparison. */
  lemma MonthWindow(year: nat, month: nat, last: nat, y: nat, m: nat, d: nat)
    requires 1000 <= year < 10000 && 1 <= month <= 12 && last < 100
    requires y < 10000 && m < 100 && d < 100
    ensures InRange(DayString(y, m, d), StartOfMonth(year, month), DayString(year, month, last))
      <==> y == year && m == month && 1 <= d <= last
  {
    StartOfMonthIsDayString(year, month);
    DayStringOrder(y, m, d, year, month, 1);
    DayStringOrder(year, month, last, y, m, d);
  }

  /** `(spent / budget.amount) * 100 >= 80`, before any rounding. */
  predicate Alerted(b: Budget, spending: map<string, real>)
  {
    AtLeast(Percent(SpentOr0(spending, b.category), b.amount), 80.0)
  }

  /** The alerted budgets, in the budgets' order. */
  function BudgetAlerts(budgets: seq<Budget>, spending: map<string, real>): (r: seq<Budget>)
    ensures forall i :: 0 <= i < |r| ==> r[i] in budgets && Alerted(r[i], spending)
    ensures forall i :: 0 <= i < |budgets| && Alerted(budgets[i], spending) ==> budgets[i] in r
  {
    Filter((b: Budget) => Alerted(b, spending), budgets)
  }

  /** A budget is alerted once 80% of it is spent; a zero budget as soon as anything is. */
  lemma AlertThreshold(b: Budget, spending: map<string, real>)
    ensures var spent := SpentOr0(spending, b.category);
      (b.amount > 0.0 ==> (Alerted(b, spending) <==> spent * 100.0 >= 80.0 * b.amount))
      && (b.amount < 0.0 ==> (Alerted(b, spending) <==> spent * 100.0 <= 80.0 * b.amount))
      && (b.amount == 0.0 ==> (Alerted(b, spending) <==> spent > 0.0))
  {
    if b.amount != 0.0 {
      PercentAtLeast(SpentOr0(spending, b.category), b.amount, 80.0);
    }
  }

  datatype BarColor = Rose | Amber | Emerald

  /** What one budget's card shows. */
  datatype Card = Card(spent: real, remaining: real, percentage: Num, isOverBudget: bool, isNearLimit: bool, color: BarColor)

  /** A budget's card: the spending in its category (0 when none), what remains, the
      percentage rounded and capped at 100, over budget exactly when more than the budget was
      spent, near the limit from a shown 80%, and the bar rose when over, amber when near,
      emerald otherwise. */
  function CardOf(b: Budget, spending: map<string, real>): (c: Card)
    ensures c.spent == SpentOr0(spending, b.category) && c.remaining == b.amount - c.spent
    ensures c.isOverBudget <==> c.spent > b.amount
    ensures c.isNearLimit <==> AtLeast(c.percentage, 80.0)
    ensures b.amount != 0.0 ==> (c.percentage.Finite? && c.percentage.v <= 100.0
      && (Round(Percent(c.spent, b.amount)).v <= 100.0 ==> c.percentage == Round(Percent(c.spent, b.amount)))
      && (Round(Percent(c.spent, b.amount)).v > 100.0 ==> c.percentage == Finite(100.0)))
    ensures b.amount == 0.0 ==> (c.percentage == Finite(100.0) <==> c.spent > 0.0)
    ensures c.color == Rose <==> c.isOverBudget
    ensures c.color == Amber <==> !c.isOverBudget && c.isNearLimit
  {
    var spent := SpentOr0(spending, b.category);
    var percentage := Min(Round(Percent(spent, b.amount)), 100.0);
    var over := spent > b.amount;
    var near := AtLeast(percentage, 80.0);
    Card(spent, b.amount - spent, percentage, over, near, if over then Rose else if near then Amber else Emerald)
  }

  /** Over a positive budget, overspending shows a full, rose bar at 100%. */
  lemma OverBudgetFullBar(b: Budget, spending: map<string, real>)
    requires b.amount > 0.0 && SpentOr0(spending, b.category) > b.amount
    ensures CardOf(b, spending).percentage == Finite(100.0)
    ensures CardOf(b, spending).isNearLimit && CardOf(b, spending).color == Rose
    ensures Alerted(b, spending)
  {
    var spent := SpentOr0(spending, b.category);
    PercentAtLeast(spent, b.amount, 100.0);
    PercentAtLeast(spent, b.amount, 80.0);
    var r := Round(Percent(spent, b.amount));
    assert r.v >= 100.0 by {
      RoundedAtLeast(spent / b.amount * 100.0, r.v, 100);
    }
  }

  /** A whole number within half of `x`, where `x` is at least the whole number `n`, is at
      least `n`. */
  lemma RoundedAtLeast(x: real, p: real, n: int)
    requires p == p.Floor as real && p - 0.5 <= x < p + 0.5 && x >= n as real
    ensures p >= n as real
  {
    var k := p.Floor;
    assert p == k as real;
    assert k as real > n as real - 1.0;
    assert k > n - 1;
  }

  /** 79.6% spent: the card reads 80% and turns amber, yet the budget is not among this
      list's alerts, while the dashboard, which rounds first, does alert it. */
  lemma NearLimitWithoutAlert()
    ensures var b := Budget(None, "food", 1000.0);
      var spending := map["food" := 796.0];
      CardOf(b, spending).percentage == Finite(80.0) && CardOf(b, spending).color == Amber
      && !Alerted(b, spending) && Dashboard.Alerted(Dashboard.StatusOf(b, spending))
  {
    var b := Budget(None, "food", 1000.0);
    var spending := map["food" := 796.0];
    assert SpentOr0(spending, "food") == 796.0;
    assert 796.0 / 1000.0 * 100.0 == 79.6;
    assert (79.6 + 0.5).Floor == 80;
  }
}
