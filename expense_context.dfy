/** The client's mirror of the server data: the reducer over the expense state,
    its initial value, the reshaping of server records into client records, and
    the actions each fetch or mutation dispatches under its sign-in guard. */
module ExpenseContext {
  import opened Util
  import opened Types

  datatype ExpenseState = ExpenseState(
    expenses: seq<Expense>,
    budgets: seq<Budget>,
    dateRange: DateRange,
    isLoading: bool,
    error: Option<string>)

  datatype ExpenseAction =
    | AddExpense(expense: Expense)
    | DeleteExpense(id: string)
    | UpdateExpense(expense: Expense)
    | SetExpenses(expenses: seq<Expense>)
    | AddBudget(budget: Budget)
    | UpdateBudget(budget: Budget)
    | DeleteBudget(category: string)
    | SetBudgets(budgets: seq<Budget>)
    | SetDateRange(range: DateRange)
    | SetLoading(loading: bool)
    | SetError(error: Option<string>)
    | Unknown                          // any other action object: the reducer's default branch

  /** Empty lists, not loading, no error; the range runs from the first of the month to today. */
  function InitialState(monthStart: string, today: string): (s: ExpenseState)
    ensures s.expenses == [] && s.budgets == [] && !s.isLoading && s.error.None?
    ensures s.dateRange.startDate == monthStart && s.dateRange.endDate == today
  {
    ExpenseState([], [], DateRange(monthStart, today), false, None)
  }

  /** Keeps an expense unless it has the given id. */
  function OtherId(id: string): Expense -> bool
  {
    (e: Expense) => e.id != id
  }

  /** Keeps a budget unless it has the given category. */
  function OtherCategory(c: string): Budget -> bool
  {
    (b: Budget) => b.category != c
  }

  /** Every expense with the payload's id replaced by the payload. */
  function ReplaceById(es: seq<Expense>, x: Expense): (r: seq<Expense>)
    ensures |r| == |es|
  {
    seq(|es|, i requires 0 <= i < |es| => if es[i].id == x.id then x else es[i])
  }

  /** Every budget with the payload's category replaced by the payload. */
  function ReplaceByCategory(bs: seq<Budget>, x: Budget): (r: seq<Budget>)
    ensures |r| == |bs|
  {
    seq(|bs|, i requires 0 <= i < |bs| => if bs[i].category == x.category then x else bs[i])
  }

  /** The transition function of the expense state. */
  function Reduce(s: ExpenseState, a: ExpenseAction): ExpenseState
  {
    match a
    case AddExpense(e) => s.(expenses := s.expenses + [e])
    case DeleteExpense(id) => s.(expenses := Filter(OtherId(id), s.expenses))
    case UpdateExpense(e) => s.(expenses := ReplaceById(s.expenses, e))
    case SetExpenses(es) => s.(expenses := es)
    case AddBudget(b) => s.(budgets := s.budgets + [b])
    case UpdateBudget(b) => s.(budgets := ReplaceByCategory(s.budgets, b))
    case DeleteBudget(c) => s.(budgets := Filter(OtherCategory(c), s.budgets))
    case SetBudgets(bs) => s.(budgets := bs)
    case SetDateRange(r) => s.(dateRange := r)
    case SetLoading(l) => s.(isLoading := l)
    case SetError(e) => s.(error := e)
    case Unknown => s
  }

  /** The state after dispatching `actions` in order. */
  function Run(s: ExpenseState, actions: seq<ExpenseAction>): ExpenseState
    decreases |actions|
  {
    if actions == [] then s else Run(Reduce(s, actions[0]), actions[1..])
  }

  /** Dispatching three or four actions is applying them one after another. */
  lemma RunSteps(s: ExpenseState, a: ExpenseAction, b: ExpenseAction, c: ExpenseAction, d: ExpenseAction)
    ensures Run(s, [a, b, c]) == Reduce(Reduce(Reduce(s, a), b), c)
    ensures Run(s, [a, b, c, d]) == Reduce(Reduce(Reduce(Reduce(s, a), b), c), d)
  {
    var s1, s2, s3 := Reduce(s, a), Reduce(Reduce(s, a), b), Reduce(Reduce(Reduce(s, a), b), c);
    assert [a, b, c][1..] == [b, c] && [b, c][1..] == [c] && [c][1..] == [];
    assert Run(s3, []) == s3;
    assert Run(s2, [c]) == s3;
    assert Run(s1, [b, c]) == s3;
    assert [a, b, c, d][1..] == [b, c, d] && [b, c, d][1..] == [c, d] && [c, d][1..] == [d] && [d][1..] == [];
    assert Run(s3, [d]) == Reduce(s3, d);
    assert Run(s2, [c, d]) == Reduce(s3, d);
    assert Run(s1, [b, c, d]) == Reduce(s3, d);
  }

  lemma {:induction false} RunAppend(s: ExpenseState, xs: seq<ExpenseAction>, ys: seq<ExpenseAction>)
    ensures Run(s, xs + ys) == Run(Run(s, xs), ys)
    decreases |xs|
  {
    if xs == [] {
      assert xs + ys == ys;
    } else {
      assert (xs + ys)[1..] == xs[1..] + ys;
      RunAppend(Reduce(s, xs[0]), xs[1..], ys);
    }
  }

  // ---------------------------------------------------------------------
  // The reducer's properties

  /** Adding appends at the end; everything before is unchanged and in order. */
  lemma AddExpenseAppends(s: ExpenseState, e: Expense)
    ensures var r := Reduce(s, AddExpense(e));
      |r.expenses| == |s.expenses| + 1 && r.expenses[..|s.expenses|] == s.expenses
      && r.expenses[|s.expenses|] == e && r == s.(expenses := r.expenses)
  {
  }

  /** Deleting removes every expense with that id, keeps every other one, and keeps
      the survivors in their order (deleting from a concatenation deletes from each part). */
  lemma DeleteExpenseRemoves(s: ExpenseState, id: string, xs: seq<Expense>, ys: seq<Expense>)
    requires s.expenses == xs + ys
    ensures var r := Reduce(s, DeleteExpense(id));
      (forall i :: 0 <= i < |r.expenses| ==> r.expenses[i].id != id && r.expenses[i] in s.expenses)
      && (forall i :: 0 <= i < |s.expenses| && s.expenses[i].id != id ==> s.expenses[i] in r.expenses)
      && r.expenses == Reduce(s.(expenses := xs), DeleteExpense(id)).expenses + Reduce(s.(expenses := ys), DeleteExpense(id)).expenses
      && r == s.(expenses := r.expenses)
  {
    FilterAppend(OtherId(id), xs, ys);
  }

  /** Deleting the same id twice is deleting it once. */
  lemma DeleteExpenseIdempotent(s: ExpenseState, id: string)
    ensures Reduce(Reduce(s, DeleteExpense(id)), DeleteExpense(id)) == Reduce(s, DeleteExpense(id))
  {
    FilterIdempotent(OtherId(id), s.expenses);
  }

  /** Updating replaces exactly the expenses with the payload's id; the length is kept. */
  lemma UpdateExpenseReplaces(s: ExpenseState, e: Expense)
    ensures var r := Reduce(s, UpdateExpense(e));
      |r.expenses| == |s.expenses|
      && (forall i :: 0 <= i < |s.expenses| && s.expenses[i].id == e.id ==> r.expenses[i] == e)
      && (forall i :: 0 <= i < |s.expenses| && s.expenses[i].id != e.id ==> r.expenses[i] == s.expenses[i])
      && r == s.(expenses := r.expenses)
  {
  }

  /** Updating with an id nobody has changes nothing. */
  lemma UpdateUnknownIdNoChange(s: ExpenseState, e: Expense)
    requires forall i :: 0 <= i < |s.expenses| ==> s.expenses[i].id != e.id
    ensures Reduce(s, UpdateExpense(e)) == s
  {
  }

  /** Budgets are matched on their category: an update replaces every budget of the payload's
      category whatever its id, and leaves a budget of another category alone even when it
      carries the payload's id. */
  lemma UpdateBudgetByCategory(s: ExpenseState, b: Budget)
    ensures var r := Reduce(s, UpdateBudget(b));
      |r.budgets| == |s.budgets|
      && (forall i :: 0 <= i < |s.budgets| ==> r.budgets[i] == if s.budgets[i].category == b.category then b else s.budgets[i])
      && r == s.(budgets := r.budgets)
  {
  }

  /** Deleting a budget removes every budget of that category and keeps all others. */
  lemma DeleteBudgetByCategory(s: ExpenseState, c: string)
    ensures var r := Reduce(s, DeleteBudget(c));
      (forall i :: 0 <= i < |r.budgets| ==> r.budgets[i].category != c && r.budgets[i] in s.budgets)
      && (forall i :: 0 <= i < |s.budgets| && s.budgets[i].category != c ==> s.budgets[i] in r.budgets)
      && r == s.(budgets := r.budgets)
  {
  }

  /** Adding a budget does not look for one in the same category: it can leave two. */
  lemma AddBudgetAllowsDuplicate(s: ExpenseState, b: Budget, k: nat)
    requires k < |s.budgets| && s.budgets[k].category == b.category
    ensures var r := Reduce(s, AddBudget(b));
      r.budgets == s.budgets + [b] && k < |s.budgets| < |r.budgets|
      && r.budgets[k].category == r.budgets[|s.budgets|].category
  {
  }

  /** Each SET action changes its own field only, and an unknown action changes nothing. */
  lemma SetActionsOwnField(s: ExpenseState, es: seq<Expense>, bs: seq<Budget>, d: DateRange, l: bool, e: Option<string>)
    ensures Reduce(s, SetExpenses(es)) == s.(expenses := es)
    ensures Reduce(s, SetBudgets(bs)) == s.(budgets := bs)
    ensures Reduce(s, SetDateRange(d)) == s.(dateRange := d)
    ensures Reduce(s, SetLoading(l)) == s.(isLoading := l)
    ensures Reduce(s, SetError(e)) == s.(error := e)
    ensures Reduce(s, Unknown) == s
  {
  }

  // ---------------------------------------------------------------------
  // Server records

  /** An expense as the server sends it; its date is an ISO timestamp `yyyy-MM-ddTHH:mm:ss.sssZ`. */
  datatype ServerExpense = ServerExpense(_id: string, description: string, amount: real, category: string, date: string)

  datatype ServerBudget = ServerBudget(_id: string, category: string, amount: real)

  /** The part of an ISO timestamp before the first `T`. */
  function DatePart(iso: string): (d: string)
    ensures 'T' !in d
    ensures StartsWith(iso, d)
  {
    DatePartSplit(iso);
    Split(iso, 'T')[0]
  }

  lemma {:induction false} DatePartSplit(iso: string)
    ensures 'T' !in Split(iso, 'T')[0]
    ensures StartsWith(iso, Split(iso, 'T')[0])
  {
    if iso != [] {
      DatePartSplit(iso[1..]);
      if iso[0] != 'T' {
        var rest := Split(iso[1..], 'T');
        assert Split(iso, 'T')[0] == [iso[0]] + rest[0];
      }
    }
  }

  /** The day of a timestamp `day + "T" + time` is `day`, and a day is its own date part. */
  lemma DatePartOfTimestamp(day: string, time: string)
    requires 'T' !in day
    ensures DatePart(day + "T" + time) == day
    ensures DatePart(DatePart(day + "T" + time)) == day
  {
    SplitAtSep(day, 'T', time);
    SplitNoSep(day, 'T');
  }

  /** A server expense as the client keeps it: the id from `_id`, the date cut to its day. */
  function ToClientExpense(x: ServerExpense): (e: Expense)
    ensures e.id == x._id && e.description == x.description && e.amount == x.amount && e.category == x.category
    ensures e.date == DatePart(x.date) && 'T' !in e.date
  {
    Expense(x._id, x.description, x.amount, x.category, DatePart(x.date))
  }

  function ToClientBudget(x: ServerBudget): (b: Budget)
    ensures b.id == Some(x._id) && b.category == x.category && b.amount == x.amount
  {
    Budget(Some(x._id), x.category, x.amount)
  }

  function ToClientExpenses(xs: seq<ServerExpense>): (es: seq<Expense>)
    ensures |es| == |xs| && forall i :: 0 <= i < |xs| ==> es[i] == ToClientExpense(xs[i])
  {
    seq(|xs|, i requires 0 <= i < |xs| => ToClientExpense(xs[i]))
  }

  function ToClientBudgets(xs: seq<ServerBudget>): (bs: seq<Budget>)
    ensures |bs| == |xs| && forall i :: 0 <= i < |xs| ==> bs[i] == ToClientBudget(xs[i])
  {
    seq(|xs|, i requires 0 <= i < |xs| => ToClientBudget(xs[i]))
  }

  // ---------------------------------------------------------------------
  // Fetches and mutations: what each dispatches

  /** What a request came back with: a payload, or a failure (a non-OK status or a thrown
      error) carrying the thrown error's message when it has one. */
  datatype Outcome<T> = Done(value: T) | Failed(message: Option<string>)

  /** A fetch of the expenses: nothing at all without a session and a token; otherwise
      loading, then the list or an error, then done loading. */
  function FetchExpenses(auth: AuthState, reply: Outcome<seq<ServerExpense>>): (acts: seq<ExpenseAction>)
    ensures !auth.isAuthenticated || !Truthy(auth.token) ==> acts == []
    ensures auth.isAuthenticated && Truthy(auth.token) ==>
      |acts| == 3 && acts[0] == SetLoading(true) && acts[2] == SetLoading(false)
      && acts[1] == (if reply.Done? then SetExpenses(ToClientExpenses(reply.value)) else SetError(Some("Failed to load expenses")))
  {
    if !auth.isAuthenticated || !Truthy(auth.token) then []
    else
      [SetLoading(true),
       if reply.Done? then SetExpenses(ToClientExpenses(reply.value)) else SetError(Some("Failed to load expenses")),
       SetLoading(false)]
  }

  function FetchBudgets(auth: AuthState, reply: Outcome<seq<ServerBudget>>): (acts: seq<ExpenseAction>)
    ensures !auth.isAuthenticated || !Truthy(auth.token) ==> acts == []
    ensures auth.isAuthenticated && Truthy(auth.token) ==>
      |acts| == 3 && acts[0] == SetLoading(true) && acts[2] == SetLoading(false)
      && acts[1] == (if reply.Done? then SetBudgets(ToClientBudgets(reply.value)) else SetError(Some("Failed to load budgets")))
  {
    if !auth.isAuthenticated || !Truthy(auth.token) then []
    else
      [SetLoading(true),
       if reply.Done? then SetBudgets(ToClientBudgets(reply.value)) else SetError(Some("Failed to load budgets")),
       SetLoading(false)]
  }

  /** A completed fetch ends not loading; on success the list is the reshaped reply and the
      error is untouched, on failure the list is untouched and the error is set. */
  lemma FetchExpensesEffect(s: ExpenseState, auth: AuthState, reply: Outcome<seq<ServerExpense>>)
    requires auth.isAuthenticated && Truthy(auth.token)
    ensures var r := Run(s, FetchExpenses(auth, reply));
      !r.isLoading && r.budgets == s.budgets && r.dateRange == s.dateRange
      && (reply.Done? ==> r.expenses == ToClientExpenses(reply.value) && r.error == s.error)
      && (reply.Failed? ==> r.expenses == s.expenses && r.error == Some("Failed to load expenses"))
  {
    var acts := FetchExpenses(auth, reply);
    RunSteps(s, acts[0], acts[1], acts[2], acts[2]);
    assert acts == [acts[0], acts[1], acts[2]];
  }

  /** The result of a mutation and the actions it dispatched. */
  datatype Mutation = Mutation(ok: bool, actions: seq<ExpenseAction>)

  /** Shared shape of the expense mutations: refused without a session; otherwise loading,
      then the success action or the error, then done loading. */
  function Mutate(signedIn: bool, success: Option<ExpenseAction>, failure: string, clearFirst: bool): (m: Mutation)
    ensures !signedIn ==> m == Mutation(false, [])
    ensures signedIn ==> m.ok == success.Some?
    ensures signedIn ==> (m.actions ==
      (if clearFirst then [SetLoading(true), SetError(None)] else [SetLoading(true)])
      + [if success.Some? then success.value else SetError(Some(failure)), SetLoading(false)])
  {
    if !signedIn then Mutation(false, [])
    else
      var pre := if clearFirst then [SetLoading(true), SetError(None)] else [SetLoading(true)];
      var mid := if success.Some? then success.value else SetError(Some(failure));
      Mutation(success.Some?, pre + [mid, SetLoading(false)])
  }

  /** addExpense: the saved record is appended. */
  function AddExpenseCall(auth: AuthState, reply: Outcome<ServerExpense>): (m: Mutation)
    ensures !auth.isAuthenticated ==> m == Mutation(false, [])
    ensures auth.isAuthenticated ==> (m.ok <==> reply.Done?)
  {
    Mutate(auth.isAuthenticated,
      if reply.Done? then Some(AddExpense(ToClientExpense(reply.value))) else None,
      "Failed to add expense", false)
  }

  /** deleteExpense: removes the id that was asked for. */
  function DeleteExpenseCall(auth: AuthState, id: string, reply: Outcome<()>): (m: Mutation)
    ensures !auth.isAuthenticated ==> m == Mutation(false, [])
    ensures auth.isAuthenticated ==> (m.ok <==> reply.Done?)
  {
    Mutate(auth.isAuthenticated, if reply.Done? then Some(DeleteExpense(id)) else None, "Failed to delete expense", false)
  }

  /** updateExpense: replaces by the id of the record the server sent back. */
  function UpdateExpenseCall(auth: AuthState, reply: Outcome<ServerExpense>): (m: Mutation)
    ensures !auth.isAuthenticated ==> m == Mutation(false, [])
    ensures auth.isAuthenticated ==> (m.ok <==> reply.Done?)
  {
    Mutate(auth.isAuthenticated,
      if reply.Done? then Some(UpdateExpense(ToClientExpense(reply.value))) else None,
      "Failed to update expense", false)
  }

  /** The error a failed budget mutation records: the server's or thrown message, else a default. */
  function BudgetFailure<T>(reply: Outcome<T>, fallback: string): string
  {
    if reply.Failed? then OrDefault(reply.message, fallback) else fallback
  }

  /** addBudget: refused also when no user is held; clears the error first. */
  function AddBudgetCall(auth: AuthState, reply: Outcome<ServerBudget>): (m: Mutation)
    ensures !auth.isAuthenticated || auth.user.None? ==> m == Mutation(false, [])
    ensures auth.isAuthenticated && auth.user.Some? ==> (m.ok <==> reply.Done?) && |m.actions| == 4 && m.actions[1] == SetError(None)
  {
    Mutate(auth.isAuthenticated && auth.user.Some?,
      if reply.Done? then Some(AddBudget(ToClientBudget(reply.value))) else None,
      BudgetFailure(reply, "Failed to add budget"), true)
  }

  function UpdateBudgetCall(auth: AuthState, reply: Outcome<ServerBudget>): (m: Mutation)
    ensures !auth.isAuthenticated ==> m == Mutation(false, [])
    ensures auth.isAuthenticated ==> (m.ok <==> reply.Done?) && |m.actions| == 4 && m.actions[1] == SetError(None)
  {
    Mutate(auth.isAuthenticated,
      if reply.Done? then Some(UpdateBudget(ToClientBudget(reply.value))) else None,
      BudgetFailure(reply, "Failed to update budget"), true)
  }

  function DeleteBudgetCall(auth: AuthState, category: string, reply: Outcome<()>): (m: Mutation)
    ensures !auth.isAuthenticated ==> m == Mutation(false, [])
    ensures auth.isAuthenticated ==> (m.ok <==> reply.Done?) && |m.actions| == 4 && m.actions[1] == SetError(None)
  {
    Mutate(auth.isAuthenticated, if reply.Done? then Some(DeleteBudget(category)) else None,
      BudgetFailure(reply, "Failed to delete budget"), true)
  }

  /** A successful addExpense ends with the saved record appended and not loading; a failed
      one leaves the list alone and records its error. */
  lemma AddExpenseCallEffect(s: ExpenseState, auth: AuthState, reply: Outcome<ServerExpense>)
    requires auth.isAuthenticated
    ensures var r := Run(s, AddExpenseCall(auth, reply).actions);
      !r.isLoading && r.budgets == s.budgets
      && (reply.Done? ==> r.expenses == s.expenses + [ToClientExpense(reply.value)] && r.error == s.error)
      && (reply.Failed? ==> r.expenses == s.expenses && r.error == Some("Failed to add expense"))
  {
    var acts := AddExpenseCall(auth, reply).actions;
    RunSteps(s, acts[0], acts[1], acts[2], acts[2]);
    assert acts == [acts[0], acts[1], acts[2]];
  }

  /** A successful deleteExpense leaves no expense with that id and keeps the others in order;
      a failed one keeps the list and records its message; neither is left loading. */
  lemma DeleteExpenseCallEffect(s: ExpenseState, auth: AuthState, id: string, reply: Outcome<()>)
    requires auth.isAuthenticated
    ensures var r := Run(s, DeleteExpenseCall(auth, id, reply).actions);
      !r.isLoading && r.budgets == s.budgets
      && (reply.Done? ==> (r.expenses == Filter(OtherId(id), s.expenses) && r.error == s.error
                           && forall i :: 0 <= i < |r.expenses| ==> r.expenses[i].id != id))
      && (reply.Failed? ==> r.expenses == s.expenses && r.error == Some("Failed to delete expense"))
  {
    var acts := DeleteExpenseCall(auth, id, reply).actions;
    RunSteps(s, acts[0], acts[1], acts[2], acts[2]);
    assert acts == [acts[0], acts[1], acts[2]];
    if reply.Done? {
      var kept := Filter(OtherId(id), s.expenses);
      forall i | 0 <= i < |kept| ensures kept[i].id != id {
        assert OtherId(id)(kept[i]);
      }
    }
  }

  /** A successful updateExpense puts the saved record in place of every expense with its id
      and keeps the length; a failed one keeps the list and records its message. */
  lemma UpdateExpenseCallEffect(s: ExpenseState, auth: AuthState, reply: Outcome<ServerExpense>)
    requires auth.isAuthenticated
    ensures var r := Run(s, UpdateExpenseCall(auth, reply).actions);
      !r.isLoading && r.budgets == s.budgets
      && (reply.Done? ==> (var x := ToClientExpense(reply.value);
                           r.error == s.error && |r.expenses| == |s.expenses|
                           && forall i :: 0 <= i < |s.expenses| ==> r.expenses[i] == (if s.expenses[i].id == x.id then x else s.expenses[i])))
      && (reply.Failed? ==> r.expenses == s.expenses && r.error == Some("Failed to update expense"))
  {
    var acts := UpdateExpenseCall(auth, reply).actions;
    RunSteps(s, acts[0], acts[1], acts[2], acts[2]);
    assert acts == [acts[0], acts[1], acts[2]];
  }

  /** A failed budget mutation shows the server's message when there is one. */
  lemma AddBudgetCallError(s: ExpenseState, auth: AuthState, reply: Outcome<ServerBudget>)
    requires auth.isAuthenticated && auth.user.Some? && reply.Failed?
    ensures var r := Run(s, AddBudgetCall(auth, reply).actions);
      !r.isLoading && r.budgets == s.budgets && r.expenses == s.expenses
      && r.error == Some(OrDefault(reply.message, "Failed to add budget"))
  {
    var acts := AddBudgetCall(auth, reply).actions;
    RunSteps(s, acts[0], acts[1], acts[2], acts[3]);
    assert acts == [acts[0], acts[1], acts[2], acts[3]];
  }

  /** A successful addBudget appends the saved budget and leaves no error behind. */
  lemma AddBudgetCallSuccess(s: ExpenseState, auth: AuthState, reply: Outcome<ServerBudget>)
    requires auth.isAuthenticated && auth.user.Some? && reply.Done?
    ensures var r := Run(s, AddBudgetCall(auth, reply).actions);
      !r.isLoading && r.budgets == s.budgets + [ToClientBudget(reply.value)] && r.error == None
  {
    var acts := AddBudgetCall(auth, reply).actions;
    RunSteps(s, acts[0], acts[1], acts[2], acts[3]);
    assert acts == [acts[0], acts[1], acts[2], acts[3]];
  }

  /** Without a session nothing is dispatched, whatever the server would have answered, so
      no fetch and no mutation changes the state, and every mutation reports `false`. */
  lemma SignedOutNoChange(s: ExpenseState, auth: AuthState, es: Outcome<seq<ServerExpense>>, bs: Outcome<seq<ServerBudget>>,
                          e: Outcome<ServerExpense>, b: Outcome<ServerBudget>, done: Outcome<()>, id: string, category: string)
    requires !auth.isAuthenticated
    ensures Run(s, FetchExpenses(auth, es)) == s && Run(s, FetchBudgets(auth, bs)) == s
    ensures Run(s, AddExpenseCall(auth, e).actions) == s && !AddExpenseCall(auth, e).ok
    ensures Run(s, UpdateExpenseCall(auth, e).actions) == s && !UpdateExpenseCall(auth, e).ok
    ensures Run(s, DeleteExpenseCall(auth, id, done).actions) == s && !DeleteExpenseCall(auth, id, done).ok
    ensures Run(s, AddBudgetCall(auth, b).actions) == s && !AddBudgetCall(auth, b).ok
    ensures Run(s, UpdateBudgetCall(auth, b).actions) == s && !UpdateBudgetCall(auth, b).ok
    ensures Run(s, DeleteBudgetCall(auth, category, done).actions) == s && !DeleteBudgetCall(auth, category, done).ok
  {
  }
}
