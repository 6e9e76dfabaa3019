/** The budget endpoints over the stored budget collection. Every operation is scoped to
    the caller (`req.user.id`), and a caller has at most one budget per category. */
module BudgetController {
  import opened Util
  import opened Models

  /** The replies' messages. */
  const ALREADY_EXISTS: string := "Budget for this category already exists. Use update instead."
  const CREATE_FAILED: string := "Error creating budget"
  const BUDGET_NOT_FOUND: string := "Budget not found for this category"
  const BUDGET_DELETED: string := "Budget deleted successfully"

  /** One entry of the budget summary. */
  datatype SummaryEntry = SummaryEntry(category: string, budgeted: real, spent: real, remaining: real, percentUsed: real)

  /** Selects the caller's budgets. */
  function OwnedBy(owner: ObjectId): BudgetDoc -> bool
  {
    (b: BudgetDoc) => b.userId == owner
  }

  /** Selects the caller's budget in one category. */
  function OwnedIn(owner: ObjectId, category: string): BudgetDoc -> bool
  {
    (b: BudgetDoc) => b.userId == owner && b.category == category
  }

  /** The unique (category, userId) index: no two budgets share both. */
  ghost predicate UniquePerCategory(docs: seq<BudgetDoc>)
  {
    forall i, j :: 0 <= i < j < |docs| ==> !(docs[i].userId == docs[j].userId && docs[i].category == docs[j].category)
  }

  /** A budget whose owner has none in its category can be added without breaking the index. */
  lemma AppendKeepsUnique(docs: seq<BudgetDoc>, d: BudgetDoc)
    requires UniquePerCategory(docs)
    requires forall i :: 0 <= i < |docs| ==> !(docs[i].userId == d.userId && docs[i].category == d.category)
    ensures UniquePerCategory(docs + [d])
  {
    var all := docs + [d];
    forall i, j | 0 <= i < j < |all| ensures !(all[i].userId == all[j].userId && all[i].category == all[j].category) {
      assert all[i] == docs[i];
    }
  }

  /** The stored budget collection; `nextId` is the next fresh document id. */
  class BudgetStore {
    var docs: seq<BudgetDoc>
    var nextId: nat

    /** Fresh ids have never been used, categories are enumerated, and the unique index holds. */
    ghost predicate Valid()
      reads this
    {
      UniquePerCategory(docs)
      && (forall i :: 0 <= i < |docs| ==> docs[i].category in CATEGORY_ENUM)
      && (forall i :: 0 <= i < |docs| ==> docs[i].id.value < nextId)
    }

    constructor ()
      ensures Valid() && docs == []
    {
      docs := [];
      nextId := 0;
    }

    /** getBudgets: exactly the caller's budgets, in stored order. */
    method GetBudgets(caller: ObjectId) returns (r: Response<seq<BudgetDoc>>)
      ensures r.Ok?
      ensures forall i :: 0 <= i < |r.body| ==> r.body[i].userId == caller && r.body[i] in docs
      ensures forall i :: 0 <= i < |docs| && docs[i].userId == caller ==> docs[i] in r.body
    {
      r := Ok(Filter(OwnedBy(caller), docs));
    }

    /** createBudget: 400 and no change when the caller already has a budget in that category;
        500 and no change when the schema rejects the budget; otherwise one new budget owned
        by the caller is added and returned with 201. */
    method Create(caller: ObjectId, category: string, amount: Option<real>) returns (r: Response<BudgetDoc>)
      requires Valid()
      modifies this
      ensures Valid()
      ensures (exists i :: 0 <= i < |old(docs)| && old(docs)[i].userId == caller && old(docs)[i].category == category) ==>
        r == BadRequest(ALREADY_EXISTS) && docs == old(docs)
      ensures r.Created? <==> (forall i :: 0 <= i < |old(docs)| ==> !(old(docs)[i].userId == caller && old(docs)[i].category == category))
                              && category in CATEGORY_ENUM && amount.Some?
      ensures r.Created? ==> r.body == BudgetDoc(ObjectId(old(nextId)), category, amount.value, caller) && docs == old(docs) + [r.body]
      ensures !r.Created? ==> docs == old(docs)
      ensures ((forall i :: 0 <= i < |old(docs)| ==> !(old(docs)[i].userId == caller && old(docs)[i].category == category))
               && !(category in CATEGORY_ENUM && amount.Some?)) ==> r == ServerError(CREATE_FAILED)
      ensures r.ServerError? ==> r.message == CREATE_FAILED
    {
      var existing := FirstIndex(OwnedIn(caller, category), docs);
      if existing.Some? {
        return BadRequest(ALREADY_EXISTS);
      }
      var doc := NewBudget(ObjectId(nextId), caller, category, amount);
      if doc.None? {
        return ServerError(CREATE_FAILED);
      }
      AppendKeepsUnique(docs, doc.value);
      docs := docs + [doc.value];
      nextId := nextId + 1;
      r := Created(doc.value);
    }

    /** updateBudget: sets the amount of the caller's budget in that category and returns it;
        404 and no change when there is none. A missing amount sets nothing. */
    method Update(caller: ObjectId, category: string, amount: Option<real>) returns (r: Response<BudgetDoc>)
      requires Valid()
      modifies this
      ensures Valid() && |docs| == |old(docs)|
      ensures r.NotFound? <==> forall i :: 0 <= i < |old(docs)| ==> !(old(docs)[i].userId == caller && old(docs)[i].category == category)
      ensures r.NotFound? ==> r.message == BUDGET_NOT_FOUND && docs == old(docs)
      ensures r.Ok? ==> exists k :: (0 <= k < |docs| && old(docs)[k].userId == caller && old(docs)[k].category == category
        && r.body == docs[k] && docs == old(docs)[k := old(docs)[k].(amount := if amount.Some? then amount.value else old(docs)[k].amount)])
      ensures r.Ok? || r.NotFound?
    {
      var found := FirstIndex(OwnedIn(caller, category), docs);
      if found.None? {
        return NotFound(BUDGET_NOT_FOUND);
      }
      var k := found.value;
      var updated := docs[k].(amount := if amount.Some? then amount.value else docs[k].amount);
      docs := docs[k := updated];
      r := Ok(updated);
    }

    /** deleteBudget: removes the caller's budget in that category and nothing else;
        404 and no change when there is none. */
    method Delete(caller: ObjectId, category: string) returns (r: Response<string>)
      requires Valid()
      modifies this
      ensures Valid()
      ensures r.NotFound? <==> forall i :: 0 <= i < |old(docs)| ==> !(old(docs)[i].userId == caller && old(docs)[i].category == category)
      ensures r.NotFound? ==> r.message == BUDGET_NOT_FOUND && docs == old(docs)
      ensures r.Ok? ==> (r.body == BUDGET_DELETED
        && exists k :: (0 <= k < |old(docs)| && old(docs)[k].userId == caller && old(docs)[k].category == category
        && docs == old(docs)[..k] + old(docs)[k + 1..]))
      ensures r.Ok? || r.NotFound?
    {
      var found := FirstIndex(OwnedIn(caller, category), docs);
      if found.None? {
        return NotFound(BUDGET_NOT_FOUND);
      }
      var k := found.value;
      docs := docs[..k] + docs[k + 1..];
      r := Ok(BUDGET_DELETED);
    }

    /** getBudgetSummary: one entry per budget of the caller, in stored order, joined with the
        caller's spending in that category within the optional inclusive date bounds. */
    method Summary(caller: ObjectId, expenses: seq<ExpenseDoc>, start: Option<int>, end: Option<int>) returns (r: Response<seq<SummaryEntry>>)
      ensures r.Ok?
      ensures var owned := Filter(OwnedBy(caller), docs);
        var matched := Filter(MatchExpense(caller, start, end), expenses);
        |r.body| == |owned|
        && forall i :: 0 <= i < |owned| ==> r.body[i] == Entry(owned[i], SumWhere(CategoryOfDoc, AmountOfDoc, matched, owned[i].category))
    {
      var matched := Filter(MatchExpense(caller, start, end), expenses);
      var groups := GroupByCategory(matched);
      var spending: map<string, real> := map[];
      var i := 0;
      while i < |groups|
        invariant 0 <= i <= |groups|
        invariant forall c :: c in spending ==> spending[c] == SumWhere(CategoryOfDoc, AmountOfDoc, matched, c)
        invariant forall j :: 0 <= j < i ==> groups[j].category in spending
      {
        spending := spending[groups[i].category := groups[i].total];
        i := i + 1;
      }
      var owned := Filter(OwnedBy(caller), docs);
      forall c | c !in spending
        ensures SumWhere(CategoryOfDoc, AmountOfDoc, matched, c) == 0.0
      {
        AbsentGroupIsZero(matched, c, groups);
      }
      r := Ok(seq(|owned|, k requires 0 <= k < |owned| =>
        Entry(owned[k], if owned[k].category in spending then spending[owned[k].category] else 0.0)));
    }
  }

  /** As written, the budget summary reports nothing spent even when the caller has spent:
      the caller with id 7 (token claim "7") has one 12.0 food expense; the corrected join
      finds it, the written pipeline does not. */
  lemma BudgetSummaryAsWrittenMissesSpending()
    ensures var e := ExpenseDoc(ObjectId(1), "Lunch", 12.0, "food", 0, ObjectId(7));
      SumWhere(CategoryOfDoc, AmountOfDoc, Filter(MatchExpense(ObjectId(7), None, None), [e]), "food") == 12.0
      && SumWhere(CategoryOfDoc, AmountOfDoc, Filter(AggregateMatchAsWritten("7", None, None), [e]), "food") == 0.0
  {
    var e := ExpenseDoc(ObjectId(1), "Lunch", 12.0, "food", 0, ObjectId(7));
    AggregateMatchesNothing("7", None, None, [e]);
    assert Filter(MatchExpense(ObjectId(7), None, None), [e]) == [e];
  }

  /** A category without a group has no matched expense, so nothing was spent in it. */
  lemma AbsentGroupIsZero(matched: seq<ExpenseDoc>, c: string, groups: seq<Group>)
    requires groups == GroupByCategory(matched)
    requires forall j :: 0 <= j < |groups| ==> groups[j].category != c
    ensures SumWhere(CategoryOfDoc, AmountOfDoc, matched, c) == 0.0
  {
    var ks := KeysOf(CategoryOfDoc, matched);
    assert c !in ks;
    forall i | 0 <= i < |matched| ensures CategoryOfDoc(matched[i]) != c {
    }
    SumWhereAbsent(CategoryOfDoc, AmountOfDoc, matched, c);
  }

  /** The summary entry of a budget given what was spent in its category: `remaining` may go
      negative, and `percentUsed` is 0 for an amount of 0 or less, else capped at 100. */
  function Entry(b: BudgetDoc, spent: real): (e: SummaryEntry)
    ensures e.category == b.category && e.budgeted == b.amount && e.spent == spent
    ensures e.remaining == b.amount - spent
    ensures b.amount <= 0.0 ==> e.percentUsed == 0.0
    ensures b.amount > 0.0 ==> (e.percentUsed <= 100.0
      && (spent / b.amount * 100.0 <= 100.0 ==> e.percentUsed == spent / b.amount * 100.0)
      && (spent / b.amount * 100.0 > 100.0 ==> e.percentUsed == 100.0))
  {
    var pct := if b.amount > 0.0 then spent / b.amount * 100.0 else 0.0;
    SummaryEntry(b.category, b.amount, spent, b.amount - spent, if pct < 100.0 then pct else 100.0)
  }

  /** Budgets with nothing spent show it all remaining and 0 percent used; overspending shows a
      negative remainder and a percentage held at 100. */
  lemma EntryEdges(b: BudgetDoc, spent: real)
    ensures Entry(b, 0.0).remaining == b.amount && Entry(b, 0.0).percentUsed == 0.0
    ensures b.amount > 0.0 && spent > b.amount ==> Entry(b, spent).remaining < 0.0 && Entry(b, spent).percentUsed == 100.0
  {
  }
}
