/** The expense endpoints over the stored expense collection, each scoped to the caller. */
module ExpenseController {
  import opened Util
  import opened Sorting
  import opened Models

  /** The replies' messages. */
  const FETCH_FAILED: string := "Error fetching expense"
  const EXPENSE_NOT_FOUND: string := "Expense not found"
  const CREATE_FAILED: string := "Error creating expense"
  const UPDATE_FAILED: string := "Error updating expense"
  const DELETE_FAILED: string := "Error deleting expense"
  const EXPENSE_DELETED: string := "Expense deleted successfully"

  /** Newest first: the later date comes before the earlier one. */
  function NewestFirst(a: ExpenseDoc, b: ExpenseDoc): int
  {
    IntCmp(b.date, a.date)
  }

  /** Largest total first. */
  function LargestTotalFirst(a: Group, b: Group): int
  {
    RealCmp(b.total, a.total)
  }

  lemma NewestFirstIsPreorder()
    ensures TotalPreorder(NewestFirst)
  {
  }

  lemma LargestTotalFirstIsPreorder()
    ensures TotalPreorder(LargestTotalFirst)
  {
  }

  /** Selects the caller's expense with the given id. */
  function OwnedWithId(owner: ObjectId, id: ObjectId): ExpenseDoc -> bool
  {
    (e: ExpenseDoc) => e.id == id && e.userId == owner
  }

  /** Ids are distinct and below the counter, and every stored expense passed the schema. */
  ghost predicate ValidDocs(docs: seq<ExpenseDoc>, nextId: nat)
  {
    (forall i :: 0 <= i < |docs| ==> docs[i].id.value < nextId)
    && (forall i, j :: 0 <= i < j < |docs| ==> docs[i].id != docs[j].id)
    && (forall i :: 0 <= i < |docs| ==> docs[i].category in CATEGORY_ENUM && docs[i].description != "")
  }

  /** A new expense under the counter's id, accepted by the schema, keeps the collection valid
      once the counter moves on. */
  lemma AppendKeepsValid(docs: seq<ExpenseDoc>, nextId: nat, d: ExpenseDoc)
    requires ValidDocs(docs, nextId)
    requires d.id == ObjectId(nextId) && d.category in CATEGORY_ENUM && d.description != ""
    ensures ValidDocs(docs + [d], nextId + 1)
  {
    var all := docs + [d];
    forall i | 0 <= i < |all| ensures all[i].id.value < nextId + 1 && all[i].category in CATEGORY_ENUM && all[i].description != "" {
      if i < |docs| {
        assert all[i] == docs[i];
      }
    }
    forall i, j | 0 <= i < j < |all| ensures all[i].id != all[j].id {
      assert all[i] == docs[i];
    }
  }

  /** Replacing a stored expense by one with the same id that the schema accepts keeps the
      collection valid. */
  lemma ReplaceKeepsValid(docs: seq<ExpenseDoc>, nextId: nat, k: nat, u: ExpenseDoc)
    requires ValidDocs(docs, nextId) && k < |docs|
    requires u.id == docs[k].id && u.category in CATEGORY_ENUM && u.description != ""
    ensures ValidDocs(docs[k := u], nextId)
  {
  }

  /** Removing one stored expense keeps the collection valid. */
  lemma RemoveKeepsValid(docs: seq<ExpenseDoc>, nextId: nat, k: nat)
    requires ValidDocs(docs, nextId) && k < |docs|
    ensures ValidDocs(docs[..k] + docs[k + 1..], nextId)
  {
    var rest := docs[..k] + docs[k + 1..];
    assert forall i :: 0 <= i < |rest| ==> rest[i] == if i < k then docs[i] else docs[i + 1];
  }

  /** The stored expense collection; `nextId` is the next fresh document id. */
  class ExpenseStore {
    var docs: seq<ExpenseDoc>
    var nextId: nat

    ghost predicate Valid()
      reads this
    {
      ValidDocs(docs, nextId)
    }

    constructor ()
      ensures Valid() && docs == []
    {
      docs := [];
      nextId := 0;
    }

    /** getExpenses: the caller's expenses within the optional inclusive bounds, newest first. */
    method GetExpenses(caller: ObjectId, start: Option<int>, end: Option<int>) returns (r: Response<seq<ExpenseDoc>>)
      ensures r.Ok?
      ensures multiset(r.body) == multiset(Filter(MatchExpense(caller, start, end), docs))
      ensures forall i :: 0 <= i < |r.body| ==> r.body[i].userId == caller && InWindow(r.body[i].date, start, end)
      ensures forall i, j :: 0 <= i < j < |r.body| ==> r.body[i].date >= r.body[j].date
    {
      var matched := Filter(MatchExpense(caller, start, end), docs);
      NewestFirstIsPreorder();
      var sorted := SortedCopy(matched, NewestFirst);
      forall i | 0 <= i < |sorted| ensures sorted[i].userId == caller && InWindow(sorted[i].date, start, end) {
        assert sorted[i] in multiset(matched);
      }
      r := Ok(sorted);
    }

    /** getExpenseById: the caller's expense with that id; 404 when the id is not the caller's
        or not stored; 500 when the text is not an id at all. */
    method GetById(caller: ObjectId, idText: string, castId: string -> Option<ObjectId>) returns (r: Response<ExpenseDoc>)
      ensures castId(idText).None? ==> r == ServerError(FETCH_FAILED)
      ensures castId(idText).Some? ==>
        (r.Ok? <==> exists i :: 0 <= i < |docs| && docs[i].id == castId(idText).value && docs[i].userId == caller)
      ensures r.Ok? ==> r.body in docs && r.body.id == castId(idText).value && r.body.userId == caller
      ensures castId(idText).Some? ==> r.Ok? || r == NotFound(EXPENSE_NOT_FOUND)
      ensures r.Ok? || r == NotFound(EXPENSE_NOT_FOUND) || r == ServerError(FETCH_FAILED)
    {
      var id := castId(idText);
      if id.None? {
        return ServerError(FETCH_FAILED);
      }
      var found := FirstIndex(OwnedWithId(caller, id.value), docs);
      if found.None? {
        return NotFound(EXPENSE_NOT_FOUND);
      }
      r := Ok(docs[found.value]);
    }

    /** createExpense: a missing date becomes `now`; the new expense is owned by the caller and
        appended with 201; the schema rejecting it answers 500 and stores nothing. */
    method Create(caller: ObjectId, description: Option<string>, amount: Option<real>, category: Option<string>,
                  date: Option<int>, now: int) returns (r: Response<ExpenseDoc>)
      requires Valid()
      modifies this
      ensures Valid()
      ensures r.Created? <==> NewExpense(ObjectId(old(nextId)), caller, description, amount, category, date, now).Some?
      ensures r.Created? ==> (r.body == NewExpense(ObjectId(old(nextId)), caller, description, amount, category, date, now).value
        && r.body.userId == caller && r.body.id == ObjectId(old(nextId))
        && r.body.date == (if date.Some? then date.value else now) && docs == old(docs) + [r.body])
      ensures !r.Created? ==> r == ServerError(CREATE_FAILED) && docs == old(docs)
    {
      var doc := NewExpense(ObjectId(nextId), caller, description, amount, category, date, now);
      if doc.None? {
        return ServerError(CREATE_FAILED);
      }
      AppendKeepsValid(docs, nextId, doc.value);
      docs := docs + [doc.value];
      nextId := nextId + 1;
      r := Created(doc.value);
    }

    /** updateExpense: the update validators check the fields that are sent; then the caller's
        expense with that id gets each sent field (the description trimmed) and keeps the rest.
        404 and no change when the caller has no such expense; 500 for a rejected field or an
        id that is not an id. */
    method Update(caller: ObjectId, idText: string, castId: string -> Option<ObjectId>,
                  description: Option<string>, amount: Option<real>, category: Option<string>, date: Option<int>)
      returns (r: Response<ExpenseDoc>)
      requires Valid()
      modifies this
      ensures Valid() && |docs| == |old(docs)|
      ensures !r.Ok? ==> docs == old(docs)
      ensures r.ServerError? <==> castId(idText).None? || !UpdateValid(description, category)
      ensures r.ServerError? ==> r.message == UPDATE_FAILED
      ensures castId(idText).Some? && UpdateValid(description, category) ==>
        (r.NotFound? <==> forall i :: 0 <= i < |old(docs)| ==> !(old(docs)[i].id == castId(idText).value && old(docs)[i].userId == caller))
      ensures r.Ok? || r.NotFound? || r.ServerError?
      ensures r.NotFound? ==> r.message == EXPENSE_NOT_FOUND
      ensures r.Ok? ==> exists k :: (0 <= k < |old(docs)| && old(docs)[k].id == castId(idText).value && old(docs)[k].userId == caller
        && r.body == Updated(old(docs)[k], description, amount, category, date) && docs == old(docs)[k := r.body])
    {
      var id := castId(idText);
      if id.None? || !UpdateValid(description, category) {
        return ServerError(UPDATE_FAILED);
      }
      var found := FirstIndex(OwnedWithId(caller, id.value), docs);
      if found.None? {
        return NotFound(EXPENSE_NOT_FOUND);
      }
      var k := found.value;
      var updated := Updated(docs[k], description, amount, category, date);
      ReplaceKeepsValid(docs, nextId, k, updated);
      docs := docs[k := updated];
      r := Ok(updated);
    }

    /** deleteExpense: removes the caller's expense with that id and nothing else;
        404 and no change when there is none. */
    method Delete(caller: ObjectId, idText: string, castId: string -> Option<ObjectId>) returns (r: Response<string>)
      requires Valid()
      modifies this
      ensures Valid()
      ensures !r.Ok? ==> docs == old(docs)
      ensures castId(idText).None? ==> r == ServerError(DELETE_FAILED)
      ensures castId(idText).Some? ==> r.Ok? || r.NotFound?
      ensures castId(idText).Some? ==>
        (r.NotFound? <==> forall i :: 0 <= i < |old(docs)| ==> !(old(docs)[i].id == castId(idText).value && old(docs)[i].userId == caller))
      ensures r.NotFound? ==> r.message == EXPENSE_NOT_FOUND
      ensures r.Ok? ==> (r.body == EXPENSE_DELETED
        && exists k :: (0 <= k < |old(docs)| && old(docs)[k].id == castId(idText).value && old(docs)[k].userId == caller
        && docs == old(docs)[..k] + old(docs)[k + 1..]))
    {
      var id := castId(idText);
      if id.None? {
        return ServerError(DELETE_FAILED);
      }
      var found := FirstIndex(OwnedWithId(caller, id.value), docs);
      if found.None? {
        return NotFound(EXPENSE_NOT_FOUND);
      }
      var k := found.value;
      RemoveKeepsValid(docs, nextId, k);
      docs := docs[..k] + docs[k + 1..];
      r := Ok(EXPENSE_DELETED);
    }

    /** getExpenseSummary: one group per category among the caller's expenses in the bounds,
        each with its sum and count, largest total first. */
    method Summary(caller: ObjectId, start: Option<int>, end: Option<int>) returns (r: Response<seq<Group>>)
      ensures r.Ok?
      ensures var matched := Filter(MatchExpense(caller, start, end), docs);
        multiset(r.body) == multiset(GroupByCategory(matched))
        && (forall i :: 0 <= i < |r.body| ==> (r.body[i].count > 0
              && r.body[i].total == SumWhere(CategoryOfDoc, AmountOfDoc, matched, r.body[i].category)
              && r.body[i].count == CountWhere(CategoryOfDoc, matched, r.body[i].category)))
        && (forall i, j :: 0 <= i < j < |r.body| ==> r.body[i].total >= r.body[j].total)
        && Sum(GroupCount, r.body) == |matched| as real
    {
      var matched := Filter(MatchExpense(caller, start, end), docs);
      var groups := GroupByCategory(matched);
      LargestTotalFirstIsPreorder();
      var sorted := SortedCopy(groups, LargestTotalFirst);
      forall i | 0 <= i < |sorted|
        ensures sorted[i].count > 0
        ensures sorted[i].total == SumWhere(CategoryOfDoc, AmountOfDoc, matched, sorted[i].category)
        ensures sorted[i].count == CountWhere(CategoryOfDoc, matched, sorted[i].category)
      {
        assert sorted[i] in multiset(groups);
        var j :| 0 <= j < |groups| && groups[j] == sorted[i];
        GroupsNonEmpty(matched, j);
      }
      GroupsPartition(matched);
      SumPermutation(GroupCount, groups, sorted);
      r := Ok(sorted);
    }
  }

  /** As written, the expense summary is empty for every caller, since its pipeline matches
      nothing; the corrected one has a group for each category the caller spent in. */
  lemma ExpenseSummaryAsWrittenEmpty(callerText: string, start: Option<int>, end: Option<int>, es: seq<ExpenseDoc>)
    ensures GroupByCategory(Filter(AggregateMatchAsWritten(callerText, start, end), es)) == []
    ensures var e := ExpenseDoc(ObjectId(1), "Lunch", 12.0, "food", 0, ObjectId(7));
      GroupByCategory(Filter(MatchExpense(ObjectId(7), None, None), [e])) == [Group("food", 12.0, 1)]
  {
    AggregateMatchesNothing(callerText, start, end, es);
    var e := ExpenseDoc(ObjectId(1), "Lunch", 12.0, "food", 0, ObjectId(7));
    assert Filter(MatchExpense(ObjectId(7), None, None), [e]) == [e];
    assert [e][..0] == [];
    assert KeysOf(CategoryOfDoc, [e]) == ["food"];
    assert [e][1..] == [];
    assert SumWhere(CategoryOfDoc, AmountOfDoc, [e], "food") == 12.0;
    assert CountWhere(CategoryOfDoc, [e], "food") == 1;
    var gs := GroupByCategory([e]);
    assert |gs| == 1 && gs[0] == Group("food", 12.0, 1);
  }

  /** The sent fields pass the update validators: a sent description must not trim to nothing,
      a sent category must be enumerated. */
  predicate UpdateValid(description: Option<string>, category: Option<string>)
  {
    (description.None? || Trim(description.value) != "") && (category.None? || category.value in CATEGORY_ENUM)
  }

  /** An expense with the sent fields replaced; unsent fields stay as they were. */
  function Updated(e: ExpenseDoc, description: Option<string>, amount: Option<real>, category: Option<string>, date: Option<int>): (u: ExpenseDoc)
    ensures u.id == e.id && u.userId == e.userId
    ensures u.description == (if description.Some? then Trim(description.value) else e.description)
    ensures u.amount == (if amount.Some? then amount.value else e.amount)
    ensures u.category == (if category.Some? then category.value else e.category)
    ensures u.date == (if date.Some? then date.value else e.date)
  {
    e.(description := if description.Some? then Trim(description.value) else e.description,
       amount := if amount.Some? then amount.value else e.amount,
       category := if category.Some? then category.value else e.category,
       date := if date.Some? then date.value else e.date)
  }
}
