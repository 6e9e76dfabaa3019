/** The server's stored records and the schema rules the document layer enforces when a
    record is created: required fields, trimming and lower-casing setters, the category
    enumeration, defaults; plus the HTTP replies the controllers send. */
module Models {
  import opened Util
  import Types

  /** A document id. Fresh ids are drawn from a counter, so an id never seen before is one
      at or above the counter. */
  datatype ObjectId = ObjectId(value: nat)

  /** The enumeration both the expense and the budget schema give for `category`. */
  const CATEGORY_ENUM: seq<string> :=
    ["food", "transportation", "housing", "utilities", "entertainment",
     "healthcare", "education", "shopping", "travel", "other"]

  /** The server's category enumeration is the client's category list, in the same order. */
  lemma EnumMatchesClient()
    ensures CATEGORY_ENUM == Types.CategoryNames()
    ensures forall c: Types.Category :: Types.Name(c) in CATEGORY_ENUM
  {
    forall c: Types.Category ensures Types.Name(c) in CATEGORY_ENUM {
      Types.CategoriesComplete(c);
    }
  }

  /** A stored expense; the date is a time in milliseconds. */
  datatype ExpenseDoc = ExpenseDoc(id: ObjectId, description: string, amount: real, category: string, date: int, userId: ObjectId)

  /** A stored budget. */
  datatype BudgetDoc = BudgetDoc(id: ObjectId, category: string, amount: real, userId: ObjectId)

  /** A stored user; `password` holds what the signup handler passes in, the hash. */
  datatype UserDoc = UserDoc(id: ObjectId, email: string, password: string, name: string, currency: string)

  /** The expense schema applied to the fields of a new expense: the description is trimmed
      and must then be non-empty, the amount is required with no sign constraint, the
      category must be in the enumeration, the date defaults to `now`. */
  function NewExpense(id: ObjectId, owner: ObjectId, description: Option<string>, amount: Option<real>,
                      category: Option<string>, date: Option<int>, now: int): (r: Option<ExpenseDoc>)
    ensures r.Some? <==> description.Some? && Trim(description.value) != "" && amount.Some?
                         && category.Some? && category.value in CATEGORY_ENUM
    ensures r.Some? ==> r.value == ExpenseDoc(id, Trim(description.value), amount.value, category.value,
                                             if date.Some? then date.value else now, owner)
  {
    if description.Some? && Trim(description.value) != "" && amount.Some? && category.Some? && category.value in CATEGORY_ENUM
    then Some(ExpenseDoc(id, Trim(description.value), amount.value, category.value, if date.Some? then date.value else now, owner))
    else None
  }

  /** The budget schema applied to a new budget: category in the enumeration, amount required
      (any sign), owner required. */
  function NewBudget(id: ObjectId, owner: ObjectId, category: string, amount: Option<real>): (r: Option<BudgetDoc>)
    ensures r.Some? <==> category in CATEGORY_ENUM && amount.Some?
    ensures r.Some? ==> r.value == BudgetDoc(id, category, amount.value, owner)
  {
    if category in CATEGORY_ENUM && amount.Some? then Some(BudgetDoc(id, category, amount.value, owner)) else None
  }

  /** The email setters: trimmed, then lower-cased. */
  function NormalEmail(email: string): string
  {
    ToLower(Trim(email))
  }

  /** The user schema applied to a new user. The email is trimmed and lower-cased and must
      then be non-empty and pass `isEmail`; the stored password is trimmed and must keep at
      least 7 characters; the name is trimmed and must stay non-empty; a missing currency
      becomes "USD", and a given one is trimmed and must stay non-empty. */
  function NewUser(id: ObjectId, email: string, password: string, name: Option<string>, currency: Option<string>,
                   isEmail: string -> bool): (r: Option<UserDoc>)
    ensures r.Some? ==> r.value.email == NormalEmail(email) && r.value.email != "" && isEmail(r.value.email)
    ensures r.Some? ==> r.value.password == Trim(password) && |r.value.password| >= 7
    ensures r.Some? ==> name.Some? && r.value.name == Trim(name.value) && r.value.name != ""
    ensures r.Some? ==> r.value.currency == CurrencyField(currency) && r.value.currency != ""
    ensures r.Some? ==> r.value.id == id
    ensures r.None? <==> NormalEmail(email) == "" || !isEmail(NormalEmail(email)) || |Trim(password)| < 7
                         || name.None? || Trim(name.value) == "" || CurrencyField(currency) == ""
  {
    var e := NormalEmail(email);
    var p := Trim(password);
    var c := CurrencyField(currency);
    if e == "" || !isEmail(e) || |p| < 7 || name.None? || Trim(name.value) == "" || c == "" then None
    else Some(UserDoc(id, e, p, Trim(name.value), c))
  }

  /** The stored currency: trimmed, "USD" when none is sent. */
  function CurrencyField(currency: Option<string>): (c: string)
    ensures currency.None? || currency == Some("USD") ==> c == "USD"
    ensures currency.Some? ==> c == Trim(currency.value)
  {
    UsdIsTrimmed();
    if currency.None? then "USD" else Trim(currency.value)
  }

  lemma UsdIsTrimmed()
    ensures Trim("USD") == "USD"
  {
    var usd := "USD";
    assert !IsSpace(usd[0]) && !IsSpace(usd[|usd| - 1]);
    assert TrimStart(usd) == usd;
  }

  /** Normalising an email twice is normalising it once, so a stored email queried again
      through the same setters finds itself. */
  lemma NormalEmailIdempotent(email: string)
    ensures NormalEmail(NormalEmail(email)) == NormalEmail(email)
  {
    var t := Trim(email);
    TrimIdempotent(email);
    LowerKeepsTrimmed(t);
    ToLowerIdempotent(t);
  }

  /** Lower-casing a trimmed text leaves it trimmed: no letter is whitespace. */
  lemma LowerKeepsTrimmed(t: string)
    requires Trim(t) == t
    ensures Trim(ToLower(t)) == ToLower(t)
  {
    TrimFixedIff(t);
    var l := ToLower(t);
    if t != [] {
      assert l[0] == LowerChar(t[0]) && l[|l| - 1] == LowerChar(t[|t| - 1]);
    }
    TrimFixedIff(l);
  }

  /** The replies the controllers send, with their HTTP status. */
  datatype Response<T> =
    | Ok(body: T)
    | Created(body: T)
    | BadRequest(message: string)
    | Unauthorized(message: string)
    | Forbidden(message: string)
    | NotFound(message: string)
    | ServerError(message: string)

  function Status<T>(r: Response<T>): (code: int)
    ensures 200 <= code <= 500
    ensures code < 300 <==> r.Ok? || r.Created?
  {
    match r
    case Ok(_) => 200
    case Created(_) => 201
    case BadRequest(_) => 400
    case Unauthorized(_) => 401
    case Forbidden(_) => 403
    case NotFound(_) => 404
    case ServerError(_) => 500
  }

  /** `{ $gte: start, $lte: end }`, each bound present only when it was given. */
  predicate InWindow(date: int, start: Option<int>, end: Option<int>)
  {
    (start.None? || start.value <= date) && (end.None? || date <= end.value)
  }

  /** The expense query the listing, the summary and the budget summary use: the caller's
      expenses within the optional inclusive bounds. */
  function MatchExpense(owner: ObjectId, start: Option<int>, end: Option<int>): ExpenseDoc -> bool
  {
    (e: ExpenseDoc) => e.userId == owner && InWindow(e.date, start, end)
  }

  /** Each bound is inclusive and each can be given alone. */
  lemma WindowBounds(date: int, start: Option<int>, end: Option<int>)
    ensures InWindow(date, None, None)
    ensures start.Some? ==> (InWindow(date, start, None) <==> start.value <= date)
    ensures end.Some? ==> (InWindow(date, None, end) <==> date <= end.value)
    ensures start.Some? && end.Some? ==> (InWindow(date, start, end) <==> start.value <= date <= end.value)
  {
  }

  /** A value as the database compares it: an id kept as text is a different value from
      the id itself. */
  datatype BsonValue = BString(text: string) | BObjectId(oid: ObjectId)

  /** The `$match` stage as the two summary handlers write it. `req.user.id` is the token's
      id claim, which is text; `find` queries cast it to an id through the schema, but an
      aggregation pipeline is passed through uncast, so the stored id value is compared with
      the text. */
  function AggregateMatchAsWritten(callerText: string, start: Option<int>, end: Option<int>): ExpenseDoc -> bool
  {
    (e: ExpenseDoc) => BObjectId(e.userId) == BString(callerText) && InWindow(e.date, start, end)
  }

  /** As written, the summary pipelines match no expense at all, whoever asks. */
  lemma {:induction false} AggregateMatchesNothing(callerText: string, start: Option<int>, end: Option<int>, es: seq<ExpenseDoc>)
    ensures Filter(AggregateMatchAsWritten(callerText, start, end), es) == []
  {
    if es != [] {
      AggregateMatchesNothing(callerText, start, end, es[1..]);
    }
  }

  function CategoryOfDoc(e: ExpenseDoc): string { e.category }

  function AmountOfDoc(e: ExpenseDoc): real { e.amount }

  // ---------------------------------------------------------------------
  // Grouping by category, as the aggregation's `$group` stage does

  /** One `$group` result: a category, the sum of its amounts and how many expenses it has. */
  datatype Group = Group(category: string, total: real, count: nat)

  /** One group per category present, with that category's sum and count. */
  function GroupByCategory(es: seq<ExpenseDoc>): (gs: seq<Group>)
    ensures |gs| == |KeysOf(CategoryOfDoc, es)|
    ensures forall i :: 0 <= i < |gs| ==> gs[i] == Group(KeysOf(CategoryOfDoc, es)[i],
      SumWhere(CategoryOfDoc, AmountOfDoc, es, KeysOf(CategoryOfDoc, es)[i]), CountWhere(CategoryOfDoc, es, KeysOf(CategoryOfDoc, es)[i]))
  {
    var ks := KeysOf(CategoryOfDoc, es);
    seq(|ks|, i requires 0 <= i < |ks| => Group(ks[i], SumWhere(CategoryOfDoc, AmountOfDoc, es, ks[i]), CountWhere(CategoryOfDoc, es, ks[i])))
  }

  /** Every group is non-empty, there is one for each category that occurs, and no two share a category. */
  lemma {:induction false} GroupsNonEmpty(es: seq<ExpenseDoc>, i: nat)
    requires i < |GroupByCategory(es)|
    ensures GroupByCategory(es)[i].count > 0
  {
    var k := KeysOf(CategoryOfDoc, es)[i];
    assert k in KeysOf(CategoryOfDoc, es);
    var j :| 0 <= j < |es| && es[j].category == k;
    CountWherePositive(es, j, k);
  }

  lemma {:induction false} CountWherePositive(es: seq<ExpenseDoc>, j: nat, k: string)
    requires j < |es| && es[j].category == k
    ensures CountWhere(CategoryOfDoc, es, k) > 0
  {
    if j > 0 {
      CountWherePositive(es[1..], j - 1, k);
    }
  }

  function GroupCount(g: Group): real { g.count as real }

  function GroupTotal(g: Group): real { g.total }

  /** The group counts add up to the number of grouped expenses, and the group totals to
      their total amount. */
  lemma GroupsPartition(es: seq<ExpenseDoc>)
    ensures Sum(GroupCount, GroupByCategory(es)) == |es| as real
    ensures Sum(GroupTotal, GroupByCategory(es)) == Sum(AmountOfDoc, es)
  {
    var ks := KeysOf(CategoryOfDoc, es);
    forall i | 0 <= i < |es| ensures CategoryOfDoc(es[i]) in ks {
    }
    PartitionCount(CategoryOfDoc, es, ks);
    PartitionSum(CategoryOfDoc, AmountOfDoc, es, ks);
    SumInAll(CategoryOfDoc, AmountOfDoc, es, ks);
    GroupSums(es, ks);
  }

  /** Summing a field over the groups of `ks` is summing the per-key sums. */
  lemma {:induction false} GroupSums(es: seq<ExpenseDoc>, ks: seq<string>)
    ensures Sum(GroupCount, Groups(es, ks)) == CountKeys(CategoryOfDoc, es, ks) as real
    ensures Sum(GroupTotal, Groups(es, ks)) == SumKeys(CategoryOfDoc, AmountOfDoc, es, ks)
  {
    if ks != [] {
      GroupSums(es, ks[1..]);
      assert Groups(es, ks)[1..] == Groups(es, ks[1..]);
    }
  }

  function Groups(es: seq<ExpenseDoc>, ks: seq<string>): (gs: seq<Group>)
    ensures |gs| == |ks|
  {
    seq(|ks|, i requires 0 <= i < |ks| => Group(ks[i], SumWhere(CategoryOfDoc, AmountOfDoc, es, ks[i]), CountWhere(CategoryOfDoc, es, ks[i])))
  }
}
