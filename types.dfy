/** The client's shared record types and the fixed list of expense categories. */
module Types {
  import opened Util

  /** An expense as the client holds it: the date is an ISO day `yyyy-MM-dd`. */
  datatype Expense = Expense(id: string, description: string, amount: real, category: string, date: string)

  /** A monthly budget for one category; a budget not yet saved has no id. */
  datatype Budget = Budget(id: Option<string>, category: string, amount: real)

  datatype User = User(id: string, name: string, email: string, currency: string)

  datatype AuthState = AuthState(isAuthenticated: bool, user: Option<User>, error: Option<string>, token: Option<string>)

  /** Inclusive range of ISO days. */
  datatype DateRange = DateRange(startDate: string, endDate: string)

  datatype Category =
    | Food | Transportation | Housing | Utilities | Entertainment
    | Healthcare | Education | Shopping | Travel | Other

  /** The lower-case name a category is stored and sent under. */
  function Name(c: Category): string
  {
    match c
    case Food => "food"
    case Transportation => "transportation"
    case Housing => "housing"
    case Utilities => "utilities"
    case Entertainment => "entertainment"
    case Healthcare => "healthcare"
    case Education => "education"
    case Shopping => "shopping"
    case Travel => "travel"
    case Other => "other"
  }

  /** Reads a category name back; anything else is not a category. */
  function Parse(s: string): (r: Option<Category>)
    ensures r.Some? ==> Name(r.value) == s
  {
    if s == "food" then Some(Food)
    else if s == "transportation" then Some(Transportation)
    else if s == "housing" then Some(Housing)
    else if s == "utilities" then Some(Utilities)
    else if s == "entertainment" then Some(Entertainment)
    else if s == "healthcare" then Some(Healthcare)
    else if s == "education" then Some(Education)
    else if s == "shopping" then Some(Shopping)
    else if s == "travel" then Some(Travel)
    else if s == "other" then Some(Other)
    else None
  }

  /** The `CATEGORIES` list, in its display order. */
  const CATEGORIES: seq<Category> :=
    [Food, Transportation, Housing, Utilities, Entertainment, Healthcare, Education, Shopping, Travel, Other]

  /** The names of `CATEGORIES`, in order. */
  function CategoryNames(): (r: seq<string>)
    ensures |r| == |CATEGORIES|
    ensures forall i :: 0 <= i < |r| ==> r[i] == Name(CATEGORIES[i])
  {
    seq(|CATEGORIES|, i requires 0 <= i < |CATEGORIES| => Name(CATEGORIES[i]))
  }

  /** Naming then parsing gives the category back. */
  lemma NameParse(c: Category)
    ensures Parse(Name(c)) == Some(c)
  {
  }

  /** Exactly the names in the category list parse. */
  lemma ParseOnlyNames(s: string)
    ensures Parse(s).Some? <==> s in CategoryNames()
  {
    var names := CategoryNames();
    if s in names {
      var i :| 0 <= i < |names| && names[i] == s;
      NameParse(CATEGORIES[i]);
    }
    if Parse(s).Some? {
      var k := IndexOf(Parse(s).value);
      assert names[k] == s;
    }
  }

  /** The position of a category in `CATEGORIES`. */
  function IndexOf(c: Category): (k: nat)
    ensures k < |CATEGORIES| && CATEGORIES[k] == c
  {
    match c
    case Food => 0
    case Transportation => 1
    case Housing => 2
    case Utilities => 3
    case Entertainment => 4
    case Healthcare => 5
    case Education => 6
    case Shopping => 7
    case Travel => 8
    case Other => 9
  }

  /** The list names every category exactly once. */
  lemma CategoriesComplete(c: Category)
    ensures c in CATEGORIES
    ensures |CategoryNames()| == 10
    ensures Distinct(CategoryNames())
    ensures |CATEGORIES| == 10
  {
    var names := CategoryNames();
    assert CATEGORIES[IndexOf(c)] == c;
    forall i, j | 0 <= i < j < |names| ensures names[i] != names[j] {
      if names[i] == names[j] {
        NameParse(CATEGORIES[i]);
        NameParse(CATEGORIES[j]);
        IndexOfAt(i);
        IndexOfAt(j);
      }
    }
  }

  lemma IndexOfAt(i: nat)
    requires i < |CATEGORIES|
    ensures IndexOf(CATEGORIES[i]) == i
  {
  }

  function Amount(e: Expense): real { e.amount }

  function CategoryOf(e: Expense): string { e.category }

  /** The sum of the amounts of `es`. */
  function Total(es: seq<Expense>): real
  {
    Sum(Amount, es)
  }

  /** The sum of the amounts of the expenses of category `c`. */
  function SpentIn(es: seq<Expense>, c: string): real
  {
    SumWhere(CategoryOf, Amount, es, c)
  }
}
