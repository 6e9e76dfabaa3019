/** The expense form: its starting values, the preload in edit mode, the field checks with
    their messages, and which of add and update a submit calls. `Number(...)` and
    `parseFloat(...)` on the amount text and `toString()` of a number are parameters. */
module ExpenseForm {
  import opened Util
  import opened Types

  datatype Form = Form(description: string, amount: string, category: string, date: string)

  /** One message per checked field; "" is no error. */
  datatype Errors = Errors(description: string, amount: string, date: string)

  const NO_ERRORS: Errors := Errors("", "", "")

  const DESCRIPTION_REQUIRED: string := "Description is required"
  const AMOUNT_REQUIRED: string := "Amount is required"
  const AMOUNT_NOT_POSITIVE: string := "Amount must be a positive number"
  const DATE_REQUIRED: string := "Date is required"

  /** A new form: nothing typed, the category `food`, dated today. */
  function InitialForm(today: string): (f: Form)
    ensures f.description == "" && f.amount == "" && f.category == "food" && f.date == today
  {
    Form("", "", "food", today)
  }

  /** In edit mode with an expense given, every field is loaded from it; otherwise the form
      stays as it is. */
  function Preload(f: Form, isEditing: bool, expense: Option<Expense>, show: real -> string): (g: Form)
    ensures isEditing && expense.Some? ==>
      g == Form(expense.value.description, show(expense.value.amount), expense.value.category, expense.value.date)
    ensures !(isEditing && expense.Some?) ==> g == f
  {
    if isEditing && expense.Some? then
      Form(expense.value.description, show(expense.value.amount), expense.value.category, expense.value.date)
    else f
  }

  /** `!(isNaN(n) || n <= 0)`: the amount is a positive number (Infinity included). */
  predicate PositiveAmount(n: Num)
  {
    n != NaN && !AtMost(n, 0.0)
  }

  /** The messages the checks give. */
  function ExpectedErrors(f: Form, toNumber: string -> Num): Errors
  {
    Errors(
      if Trim(f.description) == "" then DESCRIPTION_REQUIRED else "",
      if f.amount == "" then AMOUNT_REQUIRED
      else if !PositiveAmount(toNumber(f.amount)) then AMOUNT_NOT_POSITIVE
      else "",
      if f.date == "" then DATE_REQUIRED else "")
  }

  /** validateForm: each check runs in turn and sets its own message, so every failing field
      is reported; the form is valid exactly when every check passes, which is exactly when
      every message is empty. */
  method ValidateForm(f: Form, toNumber: string -> Num) returns (valid: bool, errors: Errors)
    ensures errors == ExpectedErrors(f, toNumber)
    ensures valid <==> Trim(f.description) != "" && f.amount != "" && PositiveAmount(toNumber(f.amount)) && f.date != ""
    ensures valid <==> errors == NO_ERRORS
  {
    valid := true;
    errors := NO_ERRORS;
    if Trim(f.description) == "" {
      errors := errors.(description := DESCRIPTION_REQUIRED);
      valid := false;
    }
    if f.amount == "" {
      errors := errors.(amount := AMOUNT_REQUIRED);
      valid := false;
    } else if !PositiveAmount(toNumber(f.amount)) {
      errors := errors.(amount := AMOUNT_NOT_POSITIVE);
      valid := false;
    }
    if f.date == "" {
      errors := errors.(date := DATE_REQUIRED);
      valid := false;
    }
  }

  datatype Field = DescriptionField | AmountField | CategoryField | DateField

  /** handleChange: the input named `field` takes the value, the other fields stay. */
  function HandleChange(f: Form, field: Field, value: string): (g: Form)
    ensures g.description == (if field == DescriptionField then value else f.description)
    ensures g.amount == (if field == AmountField then value else f.amount)
    ensures g.category == (if field == CategoryField then value else f.category)
    ensures g.date == (if field == DateField then value else f.date)
  {
    match field
    case DescriptionField => f.(description := value)
    case AmountField => f.(amount := value)
    case CategoryField => f.(category := value)
    case DateField => f.(date := value)
  }

  /** Typing into one input never changes the message of another input's check. */
  lemma HandleChangeKeepsOtherErrors(f: Form, field: Field, value: string, toNumber: string -> Num)
    ensures field != DescriptionField ==> ExpectedErrors(HandleChange(f, field, value), toNumber).description == ExpectedErrors(f, toNumber).description
    ensures field != AmountField ==> ExpectedErrors(HandleChange(f, field, value), toNumber).amount == ExpectedErrors(f, toNumber).amount
    ensures field != DateField ==> ExpectedErrors(HandleChange(f, field, value), toNumber).date == ExpectedErrors(f, toNumber).date
  {
    var g := HandleChange(f, field, value);
    match field
    case DescriptionField => assert g.amount == f.amount && g.date == f.date;
    case AmountField => assert g.description == f.description && g.date == f.date;
    case CategoryField => assert g.description == f.description && g.amount == f.amount && g.date == f.date;
    case DateField => assert g.description == f.description && g.amount == f.amount;
  }

  /** What a submit sends, besides the id. */
  datatype ExpenseData = ExpenseData(description: string, amount: real, category: string, date: string)

  /** Which context call a submit makes. */
  datatype Call = NoCall | CallAdd(data: ExpenseData) | CallUpdate(data: ExpenseData, id: string)

  /** handleSubmit: an invalid form calls nothing and stays; otherwise edit mode updates the
      original expense by its id, and any other mode adds one without an id; then the page
      moves to the expense list. The fields go as typed, the amount parsed. */
  method HandleSubmit(f: Form, isEditing: bool, expense: Option<Expense>, toNumber: string -> Num, parseFloat: string -> real)
    returns (call: Call, errors: Errors, navigate: bool)
    ensures errors == ExpectedErrors(f, toNumber)
    ensures call.NoCall? <==> errors != NO_ERRORS
    ensures navigate <==> !call.NoCall?
    ensures !call.NoCall? ==> call.data == ExpenseData(f.description, parseFloat(f.amount), f.category, f.date)
    ensures call.CallUpdate? <==> errors == NO_ERRORS && isEditing && expense.Some?
    ensures call.CallUpdate? ==> call.id == expense.value.id
  {
    var valid;
    valid, errors := ValidateForm(f, toNumber);
    if !valid {
      return NoCall, errors, false;
    }
    var data := ExpenseData(f.description, parseFloat(f.amount), f.category, f.date);
    if isEditing && expense.Some? {
      call := CallUpdate(data, expense.value.id);
    } else {
      call := CallAdd(data);
    }
    navigate := true;
  }
}
