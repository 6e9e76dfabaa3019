/** The budget form: its starting values, the preload in edit mode, the ordered amount
    checks, the error clearing on every change, and the submit sequence with its outcomes.
    `Number(...)`, `parseFloat(...)`, `toString()` and the results of the save and refresh
    calls are parameters. */
module BudgetForm {
  import opened Util
  import opened Types

  datatype Form = Form(category: string, amount: string)

  /** The amount's message and the server's message; "" is no error. */
  datatype Errors = Errors(amount: string, server: string)

  const NO_ERRORS: Errors := Errors("", "")

  /** A new form: the category `food` and no amount. */
  function InitialForm(): (f: Form)
    ensures f.category == "food" && f.amount == ""
  {
    Form("food", "")
  }

  /** In edit mode with a budget given, both fields are loaded from it. */
  function Preload(f: Form, isEditing: bool, budget: Option<Budget>, show: real -> string): (g: Form)
    ensures isEditing && budget.Some? ==> g == Form(budget.value.category, show(budget.value.amount))
    ensures !(isEditing && budget.Some?) ==> g == f
  {
    if isEditing && budget.Some? then Form(budget.value.category, show(budget.value.amount)) else f
  }

  /** validateForm: the amount checks run in order (missing, not a number, not above 0) and
      set at most one message; the server message starts cleared; the form is valid exactly
      when no message was set. */
  method ValidateForm(f: Form, toNumber: string -> Num) returns (valid: bool, errors: Errors)
    ensures errors.server == ""
    ensures f.amount == "" ==> errors.amount == "Budget amount is required"
    ensures f.amount != "" && toNumber(f.amount) == NaN ==> errors.amount == "Budget amount must be a number"
    ensures f.amount != "" && toNumber(f.amount) != NaN && AtMost(toNumber(f.amount), 0.0) ==>
      errors.amount == "Budget amount must be greater than 0"
    ensures valid <==> f.amount != "" && toNumber(f.amount) != NaN && !AtMost(toNumber(f.amount), 0.0)
    ensures valid <==> errors.amount == ""
  {
    valid := true;
    errors := NO_ERRORS;
    if f.amount == "" {
      errors := errors.(amount := "Budget amount is required");
      valid := false;
    } else if toNumber(f.amount) == NaN {
      errors := errors.(amount := "Budget amount must be a number");
      valid := false;
    } else if AtMost(toNumber(f.amount), 0.0) {
      errors := errors.(amount := "Budget amount must be greater than 0");
      valid := false;
    }
  }

  datatype Field = CategoryField | AmountField

  /** handleChange: the named field takes the value, the other stays, and both messages are
      cleared whatever they were. */
  function HandleChange(f: Form, errors: Errors, field: Field, value: string): (r: (Form, Errors))
    ensures field == CategoryField ==> r.0 == Form(value, f.amount)
    ensures field == AmountField ==> r.0 == Form(f.category, value)
    ensures r.1 == NO_ERRORS
  {
    var g := match field
      case CategoryField => f.(category := value)
      case AmountField => f.(amount := value);
    (g, if errors.amount != "" || errors.server != "" then NO_ERRORS else errors)
  }

  /** In edit mode the category select is locked, so only the amount can change: the
      category stays the one preloaded from the budget, whatever is typed into the amount. */
  lemma EditKeepsCategory(f: Form, budget: Budget, show: real -> string, amounts: seq<string>)
    ensures ChangeAmounts(Preload(f, true, Some(budget), show), amounts).category == budget.category
  {
    ChangeAmountsKeepsCategory(Preload(f, true, Some(budget), show), amounts);
  }

  /** The form after typing each of `amounts` into the amount input in turn. */
  function ChangeAmounts(f: Form, amounts: seq<string>): Form
    decreases |amounts|
  {
    if amounts == [] then f else ChangeAmounts(HandleChange(f, NO_ERRORS, AmountField, amounts[0]).0, amounts[1..])
  }

  lemma {:induction false} ChangeAmountsKeepsCategory(f: Form, amounts: seq<string>)
    ensures ChangeAmounts(f, amounts).category == f.category
    decreases |amounts|
  {
    if amounts != [] {
      ChangeAmountsKeepsCategory(HandleChange(f, NO_ERRORS, AmountField, amounts[0]).0, amounts[1..]);
    }
  }

  /** What a submit sends, besides the id. */
  datatype BudgetData = BudgetData(category: string, amount: real)

  datatype Call = NoCall | CallAdd(data: BudgetData) | CallUpdate(data: BudgetData, id: Option<string>)

  /** How the awaited save ends: it reports success or failure, or it throws with a message
      ("" when the error has none). The refresh that follows either returns or throws. */
  datatype Outcome = Succeeded | Failed | Threw(message: string)

  /** `error.message || 'Failed to save budget. Please try again.'`. */
  function ThrownMessage(message: string): (m: string)
    ensures m != ""
  {
    if message != "" then message else "Failed to save budget. Please try again."
  }

  /** handleSubmit: an invalid form calls nothing. Otherwise the messages are cleared, edit
      mode updates the budget under its original id and any other mode adds one; after a
      successful save and refresh the page moves to the budget list, and any failure, reported
      or thrown, sets the server message instead. */
  method HandleSubmit(f: Form, isEditing: bool, budget: Option<Budget>, toNumber: string -> Num, parseFloat: string -> real,
                      save: Outcome, refreshThrew: Option<string>)
    returns (call: Call, errors: Errors, navigate: bool)
    ensures var valid := f.amount != "" && toNumber(f.amount) != NaN && !AtMost(toNumber(f.amount), 0.0);
      (call.NoCall? <==> !valid) && (!valid ==> errors.amount != "" && errors.server == "")
      && (valid ==> errors.amount == "")
    ensures !call.NoCall? ==> call.data == BudgetData(f.category, parseFloat(f.amount))
    ensures call.CallUpdate? <==> !call.NoCall? && isEditing && budget.Some?
    ensures call.CallUpdate? ==> call.id == budget.value.id
    ensures navigate <==> !call.NoCall? && save == Succeeded && refreshThrew.None?
    ensures !call.NoCall? ==> (errors.server == "" <==> navigate)
    ensures !call.NoCall? && save == Failed ==>
      errors.server == (if call.CallUpdate? then "Failed to update budget. Please try again." else "Failed to add budget. Please try again.")
    ensures !call.NoCall? && save.Threw? ==> errors.server == ThrownMessage(save.message)
  {
    var valid;
    valid, errors := ValidateForm(f, toNumber);
    if !valid {
      return NoCall, errors, false;
    }
    errors := NO_ERRORS;
    var data := BudgetData(f.category, parseFloat(f.amount));
    var updating := isEditing && budget.Some?;
    call := if updating then CallUpdate(data, budget.value.id) else CallAdd(data);
    navigate := false;
    match save {
      case Threw(message) =>
        errors := errors.(server := ThrownMessage(message));
      case Failed =>
        errors := errors.(server := if updating then "Failed to update budget. Please try again." else "Failed to add budget. Please try again.");
      case Succeeded =>
        if refreshThrew.Some? {
          errors := errors.(server := ThrownMessage(refreshThrew.value));
        } else {
          navigate := true;
        }
    }
  }
}
