/** The registration form: the checks on its four text fields and the selected currency,
    each failing field with its own message, and the trimmed values a submit sends to the
    authentication context's `register`. Its outcome is a parameter. */
module RegisterForm {
  import opened Util

  datatype Form = Form(name: string, email: string, password: string, confirmPassword: string)

  /** One message per text field; "" is no error. The currency's message is kept apart. */
  datatype Errors = Errors(name: string, email: string, password: string, confirmPassword: string)

  const NO_ERRORS: Errors := Errors("", "", "", "")

  const NAME_REQUIRED: string := "Name is required"
  const EMAIL_REQUIRED: string := "Email is required"
  const EMAIL_INVALID: string := "Email is invalid"
  const PASSWORD_REQUIRED: string := "Password is required"
  const PASSWORD_TOO_SHORT: string := "Password must be at least 6 characters"
  const CONFIRM_REQUIRED: string := "Please confirm your password"
  const PASSWORDS_DIFFER: string := "Passwords do not match"
  const CURRENCY_REQUIRED: string := "Please select a currency"

  /** The regular expression `\S+@\S+\.\S+` matches around an `@` at `a` and a `.` at `d`:
      a non-space character just before the `@`, only non-space characters, at least one,
      between the two, and a non-space character just after the `.`. */
  predicate MatchAt(s: string, a: int, d: int)
  {
    1 <= a && a + 1 < d && d + 1 < |s|
    && s[a] == '@' && s[d] == '.' && !IsSpace(s[a - 1]) && !IsSpace(s[d + 1])
    && (forall k :: a < k < d ==> !IsSpace(s[k]))
  }

  /** `/\S+@\S+\.\S+/.test(s)`: the expression is not anchored, so it passes when it matches
      anywhere in `s`, whatever surrounds the match. */
  predicate EmailShaped(s: string)
  {
    exists a, d :: 0 <= a < |s| && 0 <= d < |s| && MatchAt(s, a, d)
  }

  /** The messages the checks give, from the name and the email as trimmed and the two
      passwords as typed. */
  function Messages(name: string, email: string, password: string, confirmPassword: string): Errors
  {
    Errors(
      if name == "" then NAME_REQUIRED else "",
      if email == "" then EMAIL_REQUIRED
      else if !EmailShaped(email) then EMAIL_INVALID
      else "",
      if password == "" then PASSWORD_REQUIRED
      else if |password| < 6 then PASSWORD_TOO_SHORT
      else "",
      if confirmPassword == "" then CONFIRM_REQUIRED
      else if password != confirmPassword then PASSWORDS_DIFFER
      else "")
  }

  /** The messages the checks give for a form. */
  function ExpectedErrors(f: Form): Errors
  {
    Messages(Trim(f.name), Trim(f.email), f.password, f.confirmPassword)
  }

  /** validateForm: each field's checks run in turn and set that field's message, so every
      failing field is reported; the currency gets its own message, which a selected currency
      clears. The form is valid exactly when every check passes, which is exactly when no
      message is set. */
  method ValidateForm(f: Form, currency: string) returns (valid: bool, errors: Errors, currencyError: string)
    ensures errors == ExpectedErrors(f)
    ensures currencyError == (if currency == "" then CURRENCY_REQUIRED else "")
    ensures valid <==> (Trim(f.name) != "" && Trim(f.email) != "" && EmailShaped(Trim(f.email))
                        && |f.password| >= 6 && f.confirmPassword == f.password && currency != "")
    ensures valid <==> errors == NO_ERRORS && currencyError == ""
  {
    valid := true;
    errors := NO_ERRORS;
    if Trim(f.name) == "" {
      errors := errors.(name := NAME_REQUIRED);
      valid := false;
    }
    if Trim(f.email) == "" {
      errors := errors.(email := EMAIL_REQUIRED);
      valid := false;
    } else if !EmailShaped(Trim(f.email)) {
      errors := errors.(email := EMAIL_INVALID);
      valid := false;
    }
    if f.password == "" {
      errors := errors.(password := PASSWORD_REQUIRED);
      valid := false;
    } else if |f.password| < 6 {
      errors := errors.(password := PASSWORD_TOO_SHORT);
      valid := false;
    }
    if f.confirmPassword == "" {
      errors := errors.(confirmPassword := CONFIRM_REQUIRED);
      valid := false;
    } else if f.password != f.confirmPassword {
      errors := errors.(confirmPassword := PASSWORDS_DIFFER);
      valid := false;
    }
    if currency == "" {
      currencyError := CURRENCY_REQUIRED;
      valid := false;
    } else {
      currencyError := "";
    }
  }

  /** Any three non-empty runs of non-space characters joined as `a@b.c` pass the email check. */
  lemma EmailShapedOf(a: string, b: string, c: string)
    requires a != [] && b != [] && c != []
    requires forall i :: 0 <= i < |a| ==> !IsSpace(a[i])
    requires forall i :: 0 <= i < |b| ==> !IsSpace(b[i])
    requires forall i :: 0 <= i < |c| ==> !IsSpace(c[i])
    ensures EmailShaped(a + "@" + b + "." + c)
  {
    var s := a + "@" + b + "." + c;
    var at, dot := |a|, |a| + 1 + |b|;
    assert s[at] == '@' && s[dot] == '.';
    assert s[at - 1] == a[|a| - 1] && s[dot + 1] == c[0];
    assert forall k :: at < k < dot ==> s[k] == b[k - at - 1];
    assert MatchAt(s, at, dot);
  }

  /** An address that passes has at least five characters, an `@` that is not the first, and
      a `.` after it. */
  lemma EmailShapedShape(s: string)
    requires EmailShaped(s)
    ensures |s| >= 5 && '@' in s[1..]
    ensures exists at, dot :: 0 < at < dot < |s| - 1 && s[at] == '@' && s[dot] == '.'
  {
    var at, dot :| 0 <= at < |s| && 0 <= dot < |s| && MatchAt(s, at, dot);
    assert s[1..][at - 1] == '@';
  }

  datatype Field = NameField | EmailField | PasswordField | ConfirmPasswordField

  /** handleChange: the input named `field` takes the value, the other fields stay. */
  function HandleChange(f: Form, field: Field, value: string): (g: Form)
    ensures g.name == (if field == NameField then value else f.name)
    ensures g.email == (if field == EmailField then value else f.email)
    ensures g.password == (if field == PasswordField then value else f.password)
    ensures g.confirmPassword == (if field == ConfirmPasswordField then value else f.confirmPassword)
  {
    match field
    case NameField => f.(name := value)
    case EmailField => f.(email := value)
    case PasswordField => f.(password := value)
    case ConfirmPasswordField => f.(confirmPassword := value)
  }

  /** Retyping the confirmation as the password clears the confirmation's message, and
      typing it differently from a password makes it "Passwords do not match". */
  lemma ConfirmationMessage(f: Form, value: string)
    requires value != ""
    ensures ExpectedErrors(HandleChange(f, ConfirmPasswordField, value)).confirmPassword ==
      (if value == f.password then "" else PASSWORDS_DIFFER)
  {
  }

  /** The values a submit sends: the name and the email trimmed, the passwords as typed. */
  function Trimmed(f: Form): (g: Form)
    ensures g.name == Trim(f.name) && g.email == Trim(f.email)
    ensures g.password == f.password && g.confirmPassword == f.confirmPassword
  {
    Form(Trim(f.name), Trim(f.email), f.password, f.confirmPassword)
  }

  /** `setFormData(trimmedData)` does not reach the `validateForm` of the same submit, which
      still sees the fields as typed; since its checks trim the name and the email themselves,
      the trimmed form gets exactly the same messages. */
  lemma {:induction false} TrimmedValidatesAlike(f: Form)
    ensures ExpectedErrors(Trimmed(f)) == ExpectedErrors(f)
  {
    TrimIdempotent(f.name);
    TrimIdempotent(f.email);
  }

  /** What `register` is called with. */
  datatype RegisterCall = RegisterCall(name: string, email: string, password: string, currency: string)

  /** handleSubmit: the form shown becomes the trimmed one, while the checks see the fields as
      typed (which `TrimmedValidatesAlike` shows makes no difference); an invalid form calls nothing;
      otherwise `register` gets the trimmed name and email, the password as typed and the
      currency, and the page moves home when it reports success. */
  method HandleSubmit(f: Form, currency: string, registered: bool)
    returns (shown: Form, call: Option<RegisterCall>, errors: Errors, currencyError: string, navigate: bool)
    ensures shown == Trimmed(f)
    ensures errors == ExpectedErrors(f)
    ensures currencyError == (if currency == "" then CURRENCY_REQUIRED else "")
    ensures call.None? <==> errors != NO_ERRORS || currencyError != ""
    ensures call.Some? ==> call.value == RegisterCall(shown.name, shown.email, shown.password, currency)
    ensures navigate <==> call.Some? && registered
  {
    shown := Trimmed(f);
    var valid;
    valid, errors, currencyError := ValidateForm(f, currency);
    if !valid {
      return shown, None, errors, currencyError, false;
    }
    call := Some(RegisterCall(shown.name, shown.email, shown.password, currency));
    navigate := registered;
  }
}
