/**
 * The registration form's validators. Each returns the first error message
 * that applies, or nothing; the form check runs all five, stores their
 * messages in the form's error state, and passes when none reported one.
 *
 * The form's email pattern `^[^\s@]+@[^\s@]+\.[^\s@]+$` is given as the set
 * of strings it describes and as a direct check, with a lemma that the two
 * agree. The password lookaheads `(?=.*[a-z])` and the like, tested
 * unanchored, hold exactly when the password contains such a character.
 */
module Registration {
  import opened Wrappers
  import opened Text
  import Validation

  /** `[^\s@]`, with JavaScript's `\s`. */
  predicate IsPlainChar(c: char)
  {
    !IsJsSpace(c) && c != '@'
  }

  /** `e` splits at the '@' at `a` and the '.' at `p` into the parts of the form's email pattern. */
  predicate IsLooseEmailSplit(e: string, a: int, p: int)
  {
    && 1 <= a && a + 2 <= p <= |e| - 2
    && e[a] == '@' && e[p] == '.'
    && forall k :: 0 <= k < |e| && k != a ==> IsPlainChar(e[k])
  }

  /** The strings the form's email pattern accepts. */
  ghost predicate LooseEmailShape(e: string)
  {
    exists a, p :: IsLooseEmailSplit(e, a, p)
  }

  /** emailRegex.test: the '@' is the only one; some '.' has a character on each side before the end. */
  predicate MatchesLooseEmailRegex(e: string)
  {
    var a := IndexOf(e, '@');
    && 1 <= a && a + 3 <= |e|
    && (forall k :: 0 <= k < |e| && k != a ==> IsPlainChar(e[k]))
    && '.' in e[a + 2..|e| - 1]
  }

  /** The direct check accepts exactly the strings the pattern describes. */
  lemma MatchesLooseEmailRegexIffShape(e: string)
    ensures MatchesLooseEmailRegex(e) <==> LooseEmailShape(e)
  {
    if MatchesLooseEmailRegex(e) {
      var a := IndexOf(e, '@');
      var middle := e[a + 2..|e| - 1];
      var j :| 0 <= j < |middle| && middle[j] == '.';
      assert IsLooseEmailSplit(e, a, a + 2 + j);
    }
    if LooseEmailShape(e) {
      var a, p :| IsLooseEmailSplit(e, a, p);
      assert IndexOf(e, '@') == a;
      assert e[a + 2..|e| - 1][p - a - 2] == '.';
    }
  }

  const EmailRequired: string := "Email is required"
  const EmailInvalid: string := "Please enter a valid email address"

  /** validateEmail: required, then the pattern. */
  function ValidateEmail(email: string): (r: Option<string>)
    ensures email == "" ==> r == Some(EmailRequired)
    ensures email != "" ==> (r.None? <==> LooseEmailShape(email))
    ensures email != "" && !LooseEmailShape(email) ==> r == Some(EmailInvalid)
    ensures r.Some? ==> r.value == EmailRequired || r.value == EmailInvalid
  {
    MatchesLooseEmailRegexIffShape(email);
    if email == "" then Some(EmailRequired)
    else if !MatchesLooseEmailRegex(email) then Some(EmailInvalid)
    else None
  }

  /** Every email the login form accepts is accepted here too. */
  lemma LoginEmailPassesRegistration(email: string)
    requires Validation.ValidateEmail(email)
    ensures ValidateEmail(email).None?
  {
    var a, p :| Validation.IsEmailSplit(email, a, p);
    assert IsLooseEmailSplit(email, a, p);
  }

  /** The converse does not hold: a one-letter top-level label passes here and not at login. */
  lemma RegistrationEmailLooser()
    ensures ValidateEmail("a@b.c").None?
    ensures !Validation.ValidateEmail("a@b.c")
  {
    assert IsLooseEmailSplit("a@b.c", 1, 3);
    Validation.MatchesEmailRegexIffShape("a@b.c");
  }

  predicate HasLower(s: string) { exists i :: 0 <= i < |s| && IsLowerAscii(s[i]) }
  predicate HasUpper(s: string) { exists i :: 0 <= i < |s| && IsUpperAscii(s[i]) }
  predicate HasDigit(s: string) { exists i :: 0 <= i < |s| && IsDigit(s[i]) }

  /** `[@$!%*?&]` */
  predicate IsSpecialChar(c: char)
  {
    c == '@' || c == '$' || c == '!' || c == '%' || c == '*' || c == '?' || c == '&'
  }

  predicate HasSpecial(s: string) { exists i :: 0 <= i < |s| && IsSpecialChar(s[i]) }

  const PasswordRequired: string := "Password is required"
  const PasswordTooShort: string := "Password must be at least 8 characters long"
  const PasswordNeedsLower: string := "Password must contain at least one lowercase letter"
  const PasswordNeedsUpper: string := "Password must contain at least one uppercase letter"
  const PasswordNeedsDigit: string := "Password must contain at least one number"
  const PasswordNeedsSpecial: string := "Password must contain at least one special character (@$!%*?&)"

  /** The password rules of the registration form, all together. */
  ghost predicate StrongPassword(p: string)
  {
    |p| >= 8 && HasLower(p) && HasUpper(p) && HasDigit(p) && HasSpecial(p)
  }

  /** validatePassword: the first rule that fails, in the order required, length, lower, upper, digit, special. */
  function ValidatePassword(password: string): (r: Option<string>)
    ensures r.None? <==> StrongPassword(password)
    ensures password == "" ==> r == Some(PasswordRequired)
    ensures 0 < |password| < 8 ==> r == Some(PasswordTooShort)
    ensures |password| >= 8 && !HasLower(password) ==> r == Some(PasswordNeedsLower)
    ensures |password| >= 8 && HasLower(password) && !HasUpper(password) ==> r == Some(PasswordNeedsUpper)
    ensures |password| >= 8 && HasLower(password) && HasUpper(password) && !HasDigit(password)
      ==> r == Some(PasswordNeedsDigit)
    ensures |password| >= 8 && HasLower(password) && HasUpper(password) && HasDigit(password) && !HasSpecial(password)
      ==> r == Some(PasswordNeedsSpecial)
  {
    if password == "" then Some(PasswordRequired)
    else if |password| < 8 then Some(PasswordTooShort)
    else if !HasLower(password) then Some(PasswordNeedsLower)
    else if !HasUpper(password) then Some(PasswordNeedsUpper)
    else if !HasDigit(password) then Some(PasswordNeedsDigit)
    else if !HasSpecial(password) then Some(PasswordNeedsSpecial)
    else None
  }

  /** A password the registration form accepts also passes the login form's check. */
  lemma RegistrationPasswordPassesLogin(password: string)
    requires ValidatePassword(password).None?
    ensures Validation.ValidatePassword(password).isValid
  {
  }

  const ConfirmRequired: string := "Please confirm your password"
  const ConfirmMismatch: string := "Passwords do not match"

  /** validateConfirmPassword: present and equal to the password. */
  function ValidateConfirmPassword(confirmPassword: string, password: string): (r: Option<string>)
    ensures r.None? <==> confirmPassword != "" && confirmPassword == password
    ensures confirmPassword == "" ==> r == Some(ConfirmRequired)
    ensures confirmPassword != "" && confirmPassword != password ==> r == Some(ConfirmMismatch)
  {
    if confirmPassword == "" then Some(ConfirmRequired)
    else if confirmPassword != password then Some(ConfirmMismatch)
    else None
  }

  /**
   * validateName: between 2 and 50 characters. A name of exactly 50 passes,
   * although the message for a longer one says "less than 50".
   */
  function ValidateName(name: string, fieldName: string): (r: Option<string>)
    ensures r.None? <==> 2 <= |name| <= 50
    ensures name == "" ==> r == Some(fieldName + " is required")
    ensures |name| == 1 ==> r == Some(fieldName + " must be at least 2 characters long")
    ensures |name| > 50 ==> r == Some(fieldName + " must be less than 50 characters")
  {
    if name == "" then Some(fieldName + " is required")
    else if |name| < 2 then Some(fieldName + " must be at least 2 characters long")
    else if |name| > 50 then Some(fieldName + " must be less than 50 characters")
    else None
  }

  datatype FormData = FormData(
    email: string,
    password: string,
    confirmPassword: string,
    firstName: string,
    lastName: string)

  datatype FormErrors = FormErrors(
    email: Option<string>,
    password: Option<string>,
    confirmPassword: Option<string>,
    firstName: Option<string>,
    lastName: Option<string>)

  const NoErrors: FormErrors := FormErrors(None, None, None, None, None)

  /** What the form's data must satisfy to be submitted. */
  ghost predicate Submittable(data: FormData)
  {
    && data.email != "" && LooseEmailShape(data.email)
    && StrongPassword(data.password)
    && data.confirmPassword == data.password
    && 2 <= |data.firstName| <= 50
    && 2 <= |data.lastName| <= 50
  }

  /** The messages the five validators report for `data`. */
  function Errors(data: FormData): FormErrors
  {
    FormErrors(
      ValidateEmail(data.email),
      ValidatePassword(data.password),
      ValidateConfirmPassword(data.confirmPassword, data.password),
      ValidateName(data.firstName, "First name"),
      ValidateName(data.lastName, "Last name"))
  }

  /** No validator reports a message exactly when the data may be submitted. */
  lemma NoErrorsIffSubmittable(data: FormData)
    ensures Errors(data) == NoErrors <==> Submittable(data)
  {
    var e := Errors(data);
    assert e.email.None? <==> data.email != "" && LooseEmailShape(data.email);
    assert e.password.None? <==> StrongPassword(data.password);
    assert e.confirmPassword.None? <==> data.confirmPassword != "" && data.confirmPassword == data.password;
    if data.confirmPassword == data.password && StrongPassword(data.password) {
      assert data.confirmPassword != "";
    }
  }

  /** `values.some(error => error !== undefined)` */
  method AnyReported(values: seq<Option<string>>) returns (some: bool)
    ensures some <==> exists j :: 0 <= j < |values| && values[j].Some?
  {
    some := false;
    var k := 0;
    while k < |values|
      invariant 0 <= k <= |values|
      invariant some <==> exists j :: 0 <= j < k && values[j].Some?
    {
      if values[k] != None {
        some := true;
      }
      k := k + 1;
    }
  }

  /** The form, holding what was typed and the messages shown under each field. */
  class RegisterForm {
    var formData: FormData
    var errors: FormErrors

    constructor()
      ensures formData == FormData("", "", "", "", "")
      ensures errors == NoErrors
    {
      formData := FormData("", "", "", "", "");
      errors := NoErrors;
    }

    /**
     * validateForm: run the five validators field by field, show their
     * messages, and pass exactly when none reported one.
     */
    method ValidateForm() returns (valid: bool)
      modifies this
      ensures formData == old(formData)
      ensures errors == Errors(formData)
      ensures valid <==> errors == NoErrors
      ensures valid <==> Submittable(formData)
    {
      var newErrors := NoErrors;
      newErrors := newErrors.(email := ValidateEmail(formData.email));
      newErrors := newErrors.(password := ValidatePassword(formData.password));
      newErrors := newErrors.(confirmPassword := ValidateConfirmPassword(formData.confirmPassword, formData.password));
      newErrors := newErrors.(firstName := ValidateName(formData.firstName, "First name"));
      newErrors := newErrors.(lastName := ValidateName(formData.lastName, "Last name"));
      errors := newErrors;
      var values := [errors.email, errors.password, errors.confirmPassword, errors.firstName, errors.lastName];
      var reported := AnyReported(values);
      assert !reported <==> values[0].None? && values[1].None? && values[2].None? && values[3].None? && values[4].None?;
      valid := !reported;
      NoErrorsIffSubmittable(formData);
    }
  }
}
