/**
 * The login form's validators: an email must match EMAIL_REGEX and pass the
 * length and dot checks; a password needs six characters; the error
 * helpers and the form check are built from those two.
 *
 * EMAIL_REGEX is given twice: as the set of strings it describes (a split
 * into local part, '@', domain, '.', top-level label) and as a direct
 * check, with a lemma that the two agree.
 */
module Validation {
  import opened Text

  /** `[a-zA-Z0-9._%+-]` */
  predicate IsLocalChar(c: char)
  {
    IsAsciiLetter(c) || IsDigit(c) || c == '.' || c == '_' || c == '%' || c == '+' || c == '-'
  }

  /** `[a-zA-Z0-9.-]` */
  predicate IsDomainChar(c: char)
  {
    IsAsciiLetter(c) || IsDigit(c) || c == '.' || c == '-'
  }

  /**
   * `e` splits at the '@' at `a` and the '.' at `p` into the parts of
   * `^[a-zA-Z0-9._%+-]+@[a-zA-Z0-9.-]+\.[a-zA-Z]{2,}$`.
   */
  predicate IsEmailSplit(e: string, a: int, p: int)
  {
    && 1 <= a && a + 2 <= p <= |e| - 3
    && e[a] == '@' && e[p] == '.'
    && (forall k :: 0 <= k < a ==> IsLocalChar(e[k]))
    && (forall k :: a < k < p ==> IsDomainChar(e[k]))
    && (forall k :: p < k < |e| ==> IsAsciiLetter(e[k]))
  }

  /** The strings EMAIL_REGEX accepts. */
  ghost predicate EmailShape(e: string)
  {
    exists a, p :: IsEmailSplit(e, a, p)
  }

  /** EMAIL_REGEX.test: the only possible split is at the first '@' and the last '.'. */
  predicate MatchesEmailRegex(e: string)
  {
    var a := IndexOf(e, '@');
    var p := LastIndexOf(e, '.');
    a >= 0 && p >= 0 && IsEmailSplit(e, a, p)
  }

  /** The direct check accepts exactly the strings the pattern describes. */
  lemma MatchesEmailRegexIffShape(e: string)
    ensures MatchesEmailRegex(e) <==> EmailShape(e)
  {
    if EmailShape(e) {
      var a, p :| IsEmailSplit(e, a, p);
      var i := IndexOf(e, '@');
      var j := LastIndexOf(e, '.');
      assert e[a] == '@' && e[p] == '.';
      assert i == a;
      assert j == p;
    }
  }

  /** A string the pattern accepts is not empty and ends with a letter, so never with a dot. */
  lemma EmailShapeEndsWithLetter(e: string)
    requires EmailShape(e)
    ensures |e| >= 5 && IsAsciiLetter(e[|e| - 1])
    ensures !EndsWith(e, ".")
  {
    var a, p :| IsEmailSplit(e, a, p);
    assert e[|e| - 1..] == [e[|e| - 1]];
  }

  /**
   * validateEmail. The emptiness check and the trailing-dot check never
   * decide the outcome: the pattern already excludes both.
   */
  function ValidateEmail(email: string): (r: bool)
    ensures r <==>
      EmailShape(email) && |email| <= 254 && !StartsWith(email, ".") && !Contains(email, "..")
  {
    MatchesEmailRegexIffShape(email);
    if email == [] then false
    else if !MatchesEmailRegex(email) then false
    else if |email| > 254 then false
    else if StartsWith(email, ".") || EndsWith(email, ".") || Contains(email, "..") then false
    else (EmailShapeEndsWithLetter(email); true)
  }

  datatype PasswordCheck = PasswordCheck(isValid: bool, message: string)

  const PasswordRequired: string := "Password is required"
  const PasswordTooShort: string := "Password must be at least 6 characters long"

  /** validatePassword: valid from six characters on; the message says why not. */
  function ValidatePassword(password: string): (r: PasswordCheck)
    ensures r.isValid <==> |password| >= 6
    ensures r.isValid <==> r.message == ""
    ensures password == "" ==> r.message == PasswordRequired
    ensures 0 < |password| < 6 ==> r.message == PasswordTooShort
  {
    if password == "" then PasswordCheck(false, PasswordRequired)
    else if |password| < 6 then PasswordCheck(false, PasswordTooShort)
    else PasswordCheck(true, "")
  }

  const EmailRequired: string := "Email is required"
  const EmailInvalid: string := "Please enter a valid email address"

  /** getEmailError: empty exactly for a valid email. */
  function GetEmailError(email: string): (r: string)
    ensures r == "" <==> ValidateEmail(email)
    ensures email == "" ==> r == EmailRequired
    ensures email != "" && !ValidateEmail(email) ==> r == EmailInvalid
  {
    if email == "" then EmailRequired
    else if !ValidateEmail(email) then EmailInvalid
    else ""
  }

  /** getPasswordError: the message of validatePassword. */
  function GetPasswordError(password: string): (r: string)
    ensures r == "" <==> |password| >= 6
    ensures r == ValidatePassword(password).message
  {
    ValidatePassword(password).message
  }

  /** isFormValid: a valid email and a valid password, that is, neither helper reports an error. */
  function IsFormValid(email: string, password: string): (r: bool)
    ensures r <==> GetEmailError(email) == "" && GetPasswordError(password) == ""
  {
    ValidateEmail(email) && ValidatePassword(password).isValid
  }
}
