/** The sign-in / sign-up page: the form checks made before the server is asked, and how a
    failed registration is explained to the user. */
module AuthPage {
  import opened Base
  import opened Strings
  import ComponentData

  /** The shortest password the form accepts. */
  const MinPasswordLength: nat := 6

  /** The form problems, reported one at a time. */
  datatype FormError = InvalidEmail | InvalidPassword | PasswordsDiffer

  /** `validateEmail`: the address has the shape `^[^\s@]+@[^\s@]+\.[^\s@]+$` (the untrimmed input). */
  predicate ValidEmail(email: string) {
    ComponentData.EmailShaped(email)
  }

  /** `validatePassword`: at least six characters. */
  predicate ValidPassword(password: string) {
    |password| >= MinPasswordLength
  }

  /** `handleSignUp` before the request: the email, then the password, then the confirmation,
      stopping at the first failure; `None` lets the registration go ahead. */
  function CheckSignUp(email: string, password: string, confirm: string): (r: Option<FormError>)
    ensures r.None? <==> ValidEmail(email) && ValidPassword(password) && password == confirm
    ensures r == Some(InvalidEmail) <==> !ValidEmail(email)
    ensures r == Some(InvalidPassword) <==> ValidEmail(email) && !ValidPassword(password)
    ensures r == Some(PasswordsDiffer) <==> ValidEmail(email) && ValidPassword(password) && password != confirm
  {
    if !ValidEmail(email) then Some(InvalidEmail)
    else if !ValidPassword(password) then Some(InvalidPassword)
    else if password != confirm then Some(PasswordsDiffer)
    else None
  }

  /** `handleSignIn` before the request: the email, then the password. */
  function CheckSignIn(email: string, password: string): (r: Option<FormError>)
    ensures r.None? <==> ValidEmail(email) && ValidPassword(password)
    ensures r == Some(InvalidEmail) <==> !ValidEmail(email)
    ensures r != Some(PasswordsDiffer)
  {
    if !ValidEmail(email) then Some(InvalidEmail)
    else if !ValidPassword(password) then Some(InvalidPassword)
    else None
  }

  /** Signing up with a matching confirmation is refused exactly as signing in would be. */
  lemma SignUpExtendsSignIn(email: string, password: string)
    ensures CheckSignUp(email, password, password) == CheckSignIn(email, password)
  {
  }

  /** How a failed registration is reported. */
  datatype RegistrationError = AccountExists | PasswordError | EmailError | RegistrationFailed

  const DefaultRegistrationMessage: string := "Failed to create account"

  /** `error.message || "Failed to create account"`. */
  function ErrorMessage(message: string): (r: string)
    ensures r != ""
    ensures message != "" ==> r == message
  {
    if message != "" then message else DefaultRegistrationMessage
  }

  /** The lower-cased message mentions an existing account. */
  predicate SaysExists(lower: string) {
    Contains(lower, "already exists") || Contains(lower, "already registered")
    || (Contains(lower, "email") && Contains(lower, "exist"))
  }

  /** The classification of a registration failure, in priority order: an existing account,
      then a password problem, then an email problem, else a generic failure. */
  function ClassifyRegistrationError(message: string): (r: RegistrationError)
    ensures var m := Lower(ErrorMessage(message));
            (r == AccountExists <==> SaysExists(m))
            && (r == PasswordError <==> !SaysExists(m) && Contains(m, "password"))
            && (r == EmailError <==> !SaysExists(m) && !Contains(m, "password") && Contains(m, "email"))
  {
    var m := Lower(ErrorMessage(message));
    if SaysExists(m) then AccountExists
    else if Contains(m, "password") then PasswordError
    else if Contains(m, "email") then EmailError
    else RegistrationFailed
  }

  /** Upper-case letters do not hide a word from the classification. */
  lemma LowerIdempotent(s: string)
    ensures Lower(Lower(s)) == Lower(s)
  {
  }

  /** Shouting the message gives the same classification as writing it in lower case. */
  lemma ClassificationIgnoresCase(message: string)
    requires message != ""
    ensures ClassifyRegistrationError(Lower(message)) == ClassifyRegistrationError(message)
  {
    assert Lower(message) != "";
    LowerIdempotent(message);
  }

  /** A message whose lower-cased text has none of the letters x, y, p and m (the default
      "Failed to create account" among them) is reported as a generic failure. */
  lemma UnrelatedMessageIsGenericFailure(message: string)
    requires var m := Lower(ErrorMessage(message)); 'x' !in m && 'y' !in m && 'p' !in m && 'm' !in m
    ensures ClassifyRegistrationError(message) == RegistrationFailed
  {
    var m := Lower(ErrorMessage(message));
    MissingLetter(m, "exist", 1);
    MissingLetter(m, "already exists", 6);
    MissingLetter(m, "already registered", 6);
    MissingLetter(m, "password", 0);
    MissingLetter(m, "email", 1);
  }

  /** A word with a letter the text lacks does not occur in it. */
  lemma MissingLetter(s: string, w: string, k: nat)
    requires k < |w| && w[k] !in s
    ensures !Contains(s, w)
  {
    forall i: nat | i <= |s| ensures !OccursAt(s, w, i) {
      if i + |w| <= |s| {
        assert s[i..i + |w|][k] == s[i + k];
        assert s[i + k] in s;
      }
    }
  }
}
