/** Registration and login rules of the account serializers. User creation, password hashing
    and Django's `authenticate` are oracles: only which user they yield matters. */
module AccountSerializers {
  import opened Base

  const MinPasswordLength: nat := 6

  /** The registration fields the field validators check before `validate` runs. */
  datatype RegField = RegEmail | RegPassword | RegPasswordConfirm

  datatype RegistrationError = FieldErrors(fields: set<RegField>) | PasswordMismatch

  /** The key a registration error is reported under. */
  function RegistrationErrorKey(e: RegistrationError): set<string> {
    match e
    case FieldErrors(fs) =>
      (if RegEmail in fs then {"email"} else {}) + (if RegPassword in fs then {"password"} else {})
      + (if RegPasswordConfirm in fs then {"password_confirm"} else {})
    case PasswordMismatch => {"password"}
  }

  /** The registration payload; `emailValid` is the verdict of the email field's validator. */
  datatype Registration = Registration(email: string, emailValid: bool, password: string, passwordConfirm: string,
                                       firstName: string, lastName: string, bio: Option<string>)

  /** What the field validators accept: a valid email and passwords of at least six characters. */
  predicate FieldsValid(reg: Registration) {
    reg.emailValid && |reg.password| >= MinPasswordLength && |reg.passwordConfirm| >= MinPasswordLength
  }

  /** Field validation (every field's errors at once), then `validate`'s equality check. */
  function ValidateRegistration(reg: Registration): (r: Result<Registration, RegistrationError>)
    ensures r.Ok? <==> FieldsValid(reg) && reg.password == reg.passwordConfirm
    ensures r.Ok? ==> r.value == reg
    ensures |reg.password| < MinPasswordLength ==> r.Err? && r.error.FieldErrors? && RegPassword in r.error.fields
    ensures r == Err(PasswordMismatch) <==> FieldsValid(reg) && reg.password != reg.passwordConfirm
    ensures r.Err? ==> "password" in RegistrationErrorKey(r.error) || !reg.emailValid || |reg.passwordConfirm| < MinPasswordLength
  {
    var bad := (if reg.emailValid then {} else {RegEmail})
               + (if |reg.password| >= MinPasswordLength then {} else {RegPassword})
               + (if |reg.passwordConfirm| >= MinPasswordLength then {} else {RegPasswordConfirm});
    if bad != {} then Err(FieldErrors(bad))
    else if reg.password != reg.passwordConfirm then Err(PasswordMismatch)
    else Ok(reg)
  }

  /** The arguments `create_user` receives: the password apart, and no confirmation field. */
  datatype CreateUserArgs = CreateUserArgs(username: string, email: string, firstName: string, lastName: string,
                                           password: string)

  datatype Profile = Profile(bio: Option<string>)

  /** `create`: the username is the email; the profile the signal created is used, or a fresh
      one; the bio is stored only when non-empty. */
  function CreateAccount(reg: Registration, signalProfile: Option<Profile>): (r: (CreateUserArgs, Profile))
    ensures r.0.username == reg.email && r.0.email == reg.email && r.0.password == reg.password
    ensures r.0.firstName == reg.firstName && r.0.lastName == reg.lastName
    ensures reg.bio.Some? && reg.bio.value != "" ==> r.1.bio == reg.bio
    ensures reg.bio.None? || reg.bio.value == "" ==> r.1 == signalProfile.GetOr(Profile(None))
  {
    var args := CreateUserArgs(reg.email, reg.email, reg.firstName, reg.lastName, reg.password);
    var profile := signalProfile.GetOr(Profile(None));
    var bio := reg.bio.GetOr("");
    (args, if bio != "" then profile.(bio := Some(bio)) else profile)
  }

  datatype User = User(id: nat, username: string, email: string, isActive: bool)

  datatype LoginError = MissingCredentials | InvalidCredentials | AccountDisabled | MultipleUsers

  /** The `non_field_errors` message of each login error; two users with one email make
      `User.objects.get` raise, which the serializer does not catch. */
  function LoginMessage(e: LoginError): string {
    match e
    case MissingCredentials => "Must include \"email\" and \"password\""
    case InvalidCredentials => "Invalid email or password"
    case AccountDisabled => "User account is disabled"
    case MultipleUsers => ""
  }

  /** The users registered under `email`. */
  function UsersWithEmail(users: seq<User>, email: string): (r: seq<User>)
    ensures forall u :: u in r <==> u in users && u.email == email
  {
    if |users| == 0 then []
    else
      var rest := UsersWithEmail(users[..|users| - 1], email);
      assert users == users[..|users| - 1] + [users[|users| - 1]];
      if users[|users| - 1].email == email then rest + [users[|users| - 1]] else rest
  }

  /** `UserLoginSerializer.validate`. `authenticate` yields the user for a correct username and
      password, or nothing. */
  function Login(email: string, password: string, users: seq<User>,
                 authenticate: (string, string) -> Option<User>): (r: Result<User, LoginError>)
    ensures email == "" || password == "" ==> r == Err(MissingCredentials)
    ensures r.Ok? ==> r.value.isActive && |UsersWithEmail(users, email)| == 1
                      && authenticate(UsersWithEmail(users, email)[0].username, password) == Some(r.value)
    ensures r == Err(AccountDisabled) ==>
              |UsersWithEmail(users, email)| == 1 && authenticate(UsersWithEmail(users, email)[0].username, password).Some?
    ensures email != "" && password != "" && UsersWithEmail(users, email) == [] ==> r == Err(InvalidCredentials)
    ensures email != "" && password != "" && |UsersWithEmail(users, email)| > 1 ==> r == Err(MultipleUsers)
    ensures var found := UsersWithEmail(users, email);
            email != "" && password != "" && |found| == 1 ==>
              match authenticate(found[0].username, password)
              case None => r == Err(InvalidCredentials)
              case Some(u) => r == (if u.isActive then Ok(u) else Err(AccountDisabled))
  {
    if email == "" || password == "" then Err(MissingCredentials)
    else
      var found := UsersWithEmail(users, email);
      if |found| == 0 then Err(InvalidCredentials)
      else if |found| > 1 then Err(MultipleUsers)
      else
        match authenticate(found[0].username, password)
        case None => Err(InvalidCredentials)
        case Some(u) => if !u.isActive then Err(AccountDisabled) else Ok(u)
  }

  /** An unknown email and a wrong password for a known one are reported identically, so a failed
      login does not reveal whether the email is registered. */
  lemma LoginDoesNotRevealEmails(email: string, password: string, users: seq<User>, known: seq<User>,
                                 authenticate: (string, string) -> Option<User>)
    requires email != "" && password != ""
    requires UsersWithEmail(users, email) == []
    requires |UsersWithEmail(known, email)| == 1
    requires authenticate(UsersWithEmail(known, email)[0].username, password).None?
    ensures Login(email, password, users, authenticate) == Login(email, password, known, authenticate)
    ensures LoginMessage(Login(email, password, users, authenticate).error) == "Invalid email or password"
  {
  }
}
