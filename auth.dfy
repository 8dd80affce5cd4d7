/** The sign-in pages of routes/auth.js over the users table of db/users.js: ordered
    early-return validation, then the session fields a successful login or registration
    sets, and logout. bcrypt is outside the model: the hash a registration stores and
    the password comparison are parameters. */
module Auth {
  import opened Common
  import opened JsText
  import opened Sessions

  datatype User = User(id: int, email: string, passwordHash: string)

  /** The users table; `nextId` is the next value of its serial id. */
  class UserTable {
    var users: seq<User>
    var nextId: int

    /** Serial ids start at 1, so every stored id is truthy; ids and e-mail addresses
        are distinct. */
    predicate Valid()
      reads this
    {
      1 <= nextId
      && (forall k :: 0 <= k < |users| ==> 1 <= users[k].id < nextId)
      && (forall j, k :: 0 <= j < k < |users| ==> users[j].id != users[k].id && users[j].email != users[k].email)
    }

    constructor ()
      ensures Valid() && users == []
    {
      users := [];
      nextId := 1;
    }
  }

  /** `getUserByEmail`: the first row whose e-mail equals `email` exactly. */
  function UserByEmail(users: seq<User>, email: string): (r: Option<User>)
    ensures r.Some? ==> r.value in users && r.value.email == email
    ensures r.None? <==> forall k :: 0 <= k < |users| ==> users[k].email != email
  {
    if users == [] then None
    else if users[0].email == email then Some(users[0])
    else
      var r := UserByEmail(users[1..], email);
      assert forall k :: 1 <= k < |users| ==> users[k] == users[1..][k - 1];
      r
  }

  datatype Page =
    | RedirectTo(location: string)
    | LoginPage(error: Option<string>)
    | RegisterPage(error: Option<string>)
    | ErrorPage(message: string)

  const LoginFieldsRequired := "Email and password are required"
  const InvalidCredentials := "Invalid email or password"
  const GenericError := "An error occurred. Please try again."
  const RegisterFieldsRequired := "All fields are required"
  const PasswordsDiffer := "Passwords do not match"
  const PasswordTooShort := "Password must be at least 6 characters"
  const EmailInUse := "Email already in use"

  /** GET /login: a signed-in visitor goes to the dashboard. */
  function LoginForm(session: Session): (p: Page)
    reads session
    ensures session.SignedIn() <==> p == RedirectTo("/dashboard")
    ensures !session.SignedIn() <==> p == LoginPage(None)
  {
    if session.SignedIn() then RedirectTo("/dashboard") else LoginPage(None)
  }

  /** GET /register: a signed-in visitor goes to the dashboard. */
  function RegisterForm(session: Session): (p: Page)
    reads session
    ensures session.SignedIn() <==> p == RedirectTo("/dashboard")
    ensures !session.SignedIn() <==> p == RegisterPage(None)
  {
    if session.SignedIn() then RedirectTo("/dashboard") else RegisterPage(None)
  }

  /** What POST /login decides: the page, and the user to sign in, if any. `verify` is
      `bcrypt.compare`; `lookupFails` stands for a query that throws. */
  datatype LoginDecision = LoginDecision(page: Page, signIn: Option<User>)

  function DecideLogin(users: seq<User>, email: Option<string>, password: Option<string>,
                       verify: (string, string) -> bool, lookupFails: bool): (d: LoginDecision)
    ensures !Truthy(email) || !Truthy(password) ==> d == LoginDecision(LoginPage(Some(LoginFieldsRequired)), None)
    ensures Truthy(email) && Truthy(password) && lookupFails ==> d == LoginDecision(LoginPage(Some(GenericError)), None)
    ensures d.signIn.Some? <==>
      Truthy(email) && Truthy(password) && !lookupFails && UserByEmail(users, email.value).Some?
      && verify(password.value, UserByEmail(users, email.value).value.passwordHash)
    ensures d.signIn.Some? ==>
      (d.page == RedirectTo("/dashboard") && d.signIn.value in users
       && d.signIn.value.email == email.value && verify(password.value, d.signIn.value.passwordHash))
    ensures d.signIn.None? && Truthy(email) && Truthy(password) && !lookupFails ==>
      d.page == LoginPage(Some(InvalidCredentials))
  {
    if !Truthy(email) || !Truthy(password) then LoginDecision(LoginPage(Some(LoginFieldsRequired)), None)
    else if lookupFails then LoginDecision(LoginPage(Some(GenericError)), None)
    else
      match UserByEmail(users, email.value)
      case None => LoginDecision(LoginPage(Some(InvalidCredentials)), None)
      case Some(user) =>
        if !verify(password.value, user.passwordHash) then LoginDecision(LoginPage(Some(InvalidCredentials)), None)
        else LoginDecision(RedirectTo("/dashboard"), Some(user))
  }

  /** A failed login looks the same whether the address is unknown or the password is
      wrong: two tables that both refuse the attempt give the same page. */
  lemma FailedLoginRevealsNothing(users1: seq<User>, users2: seq<User>, email: Option<string>, password: Option<string>,
                                  verify: (string, string) -> bool, lookupFails: bool)
    requires DecideLogin(users1, email, password, verify, lookupFails).signIn.None?
    requires DecideLogin(users2, email, password, verify, lookupFails).signIn.None?
    ensures DecideLogin(users1, email, password, verify, lookupFails).page
         == DecideLogin(users2, email, password, verify, lookupFails).page
  {
  }

  /** POST /login. */
  method Login(session: Session, users: UserTable, email: Option<string>, password: Option<string>,
               verify: (string, string) -> bool, lookupFails: bool)
    returns (page: Page)
    requires users.Valid()
    modifies session
    ensures var d := DecideLogin(old(users.users), email, password, verify, lookupFails);
      page == d.page
      && (d.signIn.None? ==> session.userId == old(session.userId) && session.userEmail == old(session.userEmail))
      && (d.signIn.Some? ==> session.userId == Some(d.signIn.value.id) && session.userEmail == Some(d.signIn.value.email)
                             && session.SignedIn())
    ensures session.uploadState == old(session.uploadState) && session.destroyed == old(session.destroyed)
  {
    var d := DecideLogin(users.users, email, password, verify, lookupFails);
    page := d.page;
    if d.signIn.Some? {
      session.userId := Some(d.signIn.value.id);
      session.userEmail := Some(d.signIn.value.email);
    }
  }

  /** The refusal POST /register gives, checks in the order: every field present,
      passwords equal, password long enough, query fails, address unused. */
  function RegisterRefusal(users: seq<User>, email: Option<string>, password: Option<string>,
                           confirmPassword: Option<string>, lookupFails: bool): (r: Option<string>)
    ensures r.None? <==>
      Truthy(email) && Truthy(password) && Truthy(confirmPassword) && password == confirmPassword
      && |password.value| >= 6 && !lookupFails && UserByEmail(users, email.value).None?
    ensures !Truthy(email) || !Truthy(password) || !Truthy(confirmPassword) ==> r == Some(RegisterFieldsRequired)
    ensures Truthy(email) && Truthy(password) && Truthy(confirmPassword) && password != confirmPassword ==>
      r == Some(PasswordsDiffer)
    ensures (Truthy(email) && Truthy(password) && password == confirmPassword && |password.value| < 6) ==>
      r == Some(PasswordTooShort)
    ensures Truthy(email) && Truthy(password) && Truthy(confirmPassword) && password == confirmPassword
            && |password.value| >= 6 && lookupFails ==>
      r == Some(GenericError)
    ensures Truthy(email) && Truthy(password) && Truthy(confirmPassword) && password == confirmPassword
            && |password.value| >= 6 && !lookupFails && UserByEmail(users, email.value).Some? ==>
      r == Some(EmailInUse)
  {
    if !Truthy(email) || !Truthy(password) || !Truthy(confirmPassword) then Some(RegisterFieldsRequired)
    else if password != confirmPassword then Some(PasswordsDiffer)
    else if |password.value| < 6 then Some(PasswordTooShort)
    else if lookupFails then Some(GenericError)
    else if UserByEmail(users, email.value).Some? then Some(EmailInUse)
    else None
  }

  /** POST /register. `hashed` is what `bcrypt.hash(password, 10)` gives. */
  method Register(session: Session, users: UserTable, email: Option<string>, password: Option<string>,
                  confirmPassword: Option<string>, hashed: string, lookupFails: bool)
    returns (page: Page)
    requires users.Valid()
    modifies session, users
    ensures users.Valid()
    ensures var refusal := RegisterRefusal(old(users.users), email, password, confirmPassword, lookupFails);
      (refusal.Some? ==> page == RegisterPage(refusal) && users.users == old(users.users)
                         && session.userId == old(session.userId) && session.userEmail == old(session.userEmail))
      && (refusal.None? ==>
            users.users == old(users.users) + [User(old(users.nextId), email.value, hashed)]
            && session.userId == Some(old(users.nextId)) && session.userEmail == email
            && session.SignedIn() && page == RedirectTo("/dashboard"))
    ensures session.uploadState == old(session.uploadState) && session.destroyed == old(session.destroyed)
  {
    var refusal := RegisterRefusal(users.users, email, password, confirmPassword, lookupFails);
    if refusal.Some? {
      return RegisterPage(refusal);
    }
    var user := User(users.nextId, email.value, hashed);
    users.users := users.users + [user];
    users.nextId := users.nextId + 1;
    session.userId := Some(user.id);
    session.userEmail := Some(user.email);
    page := RedirectTo("/dashboard");
  }

  /** GET /logout. `destroyFails` stands for `session.destroy` reporting an error. */
  method Logout(session: Session, destroyFails: bool) returns (page: Page)
    modifies session
    ensures destroyFails ==> page == ErrorPage("Could not logout") && unchanged(session)
    ensures !destroyFails ==>
      (page == RedirectTo("/login") && session.destroyed
       && session.userId == None && session.userEmail == None && session.uploadState == None
       && !session.SignedIn())
  {
    if destroyFails {
      return ErrorPage("Could not logout");
    }
    session.destroyed := true;
    session.userId := None;
    session.userEmail := None;
    session.uploadState := None;
    page := RedirectTo("/login");
  }
}
