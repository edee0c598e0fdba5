/** The user authentication routes (app/routes/auth.py): signup refuses a registered email and
    stores a "user" with KYC not done; both logins check the first user with that email. */
module AuthRoutes {
  import opened Common
  import opened Security
  import opened Store
  import opened Dependencies

  /** The record `user_signup` inserts. */
  function NewUser(id: nat, email: string, password: string, name: string, salt: string): (u: UserRecord)
    ensures u.role == "user" && u.kycCompleted == Some(false)
    ensures u.id == id && u.email == email && u.name == name && VerifyPassword(password, u.password)
  {
    UserRecord(id, email, HashPassword(password, salt), name, "user", Some(false), None, None, None, None)
  }

  /** `user_signup`: 400 for a registered email; otherwise one user appended and a token for
      that email with role "user". `salt` is bcrypt's. */
  method UserSignup(db: Database, email: string, password: string, name: string, salt: string)
    returns (r: Result<Token>)
    requires db.Valid()
    modifies db
    ensures db.Valid()
    ensures !NoEmail(old(db.users), email) ==> r == Error(400, "Email already registered") && unchanged(db)
    ensures NoEmail(old(db.users), email) ==>
      && db.users == old(db.users) + [NewUser(old(db.nextId), email, password, name, salt)]
      && r == Ok(CreateAccessToken(Payload(email, "user")))
      && db.nextId == old(db.nextId) + 1
      && db.admins == old(db.admins) && db.accounts == old(db.accounts)
      && db.transactions == old(db.transactions)
  {
    var existing := RecordByEmail(db.users, email);
    if existing.Some? {
      return Error(400, "Email already registered");
    }
    db.users := db.users + [NewUser(db.nextId, email, password, name, salt)];
    db.nextId := db.nextId + 1;
    r := Ok(CreateAccessToken(Payload(email, "user")));
  }

  /** `user_login`: the first user with that email must verify the password; the token
      carries the stored email and role. */
  function UserLogin(users: seq<UserRecord>, email: string, password: string): (r: Result<Token>)
    ensures r.Error? ==> r == Error(401, "Invalid credentials")
    ensures r.Ok? <==>
      exists i :: 0 <= i < |users| && FirstWithEmail(users, email, i) && VerifyPassword(password, users[i].password)
    ensures r.Ok? ==>
      exists i :: 0 <= i < |users| && FirstWithEmail(users, email, i) &&
                  r.value == CreateAccessToken(Payload(users[i].email, users[i].role))
  {
    match RecordByEmail(users, email)
    case None => Error(401, "Invalid credentials")
    case Some(i) =>
      if !VerifyPassword(password, users[i].password) then Error(401, "Invalid credentials")
      else Ok(CreateAccessToken(Payload(users[i].email, users[i].role)))
  }

  /** The form `OAuth2PasswordRequestForm` posts. */
  datatype LoginForm = LoginForm(username: string, password: string)

  /** `oauth_login`: the same checks as `user_login`, with the form's username as the email. */
  function OauthLogin(users: seq<UserRecord>, form: LoginForm): (r: Result<Token>)
    ensures r == UserLogin(users, form.username, form.password)
  {
    match RecordByEmail(users, form.username)
    case None => Error(401, "Invalid credentials")
    case Some(i) =>
      if !VerifyPassword(form.password, users[i].password) then Error(401, "Invalid credentials")
      else Ok(CreateAccessToken(Payload(users[i].email, users[i].role)))
  }

  /** A user who has just signed up can log in with the password they chose, and gets the
      same token signup returned. */
  lemma SignupThenLogin(users: seq<UserRecord>, id: nat, email: string, password: string, name: string, salt: string)
    requires NoEmail(users, email)
    ensures UserLogin(users + [NewUser(id, email, password, name, salt)], email, password) ==
      Ok(CreateAccessToken(Payload(email, "user")))
  {
    var after := users + [NewUser(id, email, password, name, salt)];
    assert forall j :: 0 <= j < |users| ==> after[j] == users[j] && after[j].email != email;
    assert after[|users|].email == email;
    assert RecordByEmail(after, email) == Some(|users|);
  }

  /** The signup token resolves, through `get_current_user`, to the record just inserted. */
  lemma SignupTokenResolves(users: seq<UserRecord>, admins: seq<UserRecord>, id: nat, email: string,
                            password: string, name: string, salt: string)
    requires NoEmail(users, email)
    ensures GetCurrentUser(users + [NewUser(id, email, password, name, salt)], admins,
                           CreateAccessToken(Payload(email, "user"))) ==
      Ok(NewUser(id, email, password, name, salt))
  {
    var after := users + [NewUser(id, email, password, name, salt)];
    assert forall j :: 0 <= j < |users| ==> after[j] == users[j] && after[j].email != email;
    assert after[|users|].email == email;
    assert RecordByEmail(after, email) == Some(|users|);
  }
}
