/** The admin routes (app/routes/admin.py): signup behind the bank secret, login, search by
    account number or by name, the detail view of one account, deactivation and limit change.
    The routes after login run behind `Dependencies.AdminGate`, applied before the handler. */
module AdminRoutes {
  import opened Common
  import opened Security
  import opened Store

  /** `admin_signup`. `configuredSecret` is `settings.BANK_ADMIN_SECRET`; `salt` is bcrypt's. */
  method AdminSignup(db: Database, email: string, password: string, name: string,
                     bankSecret: string, configuredSecret: string, salt: string)
    returns (r: Result<Token>)
    requires db.Valid()
    modifies db
    ensures db.Valid()
    ensures bankSecret != configuredSecret ==> r == Error(403, "Invalid bank secret") && unchanged(db)
    ensures bankSecret == configuredSecret && !NoEmail(old(db.admins), email) ==>
      r == Error(400, "Admin already exists") && unchanged(db)
    ensures bankSecret == configuredSecret && NoEmail(old(db.admins), email) ==>
      && db.admins == old(db.admins) +
           [UserRecord(old(db.nextId), email, HashPassword(password, salt), name, "admin", None, None, None, None, None)]
      && r == Ok(CreateAccessToken(Payload(IdText(old(db.nextId)), "admin")))
      && db.nextId == old(db.nextId) + 1
      && db.users == old(db.users) && db.accounts == old(db.accounts)
      && db.transactions == old(db.transactions)
  {
    if bankSecret != configuredSecret {
      return Error(403, "Invalid bank secret");
    }
    var existing := RecordByEmail(db.admins, email);
    if existing.Some? {
      return Error(400, "Admin already exists");
    }
    var admin := UserRecord(db.nextId, email, HashPassword(password, salt), name, "admin", None, None, None, None, None);
    db.admins := db.admins + [admin];
    var token := CreateAccessToken(Payload(IdText(db.nextId), "admin"));
    db.nextId := db.nextId + 1;
    r := Ok(token);
  }

  /** `admin_login`: the first admin with that email must verify the password. */
  function AdminLogin(admins: seq<UserRecord>, email: string, password: string): (r: Result<Token>)
    ensures r.Error? ==> r == Error(401, "Invalid credentials")
    ensures r.Ok? <==> exists i :: 0 <= i < |admins| && FirstWithEmail(admins, email, i) && VerifyPassword(password, admins[i].password)
    ensures r.Ok? ==> exists i :: FirstWithEmail(admins, email, i) &&
                               r.value == CreateAccessToken(Payload(IdText(admins[i].id), "admin"))
  {
    match RecordByEmail(admins, email)
    case None => Error(401, "Invalid credentials")
    case Some(i) =>
      if !VerifyPassword(password, admins[i].password) then Error(401, "Invalid credentials")
      else Ok(CreateAccessToken(Payload(IdText(admins[i].id), "admin")))
  }

  /** A successful admin login yields a token that decodes to the admin role. */
  lemma AdminLoginTokenIsAdmin(admins: seq<UserRecord>, email: string, password: string)
    requires AdminLogin(admins, email, password).Ok?
    ensures DecodeToken(AdminLogin(admins, email, password).value).Some?
    ensures DecodeToken(AdminLogin(admins, email, password).value).value.role == "admin"
  {
  }

  // ----- search_user -----

  /** One record of a search: the user's name and email and the account's five fields. */
  datatype SearchRecord = SearchRecord(name: string, email: string, account: AccountView)

  /** An exact account-number hit returns one record; a name search returns a list. */
  datatype SearchResult = Single(record: SearchRecord) | Many(records: seq<SearchRecord>)

  /** What the name-search loop has collected after the first `n` users: each user whose name
      `matches` and who has an account, with that user's first account. */
  function NameSearch(accounts: seq<Account>, users: seq<UserRecord>, matches: string -> bool, n: nat): (r: seq<SearchRecord>)
    requires n <= |users|
  {
    if n == 0 then []
    else
      var prev := NameSearch(accounts, users, matches, n - 1);
      var u := users[n - 1];
      if !matches(u.name) then prev
      else match AccountOfUser(accounts, u.id)
        case None => prev
        case Some(a) => prev + [SearchRecord(u.name, u.email, View(accounts[a]))]
  }

  /** Every name-search record belongs to a user whose name matches, and shows that user's
      first account. */
  lemma {:induction false} NameSearchSound(accounts: seq<Account>, users: seq<UserRecord>,
                                           matches: string -> bool, n: nat, k: nat)
    requires n <= |users| && k < |NameSearch(accounts, users, matches, n)|
    ensures exists i :: 0 <= i < n && matches(users[i].name) && AccountOfUser(accounts, users[i].id).Some? &&
                        NameSearch(accounts, users, matches, n)[k] ==
                          SearchRecord(users[i].name, users[i].email, View(accounts[AccountOfUser(accounts, users[i].id).value]))
  {
    var prev := NameSearch(accounts, users, matches, n - 1);
    if k < |prev| {
      NameSearchSound(accounts, users, matches, n - 1, k);
      var i :| 0 <= i < n - 1 && matches(users[i].name) && AccountOfUser(accounts, users[i].id).Some? &&
        prev[k] == SearchRecord(users[i].name, users[i].email, View(accounts[AccountOfUser(accounts, users[i].id).value]));
      assert NameSearch(accounts, users, matches, n)[k] == prev[k];
    } else {
      assert matches(users[n - 1].name) && AccountOfUser(accounts, users[n - 1].id).Some?;
    }
  }

  /** Every user among the first `n` whose name matches and who has an account is found. */
  lemma {:induction false} NameSearchComplete(accounts: seq<Account>, users: seq<UserRecord>,
                                              matches: string -> bool, n: nat, i: nat)
    requires i < n <= |users| && matches(users[i].name) && AccountOfUser(accounts, users[i].id).Some?
    ensures SearchRecord(users[i].name, users[i].email, View(accounts[AccountOfUser(accounts, users[i].id).value]))
      in NameSearch(accounts, users, matches, n)
  {
    if i < n - 1 {
      NameSearchComplete(accounts, users, matches, n - 1, i);
    }
  }

  /** `search_user`. `matches` stands for the case-insensitive `$regex` on the name built from
      the query. A user missing behind an account found by number makes the handler fail
      (500). */
  method SearchUser(db: Database, query: string, matches: string -> bool) returns (r: Result<SearchResult>)
    ensures AccountByNumber(db.accounts, query).Some? ==>
      var a := db.accounts[AccountByNumber(db.accounts, query).value];
      match RecordById(db.users, a.userId)
      case None => r == Error(500, "Internal Server Error")
      case Some(u) => r == Ok(Single(SearchRecord(db.users[u].name, db.users[u].email, View(a))))
    ensures AccountByNumber(db.accounts, query).None? ==>
      var found := NameSearch(db.accounts, db.users, matches, |db.users|);
      (r.Error? <==> found == []) &&
      (r.Error? ==> r == Error(404, "No records found")) &&
      (r.Ok? ==> r.value == Many(found))
  {
    var at := AccountByNumber(db.accounts, query);
    if at.Some? {
      var a := db.accounts[at.value];
      var u := RecordById(db.users, a.userId);
      if u.None? {
        return Error(500, "Internal Server Error");
      }
      var user := db.users[u.value];
      return Ok(Single(SearchRecord(user.name, user.email, View(a))));
    }
    var results: seq<SearchRecord> := [];
    var i := 0;
    while i < |db.users|
      invariant 0 <= i <= |db.users|
      invariant results == NameSearch(db.accounts, db.users, matches, i)
    {
      var user := db.users[i];
      if matches(user.name) {
        var acc := AccountOfUser(db.accounts, user.id);
        if acc.Some? {
          results := results + [SearchRecord(user.name, user.email, View(db.accounts[acc.value]))];
        }
      }
      i := i + 1;
    }
    if results == [] {
      return Error(404, "No records found");
    }
    r := Ok(Many(results));
  }

  // ----- view_user -----

  /** One transaction as `view_user` lists it. */
  datatype TxView = TxView(from: string, to: string, amount: int, time: int)

  /** The body of `view_user`. Fields the user document may lack are options. */
  datatype UserDetails = UserDetails(name: string, email: string, phone: Option<string>,
                                     address: Option<string>, panNumber: Option<string>,
                                     account: AccountView, transactions: seq<TxView>)

  function ViewOf(tx: Tx): TxView
  {
    TxView(tx.from, tx.to, tx.amount, tx.timestamp)
  }

  /** `view_user`: 404 for an unknown account number, 500 when its user is missing; otherwise
      the owner, the account and every transaction of that number, newest first. */
  method ViewUser(db: Database, number: string) returns (r: Result<UserDetails>)
    ensures AccountByNumber(db.accounts, number).None? <==> r == Error(404, "Account not found")
    ensures AccountByNumber(db.accounts, number).Some? ==>
      var a := db.accounts[AccountByNumber(db.accounts, number).value];
      var cursor := TransactionsOf(db.transactions, number);
      match RecordById(db.users, a.userId)
      case None => r == Error(500, "Internal Server Error")
      case Some(u) =>
        && r.Ok?
        && r.value.name == db.users[u].name && r.value.email == db.users[u].email
        && r.value.phone == db.users[u].phone && r.value.address == db.users[u].address
        && r.value.panNumber == db.users[u].panNumber
        && r.value.account == View(a)
        && |r.value.transactions| == |cursor|
        && (forall k :: 0 <= k < |cursor| ==> r.value.transactions[k] == ViewOf(cursor[k]))
        && (forall i, j :: 0 <= i < j < |cursor| ==> r.value.transactions[i].time >= r.value.transactions[j].time)
  {
    var at := AccountByNumber(db.accounts, number);
    if at.None? {
      return Error(404, "Account not found");
    }
    var account := db.accounts[at.value];
    var u := RecordById(db.users, account.userId);
    var cursor := TransactionsOf(db.transactions, number);
    SortByTimeDescCorrect(Filter(db.transactions, (t: Tx) => t.from == number || t.to == number));
    var transactions: seq<TxView> := [];
    var i := 0;
    while i < |cursor|
      invariant 0 <= i <= |cursor|
      invariant |transactions| == i
      invariant forall k :: 0 <= k < i ==> transactions[k] == ViewOf(cursor[k])
    {
      transactions := transactions + [TxView(cursor[i].from, cursor[i].to, cursor[i].amount, cursor[i].timestamp)];
      i := i + 1;
    }
    if u.None? {
      return Error(500, "Internal Server Error");
    }
    var user := db.users[u.value];
    r := Ok(UserDetails(user.name, user.email, user.phone, user.address, user.panNumber, View(account), transactions));
  }

  // ----- delete_account and update_limit -----

  /** The accounts after `update_one({"account_number": number}, {"$set": {"is_active": False}})`. */
  function Deactivated(accounts: seq<Account>, number: string): (r: seq<Account>)
    ensures |r| == |accounts|
    ensures forall k :: 0 <= k < |r| ==> r[k].number == accounts[k].number && r[k].balance == accounts[k].balance
  {
    match AccountByNumber(accounts, number)
    case None => accounts
    case Some(i) => accounts[i := accounts[i].(isActive := false)]
  }

  /** The accounts after `update_one({"account_number": number}, {"$set": {"daily_limit": limit}})`. */
  function WithLimit(accounts: seq<Account>, number: string, limit: int): (r: seq<Account>)
    ensures |r| == |accounts|
    ensures forall k :: 0 <= k < |r| ==> r[k].number == accounts[k].number && r[k].balance == accounts[k].balance
  {
    match AccountByNumber(accounts, number)
    case None => accounts
    case Some(i) => accounts[i := accounts[i].(dailyLimit := limit)]
  }

  /** Deactivation touches exactly the first account with that number, and of it only the
      active flag. */
  lemma DeactivatedEffect(accounts: seq<Account>, number: string)
    ensures AccountByNumber(accounts, number).None? ==> Deactivated(accounts, number) == accounts
    ensures AccountByNumber(accounts, number).Some? ==>
      var i := AccountByNumber(accounts, number).value;
      && Deactivated(accounts, number)[i] == accounts[i].(isActive := false)
      && forall k :: 0 <= k < |accounts| && k != i ==> Deactivated(accounts, number)[k] == accounts[k]
  {
  }

  /** A limit change touches exactly the first account with that number, and of it only the
      daily limit. */
  lemma WithLimitEffect(accounts: seq<Account>, number: string, limit: int)
    ensures AccountByNumber(accounts, number).None? ==> WithLimit(accounts, number, limit) == accounts
    ensures AccountByNumber(accounts, number).Some? ==>
      var i := AccountByNumber(accounts, number).value;
      && WithLimit(accounts, number, limit)[i] == accounts[i].(dailyLimit := limit)
      && forall k :: 0 <= k < |accounts| && k != i ==> WithLimit(accounts, number, limit)[k] == accounts[k]
  {
  }

  /** Deactivating twice is deactivating once. */
  lemma DeactivateIdempotent(accounts: seq<Account>, number: string)
    ensures Deactivated(Deactivated(accounts, number), number) == Deactivated(accounts, number)
  {
    AccountByNumberSameNumbers(accounts, Deactivated(accounts, number), number);
  }

  /** Setting a limit twice is setting it once, and the last limit set wins. */
  lemma WithLimitLastWins(accounts: seq<Account>, number: string, first: int, second: int)
    ensures WithLimit(WithLimit(accounts, number, first), number, second) == WithLimit(accounts, number, second)
  {
    AccountByNumberSameNumbers(accounts, WithLimit(accounts, number, first), number);
  }

  /** `delete_account`: deactivate the account, or 404 when no account has that number. */
  method DeleteAccount(db: Database, number: string) returns (r: Result<string>)
    requires db.Valid()
    modifies db
    ensures db.Valid()
    ensures r.Error? <==> forall k :: 0 <= k < |old(db.accounts)| ==> old(db.accounts)[k].number != number
    ensures r.Error? ==> r == Error(404, "Account not found")
    ensures r.Ok? ==> r.value == "Account deactivated successfully"
    ensures db.accounts == Deactivated(old(db.accounts), number)
    ensures db.users == old(db.users) && db.admins == old(db.admins)
    ensures db.transactions == old(db.transactions) && db.nextId == old(db.nextId)
  {
    var at := AccountByNumber(db.accounts, number);
    if at.None? {
      return Error(404, "Account not found");
    }
    db.accounts := db.accounts[at.value := db.accounts[at.value].(isActive := false)];
    r := Ok("Account deactivated successfully");
  }

  /** `update_limit`: set the daily limit, or 404 when no account has that number. */
  method UpdateLimit(db: Database, number: string, newLimit: int) returns (r: Result<string>)
    requires db.Valid()
    modifies db
    ensures db.Valid()
    ensures r.Error? <==> forall k :: 0 <= k < |old(db.accounts)| ==> old(db.accounts)[k].number != number
    ensures r.Error? ==> r == Error(404, "Account not found")
    ensures r.Ok? ==> r.value == "Daily limit updated"
    ensures db.accounts == WithLimit(old(db.accounts), number, newLimit)
    ensures db.users == old(db.users) && db.admins == old(db.admins)
    ensures db.transactions == old(db.transactions) && db.nextId == old(db.nextId)
  {
    var at := AccountByNumber(db.accounts, number);
    if at.None? {
      return Error(404, "Account not found");
    }
    db.accounts := db.accounts[at.value := db.accounts[at.value].(dailyLimit := newLimit)];
    r := Ok("Daily limit updated");
  }
}
