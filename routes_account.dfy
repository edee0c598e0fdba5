/** `POST /account/create` (app/routes/account.py): only callers with role "user" may open an
    account; the response is the five-field projection of the account created. The caller is
    the record `get_current_user` resolved. */
module AccountRoutes {
  import opened Common
  import opened Store
  import opened AccountNumber
  import opened AccountService

  /** `create_new_account`. */
  method CreateNewAccount(db: Database, user: UserRecord, kind: AccountType, draws: seq<string>)
    returns (r: Result<AccountView>)
    requires db.Valid()
    requires user.role == "user" ==> AllDigitDraws(draws)
    requires user.role == "user" ==>
      exists k :: 0 <= k < |draws| && !NumberTaken(db.accounts, GenerateAccountNumber(draws[k]))
    modifies db
    ensures db.Valid()
    ensures user.role != "user" ==>
      r == Error(403, "Only users can create accounts") && unchanged(db)
    ensures user.role == "user" ==>
      && r.Ok?
      && db.accounts == old(db.accounts) + [Account(user.id, r.value.number, kind, OpeningBalance, AccountLimit(kind), true)]
      && r.value == View(db.accounts[|old(db.accounts)|])
      && IsAccountNumber(r.value.number)
      && !NumberTaken(old(db.accounts), r.value.number)
      && db.users == old(db.users) && db.admins == old(db.admins)
      && db.transactions == old(db.transactions) && db.nextId == old(db.nextId)
  {
    if user.role != "user" {
      return Error(403, "Only users can create accounts");
    }
    var account := CreateAccount(db, user.id, kind, draws);
    r := Ok(View(account));
  }
}
