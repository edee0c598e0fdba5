/** The user routes (app/routes/user.py): KYC submission behind the PAN check, and the
    dashboard projection. The caller is the record `get_current_user` resolved. */
module UserRoutes {
  import opened Common
  import opened Store
  import opened PanValidator

  /** The users after `update_one({"_id": id}, {"$set": {…KYC fields…}})`: the first record
      with that id gets the PAN, address and phone and both KYC flags; no record matching
      changes nothing. */
  function WithKyc(users: seq<UserRecord>, id: nat, pan: string, address: string, phone: string): (r: seq<UserRecord>)
    ensures (forall k :: 0 <= k < |users| ==> users[k].id != id) ==> r == users
    ensures forall i :: FirstWithId(users, id, i) ==>
      && |r| == |users|
      && r[i] == users[i].(panNumber := Some(pan), address := Some(address), phone := Some(phone),
                           panVerified := Some(true), kycCompleted := Some(true))
      && forall k :: 0 <= k < |users| && k != i ==> r[k] == users[k]
  {
    match RecordById(users, id)
    case None => users
    case Some(i) =>
      users[i := users[i].(panNumber := Some(pan), address := Some(address), phone := Some(phone),
                           panVerified := Some(true), kycCompleted := Some(true))]
  }

  /** `submit_kyc`: 400 for a PAN `is_valid_pan` refuses, with nothing changed; otherwise the
      KYC update of the caller's record (a no-op when it is gone) and the success message. */
  method SubmitKyc(db: Database, user: UserRecord, pan: string, address: string, phone: string)
    returns (r: Result<string>)
    requires db.Valid()
    modifies db
    ensures db.Valid()
    ensures !IsValidPan(pan) ==> r == Error(400, "Invalid PAN format") && unchanged(db)
    ensures IsValidPan(pan) ==>
      && r == Ok("KYC completed successfully (OCR disabled)")
      && db.users == WithKyc(old(db.users), user.id, pan, address, phone)
      && db.admins == old(db.admins) && db.accounts == old(db.accounts)
      && db.transactions == old(db.transactions) && db.nextId == old(db.nextId)
  {
    if !IsValidPan(pan) {
      return Error(400, "Invalid PAN format");
    }
    var at := RecordById(db.users, user.id);
    if at.Some? {
      var u := db.users[at.value];
      db.users := db.users[at.value := u.(panNumber := Some(pan), address := Some(address), phone := Some(phone),
                                          panVerified := Some(true), kycCompleted := Some(true))];
    }
    r := Ok("KYC completed successfully (OCR disabled)");
  }

  /** The body of `get_dashboard`. */
  datatype Dashboard = Dashboard(name: string, email: string, kycCompleted: bool, account: Option<AccountView>)

  /** `get_dashboard`: 404 without a user record; `kyc_completed` reads as false when absent;
      the account is the user's first one, projected, or None. */
  function GetDashboard(users: seq<UserRecord>, accounts: seq<Account>, user: UserRecord): (r: Result<Dashboard>)
    ensures r.Error? <==> forall i :: 0 <= i < |users| ==> users[i].id != user.id
    ensures r.Error? ==> r == Error(404, "User not found")
    ensures forall i :: FirstWithId(users, user.id, i) ==>
      r.Ok? && r.value.name == users[i].name && r.value.email == users[i].email &&
      r.value.kycCompleted == (users[i].kycCompleted == Some(true))
    ensures r.Ok? ==> (r.value.account.None? <==> forall j :: 0 <= j < |accounts| ==> accounts[j].userId != user.id)
    ensures r.Ok? ==> forall j :: FirstOfUser(accounts, user.id, j) ==> r.value.account == Some(View(accounts[j]))
  {
    RecordByIdFirst(users, user.id);
    AccountOfUserFirst(accounts, user.id);
    match RecordById(users, user.id)
    case None => Error(404, "User not found")
    case Some(i) =>
      var kyc := match users[i].kycCompleted case Some(b) => b case None => false;
      var account := match AccountOfUser(accounts, user.id) case None => None case Some(j) => Some(View(accounts[j]));
      Ok(Dashboard(users[i].name, users[i].email, kyc, account))
  }

  /** After a valid KYC submission the dashboard reports KYC as completed. */
  lemma KycThenDashboard(users: seq<UserRecord>, accounts: seq<Account>, user: UserRecord,
                         pan: string, address: string, phone: string)
    requires exists i :: 0 <= i < |users| && users[i].id == user.id
    ensures GetDashboard(WithKyc(users, user.id, pan, address, phone), accounts, user).Ok?
    ensures GetDashboard(WithKyc(users, user.id, pan, address, phone), accounts, user).value.kycCompleted
  {
    var after := WithKyc(users, user.id, pan, address, phone);
    assert RecordById(after, user.id) == RecordById(users, user.id);
  }
}
