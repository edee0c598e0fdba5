/** Authentication dependencies (app/core/dependencies.py). The module defines
    `get_current_user` twice. `is_admin` is defined between the two, and its default
    `Depends(get_current_user)` is evaluated then, so it binds the first definition, which only
    decodes the token. Every importer of `get_current_user` gets the second definition, which
    also looks the caller up in the database. */
module Dependencies {
  import opened Common
  import opened Security
  import opened Store

  /** The first `get_current_user`: the decoded claims, or 401 when jose raises. */
  function GetCurrentUserPayload(token: Token): (r: Result<Payload>)
    ensures r.Ok? <==> token.Signed?
    ensures r.Ok? ==> r.value == token.payload
    ensures r.Error? ==> r == Error(401, "Invalid token")
  {
    match DecodeToken(token)
    case None => Error(401, "Invalid token")
    case Some(p) => Ok(p)
  }

  /** `is_admin` applied to the claims it is given. */
  function IsAdmin(user: Payload): (r: Result<Payload>)
    ensures r.Ok? <==> user.role == "admin"
    ensures r.Ok? ==> r.value == user
    ensures r.Error? ==> r == Error(403, "Admin access required")
  {
    if user.role != "admin" then Error(403, "Admin access required") else Ok(user)
  }

  /** `Depends(is_admin)` as the admin routes see it: the first `get_current_user`, then the
      role check. It reads no collection. */
  function AdminGate(token: Token): (r: Result<Payload>)
  {
    match GetCurrentUserPayload(token)
    case Error(status, detail) => Error(status, detail)
    case Ok(p) => IsAdmin(p)
  }

  /** An admin route is entered exactly with a signed token whose role claim is "admin";
      a bad token is 401 and any other role is 403. */
  lemma AdminGateIff(token: Token)
    ensures AdminGate(token).Ok? <==> token.Signed? && token.payload.role == "admin"
    ensures AdminGate(token).Ok? ==> AdminGate(token).value == token.payload
    ensures token.Unsigned? ==> AdminGate(token) == Error(401, "Invalid token")
    ensures token.Signed? && token.payload.role != "admin" ==>
      AdminGate(token) == Error(403, "Admin access required")
  {
  }

  /** The collection the second `get_current_user` searches for a role. */
  function TableFor(users: seq<UserRecord>, admins: seq<UserRecord>, role: string): seq<UserRecord>
  {
    if role == "user" then users else admins
  }

  /** The second `get_current_user`: the first record of `users` (role "user") or of `admins`
      (any other role) whose email is the `sub` claim, with its role replaced by the token's;
      401 when the token does not decode or no record matches. */
  function GetCurrentUser(users: seq<UserRecord>, admins: seq<UserRecord>, token: Token): (r: Result<UserRecord>)
    ensures r.Error? ==> r == Error(401, "Invalid token")
    ensures r.Ok? <==>
      token.Signed? &&
      exists i :: 0 <= i < |TableFor(users, admins, token.payload.role)| &&
        TableFor(users, admins, token.payload.role)[i].email == token.payload.sub
    ensures r.Ok? ==>
      var table := TableFor(users, admins, token.payload.role);
      exists i :: 0 <= i < |table| && table[i].email == token.payload.sub &&
        (forall j :: 0 <= j < i ==> table[j].email != token.payload.sub) &&
        r.value == table[i].(role := token.payload.role)
  {
    match DecodeToken(token)
    case None => Error(401, "Invalid token")
    case Some(p) =>
      var table := TableFor(users, admins, p.role);
      match RecordByEmail(table, p.sub)
      case None => Error(401, "Invalid token")
      case Some(i) => Ok(table[i].(role := p.role))
  }

  /** The record `get_current_user` returns carries the token's role and the token's subject
      as its email. */
  lemma CurrentUserMatchesToken(users: seq<UserRecord>, admins: seq<UserRecord>, token: Token)
    requires GetCurrentUser(users, admins, token).Ok?
    ensures token.Signed?
    ensures GetCurrentUser(users, admins, token).value.role == token.payload.role
    ensures GetCurrentUser(users, admins, token).value.email == token.payload.sub
  {
  }

  /** Admin tokens carry `sub = str(_id)`, 24 hexadecimal characters (rendered here by
      `IdText` as decimal digits; neither contains '@'), while the second
      `get_current_user` compares `sub` with admin emails. When every admin email contains an
      '@', such a token passes the admin gate but resolves to no record. */
  lemma AdminTokenResolvesNoRecord(users: seq<UserRecord>, admins: seq<UserRecord>, id: nat)
    requires forall i :: 0 <= i < |admins| ==> '@' in admins[i].email
    ensures AdminGate(CreateAccessToken(Payload(IdText(id), "admin"))).Ok?
    ensures GetCurrentUser(users, admins, CreateAccessToken(Payload(IdText(id), "admin"))) ==
      Error(401, "Invalid token")
  {
    var sub := IdText(id);
    forall i | 0 <= i < |admins| ensures admins[i].email != sub {
      assert '@' in admins[i].email;
    }
  }
}
