/** The MongoDB database the backend works on: the `users`, `admins`, `accounts` and
    `transactions` collections, held in natural (insertion) order, and the lookups and
    sort the handlers ask of it. */
module Store {
  import opened Common
  import Security

  /** `AccountType` in app/schemas/account.py: the request schema admits only these three. */
  datatype AccountType = Savings | Current | Fd

  datatype Account = Account(
    userId: nat,
    number: string,
    kind: AccountType,
    balance: int,
    dailyLimit: int,
    isActive: bool)

  /** A document of `users` or of `admins`. Fields the document may lack are options
      (read with `.get`); admins have none of the KYC fields. */
  datatype UserRecord = UserRecord(
    id: nat,
    email: string,
    password: Security.PasswordHash,
    name: string,
    role: string,
    kycCompleted: Option<bool>,
    panNumber: Option<string>,
    address: Option<string>,
    phone: Option<string>,
    panVerified: Option<bool>)

  /** The five account fields the handlers return to clients. */
  datatype AccountView = AccountView(
    number: string,
    kind: AccountType,
    balance: int,
    dailyLimit: int,
    isActive: bool)

  /** The projection `{"account_number": …, "account_type": …, "balance": …,
      "daily_limit": …, "is_active": …}`. */
  function View(a: Account): (v: AccountView)
    ensures v.number == a.number && v.kind == a.kind && v.balance == a.balance
    ensures v.dailyLimit == a.dailyLimit && v.isActive == a.isActive
  {
    AccountView(a.number, a.kind, a.balance, a.dailyLimit, a.isActive)
  }

  /** A document of `transactions`. */
  datatype Tx = Tx(id: nat, from: string, to: string, amount: int, timestamp: int)

  /** Account numbers identify accounts. */
  ghost predicate UniqueNumbers(accounts: seq<Account>)
  {
    forall i, j :: 0 <= i < j < |accounts| ==> accounts[i].number != accounts[j].number
  }

  ghost predicate NonNegativeBalances(accounts: seq<Account>)
  {
    forall i :: 0 <= i < |accounts| ==> accounts[i].balance >= 0
  }

  class Database {
    var users: seq<UserRecord>
    var admins: seq<UserRecord>
    var accounts: seq<Account>
    var transactions: seq<Tx>
    /** The next ObjectId handed out by an insert; ObjectIds are unique across collections. */
    var nextId: nat

    ghost predicate Valid()
      reads this
    {
      && UniqueNumbers(accounts)
      && NonNegativeBalances(accounts)
      && (forall i :: 0 <= i < |users| ==> users[i].id < nextId)
      && (forall i :: 0 <= i < |admins| ==> admins[i].id < nextId)
      && (forall i :: 0 <= i < |transactions| ==> transactions[i].id < nextId)
    }

    constructor ()
      ensures Valid()
      ensures users == [] && admins == [] && accounts == [] && transactions == [] && nextId == 0
    {
      users, admins, accounts, transactions, nextId := [], [], [], [], 0;
    }
  }

  /** `find_one({"account_number": number})`. */
  function AccountByNumber(accounts: seq<Account>, number: string): (r: Option<nat>)
  {
    FindFirst(accounts, (a: Account) => a.number == number)
  }

  /** `find_one({"user_id": userId})`: the user's first account, active or not. */
  function AccountOfUser(accounts: seq<Account>, userId: nat): (r: Option<nat>)
  {
    FindFirst(accounts, (a: Account) => a.userId == userId)
  }

  /** `find_one({"_id": id})` on `users` or `admins`. */
  function RecordById(records: seq<UserRecord>, id: nat): (r: Option<nat>)
  {
    FindFirst(records, (u: UserRecord) => u.id == id)
  }

  /** `find_one({"email": email})` on `users` or `admins`. */
  function RecordByEmail(records: seq<UserRecord>, email: string): (r: Option<nat>)
  {
    FindFirst(records, (u: UserRecord) => u.email == email)
  }

  /** When account numbers are unique, the account found by number is the one with that number. */
  lemma AccountByNumberUnique(accounts: seq<Account>, i: nat)
    requires UniqueNumbers(accounts) && i < |accounts|
    ensures AccountByNumber(accounts, accounts[i].number) == Some(i)
  {
  }

  /** Account `i` is the one `find_one({"account_number": number})` returns. */
  ghost predicate FirstWithNumber(accounts: seq<Account>, number: string, i: int)
  {
    0 <= i < |accounts| && accounts[i].number == number &&
    forall k :: 0 <= k < i ==> accounts[k].number != number
  }

  /** Record `j` is the one `find_one({"_id": id})` returns. */
  ghost predicate FirstWithId(records: seq<UserRecord>, id: nat, j: int)
  {
    0 <= j < |records| && records[j].id == id &&
    forall k :: 0 <= k < j ==> records[k].id != id
  }

  /** Account `j` is the one `find_one({"user_id": userId})` returns. */
  ghost predicate FirstOfUser(accounts: seq<Account>, userId: nat, j: int)
  {
    0 <= j < |accounts| && accounts[j].userId == userId &&
    forall k :: 0 <= k < j ==> accounts[k].userId != userId
  }

  /** `find_one({"_id": id})` returns the first record with the id. */
  lemma RecordByIdFirst(records: seq<UserRecord>, id: nat)
    ensures forall j :: FirstWithId(records, id, j) ==> RecordById(records, id) == Some(j)
  {
  }

  /** `find_one({"user_id": userId})` returns the user's first account. */
  lemma AccountOfUserFirst(accounts: seq<Account>, userId: nat)
    ensures forall j :: FirstOfUser(accounts, userId, j) ==> AccountOfUser(accounts, userId) == Some(j)
  {
  }

  /** The name of the owner of the account numbered `number`, or "Unknown" when the account
      or its owner is missing (the join in the history handlers): the first account with the
      number, then the first user record with that account's `user_id`. */
  function OwnerName(accounts: seq<Account>, users: seq<UserRecord>, number: string): (name: string)
    ensures (forall i :: 0 <= i < |accounts| ==> accounts[i].number != number) ==> name == "Unknown"
  {
    OwnerNameFrom(accounts, users, number, 0)
  }

  /** The join, scanning for the account from position `i` on. */
  function OwnerNameFrom(accounts: seq<Account>, users: seq<UserRecord>, number: string, i: nat): (name: string)
    requires i <= |accounts|
    ensures (forall k :: i <= k < |accounts| ==> accounts[k].number != number) ==> name == "Unknown"
    decreases |accounts| - i
  {
    if i == |accounts| then "Unknown"
    else if accounts[i].number == number then
      match RecordById(users, accounts[i].userId)
      case None => "Unknown"
      case Some(j) => users[j].name
    else OwnerNameFrom(accounts, users, number, i + 1)
  }

  /** The scan from `from` stops at the first account `i` with the number. */
  lemma {:induction false} OwnerNameFromFirst(accounts: seq<Account>, users: seq<UserRecord>, number: string,
                                              from: nat, i: nat)
    requires from <= i && FirstWithNumber(accounts, number, i)
    ensures OwnerNameFrom(accounts, users, number, from) ==
      match RecordById(users, accounts[i].userId) case None => "Unknown" case Some(j) => users[j].name
    decreases i - from
  {
    if from < i {
      OwnerNameFromFirst(accounts, users, number, from + 1, i);
    }
  }

  /** The join when the number exists: with `i` the first account carrying it, the name is
      "Unknown" when no user record has that account's `user_id`, and otherwise the name of
      the first user record that has it. */
  lemma OwnerNameOfFirst(accounts: seq<Account>, users: seq<UserRecord>, number: string, i: nat)
    requires FirstWithNumber(accounts, number, i)
    ensures (forall j :: 0 <= j < |users| ==> users[j].id != accounts[i].userId) ==>
      OwnerName(accounts, users, number) == "Unknown"
    ensures forall j :: FirstWithId(users, accounts[i].userId, j) ==>
      OwnerName(accounts, users, number) == users[j].name
  {
    OwnerNameFromFirst(accounts, users, number, 0, i);
    RecordByIdFirst(users, accounts[i].userId);
  }

  /** `str(ObjectId)`: the text of an id. MongoDB writes 24 hexadecimal characters; the model's
      ids are naturals, written here in decimal. */
  function IdText(id: nat): (s: string)
    ensures |s| > 0
    ensures forall k :: 0 <= k < |s| ==> '0' <= s[k] <= '9'
    decreases id
  {
    var d := ['0', '1', '2', '3', '4', '5', '6', '7', '8', '9'][id % 10];
    if id < 10 then [d] else IdText(id / 10) + [d]
  }

  // ----- sort("timestamp", -1) -----

  ghost predicate SortedByTimeDesc(s: seq<Tx>)
  {
    forall i, j :: 0 <= i < j < |s| ==> s[i].timestamp >= s[j].timestamp
  }

  /** Places `x` before the first element that is older than it. */
  function InsertByTime(x: Tx, s: seq<Tx>): (r: seq<Tx>)
    ensures |r| == |s| + 1
  {
    if s == [] || x.timestamp >= s[0].timestamp then [x] + s
    else [s[0]] + InsertByTime(x, s[1..])
  }

  /** The cursor order of `sort("timestamp", -1)`: newest first; transactions with equal
      timestamps keep their insertion order. */
  function SortByTimeDesc(s: seq<Tx>): (r: seq<Tx>)
    ensures |r| == |s|
  {
    if s == [] then [] else InsertByTime(s[0], SortByTimeDesc(s[1..]))
  }

  lemma {:induction false} InsertByTimeElements(x: Tx, s: seq<Tx>)
    ensures multiset(InsertByTime(x, s)) == multiset(s) + multiset{x}
  {
    if s != [] && x.timestamp < s[0].timestamp {
      InsertByTimeElements(x, s[1..]);
      assert s == [s[0]] + s[1..];
    }
  }

  lemma {:induction false} InsertByTimeSorted(x: Tx, s: seq<Tx>)
    requires SortedByTimeDesc(s)
    ensures SortedByTimeDesc(InsertByTime(x, s))
  {
    if s != [] && x.timestamp < s[0].timestamp {
      var r := InsertByTime(x, s[1..]);
      InsertByTimeSorted(x, s[1..]);
      InsertByTimeElements(x, s[1..]);
      forall k | 0 <= k < |r| ensures r[k].timestamp <= s[0].timestamp {
        assert r[k] in multiset(r);
        assert r[k] == x || r[k] in multiset(s[1..]);
      }
      assert InsertByTime(x, s) == [s[0]] + r;
    }
  }

  /** The cursor holds every transaction of `s`, each as often as in `s`, newest first. */
  lemma {:induction false} SortByTimeDescCorrect(s: seq<Tx>)
    ensures SortedByTimeDesc(SortByTimeDesc(s))
    ensures multiset(SortByTimeDesc(s)) == multiset(s)
  {
    if s != [] {
      SortByTimeDescCorrect(s[1..]);
      InsertByTimeElements(s[0], SortByTimeDesc(s[1..]));
      InsertByTimeSorted(s[0], SortByTimeDesc(s[1..]));
      assert s == [s[0]] + s[1..];
    }
  }

  /** `find({"$or": [{"from_account": number}, {"to_account": number}]}).sort("timestamp", -1)`. */
  function TransactionsOf(log: seq<Tx>, number: string): (cursor: seq<Tx>)
  {
    SortByTimeDesc(Filter(log, (t: Tx) => t.from == number || t.to == number))
  }

  /** Every transaction with `number` as sender or receiver is in the cursor, as often as in
      the log; no other transaction is; and the cursor is newest first. */
  lemma TransactionsOfCorrect(log: seq<Tx>, number: string, t: Tx)
    ensures SortedByTimeDesc(TransactionsOf(log, number))
    ensures multiset(TransactionsOf(log, number))[t] ==
      if t.from == number || t.to == number then multiset(log)[t] else 0
  {
    var p := (t: Tx) => t.from == number || t.to == number;
    SortByTimeDescCorrect(Filter(log, p));
    FilterCount(log, p, t);
  }

  /** Every transaction in the cursor has `number` as its sender or its receiver. */
  lemma TransactionsOfInvolve(log: seq<Tx>, number: string)
    ensures forall k :: 0 <= k < |TransactionsOf(log, number)| ==>
      TransactionsOf(log, number)[k].from == number || TransactionsOf(log, number)[k].to == number
  {
    var p := (t: Tx) => t.from == number || t.to == number;
    var filtered := Filter(log, p);
    var cursor := TransactionsOf(log, number);
    SortByTimeDescCorrect(filtered);
    forall k | 0 <= k < |cursor| ensures cursor[k].from == number || cursor[k].to == number {
      assert cursor[k] in multiset(cursor);
      assert cursor[k] in multiset(filtered);
      var j :| 0 <= j < |filtered| && filtered[j] == cursor[k];
      assert p(filtered[j]);
    }
  }

  /** Changing fields other than the number does not change which account a number finds. */
  lemma AccountByNumberSameNumbers(a: seq<Account>, b: seq<Account>, number: string)
    requires |a| == |b| && forall k :: 0 <= k < |a| ==> a[k].number == b[k].number
    ensures AccountByNumber(a, number) == AccountByNumber(b, number)
  {
  }

  /** Record `i` is the one `find_one({"email": email})` returns. */
  ghost predicate FirstWithEmail(records: seq<UserRecord>, email: string, i: int)
  {
    0 <= i < |records| && records[i].email == email &&
    forall j :: 0 <= j < i ==> records[j].email != email
  }

  /** No record has this email. */
  ghost predicate NoEmail(records: seq<UserRecord>, email: string)
  {
    forall j :: 0 <= j < |records| ==> records[j].email != email
  }
}
