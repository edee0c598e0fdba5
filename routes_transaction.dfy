/** The transaction routes (app/routes/transaction.py): a user's transfer, a user's history
    with each entry classified as debit or credit, and the admin's history of every
    transaction. The caller is the record or the claims the route's dependency resolved. */
module TransactionRoutes {
  import opened Common
  import opened Store
  import opened TransactionService

  /** The body `transfer` returns. */
  datatype Receipt = Receipt(message: string, transactionId: string)

  datatype EntryType = Debit | Credit

  /** One entry of `user_history`. */
  datatype HistoryEntry = HistoryEntry(name: string, number: string, amount: int, kind: EntryType, time: int)

  /** One entry of `admin_history`; `kind` is the literal "type" field. */
  datatype AdminEntry = AdminEntry(fromName: string, fromAccount: string, toName: string,
                                   toAccount: string, amount: int, kind: string, time: int)

  /** `transfer`: only role "user" may transfer; the service's error passes through; on
      success the new transaction's id. */
  method Transfer(db: Database, user: UserRecord, to: string, amount: int, todayStart: int, now: int)
    returns (r: Result<Receipt>)
    requires db.Valid()
    modifies db
    ensures db.Valid()
    ensures user.role != "user" ==> r == Error(403, "Only users can transfer") && unchanged(db)
    ensures user.role == "user" ==>
      match TransferPlan(old(db.accounts), old(db.transactions), user.id, to, amount, todayStart)
      case Error(status, detail) =>
        && r == Error(status, detail)
        && db.accounts == old(db.accounts) && db.transactions == old(db.transactions)
        && db.nextId == old(db.nextId) && db.users == old(db.users) && db.admins == old(db.admins)
      case Ok(plan) =>
        && r == Ok(Receipt("Transfer successful", IdText(old(db.nextId))))
        && db.accounts == ApplyTransfer(old(db.accounts), plan, amount)
        && db.transactions == old(db.transactions) +
             [Tx(old(db.nextId), old(db.accounts)[plan.sender].number, to, amount, now)]
        && db.nextId == old(db.nextId) + 1
        && db.users == old(db.users) && db.admins == old(db.admins)
  {
    if user.role != "user" {
      return Error(403, "Only users can transfer");
    }
    var tx := TransferMoney(db, user, to, amount, todayStart, now);
    match tx
    case Error(status, detail) =>
      r := Error(status, detail);
    case Ok(t) =>
      r := Ok(Receipt("Transfer successful", IdText(t.id)));
  }

  /** How `user_history` renders one transaction of the account numbered `own`: a debit names
      the receiver's owner and account; anything else is a credit shown as "Self" with the
      caller's own account. */
  function UserEntry(accounts: seq<Account>, users: seq<UserRecord>, own: string, tx: Tx): HistoryEntry
  {
    if tx.from == own then HistoryEntry(OwnerName(accounts, users, tx.to), tx.to, tx.amount, Debit, tx.timestamp)
    else HistoryEntry("Self", own, tx.amount, Credit, tx.timestamp)
  }

  /** `user_history`: 404 without an account; otherwise one entry per transaction of the
      caller's first account, newest first. */
  method UserHistory(db: Database, user: UserRecord) returns (r: Result<seq<HistoryEntry>>)
    ensures r.Error? <==> forall i :: 0 <= i < |db.accounts| ==> db.accounts[i].userId != user.id
    ensures r.Error? ==> r == Error(404, "Account not found")
    ensures r.Ok? ==>
      var own := db.accounts[AccountOfUser(db.accounts, user.id).value].number;
      var cursor := TransactionsOf(db.transactions, own);
      && |r.value| == |cursor|
      && (forall k :: 0 <= k < |cursor| ==>
            r.value[k].amount == cursor[k].amount && r.value[k].time == cursor[k].timestamp)
      && (forall k :: 0 <= k < |cursor| ==> (r.value[k].kind == Debit <==> cursor[k].from == own))
      && (forall k :: 0 <= k < |cursor| && r.value[k].kind == Debit ==>
            r.value[k].number == cursor[k].to &&
            r.value[k].name == OwnerName(db.accounts, db.users, cursor[k].to))
      && (forall k :: 0 <= k < |cursor| && r.value[k].kind == Credit ==>
            r.value[k].name == "Self" && r.value[k].number == own && cursor[k].to == own)
      && (forall i, j :: 0 <= i < j < |r.value| ==> r.value[i].time >= r.value[j].time)
  {
    var at := AccountOfUser(db.accounts, user.id);
    if at.None? {
      return Error(404, "Account not found");
    }
    var own := db.accounts[at.value].number;
    var cursor := TransactionsOf(db.transactions, own);
    SortByTimeDescCorrect(Filter(db.transactions, (t: Tx) => t.from == own || t.to == own));
    TransactionsOfInvolve(db.transactions, own);
    var history := UserEntries(db.accounts, db.users, own, cursor);
    UserEntriesMeaning(db.accounts, db.users, own, cursor, history);
    r := Ok(history);
  }

  /** The loop of `user_history` over the sorted cursor of the account numbered `own`. */
  method UserEntries(accounts: seq<Account>, users: seq<UserRecord>, own: string, cursor: seq<Tx>)
    returns (history: seq<HistoryEntry>)
    ensures |history| == |cursor|
    ensures forall k :: 0 <= k < |cursor| ==> history[k] == UserEntry(accounts, users, own, cursor[k])
  {
    history := [];
    var i := 0;
    while i < |cursor|
      invariant 0 <= i <= |cursor|
      invariant |history| == i
      invariant forall k :: 0 <= k < i ==> history[k] == UserEntry(accounts, users, own, cursor[k])
    {
      var tx := cursor[i];
      if tx.from == own {
        history := history + [HistoryEntry(OwnerName(accounts, users, tx.to), tx.to, tx.amount, Debit, tx.timestamp)];
      } else {
        history := history + [HistoryEntry("Self", own, tx.amount, Credit, tx.timestamp)];
      }
      i := i + 1;
    }
  }

  /** What the entries rendered from a cursor of `own`'s transactions say. */
  lemma UserEntriesMeaning(accounts: seq<Account>, users: seq<UserRecord>, own: string,
                           cursor: seq<Tx>, history: seq<HistoryEntry>)
    requires |history| == |cursor| && SortedByTimeDesc(cursor)
    requires forall k :: 0 <= k < |cursor| ==> cursor[k].from == own || cursor[k].to == own
    requires forall k :: 0 <= k < |cursor| ==> history[k] == UserEntry(accounts, users, own, cursor[k])
    ensures forall k :: 0 <= k < |cursor| ==>
      history[k].amount == cursor[k].amount && history[k].time == cursor[k].timestamp
    ensures forall k :: 0 <= k < |cursor| ==> (history[k].kind == Debit <==> cursor[k].from == own)
    ensures forall k :: 0 <= k < |cursor| && history[k].kind == Debit ==>
      history[k].number == cursor[k].to && history[k].name == OwnerName(accounts, users, cursor[k].to)
    ensures forall k :: 0 <= k < |cursor| && history[k].kind == Credit ==>
      history[k].name == "Self" && history[k].number == own && cursor[k].to == own
    ensures forall i, j :: 0 <= i < j < |history| ==> history[i].time >= history[j].time
  {
  }

  /** How `admin_history` renders one transaction. */
  function AdminEntryOf(accounts: seq<Account>, users: seq<UserRecord>, tx: Tx): AdminEntry
  {
    AdminEntry(OwnerName(accounts, users, tx.from), tx.from, OwnerName(accounts, users, tx.to), tx.to,
               tx.amount, "transfer", tx.timestamp)
  }

  /** `admin_history`: every logged transaction, newest first, each typed "transfer", with the
      owners' names or "Unknown". */
  method AdminHistory(db: Database) returns (r: seq<AdminEntry>)
    ensures |r| == |db.transactions|
    ensures forall k :: 0 <= k < |r| ==> r[k].kind == "transfer"
    ensures forall k :: 0 <= k < |r| ==>
      r[k] == AdminEntryOf(db.accounts, db.users, SortByTimeDesc(db.transactions)[k])
    ensures forall i, j :: 0 <= i < j < |r| ==> r[i].time >= r[j].time
  {
    var cursor := SortByTimeDesc(db.transactions);
    r := AdminEntries(db.accounts, db.users, cursor);
    SortByTimeDescCorrect(db.transactions);
  }

  /** The loop of `admin_history` over the sorted cursor: one entry per transaction, the
      owners' names looked up for both accounts. */
  method AdminEntries(accounts: seq<Account>, users: seq<UserRecord>, cursor: seq<Tx>)
    returns (history: seq<AdminEntry>)
    ensures |history| == |cursor|
    ensures forall k :: 0 <= k < |cursor| ==> history[k] == AdminEntryOf(accounts, users, cursor[k])
  {
    history := [];
    var i := 0;
    while i < |cursor|
      invariant 0 <= i <= |cursor|
      invariant |history| == i
      invariant forall k :: 0 <= k < i ==> history[k] == AdminEntryOf(accounts, users, cursor[k])
    {
      history := history + [AdminEntryOf(accounts, users, cursor[i])];
      i := i + 1;
    }
  }

}
