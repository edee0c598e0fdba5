/** Money transfer (app/services/transaction_service.py). `transfer_money` runs its checks in a
    fixed order (amount, active sender account, not a fixed deposit, active receiver account,
    balance, daily limit); only when all pass does it debit the sender, credit the receiver and
    append the transaction to the log. The two balance updates are taken as one atomic step.
    The start of the current UTC day and the current time are parameters. */
module TransactionService {
  import opened Common
  import opened Store

  /** What one logged transaction adds to the sender's outgoing total since `since`. */
  function Outgoing(tx: Tx, number: string, since: int): int
  {
    if tx.from == number && tx.timestamp >= since then tx.amount else 0
  }

  /** Total amount sent from account `number` at or after time `since` by the first `n`
      transactions of the log. */
  function OutgoingPrefix(log: seq<Tx>, n: nat, number: string, since: int): (total: int)
    requires n <= |log|
  {
    if n == 0 then 0 else OutgoingPrefix(log, n - 1, number, since) + Outgoing(log[n - 1], number, since)
  }

  /** The sum the daily-limit cursor accumulates. */
  function OutgoingSince(log: seq<Tx>, number: string, since: int): (total: int)
  {
    OutgoingPrefix(log, |log|, number, since)
  }

  /** The `today_total` loop. */
  method TodayTotal(log: seq<Tx>, number: string, since: int) returns (total: int)
    ensures total == OutgoingSince(log, number, since)
  {
    total := 0;
    var i := 0;
    while i < |log|
      invariant 0 <= i <= |log|
      invariant total == OutgoingPrefix(log, i, number, since)
    {
      if log[i].from == number && log[i].timestamp >= since {
        total := total + log[i].amount;
      }
      i := i + 1;
    }
  }

  /** The positions of the sender's and the receiver's account once every check has passed. */
  datatype Plan = Plan(sender: nat, receiver: nat)

  /** `find_one({"user_id": id, "is_active": True})`. */
  function ActiveAccountOfUser(accounts: seq<Account>, userId: nat): (r: Option<nat>)
  {
    FindFirst(accounts, (a: Account) => a.userId == userId && a.isActive)
  }

  /** `find_one({"account_number": number, "is_active": True})`. */
  function ActiveAccountByNumber(accounts: seq<Account>, number: string): (r: Option<nat>)
  {
    FindFirst(accounts, (a: Account) => a.number == number && a.isActive)
  }

  /** The validation chain of `transfer_money`: the first check that fails decides the error;
      when none fails, the accounts to debit and credit. */
  function TransferPlan(accounts: seq<Account>, log: seq<Tx>, senderId: nat, to: string,
                        amount: int, todayStart: int): (r: Result<Plan>)
    ensures r.Ok? ==>
      && r.value.sender < |accounts| && r.value.receiver < |accounts|
      && amount > 0
      && accounts[r.value.sender].userId == senderId && accounts[r.value.sender].isActive
      && accounts[r.value.sender].kind != Fd
      && accounts[r.value.receiver].number == to && accounts[r.value.receiver].isActive
      && accounts[r.value.sender].balance >= amount
      && OutgoingSince(log, accounts[r.value.sender].number, todayStart) + amount
           <= accounts[r.value.sender].dailyLimit
    ensures r.Error? ==> r.status == 400 || r.status == 404
  {
    if amount <= 0 then Error(400, "Invalid amount")
    else match ActiveAccountOfUser(accounts, senderId)
    case None => Error(404, "Sender account not found")
    case Some(s) =>
      if accounts[s].kind == Fd then Error(400, "FD accounts cannot transfer")
      else match ActiveAccountByNumber(accounts, to)
      case None => Error(404, "Receiver account not found")
      case Some(t) =>
        if accounts[s].balance < amount then Error(400, "Insufficient balance")
        else if OutgoingSince(log, accounts[s].number, todayStart) + amount > accounts[s].dailyLimit
        then Error(400, "Daily transaction limit exceeded")
        else Ok(Plan(s, t))
  }

  /** One `$inc` of the balance of the account at position `i`. */
  function Adjust(accounts: seq<Account>, i: nat, delta: int): (r: seq<Account>)
    requires i < |accounts|
  {
    accounts[i := accounts[i].(balance := accounts[i].balance + delta)]
  }

  /** The two `$inc` updates: debit the sender, then credit the receiver. */
  function ApplyTransfer(accounts: seq<Account>, plan: Plan, amount: int): (r: seq<Account>)
    requires plan.sender < |accounts| && plan.receiver < |accounts|
  {
    Adjust(Adjust(accounts, plan.sender, -amount), plan.receiver, amount)
  }

  /** The money held in the accounts from position `i` on. */
  function BalanceFrom(accounts: seq<Account>, i: nat): int
    requires i <= |accounts|
    decreases |accounts| - i
  {
    if i == |accounts| then 0 else accounts[i].balance + BalanceFrom(accounts, i + 1)
  }

  /** The money held in all accounts together. */
  function TotalBalance(accounts: seq<Account>): int
  {
    BalanceFrom(accounts, 0)
  }

  lemma {:induction false} BalanceFromAdjust(accounts: seq<Account>, k: nat, delta: int, i: nat)
    requires k < |accounts| && i <= |accounts|
    ensures BalanceFrom(Adjust(accounts, k, delta), i) == BalanceFrom(accounts, i) + (if i <= k then delta else 0)
    decreases |accounts| - i
  {
    if i < |accounts| {
      BalanceFromAdjust(accounts, k, delta, i + 1);
    }
  }

  /** A transfer moves money and creates none: the total over all accounts is unchanged. */
  lemma TransferConservesMoney(accounts: seq<Account>, plan: Plan, amount: int)
    requires plan.sender < |accounts| && plan.receiver < |accounts|
    ensures TotalBalance(ApplyTransfer(accounts, plan, amount)) == TotalBalance(accounts)
  {
    BalanceFromAdjust(accounts, plan.sender, -amount, 0);
    BalanceFromAdjust(Adjust(accounts, plan.sender, -amount), plan.receiver, amount, 0);
  }

  /** The sender loses `amount`, the receiver gains it, nothing else about any account changes;
      a transfer to the sender's own account changes nothing at all. */
  lemma TransferEffect(accounts: seq<Account>, plan: Plan, amount: int)
    requires plan.sender < |accounts| && plan.receiver < |accounts|
    ensures var r := ApplyTransfer(accounts, plan, amount);
      && |r| == |accounts|
      && (forall k :: 0 <= k < |r| && k != plan.sender && k != plan.receiver ==> r[k] == accounts[k])
      && (plan.sender != plan.receiver ==>
            && r[plan.sender] == accounts[plan.sender].(balance := accounts[plan.sender].balance - amount)
            && r[plan.receiver] == accounts[plan.receiver].(balance := accounts[plan.receiver].balance + amount))
      && (plan.sender == plan.receiver ==> r == accounts)
  {
  }

  /** A successful transfer keeps account numbers unique and balances non-negative. */
  lemma TransferKeepsInvariants(accounts: seq<Account>, log: seq<Tx>, senderId: nat, to: string,
                                amount: int, todayStart: int)
    requires UniqueNumbers(accounts) && NonNegativeBalances(accounts)
    requires TransferPlan(accounts, log, senderId, to, amount, todayStart).Ok?
    ensures var plan := TransferPlan(accounts, log, senderId, to, amount, todayStart).value;
      UniqueNumbers(ApplyTransfer(accounts, plan, amount)) &&
      NonNegativeBalances(ApplyTransfer(accounts, plan, amount))
  {
    var plan := TransferPlan(accounts, log, senderId, to, amount, todayStart).value;
    TransferEffect(accounts, plan, amount);
  }

  lemma {:induction false} OutgoingPrefixAppend(log: seq<Tx>, tx: Tx, n: nat, number: string, since: int)
    requires n <= |log|
    ensures OutgoingPrefix(log + [tx], n, number, since) == OutgoingPrefix(log, n, number, since)
  {
    if n > 0 {
      OutgoingPrefixAppend(log, tx, n - 1, number, since);
    }
  }

  /** Logging a transaction adds its amount to its sender's outgoing total when it is not
      older than `since`, and changes no other account's total. */
  lemma OutgoingSinceAppend(log: seq<Tx>, tx: Tx, number: string, since: int)
    ensures OutgoingSince(log + [tx], number, since) == OutgoingSince(log, number, since) + Outgoing(tx, number, since)
  {
    OutgoingPrefixAppend(log, tx, |log|, number, since);
  }

  /** After a successful transfer the sender's outgoing total since the start of the day,
      the new transaction included, is within its daily limit. */
  lemma TransferWithinDailyLimit(accounts: seq<Account>, log: seq<Tx>, senderId: nat, to: string,
                                 amount: int, todayStart: int, id: nat, now: int)
    requires TransferPlan(accounts, log, senderId, to, amount, todayStart).Ok?
    ensures var plan := TransferPlan(accounts, log, senderId, to, amount, todayStart).value;
      var sender := accounts[plan.sender];
      var tx := Tx(id, sender.number, accounts[plan.receiver].number, amount, now);
      OutgoingSince(log + [tx], sender.number, todayStart) <= sender.dailyLimit
  {
    var plan := TransferPlan(accounts, log, senderId, to, amount, todayStart).value;
    var sender := accounts[plan.sender];
    OutgoingSinceAppend(log, Tx(id, sender.number, accounts[plan.receiver].number, amount, now), sender.number, todayStart);
  }

  /** The sender-side checks of a transfer hold of the account at position `s`: it is the
      user's first active account, it is not a fixed deposit, and its balance and its daily
      limit cover `amount`. */
  ghost predicate SenderCanPay(accounts: seq<Account>, log: seq<Tx>, senderId: nat, amount: int,
                               todayStart: int, s: int)
  {
    && 0 <= s < |accounts| && accounts[s].userId == senderId && accounts[s].isActive
    && (forall j :: 0 <= j < s ==> !(accounts[j].userId == senderId && accounts[j].isActive))
    && accounts[s].kind != Fd && accounts[s].balance >= amount
    && OutgoingSince(log, accounts[s].number, todayStart) + amount <= accounts[s].dailyLimit
  }

  /** When the checks hold of the sender account `s` and some active account `t` has the
      receiver's number, the transfer goes through and debits `s`. */
  lemma TransferSucceedsWith(accounts: seq<Account>, log: seq<Tx>, senderId: nat, to: string,
                             amount: int, todayStart: int, s: nat, t: nat)
    requires amount > 0 && SenderCanPay(accounts, log, senderId, amount, todayStart, s)
    requires t < |accounts| && accounts[t].number == to && accounts[t].isActive
    ensures TransferPlan(accounts, log, senderId, to, amount, todayStart).Ok?
    ensures TransferPlan(accounts, log, senderId, to, amount, todayStart).value.sender == s
  {
    assert ActiveAccountOfUser(accounts, senderId) == Some(s);
    assert ActiveAccountByNumber(accounts, to).Some?;
  }

  /** A transfer succeeds exactly when every check holds of some accounts: the amount is
      positive, the user's first active account is not a fixed deposit and its balance and
      daily limit cover the amount, and an active account has the receiver's number. */
  lemma TransferSucceedsIff(accounts: seq<Account>, log: seq<Tx>, senderId: nat, to: string,
                            amount: int, todayStart: int)
    ensures TransferPlan(accounts, log, senderId, to, amount, todayStart).Ok? <==>
      && amount > 0
      && (exists s :: SenderCanPay(accounts, log, senderId, amount, todayStart, s))
      && (exists t :: 0 <= t < |accounts| && accounts[t].number == to && accounts[t].isActive)
  {
    var r := TransferPlan(accounts, log, senderId, to, amount, todayStart);
    if r.Ok? {
      assert ActiveAccountOfUser(accounts, senderId) == Some(r.value.sender);
      assert SenderCanPay(accounts, log, senderId, amount, todayStart, r.value.sender);
      assert accounts[r.value.receiver].number == to && accounts[r.value.receiver].isActive;
    }
    if && amount > 0
       && (exists s :: SenderCanPay(accounts, log, senderId, amount, todayStart, s))
       && (exists t :: 0 <= t < |accounts| && accounts[t].number == to && accounts[t].isActive)
    {
      var s :| SenderCanPay(accounts, log, senderId, amount, todayStart, s);
      var t :| 0 <= t < |accounts| && accounts[t].number == to && accounts[t].isActive;
      TransferSucceedsWith(accounts, log, senderId, to, amount, todayStart, s, t);
    }
  }

  /** A transfer of a non-positive amount is refused before any account is looked at. */
  lemma NonPositiveAmountRefused(accounts: seq<Account>, log: seq<Tx>, senderId: nat, to: string,
                                 amount: int, todayStart: int)
    requires amount <= 0
    ensures TransferPlan(accounts, log, senderId, to, amount, todayStart) == Error(400, "Invalid amount")
  {
  }

  /** Account `s` is the one `find_one({"user_id": id, "is_active": True})` returns. */
  ghost predicate FirstActiveAccount(accounts: seq<Account>, userId: nat, s: int)
  {
    && 0 <= s < |accounts| && accounts[s].userId == userId && accounts[s].isActive
    && forall j :: 0 <= j < s ==> !(accounts[j].userId == userId && accounts[j].isActive)
  }

  /** A positive transfer by a user without an active account is refused as such. */
  lemma NoSenderAccountRefused(accounts: seq<Account>, log: seq<Tx>, senderId: nat, to: string,
                               amount: int, todayStart: int)
    requires amount > 0
    requires forall i :: 0 <= i < |accounts| ==> !(accounts[i].userId == senderId && accounts[i].isActive)
    ensures TransferPlan(accounts, log, senderId, to, amount, todayStart) == Error(404, "Sender account not found")
  {
  }

  /** With a positive amount and the sender's account `s` found, the first of the remaining
      checks that fails decides the error: fixed deposit, then receiver, then balance, then
      daily limit. */
  lemma SenderChecksInOrder(accounts: seq<Account>, log: seq<Tx>, senderId: nat, to: string,
                            amount: int, todayStart: int, s: nat)
    requires amount > 0 && FirstActiveAccount(accounts, senderId, s)
    ensures accounts[s].kind == Fd ==>
      TransferPlan(accounts, log, senderId, to, amount, todayStart) == Error(400, "FD accounts cannot transfer")
    ensures accounts[s].kind != Fd &&
            (forall t :: 0 <= t < |accounts| ==> !(accounts[t].number == to && accounts[t].isActive)) ==>
      TransferPlan(accounts, log, senderId, to, amount, todayStart) == Error(404, "Receiver account not found")
    ensures accounts[s].kind != Fd &&
            (exists t :: 0 <= t < |accounts| && accounts[t].number == to && accounts[t].isActive) &&
            accounts[s].balance < amount ==>
      TransferPlan(accounts, log, senderId, to, amount, todayStart) == Error(400, "Insufficient balance")
    ensures accounts[s].kind != Fd &&
            (exists t :: 0 <= t < |accounts| && accounts[t].number == to && accounts[t].isActive) &&
            accounts[s].balance >= amount &&
            OutgoingSince(log, accounts[s].number, todayStart) + amount > accounts[s].dailyLimit ==>
      TransferPlan(accounts, log, senderId, to, amount, todayStart) == Error(400, "Daily transaction limit exceeded")
  {
    assert ActiveAccountOfUser(accounts, senderId) == Some(s);
  }

  /** `transfer_money`. */
  method TransferMoney(db: Database, sender: UserRecord, to: string, amount: int,
                       todayStart: int, now: int) returns (r: Result<Tx>)
    requires db.Valid()
    modifies db
    ensures db.Valid()
    ensures db.users == old(db.users) && db.admins == old(db.admins)
    ensures match TransferPlan(old(db.accounts), old(db.transactions), sender.id, to, amount, todayStart)
      case Error(status, detail) =>
        && r == Error(status, detail)
        && db.accounts == old(db.accounts) && db.transactions == old(db.transactions)
        && db.nextId == old(db.nextId)
      case Ok(plan) =>
        && r == Ok(Tx(old(db.nextId), old(db.accounts)[plan.sender].number,
                      old(db.accounts)[plan.receiver].number, amount, now))
        && db.accounts == ApplyTransfer(old(db.accounts), plan, amount)
        && db.transactions == old(db.transactions) + [r.value]
        && db.nextId == old(db.nextId) + 1
    ensures r.Ok? ==> TotalBalance(db.accounts) == TotalBalance(old(db.accounts))
  {
    if amount <= 0 {
      return Error(400, "Invalid amount");
    }
    var senderAt := ActiveAccountOfUser(db.accounts, sender.id);
    if senderAt.None? {
      return Error(404, "Sender account not found");
    }
    var senderAccount := db.accounts[senderAt.value];
    if senderAccount.kind == Fd {
      return Error(400, "FD accounts cannot transfer");
    }
    var receiverAt := ActiveAccountByNumber(db.accounts, to);
    if receiverAt.None? {
      return Error(404, "Receiver account not found");
    }
    var receiverAccount := db.accounts[receiverAt.value];
    if senderAccount.balance < amount {
      return Error(400, "Insufficient balance");
    }
    var todayTotal := TodayTotal(db.transactions, senderAccount.number, todayStart);
    if todayTotal + amount > senderAccount.dailyLimit {
      return Error(400, "Daily transaction limit exceeded");
    }
    ghost var plan := Plan(senderAt.value, receiverAt.value);
    assert TransferPlan(db.accounts, db.transactions, sender.id, to, amount, todayStart) == Ok(plan);
    TransferKeepsInvariants(db.accounts, db.transactions, sender.id, to, amount, todayStart);
    TransferConservesMoney(db.accounts, plan, amount);
    // BALANCE UPDATE
    db.accounts := Adjust(db.accounts, senderAt.value, -amount);
    db.accounts := Adjust(db.accounts, receiverAt.value, amount);
    // TRANSACTION LOG
    var tx := Tx(db.nextId, senderAccount.number, receiverAccount.number, amount, now);
    db.transactions := db.transactions + [tx];
    db.nextId := db.nextId + 1;
    r := Ok(tx);
  }
}
