/** Account creation (app/services/account_service.py): a fresh account number, the daily
    limit of the account type, an opening balance of 5000, and one insert. */
module AccountService {
  import opened Common
  import opened Store
  import opened AccountNumber

  /** `ACCOUNT_LIMITS`. */
  function AccountLimit(kind: AccountType): int
  {
    match kind
    case Savings => 50000
    case Current => 200000
    case Fd => 0
  }

  /** The balance every new account opens with. */
  const OpeningBalance: int := 5000

  /** Some account already has this number (`find_one({"account_number": number})` is truthy). */
  predicate NumberTaken(accounts: seq<Account>, number: string)
  {
    AccountByNumber(accounts, number).Some?
  }

  /** Every draw is one that `random.choices(string.digits, k=9)` can return. */
  predicate AllDigitDraws(draws: seq<string>)
  {
    forall k :: 0 <= k < |draws| ==> IsDigitDraw(draws[k])
  }

  /** Draw `k` is the first whose account number is not taken: the one the loop stops at. */
  ghost predicate FirstFreeDraw(accounts: seq<Account>, draws: seq<string>, k: int)
    requires AllDigitDraws(draws)
  {
    && 0 <= k < |draws|
    && !NumberTaken(accounts, GenerateAccountNumber(draws[k]))
    && forall j :: 0 <= j < k ==> NumberTaken(accounts, GenerateAccountNumber(draws[j]))
  }

  /** Lines 10-14 of `create_account`: draw numbers until one is not taken. `draws` are the
      successive digit draws of `generate_account_number`; the loop ends at the first that
      gives an unused number, which exists by the precondition. */
  method ChooseAccountNumber(accounts: seq<Account>, draws: seq<string>) returns (i: nat, number: string)
    requires AllDigitDraws(draws)
    requires exists k :: 0 <= k < |draws| && !NumberTaken(accounts, GenerateAccountNumber(draws[k]))
    ensures FirstFreeDraw(accounts, draws, i)
    ensures number == GenerateAccountNumber(draws[i])
  {
    ghost var free :| 0 <= free < |draws| && !NumberTaken(accounts, GenerateAccountNumber(draws[free]));
    i := 0;
    number := GenerateAccountNumber(draws[0]);
    while NumberTaken(accounts, number)
      invariant 0 <= i <= free
      invariant number == GenerateAccountNumber(draws[i])
      invariant forall j :: 0 <= j < i ==> NumberTaken(accounts, GenerateAccountNumber(draws[j]))
      decreases free - i
    {
      i := i + 1;
      number := GenerateAccountNumber(draws[i]);
    }
  }

  /** `create_account`: a number no account has, the limit of the account type, the opening
      balance, and exactly one account appended. */
  method CreateAccount(db: Database, userId: nat, kind: AccountType, draws: seq<string>)
    returns (account: Account)
    requires db.Valid()
    requires AllDigitDraws(draws)
    requires exists k :: 0 <= k < |draws| && !NumberTaken(db.accounts, GenerateAccountNumber(draws[k]))
    modifies db
    ensures db.Valid()
    ensures account == Account(userId, account.number, kind, OpeningBalance, AccountLimit(kind), true)
    ensures IsAccountNumber(account.number)
    ensures exists k :: FirstFreeDraw(old(db.accounts), draws, k) && account.number == GenerateAccountNumber(draws[k])
    ensures forall i :: 0 <= i < |old(db.accounts)| ==> old(db.accounts)[i].number != account.number
    ensures db.accounts == old(db.accounts) + [account]
    ensures AccountByNumber(db.accounts, account.number) == Some(|old(db.accounts)|)
    ensures db.users == old(db.users) && db.admins == old(db.admins)
    ensures db.transactions == old(db.transactions) && db.nextId == old(db.nextId)
  {
    var i, number := ChooseAccountNumber(db.accounts, draws);
    account := Account(userId, number, kind, OpeningBalance, AccountLimit(kind), true);
    AppendFreshAccount(db.accounts, account);
    db.accounts := db.accounts + [account];
  }

  /** Appending an account whose number is not taken keeps numbers unique and balances
      non-negative, and the new account is the one found by its number. */
  lemma AppendFreshAccount(accounts: seq<Account>, account: Account)
    requires UniqueNumbers(accounts) && NonNegativeBalances(accounts)
    requires !NumberTaken(accounts, account.number) && account.balance >= 0
    ensures forall i :: 0 <= i < |accounts| ==> accounts[i].number != account.number
    ensures UniqueNumbers(accounts + [account]) && NonNegativeBalances(accounts + [account])
    ensures AccountByNumber(accounts + [account], account.number) == Some(|accounts|)
  {
    var r := accounts + [account];
    assert forall j :: 0 <= j < |accounts| ==> r[j] == accounts[j];
    AccountByNumberUnique(r, |accounts|);
  }
}
