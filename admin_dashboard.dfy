/** The logic of the admin dashboard page (frontend/src/pages/AdminDashboard.jsx): the
    transaction filter and the running totals its callback keeps, the net flow, and the
    search handler with its normalisation of the search response. Rendering is left out. */
module AdminDashboard {
  import opened Common
  import opened Store
  import opened AdminRoutes

  // ----- filteredTx and its counters -----

  /** The "type" select: "all", "credit" or "debit". */
  datatype TxType = AllTypes | CreditsOnly | DebitsOnly

  /** The "minimum amount" field: empty, a number, or text that `Number` reads as NaN (a
      comparison with NaN is false, so it never drops a transaction). */
  datatype MinAmount = Blank | Amount(value: int) | NotANumber

  /** The filter fields. `fromStart` is the instant `new Date(fromDate)`, `toEnd` the instant
      `new Date(toDate + "T23:59:59")`; None for an empty field. */
  datatype Filters = Filters(txType: TxType, fromStart: Option<int>, toEnd: Option<int>, minAmount: MinAmount)

  /** The filter callback for a transaction of the account numbered `acc`: each test that
      returns false, in source order. */
  predicate Keep(f: Filters, acc: string, tx: TxView)
  {
    var isDebit := tx.from == acc;
    var isCredit := tx.to == acc;
    if f.txType == DebitsOnly && !isDebit then false
    else if f.txType == CreditsOnly && !isCredit then false
    else if f.fromStart.Some? && tx.time < f.fromStart.value then false
    else if f.toEnd.Some? && tx.time > f.toEnd.value then false
    else if f.minAmount.Amount? && tx.amount < f.minAmount.value then false
    else true
  }

  predicate MatchesType(t: TxType, acc: string, tx: TxView)
  {
    match t
    case AllTypes => true
    case CreditsOnly => tx.to == acc
    case DebitsOnly => tx.from == acc
  }

  /** Both date bounds are inclusive. */
  predicate InDateRange(fromStart: Option<int>, toEnd: Option<int>, time: int)
  {
    (fromStart.None? || fromStart.value <= time) && (toEnd.None? || time <= toEnd.value)
  }

  predicate MeetsMinimum(m: MinAmount, amount: int)
  {
    match m
    case Amount(v) => v <= amount
    case _ => true
  }

  /** A transaction is kept exactly when it has the selected type, lies within the date
      bounds (inclusive) and reaches the minimum amount. */
  lemma KeepIff(f: Filters, acc: string, tx: TxView)
    ensures Keep(f, acc, tx) <==>
      MatchesType(f.txType, acc, tx) && InDateRange(f.fromStart, f.toEnd, tx.time) &&
      MeetsMinimum(f.minAmount, tx.amount)
  {
  }

  /** `selectedUser?.transactions.filter(…) || []`. */
  function FilteredTx(selectedUser: Option<UserDetails>, f: Filters): (r: seq<TxView>)
  {
    match selectedUser
    case None => []
    case Some(u) => Filter(u.transactions, (tx: TxView) => Keep(f, u.account.number, tx))
  }

  /** The sum of the amounts of the transactions in `s` received by `acc`. */
  function Credits(s: seq<TxView>, acc: string): int
  {
    if s == [] then 0
    else Credits(s[..|s| - 1], acc) + (if s[|s| - 1].to == acc then s[|s| - 1].amount else 0)
  }

  /** The sum of the amounts of the transactions in `s` sent by `acc`. */
  function Debits(s: seq<TxView>, acc: string): int
  {
    if s == [] then 0
    else Debits(s[..|s| - 1], acc) + (if s[|s| - 1].from == acc then s[|s| - 1].amount else 0)
  }

  /** The number of the selected account, "" when none is selected (then nothing is kept). */
  function SelectedNumber(selectedUser: Option<UserDetails>): string
  {
    match selectedUser
    case None => ""
    case Some(u) => u.account.number
  }

  /** The filter pass of the render: the kept transactions in their order, and the three
      counters the callback updates as it keeps each one. */
  method Analyse(selectedUser: Option<UserDetails>, f: Filters)
    returns (filteredTx: seq<TxView>, totalCredit: int, totalDebit: int, txCount: nat)
    ensures filteredTx == FilteredTx(selectedUser, f)
    ensures txCount == |filteredTx|
    ensures totalCredit == Credits(filteredTx, SelectedNumber(selectedUser))
    ensures totalDebit == Debits(filteredTx, SelectedNumber(selectedUser))
  {
    filteredTx, totalCredit, totalDebit, txCount := [], 0, 0, 0;
    if selectedUser.Some? {
      var txs := selectedUser.value.transactions;
      var acc := selectedUser.value.account.number;
      var keep := (tx: TxView) => Keep(f, acc, tx);
      var i := 0;
      while i < |txs|
        invariant 0 <= i <= |txs|
        invariant filteredTx == Filter(txs[..i], keep)
        invariant txCount == |filteredTx|
        invariant totalCredit == Credits(filteredTx, acc)
        invariant totalDebit == Debits(filteredTx, acc)
      {
        var tx := txs[i];
        FilterSnoc(txs[..i], tx, keep);
        assert txs[..i + 1] == txs[..i] + [tx];
        if Keep(f, acc, tx) {
          var isDebit := tx.from == acc;
          var isCredit := tx.to == acc;
          if isDebit {
            totalDebit := totalDebit + tx.amount;
          }
          if isCredit {
            totalCredit := totalCredit + tx.amount;
          }
          txCount := txCount + 1;
          assert (filteredTx + [tx])[..|filteredTx|] == filteredTx;
          filteredTx := filteredTx + [tx];
        }
        i := i + 1;
      }
      assert txs[..|txs|] == txs;
    }
  }

  /** The kept transactions keep their order; a "debit" filter keeps only transactions sent
      by the account, a "credit" filter only those it received. */
  lemma FilteredTxShape(u: UserDetails, f: Filters)
    ensures IsSubsequence(FilteredTx(Some(u), f), u.transactions)
    ensures f.txType == DebitsOnly ==>
      forall k :: 0 <= k < |FilteredTx(Some(u), f)| ==> FilteredTx(Some(u), f)[k].from == u.account.number
    ensures f.txType == CreditsOnly ==>
      forall k :: 0 <= k < |FilteredTx(Some(u), f)| ==> FilteredTx(Some(u), f)[k].to == u.account.number
  {
    FilterIsSubsequence(u.transactions, (tx: TxView) => Keep(f, u.account.number, tx));
  }

  /** With the type "all", no date bound and no minimum, every transaction is kept. */
  lemma {:induction false} NoFilterKeepsAll(u: UserDetails)
    ensures FilteredTx(Some(u), Filters(AllTypes, None, None, Blank)) == u.transactions
  {
    NoFilterKeepsAllFrom(u.transactions, u.account.number);
  }

  lemma {:induction false} NoFilterKeepsAllFrom(s: seq<TxView>, acc: string)
    ensures Filter(s, (tx: TxView) => Keep(Filters(AllTypes, None, None, Blank), acc, tx)) == s
  {
    if s != [] {
      NoFilterKeepsAllFrom(s[1..], acc);
      assert s == [s[0]] + s[1..];
    }
  }

  /** A transaction moved between accounts other than `acc`'s own: +amount received,
      -amount sent, 0 when it is neither or both (a self-transfer). */
  function ExternalFlow(tx: TxView, acc: string): int
  {
    if tx.to == acc && tx.from != acc then tx.amount
    else if tx.from == acc && tx.to != acc then -tx.amount
    else 0
  }

  function ExternalNet(s: seq<TxView>, acc: string): int
  {
    if s == [] then 0 else ExternalNet(s[..|s| - 1], acc) + ExternalFlow(s[|s| - 1], acc)
  }

  /** The net flow shown, `totalCredit - totalDebit`: a self-transfer adds its amount to both
      totals, so it leaves the net flow alone and the net flow is the sum of the external
      flows. */
  lemma {:induction false} NetFlow(s: seq<TxView>, acc: string)
    ensures Credits(s, acc) - Debits(s, acc) == ExternalNet(s, acc)
  {
    if s != [] {
      NetFlow(s[..|s| - 1], acc);
    }
  }

  /** One self-transfer counts in both totals. */
  lemma SelfTransferCountsTwice(s: seq<TxView>, tx: TxView, acc: string)
    requires tx.from == acc && tx.to == acc
    ensures Credits(s + [tx], acc) == Credits(s, acc) + tx.amount
    ensures Debits(s + [tx], acc) == Debits(s, acc) + tx.amount
  {
    assert (s + [tx])[..|s|] == s;
  }

  // ----- search -----

  /** `Array.isArray(res.data) ? res.data : [res.data]`. */
  function Normalize(data: SearchResult): (rs: seq<SearchRecord>)
    ensures data.Single? ==> rs == [data.record]
    ensures data.Many? ==> rs == data.records
  {
    match data
    case Single(r) => [r]
    case Many(rs) => rs
  }

  /** The search state of the page, and the requests it has sent: `searchRequests` the
      queries sent to the search endpoint, `detailRequests` the account numbers sent to the
      user-details endpoint. */
  class SearchPanel {
    var query: string
    var results: seq<SearchRecord>
    var selectedUser: Option<UserDetails>
    var newLimit: Option<int>
    var error: string
    var message: string
    var searchRequests: seq<string>
    var detailRequests: seq<string>

    constructor ()
      ensures query == "" && results == [] && selectedUser.None? && newLimit.None?
      ensures error == "" && message == "" && searchRequests == [] && detailRequests == []
    {
      query, results, selectedUser, newLimit := "", [], None, None;
      error, message, searchRequests, detailRequests := "", "", [], [];
    }

    /** `loadUserDetails`: one request for the account; its answer becomes the selected user
        and the limit field, or the error "Failed to load user details". */
    method LoadUserDetails(accountNumber: string, lookup: string -> Result<UserDetails>)
      modifies this
      ensures detailRequests == old(detailRequests) + [accountNumber]
      ensures lookup(accountNumber).Ok? ==>
        selectedUser == Some(lookup(accountNumber).value) &&
        newLimit == Some(lookup(accountNumber).value.account.dailyLimit) && error == old(error)
      ensures lookup(accountNumber).Error? ==>
        selectedUser == old(selectedUser) && newLimit == old(newLimit) &&
        error == "Failed to load user details"
      ensures query == old(query) && results == old(results) && message == old(message)
      ensures searchRequests == old(searchRequests)
    {
      detailRequests := detailRequests + [accountNumber];
      match lookup(accountNumber)
      case Ok(d) =>
        selectedUser := Some(d);
        newLimit := Some(d.account.dailyLimit);
      case Error(_, _) =>
        error := "Failed to load user details";
    }

    /** `handleSearch`, given the answer of the search endpoint and of the details endpoint.
        The messages and the selection are cleared first; an empty query only sets an error.
        A single result loads its details. */
    method HandleSearch(response: Result<SearchResult>, lookup: string -> Result<UserDetails>)
      modifies this
      ensures query == old(query) && message == ""
      ensures old(query) == "" ==>
        && error == "Enter account number or user name" && selectedUser.None?
        && results == old(results) && newLimit == old(newLimit)
        && searchRequests == old(searchRequests) && detailRequests == old(detailRequests)
      ensures old(query) != "" ==> searchRequests == old(searchRequests) + [old(query)]
      ensures old(query) != "" && response.Error? ==>
        && results == [] && error == "No records found" && selectedUser.None?
        && newLimit == old(newLimit) && detailRequests == old(detailRequests)
      ensures old(query) != "" && response.Ok? ==> results == Normalize(response.value)
      ensures old(query) != "" && response.Ok? && |results| != 1 ==>
        && error == "" && selectedUser.None? && newLimit == old(newLimit)
        && detailRequests == old(detailRequests)
      ensures old(query) != "" && response.Ok? && |results| == 1 ==>
        && detailRequests == old(detailRequests) + [results[0].account.number]
        && match lookup(results[0].account.number)
           case Ok(d) => selectedUser == Some(d) && newLimit == Some(d.account.dailyLimit) && error == ""
           case Error(_, _) => selectedUser.None? && newLimit == old(newLimit) &&
                               error == "Failed to load user details"
    {
      error := "";
      message := "";
      selectedUser := None;
      if query == "" {
        error := "Enter account number or user name";
        return;
      }
      searchRequests := searchRequests + [query];
      match response
      case Ok(data) =>
        var rows := Normalize(data);
        results := rows;
        if |rows| == 1 {
          LoadUserDetails(rows[0].account.number, lookup);
        }
      case Error(_, _) =>
        results := [];
        error := "No records found";
    }
  }
}
