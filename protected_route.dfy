/** `ProtectedRoute` (frontend/src/components/ProtectedRoute.jsx): a component that starts in
    status "loading", fetches the dashboard once when it mounts, classifies the answer, and
    then renders its children or redirects depending on that status and the current path.
    The dashboard request is the `get_dashboard` handler; a request that fails for any other
    reason is an `Error` value as well. */
module ProtectedRoute {
  import opened Common
  import opened Store
  import opened UserRoutes
  import opened Router

  /** The values of the `status` state: "loading", "login", "kyc", "account", "ok". */
  datatype Status = Loading | Login | NeedsKyc | NeedsAccount | Ready

  /** The `checkStatus` decision: a failed request means "login"; otherwise a falsy
      `kyc_completed` means "kyc" whatever the account, then a missing account means
      "account", and both present mean "ok". */
  function Classify(response: Result<Dashboard>): (s: Status)
    ensures s != Loading
    ensures s == Login <==> response.Error?
    ensures s == NeedsKyc <==> response.Ok? && !response.value.kycCompleted
    ensures s == NeedsAccount <==> response.Ok? && response.value.kycCompleted && response.value.account.None?
    ensures s == Ready <==> response.Ok? && response.value.kycCompleted && response.value.account.Some?
  {
    match response
    case Error(_, _) => Login
    case Ok(d) =>
      if !d.kycCompleted then NeedsKyc
      else if d.account.None? then NeedsAccount
      else Ready
  }

  /** The render decision on `status` and `location.pathname`. */
  function Render(status: Status, path: string): (e: Element)
  {
    if status == Loading then Placeholder
    else if status == Login then Navigate("/")
    else if status == NeedsKyc && path != "/kyc" then Navigate("/kyc")
    else if status == NeedsAccount && path != "/create-account" then Navigate("/create-account")
    else Children
  }

  /** The mounted component: its `status` state and the number of dashboard requests made. */
  class Guard {
    var status: Status
    var fetches: nat

    /** The first render: status "loading", no request made yet. */
    constructor ()
      ensures status == Loading && fetches == 0
    {
      status, fetches := Loading, 0;
    }

    /** The mount effect (empty dependency list, so it runs once): one request, then one
        `setStatus` with the classification of its answer. */
    method CheckStatus(response: Result<Dashboard>)
      requires status == Loading && fetches == 0
      modifies this
      ensures fetches == 1
      ensures status == Classify(response)
    {
      fetches := fetches + 1;
      status := Classify(response);
    }

    /** What the component renders now: the placeholder while loading, the login redirect
        for "login", the /kyc and /create-account redirects away from any other path, and
        the children otherwise. */
    function View(path: string): (e: Element)
      reads this
      ensures e == Placeholder <==> status == Loading
      ensures e == Navigate("/") <==> status == Login
      ensures e == Navigate("/kyc") <==> status == NeedsKyc && path != "/kyc"
      ensures e == Navigate("/create-account") <==> status == NeedsAccount && path != "/create-account"
      ensures e == Children <==>
        status == Ready || (status == NeedsKyc && path == "/kyc") ||
        (status == NeedsAccount && path == "/create-account")
    {
      Render(status, path)
    }
  }

  /** The initial status renders the placeholder, on every path, and never redirects. */
  lemma LoadingNeverRedirects(path: string)
    ensures Render(Loading, path) == Placeholder
  {
  }

  /** A redirect goes to "/", "/kyc" or "/create-account" only, and each of them happens
      exactly for its status. */
  lemma RenderRedirects(status: Status, path: string)
    ensures Render(status, path) == Navigate("/") <==> status == Login
    ensures Render(status, path) == Navigate("/kyc") <==> status == NeedsKyc && path != "/kyc"
    ensures Render(status, path) == Navigate("/create-account") <==>
      status == NeedsAccount && path != "/create-account"
  {
  }

  /** The children are rendered exactly for "ok" on every path, "kyc" on /kyc and "account"
      on /create-account. */
  lemma RenderChildrenIff(status: Status, path: string)
    ensures Render(status, path) == Children <==>
      status == Ready || (status == NeedsKyc && path == "/kyc") ||
      (status == NeedsAccount && path == "/create-account")
  {
  }

  /** Against the backend: a user whose record is gone is sent to log in; a user without
      completed KYC is sent to /kyc; with KYC done but no account, to /create-account;
      otherwise the page is shown. */
  lemma ClassifyDashboard(users: seq<UserRecord>, accounts: seq<Account>, user: UserRecord)
    ensures Classify(GetDashboard(users, accounts, user)) == Login <==>
      forall i :: 0 <= i < |users| ==> users[i].id != user.id
    ensures RecordById(users, user.id).Some? ==>
      var kyc := users[RecordById(users, user.id).value].kycCompleted == Some(true);
      var hasAccount := AccountOfUser(accounts, user.id).Some?;
      Classify(GetDashboard(users, accounts, user)) ==
        if !kyc then NeedsKyc else if !hasAccount then NeedsAccount else Ready
  {
  }

  /** A mount followed by its one request leaves the component rendering the redirect or the
      children that the answer calls for. */
  method Mount(response: Result<Dashboard>, path: string) returns (first: Element, settled: Element)
    ensures first == Placeholder
    ensures settled == Render(Classify(response), path)
    ensures settled != Placeholder
  {
    var g := new Guard();
    first := g.View(path);
    g.CheckStatus(response);
    settled := g.View(path);
  }
}
