/** `AdminRoute` (frontend/src/components/AdminRoute.jsx): the token held by the auth context
    (None when there is none) is checked before the role is decoded from it. */
module AdminRoute {
  import opened Common
  import opened Jwt
  import opened Router

  /** The render decision: no token or an empty one goes to "/"; a role other than exactly
      the string "admin" goes to "/dashboard"; otherwise the children are shown. */
  function Decide(token: Option<string>, parse: string -> Option<Json>): (e: Element)
  {
    if token.None? || token.value == "" then Navigate("/")
    else if GetUserRole(token.value, parse) != Defined(JString("admin")) then Navigate("/dashboard")
    else Children
  }

  /** Each of the three outcomes, and exactly when it happens. */
  lemma DecideIff(token: Option<string>, parse: string -> Option<Json>)
    ensures Decide(token, parse) == Navigate("/") <==> token.None? || token.value == ""
    ensures Decide(token, parse) == Navigate("/dashboard") <==>
      token.Some? && token.value != "" && GetUserRole(token.value, parse) != Defined(JString("admin"))
    ensures Decide(token, parse) == Children <==>
      token.Some? && token.value != "" && GetUserRole(token.value, parse) == Defined(JString("admin"))
  {
  }

  /** The token check comes first: without a token the role decoder is never consulted. */
  lemma MissingTokenIgnoresRole(token: Option<string>, parse1: string -> Option<Json>,
                                parse2: string -> Option<Json>)
    requires token.None? || token.value == ""
    ensures Decide(token, parse1) == Decide(token, parse2) == Navigate("/")
  {
  }

  /** A non-empty token without a '.' has role null, so it is sent to the dashboard. */
  lemma NoDotTokenRefused(token: string, parse: string -> Option<Json>)
    requires token != "" && '.' !in token
    ensures Decide(Some(token), parse) == Navigate("/dashboard")
  {
    NoDotYieldsNull(token, parse);
  }

  /** A token whose payload segment uses the base64url characters '-' or '_' is refused,
      whatever its claims. */
  lemma UrlSafeTokenRefused(token: string, parse: string -> Option<Json>, k: nat)
    requires SecondSegment(token).Some?
    requires k < |SecondSegment(token).value|
    requires SecondSegment(token).value[k] == '-' || SecondSegment(token).value[k] == '_'
    ensures Decide(Some(token), parse) == Navigate("/dashboard")
  {
    UrlSafePayloadYieldsNull(token, parse, k);
  }

  /** A token whose payload is the base64 text of `{"role":"admin"}` is admitted. */
  lemma AdminTokenAdmitted(header: string, payload: string, signature: string,
                           parse: string -> Option<Json>)
    requires '.' !in header && payload == "eyJyb2xlIjoiYWRtaW4ifQ"
    requires parse("{\"role\":\"admin\"}") == Some(JObject([("role", JString("admin"))]))
    ensures Decide(Some(header + "." + payload + "." + signature), parse) == Children
  {
    AdminExample(header, payload, signature, parse);
  }
}
