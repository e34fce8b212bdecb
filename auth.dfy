/** The access check in front of the API and the status page (`src/middleware/auth.ts`):
    a decision on the configured `AUTH_TOKEN` and the token the request carries. */
module Auth {
  import opened Base
  import opened Strings

  /** The sample value shipped in the environment template; it counts as "not set". */
  const PlaceholderToken: string := "change-this-to-your-secure-token"
  const UnauthorizedMessage: string := "Unauthorized. Please provide a valid auth token."
  const BearerPrefix: string := "Bearer "

  /** The parts of a request the check reads: the `x-auth-token` and `authorization`
      headers and the `token` query parameter, each possibly absent. */
  datatype Request = Request(xAuthToken: Option<string>, authorization: Option<string>, queryToken: Option<string>)

  /** What the check does with a request. */
  datatype Reply = Unauthorized(success: bool, error: string) | LoginPage

  /** `Pass` sets `req.authenticated` and calls `next`; `Refuse` sends a reply and does
      neither. */
  datatype Outcome = Pass | Refuse(reply: Reply)

  /** Authentication is off when the token is unset, empty or the placeholder. */
  predicate Bypass(env: Option<string>) {
    !Truthy(env) || env.value == PlaceholderToken
  }

  /** `a || b || ... || z` over optional strings: the first truthy operand, or the last
      operand when none is truthy. */
  function FirstTruthy(cands: seq<Option<string>>): (r: Option<string>)
    requires |cands| >= 1
    ensures r in cands
    ensures (exists i :: 0 <= i < |cands| && Truthy(cands[i])) <==> Truthy(r)
    ensures !Truthy(r) ==> r == cands[|cands| - 1]
  {
    if |cands| == 1 || Truthy(cands[0]) then cands[0] else FirstTruthy(cands[1..])
  }

  /** `FirstTruthy` picks the earliest truthy operand. */
  lemma {:induction false} FirstTruthyEarliest(cands: seq<Option<string>>, i: nat)
    requires i < |cands| && Truthy(cands[i])
    requires forall j :: 0 <= j < i ==> !Truthy(cands[j])
    ensures FirstTruthy(cands) == cands[i]
  {
    if i > 0 {
      FirstTruthyEarliest(cands[1..], i - 1);
    }
  }

  /** `req.headers['authorization']?.replace('Bearer ', '')`: the first occurrence of the
      prefix, wherever it stands, is cut out. */
  function StripBearer(h: Option<string>): (r: Option<string>)
    ensures r.Some? <==> h.Some?
  {
    match h
    case None => None
    case Some(v) => Some(ReplaceFirst(v, BearerPrefix, ""))
  }

  /** A header of the form `Bearer <t>` yields `t`. */
  lemma BearerHeader(t: string)
    ensures StripBearer(Some(BearerPrefix + t)) == Some(t)
  {
    var s := BearerPrefix + t;
    assert OccursAt(s, BearerPrefix, 0);
    assert IndexOf(s, BearerPrefix) == Some(0);
    assert s[|BearerPrefix|..] == t;
    assert ReplaceFirst(s, BearerPrefix, "") == s[..0] + "" + t;
    assert s[..0] + "" + t == t;
  }

  /** The token the API check compares: header, then stripped authorization, then query. */
  function Candidate(req: Request): Option<string> {
    FirstTruthy([req.xAuthToken, StripBearer(req.authorization), req.queryToken])
  }

  /** The candidate is the first source that yields a non-empty token, in the fixed
      order; with none it is whatever the query gives. */
  lemma CandidateOrder(req: Request)
    ensures Truthy(req.xAuthToken) ==> Candidate(req) == req.xAuthToken
    ensures !Truthy(req.xAuthToken) && Truthy(StripBearer(req.authorization)) ==>
      Candidate(req) == StripBearer(req.authorization)
    ensures !Truthy(req.xAuthToken) && !Truthy(StripBearer(req.authorization)) ==>
      Candidate(req) == req.queryToken
  {
    var cs := [req.xAuthToken, StripBearer(req.authorization), req.queryToken];
    if !Truthy(req.xAuthToken) && Truthy(StripBearer(req.authorization)) {
      FirstTruthyEarliest(cs, 1);
    }
  }

  /** `authMiddleware`. */
  function Authorize(env: Option<string>, req: Request): (o: Outcome)
    ensures Bypass(env) ==> o == Pass
    ensures !Bypass(env) ==> (o == Pass <==> Candidate(req) == env)
    ensures o != Pass ==> o == Refuse(Unauthorized(false, UnauthorizedMessage))
  {
    if Bypass(env) || Candidate(req) == env then Pass
    else Refuse(Unauthorized(false, UnauthorizedMessage))
  }

  /** `authPageMiddleware`: only the query token is looked at, and a refusal is the
      login form. */
  function AuthorizePage(env: Option<string>, req: Request): (o: Outcome)
    ensures Bypass(env) ==> o == Pass
    ensures !Bypass(env) ==> (o == Pass <==> req.queryToken == env)
    ensures o != Pass ==> o == Refuse(LoginPage)
  {
    if Bypass(env) || req.queryToken == env then Pass
    else Refuse(LoginPage)
  }

  /** With authentication on, a request that carries no non-empty token anywhere is refused. */
  lemma NoTokenRefused(env: Option<string>, req: Request)
    requires !Bypass(env)
    requires !Truthy(req.xAuthToken) && !Truthy(StripBearer(req.authorization)) && !Truthy(req.queryToken)
    ensures Authorize(env, req) == Refuse(Unauthorized(false, UnauthorizedMessage))
    ensures AuthorizePage(env, req) == Refuse(LoginPage)
  {
    CandidateOrder(req);
  }

  /** A non-empty `x-auth-token` header decides alone: the other sources are not consulted. */
  lemma HeaderDecides(env: Option<string>, req: Request, auth: Option<string>, query: Option<string>)
    requires Truthy(req.xAuthToken)
    ensures Authorize(env, req) == Authorize(env, req.(authorization := auth, queryToken := query))
  {
    CandidateOrder(req);
    CandidateOrder(req.(authorization := auth, queryToken := query));
  }

  /** The page check ignores both headers. */
  lemma PageIgnoresHeaders(env: Option<string>, req: Request, x: Option<string>, auth: Option<string>)
    ensures AuthorizePage(env, req) == AuthorizePage(env, req.(xAuthToken := x, authorization := auth))
  {
  }

  /** A correct bearer header is accepted by the API check when no `x-auth-token` header is
      sent, though not by the page check. */
  lemma BearerAccepted(env: string, query: Option<string>)
    requires !Bypass(Some(env))
    ensures Authorize(Some(env), Request(None, Some(BearerPrefix + env), query)) == Pass
  {
    BearerHeader(env);
    CandidateOrder(Request(None, Some(BearerPrefix + env), query));
  }
}
