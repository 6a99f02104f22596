/** The order of the gateway's decisions on one authenticated request, up to the upstream call. */
module GatewayProxy {
  import opened Options
  import opened Sequences
  import opened Text
  import BreakGlass
  import opened GatewayRoutes

  datatype Gateway = Gateway(settings: BreakGlass.GatewaySettings, deadline: Option<nat>, baseUrl: string)

  /** A request whose token was introspected; `exchangeOk` says whether the token exchange succeeds. */
  datatype Request = Request(
    httpMethod: Method, path: string, query: Option<string>,
    caller: BreakGlass.Caller, token: seq<string>, exchangeOk: bool)

  datatype Outcome =
    | Forwarded(scopes: seq<string>, url: string)
    | Refused(refusal: Refusal)
    | ExchangeFailed

  predicate Allowlisted(segments: seq<string>) {
    || ["admin", "realms"] <= segments
    || segments == ["admin", "serverinfo"]
    || segments == ["admin", "metrics"]
  }

  /** Whether the path, its segments and the token's scopes let the request through. */
  predicate RouteAllows(m: Method, path: string, query: Option<string>, token: seq<string>) {
    ';' !in path && SegmentsAllowed(m, PathSegments(path), query, token)
  }

  predicate SegmentsAllowed(m: Method, segments: seq<string>, query: Option<string>, token: seq<string>) {
    && Allowlisted(segments)
    && exists c | c in Candidates(m, segments, query) :: HasAll(token, c)
  }

  predicate Allows(r: Request) {
    RouteAllows(r.httpMethod, r.path, r.query, r.token)
  }

  /** The scope that a refusal names: the first of the acceptable ones. */
  function FirstCandidate(r: Request): Scope {
    CandidatesNonEmpty(r.httpMethod, PathSegments(r.path), r.query);
    Candidates(r.httpMethod, PathSegments(r.path), r.query)[0][0]
  }

  lemma FirstIsMissing(r: Request, segments: seq<string>, missing: Option<string>)
    requires segments == PathSegments(r.path) && missing.Some?
    requires missing == FirstMissing(r.token, Texts(RequiredScopes(r.httpMethod, segments, r.query, r.token)))
    ensures missing == Some(ScopeText(FirstCandidate(r))) && missing.value !in r.token
  {
    var candidates := Candidates(r.httpMethod, segments, r.query);
    CandidatesNonEmpty(r.httpMethod, segments, r.query);
    AcceptedIffSomeCandidate(r.httpMethod, segments, r.query, r.token);
    SelectTakesFirst(candidates, r.token, 0);
    OneMissing(r.token, candidates[0]);
  }

  method HandleProxy(g: Gateway, r: Request, now: nat) returns (outcome: Outcome)
    ensures outcome.Forwarded? || outcome.ExchangeFailed? ==>
      && BreakGlass.GatewayAdmission(g.settings, g.deadline, now, r.caller).Admitted?
      && Allows(r) && ';' !in r.path
    ensures BreakGlass.GatewayAdmission(g.settings, g.deadline, now, r.caller).Admitted? && Allows(r) ==>
      if !r.exchangeOk then outcome == ExchangeFailed
      else if g.baseUrl == "" then outcome == Refused(NoBaseUrl)
      else outcome.Forwarded?
    ensures outcome.Forwarded? ==>
      && outcome.scopes == Texts(RequiredScopes(r.httpMethod, PathSegments(r.path), r.query, r.token))
      && outcome.scopes != [] && (forall scope | scope in outcome.scopes :: scope in r.token)
      && outcome.url == UpstreamPath(g.baseUrl, r.path) + (if r.query.Some? then "?" + r.query.value else "")
    ensures outcome == Refused(BreakGlassExpired) <==>
      BreakGlass.GatewayAdmission(g.settings, g.deadline, now, r.caller).Expired?
    ensures outcome == Refused(AzpNotAllowed) <==>
      BreakGlass.GatewayAdmission(g.settings, g.deadline, now, r.caller).AzpRefused?
    ensures BreakGlass.GatewayAdmission(g.settings, g.deadline, now, r.caller).Admitted? && !Allows(r) ==>
      if ';' in r.path then outcome == Refused(MatrixParams)
      else if PathSegments(r.path) == [] then outcome == Refused(MissingRealm)
      else if !Allowlisted(PathSegments(r.path)) then outcome == Refused(NotAllowlisted)
      else
        && outcome == Refused(MissingScope(ScopeText(FirstCandidate(r))))
        && ScopeText(FirstCandidate(r)) !in r.token
  {
    if g.settings.allowedAzp == [] && BreakGlass.Past(g.deadline, now) {
      return Refused(BreakGlassExpired);
    }
    var azp := BreakGlass.OrElse(r.caller.azp, r.caller.clientIdClaim);
    if g.settings.allowedAzp != [] && !BreakGlass.Listed(g.settings.allowedAzp, azp) {
      return Refused(AzpNotAllowed);
    }
    if ';' in r.path {
      return Refused(MatrixParams);
    }
    var segments := PathSegments(r.path);
    if segments == [] {
      return Refused(MissingRealm);
    }
    if !Allowlisted(segments) {
      return Refused(NotAllowlisted);
    }
    var required := RequiredScopes(r.httpMethod, segments, r.query, r.token);
    var missing := EnforceScopes(r.token, Texts(required));
    AcceptedIffSomeCandidate(r.httpMethod, segments, r.query, r.token);
    if missing.Some? {
      FirstIsMissing(r, segments, missing);
      return Refused(MissingScope(missing.value));
    }
    ExchangedScopesOnToken(r.httpMethod, segments, r.query, r.token);
    if !r.exchangeOk {
      return ExchangeFailed;
    }
    var url := BuildUpstreamUrl(g.baseUrl, r.path, r.query);
    match url
    case Err(refusal) => return Refused(refusal);
    case Ok(address) => return Forwarded(Texts(required), address);
  }

  /**
    A production gateway that started lets a changing request through only for a listed caller, or
    during a stated override, and then on scopes of the token that are no read scopes.
   */
  lemma ChangingRequestsAreGuarded(s: BreakGlass.GatewaySettings, start: nat, horizon: nat, r: Request, now: nat)
    requires s.production && BreakGlass.EnsureAzpAllowlist(s, start, horizon).Ok? && start <= now
    requires BreakGlass.GatewayAdmission(s, BreakGlass.EnsureAzpAllowlist(s, start, horizon).value, now, r.caller).Admitted?
    requires Allows(r)
    requires !IsRead(r.httpMethod) && FamilyOf(ResourceTail(PathSegments(r.path))) != Observability
    ensures
      || BreakGlass.Listed(s.allowedAzp, BreakGlass.OrElse(r.caller.azp, r.caller.clientIdClaim))
      || BreakGlass.GatewayOverride(s, start, now)
    ensures var required := Texts(RequiredScopes(r.httpMethod, PathSegments(r.path), r.query, r.token));
      required != [] && forall scope | scope in required :: scope in r.token && !EndsWith(scope, ":read")
  {
    var run := [BreakGlass.Arrival(now, r.caller)];
    BreakGlass.GatewayAdmitsExactly(s, start, horizon, run, 0);
    AcceptedIffSomeCandidate(r.httpMethod, PathSegments(r.path), r.query, r.token);
    WritesNeedMoreThanRead(r.httpMethod, PathSegments(r.path), r.query, r.token);
  }
}
