/** Paths, route families and scope requirements of the gateway. */
module GatewayRoutes {
  import opened Options
  import opened Sequences
  import opened Text

  // ---- Paths ------------------------------------------------------------------------------

  function TrimSlashesStart(s: string): string {
    if s != [] && s[0] == '/' then TrimSlashesStart(s[1..]) else s
  }

  function TrimSlashesEnd(s: string): string {
    if s != [] && s[|s| - 1] == '/' then TrimSlashesEnd(s[..|s| - 1]) else s
  }

  function NonEmpty(parts: seq<string>): seq<string> {
    Filter(part => part != "", parts)
  }

  function PathSegments(path: string): seq<string> {
    NonEmpty(Split(TrimSlashesEnd(TrimSlashesStart(path)), '/'))
  }

  lemma {:induction false} SplitConcat(a: string, b: string, sep: char)
    ensures Split(a + [sep] + b, sep) == Split(a, sep) + Split(b, sep)
  {
    if a == [] {
      assert a + [sep] + b == [sep] + b;
    } else {
      assert (a + [sep] + b)[1..] == a[1..] + [sep] + b;
      SplitConcat(a[1..], b, sep);
    }
  }

  lemma SegmentsConcat(a: string, b: string)
    ensures NonEmpty(Split(a + "/" + b, '/')) == NonEmpty(Split(a, '/')) + NonEmpty(Split(b, '/'))
  {
    SplitConcat(a, b, '/');
    FilterConcat(part => part != "", Split(a, '/'), Split(b, '/'));
  }

  lemma NoSegments()
    ensures NonEmpty(Split([], '/')) == []
  {
    assert Split([], '/') == [[]];
  }

  lemma {:induction false} TrimStartKeepsSegments(s: string)
    ensures NonEmpty(Split(TrimSlashesStart(s), '/')) == NonEmpty(Split(s, '/'))
    decreases |s|
  {
    if s != [] && s[0] == '/' {
      TrimStartKeepsSegments(s[1..]);
      SegmentsConcat([], s[1..]);
      NoSegments();
      assert s == [] + "/" + s[1..];
    }
  }

  lemma {:induction false} TrimEndKeepsSegments(s: string)
    ensures NonEmpty(Split(TrimSlashesEnd(s), '/')) == NonEmpty(Split(s, '/'))
    decreases |s|
  {
    if s != [] && s[|s| - 1] == '/' {
      var front := s[..|s| - 1];
      TrimEndKeepsSegments(front);
      SegmentsConcat(front, []);
      NoSegments();
      assert s == front + "/" + [];
    }
  }

  /** Trimming is not needed: the segments are the non-empty parts between slashes. */
  lemma SegmentsAreParts(path: string)
    ensures PathSegments(path) == NonEmpty(Split(path, '/'))
  {
    TrimStartKeepsSegments(path);
    TrimEndKeepsSegments(TrimSlashesStart(path));
  }

  /** The segments of `a/b`. */
  lemma SegmentsJoin(a: string, b: string)
    ensures PathSegments(a + "/" + b) == PathSegments(a) + PathSegments(b)
  {
    SegmentsAreParts(a + "/" + b);
    SegmentsAreParts(a);
    SegmentsAreParts(b);
    SegmentsConcat(a, b);
  }

  lemma SegmentsOfOne(name: string)
    requires name != "" && '/' !in name
    ensures PathSegments(name) == [name]
  {
    SegmentsAreParts(name);
    SplitCons(name, [], '/');
    assert Split(name, '/') == [name];
    assert Filter(part => part != "", [name][1..]) == [];
  }

  // ---- The upstream address ---------------------------------------------------------------

  datatype Refusal =
    | BreakGlassExpired | AzpNotAllowed | MatrixParams | MissingRealm | NotAllowlisted
    | MissingScope(scope: string) | NoBaseUrl

  function UpstreamPath(base: string, path: string): string {
    var stem := TrimSlashesEnd(base);
    var rest := TrimSlashesStart(path);
    if rest == "" then stem else stem + "/" + rest
  }

  method BuildUpstreamUrl(base: string, path: string, query: Option<string>) returns (r: Result<string, Refusal>)
    ensures base == "" ==> r == Err(NoBaseUrl)
    ensures base != "" ==> r == Ok(UpstreamPath(base, path) + (if query.Some? then "?" + query.value else ""))
  {
    if base == "" {
      return Err(NoBaseUrl);
    }
    var url := TrimSlashesEnd(base);
    var rest := TrimSlashesStart(path);
    if rest != "" {
      url := url + "/" + rest;
    }
    if query.Some? {
      assert url + "?" + query.value == url + ("?" + query.value);
      url := url + "?";
      url := url + query.value;
    }
    assert UpstreamPath(base, path) + "" == UpstreamPath(base, path);
    return Ok(url);
  }

  predicate AllSlashes(s: string) {
    forall i | 0 <= i < |s| :: s[i] == '/'
  }

  lemma {:induction false} SlashesGo(slashes: string, rest: string)
    requires AllSlashes(slashes) && (rest == "" || rest[0] != '/')
    ensures TrimSlashesStart(slashes + rest) == rest
  {
    if slashes == "" {
      assert slashes + rest == rest;
    } else {
      assert (slashes + rest)[1..] == slashes[1..] + rest && (slashes + rest)[0] == slashes[0];
      SlashesGo(slashes[1..], rest);
    }
  }

  lemma {:induction false} EndSlashesGo(stem: string, slashes: string)
    requires AllSlashes(slashes) && (stem == "" || stem[|stem| - 1] != '/')
    ensures TrimSlashesEnd(stem + slashes) == stem
    decreases |slashes|
  {
    if slashes == "" {
      assert stem + slashes == stem;
    } else {
      var n := |slashes| - 1;
      assert (stem + slashes)[..|stem| + n] == stem + slashes[..n] && (stem + slashes)[|stem| + n] == slashes[n];
      EndSlashesGo(stem, slashes[..n]);
    }
  }

  /** The address, character by character: the base, one slash, the path, with no other slash between. */
  lemma UpstreamIsBaseAndPath(stem: string, baseSlashes: string, pathSlashes: string, rest: string)
    requires AllSlashes(baseSlashes) && AllSlashes(pathSlashes)
    requires (stem == "" || stem[|stem| - 1] != '/') && (rest == "" || rest[0] != '/')
    ensures UpstreamPath(stem + baseSlashes, pathSlashes + rest) == if rest == "" then stem else stem + "/" + rest
  {
    EndSlashesGo(stem, baseSlashes);
    SlashesGo(pathSlashes, rest);
  }

  /** The path that is classified is the path that is forwarded, below the configured base. */
  lemma UpstreamKeepsSegments(base: string, path: string)
    ensures PathSegments(UpstreamPath(base, path)) == PathSegments(base) + PathSegments(path)
  {
    var stem := TrimSlashesEnd(base);
    var rest := TrimSlashesStart(path);
    TrimEndKeepsSegments(base);
    TrimStartKeepsSegments(path);
    SegmentsAreParts(base);
    SegmentsAreParts(path);
    SegmentsAreParts(stem);
    SegmentsAreParts(rest);
    if rest == "" {
      NoSegments();
    } else {
      SegmentsJoin(stem, rest);
    }
  }

  // ---- Scopes -----------------------------------------------------------------------------

  datatype Family =
    | Users | Groups | Roles | Clients | ClientScopes | Idp | Events | Realm | Tokens | Observability

  datatype Access = Read | Write | Secrets | Admin

  /** A scope the gateway knows; tokens carry scopes as text. */
  datatype Scope = Scope(family: Family, access: Access)

  function FamilyName(f: Family): string {
    match f
    case Users => "users"
    case Groups => "groups"
    case Roles => "roles"
    case Clients => "clients"
    case ClientScopes => "client-scopes"
    case Idp => "idp"
    case Events => "events"
    case Realm => "realm"
    case Tokens => "tokens"
    case Observability => "observability"
  }

  function AccessName(a: Access): string {
    match a
    case Read => "read"
    case Write => "write"
    case Secrets => "secrets"
    case Admin => "admin"
  }

  function ScopeText(s: Scope): string {
    "keycloak-admin:" + FamilyName(s.family) + ":" + AccessName(s.access)
  }

  function Texts(scopes: seq<Scope>): (r: seq<string>)
    ensures |r| == |scopes|
    ensures forall i | 0 <= i < |scopes| :: r[i] == ScopeText(scopes[i])
  {
    seq(|scopes|, i requires 0 <= i < |scopes| => ScopeText(scopes[i]))
  }

  datatype Method =
    | GET | HEAD | OPTIONS | POST | PUT | DELETE | PATCH | CONNECT | TRACE | Extension(name: string)

  predicate IsRead(m: Method) {
    m.GET? || m.HEAD? || m.OPTIONS?
  }

  function ResourceIndex(segments: seq<string>): (r: Option<nat>)
    ensures r.Some? ==> r.value < |segments|
  {
    var first: nat := if segments != [] && segments[0] == "admin" then 1 else 0;
    var index := if first < |segments| && segments[first] == "realms" then first + 2 else first;
    if index < |segments| then Some(index) else None
  }

  /** The resource segment and what follows it; empty when there is none. */
  function ResourceTail(segments: seq<string>): seq<string> {
    match ResourceIndex(segments)
    case None => []
    case Some(index) => segments[index..]
  }

  /** What may stand before the resource segment. */
  predicate RoutePrefix(segments: seq<string>) {
    || segments == [] || segments == ["admin"]
    || (|segments| == 2 && segments[0] == "realms")
    || (|segments| == 3 && segments[0] == "admin" && segments[1] == "realms")
  }

  /**
    The index of the resource segment: past `admin`, and past `realms` with the realm's name. There
    is none when the segments end before it.
   */
  method FindResourceIndex(segments: seq<string>) returns (r: Option<nat>)
    ensures r.None? <==> ResourceTail(segments) == []
    ensures r.Some? ==> r.value < |segments| && RoutePrefix(segments[..r.value])
    ensures r.Some? ==> ResourceTail(segments) == segments[r.value..]
    ensures r.None? ==> RoutePrefix(segments) || RoutePrefix(segments + [""])
  {
    var index: nat := if segments != [] && segments[0] == "admin" then 1 else 0;
    if index < |segments| && segments[index] == "realms" {
      index := index + 2;
    }
    r := if index < |segments| then Some(index) else None;
  }

  lemma ResourceTailOfRealm(realm: string, tail: seq<string>)
    ensures ResourceTail(["admin", "realms", realm] + tail) == tail
  {
    var segments := ["admin", "realms", realm] + tail;
    assert segments[1] == "realms" && segments[3..] == tail;
  }

  predicate IsRealmRoleLookup(tail: seq<string>) {
    |tail| == 2 && tail[0] == "roles"
  }

  predicate IsClientLookup(tail: seq<string>) {
    tail == ["clients"]
  }

  predicate IsClientRoleLookup(tail: seq<string>) {
    |tail| == 4 && tail[0] == "clients" && tail[2] == "roles"
  }

  predicate IsClientScopeLookup(tail: seq<string>) {
    tail == ["client-scopes"]
  }

  predicate IsEventConfig(tail: seq<string>) {
    tail == ["events", "config"]
  }

  predicate IsClientSecret(segments: seq<string>) {
    "client-secret" in segments
  }

  function ParamName(pair: string): string {
    FirstPart(pair, '=')
  }

  predicate QueryHasParam(query: Option<string>, name: string) {
    query.Some? && exists pair | pair in Split(query.value, '&') :: ParamName(pair) == name
  }

  lemma OnePair(pair: string, param: string)
    requires '&' !in pair
    ensures QueryHasParam(Some(pair), param) <==> ParamName(pair) == param
  {
    SplitCons(pair, [], '&');
    assert Split(pair, '&') == [pair];
    assert pair in [pair];
  }

  lemma MorePairs(before: string, pair: string, param: string)
    ensures QueryHasParam(Some(before + ['&'] + pair), param)
      <==> QueryHasParam(Some(before), param) || QueryHasParam(Some(pair), param)
  {
    SplitConcat(before, pair, '&');
  }

  /** A query's parameters are what stands before the first equals sign of its parts between ampersands. */
  lemma QueryParams(before: string, name: string, value: string, param: string)
    requires '&' !in name && '=' !in name && '&' !in value
    ensures QueryHasParam(Some(name), param) <==> param == name
    ensures QueryHasParam(Some(name + "=" + value), param) <==> param == name
    ensures QueryHasParam(Some(before + "&" + name + "=" + value), param)
      <==> param == name || QueryHasParam(Some(before), param)
    ensures !QueryHasParam(None, param)
  {
    var pair := name + "=" + value;
    FirstPartOf(name, [], '=');
    FirstPartOf(name, "=" + value, '=');
    assert name + [] == name && name + ("=" + value) == pair;
    OnePair(name, param);
    OnePair(pair, param);
    MorePairs(before, pair, param);
    assert before + ['&'] + pair == before + "&" + name + "=" + value;
  }

  function FamilyOf(tail: seq<string>): Family {
    if tail == [] then Realm
    else
      var resource := tail[0];
      if resource == "users" then Users
      else if resource == "groups" then Groups
      else if resource == "roles" || resource == "roles-by-id" then Roles
      else if resource == "clients" then Clients
      else if resource == "client-scopes" then ClientScopes
      else if resource == "identity-provider" then Idp
      else if resource == "events" then Events
      else if
        || resource == "sessions" || resource == "user-sessions"
        || resource == "offline-sessions" || resource == "client-session-stats"
      then Tokens
      else if resource == "attack-detection" || resource == "serverinfo" || resource == "metrics" then Observability
      else Realm
  }

  const REALM_ROLE_LOOKUP := [
    [Scope(Roles, Read)], [Scope(Roles, Write)], [Scope(Groups, Write)],
    [Scope(Clients, Write)], [Scope(ClientScopes, Write)]]

  const CLIENT_LOOKUP := [[Scope(Clients, Read)], [Scope(Clients, Write)], [Scope(Groups, Write)]]

  const CLIENT_ROLE_LOOKUP := [[Scope(Clients, Read)], [Scope(Clients, Write)], [Scope(Groups, Write)]]

  const CLIENT_SCOPE_LOOKUP := [
    [Scope(ClientScopes, Read)], [Scope(ClientScopes, Write)], [Scope(Clients, Write)], [Scope(Realm, Admin)]]

  function ReadOrWrite(isRead: bool, family: Family): seq<seq<Scope>> {
    [[Scope(family, if isRead then Read else Write)]]
  }

  function FamilyCandidates(isRead: bool, segments: seq<string>, family: Family): seq<seq<Scope>> {
    match family
    case Clients =>
      if IsClientSecret(segments) then [[Scope(Clients, Secrets)]] else ReadOrWrite(isRead, Clients)
    case Events => [[Scope(Events, if isRead then Read else Admin)]]
    case Tokens => if isRead then [[Scope(Tokens, Read)]] else [[Scope(Realm, Admin)]]
    case Observability => [[Scope(Observability, Read)]]
    case _ => ReadOrWrite(isRead, family)
  }

  /** The acceptable scope sets for a request, in order. */
  function Candidates(m: Method, segments: seq<string>, query: Option<string>): seq<seq<Scope>> {
    var tail := ResourceTail(segments);
    if m.GET? && IsRealmRoleLookup(tail) then REALM_ROLE_LOOKUP
    else if m.GET? && IsClientRoleLookup(tail) then CLIENT_ROLE_LOOKUP
    else if m.GET? && IsClientLookup(tail) && QueryHasParam(query, "clientId") then CLIENT_LOOKUP
    else if m.GET? && IsClientScopeLookup(tail) then CLIENT_SCOPE_LOOKUP
    else if IsEventConfig(tail) then ReadOrWrite(IsRead(m), Realm)
    else FamilyCandidates(IsRead(m), segments, FamilyOf(tail))
  }

  /** The lookups that helper tools share: for a GET on them other families' write scopes do as well. */
  predicate IsLookup(m: Method, tail: seq<string>, query: Option<string>) {
    m.GET? && (IsRealmRoleLookup(tail) || IsClientRoleLookup(tail) || IsClientScopeLookup(tail)
               || (IsClientLookup(tail) && QueryHasParam(query, "clientId")))
  }

  /** A lookup accepts its own family's read and write scopes, and no other family's read scope. */
  lemma LookupsOnlyWiden(m: Method, segments: seq<string>, query: Option<string>)
    requires IsLookup(m, ResourceTail(segments), query)
    ensures var family := FamilyOf(ResourceTail(segments));
      && [Scope(family, Read)] in Candidates(m, segments, query)
      && [Scope(family, Write)] in Candidates(m, segments, query)
      && forall c, s: Scope | c in Candidates(m, segments, query) && s in c && s.family != family :: !s.access.Read?
  {
    assert REALM_ROLE_LOOKUP[0] == [Scope(Roles, Read)] && REALM_ROLE_LOOKUP[1] == [Scope(Roles, Write)];
    assert CLIENT_LOOKUP[0] == [Scope(Clients, Read)] && CLIENT_LOOKUP[1] == [Scope(Clients, Write)];
    assert CLIENT_ROLE_LOOKUP[0] == [Scope(Clients, Read)] && CLIENT_ROLE_LOOKUP[1] == [Scope(Clients, Write)];
    assert CLIENT_SCOPE_LOOKUP[0] == [Scope(ClientScopes, Read)] && CLIENT_SCOPE_LOOKUP[1] == [Scope(ClientScopes, Write)];
  }

  /** The one scope of a family's routes. */
  function FamilyScope(isRead: bool, segments: seq<string>, family: Family): (s: Scope)
    ensures FamilyCandidates(isRead, segments, family) == [[s]]
    ensures s.family == if family.Tokens? && !isRead then Realm else family
    ensures s.access.Read? <==> family.Observability? || (isRead && !(family.Clients? && IsClientSecret(segments)))
  {
    FamilyCandidates(isRead, segments, family)[0][0]
  }

  /** A request that is no lookup is routed by its family or, for the event configuration, as the realm's. */
  lemma RoutedByFamily(m: Method, segments: seq<string>, query: Option<string>)
    requires !IsLookup(m, ResourceTail(segments), query)
    ensures var tail := ResourceTail(segments);
      Candidates(m, segments, query)
        == if IsEventConfig(tail) then ReadOrWrite(IsRead(m), Realm) else FamilyCandidates(IsRead(m), segments, FamilyOf(tail))
  {}

  /**
    Every other request takes one scope of its route's own family, except that ending sessions takes
    the realm's; it is a read scope exactly for reads outside client secrets, and for observability.
   */
  lemma OtherRoutesTakeOwnScope(m: Method, segments: seq<string>, query: Option<string>)
    requires var tail := ResourceTail(segments); !IsLookup(m, tail, query) && !IsEventConfig(tail)
    ensures var family := FamilyOf(ResourceTail(segments));
      exists s: Scope :: Candidates(m, segments, query) == [[s]]
        && s.family == (if family.Tokens? && !IsRead(m) then Realm else family)
        && (s.access.Read? <==> family.Observability? || (IsRead(m) && !(family.Clients? && IsClientSecret(segments))))
  {
    RoutedByFamily(m, segments, query);
    assert Candidates(m, segments, query) == [[FamilyScope(IsRead(m), segments, FamilyOf(ResourceTail(segments)))]];
  }

  // ---- Selecting and enforcing ------------------------------------------------------------

  predicate HasAll(token: seq<string>, candidate: seq<Scope>) {
    forall scope | scope in candidate :: ScopeText(scope) in token
  }

  /** The first candidate the token covers, or else the first candidate. */
  function Select(candidates: seq<seq<Scope>>, token: seq<string>): seq<Scope> {
    var covered := Filter(candidate => HasAll(token, candidate), candidates);
    if covered != [] then covered[0]
    else if candidates != [] then candidates[0]
    else [Scope(Realm, Admin)]
  }

  /** The first required scope that the token lacks. */
  method EnforceScopes(token: seq<string>, required: seq<string>) returns (missing: Option<string>)
    ensures missing.None? <==> forall scope | scope in required :: scope in token
    ensures missing.Some? ==> exists k | 0 <= k < |required| ::
      required[k] == missing.value && missing.value !in token && forall j | 0 <= j < k :: required[j] in token
    ensures missing == FirstMissing(token, required)
  {
    for i := 0 to |required|
      invariant forall j | 0 <= j < i :: required[j] in token
      invariant FirstMissing(token, required) == FirstMissing(token, required[i..])
    {
      assert required[i..][1..] == required[i + 1..];
      if required[i] !in token {
        return Some(required[i]);
      }
    }
    return None;
  }

  function FirstMissing(token: seq<string>, required: seq<string>): Option<string> {
    if required == [] then None
    else if required[0] !in token then Some(required[0])
    else FirstMissing(token, required[1..])
  }

  lemma {:induction false} NothingMissing(token: seq<string>, required: seq<string>)
    ensures FirstMissing(token, required).None? <==> forall scope | scope in required :: scope in token
  {
    if required != [] {
      assert required == [required[0]] + required[1..];
      NothingMissing(token, required[1..]);
    }
  }

  lemma TextsCovered(token: seq<string>, scopes: seq<Scope>)
    ensures FirstMissing(token, Texts(scopes)).None? <==> HasAll(token, scopes)
  {
    NothingMissing(token, Texts(scopes));
    if forall text | text in Texts(scopes) :: text in token {
      forall scope | scope in scopes ensures ScopeText(scope) in token {
        var i :| 0 <= i < |scopes| && scopes[i] == scope;
        assert Texts(scopes)[i] in Texts(scopes);
      }
    }
  }

  /** Selection never loses: the selected set is covered as soon as any candidate is. */
  lemma SelectFindsCovered(candidates: seq<seq<Scope>>, token: seq<string>)
    ensures (exists c | c in candidates :: HasAll(token, c)) ==>
      Select(candidates, token) in candidates && HasAll(token, Select(candidates, token))
    ensures candidates != [] ==> Select(candidates, token) in candidates
  {
    var p := (candidate: seq<Scope>) => HasAll(token, candidate);
    FilterMembers(p, candidates);
    FilterCongruent(p, candidate => HasAll(token, candidate), candidates);
    var covered := Filter(candidate => HasAll(token, candidate), candidates);
    if covered != [] {
      assert covered[0] in covered;
    }
  }

  /** The first covered candidate is selected, or the very first one when none is covered. */
  lemma SelectTakesFirst(candidates: seq<seq<Scope>>, token: seq<string>, k: nat)
    requires k < |candidates| && forall j | 0 <= j < k :: !HasAll(token, candidates[j])
    ensures HasAll(token, candidates[k]) ==> Select(candidates, token) == candidates[k]
    ensures (forall c | c in candidates :: !HasAll(token, c)) ==> Select(candidates, token) == candidates[0]
    ensures Select([], token) == [Scope(Realm, Admin)]
  {
    var p := (candidate: seq<Scope>) => HasAll(token, candidate);
    FilterCongruent(p, candidate => HasAll(token, candidate), candidates);
    assert candidates == candidates[..k] + ([candidates[k]] + candidates[k + 1..]);
    FilterConcat(p, candidates[..k], [candidates[k]] + candidates[k + 1..]);
    FilterNothing(p, candidates[..k]);
    assert ([candidates[k]] + candidates[k + 1..])[1..] == candidates[k + 1..];
    if forall c | c in candidates :: !HasAll(token, c) {
      FilterNothing(p, candidates);
    }
  }

  lemma {:induction false} FilterNothing<T>(p: T -> bool, s: seq<T>)
    requires forall x | x in s :: !p(x)
    ensures Filter(p, s) == []
  {
    if s != [] {
      assert s[0] in s;
      FilterNothing(p, s[1..]);
    }
  }

  lemma OneMissing(token: seq<string>, one: seq<Scope>)
    requires |one| == 1
    ensures FirstMissing(token, Texts(one)) == if ScopeText(one[0]) in token then None else Some(ScopeText(one[0]))
  {
    assert Texts(one)[1..] == [];
  }

  function RequiredScopes(m: Method, segments: seq<string>, query: Option<string>, token: seq<string>): seq<Scope> {
    Select(Candidates(m, segments, query), token)
  }

  predicate ScopesSuffice(m: Method, segments: seq<string>, query: Option<string>, token: seq<string>) {
    FirstMissing(token, Texts(RequiredScopes(m, segments, query, token))).None?
  }

  lemma LookupCandidatesSingle()
    ensures forall c | c in REALM_ROLE_LOOKUP :: |c| == 1
    ensures forall c | c in CLIENT_ROLE_LOOKUP :: |c| == 1
    ensures forall c | c in CLIENT_LOOKUP :: |c| == 1
    ensures forall c | c in CLIENT_SCOPE_LOOKUP :: |c| == 1
    ensures REALM_ROLE_LOOKUP != [] && CLIENT_ROLE_LOOKUP != [] && CLIENT_LOOKUP != [] && CLIENT_SCOPE_LOOKUP != []
  {}

  lemma CandidatesNonEmpty(m: Method, segments: seq<string>, query: Option<string>)
    ensures Candidates(m, segments, query) != []
    ensures forall c | c in Candidates(m, segments, query) :: |c| == 1
  {
    LookupCandidatesSingle();
    if !IsLookup(m, ResourceTail(segments), query) {
      RoutedByFamily(m, segments, query);
      var s := FamilyScope(IsRead(m), segments, FamilyOf(ResourceTail(segments)));
    }
  }

  /** Selecting one candidate and enforcing it accepts exactly when some candidate is on the token. */
  lemma AcceptedIffSomeCandidate(m: Method, segments: seq<string>, query: Option<string>, token: seq<string>)
    ensures ScopesSuffice(m, segments, query, token)
      <==> exists c | c in Candidates(m, segments, query) :: HasAll(token, c)
  {
    CandidatesNonEmpty(m, segments, query);
    var candidates := Candidates(m, segments, query);
    SelectFindsCovered(candidates, token);
    TextsCovered(token, Select(candidates, token));
  }

  /** What is then exchanged is a non-empty part of what the token has. */
  lemma ExchangedScopesOnToken(m: Method, segments: seq<string>, query: Option<string>, token: seq<string>)
    requires ScopesSuffice(m, segments, query, token)
    ensures var sent := Texts(RequiredScopes(m, segments, query, token));
      sent != [] && forall scope | scope in sent :: scope in token
  {
    CandidatesNonEmpty(m, segments, query);
    SelectFindsCovered(Candidates(m, segments, query), token);
    NothingMissing(token, Texts(RequiredScopes(m, segments, query, token)));
  }

  /** More scopes on the token never turn acceptance into refusal. */
  lemma MoreScopesKeepAcceptance(m: Method, segments: seq<string>, query: Option<string>,
                                 token: seq<string>, more: seq<string>)
    requires forall scope | scope in token :: scope in more
    requires ScopesSuffice(m, segments, query, token)
    ensures ScopesSuffice(m, segments, query, more)
  {
    AcceptedIffSomeCandidate(m, segments, query, token);
    AcceptedIffSomeCandidate(m, segments, query, more);
    var c :| c in Candidates(m, segments, query) && HasAll(token, c);
    assert HasAll(more, c);
  }

  predicate EndsWith(s: string, t: string) {
    |t| <= |s| && s[|s| - |t|..] == t
  }

  lemma EndOfConcat(a: string, b: string, t: string)
    requires |t| <= |b|
    ensures EndsWith(a + b, t) <==> EndsWith(b, t)
  {
    assert (a + b)[|a + b| - |t|..] == b[|b| - |t|..];
  }

  lemma SameLast(s: string, t: string)
    requires t != "" && EndsWith(s, t)
    ensures s != "" && s[|s| - 1] == t[|t| - 1]
  {
    assert s[|s| - |t|..][|t| - 1] == s[|s| - 1];
  }

  lemma AccessEnds(a: Access)
    ensures |AccessName(a)| >= 4
    ensures EndsWith(":" + AccessName(a), ":read") <==> a.Read?
  {
    var end := ":" + AccessName(a);
    assert end[|end| - 1] == AccessName(a)[|AccessName(a)| - 1] && ":read"[4] == 'd';
    if a.Read? {
      assert end == ":read" && end[0..] == end;
    } else if EndsWith(end, ":read") {
      SameLast(end, ":read");
    }
  }

  lemma ReadScopesEndInRead(s: Scope)
    ensures EndsWith(ScopeText(s), ":read") <==> s.access.Read?
  {
    var stem := "keycloak-admin:" + FamilyName(s.family);
    var end := ":" + AccessName(s.access);
    AccessEnds(s.access);
    EndOfConcat(stem, end, ":read");
    assert ScopeText(s) == stem + end;
  }

  /**
    Outside the observability routes the scopes that let a changing method through, which are the
    ones exchanged, are on the token and none of them is a read scope.
   */
  lemma WritesNeedMoreThanRead(m: Method, segments: seq<string>, query: Option<string>, token: seq<string>)
    requires !IsRead(m) && FamilyOf(ResourceTail(segments)) != Observability
    requires ScopesSuffice(m, segments, query, token)
    ensures var required := Texts(RequiredScopes(m, segments, query, token));
      required != [] && forall scope | scope in required :: scope in token && !EndsWith(scope, ":read")
  {
    var chosen: seq<Scope> := RequiredScopes(m, segments, query, token);
    ExchangedScopesOnToken(m, segments, query, token);
    SelectFindsCovered(Candidates(m, segments, query), token);
    WriteCandidatesAreNoReads(m, segments, query);
    ReadScopesEndInRead(chosen[0]);
  }

  lemma WriteCandidatesAreNoReads(m: Method, segments: seq<string>, query: Option<string>)
    requires !IsRead(m) && FamilyOf(ResourceTail(segments)) != Observability
    ensures exists s: Scope :: Candidates(m, segments, query) == [[s]] && !s.access.Read?
  {
    RoutedByFamily(m, segments, query);
    if IsEventConfig(ResourceTail(segments)) {
      assert Candidates(m, segments, query) == [[Scope(Realm, Write)]];
    } else {
      assert Candidates(m, segments, query) == [[FamilyScope(false, segments, FamilyOf(ResourceTail(segments)))]];
    }
  }
}
