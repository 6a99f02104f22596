/**
  The gateway's scope table in full: for each route the scopes that let a request through, as they
  stand on a token.
 */
module ScopeTable {
  import opened Options
  import opened Sequences
  import opened GatewayRoutes
  import opened GatewayProxy

  lemma UsersTexts()
    ensures ScopeText(Scope(Users, Read)) == "keycloak-admin:users:read"
    ensures ScopeText(Scope(Users, Write)) == "keycloak-admin:users:write"
  {}

  lemma GroupsTexts()
    ensures ScopeText(Scope(Groups, Read)) == "keycloak-admin:groups:read"
    ensures ScopeText(Scope(Groups, Write)) == "keycloak-admin:groups:write"
  {}

  lemma RolesTexts()
    ensures ScopeText(Scope(Roles, Read)) == "keycloak-admin:roles:read"
    ensures ScopeText(Scope(Roles, Write)) == "keycloak-admin:roles:write"
  {}

  lemma ClientsTexts()
    ensures ScopeText(Scope(Clients, Read)) == "keycloak-admin:clients:read"
    ensures ScopeText(Scope(Clients, Write)) == "keycloak-admin:clients:write"
    ensures ScopeText(Scope(Clients, Secrets)) == "keycloak-admin:clients:secrets"
  {}

  lemma ClientScopesTexts()
    ensures ScopeText(Scope(ClientScopes, Read)) == "keycloak-admin:client-scopes:read"
    ensures ScopeText(Scope(ClientScopes, Write)) == "keycloak-admin:client-scopes:write"
  {}

  lemma IdpTexts()
    ensures ScopeText(Scope(Idp, Read)) == "keycloak-admin:idp:read"
    ensures ScopeText(Scope(Idp, Write)) == "keycloak-admin:idp:write"
  {}

  lemma EventsTexts()
    ensures ScopeText(Scope(Events, Read)) == "keycloak-admin:events:read"
    ensures ScopeText(Scope(Events, Admin)) == "keycloak-admin:events:admin"
  {}

  lemma RealmTexts()
    ensures ScopeText(Scope(Realm, Read)) == "keycloak-admin:realm:read"
    ensures ScopeText(Scope(Realm, Write)) == "keycloak-admin:realm:write"
    ensures ScopeText(Scope(Realm, Admin)) == "keycloak-admin:realm:admin"
  {}

  lemma OtherTexts()
    ensures ScopeText(Scope(Tokens, Read)) == "keycloak-admin:tokens:read"
    ensures ScopeText(Scope(Observability, Read)) == "keycloak-admin:observability:read"
  {}

  // ---- Routes below a realm ---------------------------------------------------------------

  function Either(read: bool, forRead: string, forWrite: string): string {
    if read then forRead else forWrite
  }

  /** The scope that a family's routes take. */
  function FamilyTable(read: bool, segments: seq<string>, family: Family): string {
    match family
    case Users => Either(read, "keycloak-admin:users:read", "keycloak-admin:users:write")
    case Groups => Either(read, "keycloak-admin:groups:read", "keycloak-admin:groups:write")
    case Roles => Either(read, "keycloak-admin:roles:read", "keycloak-admin:roles:write")
    case Clients =>
      if "client-secret" in segments then "keycloak-admin:clients:secrets"
      else Either(read, "keycloak-admin:clients:read", "keycloak-admin:clients:write")
    case ClientScopes => Either(read, "keycloak-admin:client-scopes:read", "keycloak-admin:client-scopes:write")
    case Idp => Either(read, "keycloak-admin:idp:read", "keycloak-admin:idp:write")
    case Events => Either(read, "keycloak-admin:events:read", "keycloak-admin:events:admin")
    case Realm => Either(read, "keycloak-admin:realm:read", "keycloak-admin:realm:write")
    case Tokens => Either(read, "keycloak-admin:tokens:read", "keycloak-admin:realm:admin")
    case Observability => "keycloak-admin:observability:read"
  }

  lemma OneCandidate(m: Method, segments: seq<string>, query: Option<string>, token: seq<string>, s: Scope)
    requires Candidates(m, segments, query) == [[s]] && ["admin", "realms"] <= segments
    ensures SegmentsAllowed(m, segments, query, token) <==> ScopeText(s) in token
  {
    CandidateOnToken(token, s);
  }

  lemma CandidateOnToken(token: seq<string>, s: Scope)
    ensures (exists c | c in [[s]] :: HasAll(token, c)) <==> ScopeText(s) in token
  {
    assert HasAll(token, [s]) <==> ScopeText(s) in token by {
      assert s in [s];
    }
    assert [s] in [[s]];
  }

  lemma FamilyTexts(read: bool, segments: seq<string>, family: Family)
    ensures ScopeText(FamilyScope(read, segments, family)) == FamilyTable(read, segments, family)
  {
    match family
    case Users => UsersTexts();
    case Groups => GroupsTexts();
    case Roles => RolesTexts();
    case Clients => ClientsTexts();
    case ClientScopes => ClientScopesTexts();
    case Idp => IdpTexts();
    case Events => EventsTexts();
    case Realm => RealmTexts();
    case Tokens =>
      OtherTexts();
      RealmTexts();
    case Observability => OtherTexts();
  }

  /** Below a realm the first word names the family. */
  lemma WordFamilies(word: string, rest: seq<string>)
    ensures var family := FamilyOf([word] + rest);
      && (word == "users" ==> family == Users)
      && (word == "groups" ==> family == Groups)
      && (word == "roles" || word == "roles-by-id" ==> family == Roles)
      && (word == "clients" ==> family == Clients)
      && (word == "client-scopes" ==> family == ClientScopes)
      && (word == "identity-provider" ==> family == Idp)
      && (word == "events" ==> family == Events)
    ensures var family := FamilyOf([word] + rest);
      && (word == "sessions" || word == "user-sessions" || word == "offline-sessions" || word == "client-session-stats" ==> family == Tokens)
      && (word == "attack-detection" || word == "serverinfo" || word == "metrics" ==> family == Observability)
    ensures word !in ROUTE_WORDS ==> FamilyOf([word] + rest) == Realm
  {
    assert |"users"| == 5 && |"roles"| == 5 && |"groups"| == 6 && |"events"| == 6 && |"clients"| == 7 && |"metrics"| == 7;
    assert |"sessions"| == 8 && |"serverinfo"| == 10 && |"roles-by-id"| == 11 && |"client-scopes"| == 13 && |"user-sessions"| == 13;
    assert |"offline-sessions"| == 16 && |"attack-detection"| == 16 && |"identity-provider"| == 17 && |"client-session-stats"| == 20;
    assert "users"[0] != "roles"[0] && "groups"[0] != "events"[0] && "clients"[0] != "metrics"[0];
    assert "client-scopes"[0] != "user-sessions"[0] && "offline-sessions"[0] != "attack-detection"[0];
  }

  const ROUTE_WORDS: seq<string> := [
    "users", "groups", "roles", "roles-by-id", "clients", "client-scopes", "identity-provider", "events",
    "sessions", "user-sessions", "offline-sessions", "client-session-stats",
    "attack-detection", "serverinfo", "metrics"]

  predicate Reads(m: Method) {
    m == GET || m == HEAD || m == OPTIONS
  }

  /**
    Below a realm a request that is none of the helper lookups passes exactly when the token has the
    one scope of its family, and the event configuration counts as the realm's.
   */
  lemma RouteTable(m: Method, realm: string, word: string, rest: seq<string>, query: Option<string>, token: seq<string>)
    requires m == GET ==>
      && !(word == "roles" && |rest| == 1)
      && !(word == "clients" && |rest| == 3 && rest[1] == "roles")
      && !(word == "clients" && rest == [] && QueryHasParam(query, "clientId"))
      && !(word == "client-scopes" && rest == [])
    ensures var segments := ["admin", "realms", realm, word] + rest;
      var family := if word == "events" && rest == ["config"] then Realm else FamilyOf([word] + rest);
      SegmentsAllowed(m, segments, query, token) <==> FamilyTable(Reads(m), segments, family) in token
  {
    var segments := ["admin", "realms", realm, word] + rest;
    assert segments == ["admin", "realms", realm] + ([word] + rest);
    ResourceTailOfRealm(realm, [word] + rest);
    NoLookup(m, word, rest, query);
    RoutedByFamily(m, segments, query);
    EventConfigWords(word, rest);
    var family := if word == "events" && rest == ["config"] then Realm else FamilyOf([word] + rest);
    OneCandidate(m, segments, query, token, FamilyScope(IsRead(m), segments, family));
    FamilyTexts(IsRead(m), segments, family);
  }

  lemma EventConfigWords(word: string, rest: seq<string>)
    ensures IsEventConfig([word] + rest) <==> word == "events" && rest == ["config"]
  {
    if IsEventConfig([word] + rest) {
      assert ([word] + rest)[0] == "events" && ([word] + rest)[1..] == rest;
    }
  }

  lemma NoLookup(m: Method, word: string, rest: seq<string>, query: Option<string>)
    requires m == GET ==>
      && !(word == "roles" && |rest| == 1)
      && !(word == "clients" && |rest| == 3 && rest[1] == "roles")
      && !(word == "clients" && rest == [] && QueryHasParam(query, "clientId"))
      && !(word == "client-scopes" && rest == [])
    ensures !IsLookup(m, [word] + rest, query)
  {
    var tail := [word] + rest;
    assert tail[0] == word && |tail| == 1 + |rest| && (|rest| == 3 ==> tail[2] == rest[1]);
  }

  // ---- The helper lookups -----------------------------------------------------------------

  lemma AnyOf(candidates: seq<seq<Scope>>, scopes: seq<Scope>, token: seq<string>)
    requires |candidates| == |scopes| && forall i | 0 <= i < |scopes| :: candidates[i] == [scopes[i]]
    ensures (exists c | c in candidates :: HasAll(token, c)) <==> exists s | s in scopes :: ScopeText(s) in token
  {
    forall i | 0 <= i < |scopes| ensures HasAll(token, candidates[i]) <==> ScopeText(scopes[i]) in token {
      assert scopes[i] in candidates[i];
    }
    if s :| s in scopes && ScopeText(s) in token {
      var i :| 0 <= i < |scopes| && scopes[i] == s;
      assert candidates[i] in candidates;
    }
    if c :| c in candidates && HasAll(token, c) {
      var i :| 0 <= i < |candidates| && candidates[i] == c;
      assert scopes[i] in scopes;
    }
  }

  /** Reading one role of the realm. */
  lemma RealmRoleTable(realm: string, name: string, query: Option<string>, token: seq<string>)
    ensures SegmentsAllowed(GET, ["admin", "realms", realm, "roles", name], query, token) <==>
      || "keycloak-admin:roles:read" in token || "keycloak-admin:roles:write" in token
      || "keycloak-admin:groups:write" in token || "keycloak-admin:clients:write" in token
      || "keycloak-admin:client-scopes:write" in token
  {
    assert ["admin", "realms", realm, "roles", name] == ["admin", "realms", realm] + ["roles", name];
    ResourceTailOfRealm(realm, ["roles", name]);
    AnyOf(REALM_ROLE_LOOKUP, [Scope(Roles, Read), Scope(Roles, Write), Scope(Groups, Write),
                              Scope(Clients, Write), Scope(ClientScopes, Write)], token);
    RolesTexts();
    GroupsTexts();
    ClientsTexts();
    ClientScopesTexts();
  }

  lemma ClientReaders(candidates: seq<seq<Scope>>, token: seq<string>)
    requires candidates == [[Scope(Clients, Read)], [Scope(Clients, Write)], [Scope(Groups, Write)]]
    ensures (exists c | c in candidates :: HasAll(token, c)) <==>
      || "keycloak-admin:clients:read" in token || "keycloak-admin:clients:write" in token
      || "keycloak-admin:groups:write" in token
  {
    AnyOf(candidates, [Scope(Clients, Read), Scope(Clients, Write), Scope(Groups, Write)], token);
    ClientsTexts();
    GroupsTexts();
  }

  /** Reading one role of a client. */
  lemma ClientRoleTable(realm: string, id: string, name: string, query: Option<string>, token: seq<string>)
    ensures SegmentsAllowed(GET, ["admin", "realms", realm, "clients", id, "roles", name], query, token) <==>
      || "keycloak-admin:clients:read" in token || "keycloak-admin:clients:write" in token
      || "keycloak-admin:groups:write" in token
  {
    var tail := ["clients", id, "roles", name];
    assert ["admin", "realms", realm, "clients", id, "roles", name] == ["admin", "realms", realm] + tail;
    ResourceTailOfRealm(realm, tail);
    ClientReaders(CLIENT_ROLE_LOOKUP, token);
  }

  /** Looking clients up by their client id. */
  lemma ClientTable(realm: string, query: Option<string>, token: seq<string>)
    requires QueryHasParam(query, "clientId")
    ensures SegmentsAllowed(GET, ["admin", "realms", realm, "clients"], query, token) <==>
      || "keycloak-admin:clients:read" in token || "keycloak-admin:clients:write" in token
      || "keycloak-admin:groups:write" in token
  {
    assert ["admin", "realms", realm, "clients"] == ["admin", "realms", realm] + ["clients"];
    ResourceTailOfRealm(realm, ["clients"]);
    ClientReaders(CLIENT_LOOKUP, token);
  }

  /** Listing the client scopes. */
  lemma ClientScopeTable(realm: string, query: Option<string>, token: seq<string>)
    ensures SegmentsAllowed(GET, ["admin", "realms", realm, "client-scopes"], query, token) <==>
      || "keycloak-admin:client-scopes:read" in token || "keycloak-admin:client-scopes:write" in token
      || "keycloak-admin:clients:write" in token || "keycloak-admin:realm:admin" in token
  {
    assert ["admin", "realms", realm, "client-scopes"] == ["admin", "realms", realm] + ["client-scopes"];
    ResourceTailOfRealm(realm, ["client-scopes"]);
    assert ["clients"] != ["client-scopes"] by { assert |"clients"| != |"client-scopes"|; }
    AnyOf(CLIENT_SCOPE_LOOKUP, [Scope(ClientScopes, Read), Scope(ClientScopes, Write), Scope(Clients, Write), Scope(Realm, Admin)], token);
    ClientScopesTexts();
    ClientsTexts();
    RealmTexts();
  }

  // ---- Routes without a resource, and the rest --------------------------------------------

  /** The realm itself, and the list of realms. */
  lemma RealmTable(m: Method, realm: string, query: Option<string>, token: seq<string>)
    ensures var scope := Either(Reads(m), "keycloak-admin:realm:read", "keycloak-admin:realm:write");
      && (SegmentsAllowed(m, ["admin", "realms"], query, token) <==> scope in token)
      && (SegmentsAllowed(m, ["admin", "realms", realm], query, token) <==> scope in token)
  {
    var s := Scope(Realm, if IsRead(m) then Read else Write);
    RealmTexts();
    ResourceTailOfRealm(realm, []);
    assert ["admin", "realms", realm] + [] == ["admin", "realms", realm];
    assert ResourceTail(["admin", "realms"]) == [];
    OneCandidate(m, ["admin", "realms"], query, token, s);
    OneCandidate(m, ["admin", "realms", realm], query, token, s);
  }

  /** Server information and metrics, with any method. */
  lemma ServerTable(m: Method, query: Option<string>, token: seq<string>)
    ensures SegmentsAllowed(m, ["admin", "serverinfo"], query, token) <==> "keycloak-admin:observability:read" in token
    ensures SegmentsAllowed(m, ["admin", "metrics"], query, token) <==> "keycloak-admin:observability:read" in token
  {
    OtherTexts();
    ServerWord(m, "serverinfo", query);
    ServerWord(m, "metrics", query);
    CandidateOnToken(token, Scope(Observability, Read));
  }

  lemma ServerWord(m: Method, word: string, query: Option<string>)
    requires word == "serverinfo" || word == "metrics"
    ensures Candidates(m, ["admin", word], query) == [[Scope(Observability, Read)]]
  {
    assert |"serverinfo"| == 10 && |"metrics"| == 7 && |"realms"| == 6 && |"clients"| == 7 && |"roles"| == 5;
    assert |"users"| == 5 && |"groups"| == 6 && |"roles-by-id"| == 11 && |"client-scopes"| == 13 && |"identity-provider"| == 17;
    assert |"sessions"| == 8 && |"user-sessions"| == 13 && |"offline-sessions"| == 16 && |"client-session-stats"| == 20;
    assert |"attack-detection"| == 16 && |"events"| == 6 && "metrics"[0] != "clients"[0];
    assert ["admin", word][1..] == [word] && ResourceTail(["admin", word]) == [word];
  }

  /** No other path is let through. */
  lemma NothingElsePasses(m: Method, segments: seq<string>, query: Option<string>, token: seq<string>)
    requires SegmentsAllowed(m, segments, query, token)
    ensures |segments| >= 2 && segments[0] == "admin"
    ensures segments[1] == "realms" || segments == ["admin", "serverinfo"] || segments == ["admin", "metrics"]
  {}
}
