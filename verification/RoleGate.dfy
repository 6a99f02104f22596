/** The MCP server's own gates: scopes on the token, and roles for read and write tools. */
module RoleGate {
  import opened Options
  import opened Sequences
  import opened Sorting
  import opened ScopeTable
  import G = GatewayRoutes

  datatype ReadWrite = ReadWrite(read: seq<string>, write: seq<string>)

  /** The configured scopes of each family; the families that have more than two kinds list them apart. */
  datatype ScopeMap = ScopeMap(
    users: ReadWrite, groups: ReadWrite, roles: ReadWrite,
    clients: ReadWrite, clientSecrets: seq<string>,
    clientScopes: ReadWrite, identityProviders: ReadWrite,
    realms: ReadWrite, realmAdmin: seq<string>,
    eventsRead: seq<string>, eventsAdmin: seq<string>,
    tokensRead: seq<string>, observabilityRead: seq<string>)

  datatype Gate = ReadGate | WriteGate | NoGate

  datatype Roles = Roles(read: seq<string>, write: seq<string>)

  function WriteScopes(m: ScopeMap): set<string> {
    Set(m.users.write) + Set(m.groups.write) + Set(m.roles.write) + Set(m.clients.write) + Set(m.clientSecrets)
    + Set(m.clientScopes.write) + Set(m.identityProviders.write) + Set(m.realms.write) + Set(m.realmAdmin)
    + Set(m.eventsAdmin)
  }

  function ReadScopes(m: ScopeMap): set<string> {
    Set(m.users.read) + Set(m.groups.read) + Set(m.roles.read) + Set(m.clients.read) + Set(m.clientScopes.read)
    + Set(m.identityProviders.read) + Set(m.realms.read) + Set(m.eventsRead) + Set(m.tokensRead)
    + Set(m.observabilityRead)
  }

  function Classify(required: seq<string>, m: ScopeMap): Gate {
    if exists scope | scope in required :: scope in WriteScopes(m) then WriteGate
    else if exists scope | scope in required :: scope in ReadScopes(m) then ReadGate
    else NoGate
  }

  /** The scope is configured for writing, or for what counts as writing, in some family. */
  predicate ConfiguredForWrite(m: ScopeMap, scope: string) {
    || scope in m.users.write || scope in m.groups.write || scope in m.roles.write || scope in m.clients.write
    || scope in m.clientSecrets || scope in m.clientScopes.write || scope in m.identityProviders.write
    || scope in m.realms.write || scope in m.realmAdmin || scope in m.eventsAdmin
  }

  predicate ConfiguredForRead(m: ScopeMap, scope: string) {
    || scope in m.users.read || scope in m.groups.read || scope in m.roles.read || scope in m.clients.read
    || scope in m.clientScopes.read || scope in m.identityProviders.read || scope in m.realms.read
    || scope in m.eventsRead || scope in m.tokensRead || scope in m.observabilityRead
  }

  /** One scope configured for writing is enough for the write gate, also when it is configured for reading too. */
  method ClassifyScopes(required: seq<string>, m: ScopeMap) returns (gate: Gate)
    ensures gate.WriteGate? <==> exists scope | scope in required :: ConfiguredForWrite(m, scope)
    ensures gate.NoGate? <==>
      forall scope | scope in required :: !ConfiguredForWrite(m, scope) && !ConfiguredForRead(m, scope)
    ensures gate == Classify(required, m)
  {
    Configured(m);
    var write: set<string> := {};
    write := write + Set(m.users.write);
    write := write + Set(m.groups.write);
    write := write + Set(m.roles.write);
    write := write + Set(m.clients.write);
    write := write + Set(m.clientSecrets);
    write := write + Set(m.clientScopes.write);
    write := write + Set(m.identityProviders.write);
    write := write + Set(m.realms.write);
    write := write + Set(m.realmAdmin);
    write := write + Set(m.eventsAdmin);
    assert write == WriteScopes(m);
    if exists scope | scope in required :: scope in write {
      return WriteGate;
    }
    var read: set<string> := {};
    read := read + Set(m.users.read);
    read := read + Set(m.groups.read);
    read := read + Set(m.roles.read);
    read := read + Set(m.clients.read);
    read := read + Set(m.clientScopes.read);
    read := read + Set(m.identityProviders.read);
    read := read + Set(m.realms.read);
    read := read + Set(m.eventsRead);
    read := read + Set(m.tokensRead);
    read := read + Set(m.observabilityRead);
    assert read == ReadScopes(m);
    if exists scope | scope in required :: scope in read {
      return ReadGate;
    }
    return NoGate;
  }

  lemma Configured(m: ScopeMap)
    ensures forall scope :: ConfiguredForWrite(m, scope) <==> scope in WriteScopes(m)
    ensures forall scope :: ConfiguredForRead(m, scope) <==> scope in ReadScopes(m)
  {}

  predicate HasAnyRole(roles: seq<string>, accepted: seq<string>) {
    exists role | role in accepted :: role in roles
  }

  datatype Refusal = MissingScopes(scopes: seq<string>) | MissingReadRole | MissingWriteRole

  function RequireScopes(token: seq<string>, required: seq<string>): Option<Refusal> {
    var missing := Filter(scope => scope !in token, required);
    if missing == [] then None else Some(MissingScopes(missing))
  }

  function RequireRoles(roles: seq<string>, required: seq<string>, m: ScopeMap, r: Roles): Option<Refusal> {
    match Classify(required, m)
    case NoGate => None
    case gate =>
      if r.read == [] && r.write == [] then None
      else if gate.WriteGate? then if HasAnyRole(roles, r.write) then None else Some(MissingWriteRole)
      else if HasAnyRole(roles, r.read + r.write) then None
      else Some(MissingReadRole)
  }

  /** Both gates, as every tool runs them: scopes, then roles. */
  function Admit(token: seq<string>, roles: seq<string>, required: seq<string>, m: ScopeMap, r: Roles): Option<Refusal> {
    match RequireScopes(token, required)
    case Some(refusal) => Some(refusal)
    case None => RequireRoles(roles, required, m, r)
  }

  lemma ScopesPassExactly(token: seq<string>, required: seq<string>)
    ensures RequireScopes(token, required).None? <==> forall scope | scope in required :: scope in token
    ensures RequireScopes(token, required).Some? ==>
      forall scope :: scope in RequireScopes(token, required).value.scopes <==> scope in required && scope !in token
  {
    var p := scope => scope !in token;
    FilterMembers(p, required);
    FilterCongruent(p, scope => scope !in token, required);
    var missing := Filter(scope => scope !in token, required);
    if missing != [] {
      assert missing[0] in missing;
    }
  }

  /**
    The role gate is open exactly for requirements that no family knows, when no roles are
    configured, for a write role, and for a read role when nothing is required for writing.
   */
  lemma RolesPassExactly(roles: seq<string>, required: seq<string>, m: ScopeMap, r: Roles)
    ensures RequireRoles(roles, required, m, r).None? <==>
      || (forall scope | scope in required :: !ConfiguredForWrite(m, scope) && !ConfiguredForRead(m, scope))
      || (r.read == [] && r.write == [])
      || (exists role | role in roles :: role in r.write)
      || ((exists role | role in roles :: role in r.read) && forall scope | scope in required :: !ConfiguredForWrite(m, scope))
    ensures var refusal := RequireRoles(roles, required, m, r);
      refusal.Some? ==>
        refusal.value == if exists scope | scope in required :: ConfiguredForWrite(m, scope) then MissingWriteRole else MissingReadRole
  {
    Configured(m);
    AnyRole(roles, r.write);
    AnyRole(roles, r.read + r.write);
  }

  lemma AnyRole(roles: seq<string>, accepted: seq<string>)
    ensures HasAnyRole(roles, accepted) <==> exists role | role in roles :: role in accepted
  {}

  /** Scopes come first: the roles are looked at only when no scope is missing. */
  lemma AdmitsExactly(token: seq<string>, roles: seq<string>, required: seq<string>, m: ScopeMap, r: Roles)
    ensures Admit(token, roles, required, m, r).None? <==>
      (forall scope | scope in required :: scope in token) && RequireRoles(roles, required, m, r).None?
    ensures Admit(token, roles, required, m, r).Some? ==>
      var refusal := Admit(token, roles, required, m, r).value;
      if exists scope | scope in required :: scope !in token
      then refusal.MissingScopes? && forall scope :: scope in refusal.scopes <==> scope in required && scope !in token
      else Some(refusal) == RequireRoles(roles, required, m, r)
  {
    ScopesPassExactly(token, required);
  }

  lemma RolesAntitone(few: seq<string>, many: seq<string>, roles: seq<string>, m: ScopeMap, r: Roles)
    requires forall scope | scope in few :: scope in many
    requires RequireRoles(roles, many, m, r).None?
    ensures RequireRoles(roles, few, m, r).None?
  {
    if !Classify(few, m).NoGate? && !(r.read == [] && r.write == []) {
      assert !Classify(many, m).NoGate?;
      var role :| role in roles && role in r.read + r.write && (Classify(many, m).WriteGate? ==> role in r.write);
      assert Classify(few, m).WriteGate? ==> Classify(many, m).WriteGate?;
    }
  }

  /** Passing for a requirement means passing for any part of it, with the same or more scopes and roles. */
  lemma AdmissionMonotone(few: seq<string>, many: seq<string>, token: seq<string>, moreToken: seq<string>,
                          roles: seq<string>, moreRoles: seq<string>, m: ScopeMap, r: Roles)
    requires forall scope | scope in few :: scope in many
    requires forall scope | scope in token :: scope in moreToken
    requires forall role | role in roles :: role in moreRoles
    requires Admit(token, roles, many, m, r).None?
    ensures Admit(moreToken, moreRoles, few, m, r).None?
  {
    ScopesPassExactly(token, many);
    ScopesPassExactly(moreToken, few);
    RolesAntitone(few, many, roles, m, r);
    RolesMonotone(few, roles, moreRoles, m, r);
  }

  lemma RolesMonotone(required: seq<string>, roles: seq<string>, more: seq<string>, m: ScopeMap, r: Roles)
    requires forall role | role in roles :: role in more
    requires RequireRoles(roles, required, m, r).None?
    ensures RequireRoles(more, required, m, r).None?
  {
    if HasAnyRole(roles, r.write) {
      assert HasAnyRole(more, r.write);
    }
    if HasAnyRole(roles, r.read + r.write) {
      assert HasAnyRole(more, r.read + r.write);
    }
  }

  // ---- The published scopes ---------------------------------------------------------------

  /** Every scope configured for reading or writing, each once and in order. */
  method CollectScopes(m: ScopeMap) returns (scopes: seq<string>)
    ensures Strict(scopes) && forall scope :: scope in scopes <==> ConfiguredForRead(m, scope) || ConfiguredForWrite(m, scope)
    ensures scopes == Published(m)
  {
    scopes := [];
    scopes := scopes + m.users.read;
    assert scopes == m.users.read;
    scopes := scopes + m.users.write;
    scopes := scopes + m.groups.read;
    scopes := scopes + m.groups.write;
    scopes := scopes + m.roles.read;
    scopes := scopes + m.roles.write;
    scopes := scopes + m.clients.read;
    scopes := scopes + m.clients.write;
    scopes := scopes + m.clientSecrets;
    scopes := scopes + m.clientScopes.read;
    scopes := scopes + m.clientScopes.write;
    scopes := scopes + m.identityProviders.read;
    scopes := scopes + m.identityProviders.write;
    scopes := scopes + m.realms.read;
    scopes := scopes + m.realms.write;
    scopes := scopes + m.realmAdmin;
    scopes := scopes + m.eventsRead;
    scopes := scopes + m.eventsAdmin;
    scopes := scopes + m.tokensRead;
    scopes := scopes + m.observabilityRead;
    assert scopes == AllScopes(m);
    PublishedExactly(m);
    scopes := Normalize(scopes);
  }

  function AllScopes(m: ScopeMap): seq<string> {
    m.users.read + m.users.write + m.groups.read + m.groups.write + m.roles.read + m.roles.write
    + m.clients.read + m.clients.write + m.clientSecrets + m.clientScopes.read + m.clientScopes.write
    + m.identityProviders.read + m.identityProviders.write + m.realms.read + m.realms.write + m.realmAdmin
    + m.eventsRead + m.eventsAdmin + m.tokensRead + m.observabilityRead
  }

  function Published(m: ScopeMap): seq<string> {
    Normalize(AllScopes(m))
  }

  lemma AllScopesAreGated(m: ScopeMap)
    ensures Set(AllScopes(m)) == ReadScopes(m) + WriteScopes(m)
  {}

  /** What is published is exactly what the gates know, each scope once and in order. */
  lemma PublishedIsGated(m: ScopeMap)
    ensures Strict(Published(m)) && Set(Published(m)) == ReadScopes(m) + WriteScopes(m)
  {
    NormalizeCanonical(AllScopes(m));
    AllScopesAreGated(m);
  }

  lemma PublishedExactly(m: ScopeMap)
    ensures Strict(Published(m))
    ensures forall scope :: scope in Published(m) <==> ConfiguredForRead(m, scope) || ConfiguredForWrite(m, scope)
  {
    PublishedIsGated(m);
    Configured(m);
    assert forall scope :: scope in Published(m) <==> scope in Set(Published(m));
  }

  /** A requirement is ungated exactly when it shares nothing with the published scopes. */
  lemma UngatedExactly(required: seq<string>, m: ScopeMap)
    ensures Classify(required, m).NoGate? <==> forall scope | scope in required :: scope !in Published(m)
  {
    PublishedIsGated(m);
    assert forall scope :: scope in Published(m) <==> scope in Set(Published(m));
  }

  // ---- The default map --------------------------------------------------------------------

  function Text(family: G.Family, access: G.Access): seq<string> {
    [G.ScopeText(G.Scope(family, access))]
  }

  function Both(family: G.Family): ReadWrite {
    ReadWrite(Text(family, G.Read), Text(family, G.Write))
  }

  function DefaultScopeMap(): ScopeMap {
    ScopeMap(
      Both(G.Users), Both(G.Groups), Both(G.Roles),
      Both(G.Clients), Text(G.Clients, G.Secrets),
      Both(G.ClientScopes), Both(G.Idp),
      Both(G.Realm), Text(G.Realm, G.Admin),
      Text(G.Events, G.Read), Text(G.Events, G.Admin),
      Text(G.Tokens, G.Read), Text(G.Observability, G.Read))
  }

  /** The default map, scope by scope. */
  lemma DefaultMapTexts()
    ensures var m := DefaultScopeMap();
      && m.users == ReadWrite(["keycloak-admin:users:read"], ["keycloak-admin:users:write"])
      && m.groups == ReadWrite(["keycloak-admin:groups:read"], ["keycloak-admin:groups:write"])
      && m.roles == ReadWrite(["keycloak-admin:roles:read"], ["keycloak-admin:roles:write"])
      && m.clients == ReadWrite(["keycloak-admin:clients:read"], ["keycloak-admin:clients:write"])
      && m.clientSecrets == ["keycloak-admin:clients:secrets"]
      && m.clientScopes == ReadWrite(["keycloak-admin:client-scopes:read"], ["keycloak-admin:client-scopes:write"])
      && m.identityProviders == ReadWrite(["keycloak-admin:idp:read"], ["keycloak-admin:idp:write"])
      && m.realms == ReadWrite(["keycloak-admin:realm:read"], ["keycloak-admin:realm:write"])
      && m.realmAdmin == ["keycloak-admin:realm:admin"]
      && m.eventsRead == ["keycloak-admin:events:read"] && m.eventsAdmin == ["keycloak-admin:events:admin"]
      && m.tokensRead == ["keycloak-admin:tokens:read"] && m.observabilityRead == ["keycloak-admin:observability:read"]
  {
    UsersTexts();
    GroupsTexts();
    RolesTexts();
    ClientsTexts();
    ClientScopesTexts();
    IdpTexts();
    RealmTexts();
    EventsTexts();
    OtherTexts();
  }

  predicate NamedRead(scope: string) {
    G.EndsWith(scope, ":read")
  }

  predicate ReadNames(list: seq<string>) {
    forall scope | scope in list :: NamedRead(scope)
  }

  predicate OtherNames(list: seq<string>) {
    forall scope | scope in list :: !NamedRead(scope)
  }

  /** A map that keeps the naming convention: the read scopes, and no others, end in `:read`. */
  predicate KeepsNames(m: ScopeMap) {
    && ReadNames(m.users.read) && OtherNames(m.users.write)
    && ReadNames(m.groups.read) && OtherNames(m.groups.write)
    && ReadNames(m.roles.read) && OtherNames(m.roles.write)
    && ReadNames(m.clients.read) && OtherNames(m.clients.write) && OtherNames(m.clientSecrets)
    && ReadNames(m.clientScopes.read) && OtherNames(m.clientScopes.write)
    && ReadNames(m.identityProviders.read) && OtherNames(m.identityProviders.write)
    && ReadNames(m.realms.read) && OtherNames(m.realms.write) && OtherNames(m.realmAdmin)
    && ReadNames(m.eventsRead) && OtherNames(m.eventsAdmin)
    && ReadNames(m.tokensRead) && ReadNames(m.observabilityRead)
  }

  lemma TextNames(family: G.Family, access: G.Access)
    ensures if access.Read? then ReadNames(Text(family, access)) else OtherNames(Text(family, access))
  {
    G.ReadScopesEndInRead(G.Scope(family, access));
  }

  lemma BothNames(family: G.Family)
    ensures ReadNames(Both(family).read) && OtherNames(Both(family).write)
  {
    TextNames(family, G.Read);
    TextNames(family, G.Write);
  }

  lemma DefaultKeepsNames()
    ensures KeepsNames(DefaultScopeMap())
  {
    BothNames(G.Users);
    BothNames(G.Groups);
    BothNames(G.Roles);
    BothNames(G.Clients);
    TextNames(G.Clients, G.Secrets);
    BothNames(G.ClientScopes);
    BothNames(G.Idp);
    BothNames(G.Realm);
    TextNames(G.Realm, G.Admin);
    TextNames(G.Events, G.Read);
    TextNames(G.Events, G.Admin);
    TextNames(G.Tokens, G.Read);
    TextNames(G.Observability, G.Read);
  }

  lemma NamesSplit(m: ScopeMap, scope: string)
    requires KeepsNames(m)
    ensures scope in WriteScopes(m) ==> !NamedRead(scope)
    ensures scope in ReadScopes(m) ==> NamedRead(scope)
  {}

  lemma ClassifyOne(m: ScopeMap, scope: string)
    ensures Classify([scope], m) == if scope in WriteScopes(m) then WriteGate else if scope in ReadScopes(m) then ReadGate else NoGate
  {
    assert scope in [scope];
  }

  /**
    Where the map keeps the naming convention, as the default does, a published scope opens the
    write gate exactly when its name does not end in `:read`.
   */
  lemma GateByName(m: ScopeMap, scope: string)
    requires KeepsNames(m) && scope in Published(m)
    ensures Classify([scope], m) == if G.EndsWith(scope, ":read") then ReadGate else WriteGate
  {
    PublishedIsGated(m);
    NamesSplit(m, scope);
    ClassifyOne(m, scope);
    assert scope in Set(Published(m));
  }
}
