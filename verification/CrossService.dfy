/**
  The role mapping tools and the gateway together: for which arguments the gateway lets a tool's
  requests through, request by request and for whole runs.
 */
module CrossService {
  import opened Options
  import opened Sequences
  import opened Text
  import opened EdgeGuard
  import opened GatewayRoutes
  import opened GatewayProxy
  import opened RequestUrls
  import opened WireRoutes
  import opened RoleTools
  import RoleGate

  // ---- Conditions on the arguments --------------------------------------------------------

  /** No query or fragment cuts the realm, and it stays a segment of its own. */
  predicate FirmRealm(realm: string) {
    Uncut(realm) && Middle(realm) != "" && !IsDots(Middle(realm)) && ';' !in Middle(realm)
  }

  /** The realm disappears from the path, so what follows it takes its place. */
  predicate LostRealm(realm: string) {
    Uncut(realm) && (Middle(realm) == "" || Middle(realm) == ".")
  }

  /** The URL parser leaves something of the name that is a segment of its own. */
  predicate Reaches(name: string) {
    Kept(name) != "" && !IsDots(Kept(name)) && ';' !in Kept(name)
  }

  /** The segment does not take its predecessor away, and smuggles in no matrix parameter. */
  predicate Anchored(name: string) {
    Middle(name) != ".." && ';' !in Middle(name)
  }

  /** The request for a client's role reads the client's role, or one that the scope may read as well. */
  predicate ClientRolePasses(realm: string, client: string, name: string) {
    var k := Middle(client);
    || (Uncut(client) && k != "" && k != "." && ';' !in k && Reaches(name))
    || ((k == "" || k == ".") && (!Uncut(client) || Kept(name) == "..")
        && QueryHasParam(OwnQuery(PathOf(RealmParts(realm) + ["clients", client, "roles", name])), "clientId"))
  }

  predicate RolePasses(tool: RoleTool, realm: string, id: string, name: string) {
    if tool.GroupClient? then ClientRolePasses(realm, id, name) else Reaches(name)
  }

  predicate WritePasses(tool: RoleTool, id: string) {
    var changed := Changed(tool, id);
    Anchored(changed) && (tool.GroupClient? && Uncut(changed) ==> ';' !in Kept(id))
  }

  /** One condition for each argument behind the realm. */
  predicate ArgumentsPass(tool: RoleTool, realm: string, id: string, names: seq<string>) {
    WritePasses(tool, id) && forall name | name in names :: RolePasses(tool, realm, id, name)
  }

  /** The segment starts a route of the tool's own family. */
  predicate OwnWord(tool: RoleTool, k: string) {
    match tool
    case GroupRealm(_) => k == "groups"
    case GroupClient(_, _, _) => k == "groups"
    case Composites(_) => k == "roles" || k == "roles-by-id"
    case ScopeRealm(_, _) => k == "client-scopes"
  }

  /** Without a realm segment the family's word is read as the realm, and the changed object as the family. */
  predicate LostWritePasses(tool: RoleTool, id: string) {
    OwnWord(tool, Middle(Changed(tool, id))) && WritePasses(tool, id)
  }

  /** Without a realm segment the request for a role must turn into some other lookup that the scope may do. */
  predicate LostRolePasses(tool: RoleTool, realm: string, id: string, name: string) {
    var n := Kept(name);
    var byClientId := QueryHasParam(OwnQuery(PathOf(RoleParts(tool, realm, id, name))), "clientId");
    match tool
    case GroupRealm(_) => n == "clients" && byClientId
    case Composites(_) => false
    case ScopeRealm(_, _) => n == "client-scopes"
    case GroupClient(_, _, _) =>
      var k := Middle(id);
      || (Uncut(id) && k == ".." && n == "clients" && byClientId)
      || (k == "clients" && (!Uncut(id) || n == "..") && byClientId)
      || (Uncut(id) && (k == "" || k == ".") && Reaches(name))
      || (Uncut(id) && k == "roles" && (n == "" || n == "."))
  }

  /** Every argument is one segment for the model: no slash, backslash or percent sign. */
  predicate SingleSegments(tool: RoleTool, realm: string, id: string, names: seq<string>) {
    && OneSegment(realm) && OneSegment(id) && OneSegment(Changed(tool, id))
    && forall name | name in names :: OneSegment(name)
  }

  // ---- Segments under a realm -------------------------------------------------------------

  lemma RouteWords()
    ensures Word("admin") && Word("realms") && Word("roles") && Word("clients") && Word("groups")
    ensures Word("client-scopes") && Word("composites") && Word("role-mappings") && Word("scope-mappings") && Word("realm")
  {}

  lemma RouteWordsAreSegments()
    ensures OneSegment("admin") && OneSegment("realms") && OneSegment("roles") && OneSegment("clients") && OneSegment("groups")
    ensures OneSegment("client-scopes") && OneSegment("composites") && OneSegment("role-mappings")
    ensures OneSegment("scope-mappings") && OneSegment("realm")
  {
    RouteWords();
    WordIsKept("admin");
    WordIsKept("realms");
    WordIsKept("roles");
    WordIsKept("clients");
    WordIsKept("groups");
    WordIsKept("client-scopes");
    WordIsKept("composites");
    WordIsKept("role-mappings");
    WordIsKept("scope-mappings");
    WordIsKept("realm");
  }

  lemma OneSegmentParts(tool: RoleTool, realm: string, id: string, name: string)
    requires OneSegment(realm) && OneSegment(id) && OneSegment(Changed(tool, id)) && OneSegment(name)
    ensures AllOneSegment(RoleParts(tool, realm, id, name)) && AllOneSegment(WriteParts(tool, realm, id))
  {
    RouteWordsAreSegments();
    assert AllOneSegment(RealmParts(realm)) && AllOneSegment(RoleTail(tool, id)) && AllOneSegment(WriteEnd(tool, id));
    assert OneSegment(WriteHead(tool));
  }

  /** What stands on the stack when the realm has been read. */
  function RealmStack(realm: string): seq<string> {
    Next(["admin", "realms"], Middle(realm))
  }

  lemma SeenWord(word: string, rest: seq<string>)
    requires Word(word)
    ensures Seen([word] + rest) == [word] + Seen(rest)
  {
    WordIsKept(word);
    assert ([word] + rest)[1..] == rest;
    if rest == [] {
      assert [word] + rest == [word];
    }
  }

  lemma SeenArgument(argument: string, rest: seq<string>)
    requires rest != []
    ensures Seen([argument] + rest) == [Middle(argument)] + (if Uncut(argument) then Seen(rest) else [])
  {
    assert ([argument] + rest)[1..] == rest;
  }

  lemma ResolvedStep(stack: seq<string>, part: string, rest: seq<string>)
    ensures Resolved(stack, [part] + rest) == Resolved(Next(stack, part), rest)
  {
    assert ([part] + rest)[1..] == rest;
  }

  lemma ResolvedWord(stack: seq<string>, word: string, rest: seq<string>)
    requires Word(word)
    ensures Resolved(stack, [word] + rest) == Resolved(stack + [word], rest)
  {
    ResolvedStep(stack, word, rest);
    assert word[0] != '.';
  }

  lemma SeenUnderRealm(realm: string, tail: seq<string>)
    requires tail != []
    ensures Seen(RealmParts(realm) + tail)
      == ["admin"] + (["realms"] + ([Middle(realm)] + (if Uncut(realm) then Seen(tail) else [])))
  {
    RouteWords();
    assert RealmParts(realm) + tail == ["admin"] + (["realms"] + ([realm] + tail));
    SeenWord("admin", ["realms"] + ([realm] + tail));
    SeenWord("realms", [realm] + tail);
    SeenArgument(realm, tail);
  }

  lemma ResolvedUnderRealm(k: string, rest: seq<string>)
    ensures Resolved([], ["admin"] + (["realms"] + ([k] + rest))) == Resolved(Next(["admin", "realms"], k), rest)
  {
    RouteWords();
    ResolvedWord([], "admin", ["realms"] + ([k] + rest));
    ResolvedWord([] + ["admin"], "realms", [k] + rest);
    assert [] + ["admin"] + ["realms"] == ["admin", "realms"];
    ResolvedStep(["admin", "realms"], k, rest);
  }

  lemma ArrivedUnderRealm(realm: string, tail: seq<string>)
    requires tail != []
    ensures Arrived(RealmParts(realm) + tail) == Resolved(RealmStack(realm), if Uncut(realm) then Seen(tail) else [])
  {
    SeenUnderRealm(realm, tail);
    ResolvedUnderRealm(Middle(realm), if Uncut(realm) then Seen(tail) else []);
  }

  /** A name that is a segment, or nothing. */
  function One(k: string): seq<string> {
    if k == "" || k == "." then [] else [k]
  }

  // ---- The write --------------------------------------------------------------------------

  /** The segments of the write behind the changed object. */
  function EndArrived(tool: RoleTool, id: string): seq<string> {
    if tool.GroupClient? then Next(["role-mappings", "clients"], Kept(id)) else WriteEnd(tool, id)
  }

  lemma NextOnTop(stack: seq<string>, a: string, b: string, part: string)
    ensures Next(stack + [a] + [b], part) == stack + Next([a, b], part)
  {
    if part == ".." {
      assert Pop(stack + [a] + [b]) == stack + [a];
      assert Pop([a, b]) == [a];
    } else if part != "." {
      assert stack + [a] + [b] + [part] == stack + ([a, b] + [part]);
    } else {
      assert stack + [a] + [b] == stack + [a, b];
    }
  }

  lemma EndResolves(tool: RoleTool, stack: seq<string>, id: string)
    ensures Resolved(stack, Seen(WriteEnd(tool, id))) == stack + EndArrived(tool, id)
  {
    RouteWords();
    match tool
    case GroupRealm(_) =>
      TwoWords(stack, "role-mappings", "realm");
    case GroupClient(_, _, _) =>
      assert WriteEnd(tool, id) == ["role-mappings"] + (["clients"] + [id]);
      SeenWord("role-mappings", ["clients"] + [id]);
      SeenWord("clients", [id]);
      assert Seen([id]) == [Kept(id)];
      ResolvedWord(stack, "role-mappings", ["clients"] + [Kept(id)]);
      ResolvedWord(stack + ["role-mappings"], "clients", [Kept(id)]);
      LastStep(stack + ["role-mappings"] + ["clients"], Kept(id));
      NextOnTop(stack, "role-mappings", "clients", Kept(id));
    case Composites(_) =>
      assert WriteEnd(tool, id) == ["composites"];
      WordIsKept("composites");
      assert Seen(["composites"]) == ["composites"];
      LastStep(stack, "composites");
    case ScopeRealm(_, _) =>
      TwoWords(stack, "scope-mappings", "realm");
  }

  lemma LastStep(stack: seq<string>, part: string)
    ensures Resolved(stack, [part]) == Next(stack, part)
  {
    assert [part][1..] == [];
  }

  lemma TwoWords(stack: seq<string>, a: string, b: string)
    requires Word(a) && Word(b)
    ensures Resolved(stack, Seen([a, b])) == stack + [a, b]
  {
    WordIsKept(b);
    assert [a, b] == [a] + [b];
    SeenWord(a, [b]);
    assert Seen([b]) == [b];
    ResolvedWord(stack, a, [b]);
    LastStep(stack + [a], b);
    assert stack + [a] + [b] == stack + [a, b];
  }

  /** What arrives of the write on a stack: the head, the changed object and, unless cut, the end. */
  function WriteOn(stack: seq<string>, tool: RoleTool, id: string): seq<string> {
    var changed := Changed(tool, id);
    Next(stack + [WriteHead(tool)], Middle(changed)) + (if Uncut(changed) then EndArrived(tool, id) else [])
  }

  lemma WriteResolves(tool: RoleTool, stack: seq<string>, id: string)
    ensures Resolved(stack, Seen([WriteHead(tool), Changed(tool, id)] + WriteEnd(tool, id))) == WriteOn(stack, tool, id)
  {
    RouteWords();
    var head, changed, end := WriteHead(tool), Changed(tool, id), WriteEnd(tool, id);
    assert [head, changed] + end == [head] + ([changed] + end);
    SeenWord(head, [changed] + end);
    SeenArgument(changed, end);
    var rest := if Uncut(changed) then Seen(end) else [];
    ResolvedWord(stack, head, [Middle(changed)] + rest);
    ResolvedStep(stack + [head], Middle(changed), rest);
    EndResolves(tool, Next(stack + [head], Middle(changed)), id);
  }

  lemma WriteArrived(tool: RoleTool, realm: string, id: string)
    ensures Arrived(WriteParts(tool, realm, id))
      == if Uncut(realm) then WriteOn(RealmStack(realm), tool, id) else RealmStack(realm)
  {
    ArrivedUnderRealm(realm, [WriteHead(tool), Changed(tool, id)] + WriteEnd(tool, id));
    WriteResolves(tool, RealmStack(realm), id);
  }

  // ---- Routes under a firm realm ----------------------------------------------------------

  function OwnToken(tool: RoleTool): seq<string> {
    [ScopeText(ToolScope(tool))]
  }

  lemma NonEmptyConcat(a: seq<string>, b: seq<string>)
    ensures NonEmpty(a + b) == NonEmpty(a) + NonEmpty(b)
  {
    FilterConcat(part => part != "", a, b);
  }

  lemma NonEmptyOne(part: string)
    ensures NonEmpty([part]) == if part != "" then [part] else []
  {
    assert Filter(p => p != "", [part][1..]) == [];
  }

  lemma NonEmptyRealm(realm: string)
    requires realm != ""
    ensures NonEmpty(RealmParts(realm)) == RealmParts(realm)
  {
    assert RealmParts(realm) == ["admin"] + (["realms"] + [realm]);
    NonEmptyConcat(["admin"], ["realms"] + [realm]);
    NonEmptyConcat(["realms"], [realm]);
    NonEmptyOne("admin");
    NonEmptyOne("realms");
    NonEmptyOne(realm);
  }

  lemma FirmStack(realm: string)
    requires FirmRealm(realm)
    ensures RealmStack(realm) == RealmParts(Middle(realm)) == NonEmpty(RealmStack(realm))
    ensures Semicolonless(RealmStack(realm))
  {
    NonEmptyRealm(Middle(realm));
  }

  /** Under a realm the allowlist is passed and the scopes decide. */
  lemma RoutedUnderRealm(m: Method, parts: seq<string>, realm: string, tail: seq<string>, query: Option<string>, token: seq<string>)
    requires NonEmpty(Arrived(parts)) == RealmParts(realm) + tail
    ensures Routed(m, parts, query, token) <==>
      Semicolonless(Arrived(parts)) && exists c | c in Candidates(m, RealmParts(realm) + tail, query) :: HasAll(token, c)
  {
    assert ["admin", "realms"] <= RealmParts(realm) + tail;
  }

  lemma OneScope(candidates: seq<seq<Scope>>, scope: Scope, token: seq<string>)
    requires [scope] in candidates && ScopeText(scope) in token
    ensures exists c | c in candidates :: HasAll(token, c)
  {
    assert HasAll(token, [scope]);
  }

  lemma WrongScope(candidates: seq<seq<Scope>>, wanted: Scope, has: Scope)
    requires candidates == [[wanted]] && ScopeText(wanted) != ScopeText(has)
    ensures !exists c | c in candidates :: HasAll([ScopeText(has)], c)
  {
    assert wanted in [wanted];
  }

  lemma OtherAccess(a: Scope, b: Scope)
    requires a.access != b.access
    ensures ScopeText(a) != ScopeText(b)
  {
    var x, y := ScopeText(a), ScopeText(b);
    assert x[|x| - 1] == AccessName(a.access)[|AccessName(a.access)| - 1];
    assert y[|y| - 1] == AccessName(b.access)[|AccessName(b.access)| - 1];
  }

  lemma FamilyNamesDiffer(f: Family, g: Family)
    requires f != g && |FamilyName(f)| == |FamilyName(g)|
    ensures FamilyName(f)[0] != FamilyName(g)[0] || FamilyName(f)[1] != FamilyName(g)[1]
  {}

  /** Scopes with the same text are the same scope. */
  lemma ScopeTextDetermines(a: Scope, b: Scope)
    ensures ScopeText(a) == ScopeText(b) <==> a == b
  {
    if a.access != b.access {
      OtherAccess(a, b);
    } else if a.family != b.family {
      var x, y := ScopeText(a), ScopeText(b);
      assert |"keycloak-admin:"| == 15;
      assert x[15] == FamilyName(a.family)[0] && x[16] == FamilyName(a.family)[1];
      assert y[15] == FamilyName(b.family)[0] && y[16] == FamilyName(b.family)[1];
      if |x| == |y| {
        FamilyNamesDiffer(a.family, b.family);
      }
    }
  }

  lemma RealmScopeIsOther(tool: RoleTool)
    ensures ScopeText(Scope(Realm, Write)) != ScopeText(ToolScope(tool))
  {
    ScopeTextDetermines(Scope(Realm, Write), ToolScope(tool));
  }

  // ---- The write under a firm realm -------------------------------------------------------

  /** The segments of the write behind the realm. */
  function WriteTail(tool: RoleTool, id: string): seq<string> {
    var k := Middle(Changed(tool, id));
    (if k == ".." then [] else [WriteHead(tool)] + (if k == "." then [] else [k]))
    + (if Uncut(Changed(tool, id)) then EndArrived(tool, id) else [])
  }

  lemma NextBehind(stack: seq<string>, word: string, part: string)
    ensures Next(stack + [word], part)
      == stack + (if part == ".." then [] else [word] + (if part == "." then [] else [part]))
  {
    if part == ".." {
      assert Pop(stack + [word]) == stack;
      assert stack + [] == stack;
    } else if part == "." {
      assert [word] + [] == [word];
    } else {
      assert stack + [word] + [part] == stack + ([word] + [part]);
    }
  }

  lemma WriteOnStack(tool: RoleTool, stack: seq<string>, id: string)
    ensures WriteOn(stack, tool, id) == stack + WriteTail(tool, id)
  {
    NextBehind(stack, WriteHead(tool), Middle(Changed(tool, id)));
  }

  lemma WriteUnderFirm(tool: RoleTool, realm: string, id: string)
    requires FirmRealm(realm)
    ensures Arrived(WriteParts(tool, realm, id)) == RealmParts(Middle(realm)) + WriteTail(tool, id)
  {
    WriteArrived(tool, realm, id);
    FirmStack(realm);
    WriteOnStack(tool, RealmStack(realm), id);
  }

  lemma EndFirst(tool: RoleTool, id: string)
    ensures EndArrived(tool, id) != [] && NonEmpty(EndArrived(tool, id)) != []
    ensures NonEmpty(EndArrived(tool, id))[0] == EndArrived(tool, id)[0]
    ensures EndArrived(tool, id)[0] == WriteEnd(tool, id)[0]
  {
    var end := EndArrived(tool, id);
    assert end[0] == WriteEnd(tool, id)[0];
    assert end == [end[0]] + end[1..];
    NonEmptyConcat([end[0]], end[1..]);
    NonEmptyOne(end[0]);
  }

  /** The route of the write: its own family's, unless the changed object takes the family away. */
  lemma WriteTailRoute(tool: RoleTool, id: string)
    ensures var tail := NonEmpty(WriteTail(tool, id));
      if Middle(Changed(tool, id)) != ".." then tail != [] && tail[0] == WriteHead(tool)
      else tail == [] || tail[0] == WriteEnd(tool, id)[0]
  {
    var tail := WriteTail(tool, id);
    if Middle(Changed(tool, id)) == ".." {
      EndFirst(tool, id);
      assert [] + EndArrived(tool, id) == EndArrived(tool, id);
    } else {
      assert tail == [WriteHead(tool)] + tail[1..];
      NonEmptyConcat([WriteHead(tool)], tail[1..]);
      NonEmptyOne(WriteHead(tool));
    }
  }

  lemma WriteCandidates(tool: RoleTool, change: Change, realm: string, tail: seq<string>, query: Option<string>)
    requires tail != [] && tail[0] == WriteHead(tool)
    ensures Candidates(WriteMethod(change), RealmParts(realm) + tail, query) == [[ToolScope(tool)]]
  {
    ResourceTailOfRealm(realm, tail);
  }

  lemma StrayCandidates(tool: RoleTool, id: string, change: Change, realm: string, tail: seq<string>, query: Option<string>)
    requires tail == [] || tail[0] == WriteEnd(tool, id)[0]
    ensures Candidates(WriteMethod(change), RealmParts(realm) + tail, query) == [[Scope(Realm, Write)]]
  {
    ResourceTailOfRealm(realm, tail);
  }

  lemma RouteWordsPlain()
    ensures ';' !in "roles" && ';' !in "clients" && ';' !in "groups" && ';' !in "client-scopes"
    ensures ';' !in "composites" && ';' !in "role-mappings" && ';' !in "scope-mappings" && ';' !in "realm"
  {
    RouteWords();
    WordIsKept("roles");
    WordIsKept("clients");
    WordIsKept("groups");
    WordIsKept("client-scopes");
    WordIsKept("composites");
    WordIsKept("role-mappings");
    WordIsKept("scope-mappings");
    WordIsKept("realm");
  }

  lemma SemicolonsConcat(a: seq<string>, b: seq<string>)
    ensures Semicolonless(a + b) <==> Semicolonless(a) && Semicolonless(b)
  {
    if Semicolonless(a + b) {
      forall part | part in a ensures ';' !in part {
        assert part in a + b;
      }
      forall part | part in b ensures ';' !in part {
        assert part in a + b;
      }
    }
  }

  lemma SemicolonsOne(part: string)
    ensures Semicolonless([part]) <==> ';' !in part
  {
    assert part in [part];
  }

  lemma DotsHaveNone(k: string)
    requires IsDots(k)
    ensures ';' !in k
  {}

  lemma NextSemicolons(stack: seq<string>, k: string)
    requires Semicolonless(stack)
    ensures Semicolonless(Next(stack, k)) <==> ';' !in k
  {
    if IsDots(k) {
      DotsHaveNone(k);
    } else {
      SemicolonsConcat(stack, [k]);
      SemicolonsOne(k);
    }
  }

  lemma EndSemicolons(tool: RoleTool, id: string)
    ensures Semicolonless(EndArrived(tool, id)) <==> (tool.GroupClient? ==> ';' !in Kept(id))
  {
    RouteWordsPlain();
    assert Semicolonless(["role-mappings", "clients"]);
    NextSemicolons(["role-mappings", "clients"], Kept(id));
  }

  lemma FrontSemicolons(word: string, k: string)
    requires ';' !in word && k != ".."
    ensures Semicolonless([word] + (if k == "." then [] else [k])) <==> ';' !in k
  {
    SemicolonsOne(word);
    if k == "." {
      DotsHaveNone(k);
      assert [word] + [] == [word];
    } else {
      SemicolonsConcat([word], [k]);
      SemicolonsOne(k);
    }
  }

  lemma WriteSemicolons(tool: RoleTool, id: string)
    requires Middle(Changed(tool, id)) != ".."
    ensures Semicolonless(WriteTail(tool, id)) <==> WritePasses(tool, id)
  {
    var changed := Changed(tool, id);
    RouteWordsPlain();
    FrontSemicolons(WriteHead(tool), Middle(changed));
    EndSemicolons(tool, id);
    SemicolonsConcat([WriteHead(tool)] + (if Middle(changed) == "." then [] else [Middle(changed)]),
                     if Uncut(changed) then EndArrived(tool, id) else []);
  }

  lemma WriteUnderFirmRouted(tool: RoleTool, change: Change, realm: string, id: string, query: Option<string>, token: seq<string>)
    requires FirmRealm(realm) && ScopeText(ToolScope(tool)) in token
    ensures WritePasses(tool, id) ==> Routed(WriteMethod(change), WriteParts(tool, realm, id), query, token)
    ensures token == OwnToken(tool) && Routed(WriteMethod(change), WriteParts(tool, realm, id), query, token)
      ==> WritePasses(tool, id)
  {
    var r, parts := Middle(realm), WriteParts(tool, realm, id);
    var tail := NonEmpty(WriteTail(tool, id));
    WriteUnderFirm(tool, realm, id);
    FirmStack(realm);
    NonEmptyConcat(RealmParts(r), WriteTail(tool, id));
    NonEmptyRealm(r);
    SemicolonsConcat(RealmParts(r), WriteTail(tool, id));
    WriteTailRoute(tool, id);
    RoutedUnderRealm(WriteMethod(change), parts, r, tail, query, token);
    if Middle(Changed(tool, id)) != ".." {
      WriteSemicolons(tool, id);
      WriteCandidates(tool, change, r, tail, query);
      OneScope([[ToolScope(tool)]], ToolScope(tool), token);
    } else {
      StrayCandidates(tool, id, change, r, tail, query);
      RealmScopeIsOther(tool);
      WrongScope([[Scope(Realm, Write)]], Scope(Realm, Write), ToolScope(tool));
    }
  }

  // ---- One role under a firm realm --------------------------------------------------------

  /** What is left behind the realm of the request for one role, empty segments dropped. */
  function RoleArrived(tool: RoleTool, id: string, name: string): seq<string> {
    var k, n := Middle(id), Kept(name);
    if !tool.GroupClient? then if n == ".." then [] else ["roles"] + One(n)
    else
      var head := if k == ".." then [] else ["clients"] + One(k);
      if !Uncut(id) || n == ".." then head else head + (["roles"] + One(n))
  }

  predicate RoleClean(tool: RoleTool, id: string, name: string) {
    if tool.GroupClient? then ';' !in Middle(id) && (Uncut(id) ==> ';' !in Kept(name)) else ';' !in Kept(name)
  }

  /** A word and an argument behind it, on a stack. */
  lemma NextNonEmpty(stack: seq<string>, word: string, k: string)
    requires Word(word) && Semicolonless(stack)
    ensures NonEmpty(Next(stack + [word], k)) == NonEmpty(stack) + (if k == ".." then [] else [word] + One(k))
    ensures Semicolonless(Next(stack + [word], k)) <==> ';' !in k
  {
    WordIsKept(word);
    SemicolonsConcat(stack, [word]);
    SemicolonsOne(word);
    NextSemicolons(stack + [word], k);
    NonEmptyNext(stack, word, k);
  }

  lemma PlainRoleArrives(realm: string, name: string)
    requires Uncut(realm) && Semicolonless(RealmStack(realm))
    ensures var arrived := Arrived(RealmParts(realm) + (["roles"] + [name]));
      && NonEmpty(arrived) == NonEmpty(RealmStack(realm)) + (if Kept(name) == ".." then [] else ["roles"] + One(Kept(name)))
      && (Semicolonless(arrived) <==> ';' !in Kept(name))
  {
    var stack := RealmStack(realm);
    RouteWords();
    ArrivedUnderRealm(realm, ["roles"] + [name]);
    SeenWord("roles", [name]);
    assert Seen([name]) == [Kept(name)];
    ResolvedWord(stack, "roles", [Kept(name)]);
    LastStep(stack + ["roles"], Kept(name));
    NextNonEmpty(stack, "roles", Kept(name));
  }

  /** The stack behind the client's id. */
  function ClientStack(realm: string, client: string): seq<string> {
    Next(RealmStack(realm) + ["clients"], Middle(client))
  }

  lemma ClientRoleResolves(realm: string, client: string, name: string)
    requires Uncut(realm)
    ensures Arrived(RealmParts(realm) + (["clients", client, "roles"] + [name]))
      == if Uncut(client) then Next(ClientStack(realm, client) + ["roles"], Kept(name)) else ClientStack(realm, client)
  {
    var stack := RealmStack(realm);
    var rest := if Uncut(client) then Seen(["roles"] + [name]) else [];
    RouteWords();
    assert ["clients", client, "roles"] + [name] == ["clients"] + ([client] + (["roles"] + [name]));
    ArrivedUnderRealm(realm, ["clients"] + ([client] + (["roles"] + [name])));
    SeenWord("clients", [client] + (["roles"] + [name]));
    SeenArgument(client, ["roles"] + [name]);
    ResolvedWord(stack, "clients", [Middle(client)] + rest);
    ResolvedStep(stack + ["clients"], Middle(client), rest);
    SeenWord("roles", [name]);
    assert Seen([name]) == [Kept(name)];
    ResolvedWord(ClientStack(realm, client), "roles", [Kept(name)]);
    LastStep(ClientStack(realm, client) + ["roles"], Kept(name));
  }

  lemma ClientRoleArrives(realm: string, tool: RoleTool, client: string, name: string)
    requires Uncut(realm) && Semicolonless(RealmStack(realm)) && tool.GroupClient?
    ensures var arrived := Arrived(RealmParts(realm) + (["clients", client, "roles"] + [name]));
      && NonEmpty(arrived) == NonEmpty(RealmStack(realm)) + RoleArrived(tool, client, name)
      && (Semicolonless(arrived) <==> RoleClean(tool, client, name))
  {
    var stack, base := RealmStack(realm), ClientStack(realm, client);
    RouteWords();
    ClientRoleResolves(realm, client, name);
    NextNonEmpty(stack, "clients", Middle(client));
    if Uncut(client) {
      NonEmptyNext(base, "roles", Kept(name));
      BehindStack(NonEmpty(stack), if Middle(client) == ".." then [] else ["clients"] + One(Middle(client)), ["roles"] + One(Kept(name)));
      if Semicolonless(base) {
        NextNonEmpty(base, "roles", Kept(name));
      } else {
        StillSemicolons(base, "roles", Kept(name));
      }
    }
  }

  /** What arrives of the request for one role under any realm that is not cut. */
  lemma RoleArrives(tool: RoleTool, realm: string, id: string, name: string)
    requires Uncut(realm) && Semicolonless(RealmStack(realm))
    ensures var arrived := Arrived(RoleParts(tool, realm, id, name));
      && NonEmpty(arrived) == NonEmpty(RealmStack(realm)) + RoleArrived(tool, id, name)
      && (Semicolonless(arrived) <==> RoleClean(tool, id, name))
  {
    if tool.GroupClient? {
      ClientRoleArrives(realm, tool, id, name);
    } else {
      PlainRoleArrives(realm, name);
    }
  }

  lemma BehindStack<T>(a: seq<T>, b: seq<T>, c: seq<T>)
    ensures a + b + c == a + (b + c) && a + b + [] == a + b
  {}

  lemma NonEmptyNext(stack: seq<string>, word: string, k: string)
    requires Word(word)
    ensures NonEmpty(Next(stack + [word], k)) == NonEmpty(stack) + (if k == ".." then [] else [word] + One(k))
  {
    NextBehind(stack, word, k);
    if k == ".." {
      assert stack + [] == stack && NonEmpty(stack) + [] == NonEmpty(stack);
    } else {
      var top := if k == "." then [] else [k];
      NonEmptyConcat(stack, [word] + top);
      NonEmptyConcat([word], top);
      NonEmptyOne(word);
      NonEmptyOne(k);
      assert [word] + [] == [word];
    }
  }

  lemma StillSemicolons(stack: seq<string>, word: string, k: string)
    requires !Semicolonless(stack)
    ensures !Semicolonless(Next(stack + [word], k))
  {
    NextBehind(stack, word, k);
    SemicolonsConcat(stack, if k == ".." then [] else [word] + (if k == "." then [] else [k]));
  }

  /** What the tool's own write scope may read. */
  predicate Readable(tool: RoleTool, tail: seq<string>, query: Option<string>) {
    || IsRealmRoleLookup(tail)
    || (ToolScope(tool).family.Groups? && (IsClientRoleLookup(tail) || (IsClientLookup(tail) && QueryHasParam(query, "clientId"))))
    || (tool.ScopeRealm? && IsClientScopeLookup(tail))
  }

  lemma ReadableCandidates(tool: RoleTool, realm: string, tail: seq<string>, query: Option<string>)
    requires Readable(tool, tail, query)
    ensures [ToolScope(tool)] in Candidates(GET, RealmParts(realm) + tail, query)
  {
    ResourceTailOfRealm(realm, tail);
    assert "clients" != "client-scopes" by { assert |"clients"| != |"client-scopes"|; }
    assert REALM_ROLE_LOOKUP[1] == [Scope(Roles, Write)] && REALM_ROLE_LOOKUP[2] == [Scope(Groups, Write)]
      && REALM_ROLE_LOOKUP[4] == [Scope(ClientScopes, Write)];
    assert CLIENT_ROLE_LOOKUP[2] == [Scope(Groups, Write)] && CLIENT_LOOKUP[2] == [Scope(Groups, Write)]
      && CLIENT_SCOPE_LOOKUP[1] == [Scope(ClientScopes, Write)];
  }

  lemma UnreadableCandidates(tool: RoleTool, realm: string, tail: seq<string>, query: Option<string>)
    requires !Readable(tool, tail, query)
    ensures forall c | c in Candidates(GET, RealmParts(realm) + tail, query) :: exists s: Scope :: c == [s] && s != ToolScope(tool)
  {
    var segments := RealmParts(realm) + tail;
    ResourceTailOfRealm(realm, tail);
    if !IsLookup(GET, tail, query) {
      RoutedByFamily(GET, segments, query);
      assert FamilyCandidates(true, segments, FamilyOf(tail)) == [[FamilyScope(true, segments, FamilyOf(tail))]];
    }
  }

  lemma UnreadableRefused(tool: RoleTool, realm: string, tail: seq<string>, query: Option<string>)
    requires !Readable(tool, tail, query)
    ensures !exists c | c in Candidates(GET, RealmParts(realm) + tail, query) :: HasAll(OwnToken(tool), c)
  {
    UnreadableCandidates(tool, realm, tail, query);
    forall c | c in Candidates(GET, RealmParts(realm) + tail, query) ensures !HasAll(OwnToken(tool), c) {
      var s: Scope :| c == [s] && s != ToolScope(tool);
      ScopeTextDetermines(s, ToolScope(tool));
      assert s in c;
    }
  }

  /** The condition on the arguments is that what arrives is clean and readable. */
  lemma PassesIsReadable(tool: RoleTool, realm: string, id: string, name: string)
    ensures var query := OwnQuery(PathOf(RoleParts(tool, realm, id, name)));
      RolePasses(tool, realm, id, name) <==> RoleClean(tool, id, name) && Readable(tool, RoleArrived(tool, id, name), query)
  {
    DotsHaveNone(".");
    DotsHaveNone("..");
    if tool.GroupClient? {
      ClientPassesIsReadable(tool, realm, id, name);
    } else {
      assert IsRealmRoleLookup(RoleArrived(tool, id, name)) <==> Kept(name) != "" && !IsDots(Kept(name));
    }
  }

  lemma ClientPassesIsReadable(tool: RoleTool, realm: string, id: string, name: string)
    requires tool.GroupClient?
    ensures var query := OwnQuery(PathOf(RoleParts(tool, realm, id, name)));
      ClientRolePasses(realm, id, name) <==> RoleClean(tool, id, name) && Readable(tool, RoleArrived(tool, id, name), query)
  {
    var k, n, tail := Middle(id), Kept(name), RoleArrived(tool, id, name);
    DotsHaveNone(".");
    DotsHaveNone("..");
    assert RoleParts(tool, realm, id, name) == RealmParts(realm) + ["clients", id, "roles", name];
    assert "clients" != "roles" by { assert |"clients"| != |"roles"|; }
    var known := k != "" && k != ".";
    if Uncut(id) && known && n != "" && !IsDots(n) {
      assert tail == if k == ".." then ["roles", n] else ["clients", k, "roles", n];
    } else if !known && (!Uncut(id) || n == "..") {
      assert tail == ["clients"];
    } else {
      assert !IsRealmRoleLookup(tail) && !IsClientRoleLookup(tail) && !IsClientLookup(tail);
    }
  }

  lemma RoleUnderFirmRouted(tool: RoleTool, realm: string, id: string, name: string, token: seq<string>)
    requires FirmRealm(realm) && ScopeText(ToolScope(tool)) in token
    ensures var parts := RoleParts(tool, realm, id, name);
      RolePasses(tool, realm, id, name) ==> Routed(GET, parts, OwnQuery(PathOf(parts)), token)
    ensures var parts := RoleParts(tool, realm, id, name);
      token == OwnToken(tool) && Routed(GET, parts, OwnQuery(PathOf(parts)), token) ==> RolePasses(tool, realm, id, name)
  {
    var parts, r, tail := RoleParts(tool, realm, id, name), Middle(realm), RoleArrived(tool, id, name);
    var query := OwnQuery(PathOf(parts));
    FirmStack(realm);
    RoleArrives(tool, realm, id, name);
    PassesIsReadable(tool, realm, id, name);
    RoutedUnderRealm(GET, parts, r, tail, query, token);
    if Readable(tool, tail, query) {
      ReadableCandidates(tool, r, tail, query);
      OneScope(Candidates(GET, RealmParts(r) + tail, query), ToolScope(tool), token);
    } else {
      UnreadableRefused(tool, r, tail, query);
    }
  }

  // ---- Looking an id up -------------------------------------------------------------------

  lemma LookupArrived(realm: string, end: string)
    requires Word(end)
    ensures Arrived(RealmParts(realm) + [end]) == if Uncut(realm) then RealmStack(realm) + [end] else RealmStack(realm)
  {
    ArrivedUnderRealm(realm, [end]);
    WordIsKept(end);
    assert Seen([end]) == [end];
    LastStep(RealmStack(realm), end);
  }

  lemma ClientIdParam(query: string, tail: string)
    requires query == "clientId" + "=" + tail
    ensures QueryHasParam(Some(query), "clientId")
  {
    var pair := FirstPart(query, '&');
    SplitAtFirst(query, '&');
    assert query[..9] == "clientId=";
    assert |pair| >= 9;
    assert pair == "clientId" + pair[8..] && pair[8..][0] == '=';
    FirstPartOf("clientId", pair[8..], '=');
    assert pair in Split(query, '&');
  }

  lemma LookupCandidates(tool: RoleTool, realm: string, query: Option<string>)
    requires (tool.GroupClient? && QueryHasParam(query, "clientId")) || tool.ScopeRealm?
    ensures [ToolScope(tool)] in Candidates(GET, RealmParts(realm) + [LookupEnd(tool)], query)
  {
    ResourceTailOfRealm(realm, [LookupEnd(tool)]);
    assert CLIENT_LOOKUP[2] == [Scope(Groups, Write)];
    assert CLIENT_SCOPE_LOOKUP[1] == [Scope(ClientScopes, Write)];
    assert ["clients"] != ["client-scopes"] by { assert |"clients"| != |"client-scopes"|; }
  }

  /** A path without a question mark or a hash has no query of its own. */
  lemma NoOwnQuery(path: string)
    requires forall c | c in path :: !EndsPath(c)
    ensures OwnQuery(path) == None
  {
    TrimTailOf(path);
    FilterMembers(c => !Dropped(c), TrimTail(path));
    BeforeQueryOf(DropTabs(TrimTail(path)));
    assert forall c | c in TrimTail(path) :: c in path;
  }

  lemma {:induction false} PathChars(parts: seq<string>)
    requires forall part, c | part in parts && c in part :: !EndsPath(c)
    ensures forall c | c in PathOf(parts) :: !EndsPath(c)
  {
    if parts != [] {
      assert parts[0] in parts && forall part | part in parts[1..] :: part in parts;
      PathChars(parts[1..]);
    }
  }

  lemma UncutChars(part: string)
    requires Uncut(part)
    ensures forall c | c in part :: !EndsPath(c)
  {
    FilterMembers(c => !Dropped(c), part);
    forall c | c in part ensures !EndsPath(c) {
      if !Dropped(c) {
        assert c in DropTabs(part);
      }
    }
  }

  lemma WordChars(word: string)
    requires Word(word)
    ensures forall c | c in word :: !EndsPath(c)
  {}

  lemma LookupHasNoQuery(realm: string, end: string)
    requires Uncut(realm) && Word(end)
    ensures OwnQuery(PathOf(RealmParts(realm) + [end])) == None
  {
    RouteWords();
    WordChars("admin");
    WordChars("realms");
    WordChars(end);
    UncutChars(realm);
    PathChars(RealmParts(realm) + [end]);
    NoOwnQuery(PathOf(RealmParts(realm) + [end]));
  }

  lemma LookupParts(tool: RoleTool, realm: string)
    requires OneSegment(realm)
    ensures AllOneSegment(RealmParts(realm) + [LookupEnd(tool)]) && Word(LookupEnd(tool))
  {
    RouteWords();
    RouteWordsAreSegments();
  }

  lemma LookupRouted(tool: RoleTool, realm: string, query: Option<string>, token: seq<string>)
    requires FirmRealm(realm) && ScopeText(ToolScope(tool)) in token
    requires (tool.GroupClient? && QueryHasParam(query, "clientId")) || tool.ScopeRealm?
    ensures Routed(GET, RealmParts(realm) + [LookupEnd(tool)], query, token)
  {
    var r, end := Middle(realm), LookupEnd(tool);
    RouteWords();
    RouteWordsPlain();
    FirmStack(realm);
    LookupArrived(realm, end);
    NonEmptyConcat(RealmParts(r), [end]);
    NonEmptyRealm(r);
    NonEmptyOne(end);
    SemicolonsConcat(RealmParts(r), [end]);
    SemicolonsOne(end);
    RoutedUnderRealm(GET, RealmParts(realm) + [end], r, [end], query, token);
    LookupCandidates(tool, r, query);
    OneScope(Candidates(GET, RealmParts(r) + [end], query), ToolScope(tool), token);
  }

  lemma LookupSends(enc: Encoding, tool: RoleTool, realm: string, s: Sent, value: string)
    requires Uncut(realm) && s in Lookup(tool, realm)
    ensures s.httpMethod == GET && s.path == PathOf(RealmParts(realm) + [LookupEnd(tool)])
    ensures var query := WireQuery(enc, s, value);
      (tool.GroupClient? && QueryHasParam(query, "clientId")) || tool.ScopeRealm?
  {
    RouteWords();
    LookupHasNoQuery(realm, LookupEnd(tool));
    if tool.GroupClient? {
      var query := WireQuery(enc, s, value);
      assert query.value == "" + "clientId" + "=" + value == "clientId" + "=" + value;
      ClientIdParam(query.value, value);
    }
  }

  lemma LookupAllowed(enc: Encoding, tool: RoleTool, realm: string, token: seq<string>, s: Sent)
    requires Faithful(enc) && FirmRealm(realm) && OneSegment(realm) && ScopeText(ToolScope(tool)) in token
    requires s in Lookup(tool, realm)
    ensures Allowed(enc, token, s)
  {
    LookupParts(tool, realm);
    forall value ensures RouteAllows(s.httpMethod, WirePath(enc.path, s.path), WireQuery(enc, s, value), token) {
      var query := WireQuery(enc, s, value);
      LookupSends(enc, tool, realm, s, value);
      LookupRouted(tool, realm, query, token);
      RouteOfParts(enc, GET, RealmParts(realm) + [LookupEnd(tool)], query, query, token);
    }
  }

  /** Where the realm is lost, the looked-up collection takes its place. */
  lemma LostLookupRefused(enc: Encoding, tool: RoleTool, realm: string, s: Sent)
    requires Faithful(enc) && LostRealm(realm) && OneSegment(realm) && s in Lookup(tool, realm)
    ensures !Allowed(enc, OwnToken(tool), s)
  {
    var parts, end := RealmParts(realm) + [LookupEnd(tool)], LookupEnd(tool);
    var query := WireQuery(enc, s, "");
    LookupParts(tool, realm);
    LookupArrived(realm, end);
    LostNonEmpty(realm, end);
    RouteOfParts(enc, GET, parts, query, query, OwnToken(tool));
    RoutedUnderRealm(GET, parts, end, [], query, OwnToken(tool));
    BareRealm(GET, end, query);
    OtherAccess(Scope(Realm, Read), ToolScope(tool));
    WrongScope([[Scope(Realm, Read)]], Scope(Realm, Read), ToolScope(tool));
    assert !RouteAllows(s.httpMethod, WirePath(enc.path, s.path), WireQuery(enc, s, ""), OwnToken(tool));
  }

  lemma LostNonEmpty(realm: string, end: string)
    requires LostRealm(realm) && end != ""
    ensures NonEmpty(RealmStack(realm) + [end]) == RealmParts(end) + []
  {
    NonEmptyConcat(RealmStack(realm), [end]);
    NonEmptyOne(end);
    NonEmptyConcat(["admin", "realms"], [""]);
    NonEmptyOne("");
    assert ["admin"] + ["realms"] == ["admin", "realms"];
    NonEmptyConcat(["admin"], ["realms"]);
    NonEmptyOne("admin");
    NonEmptyOne("realms");
  }

  lemma BareRealm(m: Method, realm: string, query: Option<string>)
    ensures Candidates(m, RealmParts(realm) + [], query) == [[Scope(Realm, if IsRead(m) then Read else Write)]]
  {
    ResourceTailOfRealm(realm, []);
  }

  // ---- A realm that is neither firm nor lost ----------------------------------------------

  lemma CutRealmRefused(tool: RoleTool, change: Change, realm: string, id: string, query: Option<string>)
    requires !Uncut(realm)
    ensures !Routed(WriteMethod(change), WriteParts(tool, realm, id), query, OwnToken(tool))
  {
    var k, parts := Middle(realm), WriteParts(tool, realm, id);
    WriteArrived(tool, realm, id);
    NonEmptyOne("admin");
    RealmScopeIsOther(tool);
    WrongScope([[Scope(Realm, Write)]], Scope(Realm, Write), ToolScope(tool));
    if k == ".." {
      assert RealmStack(realm) == ["admin"];
      AllowlistedWords(["admin"]);
    } else if k == "" || k == "." {
      BareStack(k);
      NoResource(WriteMethod(change), query);
    } else {
      assert RealmStack(realm) == RealmParts(k) && RealmParts(k) + [] == RealmParts(k);
      NonEmptyRealm(k);
      RoutedUnderRealm(WriteMethod(change), parts, k, [], query, OwnToken(tool));
      BareRealm(WriteMethod(change), k, query);
    }
  }

  lemma BareStack(k: string)
    requires k == "" || k == "."
    ensures NonEmpty(Next(["admin", "realms"], k)) == ["admin", "realms"]
  {
    assert ["admin"] + ["realms"] == ["admin", "realms"];
    NonEmptyConcat(["admin"], ["realms"]);
    NonEmptyOne("admin");
    NonEmptyOne("realms");
    NonEmptyConcat(["admin", "realms"], [""]);
    NonEmptyOne("");
  }

  lemma NoResource(m: Method, query: Option<string>)
    ensures Candidates(m, ["admin", "realms"], query) == [[Scope(Realm, if IsRead(m) then Read else Write)]]
  {
    assert ResourceTail(["admin", "realms"]) == [];
  }

  lemma PoppedRealmRefused(tool: RoleTool, change: Change, realm: string, id: string, query: Option<string>)
    requires Uncut(realm) && Middle(realm) == ".."
    ensures !Routed(WriteMethod(change), WriteParts(tool, realm, id), query, OwnToken(tool))
  {
    var tail := NonEmpty(WriteTail(tool, id));
    WriteArrived(tool, realm, id);
    assert RealmStack(realm) == ["admin"];
    WriteOnStack(tool, ["admin"], id);
    NonEmptyConcat(["admin"], WriteTail(tool, id));
    NonEmptyOne("admin");
    WriteTailRoute(tool, id);
    AllowlistedWords(["admin"] + tail);
  }

  lemma SemicolonRealmRefused(tool: RoleTool, change: Change, realm: string, id: string, query: Option<string>)
    requires Uncut(realm) && ';' in Middle(realm)
    ensures !Routed(WriteMethod(change), WriteParts(tool, realm, id), query, OwnToken(tool))
  {
    DotsHaveNone(".");
    DotsHaveNone("..");
    WriteArrived(tool, realm, id);
    WriteOnStack(tool, RealmStack(realm), id);
    assert Middle(realm) in RealmStack(realm);
    SemicolonsConcat(RealmStack(realm), WriteTail(tool, id));
  }

  lemma OffRealmRefused(tool: RoleTool, change: Change, realm: string, id: string, query: Option<string>)
    requires !FirmRealm(realm) && !LostRealm(realm)
    ensures !Routed(WriteMethod(change), WriteParts(tool, realm, id), query, OwnToken(tool))
  {
    if !Uncut(realm) {
      CutRealmRefused(tool, change, realm, id, query);
    } else if Middle(realm) == ".." {
      PoppedRealmRefused(tool, change, realm, id, query);
    } else {
      SemicolonRealmRefused(tool, change, realm, id, query);
    }
  }

  // ---- A lost realm -----------------------------------------------------------------------

  lemma LostStack(realm: string)
    requires LostRealm(realm)
    ensures NonEmpty(RealmStack(realm)) == ["admin", "realms"] && Semicolonless(RealmStack(realm))
  {
    BareStack(Middle(realm));
  }

  /** The first segment behind a lost realm is read as the realm. */
  lemma FirstIsRealm(tail: seq<string>)
    requires tail != []
    ensures ["admin", "realms"] + tail == RealmParts(tail[0]) + tail[1..]
  {}

  lemma NothingLeftRefused(m: Method, parts: seq<string>, tool: RoleTool, query: Option<string>)
    requires m.GET? || !IsRead(m)
    requires NonEmpty(Arrived(parts)) == ["admin", "realms"]
    ensures !Routed(m, parts, query, OwnToken(tool))
  {
    var wanted := Scope(Realm, if IsRead(m) then Read else Write);
    NoResource(m, query);
    ScopeTextDetermines(wanted, ToolScope(tool));
    WrongScope([[wanted]], wanted, ToolScope(tool));
  }

  lemma ShiftedRealmRole(tool: RoleTool, realm: string, id: string, name: string)
    requires !tool.GroupClient?
    ensures var tail, query := RoleArrived(tool, id, name), OwnQuery(PathOf(RoleParts(tool, realm, id, name)));
      LostRolePasses(tool, realm, id, name) <==> RoleClean(tool, id, name) && tail != [] && Readable(tool, tail[1..], query)
  {
    var tail, n := RoleArrived(tool, id, name), Kept(name);
    RouteWordsPlain();
    WordsAreNoDots();
    if n != ".." {
      assert tail[1..] == One(n);
    }
  }

  lemma WordsAreNoDots()
    ensures !IsDots("clients") && !IsDots("client-scopes") && "clients" != "" && "client-scopes" != ""
    ensures "clients" != "client-scopes"
  {
    assert |"clients"| == 7 && |"client-scopes"| == 13;
  }

  /** The segments behind the client's id, unless cut or taken away. */
  function RoleBehindClient(id: string, name: string): seq<string> {
    if !Uncut(id) || Kept(name) == ".." then [] else ["roles"] + One(Kept(name))
  }

  lemma ShiftedClientTail(tool: RoleTool, id: string, name: string)
    requires tool.GroupClient?
    ensures var k, here, tail := Middle(id), RoleBehindClient(id, name), RoleArrived(tool, id, name);
      if k == ".." then tail == here else tail != [] && tail[1..] == One(k) + here
  {
    var k, here, tail := Middle(id), RoleBehindClient(id, name), RoleArrived(tool, id, name);
    if k == ".." {
      assert [] + here == here;
    } else {
      assert tail == ["clients"] + (One(k) + here);
    }
  }

  lemma ShiftedClientRole(tool: RoleTool, realm: string, id: string, name: string)
    requires tool.GroupClient?
    ensures var tail, query := RoleArrived(tool, id, name), OwnQuery(PathOf(RoleParts(tool, realm, id, name)));
      LostRolePasses(tool, realm, id, name) <==> RoleClean(tool, id, name) && tail != [] && Readable(tool, tail[1..], query)
  {
    var k, n, here := Middle(id), Kept(name), RoleBehindClient(id, name);
    DotsHaveNone(".");
    DotsHaveNone("..");
    RouteWordsPlain();
    assert "clients" != "roles" by { assert |"clients"| != |"roles"|; }
    ShiftedClientTail(tool, id, name);
    if k == ".." {
      assert here != [] ==> here[1..] == One(n);
    } else if k == "" || k == "." {
      assert One(k) + here == here;
    } else {
      assert One(k) + here == [k] + here;
    }
  }

  /** What is left of the request for a role, read below its first segment. */
  lemma ShiftedRoleReadable(tool: RoleTool, realm: string, id: string, name: string)
    ensures var tail, query := RoleArrived(tool, id, name), OwnQuery(PathOf(RoleParts(tool, realm, id, name)));
      LostRolePasses(tool, realm, id, name) <==> RoleClean(tool, id, name) && tail != [] && Readable(tool, tail[1..], query)
  {
    if tool.GroupClient? {
      ShiftedClientRole(tool, realm, id, name);
    } else {
      ShiftedRealmRole(tool, realm, id, name);
    }
  }

  lemma RoleWithoutRealmRouted(tool: RoleTool, realm: string, id: string, name: string)
    requires LostRealm(realm)
    ensures var parts := RoleParts(tool, realm, id, name);
      Routed(GET, parts, OwnQuery(PathOf(parts)), OwnToken(tool)) <==> LostRolePasses(tool, realm, id, name)
  {
    var parts, tail := RoleParts(tool, realm, id, name), RoleArrived(tool, id, name);
    var query := OwnQuery(PathOf(parts));
    LostStack(realm);
    RoleArrives(tool, realm, id, name);
    ShiftedRoleReadable(tool, realm, id, name);
    if tail == [] {
      NothingLeftRefused(GET, parts, tool, query);
    } else {
      FirstIsRealm(tail);
      RoutedUnderRealm(GET, parts, tail[0], tail[1..], query, OwnToken(tool));
      if Readable(tool, tail[1..], query) {
        ReadableCandidates(tool, tail[0], tail[1..], query);
        OneScope(Candidates(GET, RealmParts(tail[0]) + tail[1..], query), ToolScope(tool), OwnToken(tool));
      } else {
        UnreadableRefused(tool, tail[0], tail[1..], query);
      }
    }
  }

  /** The tool's own scope writes exactly to its own family. */
  lemma OwnWrites(tool: RoleTool, change: Change, realm: string, tail: seq<string>, query: Option<string>)
    ensures (exists c | c in Candidates(WriteMethod(change), RealmParts(realm) + tail, query) :: HasAll(OwnToken(tool), c))
      <==> FamilyOf(tail) == ToolScope(tool).family
  {
    var segments := RealmParts(realm) + tail;
    ResourceTailOfRealm(realm, tail);
    RoutedByFamily(WriteMethod(change), segments, query);
    var wanted := if IsEventConfig(tail) then Scope(Realm, Write) else FamilyScope(false, segments, FamilyOf(tail));
    assert Candidates(WriteMethod(change), segments, query) == [[wanted]];
    ScopeTextDetermines(wanted, ToolScope(tool));
    if wanted == ToolScope(tool) {
      OneScope([[wanted]], wanted, OwnToken(tool));
    } else {
      WrongScope([[wanted]], wanted, ToolScope(tool));
    }
  }

  lemma OwnFamily(tool: RoleTool, k: string, rest: seq<string>)
    ensures FamilyOf([k] + rest) == ToolScope(tool).family <==> OwnWord(tool, k)
  {}

  lemma ShiftedChanged(tool: RoleTool, id: string)
    requires Middle(Changed(tool, id)) != ".."
    ensures var tail := NonEmpty(WriteTail(tool, id));
      tail != [] && tail[1..] == One(Middle(Changed(tool, id))) + (if Uncut(Changed(tool, id)) then NonEmpty(EndArrived(tool, id)) else [])
  {
    var k, head := Middle(Changed(tool, id)), WriteHead(tool);
    var end := if Uncut(Changed(tool, id)) then EndArrived(tool, id) else [];
    NonEmptyConcat([head] + (if k == "." then [] else [k]), end);
    NonEmptyConcat([head], if k == "." then [] else [k]);
    NonEmptyOne(head);
    NonEmptyOne(k);
    assert NonEmpty(WriteTail(tool, id)) == [head] + (One(k) + NonEmpty(end));
  }

  /** Behind a lost realm only the changed object can start a route of the tool's family. */
  lemma ShiftedWriteRoute(tool: RoleTool, id: string)
    ensures var tail := NonEmpty(WriteTail(tool, id));
      OwnWord(tool, Middle(Changed(tool, id))) <==> tail != [] && FamilyOf(tail[1..]) == ToolScope(tool).family
  {
    var k := Middle(Changed(tool, id));
    var end := if Uncut(Changed(tool, id)) then NonEmpty(EndArrived(tool, id)) else [];
    EndFirst(tool, id);
    if k == ".." {
      assert [] + EndArrived(tool, id) == EndArrived(tool, id);
      ShiftedEnd(tool, id);
    } else {
      ShiftedChanged(tool, id);
      if One(k) == [] {
        assert One(k) + end == end;
      } else {
        OwnFamily(tool, k, end);
      }
    }
  }

  lemma ShiftedEnd(tool: RoleTool, id: string)
    ensures var end := NonEmpty(EndArrived(tool, id)); end != [] && FamilyOf(end[1..]) != ToolScope(tool).family
  {
    var end := EndArrived(tool, id);
    EndFirst(tool, id);
    assert end == [end[0]] + end[1..];
    NonEmptyConcat([end[0]], end[1..]);
    NonEmptyOne(end[0]);
    assert NonEmpty(end)[1..] == NonEmpty(end[1..]);
    assert !tool.Composites? && end[1..] != [] ==> end[1..] == [end[1]] + end[2..];
    if end[1..] != [] {
      NonEmptyConcat([end[1]], end[2..]);
      NonEmptyOne(end[1]);
    }
  }

  lemma LostWriteArrives(tool: RoleTool, realm: string, id: string)
    requires LostRealm(realm)
    ensures var arrived := Arrived(WriteParts(tool, realm, id));
      && NonEmpty(arrived) == ["admin", "realms"] + NonEmpty(WriteTail(tool, id))
      && (Semicolonless(arrived) <==> Semicolonless(WriteTail(tool, id)))
  {
    LostStack(realm);
    WriteArrived(tool, realm, id);
    WriteOnStack(tool, RealmStack(realm), id);
    NonEmptyConcat(RealmStack(realm), WriteTail(tool, id));
    SemicolonsConcat(RealmStack(realm), WriteTail(tool, id));
  }

  lemma WriteWithoutRealmRouted(tool: RoleTool, change: Change, realm: string, id: string, query: Option<string>)
    requires LostRealm(realm)
    ensures Routed(WriteMethod(change), WriteParts(tool, realm, id), query, OwnToken(tool)) <==> LostWritePasses(tool, id)
  {
    var parts, tail := WriteParts(tool, realm, id), NonEmpty(WriteTail(tool, id));
    LostWriteArrives(tool, realm, id);
    ShiftedWriteRoute(tool, id);
    if tail == [] {
      NothingLeftRefused(WriteMethod(change), parts, tool, query);
    } else {
      FirstIsRealm(tail);
      RoutedUnderRealm(WriteMethod(change), parts, tail[0], tail[1..], query, OwnToken(tool));
      OwnWrites(tool, change, tail[0], tail[1..], query);
      if OwnWord(tool, Middle(Changed(tool, id))) {
        WriteSemicolons(tool, id);
      }
    }
  }

  // ---- Whole runs -------------------------------------------------------------------------

  /** The gateway lets every request of the run through. */
  ghost predicate RunAllowed(enc: Encoding, token: seq<string>, tool: RoleTool, change: Change, realm: string, id: string,
                             names: seq<string>) {
    forall s | s in FullRun(tool, change, realm, id, names) :: Allowed(enc, token, s)
  }

  lemma RunMembers(tool: RoleTool, change: Change, realm: string, id: string, names: seq<string>, s: Sent)
    ensures s in FullRun(tool, change, realm, id, names) <==>
      || s in Lookup(tool, realm)
      || s == WriteRequest(tool, change, realm, id)
      || exists name :: name in names && s == RoleRequest(tool, realm, id, name)
  {
    var requests := RoleRequests(tool, realm, id, names);
    if s in requests {
      var i :| 0 <= i < |names| && requests[i] == s;
      assert names[i] in names;
    }
    if name :| name in names && s == RoleRequest(tool, realm, id, name) {
      var i :| 0 <= i < |names| && names[i] == name;
      assert requests[i] in requests;
    }
  }

  lemma RoleAllowedExactly(enc: Encoding, token: seq<string>, tool: RoleTool, realm: string, id: string, names: seq<string>, name: string)
    requires Faithful(enc) && SingleSegments(tool, realm, id, names) && name in names
    ensures var parts := RoleParts(tool, realm, id, name);
      Allowed(enc, token, RoleRequest(tool, realm, id, name)) <==> Routed(GET, parts, OwnQuery(PathOf(parts)), token)
  {
    OneSegmentParts(tool, realm, id, name);
    AllowedExactly(enc, token, GET, RoleParts(tool, realm, id, name));
  }

  lemma WriteAllowedExactly(enc: Encoding, token: seq<string>, tool: RoleTool, change: Change, realm: string, id: string, names: seq<string>)
    requires Faithful(enc) && SingleSegments(tool, realm, id, names)
    ensures var parts := WriteParts(tool, realm, id);
      Allowed(enc, token, WriteRequest(tool, change, realm, id)) <==> Routed(WriteMethod(change), parts, OwnQuery(PathOf(parts)), token)
  {
    OneSegmentParts(tool, realm, id, "");
    AllowedExactly(enc, token, WriteMethod(change), WriteParts(tool, realm, id));
  }

  /** The tool's own write scope is enough for every request of its run, whatever else the token has. */
  lemma WriteScopeIsEnough(enc: Encoding, tool: RoleTool, change: Change, realm: string, id: string,
                           names: seq<string>, token: seq<string>)
    requires Faithful(enc) && SingleSegments(tool, realm, id, names) && ScopeText(ToolScope(tool)) in token
    requires FirmRealm(realm) && ArgumentsPass(tool, realm, id, names)
    ensures RunAllowed(enc, token, tool, change, realm, id, names)
  {
    forall s | s in FullRun(tool, change, realm, id, names) ensures Allowed(enc, token, s) {
      RunMembers(tool, change, realm, id, names, s);
      if s in Lookup(tool, realm) {
        LookupAllowed(enc, tool, realm, token, s);
      } else if s == WriteRequest(tool, change, realm, id) {
        WriteAllowedExactly(enc, token, tool, change, realm, id, names);
        WriteUnderFirmRouted(tool, change, realm, id, OwnQuery(PathOf(WriteParts(tool, realm, id))), token);
      } else {
        var name :| name in names && s == RoleRequest(tool, realm, id, name);
        RoleAllowedExactly(enc, token, tool, realm, id, names, name);
        RoleUnderFirmRouted(tool, realm, id, name, token);
      }
    }
  }

  lemma FirmRunNeedsArguments(enc: Encoding, tool: RoleTool, change: Change, realm: string, id: string, names: seq<string>)
    requires Faithful(enc) && SingleSegments(tool, realm, id, names) && FirmRealm(realm)
    requires RunAllowed(enc, OwnToken(tool), tool, change, realm, id, names)
    ensures ArgumentsPass(tool, realm, id, names)
  {
    RunMembers(tool, change, realm, id, names, WriteRequest(tool, change, realm, id));
    WriteAllowedExactly(enc, OwnToken(tool), tool, change, realm, id, names);
    WriteUnderFirmRouted(tool, change, realm, id, OwnQuery(PathOf(WriteParts(tool, realm, id))), OwnToken(tool));
    forall name | name in names ensures RolePasses(tool, realm, id, name) {
      RunMembers(tool, change, realm, id, names, RoleRequest(tool, realm, id, name));
      RoleAllowedExactly(enc, OwnToken(tool), tool, realm, id, names, name);
      RoleUnderFirmRouted(tool, realm, id, name, OwnToken(tool));
    }
  }

  /** Where the realm is lost: one condition for each argument behind it. */
  predicate LostRunPasses(tool: RoleTool, realm: string, id: string, names: seq<string>) {
    && Lookup(tool, realm) == []
    && LostWritePasses(tool, id)
    && forall name | name in names :: LostRolePasses(tool, realm, id, name)
  }

  lemma LostRunMembers(enc: Encoding, tool: RoleTool, change: Change, realm: string, id: string, names: seq<string>)
    requires Faithful(enc) && SingleSegments(tool, realm, id, names) && Lookup(tool, realm) == []
    ensures RunAllowed(enc, OwnToken(tool), tool, change, realm, id, names) <==>
      && Allowed(enc, OwnToken(tool), WriteRequest(tool, change, realm, id))
      && forall name | name in names :: Allowed(enc, OwnToken(tool), RoleRequest(tool, realm, id, name))
  {
    RunMembers(tool, change, realm, id, names, WriteRequest(tool, change, realm, id));
    forall name | name in names ensures RoleRequest(tool, realm, id, name) in FullRun(tool, change, realm, id, names) {
      RunMembers(tool, change, realm, id, names, RoleRequest(tool, realm, id, name));
    }
    forall s | s in FullRun(tool, change, realm, id, names)
      ensures s == WriteRequest(tool, change, realm, id)
        || exists name :: name in names && s == RoleRequest(tool, realm, id, name)
    {
      RunMembers(tool, change, realm, id, names, s);
    }
  }

  lemma LostRunExactly(enc: Encoding, tool: RoleTool, change: Change, realm: string, id: string, names: seq<string>)
    requires Faithful(enc) && SingleSegments(tool, realm, id, names) && LostRealm(realm)
    ensures RunAllowed(enc, OwnToken(tool), tool, change, realm, id, names) <==> LostRunPasses(tool, realm, id, names)
  {
    if Lookup(tool, realm) != [] {
      var s := Lookup(tool, realm)[0];
      assert s in Lookup(tool, realm);
      RunMembers(tool, change, realm, id, names, s);
      LostLookupRefused(enc, tool, realm, s);
    } else {
      LostRunMembers(enc, tool, change, realm, id, names);
      WriteAllowedExactly(enc, OwnToken(tool), tool, change, realm, id, names);
      WriteWithoutRealmRouted(tool, change, realm, id, OwnQuery(PathOf(WriteParts(tool, realm, id))));
      forall name | name in names
        ensures Allowed(enc, OwnToken(tool), RoleRequest(tool, realm, id, name)) <==> LostRolePasses(tool, realm, id, name)
      {
        RoleAllowedExactly(enc, OwnToken(tool), tool, realm, id, names, name);
        RoleWithoutRealmRouted(tool, realm, id, name);
      }
    }
  }

  /** When a run passes the gateway on the tool's own write scope. */
  predicate RunPasses(tool: RoleTool, change: Change, realm: string, id: string, names: seq<string>) {
    if LostRealm(realm) then LostRunPasses(tool, realm, id, names)
    else FirmRealm(realm) && ArgumentsPass(tool, realm, id, names)
  }

  /**
    For all arguments: with nothing but the tool's write scope on the token, the gateway lets the
    whole run through exactly when the realm is firm and every other argument meets its condition.
    A realm that is empty or a single dot drops out of the path and the next segment is read as the
    realm; then the other arguments have conditions of their own.
   */
  lemma RunPassesExactly(enc: Encoding, tool: RoleTool, change: Change, realm: string, id: string, names: seq<string>)
    requires Faithful(enc) && SingleSegments(tool, realm, id, names)
    ensures RunAllowed(enc, OwnToken(tool), tool, change, realm, id, names) <==> RunPasses(tool, change, realm, id, names)
  {
    if LostRealm(realm) {
      LostRunExactly(enc, tool, change, realm, id, names);
    } else if FirmRealm(realm) {
      if ArgumentsPass(tool, realm, id, names) {
        WriteScopeIsEnough(enc, tool, change, realm, id, names, OwnToken(tool));
      } else if RunAllowed(enc, OwnToken(tool), tool, change, realm, id, names) {
        FirmRunNeedsArguments(enc, tool, change, realm, id, names);
      }
    } else {
      RunMembers(tool, change, realm, id, names, WriteRequest(tool, change, realm, id));
      WriteAllowedExactly(enc, OwnToken(tool), tool, change, realm, id, names);
      OffRealmRefused(tool, change, realm, id, OwnQuery(PathOf(WriteParts(tool, realm, id))));
    }
  }

  /** The scopes the tool itself requires, with the default scope map. */
  function RequiredByTool(tool: RoleTool): seq<string> {
    var m := RoleGate.DefaultScopeMap();
    match tool
    case GroupRealm(_) => m.groups.write
    case GroupClient(_, _, _) => m.groups.write
    case Composites(_) => m.roles.write
    case ScopeRealm(_, _) => m.clientScopes.write
  }

  /** Every token that passes the tool's own scope gate passes the gateway on the whole run. */
  lemma GatesAgree(enc: Encoding, tool: RoleTool, change: Change, realm: string, id: string,
                   names: seq<string>, token: seq<string>)
    requires Faithful(enc) && SingleSegments(tool, realm, id, names)
    requires FirmRealm(realm) && ArgumentsPass(tool, realm, id, names)
    requires RoleGate.RequireScopes(token, RequiredByTool(tool)).None?
    ensures RunAllowed(enc, token, tool, change, realm, id, names)
  {
    RoleGate.ScopesPassExactly(token, RequiredByTool(tool));
    assert ScopeText(ToolScope(tool)) in RequiredByTool(tool);
    WriteScopeIsEnough(enc, tool, change, realm, id, names, token);
  }

  // ---- Examples ---------------------------------------------------------------------------

  /** Visible characters other than `?`, `#` and `;`, and no dot segment. */
  predicate Ordinary(s: string) {
    s != "" && !IsDots(s) && forall i | 0 <= i < |s| :: s[i] > ' ' && !EndsPath(s[i]) && s[i] != ';'
  }

  lemma VisibleIsKept(s: string)
    requires s != "" && forall i | 0 <= i < |s| :: s[i] > ' ' && !EndsPath(s[i])
    ensures Kept(s) == Middle(s) == s && Uncut(s)
  {
    DropTabsAll(s);
    BeforeQueryOf(s);
  }

  lemma OrdinaryIsFirm(s: string)
    requires Ordinary(s)
    ensures Kept(s) == s && Middle(s) == s
    ensures Reaches(s) && Anchored(s) && FirmRealm(s)
  {
    VisibleIsKept(s);
  }

  /** Ordinary names pass everywhere. */
  lemma OrdinaryNamesPass(tool: RoleTool, realm: string, id: string, names: seq<string>)
    requires Ordinary(realm) && Ordinary(id) && Ordinary(Changed(tool, id)) && forall name | name in names :: Ordinary(name)
    ensures FirmRealm(realm) && ArgumentsPass(tool, realm, id, names)
  {
    OrdinaryIsFirm(realm);
    OrdinaryIsFirm(id);
    OrdinaryIsFirm(Changed(tool, id));
    forall name | name in names ensures RolePasses(tool, realm, id, name) {
      OrdinaryIsFirm(name);
    }
  }

  /** One input for each argument that makes the gateway refuse the run. */
  lemma ArgumentsThatMiss(change: Change, realm: string, name: string)
    requires FirmRealm(realm)
    ensures !RunPasses(GroupRealm(".."), change, realm, "", [name])
    ensures !RunPasses(Composites(".."), change, realm, "", [name])
    ensures !RunPasses(ScopeRealm(Some(".."), None), change, realm, "..", [name])
    ensures Kept(name) != ".." ==> !RunPasses(GroupClient("g", Some("."), None), change, realm, ".", [name])
    ensures !RunPasses(GroupRealm("g"), change, realm, "", ["."])
    ensures !RunPasses(GroupRealm("g"), change, "..", "", [name])
  {
    VisibleIsKept("..");
    VisibleIsKept(".");
    assert name in [name] && "." in ["."];
    assert RolePasses(GroupClient("g", Some("."), None), realm, ".", name) ==> Kept(name) == "..";
  }

  lemma QueryOnly(s: string)
    requires s != "" && EndsPath(s[0])
    ensures Middle(s) == "" && !Uncut(s)
  {
    assert DropTabs(s)[0] == s[0];
  }

  lemma OneNamePasses(tool: RoleTool, change: Change, realm: string, id: string, name: string)
    requires FirmRealm(realm) && WritePasses(tool, id) && RolePasses(tool, realm, id, name)
    ensures RunPasses(tool, change, realm, id, [name])
  {}

  /** A composite name that is cut off leaves a write to the collection of roles. */
  lemma CutCompositeSlips(change: Change, realm: string, name: string)
    requires FirmRealm(realm) && Ordinary(name)
    ensures RunPasses(Composites("?x"), change, realm, "", [name])
    ensures NonEmpty(Arrived(WriteParts(Composites("?x"), realm, ""))) == RealmParts(Middle(realm)) + ["roles"]
  {
    var tool := Composites("?x");
    OrdinaryIsFirm(name);
    QueryOnly("?x");
    OneNamePasses(tool, change, realm, "", name);
    WriteUnderFirm(tool, realm, "");
    NonEmptyRealm(Middle(realm));
    NonEmptyConcat(RealmParts(Middle(realm)), ["roles"] + [""]);
    NonEmptyConcat(["roles"], [""]);
    NonEmptyOne("roles");
    NonEmptyOne("");
    assert WriteTail(tool, "") == ["roles"] + [""];
  }

  lemma PoppedClientArrives(tool: RoleTool, realm: string, id: string, name: string)
    requires tool.GroupClient? && FirmRealm(realm) && Uncut(id) && Middle(id) == ".." && Reaches(name)
    ensures NonEmpty(Arrived(RoleParts(tool, realm, id, name))) == RealmParts(Middle(realm)) + ["roles", Kept(name)]
  {
    FirmStack(realm);
    RoleArrives(tool, realm, id, name);
    assert RoleArrived(tool, id, name) == ["roles", Kept(name)];
  }

  /** With two dots for the client's id the role is read as one of the realm. */
  lemma ClientOfDotsSlips(change: Change, realm: string, group: string, name: string)
    requires FirmRealm(realm) && Ordinary(group) && Ordinary(name)
    ensures var tool := GroupClient(group, Some(".."), None);
      && RunPasses(tool, change, realm, "..", [name])
      && NonEmpty(Arrived(RoleParts(tool, realm, "..", name))) == RealmParts(Middle(realm)) + ["roles", name]
  {
    var tool := GroupClient(group, Some(".."), None);
    OrdinaryIsFirm(group);
    OrdinaryIsFirm(name);
    VisibleIsKept("..");
    OneNamePasses(tool, change, realm, "..", name);
    PoppedClientArrives(tool, realm, "..", name);
  }

  lemma LostScopePasses(change: Change, realm: string, id: string)
    requires LostRealm(realm) && Kept(id) == Middle(id) == "client-scopes"
    ensures RunPasses(ScopeRealm(Some(id), None), change, realm, id, [id])
  {
    RouteWordsPlain();
    WordsAreNoDots();
  }

  /** Where the realm is a dot, the family's word takes its place. */
  lemma RealmOfDotSlips(change: Change)
    ensures RunPasses(ScopeRealm(Some("client-scopes"), None), change, ".", "client-scopes", ["client-scopes"])
  {
    RouteWords();
    VisibleIsKept(".");
    WordIsKept("client-scopes");
    LostScopePasses(change, ".", "client-scopes");
  }

  /** Arguments that are let through although the request then means something else. */
  lemma ArgumentsThatSlip(change: Change, realm: string, group: string, name: string)
    requires FirmRealm(realm) && Ordinary(group) && Ordinary(name)
    ensures RunPasses(Composites("?x"), change, realm, "", [name])
    ensures NonEmpty(Arrived(WriteParts(Composites("?x"), realm, ""))) == RealmParts(Middle(realm)) + ["roles"]
    ensures RunPasses(GroupClient(group, Some(".."), None), change, realm, "..", [name])
    ensures NonEmpty(Arrived(RoleParts(GroupClient(group, Some(".."), None), realm, "..", name)))
      == RealmParts(Middle(realm)) + ["roles", name]
    ensures RunPasses(ScopeRealm(Some("client-scopes"), None), change, ".", "client-scopes", ["client-scopes"])
  {
    CutCompositeSlips(change, realm, name);
    ClientOfDotsSlips(change, realm, group, name);
    RealmOfDotSlips(change);
  }
}
