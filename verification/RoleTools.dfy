/**
  The tools that add and remove role mappings: the requests they send, in order, and how they stop.
  The arguments are not checked by the tools and go into the paths as they are.
 */
module RoleTools {
  import opened Options
  import opened Sequences
  import opened GatewayRoutes
  import opened RequestUrls
  import opened WireRoutes

  datatype Change = Add | Remove

  /** A tool call, without the realm and the role names that every call has. */
  datatype RoleTool =
    | GroupRealm(group: string)
    | GroupClient(group: string, clientUniqueId: Option<string>, clientId: Option<string>)
    | Composites(name: string)
    | ScopeRealm(scopeId: Option<string>, scopeName: Option<string>)

  /** A client or client scope in a listing, by its client id or name. */
  datatype Named = Named(id: Option<string>, name: Option<string>)

  /** A role as the server represents it. */
  datatype Role = Role(id: Option<string>, name: Option<string>)

  /** What comes back: a role representation, a listing, or neither. */
  datatype Answer = RoleFound(role: Role) | Listing(items: seq<Named>) | NoContent | Failed

  /** A role that can be written: one with an id and a name. */
  predicate Complete(a: Answer) {
    a.RoleFound? && a.role.id.Some? && a.role.name.Some?
  }

  predicate Incomplete(a: Answer) {
    a.RoleFound? && !(a.role.id.Some? && a.role.name.Some?)
  }

  datatype ToolResult =
    | Done | InvalidInput | NotFound | RolesMissing(names: seq<string>) | InvalidPayload | GatewayFailed

  function ToolScope(tool: RoleTool): Scope {
    match tool
    case GroupRealm(_) => Scope(Groups, Write)
    case GroupClient(_, _, _) => Scope(Groups, Write)
    case Composites(_) => Scope(Roles, Write)
    case ScopeRealm(_, _) => Scope(ClientScopes, Write)
  }

  // ---- Requests ---------------------------------------------------------------------------

  function RealmParts(realm: string): seq<string> {
    ["admin", "realms", realm]
  }

  /** The id the arguments give, where the tool needs one. */
  function GivenId(tool: RoleTool): Option<string> {
    match tool
    case GroupClient(_, id, _) => id
    case ScopeRealm(id, _) => id
    case _ => Some("")
  }

  function LookupEnd(tool: RoleTool): string {
    if tool.GroupClient? then "clients" else "client-scopes"
  }

  /** The request that looks the id up by name, if the arguments give a name only. */
  function Lookup(tool: RoleTool, realm: string): seq<Sent> {
    var path := PathOf(RealmParts(realm) + [LookupEnd(tool)]);
    match tool
    case GroupClient(_, None, Some(clientId)) => [Sent(GET, path, [("clientId", clientId)])]
    case ScopeRealm(None, Some(_)) => [Sent(GET, path, [])]
    case _ => []
  }

  /** The segments between the realm and a role's name in the request that fetches it. */
  function RoleTail(tool: RoleTool, id: string): seq<string> {
    if tool.GroupClient? then ["clients", id, "roles"] else ["roles"]
  }

  function RoleParts(tool: RoleTool, realm: string, id: string, name: string): seq<string> {
    RealmParts(realm) + (RoleTail(tool, id) + [name])
  }

  function RoleRequest(tool: RoleTool, realm: string, id: string, name: string): Sent {
    Sent(GET, PathOf(RoleParts(tool, realm, id, name)), [])
  }

  function RoleRequests(tool: RoleTool, realm: string, id: string, names: seq<string>): seq<Sent> {
    seq(|names|, i requires 0 <= i < |names| => RoleRequest(tool, realm, id, names[i]))
  }

  /** The first two segments after the realm in the request that changes the mapping. */
  function WriteHead(tool: RoleTool): string {
    match tool
    case GroupRealm(_) => "groups"
    case GroupClient(_, _, _) => "groups"
    case Composites(_) => "roles"
    case ScopeRealm(_, _) => "client-scopes"
  }

  function Changed(tool: RoleTool, id: string): string {
    match tool
    case GroupRealm(group) => group
    case GroupClient(group, _, _) => group
    case Composites(name) => name
    case ScopeRealm(_, _) => id
  }

  function WriteEnd(tool: RoleTool, id: string): seq<string> {
    match tool
    case GroupRealm(_) => ["role-mappings", "realm"]
    case GroupClient(_, _, _) => ["role-mappings", "clients", id]
    case Composites(_) => ["composites"]
    case ScopeRealm(_, _) => ["scope-mappings", "realm"]
  }

  function WriteParts(tool: RoleTool, realm: string, id: string): seq<string> {
    RealmParts(realm) + ([WriteHead(tool), Changed(tool, id)] + WriteEnd(tool, id))
  }

  function WriteMethod(change: Change): Method {
    if change.Add? then POST else DELETE
  }

  function WriteRequest(tool: RoleTool, change: Change, realm: string, id: string): Sent {
    Sent(WriteMethod(change), PathOf(WriteParts(tool, realm, id)), [])
  }

  // ---- The requests, letter by letter -----------------------------------------------------

  /** The path of the object whose role mappings a tool changes. */
  function ObjectPath(tool: RoleTool, realm: string, id: string): string {
    match tool
    case GroupRealm(group) => "/admin/realms/" + realm + "/groups/" + group + "/role-mappings/realm"
    case GroupClient(group, _, _) => "/admin/realms/" + realm + "/groups/" + group + "/role-mappings/clients/" + id
    case Composites(name) => "/admin/realms/" + realm + "/roles/" + name + "/composites"
    case ScopeRealm(_, _) => "/admin/realms/" + realm + "/client-scopes/" + id + "/scope-mappings/realm"
  }

  lemma PathFirst(part: string, rest: seq<string>)
    ensures PathOf([part] + rest) == "/" + part + PathOf(rest)
  {
    assert ([part] + rest)[1..] == rest;
  }

  lemma RealmPath(realm: string, rest: seq<string>)
    ensures PathOf(RealmParts(realm) + rest) == "/admin/realms/" + realm + PathOf(rest)
  {
    assert RealmParts(realm) + rest == ["admin"] + (["realms"] + ([realm] + rest));
    PathFirst("admin", ["realms"] + ([realm] + rest));
    PathFirst("realms", [realm] + rest);
    PathFirst(realm, rest);
  }

  lemma PathTwo(a: string, b: string)
    ensures PathOf([a, b]) == "/" + a + "/" + b
  {
    assert [a, b] == [a] + ([b] + []);
    PathFirst(a, [b] + []);
    PathFirst(b, []);
  }

  lemma ObjectTail(realm: string, head: string, name: string, end: seq<string>)
    ensures PathOf(RealmParts(realm) + ([head, name] + end)) == "/admin/realms/" + realm + "/" + head + "/" + name + PathOf(end)
  {
    assert [head, name] + end == [head] + ([name] + end);
    RealmPath(realm, [head] + ([name] + end));
    PathFirst(head, [name] + end);
    PathFirst(name, end);
  }

  lemma EndSpelled(id: string)
    ensures PathOf(["role-mappings", "realm"]) == "/role-mappings/realm"
    ensures PathOf(["role-mappings", "clients", id]) == "/role-mappings/clients/" + id
    ensures PathOf(["composites"]) == "/composites"
    ensures PathOf(["scope-mappings", "realm"]) == "/scope-mappings/realm"
  {
    PathTwo("role-mappings", "realm");
    PathTwo("scope-mappings", "realm");
    PathTwo("clients", id);
    PathFirst("role-mappings", ["clients", id]);
    PathFirst("composites", []);
    assert ["role-mappings", "clients", id] == ["role-mappings"] + ["clients", id] && ["composites"] == ["composites"] + [];
  }

  /** A word between two slashes, in the middle of a path. */
  lemma Spelled(start: string, word: string, text: string, name: string, end: string)
    requires "/" + word + "/" == text
    ensures start + "/" + word + "/" + name + end == start + text + name + end
  {
    assert start + "/" + word + "/" == start + ("/" + word + "/");
  }

  lemma HeadsSpelled()
    ensures "/" + "groups" + "/" == "/groups/" && "/" + "roles" + "/" == "/roles/"
    ensures "/" + "client-scopes" + "/" == "/client-scopes/" && "/" + "clients" + "/" == "/clients/"
  {}

  lemma Regrouped(a: string, b: string, c: string)
    ensures a + (b + c) == a + b + c
  {}

  lemma PathSpelled(tool: RoleTool, realm: string, id: string)
    ensures PathOf(WriteParts(tool, realm, id)) == ObjectPath(tool, realm, id)
  {
    var start, end := "/admin/realms/" + realm, PathOf(WriteEnd(tool, id));
    ObjectTail(realm, WriteHead(tool), Changed(tool, id), WriteEnd(tool, id));
    EndSpelled(id);
    HeadsSpelled();
    match tool
    case GroupRealm(group) => Spelled(start, "groups", "/groups/", group, end);
    case GroupClient(group, _, _) =>
      Spelled(start, "groups", "/groups/", group, end);
      Regrouped(start + "/groups/" + group, "/role-mappings/clients/", id);
    case Composites(name) => Spelled(start, "roles", "/roles/", name, end);
    case ScopeRealm(_, _) => Spelled(start, "client-scopes", "/client-scopes/", id, end);
  }

  /** The write: POST to add and DELETE to remove, on the object's path. */
  lemma WriteSpelled(tool: RoleTool, change: Change, realm: string, id: string)
    ensures WriteRequest(tool, change, realm, id)
      == Sent(match change case Add => POST case Remove => DELETE, ObjectPath(tool, realm, id), [])
  {
    PathSpelled(tool, realm, id);
  }

  lemma LookupPath(realm: string, end: string, text: string)
    requires "/" + end == text
    ensures PathOf(RealmParts(realm) + [end]) == "/admin/realms/" + realm + text
  {
    RealmPath(realm, [end]);
    PathFirst(end, []);
    assert [end] == [end] + [] && "/" + end + "" == text;
  }

  /** The reads: one role of the realm or of the client, and the listing that an id is looked up in. */
  lemma ReadsSpelled(tool: RoleTool, realm: string, id: string, name: string)
    ensures RoleRequest(tool, realm, id, name) == Sent(GET,
      if tool.GroupClient? then "/admin/realms/" + realm + "/clients/" + id + "/roles/" + name
      else "/admin/realms/" + realm + "/roles/" + name, [])
    ensures Lookup(tool, realm) == match tool
      case GroupClient(_, None, Some(clientId)) => [Sent(GET, "/admin/realms/" + realm + "/clients", [("clientId", clientId)])]
      case ScopeRealm(None, Some(_)) => [Sent(GET, "/admin/realms/" + realm + "/client-scopes", [])]
      case _ => []
  {
    RoleTailSpelled(tool, realm, id, name);
    LookupPath(realm, "clients", "/clients");
    LookupPath(realm, "client-scopes", "/client-scopes");
  }

  lemma RoleTailSpelled(tool: RoleTool, realm: string, id: string, name: string)
    ensures PathOf(RoleParts(tool, realm, id, name))
      == if tool.GroupClient? then "/admin/realms/" + realm + "/clients/" + id + "/roles/" + name
         else "/admin/realms/" + realm + "/roles/" + name
  {
    PathTwo("roles", name);
    HeadsSpelled();
    var start := "/admin/realms/" + realm;
    if tool.GroupClient? {
      assert RoleTail(tool, id) + [name] == ["clients", id] + ["roles", name];
      ObjectTail(realm, "clients", id, ["roles", name]);
      Spelled(start, "clients", "/clients/", id, PathOf(["roles", name]));
      Regrouped(start + "/clients/" + id, "/" + "roles" + "/", name);
    } else {
      assert RoleTail(tool, id) + [name] == ["roles", name];
      RealmPath(realm, ["roles", name]);
      Regrouped(start, "/" + "roles" + "/", name);
    }
  }

  function AfterLookup(tool: RoleTool, change: Change, realm: string, id: string, names: seq<string>): (r: seq<Sent>)
    ensures |r| == |names| + 1
  {
    RoleRequests(tool, realm, id, names) + [WriteRequest(tool, change, realm, id)]
  }

  /** Every request of a call that runs to its end, when the id is `id`. */
  function FullRun(tool: RoleTool, change: Change, realm: string, id: string, names: seq<string>): (r: seq<Sent>)
    ensures |r| == |Lookup(tool, realm)| + |names| + 1
  {
    Lookup(tool, realm) + AfterLookup(tool, change, realm, id, names)
  }

  /** The names whose answer lacks an id or a name, in order. */
  function MissingNames(answer: Sent -> Answer, tool: RoleTool, realm: string, id: string, names: seq<string>): seq<string> {
    Filter(name => Incomplete(answer(RoleRequest(tool, realm, id, name))), names)
  }

  /** The roles that the answers give for the names. */
  function RolesFor(answer: Sent -> Answer, tool: RoleTool, realm: string, id: string, names: seq<string>): set<Role> {
    set name | name in names && answer(RoleRequest(tool, realm, id, name)).RoleFound? :: answer(RoleRequest(tool, realm, id, name)).role
  }

  /** The roles mapped to the object at a path. */
  function MappedAt(mapped: map<string, set<Role>>, path: string): set<Role> {
    if path in mapped then mapped[path] else {}
  }

  /** What a write makes of the mappings: POST adds the roles in its body, DELETE takes them away. */
  function Written(mapped: map<string, set<Role>>, request: Sent, body: seq<Role>): map<string, set<Role>> {
    var now := MappedAt(mapped, request.path);
    match request.httpMethod
    case POST => mapped[request.path := now + Set(body)]
    case DELETE => mapped[request.path := now - Set(body)]
    case _ => mapped
  }

  /** The name that is looked up when no id is given. */
  function Wanted(tool: RoleTool): Option<string> {
    match tool
    case GroupClient(_, _, clientId) => clientId
    case ScopeRealm(_, scopeName) => scopeName
    case _ => None
  }

  /** The id of the first item with the name, if that item has one. */
  function FirstNamed(items: seq<Named>, name: string): Option<string> {
    if items == [] then None
    else if items[0].name == Some(name) then items[0].id
    else FirstNamed(items[1..], name)
  }

  /** The first item with the name decides, even when it has no id and a later one has. */
  lemma {:induction false} FirstNamedDecides(items: seq<Named>, name: string, i: nat)
    requires i < |items| && items[i].name == Some(name)
    requires forall j | 0 <= j < i :: items[j].name != Some(name)
    ensures FirstNamed(items, name) == items[i].id
  {
    if i > 0 {
      FirstNamedDecides(items[1..], name, i - 1);
    }
  }

  /** Without an item of the name nothing is found. */
  lemma {:induction false} UnnamedIsNotFound(items: seq<Named>, name: string)
    requires forall item | item in items :: item.name != Some(name)
    ensures FirstNamed(items, name) == None
  {
    if items != [] {
      assert items[0] in items;
      UnnamedIsNotFound(items[1..], name);
    }
  }

  /** What a lookup's answer says about the id. */
  function IdFrom(answer: Answer, name: string): Result<string, ToolResult> {
    match answer
    case Listing(items) =>
      (match FirstNamed(items, name)
       case Some(id) => Ok(id)
       case None => Err(NotFound))
    case NoContent => Err(NotFound)
    case RoleFound(_) => Err(NotFound)
    case Failed => Err(GatewayFailed)
  }

  /** What the arguments and, where one is needed, the lookup say about the id. */
  function ResolvedId(tool: RoleTool, realm: string, answer: Sent -> Answer): Result<string, ToolResult> {
    if GivenId(tool).Some? then Ok(GivenId(tool).value)
    else if Wanted(tool).None? then Err(NotFound)
    else IdFrom(answer(Lookup(tool, realm)[0]), Wanted(tool).value)
  }

  /** Where the id comes from, and why there is none. */
  lemma IdExactly(tool: RoleTool, realm: string, answer: Sent -> Answer)
    ensures var given := match tool
        case GroupClient(_, id, _) => id
        case ScopeRealm(id, _) => id
        case _ => Some("");
      var name := match tool
        case GroupClient(_, _, clientId) => clientId
        case ScopeRealm(_, scopeName) => scopeName
        case _ => None;
      if given.Some? then ResolvedId(tool, realm, answer) == Ok(given.value)
      else if name.None? then ResolvedId(tool, realm, answer) == Err(NotFound)
      else
        && |Lookup(tool, realm)| == 1
        && var got := answer(Lookup(tool, realm)[0]);
           if got.Failed? then ResolvedId(tool, realm, answer) == Err(GatewayFailed)
           else if got.Listing? && FirstNamed(got.items, name.value).Some?
           then ResolvedId(tool, realm, answer) == Ok(FirstNamed(got.items, name.value).value)
           else ResolvedId(tool, realm, answer) == Err(NotFound)
  {}

  class GatewayClient {
    var sent: seq<Sent>
    var mapped: map<string, set<Role>>
    const answer: Sent -> Answer

    constructor (mapped: map<string, set<Role>>, answer: Sent -> Answer)
      ensures sent == [] && this.mapped == mapped && this.answer == answer
    {
      sent := [];
      this.mapped := mapped;
      this.answer := answer;
    }

    /** A read changes nothing on the server. */
    method RequestJson(request: Sent) returns (r: Answer)
      modifies this`sent
      ensures sent == old(sent) + [request] && r == answer(request)
    {
      sent := sent + [request];
      r := answer(request);
    }

    /** A write takes effect; one whose answer is a failure may have. */
    method WriteJson(request: Sent, body: seq<Role>) returns (r: Answer)
      modifies this
      ensures sent == old(sent) + [request] && r == answer(request)
      ensures mapped == Written(old(mapped), request, body) || (r.Failed? && mapped == old(mapped))
    {
      sent := sent + [request];
      r := answer(request);
      var applied: bool := *;
      if !r.Failed? || applied {
        mapped := Written(mapped, request, body);
      }
    }

    /** The id to work with, looked up when only a name is given. */
    method ResolveId(tool: RoleTool, realm: string) returns (r: Result<string, ToolResult>)
      modifies this`sent
      ensures sent == old(sent) + Lookup(tool, realm)
      ensures r == ResolvedId(tool, realm, answer)
    {
      if GivenId(tool).Some? {
        return Ok(GivenId(tool).value);
      }
      var lookup := Lookup(tool, realm);
      if lookup == [] {
        return Err(NotFound);
      }
      var found := RequestJson(lookup[0]);
      return IdFrom(found, Wanted(tool).value);
    }

    /**
      Fetches every role. The composite tools stop at the first incomplete one; the others go on
      and report all of them.
     */
    method ResolveRoles(tool: RoleTool, realm: string, id: string, names: seq<string>)
      returns (r: ToolResult, roles: seq<Role>, ghost n: nat)
      modifies this`sent
      ensures n <= |names| && sent == old(sent) + RoleRequests(tool, realm, id, names)[..n]
      ensures r.Done? || r.RolesMissing? ==> n == |names|
      ensures r.Done? || r.RolesMissing? || r.InvalidPayload? || r.GatewayFailed?
      ensures r.GatewayFailed? ==> n > 0 && !answer(RoleRequest(tool, realm, id, names[n - 1])).RoleFound?
      ensures r.InvalidPayload? ==>
        tool.Composites? && n > 0 && Incomplete(answer(RoleRequest(tool, realm, id, names[n - 1])))
      ensures r.Done? <==> forall name | name in names :: Complete(answer(RoleRequest(tool, realm, id, name)))
      ensures r.Done? ==> AreFound(answer, tool, realm, id, names, roles)
      ensures r.RolesMissing? ==> !tool.Composites? && r.names != [] && r.names == MissingNames(answer, tool, realm, id, names)
    {
      var stop, missing;
      stop, missing, roles, n := FetchRoles(tool, realm, id, names);
      if stop.Some? {
        assert names[n - 1] in names;
        return stop.value, [], n;
      }
      NoneMissing(answer, tool, realm, id, names);
      return if missing != [] then RolesMissing(missing) else Done, roles, n;
    }

    /** The requests for the roles, in order, up to the first answer that stops the tool. */
    method FetchRoles(tool: RoleTool, realm: string, id: string, names: seq<string>)
      returns (stop: Option<ToolResult>, missing: seq<string>, roles: seq<Role>, ghost n: nat)
      modifies this`sent
      ensures n <= |names| && sent == old(sent) + RoleRequests(tool, realm, id, names)[..n]
      ensures stop.Some? ==> n > 0
      ensures stop.Some? ==>
        var got := answer(RoleRequest(tool, realm, id, names[n - 1]));
        (stop == Some(GatewayFailed) && !got.RoleFound?) || (stop == Some(InvalidPayload) && tool.Composites? && Incomplete(got))
      ensures stop.None? ==> n == |names| && Fetched(answer, tool, realm, id, names, missing, roles)
    {
      missing, roles := [], [];
      for i := 0 to |names|
        invariant sent == old(sent) + RoleRequests(tool, realm, id, names)[..i]
        invariant Fetched(answer, tool, realm, id, names[..i], missing, roles)
      {
        var request := RoleRequest(tool, realm, id, names[i]);
        RequestsSnoc(tool, realm, id, names, i);
        var got := RequestJson(request);
        if !got.RoleFound? {
          return Some(GatewayFailed), missing, roles, i + 1;
        }
        if tool.Composites? && (got.role.id.None? || got.role.name.None?) {
          return Some(InvalidPayload), missing, roles, i + 1;
        }
        FetchedSnoc(answer, tool, realm, id, names, i, missing, roles);
        if got.role.id.Some? && got.role.name.Some? {
          roles := roles + [got.role];
        } else {
          missing := missing + [names[i]];
        }
      }
      assert names[..|names|] == names;
      return None, missing, roles, |names|;
    }

    /** Fetches the roles and, when all are complete, sends the one write. */
    method ResolveAndWrite(tool: RoleTool, change: Change, realm: string, id: string, names: seq<string>)
      returns (r: ToolResult, ghost n: nat)
      modifies this
      ensures n <= |names| + 1 && sent == old(sent) + AfterLookup(tool, change, realm, id, names)[..n]
      ensures r.Done? || r.RolesMissing? || r.InvalidPayload? || r.GatewayFailed?
      ensures r.Done? ==> n == |names| + 1
      ensures r.RolesMissing? ==> n == |names| && r.names == MissingNames(answer, tool, realm, id, names)
      ensures n > |names| <==> forall name | name in names :: Complete(answer(RoleRequest(tool, realm, id, name)))
      ensures n > |names| ==> r == if answer(WriteRequest(tool, change, realm, id)).Failed? then GatewayFailed else Done
      ensures r.Done? ==> mapped == Remapped(old(mapped), change, ObjectPath(tool, realm, id), RolesFor(answer, tool, realm, id, names))
      ensures mapped == old(mapped)
        || (n > |names| && mapped == Remapped(old(mapped), change, ObjectPath(tool, realm, id), RolesFor(answer, tool, realm, id, names)))
    {
      var roles;
      r, roles, n := ResolveRoles(tool, realm, id, names);
      ghost var requests := RoleRequests(tool, realm, id, names);
      ghost var all := AfterLookup(tool, change, realm, id, names);
      assert requests[..n] == all[..n];
      if r.Done? {
        var write := WriteRequest(tool, change, realm, id);
        assert all[..n] + [write] == all[..n + 1];
        WriteSpelled(tool, change, realm, id);
        FoundRoles(answer, tool, realm, id, names, roles);
        var written := WriteJson(write, roles);
        n := n + 1;
        if written.Failed? {
          r := GatewayFailed;
        }
      }
    }

    /** Runs a tool: it sends the first `n` requests of the full run, and all of it when it succeeds. */
    method RunRoleTool(tool: RoleTool, change: Change, realm: string, names: seq<string>)
      returns (r: ToolResult, ghost id: string, ghost n: nat)
      modifies this
      ensures names == [] <==> r == InvalidInput
      ensures n <= |FullRun(tool, change, realm, id, names)|
      ensures sent == old(sent) + FullRun(tool, change, realm, id, names)[..n]
      ensures names == [] ==> n == 0
      ensures r.Done? ==> n == |FullRun(tool, change, realm, id, names)|
      ensures r.RolesMissing? ==> n == |FullRun(tool, change, realm, id, names)| - 1
      ensures n == |FullRun(tool, change, realm, id, names)| <==>
        && names != [] && ResolvedId(tool, realm, answer).Ok?
        && forall name | name in names ::
             var got := answer(RoleRequest(tool, realm, id, name)); got.RoleFound? && got.role.id.Some? && got.role.name.Some?
      ensures n == |FullRun(tool, change, realm, id, names)| ==>
        r == if answer(WriteRequest(tool, change, realm, id)).Failed? then GatewayFailed else Done
      ensures r.Done? ==>
        var path, roles := ObjectPath(tool, realm, id), RolesFor(answer, tool, realm, id, names);
        && MappedAt(mapped, path) == (match change
             case Add => MappedAt(old(mapped), path) + roles
             case Remove => MappedAt(old(mapped), path) - roles)
        && forall other | other != path :: MappedAt(mapped, other) == MappedAt(old(mapped), other)
      ensures n < |FullRun(tool, change, realm, id, names)| ==> mapped == old(mapped)
      ensures mapped == old(mapped)
        || mapped == Remapped(old(mapped), change, ObjectPath(tool, realm, id), RolesFor(answer, tool, realm, id, names))
      ensures names != [] && ResolvedId(tool, realm, answer).Ok? ==> id == ResolvedId(tool, realm, answer).value
      ensures names != [] && ResolvedId(tool, realm, answer).Err? ==>
        r == ResolvedId(tool, realm, answer).error && n == |Lookup(tool, realm)|
    {
      id := if GivenId(tool).Some? then GivenId(tool).value else "";
      if names == [] {
        return InvalidInput, id, 0;
      }
      var found := ResolveId(tool, realm);
      if found.Err? {
        n := RunBegins(old(sent), tool, change, realm, id, names, 0);
        return found.error, id, n;
      }
      id := found.value;
      ghost var k: nat;
      r, k := ResolveAndWrite(tool, change, realm, found.value, names);
      n := RunBegins(old(sent), tool, change, realm, id, names, k);
    }
  }

  /** The mappings after a tool has added or removed roles at a path. */
  function Remapped(mapped: map<string, set<Role>>, change: Change, path: string, roles: set<Role>): map<string, set<Role>> {
    mapped[path := match change
      case Add => MappedAt(mapped, path) + roles
      case Remove => MappedAt(mapped, path) - roles]
  }

  /** The roles that the answers give for the names, in their order. */
  ghost predicate AreFound(answer: Sent -> Answer, tool: RoleTool, realm: string, id: string, names: seq<string>, roles: seq<Role>) {
    |roles| == |names| && forall i | 0 <= i < |names| :: answer(RoleRequest(tool, realm, id, names[i])) == RoleFound(roles[i])
  }

  lemma FoundSnoc(answer: Sent -> Answer, tool: RoleTool, realm: string, id: string, names: seq<string>, i: nat, roles: seq<Role>)
    requires i < |names|
    ensures var got := answer(RoleRequest(tool, realm, id, names[i]));
      AreFound(answer, tool, realm, id, names[..i], roles) && got.RoleFound? ==>
        AreFound(answer, tool, realm, id, names[..i + 1], roles + [got.role])
  {
    assert names[..i + 1] == names[..i] + [names[i]];
  }

  /** What the requests for these names have brought, when none of them stopped the tool. */
  ghost predicate Fetched(answer: Sent -> Answer, tool: RoleTool, realm: string, id: string,
                          names: seq<string>, missing: seq<string>, roles: seq<Role>) {
    && missing == MissingNames(answer, tool, realm, id, names)
    && (tool.Composites? ==> missing == [])
    && (missing == [] ==> AreFound(answer, tool, realm, id, names, roles))
    && forall j | 0 <= j < |names| :: answer(RoleRequest(tool, realm, id, names[j])).RoleFound?
  }

  lemma FetchedSnoc(answer: Sent -> Answer, tool: RoleTool, realm: string, id: string, names: seq<string>, i: nat,
                    missing: seq<string>, roles: seq<Role>)
    requires i < |names| && Fetched(answer, tool, realm, id, names[..i], missing, roles)
    requires var got := answer(RoleRequest(tool, realm, id, names[i])); got.RoleFound? && (tool.Composites? ==> Complete(got))
    ensures var got := answer(RoleRequest(tool, realm, id, names[i]));
      Fetched(answer, tool, realm, id, names[..i + 1],
              if Complete(got) then missing else missing + [names[i]], if Complete(got) then roles + [got.role] else roles)
  {
    MissingSnoc(answer, tool, realm, id, names, i);
    FoundSnoc(answer, tool, realm, id, names, i, roles);
    assert names[..i + 1] == names[..i] + [names[i]];
  }

  lemma RequestsSnoc(tool: RoleTool, realm: string, id: string, names: seq<string>, i: nat)
    requires i < |names|
    ensures RoleRequests(tool, realm, id, names)[..i + 1]
      == RoleRequests(tool, realm, id, names)[..i] + [RoleRequest(tool, realm, id, names[i])]
  {}

  lemma FoundRoles(answer: Sent -> Answer, tool: RoleTool, realm: string, id: string, names: seq<string>, roles: seq<Role>)
    requires AreFound(answer, tool, realm, id, names, roles)
    ensures Set(roles) == RolesFor(answer, tool, realm, id, names)
  {
    forall role | role in roles ensures role in RolesFor(answer, tool, realm, id, names) {
      var i :| 0 <= i < |roles| && roles[i] == role;
      assert names[i] in names;
    }
    forall role | role in RolesFor(answer, tool, realm, id, names) ensures role in roles {
      var name :| name in names && answer(RoleRequest(tool, realm, id, name)) == RoleFound(role);
      var i :| 0 <= i < |names| && names[i] == name;
      assert roles[i] == role;
    }
  }

  predicate HasName(a: Answer, name: string) {
    Complete(a) && a.role.name == Some(name)
  }

  /** Where the server answers with roles of the names asked for, those names are what is mapped. */
  lemma NamesAreMapped(answer: Sent -> Answer, tool: RoleTool, realm: string, id: string, names: seq<string>, name: string)
    requires forall n | n in names :: HasName(answer(RoleRequest(tool, realm, id, n)), n)
    ensures name in names <==> exists role :: role in RolesFor(answer, tool, realm, id, names) && role.name == Some(name)
  {
    if name in names {
      assert answer(RoleRequest(tool, realm, id, name)).role in RolesFor(answer, tool, realm, id, names);
    }
  }

  /** Removing what an add has newly mapped restores every mapping, and adding again what a remove took away. */
  lemma ChangesUndo(mapped: map<string, set<Role>>, path: string, roles: set<Role>, other: string)
    ensures MappedAt(mapped, path) !! roles ==>
      MappedAt(Remapped(Remapped(mapped, Add, path, roles), Remove, path, roles), other) == MappedAt(mapped, other)
    ensures roles <= MappedAt(mapped, path) ==>
      MappedAt(Remapped(Remapped(mapped, Remove, path, roles), Add, path, roles), other) == MappedAt(mapped, other)
  {
    var now := MappedAt(mapped, path);
    assert now !! roles ==> now + roles - roles == now;
    assert roles <= now ==> now - roles + roles == now;
  }

  lemma TakePast<T>(before: seq<T>, a: seq<T>, b: seq<T>, k: nat)
    requires k <= |b|
    ensures before + (a + b)[..|a| + k] == before + a + b[..k]
    ensures before + (a + b)[..|a|] == before + a
  {
    assert (a + b)[..|a| + k] == a + b[..k];
    assert (a + b)[..|a|] == a;
  }

  lemma RunBegins(before: seq<Sent>, tool: RoleTool, change: Change, realm: string, id: string, names: seq<string>, k: nat)
    returns (n: nat)
    requires k <= |names| + 1
    ensures n == |Lookup(tool, realm)| + k
    ensures before + FullRun(tool, change, realm, id, names)[..n]
      == before + Lookup(tool, realm) + AfterLookup(tool, change, realm, id, names)[..k]
    ensures k == 0 ==> before + FullRun(tool, change, realm, id, names)[..n] == before + Lookup(tool, realm)
  {
    TakePast(before, Lookup(tool, realm), AfterLookup(tool, change, realm, id, names), k);
    n := |Lookup(tool, realm)| + k;
  }

  lemma NoneMissing(answer: Sent -> Answer, tool: RoleTool, realm: string, id: string, names: seq<string>)
    requires forall j | 0 <= j < |names| :: answer(RoleRequest(tool, realm, id, names[j])).RoleFound?
    ensures MissingNames(answer, tool, realm, id, names) == []
      <==> forall name | name in names :: Complete(answer(RoleRequest(tool, realm, id, name)))
  {
    var p := (name: string) => Incomplete(answer(RoleRequest(tool, realm, id, name)));
    FilterMembers(p, names);
    FilterCongruent(p, name => Incomplete(answer(RoleRequest(tool, realm, id, name))), names);
    var missing := MissingNames(answer, tool, realm, id, names);
    if missing != [] {
      assert missing[0] in missing;
    }
  }

  lemma MissingSnoc(answer: Sent -> Answer, tool: RoleTool, realm: string, id: string, names: seq<string>, i: nat)
    requires i < |names|
    ensures MissingNames(answer, tool, realm, id, names[..i + 1]) == MissingNames(answer, tool, realm, id, names[..i])
      + (if Incomplete(answer(RoleRequest(tool, realm, id, names[i]))) then [names[i]] else [])
  {
    assert names[..i + 1] == names[..i] + [names[i]];
    FilterConcat(name => Incomplete(answer(RoleRequest(tool, realm, id, name))), names[..i], [names[i]]);
  }
}
