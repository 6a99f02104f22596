/** Turning the ids and names in a tool's arguments into the ids the server uses. */
module Resolution {
  import opened Options
  import opened Sequences
  import opened Sorting
  import opened ScopeLookup
  import opened ScopePlan

  // ---- Client scopes ----------------------------------------------------------------------

  /** The tokens of a call: those given as ids, and those given as names. */
  datatype Tokens = Tokens(ids: seq<string>, names: seq<string>)

  function Listed(one: Option<string>, many: Option<seq<string>>): seq<string> {
    (if one.Some? then [one.value] else []) + (if many.Some? then many.value else [])
  }

  ghost function Found(mean: string -> Option<string>, tokens: seq<string>): set<string> {
    set token | token in tokens && mean(token).Some? :: mean(token).value
  }

  ghost function Labels(mean: string -> Option<string>, prefix: string, tokens: seq<string>): set<string> {
    set token | token in tokens && mean(token).None? :: prefix + token
  }

  /** What the tokens mean, given what one token means. */
  ghost function Meanings(mean: string -> Option<string>, t: Tokens): set<string> {
    Found(mean, t.ids) + Found(mean, t.names)
  }

  /** How the tokens without a meaning are reported. */
  ghost function MissingLabels(mean: string -> Option<string>, t: Tokens): set<string> {
    Labels(mean, "scope_id:", t.ids) + Labels(mean, "", t.names)
  }

  method CollectTokens(mean: string -> Option<string>, tokens: seq<string>, prefix: string,
                       found: set<string>, missing: seq<string>)
    returns (found': set<string>, missing': seq<string>)
    ensures found' == found + Found(mean, tokens)
    ensures Set(missing') == Set(missing) + Labels(mean, prefix, tokens)
  {
    found', missing' := found, missing;
    for i := 0 to |tokens|
      invariant found' == found + Found(mean, tokens[..i])
      invariant Set(missing') == Set(missing) + Labels(mean, prefix, tokens[..i])
    {
      TokenSnoc(mean, prefix, tokens, i);
      var id := mean(tokens[i]);
      if id.Some? {
        found' := found' + {id.value};
      } else {
        SetSnoc(missing', prefix + tokens[i]);
        missing' := missing' + [prefix + tokens[i]];
      }
    }
    assert tokens[..|tokens|] == tokens;
  }

  lemma TokenSnoc(mean: string -> Option<string>, prefix: string, tokens: seq<string>, i: nat)
    requires i < |tokens|
    ensures Found(mean, tokens[..i + 1])
      == Found(mean, tokens[..i]) + (if mean(tokens[i]).Some? then {mean(tokens[i]).value} else {})
    ensures Labels(mean, prefix, tokens[..i + 1])
      == Labels(mean, prefix, tokens[..i]) + (if mean(tokens[i]).None? then {prefix + tokens[i]} else {})
  {
    assert tokens[..i + 1] == tokens[..i] + [tokens[i]];
  }

  lemma SetSnoc<T>(s: seq<T>, x: T)
    ensures Set(s + [x]) == Set(s) + {x}
  {}

  /** A hash set becomes a sorted list: its elements in some order, then sorted. */
  method SortedIds(found: set<string>) returns (ids: seq<string>)
    ensures Strict(ids) && Set(ids) == found
  {
    ids := [];
    var rest := found;
    while rest != {}
      invariant Set(ids) + rest == found
      decreases |rest|
    {
      var id :| id in rest;
      SetSnoc(ids, id);
      ids, rest := ids + [id], rest - {id};
    }
    NormalizeCanonical(ids);
    ids := Normalize(ids);
  }

  function Meaning(canon: Canon, lookup: Lookup): string -> Option<string> {
    (token: string) => Resolve(canon, token, lookup)
  }

  /** The token is one of a call's arguments, given alone or in the list. */
  predicate Given(token: string, one: Option<string>, many: Option<seq<string>>) {
    one == Some(token) || (many.Some? && token in many.value)
  }

  lemma ListedAreGiven(one: Option<string>, many: Option<seq<string>>)
    ensures forall token :: token in Listed(one, many) <==> Given(token, one, many)
  {}

  /** Every token is either resolved or reported; both lists come out sorted and without repeats. */
  method ResolveScopeIds(canon: Canon, lookup: Lookup, scopeId: Option<string>, scopeIds: Option<seq<string>>,
                         scopeName: Option<string>, scopeNames: Option<seq<string>>)
    returns (ids: seq<string>, missing: seq<string>)
    ensures var t := Tokens(Listed(scopeId, scopeIds), Listed(scopeName, scopeNames));
      && Strict(ids) && Set(ids) == Meanings(Meaning(canon, lookup), t)
      && Strict(missing) && Set(missing) == MissingLabels(Meaning(canon, lookup), t)
    ensures forall id :: id in ids <==> exists token ::
      (Given(token, scopeId, scopeIds) || Given(token, scopeName, scopeNames)) && Resolve(canon, token, lookup) == Some(id)
    ensures forall text :: text in missing <==>
      || (exists token :: Given(token, scopeId, scopeIds) && Resolve(canon, token, lookup) == None && text == "scope_id:" + token)
      || (Given(text, scopeName, scopeNames) && Resolve(canon, text, lookup) == None)
  {
    var mean := Meaning(canon, lookup);
    var found: set<string> := {};
    found, missing := CollectTokens(mean, Listed(scopeId, scopeIds), "scope_id:", found, []);
    found, missing := CollectTokens(mean, Listed(scopeName, scopeNames), "", found, missing);
    NormalizeCanonical(missing);
    missing := Normalize(missing);
    ids := SortedIds(found);
    ListedAreGiven(scopeId, scopeIds);
    ListedAreGiven(scopeName, scopeNames);
    ListsMean(canon, lookup, Tokens(Listed(scopeId, scopeIds), Listed(scopeName, scopeNames)), ids, missing);
  }

  lemma ListsMean(canon: Canon, lookup: Lookup, t: Tokens, ids: seq<string>, missing: seq<string>)
    requires Set(ids) == Meanings(Meaning(canon, lookup), t)
    requires Set(missing) == MissingLabels(Meaning(canon, lookup), t)
    ensures forall id :: id in ids <==> exists token ::
      (token in t.ids || token in t.names) && Resolve(canon, token, lookup) == Some(id)
    ensures forall text :: text in missing <==>
      || (exists token :: token in t.ids && Resolve(canon, token, lookup) == None && text == "scope_id:" + token)
      || (text in t.names && Resolve(canon, text, lookup) == None)
  {
    var mean := Meaning(canon, lookup);
    forall id ensures id in ids <==> exists token ::
      (token in t.ids || token in t.names) && Resolve(canon, token, lookup) == Some(id)
    {
      assert id in ids <==> id in Set(ids);
      assert forall token :: mean(token) == Resolve(canon, token, lookup);
    }
    forall text ensures text in missing <==>
      || (exists token :: token in t.ids && Resolve(canon, token, lookup) == None && text == "scope_id:" + token)
      || (text in t.names && Resolve(canon, text, lookup) == None)
    {
      assert text in missing <==> text in Set(missing);
      assert forall token :: mean(token) == Resolve(canon, token, lookup);
      assert forall token: string :: "" + token == token;
    }
  }

  /**
    From names to bindings: a replace whose tokens all resolve leaves bound exactly the scopes that
    those tokens mean on the server, and no shorter sequence of requests does.
   */
  lemma ReplaceByTokens(canon: Canon, all: seq<Item>, lookup: Lookup, t: Tokens, existing: seq<string>, ids: seq<string>,
                        others: seq<Mutation>)
    requires AllParsed(all) && Collect(Honest(all), 0, 0).Ok?
    requires forall token :: Resolve(canon, token, lookup) == Scan(canon, token, Collect(Honest(all), 0, 0).value)
    requires Set(ids) == Meanings(Meaning(canon, lookup), t)
    ensures var wanted := Meanings(token => Scan(canon, token, Parse(all)), t);
      var requests := Requests(PlanOf(ReplaceTool, existing, ids));
      && ApplyAll(Set(existing), requests) == wanted
      && (ApplyAll(Set(existing), others) == wanted ==> |requests| <= |others|)
  {
    forall token ensures Resolve(canon, token, lookup) == Scan(canon, token, Parse(all)) {
      PagedScanIsServerScan(canon, all, token);
    }
    SameMeanings(Meaning(canon, lookup), token => Scan(canon, token, Parse(all)), t);
    ToolConverges(ReplaceTool, existing, ids, others);
  }

  lemma SameMeanings(f: string -> Option<string>, g: string -> Option<string>, t: Tokens)
    requires forall token :: f(token) == g(token)
    ensures Meanings(f, t) == Meanings(g, t)
  {}

  // ---- Clients ----------------------------------------------------------------------------

  datatype Client = Client(id: Option<string>, clientId: Option<string>)

  datatype Ambiguous = Ambiguous(matches: seq<string>)

  /** The internal ids of the clients with this client id, as they come in. */
  function IdsOf(clients: seq<Client>, clientId: string): seq<string> {
    if clients == [] then []
    else
      (if clients[0].clientId == Some(clientId) && clients[0].id.Some? then [clients[0].id.value] else [])
      + IdsOf(clients[1..], clientId)
  }

  function ResolveClientId(canon: Canon, id: Option<string>, clientId: Option<string>, answer: seq<Client>)
    : Result<Option<string>, Ambiguous>
  {
    if id.Some? then Ok(Some(CanonicalId(canon, id.value)))
    else if clientId.None? then Ok(None)
    else
      var matches := Normalize(IdsOf(answer, clientId.value));
      if |matches| > 1 then Err(Ambiguous(matches))
      else if matches == [] then Ok(None)
      else Ok(Some(matches[0]))
  }

  lemma {:induction false} IdsOfMembers(clients: seq<Client>, clientId: string, id: string)
    ensures id in IdsOf(clients, clientId) <==> Client(Some(id), Some(clientId)) in clients
  {
    if clients != [] {
      IdsOfMembers(clients[1..], clientId, id);
      assert clients == [clients[0]] + clients[1..];
    }
  }

  /** The internal ids that the answer has for the client id. */
  function IdsFor(clientId: string, answer: seq<Client>): set<string> {
    set c | c in answer && c.clientId == Some(clientId) && c.id.Some? :: c.id.value
  }

  /**
    A client id resolves exactly when the answer has one internal id for it, however often and in
    whatever order; several ids are an error that lists each once.
   */
  lemma ClientIdResolvesExactly(canon: Canon, clientId: string, answer: seq<Client>)
    ensures var matches := IdsFor(clientId, answer);
      match ResolveClientId(canon, None, Some(clientId), answer)
      case Ok(Some(id)) => matches == {id}
      case Ok(None) => matches == {}
      case Err(e) => Strict(e.matches) && Set(e.matches) == matches && |matches| > 1
  {
    var ids := IdsOf(answer, clientId);
    var matches := Normalize(ids);
    NormalizeCanonical(ids);
    StrictSize(matches);
    forall id ensures id in Set(ids) <==> id in IdsFor(clientId, answer) {
      IdsOfMembers(answer, clientId, id);
    }
    assert Set(ids) == IdsFor(clientId, answer);
    if |matches| == 1 {
      assert matches == [matches[0]];
      assert Set([matches[0]]) == {matches[0]};
    }
  }

  /** A given id is used, in its canonical form if it has one, and nothing given resolves to nothing. */
  lemma GivenIdIsUsed(canon: Canon, id: string, clientId: Option<string>, answer: seq<Client>)
    ensures ResolveClientId(canon, Some(id), clientId, answer)
      == Ok(Some(if canon(id).Some? then canon(id).value else id))
    ensures ResolveClientId(canon, None, None, answer) == Ok(None)
  {}

  /** Two answers with the same clients, in any order and with any repeats, resolve alike. */
  lemma AnswerOrderIrrelevant(canon: Canon, id: Option<string>, clientId: Option<string>, a: seq<Client>, b: seq<Client>)
    requires forall c :: c in a <==> c in b
    ensures ResolveClientId(canon, id, clientId, a) == ResolveClientId(canon, id, clientId, b)
  {
    if clientId.Some? {
      forall x ensures x in IdsOf(a, clientId.value) <==> x in IdsOf(b, clientId.value) {
        IdsOfMembers(a, clientId.value, x);
        IdsOfMembers(b, clientId.value, x);
      }
      NormalizeOfSet(IdsOf(a, clientId.value), IdsOf(b, clientId.value));
    }
  }
}
