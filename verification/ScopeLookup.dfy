/**
  The client-scope index: fetching every scope page by page, then answering id and name lookups from
  two maps.

  UUID parsing is the parameter `canon`: the canonical text of an id, or `None`.
 */
module ScopeLookup {
  import opened Options
  import opened Sequences

  const U32_MAX := 4294967295
  const PAGE := 100

  datatype Scope = Scope(id: Option<string>, name: Option<string>)

  /** An element of a listing, as far as it parses. */
  datatype Item = Parsed(scope: Scope) | Unparsable

  datatype LookupError = GatewayFailed | CursorStuck

  /** What the server answers to its `call`-th request, for the page at `first`. */
  type Server = (nat, nat) -> Option<seq<Item>>

  type Canon = string -> Option<string>

  function Parse(items: seq<Item>): seq<Scope> {
    if items == [] then []
    else (if items[0].Parsed? then [items[0].scope] else []) + Parse(items[1..])
  }

  function SaturatingAdd(a: nat, b: nat): nat {
    if a + b > U32_MAX then U32_MAX else a + b
  }

  function Prepend(page: seq<Scope>, rest: Result<seq<Scope>, LookupError>): Result<seq<Scope>, LookupError> {
    match rest
    case Ok(scopes) => Ok(page + scopes)
    case Err(e) => Err(e)
  }

  /** What the paging loop collects from the cursor `first` on. */
  function Collect(server: Server, call: nat, first: nat): Result<seq<Scope>, LookupError>
    requires first <= U32_MAX
    decreases U32_MAX - first
  {
    match server(call, first)
    case None => Err(GatewayFailed)
    case Some(items) =>
      var page := Parse(items);
      var next := SaturatingAdd(first, PAGE);
      if |page| < PAGE then Ok(page)
      else if next <= first then Err(CursorStuck)
      else Prepend(page, Collect(server, call + 1, next))
  }

  /** The cursor of the `k`-th request: a hundred further each time, up to the largest `u32`. */
  function CursorOf(k: nat): nat {
    if 100 * k > 4294967295 then 4294967295 else 100 * k
  }

  /** The loop ends for every server, within a request for each step the cursor can take. */
  method LoadScopes(server: Server) returns (r: Result<seq<Scope>, LookupError>, requests: nat)
    ensures r == Collect(server, 0, 0)
    ensures 0 < requests <= U32_MAX / PAGE + 2
    ensures r == Err(GatewayFailed) <==> server(requests - 1, CursorOf(requests - 1)) == None
    ensures forall k: nat | k < requests - 1 :: server(k, CursorOf(k)).Some?
  {
    var scopes: seq<Scope>, first := [], 0;
    requests := 0;
    assert match Collect(server, 0, 0) case Ok(all) => [] + all == all case Err(_) => true;
    while true
      invariant first <= U32_MAX
      invariant first == CursorOf(requests)
      invariant first == U32_MAX ==> requests <= U32_MAX / PAGE + 1
      invariant forall k: nat | k < requests :: server(k, CursorOf(k)).Some?
      invariant Collect(server, 0, 0) == Prepend(scopes, Collect(server, requests, first))
      decreases U32_MAX - first
    {
      var payload := server(requests, first);
      ghost var rest := Collect(server, requests, first);
      requests := requests + 1;
      if payload.None? {
        return Err(GatewayFailed), requests;
      }
      var page := Parse(payload.value);
      ghost var before := scopes;
      scopes := scopes + page;
      if |page| < PAGE {
        return Ok(scopes), requests;
      }
      var next := SaturatingAdd(first, PAGE);
      if next <= first {
        return Err(CursorStuck), requests;
      }
      first := next;
      assert Prepend(before, rest) == Prepend(scopes, Collect(server, requests, first)) by {
        match Collect(server, requests, first)
        case Ok(more) => assert before + (page + more) == before + page + more;
        case Err(_) =>
      }
    }
  }

  // ---- An honest server -------------------------------------------------------------------

  function PageAt(all: seq<Item>, first: nat): seq<Item> {
    if first >= |all| then []
    else if first + PAGE >= |all| then all[first..]
    else all[first..first + PAGE]
  }

  /** A server that holds `all` and answers every request from it. */
  function Honest(all: seq<Item>): Server {
    (call: nat, first: nat) => Some(PageAt(all, first))
  }

  ghost predicate AllParsed(all: seq<Item>) {
    forall i | 0 <= i < |all| :: all[i].Parsed?
  }

  lemma {:induction false} ParseConcat(a: seq<Item>, b: seq<Item>)
    ensures Parse(a + b) == Parse(a) + Parse(b)
  {
    if a == [] {
      assert a + b == b;
    } else {
      var head := if a[0].Parsed? then [a[0].scope] else [];
      assert (a + b)[1..] == a[1..] + b;
      ParseConcat(a[1..], b);
      assert head + (Parse(a[1..]) + Parse(b)) == (head + Parse(a[1..])) + Parse(b);
    }
  }

  lemma ParseOne(item: Item)
    ensures Parse([item]) == if item.Parsed? then [item.scope] else []
  {
    assert [item][1..] == [];
  }

  lemma {:induction false} ParseLength(items: seq<Item>)
    ensures |Parse(items)| <= |items|
    ensures AllParsed(items) <==> |Parse(items)| == |items|
  {
    if items != [] {
      ParseLength(items[1..]);
      if AllParsed(items[1..]) && items[0].Parsed? {
        forall i | 0 <= i < |items| ensures items[i].Parsed? {
          assert i > 0 ==> items[i] == items[1..][i - 1];
        }
      } else if !AllParsed(items[1..]) {
        var i :| 0 <= i < |items[1..]| && !items[1..][i].Parsed?;
        assert !items[i + 1].Parsed?;
      }
    }
  }

  /** The last cursor before the u32 limit, and the list lengths at which paging changes its answer. */
  const LAST_ALIGNED := 4294967200
  const EXACT_BELOW := LAST_ALIGNED + PAGE
  const STUCK_FROM := U32_MAX + PAGE

  /** The end of the first page with fewer than a hundred parsed items, before the cursor saturates. */
  function ShortPage(all: seq<Item>, first: nat): (end: Option<nat>)
    requires first <= |all| && first <= EXACT_BELOW && first % PAGE == 0
    ensures end.Some? ==> first <= end.value <= |all|
    ensures end.None? ==> EXACT_BELOW <= |all|
    decreases EXACT_BELOW - first
  {
    if first > LAST_ALIGNED then None
    else if first + PAGE > |all| then Some(|all|)
    else if |Parse(PageAt(all, first))| < PAGE then Some(first + PAGE)
    else ShortPage(all, first + PAGE)
  }

  /** What paging from `first` yields: up to a short page, or on to the page at the saturated cursor. */
  function Paged(all: seq<Item>, first: nat): Result<seq<Scope>, LookupError>
    requires first <= |all| && first <= EXACT_BELOW && first % PAGE == 0
  {
    match ShortPage(all, first)
    case Some(end) => Ok(Parse(all[first..end]))
    case None =>
      var repeated := Parse(PageAt(all, U32_MAX));
      if |repeated| < PAGE then Ok(Parse(all[first..EXACT_BELOW]) + repeated) else Err(CursorStuck)
  }

  lemma ParseParts(all: seq<Item>, first: nat, next: nat, end: nat)
    requires first <= next <= end <= |all|
    ensures Parse(all[first..end]) == Parse(all[first..next]) + Parse(all[next..end])
  {
    assert all[first..end] == all[first..next] + all[next..end];
    ParseConcat(all[first..next], all[next..end]);
  }

  /** A full page in front of what paging yields from the next cursor on. */
  lemma PagedStep(all: seq<Item>, first: nat)
    requires first <= LAST_ALIGNED && first % PAGE == 0 && first + PAGE <= |all| && |Parse(PageAt(all, first))| == PAGE
    ensures Paged(all, first) == Prepend(Parse(PageAt(all, first)), Paged(all, first + PAGE))
  {
    var next := first + PAGE;
    assert PageAt(all, first) == all[first..next];
    match ShortPage(all, next)
    case Some(end) =>
      ParseParts(all, first, next, end);
    case None =>
      ParseParts(all, first, next, EXACT_BELOW);
      Associates(Parse(all[first..next]), Parse(all[next..EXACT_BELOW]), Parse(PageAt(all, U32_MAX)));
  }

  lemma Associates<T>(a: seq<T>, b: seq<T>, c: seq<T>)
    ensures a + b + c == a + (b + c)
  {}

  lemma Cancels<T>(a: seq<T>, b: seq<T>, c: seq<T>)
    ensures a + b == a + c <==> b == c
  {
    assert b == (a + b)[|a|..] && c == (a + c)[|a|..];
  }

  lemma ShortIsLast(all: seq<Item>, first: nat)
    requires first <= |all| && first <= LAST_ALIGNED && first % PAGE == 0 && |Parse(PageAt(all, first))| < PAGE
    ensures Paged(all, first) == Ok(Parse(PageAt(all, first)))
  {
    var end := if first + PAGE > |all| then |all| else first + PAGE;
    assert PageAt(all, first) == all[first..end];
  }

  lemma {:induction false} HonestPages(all: seq<Item>, call: nat, first: nat)
    requires first <= |all| && first <= LAST_ALIGNED && first % PAGE == 0
    ensures Collect(Honest(all), call, first) == Paged(all, first)
    decreases |all| - first
  {
    ParseLength(PageAt(all, first));
    if |Parse(PageAt(all, first))| < PAGE {
      ShortIsLast(all, first);
    } else {
      PagedStep(all, first);
      if first < LAST_ALIGNED {
        HonestPages(all, call + 1, first + PAGE);
      } else {
        SaturatedPage(all, call + 1);
      }
    }
  }

  lemma SaturatedPage(all: seq<Item>, call: nat)
    requires |all| >= EXACT_BELOW
    ensures Collect(Honest(all), call, U32_MAX) == Paged(all, EXACT_BELOW)
  {
    assert Parse(all[EXACT_BELOW..EXACT_BELOW]) == [];
    assert [] + Parse(PageAt(all, U32_MAX)) == Parse(PageAt(all, U32_MAX));
  }

  /**
    An item that does not parse shortens its page, and a short page ends the loop: the result is all
    that parses if and only if nothing that parses comes after the first such page. Without one the
    page at the saturated cursor comes on top, or, when it is full as well, an error.
   */
  lemma PagingWithUnparsable(all: seq<Item>)
    ensures var r, repeated := Collect(Honest(all), 0, 0), Parse(PageAt(all, U32_MAX));
      match ShortPage(all, 0)
      case Some(end) => r == Ok(Parse(all[..end])) && (r == Ok(Parse(all)) <==> Parse(all[end..]) == [])
      case None =>
        && r == (if |repeated| < PAGE then Ok(Parse(all[..EXACT_BELOW]) + repeated) else Err(CursorStuck))
        && (r == Ok(Parse(all)) <==> |repeated| < PAGE && repeated == Parse(all[EXACT_BELOW..]))
  {
    HonestPages(all, 0, 0);
    match ShortPage(all, 0)
    case Some(end) =>
      assert all[0..end] == all[..end];
      ParseSplit(all, end);
    case None =>
      assert all[0..EXACT_BELOW] == all[..EXACT_BELOW];
      ParseSplit(all, EXACT_BELOW);
      Cancels(Parse(all[..EXACT_BELOW]), Parse(PageAt(all, U32_MAX)), Parse(all[EXACT_BELOW..]));
  }

  lemma ParseSplit(all: seq<Item>, cut: nat)
    requires cut <= |all|
    ensures Parse(all) == Parse(all[..cut]) + Parse(all[cut..])
    ensures Parse(all[..cut]) == Parse(all) <==> Parse(all[cut..]) == []
  {
    assert all == all[..cut] + all[cut..];
    ParseConcat(all[..cut], all[cut..]);
    assert |Parse(all)| == |Parse(all[..cut])| + |Parse(all[cut..])|;
  }

  lemma {:induction false} FullPages(all: seq<Item>, first: nat)
    requires AllParsed(all) && first <= |all| && first <= EXACT_BELOW && first % PAGE == 0
    ensures ShortPage(all, first) == if |all| < EXACT_BELOW then Some(|all|) else None
    decreases EXACT_BELOW - first
  {
    if first <= LAST_ALIGNED && first + PAGE <= |all| {
      ParseLength(PageAt(all, first));
      FullPages(all, first + PAGE);
    }
  }

  /**
    When everything parses, paging returns the list exactly once and in order if and only if the
    list ends before the page that the saturated cursor would repeat; the five items that page has
    in common with the one before it are then returned twice, and longer lists are an error.
   */
  lemma PagingExact(all: seq<Item>)
    requires AllParsed(all)
    ensures var r := Collect(Honest(all), 0, 0);
      && (r == Ok(Parse(all)) <==> |all| < 4294967300)
      && (4294967300 <= |all| < 4294967395 ==> r == Ok(Parse(all[..4294967300] + all[4294967295..])))
      && (|all| >= 4294967395 ==> r == Err(CursorStuck))
  {
    PagingWithUnparsable(all);
    FullPages(all, 0);
    if |all| < EXACT_BELOW {
      assert all[..|all|] == all;
    } else {
      RepeatedPage(all);
      RepeatsAreLonger(all);
    }
  }

  lemma RepeatedPage(all: seq<Item>)
    requires AllParsed(all) && |all| >= EXACT_BELOW
    ensures |Parse(PageAt(all, U32_MAX))| < PAGE <==> |all| < STUCK_FROM
    ensures |all| < STUCK_FROM
      ==> Parse(all[..EXACT_BELOW]) + Parse(PageAt(all, U32_MAX)) == Parse(all[..EXACT_BELOW] + all[U32_MAX..])
  {
    ParseLength(PageAt(all, U32_MAX));
    ParseConcat(all[..EXACT_BELOW], all[U32_MAX..]);
  }

  lemma RepeatsAreLonger(all: seq<Item>)
    requires AllParsed(all) && |all| >= EXACT_BELOW
    ensures |Parse(all[..EXACT_BELOW] + all[U32_MAX..])| > |Parse(all)|
  {
    ParseLength(all);
    ParseLength(all[..EXACT_BELOW] + all[U32_MAX..]);
  }

  /** One unparsable scope on the first page hides every scope on the later pages. */
  lemma UnparsableHidesLaterPages(scope: Scope)
    ensures var good := seq(PAGE, i requires 0 <= i < PAGE => Parsed(scope));
      var r := Collect(Honest([Unparsable] + good), 0, 0);
      r.Ok? && |r.value| == PAGE - 1 && |Parse([Unparsable] + good)| == PAGE
  {
    var good := seq(PAGE, i requires 0 <= i < PAGE => Parsed(scope));
    var all := [Unparsable] + good;
    assert PageAt(all, 0) == [Unparsable] + good[..PAGE - 1];
    assert (all[1..]) == good;
    ParseLength(good);
    ParseLength(good[..PAGE - 1]);
    assert ([Unparsable] + good[..PAGE - 1])[1..] == good[..PAGE - 1];
  }

  // ---- The two maps -----------------------------------------------------------------------

  datatype Lookup = Lookup(byId: map<string, string>, byName: map<string, string>)

  function CanonicalId(canon: Canon, id: string): string {
    if canon(id).Some? then canon(id).value else id
  }

  function Get(m: map<string, string>, key: string): Option<string> {
    if key in m then Some(m[key]) else None
  }

  function Resolve(canon: Canon, token: string, lookup: Lookup): Option<string> {
    var byId := if canon(token).Some? then Get(lookup.byId, canon(token).value) else None;
    if byId.Some? then byId else Get(lookup.byName, token)
  }

  predicate HasId(canon: Canon, s: Scope, key: string) {
    s.id.Some? && CanonicalId(canon, s.id.value) == key
  }

  predicate HasName(s: Scope, name: string) {
    s.id.Some? && s.name == Some(name)
  }

  /** A scan for the last scope with the canonical id `key`. */
  function LastById(canon: Canon, scopes: seq<Scope>, key: string): Option<string> {
    if scopes == [] then None
    else
      var last := scopes[|scopes| - 1];
      if HasId(canon, last, key) then last.id else LastById(canon, scopes[..|scopes| - 1], key)
  }

  /** A scan for the first scope, among those with an id, named `name`. */
  function FirstByName(scopes: seq<Scope>, name: string): Option<string> {
    if scopes == [] then None
    else if HasName(scopes[0], name) then scopes[0].id
    else FirstByName(scopes[1..], name)
  }

  /** The last scope whose canonical id is the key, by its place in the list. */
  lemma {:induction false} LastByIdMeans(canon: Canon, scopes: seq<Scope>, key: string, i: nat)
    requires i < |scopes| && scopes[i].id.Some? && CanonicalId(canon, scopes[i].id.value) == key
    requires forall j | i < j < |scopes| :: scopes[j].id.Some? ==> CanonicalId(canon, scopes[j].id.value) != key
    ensures LastById(canon, scopes, key) == scopes[i].id
    decreases |scopes|
  {
    if i < |scopes| - 1 {
      LastByIdMeans(canon, scopes[..|scopes| - 1], key, i);
    }
  }

  lemma {:induction false} NoneById(canon: Canon, scopes: seq<Scope>, key: string)
    requires forall s | s in scopes :: s.id.Some? ==> CanonicalId(canon, s.id.value) != key
    ensures LastById(canon, scopes, key) == None
    decreases |scopes|
  {
    if scopes != [] {
      assert scopes[|scopes| - 1] in scopes;
      NoneById(canon, scopes[..|scopes| - 1], key);
    }
  }

  /** The first scope with an id that has the name, by its place in the list. */
  lemma {:induction false} FirstByNameMeans(scopes: seq<Scope>, name: string, i: nat)
    requires i < |scopes| && scopes[i].id.Some? && scopes[i].name == Some(name)
    requires forall j | 0 <= j < i :: scopes[j].id.Some? ==> scopes[j].name != Some(name)
    ensures FirstByName(scopes, name) == scopes[i].id
  {
    if i > 0 {
      FirstByNameMeans(scopes[1..], name, i - 1);
    }
  }

  lemma {:induction false} NoneByName(scopes: seq<Scope>, name: string)
    requires forall s | s in scopes :: s.id.Some? ==> s.name != Some(name)
    ensures FirstByName(scopes, name) == None
  {
    if scopes != [] {
      assert scopes[0] in scopes;
      NoneByName(scopes[1..], name);
    }
  }

  /** What a token means for a list of scopes. */
  function Scan(canon: Canon, token: string, scopes: seq<Scope>): Option<string> {
    var byId := if canon(token).Some? then LastById(canon, scopes, canon(token).value) else None;
    if byId.Some? then byId else FirstByName(scopes, token)
  }

  lemma {:induction false} FirstByNameConcat(a: seq<Scope>, b: seq<Scope>, name: string)
    ensures FirstByName(a + b, name)
         == if FirstByName(a, name).Some? then FirstByName(a, name) else FirstByName(b, name)
  {
    if a == [] {
      assert a + b == b;
    } else {
      assert (a + b)[1..] == a[1..] + b;
      FirstByNameConcat(a[1..], b, name);
    }
  }

  lemma {:induction false} LastByIdConcat(canon: Canon, a: seq<Scope>, b: seq<Scope>, key: string)
    ensures LastById(canon, a + b, key)
         == if LastById(canon, b, key).Some? then LastById(canon, b, key) else LastById(canon, a, key)
  {
    if b == [] {
      assert a + b == a;
    } else {
      var n := |b| - 1;
      assert (a + b)[..|a + b| - 1] == a + b[..n];
      LastByIdConcat(canon, a, b[..n], key);
    }
  }

  lemma LastByIdSnoc(canon: Canon, s: seq<Scope>, x: Scope, key: string)
    ensures LastById(canon, s + [x], key) == if HasId(canon, x, key) then x.id else LastById(canon, s, key)
  {
    assert (s + [x])[..|s + [x]| - 1] == s;
  }

  lemma FirstByNameSnoc(s: seq<Scope>, x: Scope, name: string)
    ensures FirstByName(s + [x], name)
         == if FirstByName(s, name).Some? then FirstByName(s, name) else if HasName(x, name) then x.id else None
  {
    FirstByNameConcat(s, [x], name);
    assert [x][1..] == [];
  }

  method BuildLookup(canon: Canon, scopes: seq<Scope>) returns (lookup: Lookup)
    ensures forall key :: Get(lookup.byId, key) == LastById(canon, scopes, key)
    ensures forall name :: Get(lookup.byName, name) == FirstByName(scopes, name)
  {
    var byId: map<string, string>, byName: map<string, string> := map[], map[];
    for i := 0 to |scopes|
      invariant forall key :: Get(byId, key) == LastById(canon, scopes[..i], key)
      invariant forall name :: Get(byName, name) == FirstByName(scopes[..i], name)
    {
      var scope := scopes[i];
      assert scopes[..i + 1] == scopes[..i] + [scope];
      forall key {
        LastByIdSnoc(canon, scopes[..i], scope, key);
      }
      forall name {
        FirstByNameSnoc(scopes[..i], scope, name);
      }
      if scope.id.Some? {
        byId := byId[CanonicalId(canon, scope.id.value) := scope.id.value];
        if scope.name.Some? && scope.name.value !in byName {
          byName := byName[scope.name.value := scope.id.value];
        }
      }
    }
    assert scopes[..|scopes|] == scopes;
    lookup := Lookup(byId, byName);
  }

  /** Answering from the maps is the same as scanning the list they were built from. */
  lemma LookupIsScan(canon: Canon, scopes: seq<Scope>, lookup: Lookup, token: string)
    requires forall key :: Get(lookup.byId, key) == LastById(canon, scopes, key)
    requires forall name :: Get(lookup.byName, name) == FirstByName(scopes, name)
    ensures Resolve(canon, token, lookup) == Scan(canon, token, scopes)
    ensures canon(token).Some? && LastById(canon, scopes, canon(token).value).Some?
      ==> Resolve(canon, token, lookup) == LastById(canon, scopes, canon(token).value)
    ensures canon(token).None? || LastById(canon, scopes, canon(token).value).None?
      ==> Resolve(canon, token, lookup) == FirstByName(scopes, token)
  {}

  /** Loading the index: every lookup through the two maps means what a scan of the pages means. */
  method LoadClientScopeLookup(canon: Canon, server: Server) returns (r: Result<Lookup, LookupError>)
    ensures match Collect(server, 0, 0)
      case Err(e) => r == Err(e)
      case Ok(scopes) => r.Ok? && forall token :: Resolve(canon, token, r.value) == Scan(canon, token, scopes)
  {
    var loaded, _ := LoadScopes(server);
    if loaded.Err? {
      return Err(loaded.error);
    }
    var lookup := BuildLookup(canon, loaded.value);
    forall token ensures Resolve(canon, token, lookup) == Scan(canon, token, loaded.value) {
      LookupIsScan(canon, loaded.value, lookup, token);
    }
    r := Ok(lookup);
  }

  lemma ScanOverlap(canon: Canon, a: seq<Scope>, b: seq<Scope>, c: seq<Scope>, token: string)
    ensures Scan(canon, token, (a + b) + (b + c)) == Scan(canon, token, a + (b + c))
  {
    forall key ensures LastById(canon, (a + b) + (b + c), key) == LastById(canon, a + (b + c), key) {
      LastByIdConcat(canon, a + b, b + c, key);
      LastByIdConcat(canon, a, b, key);
      LastByIdConcat(canon, b, c, key);
      LastByIdConcat(canon, a, b + c, key);
    }
    FirstByNameConcat(a + b, b + c, token);
    FirstByNameConcat(a, b, token);
    FirstByNameConcat(b, c, token);
    FirstByNameConcat(a, b + c, token);
  }

  lemma ParseOverlap(a: seq<Item>, b: seq<Item>, c: seq<Item>)
    ensures Parse((a + b) + (b + c)) == (Parse(a) + Parse(b)) + (Parse(b) + Parse(c))
    ensures Parse(a + (b + c)) == Parse(a) + (Parse(b) + Parse(c))
  {
    ParseConcat(a + b, b + c);
    ParseConcat(a, b);
    ParseConcat(b, c);
    ParseConcat(a, b + c);
  }

  lemma SliceOverlap<T>(s: seq<T>, p: nat, q: nat)
    requires q <= p <= |s|
    ensures s[..p] + s[q..] == (s[..q] + s[q..p]) + (s[q..p] + s[p..])
    ensures s == s[..q] + (s[q..p] + s[p..])
  {
    assert s[..p] == s[..q] + s[q..p];
    assert s[q..] == s[q..p] + s[p..];
  }

  /** Items returned twice by the saturated cursor do not change what any token means. */
  lemma ScanIgnoresRepeats(canon: Canon, all: seq<Item>, p: nat, q: nat, token: string)
    requires q <= p <= |all|
    ensures Scan(canon, token, Parse(all[..p] + all[q..])) == Scan(canon, token, Parse(all))
  {
    SliceOverlap(all, p, q);
    ParseOverlap(all[..q], all[q..p], all[p..]);
    ScanOverlap(canon, Parse(all[..q]), Parse(all[q..p]), Parse(all[p..]), token);
  }

  /** Whatever paging returns for a list that parses, tokens resolve as on the server's own list. */
  lemma PagedScanIsServerScan(canon: Canon, all: seq<Item>, token: string)
    requires AllParsed(all) && Collect(Honest(all), 0, 0).Ok?
    ensures Scan(canon, token, Collect(Honest(all), 0, 0).value) == Scan(canon, token, Parse(all))
  {
    PagingExact(all);
    if |all| >= EXACT_BELOW {
      ScanIgnoresRepeats(canon, all, EXACT_BELOW, U32_MAX, token);
    }
  }
}
