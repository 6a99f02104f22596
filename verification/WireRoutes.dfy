/**
  The gateway's answer to a request as a tool writes it. Percent-encoding turns out not to matter:
  the answer depends on the segments and the query before encoding.
 */
module WireRoutes {
  import opened Options
  import opened Sequences
  import opened Text
  import opened GatewayRoutes
  import opened GatewayProxy
  import opened RequestUrls

  datatype Encoding = Encoding(path: char -> string, query: char -> string)

  ghost predicate QueryEscapes(escape: char -> string) {
    && (forall c :: escape(c) == [c] || (escape(c) != "" && escape(c)[0] == '%' && '&' !in escape(c) && '=' !in escape(c)))
    && (forall c | c == '&' || c == '=' || 'a' <= c <= 'z' || 'A' <= c <= 'Z' :: escape(c) == [c])
  }

  ghost predicate Faithful(enc: Encoding) {
    Escapes(enc.path) && QueryEscapes(enc.query)
  }

  datatype Sent = Sent(httpMethod: Method, path: string, pairs: seq<(string, string)>)

  /** The query on the wire: the path's own, and the first pair behind it with some encoding of its value. */
  function WireQuery(enc: Encoding, s: Sent, value: string): Option<string> {
    var own := match OwnQuery(s.path) case None => "" case Some(query) => EscapeAll(enc.query, query);
    if s.pairs != [] then Some((if own == "" then "" else own + "&") + s.pairs[0].0 + "=" + value)
    else if OwnQuery(s.path).None? then None
    else Some(own)
  }

  /** The gateway lets the request through its allowlist and its scope check. */
  ghost predicate Allowed(enc: Encoding, token: seq<string>, s: Sent) {
    forall value :: RouteAllows(s.httpMethod, WirePath(enc.path, s.path), WireQuery(enc, s, value), token)
  }

  /** The same question about the segments that the URL parser leaves, before encoding. */
  predicate Routed(m: Method, parts: seq<string>, query: Option<string>, token: seq<string>) {
    Semicolonless(Arrived(parts)) && SegmentsAllowed(m, NonEmpty(Arrived(parts)), query, token)
  }

  // ---- Encoding does not change the route -------------------------------------------------

  /** The two lists have the same route words in the same places. */
  ghost predicate Alike(a: seq<string>, b: seq<string>) {
    |a| == |b| && forall i, word {:trigger Word(word), a[i]} | 0 <= i < |a| && Word(word) :: a[i] == word <==> b[i] == word
  }

  lemma EscapedAlike(escape: char -> string, parts: seq<string>)
    requires Escapes(escape)
    ensures Alike(EscapeEach(escape, parts), parts)
  {
    forall i, word | 0 <= i < |parts| && Word(word)
      ensures EscapeEach(escape, parts)[i] == word <==> parts[i] == word
    {
      EscapeMakesRouteWord(escape, parts[i], word);
    }
  }

  lemma ResourceWords()
    ensures Word("users") && Word("groups") && Word("roles") && Word("roles-by-id") && Word("clients")
    ensures Word("client-scopes") && Word("identity-provider") && Word("events")
  {}

  lemma SessionWords()
    ensures Word("sessions") && Word("user-sessions") && Word("offline-sessions") && Word("client-session-stats")
    ensures Word("attack-detection") && Word("serverinfo") && Word("metrics")
  {}

  lemma OtherWords()
    ensures Word("admin") && Word("realms") && Word("serverinfo") && Word("metrics")
    ensures Word("config") && Word("client-secret") && Word("roles") && Word("clients") && Word("client-scopes") && Word("events")
  {}

  lemma SameFamily(a: seq<string>, b: seq<string>)
    requires Alike(a, b)
    ensures FamilyOf(a) == FamilyOf(b)
  {
    ResourceWords();
    SessionWords();
    if a != [] {
      assert a[0] == a[0] && b[0] == b[0];
    }
  }

  lemma SameTail(a: seq<string>, b: seq<string>)
    requires Alike(a, b)
    ensures Alike(ResourceTail(a), ResourceTail(b))
    ensures Allowlisted(a) == Allowlisted(b)
  {
    OtherWords();
    SameIndex(a, b);
    if ResourceIndex(a).Some? {
      DropAlike(a, b, ResourceIndex(a).value);
    }
    SameAllowlist(a, b);
  }

  lemma SameIndex(a: seq<string>, b: seq<string>)
    requires Alike(a, b)
    ensures ResourceIndex(a) == ResourceIndex(b)
  {
    OtherWords();
  }

  lemma DropAlike(a: seq<string>, b: seq<string>, n: nat)
    requires Alike(a, b) && n <= |a|
    ensures Alike(a[n..], b[n..])
  {
    forall i, word | 0 <= i < |a| - n && Word(word) ensures a[n..][i] == word <==> b[n..][i] == word {
      assert a[n..][i] == a[n + i] && b[n..][i] == b[n + i];
    }
  }

  lemma SameAllowlist(a: seq<string>, b: seq<string>)
    requires Alike(a, b)
    ensures Allowlisted(a) == Allowlisted(b)
  {
    OtherWords();
    AllowlistedWords(a);
    AllowlistedWords(b);
  }

  lemma AllowlistedWords(s: seq<string>)
    ensures Allowlisted(s) <==>
      |s| >= 2 && s[0] == "admin" && (s[1] == "realms" || (|s| == 2 && (s[1] == "serverinfo" || s[1] == "metrics")))
  {
    if |s| >= 2 {
      assert ["admin", "realms"] <= s <==> s[0] == "admin" && s[1] == "realms";
    }
  }

  lemma SameLookups(a: seq<string>, b: seq<string>)
    requires Alike(a, b)
    ensures IsRealmRoleLookup(a) == IsRealmRoleLookup(b) && IsClientRoleLookup(a) == IsClientRoleLookup(b)
    ensures IsClientLookup(a) == IsClientLookup(b) && IsClientScopeLookup(a) == IsClientScopeLookup(b)
    ensures IsEventConfig(a) == IsEventConfig(b)
  {
    OtherWords();
    if |a| == 1 {
      assert a == [a[0]] && b == [b[0]];
    } else if |a| == 2 {
      assert a == [a[0], a[1]] && b == [b[0], b[1]];
    }
  }

  lemma SameSecret(a: seq<string>, b: seq<string>)
    requires Alike(a, b)
    ensures IsClientSecret(a) == IsClientSecret(b)
  {
    OtherWords();
    if IsClientSecret(a) {
      var i :| 0 <= i < |a| && a[i] == "client-secret";
      assert b[i] in b;
    }
    if IsClientSecret(b) {
      var i :| 0 <= i < |b| && b[i] == "client-secret";
      assert a[i] in a;
    }
  }

  lemma SameCandidates(m: Method, a: seq<string>, b: seq<string>, p: Option<string>, q: Option<string>)
    requires Alike(a, b) && (QueryHasParam(p, "clientId") <==> QueryHasParam(q, "clientId"))
    ensures Candidates(m, a, p) == Candidates(m, b, q)
  {
    SameTail(a, b);
    SameFamily(ResourceTail(a), ResourceTail(b));
    SameLookups(ResourceTail(a), ResourceTail(b));
    SameSecret(a, b);
  }

  lemma HasParamAt(query: string, i: nat)
    requires i < |Split(query, '&')| && ParamName(Split(query, '&')[i]) == "clientId"
    ensures QueryHasParam(Some(query), "clientId")
  {
    assert Split(query, '&')[i] in Split(query, '&');
  }

  /** Encoding keeps the names of a query's parameters. */
  lemma EscapedParam(escape: char -> string, query: string)
    requires QueryEscapes(escape)
    ensures QueryHasParam(Some(EscapeAll(escape, query)), "clientId") <==> QueryHasParam(Some(query), "clientId")
  {
    var pairs := Split(query, '&');
    var escaped := Split(EscapeAll(escape, query), '&');
    EscapeSplits(escape, query, '&');
    if QueryHasParam(Some(query), "clientId") {
      var pair :| pair in pairs && ParamName(pair) == "clientId";
      var i :| 0 <= i < |pairs| && pairs[i] == pair;
      EscapedName(escape, pair);
      HasParamAt(EscapeAll(escape, query), i);
    }
    if QueryHasParam(Some(EscapeAll(escape, query)), "clientId") {
      var pair :| pair in escaped && ParamName(pair) == "clientId";
      var i :| 0 <= i < |escaped| && escaped[i] == pair;
      EscapedName(escape, pairs[i]);
      HasParamAt(query, i);
    }
  }

  lemma EscapedName(escape: char -> string, pair: string)
    requires QueryEscapes(escape)
    ensures ParamName(EscapeAll(escape, pair)) == "clientId" <==> ParamName(pair) == "clientId"
  {
    EscapeSplits(escape, pair, '=');
    FirstIsSplit(pair, '=');
    FirstIsSplit(EscapeAll(escape, pair), '=');
    EscapeMakesWord(escape, FirstPart(pair, '='), "clientId");
  }

  lemma FirstIsSplit(s: string, sep: char)
    ensures FirstPart(s, sep) == Split(s, sep)[0]
  {
    SplitAtFirst(s, sep);
  }

  /** The path as written is allowed with the query `p` exactly when its segments are with `q`. */
  lemma RouteOfParts(enc: Encoding, m: Method, parts: seq<string>, p: Option<string>, q: Option<string>, token: seq<string>)
    requires Faithful(enc) && parts != [] && AllOneSegment(parts)
    requires QueryHasParam(p, "clientId") <==> QueryHasParam(q, "clientId")
    ensures RouteAllows(m, WirePath(enc.path, PathOf(parts)), p, token) <==> Routed(m, parts, q, token)
  {
    var segments := NonEmpty(Arrived(parts));
    WireOfParts(enc.path, parts);
    EscapedAlike(enc.path, segments);
    SameCandidates(m, EscapeEach(enc.path, segments), segments, p, q);
    SameAllowlist(EscapeEach(enc.path, segments), segments);
  }

  /** For a request without pairs of its own, the answer is that of the segments before encoding. */
  lemma AllowedExactly(enc: Encoding, token: seq<string>, m: Method, parts: seq<string>)
    requires Faithful(enc) && parts != [] && AllOneSegment(parts)
    ensures Allowed(enc, token, Sent(m, PathOf(parts), [])) <==> Routed(m, parts, OwnQuery(PathOf(parts)), token)
  {
    var s := Sent(m, PathOf(parts), []);
    if OwnQuery(s.path).Some? {
      EscapedParam(enc.query, OwnQuery(s.path).value);
    }
    RouteOfParts(enc, m, parts, WireQuery(enc, s, ""), OwnQuery(s.path), token);
    assert forall value :: WireQuery(enc, s, value) == WireQuery(enc, s, "");
  }
}
