/**
  How a path written by a tool reaches the gateway: the URL parser of the HTTP client trims and cuts
  it, removes dot segments and percent-encodes what it must.

  `escape` gives the text that stands for one character; any percent-encoding that `Escapes`
  describes will do. Names hold no slash, and no backslash or percent sign, to which the URL parser
  gives a meaning of their own.
 */
module RequestUrls {
  import opened Options
  import opened Sequences
  import opened Text
  import opened EdgeGuard
  import opened GatewayRoutes

  /** No slash, and nothing that the URL parser would turn into one or into a dot. */
  predicate OneSegment(name: string) {
    '/' !in name && '\\' !in name && '%' !in name
  }

  ghost predicate AllOneSegment(parts: seq<string>) {
    forall part | part in parts :: OneSegment(part)
  }

  function TrimTail(s: string): string {
    if s != [] && s[|s| - 1] <= ' ' then TrimTail(s[..|s| - 1]) else s
  }

  predicate Dropped(c: char) {
    c == '\t' || c == '\n' || c == '\r'
  }

  function DropTabs(s: string): string {
    Filter(c => !Dropped(c), s)
  }

  predicate EndsPath(c: char) {
    c == '?' || c == '#'
  }

  function BeforeQuery(s: string): (p: string)
    ensures p <= s
  {
    if s == [] || EndsPath(s[0]) then [] else [s[0]] + BeforeQuery(s[1..])
  }

  /** The part of a written path that the URL parser keeps as path. */
  function Kept(path: string): string {
    BeforeQuery(DropTabs(TrimTail(path)))
  }

  /** The query that the written path holds itself: behind its first question mark, up to a hash. */
  function OwnQuery(path: string): Option<string> {
    var clean := DropTabs(TrimTail(path));
    var rest := clean[|BeforeQuery(clean)|..];
    if rest == [] || rest[0] == '#' then None else Some(FirstPart(rest[1..], '#'))
  }

  ghost predicate Escapes(escape: char -> string) {
    && (forall c :: escape(c) == [c] || (escape(c) != "" && escape(c)[0] == '%' && '/' !in escape(c) && ';' !in escape(c)))
    && (forall c | c == '/' || c == ';' || c == '-' || 'a' <= c <= 'z' :: escape(c) == [c])
  }

  function EscapeAll(escape: char -> string, s: string): string {
    if s == [] then [] else escape(s[0]) + EscapeAll(escape, s[1..])
  }

  function EscapeEach(escape: char -> string, parts: seq<string>): (r: seq<string>)
    ensures |r| == |parts|
    ensures forall i | 0 <= i < |parts| :: r[i] == EscapeAll(escape, parts[i])
  {
    seq(|parts|, i requires 0 <= i < |parts| => EscapeAll(escape, parts[i]))
  }

  function WirePath(escape: char -> string, path: string): string {
    EscapeAll(escape, RemoveDots(Buffers(Kept(path), [])))
  }

  /** Every segment with a slash before it, as the tools' format strings write them. */
  function PathOf(parts: seq<string>): string {
    if parts == [] then "" else "/" + parts[0] + PathOf(parts[1..])
  }

  /** Visible characters that do not end a path. */
  predicate Plain(s: string) {
    forall i | 0 <= i < |s| :: s[i] > ' ' && s[i] != '?' && s[i] != '#'
  }

  predicate Visible(s: string) {
    forall i | 0 <= i < |s| :: s[i] > ' '
  }

  lemma PathAlone(path: string)
    requires Plain(path)
    ensures Kept(path) == path && OwnQuery(path) == None
  {
    CleanText(path);
    BeforeQueryOf(path);
    assert path[|path|..] == [];
  }

  /** A path ends at its first question mark or hash; a hash starts no query. */
  lemma PathThen(path: string, rest: string)
    requires Plain(path) && Visible(rest) && rest != "" && EndsPath(rest[0])
    ensures Kept(path + rest) == path
    ensures OwnQuery(path + rest) == if rest[0] == '#' then None else Some(FirstPart(rest[1..], '#'))
  {
    CleanText(path + rest);
    CutAt(path, rest);
  }

  /** What follows the question mark, up to a hash, is the query. */
  lemma PathAndQuery(path: string, query: string, hash: string)
    requires Plain(path) && Plain(query) && Visible(hash) && (hash == "" || hash[0] == '#')
    ensures Kept(path + ("?" + (query + hash))) == path
    ensures OwnQuery(path + ("?" + (query + hash))) == Some(query)
  {
    var rest := "?" + (query + hash);
    assert rest[1..] == query + hash && rest[0] == '?';
    FirstPartOf(query, hash, '#');
    PathThen(path, rest);
  }

  lemma CutAt(path: string, rest: string)
    requires (forall c | c in path :: !EndsPath(c)) && rest != "" && EndsPath(rest[0])
    ensures BeforeQuery(path + rest) == path && (path + rest)[|path|..] == rest
  {
    BeforeQueryPasses(path, rest);
    assert path + [] == path;
  }

  lemma CleanText(s: string)
    requires forall i | 0 <= i < |s| :: s[i] > ' '
    ensures DropTabs(TrimTail(s)) == s
  {
    DropTabsAll(s);
  }

  // ---- The same on segments ---------------------------------------------------------------

  predicate Uncut(part: string) {
    forall c | c in DropTabs(part) :: !EndsPath(c)
  }

  /** What is kept of a segment that is not the last one. */
  function Middle(part: string): string {
    BeforeQuery(DropTabs(part))
  }

  /** The segments up to the first one that a query or a fragment cuts; the last one is trimmed first. */
  function Seen(parts: seq<string>): seq<string> {
    if parts == [] then []
    else if |parts| == 1 then [Kept(parts[0])]
    else if Uncut(parts[0]) then [Middle(parts[0])] + Seen(parts[1..])
    else [Middle(parts[0])]
  }

  function Pop(stack: seq<string>): seq<string> {
    if stack == [] then [] else stack[..|stack| - 1]
  }

  /** Dot segments taken out of `list`, behind the segments in `stack`. */
  function Resolved(stack: seq<string>, list: seq<string>): seq<string>
    decreases |list|
  {
    if list == [] then stack else Resolved(Next(stack, list[0]), list[1..])
  }

  function Next(stack: seq<string>, part: string): seq<string> {
    if part == "." then stack else if part == ".." then Pop(stack) else stack + [part]
  }

  function Arrived(parts: seq<string>): seq<string> {
    Resolved([], Seen(parts))
  }

  ghost predicate Slashless(list: seq<string>) {
    forall part | part in list :: '/' !in part
  }

  // ---- Trimming and cutting ---------------------------------------------------------------

  lemma {:induction false} TrimTailAfter(p: string, s: string)
    requires p != [] && p[|p| - 1] > ' '
    ensures TrimTail(p + s) == p + TrimTail(s)
    decreases |s|
  {
    var t := p + s;
    if s == [] {
      assert t == p;
    } else {
      assert t[|t| - 1] == s[|s| - 1];
      if s[|s| - 1] <= ' ' {
        assert t[..|t| - 1] == p + s[..|s| - 1];
        TrimTailAfter(p, s[..|s| - 1]);
      }
    }
  }

  lemma DropTabsConcat(a: string, b: string)
    ensures DropTabs(a + b) == DropTabs(a) + DropTabs(b)
  {
    FilterConcat(c => !Dropped(c), a, b);
  }

  lemma {:induction false} BeforeQueryPasses(p: string, s: string)
    requires forall c | c in p :: !EndsPath(c)
    ensures BeforeQuery(p + s) == p + BeforeQuery(s)
  {
    if p == [] {
      assert p + s == s;
    } else {
      assert p[0] in p;
      assert (p + s)[1..] == p[1..] + s;
      BeforeQueryPasses(p[1..], s);
    }
  }

  lemma {:induction false} BeforeQueryStops(p: string, s: string)
    requires exists c | c in p :: EndsPath(c)
    ensures BeforeQuery(p + s) == BeforeQuery(p)
  {
    assert (p + s)[0] == p[0];
    if !EndsPath(p[0]) {
      assert (p + s)[1..] == p[1..] + s;
      var c :| c in p && EndsPath(c);
      assert c in p[1..];
      BeforeQueryStops(p[1..], s);
    }
  }

  lemma {:induction false} BeforeQueryOf(s: string)
    ensures (forall c | c in s :: !EndsPath(c)) ==> BeforeQuery(s) == s
  {
    if s != [] && !EndsPath(s[0]) {
      BeforeQueryOf(s[1..]);
    }
  }

  /** A path of two or more segments begins with a slash and its first segment. */
  lemma PathOfTail(parts: seq<string>)
    requires |parts| > 1
    ensures PathOf(parts) == "/" + parts[0] + PathOf(parts[1..])
    ensures PathOf(parts[1..]) != "" && PathOf(parts[1..])[0] == '/'
  {}

  /** Trimming reaches no further than a slash. */
  lemma {:induction false} TrimBehind(p: string, s: string)
    requires s != [] && s[0] > ' '
    ensures TrimTail(p + s) == p + TrimTail(s)
    decreases |s|
  {
    var t := p + s;
    assert t[|t| - 1] == s[|s| - 1];
    if s[|s| - 1] <= ' ' {
      assert t[..|t| - 1] == p + s[..|s| - 1];
      TrimBehind(p, s[..|s| - 1]);
    }
  }

  /** Kept of a path is the path of the segments seen. */
  lemma {:induction false} KeptPath(parts: seq<string>)
    requires parts != []
    ensures Kept(PathOf(parts)) == PathOf(Seen(parts))
    decreases |parts|
  {
    var head := "/" + parts[0];
    if |parts| == 1 {
      assert PathOf(parts) == head;
      TrimTailAfter("/", parts[0]);
      DropTabsConcat("/", TrimTail(parts[0]));
      BeforeQueryPasses("/", DropTabs(TrimTail(parts[0])));
      assert PathOf(Seen(parts)) == "/" + Kept(parts[0]);
    } else {
      var rest := PathOf(parts[1..]);
      PathOfTail(parts);
      KeptPath(parts[1..]);
      TrimBehind(head, rest);
      DropTabsConcat(head, TrimTail(rest));
      DropTabsConcat("/", parts[0]);
      var d, e := DropTabs(head), DropTabs(TrimTail(rest));
      assert d == "/" + DropTabs(parts[0]);
      KeptHead(parts[0], e);
      if Uncut(parts[0]) {
        assert Seen(parts)[1..] == Seen(parts[1..]);
      } else {
        assert Seen(parts)[1..] == [];
      }
    }
  }

  lemma KeptHead(part: string, e: string)
    ensures BeforeQuery("/" + DropTabs(part) + e)
      == "/" + Middle(part) + (if Uncut(part) then BeforeQuery(e) else "")
  {
    var d := DropTabs(part);
    assert "/" + d + e == "/" + (d + e);
    BeforeQueryPasses("/", d + e);
    BeforeQueryOf(d);
    if Uncut(part) {
      BeforeQueryPasses(d, e);
    } else {
      BeforeQueryStops(d, e);
    }
  }

  // ---- Dot segments -----------------------------------------------------------------------

  lemma PlainLead(input: string, part: string)
    requires "/" <= input && FirstSegment(input) == part && !DotRule(input)
    ensures Lead(input) == "/" + part
  {}

  /** One round of dot removal on a path whose first segment is `part`. */
  lemma RoundOfPart(part: string, rest: string, output: string)
    requires '/' !in part && (rest == "" || rest[0] == '/')
    ensures !IsDots(part) ==> Round(Buffers("/" + part + rest, output)) == Buffers(rest, output + "/" + part)
    ensures part == "." ==> Round(Buffers("/" + part + rest, output)) == Buffers(if rest == "" then "/" else rest, output)
    ensures part == ".." ==>
      Round(Buffers("/" + part + rest, output)) == Buffers(if rest == "" then "/" else rest, DropLast(output))
  {
    if part == "." {
      assert "/" + part + rest == "/." + rest;
      RoundOfDot(rest, output);
    } else if part == ".." {
      assert "/" + part + rest == "/.." + rest;
      RoundOfDots(rest, output);
    } else {
      RoundOfName(part, rest, output);
    }
  }

  lemma RoundOfName(part: string, rest: string, output: string)
    requires '/' !in part && (rest == "" || rest[0] == '/') && !IsDots(part)
    ensures Round(Buffers("/" + part + rest, output)) == Buffers(rest, output + "/" + part)
  {
    var input := "/" + part + rest;
    assert input[1..] == part + rest;
    FirstPartOf(part, rest, '/');
    assert FirstSegment(input) == part;
    DotRuleSeesDots(input);
    PlainLead(input, part);
    assert input[|"/" + part|..] == rest;
    assert output + ("/" + part) == output + "/" + part;
  }

  lemma RoundOfDot(rest: string, output: string)
    requires rest == "" || rest[0] == '/'
    ensures Round(Buffers("/." + rest, output)) == Buffers(if rest == "" then "/" else rest, output)
  {
    var input := "/." + rest;
    assert input[0] == '/' && input[1] == '.';
    if rest == "" {
      assert input == "/.";
    } else {
      assert input[2] == '/';
      assert input[..3] == "/./";
      assert input[2..] == rest;
    }
  }

  lemma RoundOfDots(rest: string, output: string)
    requires rest == "" || rest[0] == '/'
    ensures Round(Buffers("/.." + rest, output)) == Buffers(if rest == "" then "/" else rest, DropLast(output))
  {
    var input := "/.." + rest;
    assert input[0] == '/' && input[1] == '.' && input[2] == '.';
    assert "/./"[2] == '/';
    if rest == "" {
      assert input == "/..";
    } else {
      assert input[3] == '/';
      assert input[..4] == "/../";
      assert input[3..] == rest;
    }
  }

  lemma SlashOnly(output: string)
    ensures RemoveDots(Buffers("/", output)) == output + "/"
  {
    RoundOfName("", "", output);
    assert "/" + "" + "" == "/" && output + "/" + "" == output + "/";
    assert RemoveDots(Buffers("", output + "/")) == output + "/";
  }

  lemma {:induction false} DropLastSegment(p: string, last: string)
    requires '/' !in last
    ensures DropLast(p + "/" + last) == p
    decreases |last|
  {
    var output := p + "/" + last;
    if last == [] {
      assert output[..|output| - 1] == p;
    } else {
      assert output[|output| - 1] == last[|last| - 1];
      assert output[..|output| - 1] == p + "/" + last[..|last| - 1];
      DropLastSegment(p, last[..|last| - 1]);
    }
  }

  lemma {:induction false} PathOfSnoc(front: seq<string>, last: string)
    ensures PathOf(front + [last]) == PathOf(front) + "/" + last
  {
    if front == [] {
      assert [] + [last] == [last] && [last][1..] == [];
    } else {
      assert (front + [last])[1..] == front[1..] + [last];
      PathOfSnoc(front[1..], last);
    }
  }

  lemma DropLastPops(stack: seq<string>)
    requires Slashless(stack)
    ensures DropLast(PathOf(stack)) == PathOf(Pop(stack))
  {
    if stack != [] {
      var front, last := Pop(stack), stack[|stack| - 1];
      assert stack == front + [last];
      PathOfSnoc(front, last);
      DropLastSegment(PathOf(front), last);
    }
  }

  /** A function of the two buffers that takes the rounds of dot removal. */
  ghost predicate TakesRounds(f: Buffers -> string) {
    && (forall b: Buffers | b.input != [] :: f(b) == f(Round(b)))
    && (forall output :: f(Buffers("/", output)) == output + "/" && f(Buffers("", output)) == output)
  }

  predicate EndsInDots(list: seq<string>) {
    list != [] && IsDots(list[|list| - 1])
  }

  /** One round on paths is one step on segments, but that a final dot segment leaves a slash. */
  lemma RoundIsNext(stack: seq<string>, part: string, rest: string)
    requires Slashless(stack) && '/' !in part && (rest == "" || rest[0] == '/')
    ensures Round(Buffers("/" + part + rest, PathOf(stack)))
      == Buffers(if rest == "" && IsDots(part) then "/" else rest, PathOf(Next(stack, part)))
  {
    RoundOfPart(part, rest, PathOf(stack));
    if part == ".." {
      DropLastPops(stack);
    } else if part != "." {
      PathOfSnoc(stack, part);
    }
  }

  lemma OneRound(f: Buffers -> string, stack: seq<string>, list: seq<string>)
    requires TakesRounds(f) && Slashless(stack) && Slashless(list) && list != []
    ensures var part, rest := list[0], PathOf(list[1..]);
      f(Buffers(PathOf(list), PathOf(stack)))
        == f(Buffers(if rest == "" && IsDots(part) then "/" else rest, PathOf(Next(stack, part))))
    ensures Slashless(Next(stack, list[0])) && Slashless(list[1..])
  {
    var part, rest := list[0], PathOf(list[1..]);
    assert part in list && forall p | p in list[1..] :: p in list;
    RoundIsNext(stack, part, rest);
    NextSlashless(stack, part);
    var b := Buffers(PathOf(list), PathOf(stack));
    assert b.input != [] && f(b) == f(Round(b));
  }

  /** What dot removal leaves of a path is the path of what is left of its segments. */
  lemma {:induction false} RoundsResolve(f: Buffers -> string, stack: seq<string>, list: seq<string>)
    requires TakesRounds(f) && Slashless(stack) && Slashless(list)
    ensures f(Buffers(PathOf(list), PathOf(stack)))
      == PathOf(Resolved(stack, list)) + (if EndsInDots(list) then "/" else "")
    decreases |list|
  {
    if list == [] {
      assert PathOf(stack) + "" == PathOf(stack);
    } else {
      var next := Next(stack, list[0]);
      OneRound(f, stack, list);
      if list[1..] == [] {
        assert PathOf(next) + "" == PathOf(next);
      } else {
        RoundsResolve(f, next, list[1..]);
      }
    }
  }

  lemma NextSlashless(stack: seq<string>, part: string)
    requires Slashless(stack) && '/' !in part
    ensures Slashless(Pop(stack)) && Slashless(stack + [part])
  {}

  lemma RemoveDotsResolves(list: seq<string>)
    requires Slashless(list)
    ensures RemoveDots(Buffers(PathOf(list), []))
      == PathOf(Resolved([], list)) + (if EndsInDots(list) then "/" else "")
  {
    var f := (b: Buffers) => RemoveDots(b);
    assert TakesRounds(f) by {
      forall output ensures f(Buffers("/", output)) == output + "/" {
        SlashOnly(output);
      }
    }
    RoundsResolve(f, [], list);
    assert PathOf([]) == [];
  }

  lemma {:induction false} ResolvedSlashless(stack: seq<string>, list: seq<string>)
    requires Slashless(stack) && Slashless(list)
    ensures Slashless(Resolved(stack, list))
    decreases |list|
  {
    if list != [] {
      assert list[0] in list && forall p | p in list[1..] :: p in list;
      NextSlashless(stack, list[0]);
      ResolvedSlashless(Next(stack, list[0]), list[1..]);
    }
  }

  lemma {:induction false} SegmentsOfPath(parts: seq<string>)
    requires Slashless(parts)
    ensures PathSegments(PathOf(parts)) == NonEmpty(parts)
  {
    if parts == [] {
      EmptyPathSegments();
    } else {
      var n := |parts| - 1;
      assert parts[n] in parts && forall p | p in parts[..n] :: p in parts;
      assert parts == parts[..n] + [parts[n]];
      PathOfSnoc(parts[..n], parts[n]);
      SegmentsOfPath(parts[..n]);
      SegmentsJoin(PathOf(parts[..n]), parts[n]);
      FilterConcat(part => part != "", parts[..n], [parts[n]]);
      SegmentsOfPart(parts[n]);
    }
  }

  lemma SegmentsOfPart(part: string)
    requires '/' !in part
    ensures PathSegments(part) == NonEmpty([part])
  {
    assert Filter(p => p != "", [part][1..]) == [];
    assert NonEmpty([part]) == if part != "" then [part] else [];
    if part == "" {
      EmptyPathSegments();
    } else {
      SegmentsOfOne(part);
    }
  }

  lemma EmptyPathSegments()
    ensures PathSegments("") == []
  {
    NoSegments();
    SegmentsAreParts("");
  }

  lemma {:induction false} SemicolonsOfPath(parts: seq<string>)
    ensures ';' in PathOf(parts) <==> exists part | part in parts :: ';' in part
  {
    if parts != [] {
      SemicolonsOfPath(parts[1..]);
      assert parts == [parts[0]] + parts[1..];
      assert ';' != '/';
    }
  }

  // ---- Encoding ---------------------------------------------------------------------------

  lemma {:induction false} SplitAfter(x: string, y: string, sep: char)
    requires sep !in x
    ensures Split(x + y, sep) == [x + Split(y, sep)[0]] + Split(y, sep)[1..]
  {
    var parts := Split(y, sep);
    if x == [] {
      assert x + y == y && x + parts[0] == parts[0];
      assert [parts[0]] + parts[1..] == parts;
    } else {
      assert (x + y)[1..] == x[1..] + y;
      SplitAfter(x[1..], y, sep);
      assert [x[0]] + (x[1..] + parts[0]) == x + parts[0];
    }
  }

  /** The encoding keeps `sep` and writes it for nothing else. */
  ghost predicate KeepsSeparator(escape: char -> string, sep: char) {
    escape(sep) == [sep] && forall c | c != sep :: sep !in escape(c)
  }

  lemma EscapeFirst(escape: char -> string, c: char, rest: seq<string>)
    requires rest != []
    ensures EscapeEach(escape, [[c] + rest[0]] + rest[1..])
      == [escape(c) + EscapeEach(escape, rest)[0]] + EscapeEach(escape, rest)[1..]
  {
    assert ([c] + rest[0])[1..] == rest[0];
  }

  lemma {:induction false} EscapeSplits(escape: char -> string, s: string, sep: char)
    requires KeepsSeparator(escape, sep)
    ensures Split(EscapeAll(escape, s), sep) == EscapeEach(escape, Split(s, sep))
  {
    if s != [] {
      var tail, rest := EscapeAll(escape, s[1..]), Split(s[1..], sep);
      EscapeSplits(escape, s[1..], sep);
      if s[0] == sep {
        assert ([sep] + tail)[1..] == tail;
        assert EscapeEach(escape, [[]] + rest) == [[]] + EscapeEach(escape, rest);
      } else {
        SplitAfter(escape(s[0]), tail, sep);
        EscapeFirst(escape, s[0], rest);
      }
    }
  }

  lemma EscapeKeepsEmpty(escape: char -> string, s: string)
    requires Escapes(escape)
    ensures EscapeAll(escape, s) == "" <==> s == ""
  {
    if s != "" {
      assert escape(s[0]) != "";
    }
  }

  lemma {:induction false} EscapeNonEmpty(escape: char -> string, parts: seq<string>)
    requires Escapes(escape)
    ensures NonEmpty(EscapeEach(escape, parts)) == EscapeEach(escape, NonEmpty(parts))
  {
    if parts != [] {
      EscapeKeepsEmpty(escape, parts[0]);
      EscapeNonEmpty(escape, parts[1..]);
      var rest := NonEmpty(parts[1..]);
      assert EscapeEach(escape, parts)[1..] == EscapeEach(escape, parts[1..]);
      assert NonEmpty(parts) == (if parts[0] != "" then [parts[0]] else []) + rest;
      if parts[0] != "" {
        assert ([parts[0]] + rest)[1..] == rest;
      } else {
        assert [] + rest == rest;
      }
    }
  }

  lemma EscapeSegments(escape: char -> string, path: string)
    requires Escapes(escape)
    ensures PathSegments(EscapeAll(escape, path)) == EscapeEach(escape, PathSegments(path))
  {
    EscapeSplits(escape, path, '/');
    SegmentsAreParts(path);
    SegmentsAreParts(EscapeAll(escape, path));
    EscapeNonEmpty(escape, Split(path, '/'));
  }

  lemma {:induction false} EscapeSemicolons(escape: char -> string, s: string)
    requires Escapes(escape)
    ensures ';' in EscapeAll(escape, s) <==> ';' in s
  {
    if s != [] {
      EscapeSemicolons(escape, s[1..]);
      assert s == [s[0]] + s[1..];
    }
  }

  /** The encoding leaves each character alone or writes it with a percent sign in front. */
  ghost predicate PercentEncodes(escape: char -> string) {
    forall c :: escape(c) == [c] || (escape(c) != "" && escape(c)[0] == '%')
  }

  ghost predicate LeavesAlone(escape: char -> string, word: string) {
    forall i | 0 <= i < |word| :: escape(word[i]) == [word[i]] && word[i] != '%'
  }

  /** A word that the encoding leaves alone stands for itself, and for nothing else. */
  lemma {:induction false} EscapeMakesWord(escape: char -> string, s: string, word: string)
    requires PercentEncodes(escape) && LeavesAlone(escape, word)
    ensures EscapeAll(escape, s) == word <==> s == word
    decreases |s|
  {
    if s != [] {
      var head, tail := escape(s[0]), EscapeAll(escape, s[1..]);
      assert EscapeAll(escape, s)[0] == head[0];
      if word != [] {
        EscapeMakesWord(escape, s[1..], word[1..]);
        assert word == [word[0]] + word[1..] && s == [s[0]] + s[1..];
        if head == [s[0]] {
          assert (head + tail)[1..] == tail;
        } else {
          assert head[0] == '%' && word[0] != '%';
        }
      }
    }
  }

  /** A fixed segment of the routes. */
  predicate Word(s: string) {
    s != "" && forall i | 0 <= i < |s| :: s[i] == '-' || 'a' <= s[i] <= 'z'
  }

  lemma EscapeMakesRouteWord(escape: char -> string, s: string, word: string)
    requires Escapes(escape) && Word(word)
    ensures EscapeAll(escape, s) == word <==> s == word
  {
    EscapeMakesWord(escape, s, word);
  }

  lemma {:induction false} DropTabsAll(s: string)
    requires forall i | 0 <= i < |s| :: !Dropped(s[i])
    ensures DropTabs(s) == s
  {
    if s != [] {
      DropTabsAll(s[1..]);
      assert DropTabs(s[1..]) == Filter(c => !Dropped(c), s[1..]);
      assert s == [s[0]] + s[1..];
    }
  }

  /** The URL parser takes a route word as it stands. */
  lemma WordIsKept(word: string)
    requires Word(word)
    ensures Kept(word) == Middle(word) == word && Uncut(word) && OneSegment(word) && !IsDots(word) && ';' !in word
  {
    DropTabsAll(word);
    BeforeQueryOf(word);
    assert word[|word| - 1] > ' ' && word[0] != '.';
  }

  // ---- The segments the gateway sees ------------------------------------------------------

  lemma {:induction false} SeenSlashless(parts: seq<string>)
    requires AllOneSegment(parts)
    ensures Slashless(Seen(parts))
  {
    if parts != [] {
      assert parts[0] in parts && forall p | p in parts[1..] :: p in parts;
      SeenSlashless(parts[1..]);
      KeptOf(parts[0]);
      MiddleOf(parts[0]);
    }
  }

  lemma MiddleOf(part: string)
    ensures forall c | c in Middle(part) :: c in part
  {
    FilterMembers(c => !Dropped(c), part);
    BeforeQueryOf(DropTabs(part));
  }

  lemma {:induction false} TrimTailOf(s: string)
    ensures TrimTail(s) <= s
    decreases |s|
  {
    if s != [] && s[|s| - 1] <= ' ' {
      TrimTailOf(s[..|s| - 1]);
    }
  }

  lemma KeptOf(s: string)
    ensures forall c | c in Kept(s) :: c in s
  {
    TrimTailOf(s);
    MiddleOf(TrimTail(s));
    assert Kept(s) == Middle(TrimTail(s));
    assert forall c | c in TrimTail(s) :: c in s;
  }

  predicate Semicolonless(list: seq<string>) {
    forall part | part in list :: ';' !in part
  }

  /**
    What the gateway gets for any path a tool writes: the segments up to the first query or
    fragment, with dot segments taken out, empty ones dropped and the rest encoded one for one.
   */
  lemma WireOfParts(escape: char -> string, parts: seq<string>)
    requires Escapes(escape) && parts != [] && AllOneSegment(parts)
    ensures var path := WirePath(escape, PathOf(parts));
      && PathSegments(path) == EscapeEach(escape, NonEmpty(Arrived(parts)))
      && (';' !in path <==> Semicolonless(Arrived(parts)))
  {
    var arrived, end := Arrived(parts), if EndsInDots(Seen(parts)) then "/" else "";
    KeptPath(parts);
    SeenSlashless(parts);
    RemoveDotsResolves(Seen(parts));
    ResolvedSlashless([], Seen(parts));
    var clean := PathOf(arrived) + end;
    EscapeSegments(escape, clean);
    EscapeSemicolons(escape, clean);
    SemicolonsOfPath(arrived);
    SegmentsOfPath(arrived);
    TrailingSlash(PathOf(arrived));
    assert PathOf(arrived) + "" == PathOf(arrived);
  }

  lemma TrailingSlash(path: string)
    ensures PathSegments(path + "/") == PathSegments(path)
  {
    SegmentsJoin(path, "");
    EmptyPathSegments();
    assert path + "/" + "" == path + "/";
  }
}
