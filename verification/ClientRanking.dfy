/** Ranking the clients found by a search, and the merge that feeds it. */
module ClientRanking {
  import opened Options
  import opened Sequences
  import opened Sorting
  import opened Text

  /** A found client; `rest` stands for the fields that are returned and not read here. */
  datatype Client = Client(id: Option<string>, clientId: Option<string>, name: Option<string>, rest: string)

  function OrEmpty(s: Option<string>): string {
    if s.Some? then s.value else ""
  }

  function Score(c: Client, term: string): nat {
    if term == [] then 0
    else
      var id, clientId, name, t := Lower(OrEmpty(c.id)), Lower(OrEmpty(c.clientId)), Lower(OrEmpty(c.name)), Lower(term);
      if id == t then 220
      else if clientId == t then 200
      else if name == t then 180
      else if t <= id then 160
      else if Contains(id, t) then 120
      else if t <= clientId || t <= name then 140
      else if Contains(clientId, t) || Contains(name, t) then 100
      else 0
  }

  function Id(c: Client): string {
    Lower(OrEmpty(c.id))
  }

  function ClientId(c: Client): string {
    Lower(OrEmpty(c.clientId))
  }

  function NameOf(c: Client): string {
    Lower(OrEmpty(c.name))
  }

  /** Some field is the term, whatever the case. */
  predicate Exact(c: Client, t: string) {
    Id(c) == t || ClientId(c) == t || NameOf(c) == t
  }

  predicate Starts(c: Client, t: string) {
    t <= Id(c) || t <= ClientId(c) || t <= NameOf(c)
  }

  predicate Inside(c: Client, t: string) {
    Contains(Id(c), t) || Contains(ClientId(c), t) || Contains(NameOf(c), t)
  }

  lemma PrefixIsInside(s: string, t: string)
    requires t <= s
    ensures Contains(s, t)
  {
    assert s[0..] == s;
  }

  /**
    What scores higher: an exact match before any other, of the id before the client id before the
    name; a prefix match before one inside, except that a client whose id holds the term further
    inside is scored by that alone, and so does not come before another such client.
   */
  lemma ScoreOrders(a: Client, b: Client, term: string)
    requires term != ""
    ensures var t := Lower(term); Score(a, term) > 0 <==> Inside(a, t)
    ensures var t := Lower(term); Exact(a, t) && !Exact(b, t) ==> Score(a, term) > Score(b, term)
    ensures var t := Lower(term); Id(a) == t && Id(b) != t ==> Score(a, term) > Score(b, term)
    ensures var t := Lower(term); ClientId(a) == t && Id(b) != t && ClientId(b) != t ==> Score(a, term) > Score(b, term)
    ensures var t := Lower(term);
      !Exact(b, t) && (t <= Id(a)) && !(t <= Id(b)) ==> Score(a, term) > Score(b, term)
    ensures var t := Lower(term);
      Starts(a, t) && !Exact(a, t) && !Starts(b, t) ==>
        (Score(a, term) > Score(b, term) <==> t <= Id(a) || !Contains(Id(a), t) || !Contains(Id(b), t))
    ensures var t := Lower(term);
      Contains(Id(a), t) && !Exact(b, t) && !Starts(b, t) && !Contains(Id(b), t) ==> Score(a, term) > Score(b, term)
  {
    var t := Lower(term);
    Prefixes(a, t);
    Prefixes(b, t);
  }

  lemma Prefixes(c: Client, t: string)
    ensures t <= Id(c) ==> Contains(Id(c), t)
    ensures t <= ClientId(c) ==> Contains(ClientId(c), t)
    ensures t <= NameOf(c) ==> Contains(NameOf(c), t)
  {
    if t <= Id(c) { PrefixIsInside(Id(c), t); }
    if t <= ClientId(c) { PrefixIsInside(ClientId(c), t); }
    if t <= NameOf(c) { PrefixIsInside(NameOf(c), t); }
  }

  lemma LowerCaseStays()
    ensures Lower("web") == "web" && Lower("1web") == "1web" && Lower("2web") == "2web" && Lower("") == ""
    ensures Lower("web-app") == "web-app" && Lower("my-web") == "my-web"
  {}

  /** A prefix match that scores no higher than a match inside, because its id holds the term as well. */
  lemma PrefixScoresAsInside()
    ensures var a, b := Client(Some("1web"), Some("web-app"), None, ""), Client(Some("2web"), Some("my-web"), None, "");
      Starts(a, "web") && !Starts(b, "web") && Score(a, "web") == Score(b, "web")
  {
    var a, b := Client(Some("1web"), Some("web-app"), None, ""), Client(Some("2web"), Some("my-web"), None, "");
    LowerCaseStays();
    assert "1web"[1..] == "web" && "2web"[1..] == "web";
    assert Contains("1web", "web") && Contains("2web", "web");
    assert "1web"[0] != 'w' && "2web"[0] != 'w' && "my-web"[0] != 'w';
    assert "web" <= "web-app" && |"web-app"| == 7 && |"my-web"| == 6 && |"1web"| == 4 && |"2web"| == 4;
  }

  type Scored = (nat, Client)

  /** Higher scores first, then client ids, then ids; missing ids count as empty. */
  predicate Before(a: Scored, b: Scored) {
    if a.0 != b.0 then a.0 > b.0
    else if OrEmpty(a.1.clientId) != OrEmpty(b.1.clientId) then LexLe(OrEmpty(a.1.clientId), OrEmpty(b.1.clientId))
    else LexLe(OrEmpty(a.1.id), OrEmpty(b.1.id))
  }

  function ScoreAll(clients: seq<Client>, term: string): seq<Scored> {
    if clients == [] then []
    else
      var score := Score(clients[0], term);
      (if score > 0 then [(score, clients[0])] else []) + ScoreAll(clients[1..], term)
  }

  function NormalizeTerm(term: string): string {
    Trim(Lower(term))
  }

  function Ranked(clients: seq<Client>, term: string): seq<Scored> {
    Sort(Before, ScoreAll(clients, NormalizeTerm(term)))
  }

  const DEFAULT_LIMIT := 100

  function Limit(limit: Option<nat>): nat {
    if limit.Some? then limit.value else DEFAULT_LIMIT
  }

  function Rank(clients: seq<Client>, term: string, limit: Option<nat>): seq<Client> {
    Clients(Take(Ranked(clients, term), Limit(limit)))
  }

  function Clients(scored: seq<Scored>): seq<Client> {
    seq(|scored|, i requires 0 <= i < |scored| => scored[i].1)
  }

  /** Higher scores come first; among equal scores the smaller client id, and then the smaller id. */
  lemma BeforeMeans(a: Scored, b: Scored)
    ensures a.0 > b.0 ==> Before(a, b) && !Before(b, a)
    ensures var x, y := OrEmpty(a.1.clientId), OrEmpty(b.1.clientId);
      a.0 == b.0 && x != y && LexLe(x, y) ==> Before(a, b) && !Before(b, a)
    ensures var x, y := OrEmpty(a.1.id), OrEmpty(b.1.id);
      a.0 == b.0 && OrEmpty(a.1.clientId) == OrEmpty(b.1.clientId) && x != y && LexLe(x, y) ==> Before(a, b) && !Before(b, a)
  {
    LexTotal(OrEmpty(a.1.clientId), OrEmpty(b.1.clientId));
    LexTotal(OrEmpty(a.1.id), OrEmpty(b.1.id));
  }

  lemma BeforeOrders()
    ensures TotalPreorder(Before)
  {
    LexOrders();
    forall a, b ensures Before(a, b) || Before(b, a) {
      LexTotal(OrEmpty(a.1.clientId), OrEmpty(b.1.clientId));
      LexTotal(OrEmpty(a.1.id), OrEmpty(b.1.id));
    }
    forall a, b, c | Before(a, b) && Before(b, c) ensures Before(a, c) {
      BeforeTransitive(a, b, c);
    }
  }

  lemma BeforeTransitive(a: Scored, b: Scored, c: Scored)
    requires Before(a, b) && Before(b, c)
    ensures Before(a, c)
  {
    LexOrders();
    if a.0 == b.0 == c.0 {
      var x, y, z := OrEmpty(a.1.clientId), OrEmpty(b.1.clientId), OrEmpty(c.1.clientId);
      if x != y || y != z {
        assert LexLe(x, y) && LexLe(y, z) && LexLe(x, z);
      } else {
        LexTransitive(OrEmpty(a.1.id), OrEmpty(b.1.id), OrEmpty(c.1.id));
      }
    }
  }

  // ---- Main results -----------------------------------------------------------------------

  lemma {:induction false} ScoreAllMembers(clients: seq<Client>, term: string)
    ensures forall s :: s in ScoreAll(clients, term) <==> s.1 in clients && s.0 == Score(s.1, term) && s.0 > 0
  {
    if clients != [] {
      ScoreAllMembers(clients[1..], term);
      assert clients == [clients[0]] + clients[1..];
    }
  }

  lemma RankedSortsCandidates(clients: seq<Client>, term: string)
    ensures var scored := ScoreAll(clients, NormalizeTerm(term));
      && Sorted(Before, Ranked(clients, term))
      && multiset(Ranked(clients, term)) == multiset(scored)
      && |Ranked(clients, term)| == |scored|
    ensures forall s :: s in Ranked(clients, term) <==>
      s.1 in clients && s.0 == Score(s.1, NormalizeTerm(term)) && s.0 > 0
  {
    var scored := ScoreAll(clients, NormalizeTerm(term));
    BeforeOrders();
    SortSorts(Before, scored);
    SortPermutes(Before, scored);
    SameMembers(Ranked(clients, term), scored);
    ScoreAllMembers(clients, NormalizeTerm(term));
  }

  /** Case and surrounding white space of the term make no difference. */
  lemma TermNormalized(clients: seq<Client>, a: string, b: string, limit: Option<nat>)
    requires Trim(Lower(a)) == Trim(Lower(b))
    ensures Rank(clients, a, limit) == Rank(clients, b, limit)
  {}

  /** `listed` is sorted, `omitted` the rest of `scored`, and nothing omitted ranks strictly before a listed one. */
  ghost predicate TopOf(listed: seq<Scored>, omitted: seq<Scored>, scored: seq<Scored>) {
    && multiset(listed) + multiset(omitted) == multiset(scored)
    && Sorted(Before, listed)
    && (forall s, o | s in listed && o in omitted :: Before(s, o))
  }

  /**
    The result lists the top of the candidates with a positive score, each as often as it was found,
    and is as long as the limit allows.
   */
  lemma RankingIsTopOfCandidates(clients: seq<Client>, term: string, limit: Option<nat>)
    ensures var scored := ScoreAll(clients, NormalizeTerm(term));
      exists listed: seq<Scored>, omitted: seq<Scored> ::
        && TopOf(listed, omitted, scored)
        && Rank(clients, term, limit) == Clients(listed)
        && var most := if limit.Some? then limit.value else 100;
           |listed| == if |scored| <= most then |scored| else most
  {
    RankedSortsCandidates(clients, term);
    TakeIsTop(Ranked(clients, term), ScoreAll(clients, NormalizeTerm(term)), Limit(limit));
  }

  lemma TakeIsTop(all: seq<Scored>, scored: seq<Scored>, limit: nat)
    requires Sorted(Before, all) && multiset(all) == multiset(scored) && |all| == |scored|
    ensures exists listed: seq<Scored>, omitted: seq<Scored> ::
      && TopOf(listed, omitted, scored)
      && Clients(Take(all, limit)) == Clients(listed)
      && |listed| == if |scored| <= limit then |scored| else limit
  {
    var n := |Take(all, limit)|;
    SplitSorted(all, scored, n);
    assert Take(all, limit) == all[..n];
  }

  lemma SplitSorted(all: seq<Scored>, scored: seq<Scored>, n: nat)
    requires Sorted(Before, all) && n <= |all| && multiset(all) == multiset(scored)
    ensures TopOf(all[..n], all[n..], scored)
  {
    assert all == all[..n] + all[n..];
    forall s, o | s in all[..n] && o in all[n..] ensures Before(s, o) {
      var i :| 0 <= i < n && all[i] == s;
      var j :| n <= j < |all| && all[j] == o;
    }
  }

  lemma {:induction false} ScoreAllConcat(a: seq<Client>, b: seq<Client>, term: string)
    ensures ScoreAll(a + b, term) == ScoreAll(a, term) + ScoreAll(b, term)
  {
    if a == [] {
      assert a + b == b;
    } else {
      var score := Score(a[0], term);
      var head := if score > 0 then [(score, a[0])] else [];
      assert (a + b)[1..] == a[1..] + b;
      ScoreAllConcat(a[1..], b, term);
      assert head + (ScoreAll(a[1..], term) + ScoreAll(b, term)) == (head + ScoreAll(a[1..], term)) + ScoreAll(b, term);
    }
  }

  lemma ScoreAllOne(c: Client, term: string)
    ensures ScoreAll([c], term) == if Score(c, term) > 0 then [(Score(c, term), c)] else []
  {
    assert [c][1..] == [];
  }

  lemma ScoreAllFirst(c: Client, rest: seq<Client>, term: string)
    ensures ScoreAll([c] + rest, term) == ScoreAll([c], term) + ScoreAll(rest, term)
  {
    ScoreAllConcat([c], rest, term);
  }

  lemma ScoreAllRemove(s: seq<Client>, i: nat, term: string)
    requires i < |s|
    ensures multiset(ScoreAll(s, term))
      == multiset(ScoreAll([s[i]], term)) + multiset(ScoreAll(RemoveAt(s, i), term))
  {
    RemoveAtPermutes(s, i);
    ScoreAllConcat(s[..i], [s[i]] + s[i + 1..], term);
    ScoreAllFirst(s[i], s[i + 1..], term);
    ScoreAllConcat(s[..i], s[i + 1..], term);
  }

  /** Permuted candidates give permuted scores. */
  lemma {:induction false} ScoreAllPermutes(a: seq<Client>, b: seq<Client>, term: string)
    requires multiset(a) == multiset(b)
    ensures multiset(ScoreAll(a, term)) == multiset(ScoreAll(b, term))
    decreases |a|
  {
    SameMembers(a, b);
    if a != [] {
      var i := IndexOf(b, a[0]);
      DropFirst(a);
      RemoveAtPermutes(b, i);
      ScoreAllPermutes(a[1..], RemoveAt(b, i), term);
      ScoreAllFirst(a[0], a[1..], term);
      ScoreAllRemove(b, i, term);
    }
  }

  // ---- When the order of the input shows --------------------------------------------------

  /** Two different clients tie and fewer than `limit` candidates rank before them. */
  ghost predicate TieInTop(clients: seq<Client>, term: string, limit: nat) {
    var scored := ScoreAll(clients, term);
    exists a, b | a in clients && b in clients && a != b && SameRank(a, b, term) ::
      Better(Before, (Score(a, term), a), scored) < limit
  }

  predicate SameRank(a: Client, b: Client, term: string) {
    Score(a, term) == Score(b, term) > 0
    && OrEmpty(a.clientId) == OrEmpty(b.clientId) && OrEmpty(a.id) == OrEmpty(b.id)
  }

  ghost predicate OrderNeverShows(clients: seq<Client>, term: string, limit: Option<nat>) {
    forall other: seq<Client> | multiset(other) == multiset(clients) ::
      Rank(other, term, limit) == Rank(clients, term, limit)
  }

  lemma TieMeans(x: Scored, y: Scored, term: string)
    requires x.0 == Score(x.1, term) > 0 && y.0 == Score(y.1, term) > 0
    ensures Before(x, y) && Before(y, x) <==> SameRank(x.1, y.1, term)
  {
    LexOrders();
    LexTotal(OrEmpty(x.1.clientId), OrEmpty(y.1.clientId));
    LexTotal(OrEmpty(x.1.id), OrEmpty(y.1.id));
  }

  lemma NoTieInTop(clients: seq<Client>, term: string, limit: nat)
    requires !TieInTop(clients, term, limit)
    ensures NoTiesInTop(Before, ScoreAll(clients, term), limit)
  {
    var scored := ScoreAll(clients, term);
    ScoreAllMembers(clients, term);
    forall x, y | x in scored && y in scored && Before(x, y) && Before(y, x) && Better(Before, x, scored) < limit
      ensures x == y
    {
      TieMeans(x, y, term);
      assert x == (Score(x.1, term), x.1);
    }
  }

  /** Listed first in the input, a candidate takes the first place among its ties. */
  lemma FirstTakesPlace(c: Client, rest: seq<Client>, term: string)
    requires Score(c, NormalizeTerm(term)) > 0
    ensures var t := NormalizeTerm(term);
      var place := Better(Before, (Score(c, t), c), ScoreAll([c] + rest, t));
      place < |Ranked([c] + rest, term)| && Ranked([c] + rest, term)[place].1 == c
  {
    var t := NormalizeTerm(term);
    ScoreAllFirst(c, rest, t);
    ScoreAllOne(c, t);
    BeforeOrders();
    SortedPlace(Before, (Score(c, t), c), ScoreAll(rest, t));
  }

  lemma PlaceInRank(clients: seq<Client>, term: string, limit: Option<nat>, i: nat)
    requires i < |Ranked(clients, term)| && i < Limit(limit)
    ensures i < |Rank(clients, term, limit)| && Rank(clients, term, limit)[i] == Ranked(clients, term)[i].1
  {}

  /** Some order of the input puts `c` first among its ties. */
  lemma FirstOfTies(clients: seq<Client>, c: Client, term: string, limit: Option<nat>, place: nat)
    returns (other: seq<Client>)
    requires c in clients && Score(c, NormalizeTerm(term)) > 0
    requires var t := NormalizeTerm(term); place == Better(Before, (Score(c, t), c), ScoreAll(clients, t))
    requires place < Limit(limit)
    ensures multiset(other) == multiset(clients)
    ensures place < |Rank(other, term, limit)| && Rank(other, term, limit)[place] == c
  {
    var t := NormalizeTerm(term);
    var i := IndexOf(clients, c);
    var rest := RemoveAt(clients, i);
    RemoveAtPermutes(clients, i);
    other := [c] + rest;
    ScoreAllPermutes(other, clients, t);
    BetterCount(Before, (Score(c, t), c), ScoreAll(other, t), ScoreAll(clients, t));
    FirstTakesPlace(c, rest, term);
    PlaceInRank(other, term, limit, place);
  }

  lemma TiesChangePlaces(clients: seq<Client>, term: string, limit: Option<nat>)
    requires TieInTop(clients, NormalizeTerm(term), Limit(limit))
    ensures !OrderNeverShows(clients, term, limit)
  {
    var t := NormalizeTerm(term);
    var scored := ScoreAll(clients, t);
    var a, b :| a in clients && b in clients && a != b && SameRank(a, b, t)
      && Better(Before, (Score(a, t), a), scored) < Limit(limit);
    SameBetter(a, b, t, scored);
    var place := Better(Before, (Score(a, t), a), scored);
    var first := FirstOfTies(clients, a, term, limit, place);
    var second := FirstOfTies(clients, b, term, limit, place);
    assert Rank(first, term, limit) != Rank(second, term, limit);
  }

  lemma SameBetter(a: Client, b: Client, term: string, scored: seq<Scored>)
    requires SameRank(a, b, term)
    ensures Better(Before, (Score(a, term), a), scored) == Better(Before, (Score(b, term), b), scored)
  {
    var x: Scored, y: Scored := (Score(a, term), a), (Score(b, term), b);
    forall s | s in scored ensures Before(x, s) == Before(y, s) {}
    BetterAlike(Before, x, y, scored);
  }

  /**
    The result is the same for every order of the input exactly when no two different clients tie
    with fewer than `limit` candidates before them.
   */
  lemma OrderShowsExactly(clients: seq<Client>, term: string, limit: Option<nat>)
    ensures OrderNeverShows(clients, term, limit) <==> !TieInTop(clients, NormalizeTerm(term), Limit(limit))
  {
    var t := NormalizeTerm(term);
    if TieInTop(clients, t, Limit(limit)) {
      TiesChangePlaces(clients, term, limit);
    } else {
      NoTieInTop(clients, t, Limit(limit));
      BeforeOrders();
      forall other: seq<Client> | multiset(other) == multiset(clients)
        ensures Rank(other, term, limit) == Rank(clients, term, limit)
      {
        ScoreAllPermutes(clients, other, t);
        TopIgnoresOrder(Before, ScoreAll(clients, t), ScoreAll(other, t), Limit(limit));
      }
    }
  }

  /** Scored candidates that agree on client id and id are the same candidate. */
  ghost predicate DistinctKeys(clients: seq<Client>, term: string) {
    forall a, b | a in clients && b in clients && Score(a, term) > 0 && Score(b, term) > 0
        && OrEmpty(a.clientId) == OrEmpty(b.clientId) && OrEmpty(a.id) == OrEmpty(b.id) :: a == b
  }

  /** Without two candidates under one key the result is the same for every order of the input. */
  lemma RankingIgnoresInputOrder(a: seq<Client>, b: seq<Client>, term: string, limit: Option<nat>)
    requires multiset(a) == multiset(b) && DistinctKeys(a, NormalizeTerm(term))
    ensures Rank(a, term, limit) == Rank(b, term, limit)
  {
    OrderShowsExactly(a, term, limit);
    assert OrderNeverShows(a, term, limit);
  }

  /** Two different clients under one key keep the order of the input. */
  lemma TiesKeepInputOrder(a: Client, b: Client, term: string)
    requires a != b && OrEmpty(a.clientId) == OrEmpty(b.clientId) && OrEmpty(a.id) == OrEmpty(b.id)
    requires Score(a, NormalizeTerm(term)) == Score(b, NormalizeTerm(term)) > 0
    ensures Rank([a, b], term, None) == [a, b] && Rank([b, a], term, None) == [b, a]
  {
    RankTwo(a, b, term);
    RankTwo(b, a, term);
  }

  lemma RankTwo(a: Client, b: Client, term: string)
    requires OrEmpty(a.clientId) == OrEmpty(b.clientId) && OrEmpty(a.id) == OrEmpty(b.id)
    requires Score(a, NormalizeTerm(term)) == Score(b, NormalizeTerm(term)) > 0
    ensures Rank([a, b], term, None) == [a, b]
  {
    var t := NormalizeTerm(term);
    var x: Scored, y: Scored := (Score(a, t), a), (Score(b, t), b);
    var one: seq<Scored> := [y];
    assert one[1..] == [];
    assert [a, b][1..] == [b] && |[b][1..]| == 0;
    assert ScoreAll([b], t) == [y];
    assert ScoreAll([a, b], t) == [x, y];
    LexTotal(OrEmpty(a.id), OrEmpty(a.id));
    assert Sort(Before, one) == [y];
    var two: seq<Scored> := [x, y];
    assert two[1..] == one;
    assert Sort(Before, two) == [x, y];
  }

  // ---- The merge before ranking -----------------------------------------------------------

  predicate IdListed(clients: seq<Client>, c: Client) {
    c.id.Some? && exists e | e in clients :: e.id == c.id
  }

  /** Fetched clients join the list in order unless their id is already in it. */
  method Merge(found: seq<Client>, fetched: seq<Client>) returns (clients: seq<Client>)
    ensures clients == Merged(found, fetched)
  {
    clients := found;
    for i := 0 to |fetched|
      invariant Merged(found, fetched) == Merged(clients, fetched[i..])
    {
      assert fetched[i..][1..] == fetched[i + 1..];
      if !IdListed(clients, fetched[i]) {
        clients := clients + [fetched[i]];
      }
    }
  }

  function Merged(clients: seq<Client>, fetched: seq<Client>): seq<Client>
    decreases |fetched|
  {
    if fetched == [] then clients
    else Merged(if IdListed(clients, fetched[0]) then clients else clients + [fetched[0]], fetched[1..])
  }

  /**
    The merge keeps what was found first, adds only fetched clients, never lists a second client
    with an id, and leaves out a fetched client only when its id is listed.
   */
  lemma {:induction false} MergeKeepsIdsUnique(found: seq<Client>, fetched: seq<Client>)
    ensures found <= Merged(found, fetched)
    ensures forall k | |found| <= k < |Merged(found, fetched)| ::
      Merged(found, fetched)[k] in fetched
    ensures forall j, k | 0 <= j < k < |Merged(found, fetched)| && |found| <= k ::
      Merged(found, fetched)[k].id.Some? ==> Merged(found, fetched)[j].id != Merged(found, fetched)[k].id
    ensures forall c | c in fetched ::
      c in Merged(found, fetched) || (c.id.Some? && exists d | d in Merged(found, fetched) :: d.id == c.id)
    decreases |fetched|
  {
    if fetched != [] {
      var next := if IdListed(found, fetched[0]) then found else found + [fetched[0]];
      MergeKeepsIdsUnique(next, fetched[1..]);
      var merged := Merged(found, fetched);
      assert merged == Merged(next, fetched[1..]);
      if next != found {
        assert merged[..|found|] == found;
        assert merged[|found|] == fetched[0];
      }
      forall c | c in fetched ensures c in merged || IdListed(merged, c) {
        assert c == fetched[0] || c in fetched[1..];
      }
    }
  }
}
