/**
  Whether the order in which a server lists clients shows in a search result. The merge in front of
  the ranking keeps the first client under each id, so the order decides which one that is, and the
  ranking keeps ties in the order of the merge.
 */
module SearchOrder {
  import opened ClientRanking
  import opened Options
  import opened Sequences
  import opened Sorting
  import opened Text

  // ---- What the merge keeps ---------------------------------------------------------------

  function IdsIn(clients: seq<Client>): set<string> {
    set c | c in clients && c.id.Some? :: c.id.value
  }

  predicate Open(ids: set<string>, c: Client) {
    c.id.Some? ==> c.id.value !in ids
  }

  function OwnId(c: Client): set<string> {
    if c.id.Some? then {c.id.value} else {}
  }

  /** The clients the merge adds when the ids in `ids` are listed. */
  function Kept(ids: set<string>, fetched: seq<Client>): seq<Client>
    decreases |fetched|
  {
    if fetched == [] then []
    else if Open(ids, fetched[0]) then [fetched[0]] + Kept(ids + OwnId(fetched[0]), fetched[1..])
    else Kept(ids, fetched[1..])
  }

  lemma {:induction false} MergedIsKept(found: seq<Client>, fetched: seq<Client>)
    ensures Merged(found, fetched) == found + Kept(IdsIn(found), fetched)
    decreases |fetched|
  {
    if fetched == [] {
      assert found + [] == found;
    } else {
      var c := fetched[0];
      OpenIsUnlisted(found, c);
      if Open(IdsIn(found), c) {
        MergedIsKept(found + [c], fetched[1..]);
        assert IdsIn(found + [c]) == IdsIn(found) + OwnId(c);
        assert found + [c] + Kept(IdsIn(found + [c]), fetched[1..]) == found + ([c] + Kept(IdsIn(found + [c]), fetched[1..]));
      } else {
        MergedIsKept(found, fetched[1..]);
      }
    }
  }

  lemma OpenIsUnlisted(found: seq<Client>, c: Client)
    ensures Open(IdsIn(found), c) <==> !IdListed(found, c)
  {}

  lemma {:induction false} KeptMembers(ids: set<string>, fetched: seq<Client>)
    ensures forall c | c in Kept(ids, fetched) :: c in fetched && Open(ids, c)
    decreases |fetched|
  {
    if fetched != [] {
      var c := fetched[0];
      KeptMembers(if Open(ids, c) then ids + OwnId(c) else ids, fetched[1..]);
    }
  }

  lemma {:induction false} KeptConcat(ids: set<string>, a: seq<Client>, b: seq<Client>)
    ensures Kept(ids, a + b) == Kept(ids, a) + Kept(ids + IdsIn(a), b)
    decreases |a|
  {
    if a == [] {
      assert a + b == b && ids + IdsIn(a) == ids;
    } else {
      assert (a + b)[1..] == a[1..] + b;
      assert a == [a[0]] + a[1..];
      var next := if Open(ids, a[0]) then ids + OwnId(a[0]) else ids;
      KeptConcat(next, a[1..], b);
      assert next + IdsIn(a[1..]) == ids + IdsIn(a);
      if Open(ids, a[0]) {
        assert [a[0]] + (Kept(next, a[1..]) + Kept(ids + IdsIn(a), b)) == [a[0]] + Kept(next, a[1..]) + Kept(ids + IdsIn(a), b);
      }
    }
  }

  /** Under each open id of a fetched client, some client is kept. */
  lemma {:induction false} SomeKept(ids: set<string>, fetched: seq<Client>, c: Client) returns (k: Client)
    requires c in fetched && c.id.Some? && Open(ids, c)
    ensures k in Kept(ids, fetched) && k.id == c.id
    decreases |fetched|
  {
    var h := fetched[0];
    if h.id == c.id {
      k := h;
    } else {
      assert c in fetched[1..];
      k := SomeKept(if Open(ids, h) then ids + OwnId(h) else ids, fetched[1..], c);
    }
  }

  /** How often a client is kept, where its id does not make it compete with another client. */
  predicate Settled(fetched: seq<Client>, c: Client) {
    c.id.Some? ==> forall q | q in fetched :: q.id == c.id ==> q == c
  }

  function SettledCount(ids: set<string>, fetched: seq<Client>, c: Client): nat {
    if c.id.None? then multiset(fetched)[c]
    else if c in fetched && Open(ids, c) then 1
    else 0
  }

  lemma {:induction false} KeptCount(ids: set<string>, fetched: seq<Client>, c: Client)
    requires Settled(fetched, c)
    ensures multiset(Kept(ids, fetched))[c] == SettledCount(ids, fetched, c)
    decreases |fetched|
  {
    if fetched != [] {
      var h, rest := fetched[0], fetched[1..];
      assert fetched == [h] + rest;
      var next := if Open(ids, h) then ids + OwnId(h) else ids;
      assert Settled(rest, c) by {
        if c.id.Some? {
          forall q | q in rest && q.id == c.id ensures q == c {
            assert q in fetched;
          }
        }
      }
      KeptCount(next, rest, c);
      if Open(ids, h) {
        assert multiset([h] + Kept(next, rest)) == multiset{h} + multiset(Kept(next, rest));
      }
      assert h.id == c.id && c.id.Some? ==> h == c;
    }
  }

  lemma {:induction false} FilterMultiset<T>(p: T -> bool, s: seq<T>, x: T)
    ensures multiset(Filter(p, s))[x] == if p(x) then multiset(s)[x] else 0
  {
    if s != [] {
      FilterMultiset(p, s[1..], x);
      assert s == [s[0]] + s[1..];
      var head := if p(s[0]) then [s[0]] else [];
      assert multiset(head + Filter(p, s[1..])) == multiset(head) + multiset(Filter(p, s[1..]));
    }
  }

  /** Permuting what was fetched keeps the same settled clients. */
  lemma SettledKept(p: Client -> bool, ids: set<string>, a: seq<Client>, b: seq<Client>)
    requires multiset(a) == multiset(b) && forall c :: p(c) ==> Settled(a, c)
    ensures multiset(Filter(p, Kept(ids, a))) == multiset(Filter(p, Kept(ids, b)))
  {
    SameMembers(a, b);
    forall c ensures multiset(Filter(p, Kept(ids, a)))[c] == multiset(Filter(p, Kept(ids, b)))[c] {
      FilterMultiset(p, Kept(ids, a), c);
      FilterMultiset(p, Kept(ids, b), c);
      if p(c) {
        KeptCount(ids, a, c);
        KeptCount(ids, b, c);
      }
    }
  }

  // ---- Candidates -------------------------------------------------------------------------

  /** A search; `filtered` when it is for an exact match, or its query is a UUID. */
  datatype Search = Search(query: string, filtered: bool) {
    function Term(): string {
      NormalizeTerm(query)
    }

    /** The filter behind the merge. */
    predicate Keeps(c: Client) {
      filtered ==>
        || (c.id.Some? && Lower(c.id.value) == Lower(query))
        || (c.clientId.Some? && Lower(c.clientId.value) == Lower(query))
    }

    function Keeping(): Client -> bool {
      (c: Client) => Keeps(c)
    }
  }

  predicate Candidate(s: Search, c: Client) {
    s.Keeps(c) && Score(c, s.Term()) > 0
  }

  function Scored(c: Client, s: Search): ClientRanking.Scored {
    (Score(c, s.Term()), c)
  }

  /** The scored candidates among the clients. */
  function Candidates(s: Search, clients: seq<Client>): seq<ClientRanking.Scored> {
    ScoreAll(Filter(s.Keeping(), clients), s.Term())
  }

  /** Merge, filter and ranking. */
  function Result(found: seq<Client>, fetched: seq<Client>, s: Search, limit: Option<nat>): seq<Client> {
    Rank(Filter(s.Keeping(), Merged(found, fetched)), s.query, limit)
  }

  /**
    A search for an exact match, or by a UUID, ranks those of the merged clients whose id or client id
    is the query in any case; every other search ranks all of them.
   */
  lemma ResultIsRanked(found: seq<Client>, fetched: seq<Client>, s: Search, limit: Option<nat>)
    ensures !s.filtered ==> Result(found, fetched, s, limit) == Rank(Merged(found, fetched), s.query, limit)
    ensures var p := (c: Client) => (c.id.Some? && Lower(c.id.value) == Lower(s.query))
        || (c.clientId.Some? && Lower(c.clientId.value) == Lower(s.query));
      s.filtered ==> Result(found, fetched, s, limit) == Rank(Filter(p, Merged(found, fetched)), s.query, limit)
  {
    var p := (c: Client) => (c.id.Some? && Lower(c.id.value) == Lower(s.query))
      || (c.clientId.Some? && Lower(c.clientId.value) == Lower(s.query));
    if s.filtered {
      FilterCongruent(s.Keeping(), p, Merged(found, fetched));
    } else {
      FilterAll(s.Keeping(), Merged(found, fetched));
    }
  }

  lemma CandidatesConcat(s: Search, a: seq<Client>, b: seq<Client>)
    ensures Candidates(s, a + b) == Candidates(s, a) + Candidates(s, b)
  {
    FilterConcat(s.Keeping(), a, b);
    ScoreAllConcat(Filter(s.Keeping(), a), Filter(s.Keeping(), b), s.Term());
  }

  lemma CandidatesOne(s: Search, c: Client)
    ensures Candidates(s, [c]) == if Candidate(s, c) then [Scored(c, s)] else []
  {
    FilterOne(s.Keeping(), c);
    ScoreAllOne(c, s.Term());
  }

  lemma CandidatesMembers(s: Search, clients: seq<Client>, u: ClientRanking.Scored)
    requires u in Candidates(s, clients)
    ensures u.1 in clients && u == Scored(u.1, s) && Candidate(s, u.1)
  {
    ScoreAllMembers(Filter(s.Keeping(), clients), s.Term());
    FilterMembers(s.Keeping(), clients);
  }

  lemma CandidatesPermute(s: Search, a: seq<Client>, b: seq<Client>)
    requires multiset(a) == multiset(b)
    ensures multiset(Candidates(s, a)) == multiset(Candidates(s, b))
  {
    var p := s.Keeping();
    forall c ensures multiset(Filter(p, a))[c] == multiset(Filter(p, b))[c] {
      FilterMultiset(p, a, c);
      FilterMultiset(p, b, c);
    }
    ScoreAllPermutes(Filter(p, a), Filter(p, b), s.Term());
  }

  // ---- Places -----------------------------------------------------------------------------

  /** The client is a candidate and ranks strictly before `y`. */
  predicate Beats(s: Search, y: Client, c: Client) {
    Candidate(s, c) && !Before(Scored(y, s), Scored(c, s))
  }

  /** A found client goes before `y` also when they tie. */
  predicate Leads(s: Search, y: Client, c: Client) {
    Candidate(s, c) && Before(Scored(c, s), Scored(y, s))
  }

  function Beating(s: Search, y: Client): Client -> bool {
    (c: Client) => Beats(s, y, c)
  }

  function Leading(s: Search, y: Client): Client -> bool {
    (c: Client) => Leads(s, y, c)
  }

  /** How many of the merged clients stand before `y`, when `y` is the first of its ties to be kept. */
  function Place(found: seq<Client>, kept: seq<Client>, s: Search, y: Client): nat {
    |Filter(Leading(s, y), found)| + |Filter(Beating(s, y), kept)|
  }

  /** The open ids under which every fetched client beats `y`. */
  function BeatenIds(ids: set<string>, fetched: seq<Client>, s: Search, y: Client): set<string> {
    set c | c in fetched && c.id.Some? && Open(ids, c) && AllBeat(fetched, c.id, s, y) :: c.id.value
  }

  predicate AllBeat(fetched: seq<Client>, id: Option<string>, s: Search, y: Client) {
    forall q | q in fetched :: q.id == id ==> Beats(s, y, q)
  }

  function WithoutId(p: Client -> bool): Client -> bool {
    (c: Client) => c.id.None? && p(c)
  }

  /**
    The best place that `y` can have over all orders of what was fetched: behind the found clients
    before it, the clients without id that beat it, and one client for each id under which all do.
   */
  function BestPlace(found: seq<Client>, fetched: seq<Client>, s: Search, y: Client): nat {
    |Filter(Leading(s, y), found)| + |Filter(WithoutId(Beating(s, y)), fetched)| + |BeatenIds(IdsIn(found), fetched, s, y)|
  }

  /** The ids of the clients that `p` picks. */
  function PickedIds(p: Client -> bool, clients: seq<Client>): set<string> {
    set c | c in clients && c.id.Some? && p(c) :: c.id.value
  }

  lemma PickedCons(p: Client -> bool, h: Client, tail: seq<Client>)
    ensures PickedIds(p, [h] + tail) == PickedIds(p, tail) + (if p(h) then OwnId(h) else {})
    ensures |Filter(p, [h] + tail)| == |Filter(p, tail)| + (if p(h) then 1 else 0)
  {
    FilterConcat(p, [h], tail);
    FilterOne(p, h);
    assert forall c :: c in [h] + tail <==> c == h || c in tail;
  }

  /** Clients with an id are kept once for each id. */
  lemma {:induction false} PickedCount(p: Client -> bool, ids: set<string>, fetched: seq<Client>)
    ensures var kept := Kept(ids, fetched);
      |Filter(p, kept)| == |Filter(WithoutId(p), fetched)| + |PickedIds(p, kept)|
    decreases |fetched|
  {
    if fetched == [] {
      assert PickedIds(p, []) == {};
    } else {
      var h, rest := fetched[0], fetched[1..];
      var next := if Open(ids, h) then ids + OwnId(h) else ids;
      var tail := Kept(next, rest);
      PickedCount(p, next, rest);
      assert fetched == [h] + rest;
      PickedCons(WithoutId(p), h, rest);
      PickedCons(p, h, tail);
      if Open(ids, h) {
        NewId(p, ids, h, rest);
      }
    }
  }

  lemma NewId(p: Client -> bool, ids: set<string>, h: Client, rest: seq<Client>)
    requires Open(ids, h)
    ensures var tail := Kept(ids + OwnId(h), rest);
      |PickedIds(p, tail) + (if p(h) then OwnId(h) else {})| == |PickedIds(p, tail)| + (if p(h) then |OwnId(h)| else 0)
  {
    KeptMembers(ids + OwnId(h), rest);
    assert PickedIds(p, Kept(ids + OwnId(h), rest)) * OwnId(h) == {};
    assert PickedIds(p, Kept(ids + OwnId(h), rest)) + {} == PickedIds(p, Kept(ids + OwnId(h), rest));
  }

  /** No order of what was fetched gives `y` a better place. */
  lemma BestPlaceIsBest(found: seq<Client>, fetched: seq<Client>, other: seq<Client>, s: Search, y: Client)
    requires multiset(other) == multiset(fetched)
    ensures BestPlace(found, fetched, s, y) <= Place(found, Kept(IdsIn(found), other), s, y)
  {
    var ids := IdsIn(found);
    var kept := Kept(ids, other);
    SameMembers(other, fetched);
    PickedCount(Beating(s, y), ids, other);
    FilterCount(WithoutId(Beating(s, y)), other, fetched);
    KeptMembers(ids, other);
    forall id | id in BeatenIds(ids, fetched, s, y) ensures id in PickedIds(Beating(s, y), kept) {
      var c :| c in fetched && c.id == Some(id) && Open(ids, c) && AllBeat(fetched, c.id, s, y);
      var k := SomeKept(ids, other, c);
      assert k in fetched && Beats(s, y, k);
    }
    SubsetSize(BeatenIds(ids, fetched, s, y), PickedIds(Beating(s, y), kept));
  }

  function Negated<T>(p: T -> bool): T -> bool {
    (x: T) => !p(x)
  }

  /** First `y`, then those that `p` does not pick, then those that it does. */
  function PickedLast(p: Client -> bool, y: Client, rest: seq<Client>): seq<Client> {
    [y] + Filter(Negated(p), rest) + Filter(p, rest)
  }

  /** The order in favour of `y`: first `y`, then those that do not beat it, then those that do. */
  function InFavour(fetched: seq<Client>, s: Search, y: Client, i: nat): seq<Client>
    requires i < |fetched|
  {
    PickedLast(Beating(s, y), y, RemoveAt(fetched, i))
  }

  lemma SumOfCounts<T>(a: multiset<T>, b: multiset<T>, s: multiset<T>)
    requires forall x :: a[x] + b[x] == s[x]
    ensures a + b == s
  {
    forall x ensures (a + b)[x] == s[x] {}
  }

  lemma FilterParts<T>(p: T -> bool, s: seq<T>)
    ensures multiset(Filter(Negated(p), s)) + multiset(Filter(p, s)) == multiset(s)
  {
    var a, b := multiset(Filter(Negated(p), s)), multiset(Filter(p, s));
    forall x ensures a[x] + b[x] == multiset(s)[x] {
      FilterMultiset(Negated(p), s, x);
      FilterMultiset(p, s, x);
    }
    SumOfCounts(a, b, multiset(s));
  }

  lemma PickedLastPermutes(p: Client -> bool, y: Client, rest: seq<Client>)
    ensures multiset(PickedLast(p, y, rest)) == multiset{y} + multiset(rest)
  {
    FilterParts(p, rest);
  }

  lemma InFavourPermutes(fetched: seq<Client>, s: Search, y: Client, i: nat)
    requires i < |fetched| && fetched[i] == y
    ensures multiset(InFavour(fetched, s, y, i)) == multiset(fetched)
  {
    RemoveAtPermutes(fetched, i);
    PickedLastPermutes(Beating(s, y), y, RemoveAt(fetched, i));
  }

  lemma SelfDoesNotBeat(s: Search, y: Client)
    ensures !Beats(s, y, y)
  {
    BeforeOrders();
  }

  /** Ids that are kept behind all that `p` does not pick belong to picked clients alone. */
  lemma PickedLastKeeps(p: Client -> bool, ids: set<string>, y: Client, rest: seq<Client>, c: Client, q: Client)
    requires !p(y)
    requires c in Kept(ids, PickedLast(p, y, rest)) && c.id.Some? && p(c)
    requires q in PickedLast(p, y, rest) && q.id == c.id
    ensures p(q) && Open(ids, c)
  {
    var a, b := [y] + Filter(Negated(p), rest), Filter(p, rest);
    FilterMembers(Negated(p), rest);
    FilterMembers(p, rest);
    KeptConcat(ids, a, b);
    KeptMembers(ids, a);
    KeptMembers(ids + IdsIn(a), b);
    assert c !in a && c in Kept(ids + IdsIn(a), b);
    assert q !in a;
  }

  /** In the order in its favour `y` has its best place. */
  lemma FavourIsBest(found: seq<Client>, fetched: seq<Client>, s: Search, y: Client, i: nat)
    requires i < |fetched| && fetched[i] == y
    ensures Place(found, Kept(IdsIn(found), InFavour(fetched, s, y, i)), s, y) == BestPlace(found, fetched, s, y)
  {
    var ids, other := IdsIn(found), InFavour(fetched, s, y, i);
    var rest := RemoveAt(fetched, i);
    InFavourPermutes(fetched, s, y, i);
    BestPlaceIsBest(found, fetched, other, s, y);
    PickedCount(Beating(s, y), ids, other);
    FilterCount(WithoutId(Beating(s, y)), other, fetched);
    SameMembers(other, fetched);
    SelfDoesNotBeat(s, y);
    var picked := PickedIds(Beating(s, y), Kept(ids, other));
    forall id | id in picked ensures id in BeatenIds(ids, fetched, s, y) {
      var c :| c in Kept(ids, other) && c.id == Some(id) && Beats(s, y, c);
      KeptMembers(ids, other);
      forall q | q in fetched && q.id == c.id ensures Beats(s, y, q) {
        PickedLastKeeps(Beating(s, y), ids, y, rest, c, q);
      }
    }
    SubsetSize(picked, BeatenIds(ids, fetched, s, y));
  }

  // ---- The result as a sorted list with a fixed beginning ---------------------------------

  /** The scored candidates: the found ones each with its place, the kept ones behind them. */
  function All(found: seq<Client>, kept: seq<Client>, s: Search): seq<Marked<ClientRanking.Scored>> {
    var front := Candidates(s, found);
    MarkPlaces(0, front) + Mark(|front|, Candidates(s, kept))
  }

  lemma AllIsScored(found: seq<Client>, kept: seq<Client>, s: Search)
    ensures Unmark(All(found, kept, s)) == Candidates(s, found + kept) && MarksAscend(All(found, kept, s))
  {
    CandidatesConcat(s, found, kept);
    UnmarkParts(Candidates(s, found), Candidates(s, kept));
  }

  /** The result is the beginning of the sorted list of marked candidates. */
  lemma ResultIsTop(found: seq<Client>, fetched: seq<Client>, s: Search, limit: Option<nat>)
    ensures var all := All(found, Kept(IdsIn(found), fetched), s);
      Result(found, fetched, s, limit) == Clients(Unmark(Take(Sort(MarkedLe(Before), all), Limit(limit))))
  {
    var kept := Kept(IdsIn(found), fetched);
    MergedIsKept(found, fetched);
    AllIsScored(found, kept, s);
    BeforeOrders();
    SortMarked(Before, All(found, kept, s));
    assert Unmark(Take(Sort(MarkedLe(Before), All(found, kept, s)), Limit(limit)))
      == Take(Unmark(Sort(MarkedLe(Before), All(found, kept, s))), Limit(limit));
  }

  lemma {:induction false} FilterScored(p: ClientRanking.Scored -> bool, q: Client -> bool, clients: seq<Client>, s: Search)
    requires forall c :: q(c) <==> Candidate(s, c) && p(Scored(c, s))
    ensures Filter(p, Candidates(s, clients)) == Candidates(s, Filter(q, clients))
    ensures |Filter(p, Candidates(s, clients))| == |Filter(q, clients)|
  {
    if clients != [] {
      var c, rest := clients[0], clients[1..];
      FilterScored(p, q, rest, s);
      CandidatesConcat(s, [c], rest);
      CandidatesOne(s, c);
      assert clients == [c] + rest;
      FilterConcat(p, Candidates(s, [c]), Candidates(s, rest));
      FilterOne(p, Scored(c, s));
      if q(c) {
        CandidatesConcat(s, [c], Filter(q, rest));
      } else {
        assert [] + Candidates(s, rest) == Candidates(s, rest) && [] + Filter(q, rest) == Filter(q, rest);
        assert [] + Filter(p, Candidates(s, rest)) == Filter(p, Candidates(s, rest));
      }
    }
  }

  lemma {:induction false} FilterMark<T>(p: Marked<T> -> bool, q: T -> bool, place: nat, s: seq<T>)
    requires forall x :: p((place, x)) == q(x)
    ensures Filter(p, Mark(place, s)) == Mark(place, Filter(q, s))
  {
    if s != [] {
      assert Mark(place, s)[1..] == Mark(place, s[1..]);
      FilterMark(p, q, place, s[1..]);
      assert Mark(place, [s[0]] + Filter(q, s[1..])) == [(place, s[0])] + Mark(place, Filter(q, s[1..]));
      assert [] + Filter(q, s[1..]) == Filter(q, s[1..]) && [] + Mark(place, Filter(q, s[1..])) == Mark(place, Filter(q, s[1..]));
    }
  }

  function Above(y: ClientRanking.Scored): ClientRanking.Scored -> bool {
    (v: ClientRanking.Scored) => !Before(y, v)
  }

  function Upto(y: ClientRanking.Scored): ClientRanking.Scored -> bool {
    (v: ClientRanking.Scored) => Before(v, y)
  }

  lemma BetterIsBeating(kept: seq<Client>, s: Search, y: Client)
    ensures Better(Before, Scored(y, s), Candidates(s, kept)) == |Filter(Beating(s, y), kept)|
  {
    var x := Scored(y, s);
    FilterScored(Above(x), Beating(s, y), kept, s);
    BetterFilters(Before, x, Above(x), Candidates(s, kept));
  }

  lemma UptoIsLeading(found: seq<Client>, s: Search, y: Client)
    ensures |Filter(UpTo(Before, Scored(y, s)), Candidates(s, found))| == |Filter(Leading(s, y), found)|
  {
    var x := Scored(y, s);
    FilterScored(Upto(x), Leading(s, y), found, s);
    FilterCongruent(Upto(x), UpTo(Before, x), Candidates(s, found));
  }

  /** A kept candidate with its mark. */
  function KeptMark(found: seq<Client>, s: Search, y: Client): Marked<ClientRanking.Scored> {
    (|Candidates(s, found)|, Scored(y, s))
  }

  /** How many of all candidates go strictly before a kept one. */
  lemma BetterIsPlace(found: seq<Client>, kept: seq<Client>, s: Search, y: Client)
    ensures Better(MarkedLe(Before), KeptMark(found, s, y), All(found, kept, s)) == Place(found, kept, s, y)
  {
    var m, x := |Candidates(s, found)|, KeptMark(found, s, y);
    BeforeOrders();
    BetterConcat(MarkedLe(Before), x, MarkPlaces(0, Candidates(s, found)), Mark(m, Candidates(s, kept)));
    BetterPlaced(Before, m, Scored(y, s), 0, Candidates(s, found));
    BetterMarked(Before, m, Scored(y, s), Candidates(s, kept));
    BetterIsBeating(kept, s, y);
    UptoIsLeading(found, s, y);
  }

  lemma FirstOfAll(found: seq<Client>, y: Client, tail: seq<Client>, s: Search)
    requires Candidate(s, y)
    ensures var front := MarkPlaces(0, Candidates(s, found));
      All(found, [y] + tail, s) == front + [KeptMark(found, s, y)] + Mark(|front|, Candidates(s, tail))
  {
    CandidatesConcat(s, [y], tail);
    CandidatesOne(s, y);
    MarkFirst(MarkPlaces(0, Candidates(s, found)), |Candidates(s, found)|, Scored(y, s), Candidates(s, tail));
  }

  lemma FirstIsPlaced(found: seq<Client>, y: Client, tail: seq<Client>, s: Search)
    requires Candidate(s, y)
    ensures var r := Sort(MarkedLe(Before), All(found, [y] + tail, s));
      var place := Place(found, [y] + tail, s, y);
      place < |r| && r[place] == KeptMark(found, s, y)
  {
    var front := MarkPlaces(0, Candidates(s, found));
    FirstOfAll(found, y, tail, s);
    BeforeOrders();
    MarkedOrders(Before);
    SortedPlaceBehind(MarkedLe(Before), front, KeptMark(found, s, y), Mark(|front|, Candidates(s, tail)));
    BetterIsPlace(found, [y] + tail, s, y);
  }

  lemma TakenPlace(r: seq<Marked<ClientRanking.Scored>>, n: nat, place: nat, y: Client)
    requires place < |r| && place < n && r[place].1.1 == y
    ensures var result := Clients(Unmark(Take(r, n))); place < |result| && result[place] == y
  {}

  /** Fetched first, an open candidate takes its place in the result. */
  lemma FirstTakesPlace(found: seq<Client>, y: Client, rest: seq<Client>, s: Search, limit: Option<nat>)
    requires Open(IdsIn(found), y) && Candidate(s, y)
    requires Place(found, Kept(IdsIn(found), [y] + rest), s, y) < Limit(limit)
    ensures var place := Place(found, Kept(IdsIn(found), [y] + rest), s, y);
      var result := Result(found, [y] + rest, s, limit);
      place < |result| && result[place] == y
  {
    var ids := IdsIn(found);
    var tail := Kept(ids + OwnId(y), rest);
    assert ([y] + rest)[1..] == rest;
    assert Kept(ids, [y] + rest) == [y] + tail;
    FirstIsPlaced(found, y, tail, s);
    ResultIsTop(found, [y] + rest, s, limit);
    TakenPlace(Sort(MarkedLe(Before), All(found, [y] + tail, s)), Limit(limit), Place(found, [y] + tail, s, y), y);
  }

  lemma RankMembers(clients: seq<Client>, term: string, limit: Option<nat>)
    ensures forall c | c in Rank(clients, term, limit) :: c in clients
  {
    RankedSortsCandidates(clients, term);
    var ranked := Ranked(clients, term);
    forall i | 0 <= i < |Rank(clients, term, limit)| ensures Rank(clients, term, limit)[i] in clients {
      assert ranked[i] in ranked;
    }
  }

  lemma ResultMembers(found: seq<Client>, fetched: seq<Client>, s: Search, limit: Option<nat>)
    ensures forall c | c in Result(found, fetched, s, limit) :: c in found || c in Kept(IdsIn(found), fetched)
  {
    MergedIsKept(found, fetched);
    RankMembers(Filter(s.Keeping(), Merged(found, fetched)), s.query, limit);
    FilterMembers(s.Keeping(), Merged(found, fetched));
  }

  // ---- When the server's order shows ------------------------------------------------------

  predicate Ties(s: Search, y: Client, z: Client) {
    SameRank(y, z, s.Term()) && s.Keeps(y) && s.Keeps(z)
  }

  /** Two fetched clients of which the first fetched decides: they share an id, or they tie. */
  predicate Rivals(y: Client, z: Client, s: Search) {
    y != z && ((y.id.Some? && y.id == z.id) || Ties(s, y, z))
  }

  /** A candidate that can come among the first `limit` has a rival. */
  ghost predicate Contested(found: seq<Client>, fetched: seq<Client>, s: Search, limit: nat) {
    exists y, z | y in fetched && z in fetched && Rivals(y, z, s) ::
      && !IdListed(found, y) && !IdListed(found, z)
      && Candidate(s, y) && BestPlace(found, fetched, s, y) < limit
  }

  ghost predicate ServerOrderNeverShows(found: seq<Client>, fetched: seq<Client>, s: Search, limit: Option<nat>) {
    forall other: seq<Client> | multiset(other) == multiset(fetched) ::
      Result(found, other, s, limit) == Result(found, fetched, s, limit)
  }

  /** Some order gives a candidate its best place in the result. */
  lemma TakesBestPlace(found: seq<Client>, fetched: seq<Client>, y: Client, s: Search, limit: Option<nat>)
    returns (other: seq<Client>)
    requires y in fetched && !IdListed(found, y) && Candidate(s, y)
    requires BestPlace(found, fetched, s, y) < Limit(limit)
    ensures multiset(other) == multiset(fetched)
    ensures var place := BestPlace(found, fetched, s, y);
      place < |Result(found, other, s, limit)| && Result(found, other, s, limit)[place] == y
  {
    var i := IndexOf(fetched, y);
    OpenIsUnlisted(found, y);
    InFavourPermutes(fetched, s, y, i);
    FavourIsBest(found, fetched, s, y, i);
    other := InFavour(fetched, s, y, i);
    var rest := Filter(Negated(Beating(s, y)), RemoveAt(fetched, i)) + Filter(Beating(s, y), RemoveAt(fetched, i));
    assert other == [y] + rest;
    FirstTakesPlace(found, y, rest, s, limit);
  }

  /** Fetched first, a client keeps every other one with its id out of the result. */
  lemma KeepsOut(found: seq<Client>, fetched: seq<Client>, y: Client, z: Client, s: Search, limit: Option<nat>)
    returns (other: seq<Client>)
    requires y in fetched && z in fetched && y != z && y.id.Some? && y.id == z.id && !IdListed(found, y)
    ensures multiset(other) == multiset(fetched) && y !in Result(found, other, s, limit)
  {
    var i := IndexOf(fetched, z);
    var rest, ids := RemoveAt(fetched, i), IdsIn(found);
    RemoveAtPermutes(fetched, i);
    other := [z] + rest;
    OpenIsUnlisted(found, z);
    assert other[1..] == rest;
    KeptMembers(ids + OwnId(z), rest);
    assert Kept(ids, other) == [z] + Kept(ids + OwnId(z), rest);
    ResultMembers(found, other, s, limit);
  }

  lemma TiesSharePlace(found: seq<Client>, fetched: seq<Client>, y: Client, z: Client, s: Search)
    requires Ties(s, y, z)
    ensures BestPlace(found, fetched, s, y) == BestPlace(found, fetched, s, z)
  {
    forall c ensures Leads(s, y, c) == Leads(s, z, c) && Beats(s, y, c) == Beats(s, z, c) {}
    FilterCongruent(Leading(s, y), Leading(s, z), found);
    FilterCongruent(WithoutId(Beating(s, y)), WithoutId(Beating(s, z)), fetched);
    assert forall id :: AllBeat(fetched, id, s, y) == AllBeat(fetched, id, s, z);
    assert BeatenIds(IdsIn(found), fetched, s, y) == BeatenIds(IdsIn(found), fetched, s, z);
  }

  lemma ContestShows(found: seq<Client>, fetched: seq<Client>, s: Search, limit: Option<nat>)
    requires Contested(found, fetched, s, Limit(limit))
    ensures !ServerOrderNeverShows(found, fetched, s, limit)
  {
    var y, z :| y in fetched && z in fetched && Rivals(y, z, s) && !IdListed(found, y) && !IdListed(found, z)
      && Candidate(s, y) && BestPlace(found, fetched, s, y) < Limit(limit);
    var first := TakesBestPlace(found, fetched, y, s, limit);
    if y.id.Some? && y.id == z.id {
      var second := KeepsOut(found, fetched, y, z, s, limit);
      assert Result(found, first, s, limit) != Result(found, second, s, limit);
    } else {
      TiesSharePlace(found, fetched, y, z, s);
      var second := TakesBestPlace(found, fetched, z, s, limit);
      assert Result(found, first, s, limit) != Result(found, second, s, limit);
    }
  }

  // ---- Where it does not show -------------------------------------------------------------

  /** The candidates whose presence does not depend on the order. */
  function Sure(fetched: seq<Client>, m: nat): Marked<ClientRanking.Scored> -> bool {
    (u: Marked<ClientRanking.Scored>) => u.0 < m || Settled(fetched, u.1.1)
  }

  /** A marked candidate is a found one with its own place or a kept one. */
  predicate Placed(front: seq<ClientRanking.Scored>, kept: seq<Client>, s: Search, u: Marked<ClientRanking.Scored>) {
    if u.0 < |front| then u.1 == front[u.0]
    else u.0 == |front| && u.1.1 in kept && u.1 == Scored(u.1.1, s) && Candidate(s, u.1.1)
  }

  lemma AllMembers(found: seq<Client>, kept: seq<Client>, s: Search, u: Marked<ClientRanking.Scored>)
    requires u in All(found, kept, s)
    ensures Placed(Candidates(s, found), kept, s, u)
  {
    var front, back := Candidates(s, found), Candidates(s, kept);
    var i :| 0 <= i < |front| + |back| && All(found, kept, s)[i] == u;
    if i >= |front| {
      assert u.1 == back[i - |front|];
      CandidatesMembers(s, kept, u.1);
    }
  }

  /** A kept candidate with a rival stands behind the limit, or the server's order is contested. */
  lemma RivalledIsLow(found: seq<Client>, fetched: seq<Client>, other: seq<Client>, s: Search, y: Client, n: nat)
    requires multiset(other) == multiset(fetched) && !Contested(found, fetched, s, n)
    requires y in Kept(IdsIn(found), other) && Candidate(s, y) && RivalledOpenly(found, fetched, s, y)
    ensures Better(MarkedLe(Before), KeptMark(found, s, y), All(found, Kept(IdsIn(found), other), s)) >= n
  {
    var ids := IdsIn(found);
    SameMembers(other, fetched);
    KeptMembers(ids, other);
    OpenIsUnlisted(found, y);
    BestPlaceIsBest(found, fetched, other, s, y);
    BetterIsPlace(found, Kept(ids, other), s, y);
  }

  /** A client with a rival that is not listed either. */
  predicate RivalledOpenly(found: seq<Client>, fetched: seq<Client>, s: Search, y: Client) {
    exists z | z in fetched :: Rivals(y, z, s) && !IdListed(found, z)
  }

  lemma UnsettledIsRivalled(found: seq<Client>, fetched: seq<Client>, s: Search, y: Client)
    requires !Settled(fetched, y) && Open(IdsIn(found), y)
    ensures RivalledOpenly(found, fetched, s, y)
  {
    var q :| q in fetched && q.id == y.id && q != y;
    OpenIsUnlisted(found, q);
    assert Rivals(y, q, s);
  }

  lemma UnsureIsLow(found: seq<Client>, fetched: seq<Client>, other: seq<Client>, s: Search, n: nat)
    requires multiset(other) == multiset(fetched) && !Contested(found, fetched, s, n)
    ensures OutsideIsLow(MarkedLe(Before), Sure(fetched, |Candidates(s, found)|), All(found, Kept(IdsIn(found), other), s), n)
  {
    var kept, sure := Kept(IdsIn(found), other), Sure(fetched, |Candidates(s, found)|);
    forall u | u in All(found, kept, s) && !sure(u) ensures Better(MarkedLe(Before), u, All(found, kept, s)) >= n {
      AllMembers(found, kept, s, u);
      KeptMembers(IdsIn(found), other);
      UnsettledIsRivalled(found, fetched, s, u.1.1);
      RivalledIsLow(found, fetched, other, s, u.1.1, n);
      assert u == KeptMark(found, s, u.1.1);
    }
  }

  lemma TiedAreLow(found: seq<Client>, fetched: seq<Client>, s: Search, n: nat, u: Marked<ClientRanking.Scored>, v: Marked<ClientRanking.Scored>)
    requires !Contested(found, fetched, s, n) && u != v
    requires var all := All(found, Kept(IdsIn(found), fetched), s);
      u in all && v in all && MarkedLe(Before)(u, v) && MarkedLe(Before)(v, u)
    ensures Better(MarkedLe(Before), u, All(found, Kept(IdsIn(found), fetched), s)) >= n
  {
    var ids := IdsIn(found);
    var kept := Kept(ids, fetched);
    AllMembers(found, kept, s, u);
    AllMembers(found, kept, s, v);
    assert u.0 == v.0 == |Candidates(s, found)|;
    var y, z := u.1.1, v.1.1;
    TieMeans(u.1, v.1, s.Term());
    assert Rivals(y, z, s);
    KeptMembers(ids, fetched);
    OpenIsUnlisted(found, z);
    RivalledIsLow(found, fetched, fetched, s, y, n);
    assert u == KeptMark(found, s, y);
  }

  function SureScored(fetched: seq<Client>): ClientRanking.Scored -> bool {
    (v: ClientRanking.Scored) => Settled(fetched, v.1)
  }

  function SureClient(fetched: seq<Client>, s: Search): Client -> bool {
    (c: Client) => Candidate(s, c) && Settled(fetched, c)
  }

  lemma SureOfKept(fetched: seq<Client>, kept: seq<Client>, s: Search, m: nat)
    ensures Filter(Sure(fetched, m), Mark(m, Candidates(s, kept))) == Mark(m, Candidates(s, Filter(SureClient(fetched, s), kept)))
  {
    FilterMark(Sure(fetched, m), SureScored(fetched), m, Candidates(s, kept));
    FilterScored(SureScored(fetched), SureClient(fetched, s), kept, s);
  }

  /** The sure candidates are the same for every order. */
  lemma SureAreSame(found: seq<Client>, fetched: seq<Client>, other: seq<Client>, s: Search)
    requires multiset(other) == multiset(fetched)
    ensures var sure, ids := Sure(fetched, |Candidates(s, found)|), IdsIn(found);
      multiset(Filter(sure, All(found, Kept(ids, fetched), s))) == multiset(Filter(sure, All(found, Kept(ids, other), s)))
  {
    var m, ids, p := |Candidates(s, found)|, IdsIn(found), SureClient(fetched, s);
    var front := MarkPlaces(0, Candidates(s, found));
    var a, b := Kept(ids, fetched), Kept(ids, other);
    SettledKept(p, ids, fetched, other);
    CandidatesPermute(s, Filter(p, a), Filter(p, b));
    MarkPermutes(m, Candidates(s, Filter(p, a)), Candidates(s, Filter(p, b)));
    SureOfKept(fetched, a, s, m);
    SureOfKept(fetched, b, s, m);
    FilterConcat(Sure(fetched, m), front, Mark(m, Candidates(s, a)));
    FilterConcat(Sure(fetched, m), front, Mark(m, Candidates(s, b)));
  }

  lemma UncontestedTop(found: seq<Client>, fetched: seq<Client>, other: seq<Client>, s: Search, n: nat)
    requires multiset(other) == multiset(fetched) && !Contested(found, fetched, s, n)
    ensures var ids, le := IdsIn(found), MarkedLe(Before);
      Take(Sort(le, All(found, Kept(ids, fetched), s)), n) == Take(Sort(le, All(found, Kept(ids, other), s)), n)
  {
    var ids, le, sure := IdsIn(found), MarkedLe(Before), Sure(fetched, |Candidates(s, found)|);
    var a, b := All(found, Kept(ids, fetched), s), All(found, Kept(ids, other), s);
    BeforeOrders();
    MarkedOrders(Before);
    UnsureIsLow(found, fetched, fetched, s, n);
    UnsureIsLow(found, fetched, other, s, n);
    SureAreSame(found, fetched, other, s);
    forall u, v | u in a && v in a && sure(u) && sure(v) && le(u, v) && le(v, u) && Better(le, u, a) < n ensures u == v {
      if u != v {
        TiedAreLow(found, fetched, s, n, u, v);
      }
    }
    TopsAgree(le, sure, a, b, n);
  }

  /**
    The result is the same for every order of what the server lists exactly when no candidate that
    can come among the first `limit` has a rival: another client with its id, or one that ties.
   */
  lemma ServerOrderShowsExactly(found: seq<Client>, fetched: seq<Client>, s: Search, limit: Option<nat>)
    ensures ServerOrderNeverShows(found, fetched, s, limit)
      <==> !Contested(found, fetched, s, Limit(limit))
  {
    if Contested(found, fetched, s, Limit(limit)) {
      ContestShows(found, fetched, s, limit);
    } else {
      forall other: seq<Client> | multiset(other) == multiset(fetched)
        ensures Result(found, other, s, limit) == Result(found, fetched, s, limit)
      {
        UncontestedTop(found, fetched, other, s, Limit(limit));
        ResultIsTop(found, fetched, s, limit);
        ResultIsTop(found, other, s, limit);
      }
    }
  }

  // ---- The two ways in which it shows, each with an input ---------------------------------

  /** Fetched candidates that could be kept have ids, and clients that share one are the same. */
  ghost predicate Identified(found: seq<Client>, fetched: seq<Client>, s: Search) {
    && (forall c | c in fetched && !IdListed(found, c) && Candidate(s, c) :: c.id.Some?)
    && (forall c, d | c in fetched && d in fetched && c.id.Some? && c.id == d.id :: c == d)
  }

  /** With an id of its own for every client the server's order never shows. */
  lemma IdentifiedNeverShows(found: seq<Client>, fetched: seq<Client>, s: Search, limit: Option<nat>)
    requires Identified(found, fetched, s)
    ensures ServerOrderNeverShows(found, fetched, s, limit)
  {
    ServerOrderShowsExactly(found, fetched, s, limit);
  }

  lemma MergedTwo(a: Client, b: Client)
    ensures Merged([], [a, b]) == if IdListed([a], b) then [a] else [a, b]
  {
    assert [a, b][1..] == [b] && [b][1..] == [] && [] + [a] == [a];
    assert !IdListed([], a);
    assert Merged([], [a, b]) == Merged([a], [b]);
    assert Merged([a], [b]) == Merged(if IdListed([a], b) then [a] else [a] + [b], []);
  }

  /** Two different clients under one id: the first fetched is listed alone. */
  lemma SharedIdShowsOrder(a: Client, b: Client, s: Search)
    requires a.id.Some? && a.id == b.id && Candidate(s, a)
    ensures Result([], [a, b], s, None) == [a]
  {
    MergedTwo(a, b);
    CandidatesOne(s, a);
    var one: seq<ClientRanking.Scored> := [Scored(a, s)];
    assert one[1..] == [];
    assert Sort(Before, one) == one;
  }

  /** Two different clients without ids that tie: both are listed, in the order fetched. */
  lemma TiesShowOrder(a: Client, b: Client, s: Search)
    requires a != b && a.id.None? && b.id.None? && Ties(s, a, b)
    ensures Result([], [a, b], s, None) == [a, b]
  {
    MergedTwo(a, b);
    FilterAll(s.Keeping(), [a, b]);
    TiesKeepInputOrder(a, b, s.query);
  }

  lemma MatchesQuery(c: Client, s: Search)
    requires s.query == "x" && c.clientId == Some("x") && c.id in {None, Some("1")}
    ensures Score(c, s.Term()) == 200 && Candidate(s, c)
  {
    assert Lower("x") == "x" && Lower("1") == "1" && Lower("") == "";
    assert NormalizeTerm("x") == "x";
  }

  function Example(id: Option<string>, name: string): Client {
    Client(id, Some("x"), Some(name), "")
  }

  lemma ExamplesDiffer(id: Option<string>)
    ensures Example(id, "one") != Example(id, "two")
  {
    assert "one"[0] != "two"[0];
  }

  /** One id for two clients, and two clients without ids: the result follows the server's order. */
  lemma ServerOrderShows(filtered: bool)
    ensures var a, b, s := Example(Some("1"), "one"), Example(Some("1"), "two"), Search("x", filtered);
      a != b && Result([], [a, b], s, None) == [a] && Result([], [b, a], s, None) == [b]
    ensures var a, b, s := Example(None, "one"), Example(None, "two"), Search("x", filtered);
      a != b && Result([], [a, b], s, None) == [a, b] && Result([], [b, a], s, None) == [b, a]
  {
    var s := Search("x", filtered);
    forall id | id in {None, Some("1")} ensures Candidate(s, Example(id, "one")) && Candidate(s, Example(id, "two"))
      && Score(Example(id, "one"), s.Term()) == Score(Example(id, "two"), s.Term()) && Example(id, "one") != Example(id, "two")
    {
      MatchesQuery(Example(id, "one"), s);
      MatchesQuery(Example(id, "two"), s);
      ExamplesDiffer(id);
    }
    SharedIdShowsOrder(Example(Some("1"), "one"), Example(Some("1"), "two"), s);
    SharedIdShowsOrder(Example(Some("1"), "two"), Example(Some("1"), "one"), s);
    TiesShowOrder(Example(None, "one"), Example(None, "two"), s);
    TiesShowOrder(Example(None, "two"), Example(None, "one"), s);
  }
}
