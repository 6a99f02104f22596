/** Stable sorting under a comparator, string order, and deduplication of sorted lists. */
module Sorting {
  import opened Sequences

  ghost predicate TotalPreorder<T(!new)>(le: (T, T) -> bool) {
    && (forall x, y :: le(x, y) || le(y, x))
    && (forall x, y, z :: le(x, y) && le(y, z) ==> le(x, z))
  }

  ghost predicate Sorted<T>(le: (T, T) -> bool, s: seq<T>) {
    forall i, j | 0 <= i < j < |s| :: le(s[i], s[j])
  }

  /** `x` goes before the first element it does not exceed, so equals keep their order. */
  function Insert<T>(le: (T, T) -> bool, x: T, s: seq<T>): seq<T> {
    if s == [] || le(x, s[0]) then [x] + s else [s[0]] + Insert(le, x, s[1..])
  }

  function Sort<T>(le: (T, T) -> bool, s: seq<T>): seq<T> {
    if s == [] then [] else Insert(le, s[0], Sort(le, s[1..]))
  }

  lemma {:induction false} InsertPermutes<T>(le: (T, T) -> bool, x: T, s: seq<T>)
    ensures multiset(Insert(le, x, s)) == multiset{x} + multiset(s)
  {
    if s != [] && !le(x, s[0]) {
      InsertPermutes(le, x, s[1..]);
      assert s == [s[0]] + s[1..];
    }
  }

  lemma {:induction false} SortPermutes<T>(le: (T, T) -> bool, s: seq<T>)
    ensures multiset(Sort(le, s)) == multiset(s)
    ensures |Sort(le, s)| == |s|
    ensures Set(Sort(le, s)) == Set(s)
  {
    if s != [] {
      SortPermutes(le, s[1..]);
      InsertPermutes(le, s[0], Sort(le, s[1..]));
      assert s == [s[0]] + s[1..];
    }
    SameMembers(Sort(le, s), s);
  }

  lemma SameMembers<T>(a: seq<T>, b: seq<T>)
    requires multiset(a) == multiset(b)
    ensures |a| == |b| && Set(a) == Set(b)
    ensures forall x :: x in a <==> x in b
  {
    assert |a| == |multiset(a)| && |b| == |multiset(b)|;
    forall x ensures x in a <==> x in b {
      assert x in a <==> x in multiset(a);
      assert x in b <==> x in multiset(b);
    }
  }

  lemma {:induction false} InsertSorts<T(!new)>(le: (T, T) -> bool, x: T, s: seq<T>)
    requires TotalPreorder(le) && Sorted(le, s)
    ensures Sorted(le, Insert(le, x, s))
  {
    if s != [] && !le(x, s[0]) {
      var rest := Insert(le, x, s[1..]);
      InsertSorts(le, x, s[1..]);
      InsertPermutes(le, x, s[1..]);
      forall k | 0 <= k < |rest| ensures le(s[0], rest[k]) {
        assert rest[k] in multiset(rest);
        assert rest[k] == x || rest[k] in s[1..];
      }
    }
  }

  lemma {:induction false} SortSorts<T(!new)>(le: (T, T) -> bool, s: seq<T>)
    requires TotalPreorder(le)
    ensures Sorted(le, Sort(le, s))
  {
    if s != [] {
      SortSorts(le, s[1..]);
      InsertSorts(le, s[0], Sort(le, s[1..]));
    }
  }

  lemma DropFirst<T>(s: seq<T>)
    requires s != []
    ensures multiset(s[1..]) == multiset(s) - multiset{s[0]}
    ensures s == [s[0]] + s[1..]
  {
    assert s == [s[0]] + s[1..];
  }

  // ---- Ranks ------------------------------------------------------------------------------

  /** How many members go strictly before `x`. */
  function Better<T>(le: (T, T) -> bool, x: T, s: seq<T>): nat {
    |Filter(y => !le(x, y), s)|
  }

  function RemoveAt<T>(s: seq<T>, i: nat): seq<T>
    requires i < |s|
  {
    s[..i] + s[i + 1..]
  }

  lemma RemoveAtPermutes<T>(s: seq<T>, i: nat)
    requires i < |s|
    ensures s == s[..i] + ([s[i]] + s[i + 1..])
    ensures multiset(s) == multiset{s[i]} + multiset(RemoveAt(s, i))
  {
    assert s == s[..i] + ([s[i]] + s[i + 1..]);
  }

  lemma IndexOf<T>(s: seq<T>, x: T) returns (i: nat)
    requires x in s
    ensures i < |s| && s[i] == x
  {
    i :| 0 <= i < |s| && s[i] == x;
  }

  lemma FilterRemove<T>(p: T -> bool, s: seq<T>, i: nat)
    requires i < |s|
    ensures |Filter(p, s)| == (if p(s[i]) then 1 else 0) + |Filter(p, RemoveAt(s, i))|
  {
    RemoveAtPermutes(s, i);
    FilterConcat(p, s[..i], [s[i]] + s[i + 1..]);
    FilterConcat(p, [s[i]], s[i + 1..]);
    FilterConcat(p, s[..i], s[i + 1..]);
    FilterOne(p, s[i]);
  }

  lemma FilterOne<T>(p: T -> bool, x: T)
    ensures Filter(p, [x]) == if p(x) then [x] else []
  {
    assert [x][1..] == [];
  }

  /** A permutation has as many members with a property. */
  lemma {:induction false} FilterCount<T>(p: T -> bool, a: seq<T>, b: seq<T>)
    requires multiset(a) == multiset(b)
    ensures |Filter(p, a)| == |Filter(p, b)|
    decreases |a|
  {
    SameMembers(a, b);
    if a != [] {
      var i := IndexOf(b, a[0]);
      DropFirst(a);
      RemoveAtPermutes(b, i);
      FilterCount(p, a[1..], RemoveAt(b, i));
      FilterRemove(p, b, i);
    }
  }

  lemma {:induction false} FilterNone<T>(p: T -> bool, s: seq<T>)
    requires forall i | 0 <= i < |s| :: !p(s[i])
    ensures Filter(p, s) == []
  {
    if s != [] {
      FilterNone(p, s[1..]);
    }
  }

  lemma {:induction false} FilterAll<T>(p: T -> bool, s: seq<T>)
    requires forall i | 0 <= i < |s| :: p(s[i])
    ensures Filter(p, s) == s
  {
    if s != [] {
      FilterAll(p, s[1..]);
      assert s == [s[0]] + s[1..];
    }
  }

  /** In a sorted list no more members go before one than stand before it. */
  lemma BetterStandBefore<T(!new)>(le: (T, T) -> bool, s: seq<T>, i: nat)
    requires TotalPreorder(le) && Sorted(le, s) && i < |s|
    ensures Better(le, s[i], s) <= i
  {
    var p := y => !le(s[i], y);
    assert s == s[..i] + s[i..];
    FilterConcat(p, s[..i], s[i..]);
    FilterNone(p, s[i..]);
    FilterMembers(p, s[..i]);
    assert Filter(p, s) == Filter(y => !le(s[i], y), s) by { FilterCongruent(p, y => !le(s[i], y), s); }
  }

  /** Two sorted permutations hold tied members at every place. */
  lemma SamePlaceTies<T(!new)>(le: (T, T) -> bool, a: seq<T>, b: seq<T>, i: nat)
    requires TotalPreorder(le) && Sorted(le, a) && Sorted(le, b) && multiset(a) == multiset(b)
    requires i < |a| == |b|
    ensures le(a[i], b[i])
  {
    var p := y => !le(a[i], y);
    FilterCount(p, a, b);
    BetterStandBefore(le, a, i);
    FilterCongruent(p, y => !le(a[i], y), a);
    if !le(a[i], b[i]) {
      assert b == b[..i + 1] + b[i + 1..];
      FilterConcat(p, b[..i + 1], b[i + 1..]);
      FilterAll(p, b[..i + 1]);
    }
  }

  /** A new member is inserted right behind those that go before it. */
  lemma {:induction false} InsertedPlace<T(!new)>(le: (T, T) -> bool, x: T, s: seq<T>)
    requires TotalPreorder(le) && Sorted(le, s)
    ensures Better(le, x, s) < |Insert(le, x, s)| && Insert(le, x, s)[Better(le, x, s)] == x
  {
    var p := y => !le(x, y);
    FilterCongruent(p, y => !le(x, y), s);
    if s == [] {
    } else if le(x, s[0]) {
      FilterNone(p, s);
    } else {
      InsertedPlace(le, x, s[1..]);
      FilterCongruent(p, y => !le(x, y), s[1..]);
      assert Filter(p, s) == [s[0]] + Filter(p, s[1..]);
    }
  }

  /** Sorted from an order that lists `x` first, `x` comes first among its ties. */
  lemma SortedPlace<T(!new)>(le: (T, T) -> bool, x: T, rest: seq<T>)
    requires TotalPreorder(le)
    ensures Better(le, x, [x] + rest) < |Sort(le, [x] + rest)|
    ensures Sort(le, [x] + rest)[Better(le, x, [x] + rest)] == x
  {
    var p := y => !le(x, y);
    SortSorts(le, rest);
    SortPermutes(le, rest);
    InsertedPlace(le, x, Sort(le, rest));
    assert ([x] + rest)[1..] == rest;
    FilterConcat(p, [x], rest);
    FilterOne(p, x);
    assert le(x, x);
    FilterCount(p, Sort(le, rest), rest);
    FilterCongruent(p, y => !le(x, y), [x] + rest);
    FilterCongruent(p, y => !le(x, y), Sort(le, rest));
  }

  /** No two different members tie with fewer than `n` members before them. */
  ghost predicate NoTiesInTop<T>(le: (T, T) -> bool, s: seq<T>, n: nat) {
    forall x, y | x in s && y in s && le(x, y) && le(y, x) && Better(le, x, s) < n :: x == y
  }

  lemma BetterCount<T>(le: (T, T) -> bool, x: T, a: seq<T>, b: seq<T>)
    requires multiset(a) == multiset(b)
    ensures Better(le, x, a) == Better(le, x, b)
  {
    var p := y => !le(x, y);
    FilterCount(p, a, b);
    FilterCongruent(p, y => !le(x, y), a);
    FilterCongruent(p, y => !le(x, y), b);
  }

  lemma BetterAlike<T>(le: (T, T) -> bool, x: T, y: T, s: seq<T>)
    requires forall z | z in s :: le(x, z) == le(y, z)
    ensures Better(le, x, s) == Better(le, y, s)
  {
    FilterCongruent(z => !le(x, z), z => !le(y, z), s);
  }

  lemma TopAgrees<T(!new)>(le: (T, T) -> bool, a: seq<T>, r: seq<T>, q: seq<T>, n: nat, i: nat)
    requires TotalPreorder(le) && Sorted(le, r) && Sorted(le, q)
    requires multiset(a) == multiset(r) == multiset(q) && NoTiesInTop(le, a, n)
    requires i < n && i < |r| == |q|
    ensures r[i] == q[i]
  {
    SamePlaceTies(le, r, q, i);
    SamePlaceTies(le, q, r, i);
    BetterStandBefore(le, r, i);
    BetterCount(le, r[i], a, r);
    SameMembers(a, r);
    SameMembers(a, q);
    assert r[i] in r && q[i] in q;
  }

  /** Without such ties the first `n` places do not depend on the order of the input. */
  lemma TopIgnoresOrder<T(!new)>(le: (T, T) -> bool, a: seq<T>, b: seq<T>, n: nat)
    requires TotalPreorder(le) && multiset(a) == multiset(b) && NoTiesInTop(le, a, n)
    ensures Take(Sort(le, a), n) == Take(Sort(le, b), n)
  {
    var r, q := Sort(le, a), Sort(le, b);
    SortSorts(le, a);
    SortSorts(le, b);
    SortPermutes(le, a);
    SortPermutes(le, b);
    SameMembers(r, q);
    forall i | 0 <= i < |r| && i < n ensures r[i] == q[i] {
      TopAgrees(le, a, r, q, n, i);
    }
    SameTake(r, q, n);
  }

  lemma SameTake<T>(r: seq<T>, q: seq<T>, n: nat)
    requires |r| == |q| && forall i | 0 <= i < |r| && i < n :: r[i] == q[i]
    ensures Take(r, n) == Take(q, n)
  {}

  // ---- Sorting a part of a list -----------------------------------------------------------

  lemma {:induction false} InsertFilters<T(!new)>(le: (T, T) -> bool, p: T -> bool, x: T, s: seq<T>)
    requires TotalPreorder(le) && Sorted(le, s)
    ensures Filter(p, Insert(le, x, s)) == if p(x) then Insert(le, x, Filter(p, s)) else Filter(p, s)
  {
    if s == [] {
      FilterOne(p, x);
    } else if le(x, s[0]) {
      FilterConcat(p, [x], s);
      FilterOne(p, x);
      InsertBelow(le, p, x, s);
    } else {
      InsertFilters(le, p, x, s[1..]);
      FilterConcat(p, [s[0]], Insert(le, x, s[1..]));
      FilterOne(p, s[0]);
      var rest := Filter(p, s[1..]);
      assert Filter(p, s) == if p(s[0]) then [s[0]] + rest else [] + rest;
      assert ([s[0]] + rest)[1..] == rest && [] + rest == rest;
      assert [] + Filter(p, Insert(le, x, s[1..])) == Filter(p, Insert(le, x, s[1..]));
    }
  }

  lemma InsertBelow<T(!new)>(le: (T, T) -> bool, p: T -> bool, x: T, s: seq<T>)
    requires TotalPreorder(le) && Sorted(le, s) && s != [] && le(x, s[0])
    ensures Insert(le, x, Filter(p, s)) == [x] + Filter(p, s)
  {
    FilterMembers(p, s);
    var kept := Filter(p, s);
    if kept != [] {
      assert kept[0] in kept;
      var i :| 0 <= i < |s| && s[i] == kept[0];
      assert le(s[0], s[i]) || i == 0;
    }
  }

  /** Sorting a part is taking the part of the sorted list. */
  lemma {:induction false} SortFilters<T(!new)>(le: (T, T) -> bool, p: T -> bool, s: seq<T>)
    requires TotalPreorder(le)
    ensures Sort(le, Filter(p, s)) == Filter(p, Sort(le, s))
  {
    if s != [] {
      SortFilters(le, p, s[1..]);
      SortSorts(le, s[1..]);
      InsertFilters(le, p, s[0], Sort(le, s[1..]));
      if p(s[0]) {
        assert ([s[0]] + Filter(p, s[1..]))[1..] == Filter(p, s[1..]);
      } else {
        assert [] + Filter(p, s[1..]) == Filter(p, s[1..]);
      }
    }
  }

  /** Every member outside `p` has at least `n` members strictly before it. */
  ghost predicate OutsideIsLow<T>(le: (T, T) -> bool, p: T -> bool, s: seq<T>, n: nat) {
    forall x | x in s && !p(x) :: Better(le, x, s) >= n
  }

  lemma {:induction false} TakeFiltered<T>(p: T -> bool, r: seq<T>, n: nat)
    requires forall i | 0 <= i < |r| && i < n :: p(r[i])
    ensures Take(Filter(p, r), n) == Take(r, n)
  {
    if |r| <= n {
      FilterAll(p, r);
    } else {
      assert r == r[..n] + r[n..];
      FilterConcat(p, r[..n], r[n..]);
      FilterAll(p, r[..n]);
    }
  }

  lemma TopIsInside<T(!new)>(le: (T, T) -> bool, p: T -> bool, s: seq<T>, n: nat)
    requires TotalPreorder(le) && OutsideIsLow(le, p, s, n)
    ensures forall i | 0 <= i < |Sort(le, s)| && i < n :: p(Sort(le, s)[i]) && Better(le, Sort(le, s)[i], s) <= i
    ensures Take(Sort(le, s), n) == Take(Sort(le, Filter(p, s)), n)
  {
    var r := Sort(le, s);
    SortSorts(le, s);
    SortPermutes(le, s);
    SameMembers(r, s);
    forall i | 0 <= i < |r| && i < n ensures p(r[i]) && Better(le, r[i], s) <= i {
      BetterStandBefore(le, r, i);
      BetterCount(le, r[i], r, s);
      assert r[i] in r;
    }
    TakeFiltered(p, r, n);
    SortFilters(le, p, s);
  }

  /** No two different members inside `p` tie with fewer than `n` members before them. */
  ghost predicate NoTiesInside<T>(le: (T, T) -> bool, p: T -> bool, s: seq<T>, n: nat) {
    forall x, y | x in s && y in s && p(x) && p(y) && le(x, y) && le(y, x) && Better(le, x, s) < n :: x == y
  }

  /**
    Two lists with the same members inside `p` agree on the first `n` places of their sorted forms
    when the members outside `p` are low and no two members inside tie high.
   */
  lemma TopsAgree<T(!new)>(le: (T, T) -> bool, p: T -> bool, a: seq<T>, b: seq<T>, n: nat)
    requires TotalPreorder(le) && multiset(Filter(p, a)) == multiset(Filter(p, b))
    requires OutsideIsLow(le, p, a, n) && OutsideIsLow(le, p, b, n) && NoTiesInside(le, p, a, n)
    ensures Take(Sort(le, a), n) == Take(Sort(le, b), n)
  {
    var r, q := Sort(le, Filter(p, a)), Sort(le, Filter(p, b));
    TopIsInside(le, p, a, n);
    TopIsInside(le, p, b, n);
    SortSorts(le, Filter(p, a));
    SortSorts(le, Filter(p, b));
    SortPermutes(le, Filter(p, a));
    SortPermutes(le, Filter(p, b));
    SameMembers(r, q);
    forall i | 0 <= i < |r| && i < n ensures r[i] == q[i] {
      PlacesAgree(le, p, a, r, q, n, i);
    }
    SameTake(r, q, n);
  }

  lemma PlacesAgree<T(!new)>(le: (T, T) -> bool, p: T -> bool, a: seq<T>, r: seq<T>, q: seq<T>, n: nat, i: nat)
    requires TotalPreorder(le) && NoTiesInside(le, p, a, n) && OutsideIsLow(le, p, a, n)
    requires r == Sort(le, Filter(p, a)) && Sorted(le, r) && Sorted(le, q) && multiset(r) == multiset(q) == multiset(Filter(p, a))
    requires i < n && i < |r| == |q|
    ensures r[i] == q[i]
  {
    TopIsInside(le, p, a, n);
    SortPermutes(le, a);
    SortFilters(le, p, a);
    SamePlaceTies(le, r, q, i);
    SamePlaceTies(le, q, r, i);
    SameMembers(r, Filter(p, a));
    SameMembers(q, Filter(p, a));
    FilterMembers(p, a);
    FilterMembers(p, Sort(le, a));
    assert r[i] in r && q[i] in q;
    assert Take(Sort(le, a), n)[i] == Take(r, n)[i] by { FilterLength(p, Sort(le, a)); }
  }

  lemma FilterLength<T>(p: T -> bool, s: seq<T>)
    ensures |Filter(p, s)| <= |s|
  {
    FilterMembers(p, s);
  }

  // ---- A fixed beginning ------------------------------------------------------------------

  /** In a list, the members of `front` by their places, and those of `back` all behind them. */
  type Marked<T> = (nat, T)

  function Mark<T>(place: nat, s: seq<T>): seq<Marked<T>> {
    seq(|s|, i requires 0 <= i < |s| => (place, s[i]))
  }

  function MarkPlaces<T>(first: nat, s: seq<T>): seq<Marked<T>> {
    seq(|s|, i requires 0 <= i < |s| => (first + i, s[i]))
  }

  function Unmark<T>(s: seq<Marked<T>>): seq<T> {
    seq(|s|, i requires 0 <= i < |s| => s[i].1)
  }

  /** Ties are broken by the mark. */
  function MarkedLe<T>(le: (T, T) -> bool): (Marked<T>, Marked<T>) -> bool {
    (u: Marked<T>, v: Marked<T>) => le(u.1, v.1) && (le(v.1, u.1) ==> u.0 <= v.0)
  }

  lemma MarkedOrders<T(!new)>(le: (T, T) -> bool)
    requires TotalPreorder(le)
    ensures TotalPreorder(MarkedLe(le))
  {
    var m := MarkedLe(le);
    forall u: Marked<T>, v: Marked<T> ensures m(u, v) || m(v, u) {
      assert le(u.1, v.1) || le(v.1, u.1);
    }
    forall u: Marked<T>, v: Marked<T>, w: Marked<T> | m(u, v) && m(v, w) ensures m(u, w) {
      assert le(u.1, v.1) && le(v.1, w.1) && le(u.1, w.1);
      assert le(w.1, u.1) ==> le(v.1, u.1) && le(w.1, v.1);
    }
  }

  ghost predicate MarksAscend<T>(s: seq<Marked<T>>) {
    forall i, j | 0 <= i < j < |s| :: s[i].0 <= s[j].0
  }

  lemma {:induction false} InsertMarked<T(!new)>(le: (T, T) -> bool, u: Marked<T>, s: seq<Marked<T>>)
    requires TotalPreorder(le) && forall i | 0 <= i < |s| :: u.0 <= s[i].0
    ensures Unmark(Insert(MarkedLe(le), u, s)) == Insert(le, u.1, Unmark(s))
  {
    if s == [] || MarkedLe(le)(u, s[0]) {
      assert Unmark([u] + s) == [u.1] + Unmark(s);
    } else {
      InsertMarked(le, u, s[1..]);
      assert Unmark(s)[1..] == Unmark(s[1..]);
      assert Unmark([s[0]] + Insert(MarkedLe(le), u, s[1..])) == [s[0].1] + Unmark(Insert(MarkedLe(le), u, s[1..]));
    }
  }

  /** Breaking ties by ascending marks is what a stable sort does anyway. */
  lemma {:induction false} SortMarked<T(!new)>(le: (T, T) -> bool, s: seq<Marked<T>>)
    requires TotalPreorder(le) && MarksAscend(s)
    ensures Unmark(Sort(MarkedLe(le), s)) == Sort(le, Unmark(s))
  {
    if s != [] {
      SortMarked(le, s[1..]);
      assert Unmark(s)[1..] == Unmark(s[1..]);
      var rest := Sort(MarkedLe(le), s[1..]);
      SortPermutes(MarkedLe(le), s[1..]);
      SameMembers(rest, s[1..]);
      forall i | 0 <= i < |rest| ensures s[0].0 <= rest[i].0 {
        assert rest[i] in rest && rest[i] in s[1..];
      }
      InsertMarked(le, s[0], rest);
    }
  }

  /** A member goes right behind those strictly before it if none that ties with it was listed earlier. */
  lemma {:induction false} SortedPlaceBehind<T(!new)>(le: (T, T) -> bool, front: seq<T>, x: T, rest: seq<T>)
    requires TotalPreorder(le) && forall z | z in front :: !(le(x, z) && le(z, x))
    ensures var s := front + [x] + rest; Better(le, x, s) < |Sort(le, s)| && Sort(le, s)[Better(le, x, s)] == x
  {
    if front == [] {
      SortedPlace(le, x, rest);
      assert [] + [x] + rest == [x] + rest;
    } else {
      var s, t := front + [x] + rest, front[1..] + [x] + rest;
      assert s == [front[0]] + t && s[1..] == t;
      SortedPlaceBehind(le, front[1..], x, rest);
      SortSorts(le, t);
      BetterCons(le, x, front[0], t);
      assert front[0] in front;
      InsertShifts(le, front[0], Sort(le, t), Better(le, x, t));
    }
  }

  lemma BetterCons<T>(le: (T, T) -> bool, x: T, y: T, s: seq<T>)
    ensures Better(le, x, [y] + s) == (if le(x, y) then 0 else 1) + Better(le, x, s)
  {
    var p := z => !le(x, z);
    FilterConcat(p, [y], s);
    FilterOne(p, y);
    FilterCongruent(p, z => !le(x, z), [y] + s);
    FilterCongruent(p, z => !le(x, z), s);
  }

  lemma {:induction false} InsertShifts<T(!new)>(le: (T, T) -> bool, z: T, s: seq<T>, k: nat)
    requires TotalPreorder(le) && Sorted(le, s) && k < |s| && !(le(s[k], z) && le(z, s[k]))
    ensures var i := if le(s[k], z) then k else k + 1; i < |Insert(le, z, s)| && Insert(le, z, s)[i] == s[k]
  {
    if le(z, s[0]) {
      assert k > 0 ==> le(s[0], s[k]);
    } else if k > 0 {
      InsertShifts(le, z, s[1..], k - 1);
    }
  }

  lemma MarkFirst<T>(front: seq<Marked<T>>, place: nat, x: T, s: seq<T>)
    ensures front + Mark(place, [x] + s) == front + [(place, x)] + Mark(place, s)
  {
    assert Mark(place, [x] + s) == [(place, x)] + Mark(place, s);
  }

  lemma {:induction false} MarkCount<T>(place: nat, s: seq<T>, u: Marked<T>)
    ensures multiset(Mark(place, s))[u] == if u.0 == place then multiset(s)[u.1] else 0
  {
    if s != [] {
      var head: Marked<T> := (place, s[0]);
      MarkCount(place, s[1..], u);
      assert Mark(place, s) == [head] + Mark(place, s[1..]) && s == [s[0]] + s[1..];
    }
  }

  lemma MarkPermutes<T>(place: nat, a: seq<T>, b: seq<T>)
    requires multiset(a) == multiset(b)
    ensures multiset(Mark(place, a)) == multiset(Mark(place, b))
  {
    forall u: Marked<T> ensures multiset(Mark(place, a))[u] == multiset(Mark(place, b))[u] {
      MarkCount(place, a, u);
      MarkCount(place, b, u);
    }
  }

  lemma UnmarkParts<T>(a: seq<T>, b: seq<T>)
    ensures Unmark(MarkPlaces(0, a) + Mark(|a|, b)) == a + b && MarksAscend(MarkPlaces(0, a) + Mark(|a|, b))
  {}

  lemma BetterFilters<T>(le: (T, T) -> bool, x: T, p: T -> bool, s: seq<T>)
    requires forall y | y in s :: p(y) == !le(x, y)
    ensures Better(le, x, s) == |Filter(p, s)|
  {
    FilterCongruent(p, y => !le(x, y), s);
  }

  lemma BetterConcat<T>(le: (T, T) -> bool, x: T, a: seq<T>, b: seq<T>)
    ensures Better(le, x, a + b) == Better(le, x, a) + Better(le, x, b)
  {
    FilterConcat(y => !le(x, y), a, b);
  }

  function UpTo<T>(le: (T, T) -> bool, x: T): T -> bool {
    y => le(y, x)
  }

  lemma {:induction false} BetterMarked<T>(le: (T, T) -> bool, place: nat, x: T, s: seq<T>)
    ensures Better(MarkedLe(le), (place, x), Mark(place, s)) == Better(le, x, s)
  {
    if s != [] {
      var u: Marked<T> := (place, s[0]);
      BetterMarked(le, place, x, s[1..]);
      assert Mark(place, s) == [u] + Mark(place, s[1..]) && s == [s[0]] + s[1..];
      BetterCons(MarkedLe(le), (place, x), u, Mark(place, s[1..]));
      BetterCons(le, x, s[0], s[1..]);
    }
  }

  lemma {:induction false} BetterPlaced<T(!new)>(le: (T, T) -> bool, place: nat, x: T, first: nat, s: seq<T>)
    requires TotalPreorder(le) && first + |s| <= place
    ensures Better(MarkedLe(le), (place, x), MarkPlaces(first, s)) == |Filter(UpTo(le, x), s)|
    decreases |s|
  {
    if s != [] {
      var u: Marked<T> := (first, s[0]);
      BetterPlaced(le, place, x, first + 1, s[1..]);
      assert MarkPlaces(first, s) == [u] + MarkPlaces(first + 1, s[1..]);
      BetterCons(MarkedLe(le), (place, x), u, MarkPlaces(first + 1, s[1..]));
      assert le(x, s[0]) || le(s[0], x);
    }
  }

  // ---- Strings ----------------------------------------------------------------------------

  predicate LexLe(a: string, b: string) {
    if a == [] then true
    else if b == [] then false
    else a[0] < b[0] || (a[0] == b[0] && LexLe(a[1..], b[1..]))
  }

  lemma {:induction false} LexTotal(a: string, b: string)
    ensures LexLe(a, b) || LexLe(b, a)
    ensures LexLe(a, b) && LexLe(b, a) ==> a == b
  {
    if a != [] && b != [] && a[0] == b[0] {
      LexTotal(a[1..], b[1..]);
      assert a == [a[0]] + a[1..] && b == [b[0]] + b[1..];
    }
  }

  lemma {:induction false} LexTransitive(a: string, b: string, c: string)
    requires LexLe(a, b) && LexLe(b, c)
    ensures LexLe(a, c)
  {
    if a != [] && a[0] == b[0] && b[0] == c[0] {
      LexTransitive(a[1..], b[1..], c[1..]);
    }
  }

  /** Strings are ordered by their first difference, a beginning before what continues it. */
  lemma {:induction false} LexByFirstDifference(p: string, a: string, b: string)
    requires a == "" || (b != "" && a[0] < b[0])
    ensures LexLe(p + a, p + b)
  {
    if p == [] {
      assert p + a == a && p + b == b;
    } else {
      assert (p + a)[1..] == p[1..] + a && (p + b)[1..] == p[1..] + b;
      LexByFirstDifference(p[1..], a, b);
    }
  }

  lemma LexOrders()
    ensures TotalPreorder(LexLe)
    ensures forall a, b | LexLe(a, b) && LexLe(b, a) :: a == b
  {
    forall a, b ensures LexLe(a, b) || LexLe(b, a) {
      LexTotal(a, b);
    }
    forall a, b | LexLe(a, b) && LexLe(b, a) ensures a == b {
      LexTotal(a, b);
    }
    forall a, b, c | LexLe(a, b) && LexLe(b, c) ensures LexLe(a, c) {
      LexTransitive(a, b, c);
    }
  }

  /** Each member strictly above the ones before it. */
  ghost predicate Strict(s: seq<string>) {
    forall i, j | 0 <= i < j < |s| :: LexLe(s[i], s[j]) && s[i] != s[j]
  }

  /** Runs of equal neighbours are cut to one. */
  function Dedup<T(==)>(s: seq<T>): seq<T> {
    if |s| <= 1 then s
    else if s[0] == s[1] then Dedup(s[1..])
    else [s[0]] + Dedup(s[1..])
  }

  lemma {:induction false} DedupMembers<T>(s: seq<T>)
    ensures forall x :: x in Dedup(s) <==> x in s
    ensures s != [] ==> Dedup(s) != [] && Dedup(s)[0] == s[0]
  {
    if |s| > 1 {
      DedupMembers(s[1..]);
      assert s == [s[0]] + s[1..];
      assert forall x :: x in s <==> x == s[0] || x in s[1..];
      if s[0] == s[1] {
        assert s[1..][0] == s[1];
      }
    }
  }

  lemma {:induction false} DedupSorted(s: seq<string>)
    requires Sorted(LexLe, s)
    ensures Strict(Dedup(s))
  {
    if |s| > 1 {
      DedupSorted(s[1..]);
      DedupMembers(s[1..]);
      if s[0] != s[1] {
        var rest := Dedup(s[1..]);
        forall k | 0 <= k < |rest| ensures LexLe(s[0], rest[k]) && s[0] != rest[k] {
          assert rest[k] in s[1..];
          LexOrders();
          assert LexLe(s[1], rest[k]);
        }
      }
    }
  }

  /** The canonical form of an id list: sorted, then deduplicated. */
  function Normalize(values: seq<string>): (r: seq<string>) {
    Dedup(Sort(LexLe, values))
  }

  lemma NormalizeCanonical(values: seq<string>)
    ensures Strict(Normalize(values)) && Set(Normalize(values)) == Set(values)
  {
    LexOrders();
    SortSorts(LexLe, values);
    SortPermutes(LexLe, values);
    DedupSorted(Sort(LexLe, values));
    DedupMembers(Sort(LexLe, values));
    assert forall x :: x in Sort(LexLe, values) <==> x in Set(Sort(LexLe, values));
  }

  /** There is only one canonical list for a set. */
  lemma {:induction false} StrictUnique(a: seq<string>, b: seq<string>)
    requires Strict(a) && Strict(b) && Set(a) == Set(b)
    ensures a == b
    decreases |a|
  {
    if a != [] {
      assert a[0] in Set(b);
      assert b[0] in Set(a);
      LexOrders();
      assert a[0] == b[0];
      StrictTail(a);
      StrictTail(b);
      StrictUnique(a[1..], b[1..]);
      assert a == [a[0]] + a[1..] && b == [b[0]] + b[1..];
    } else {
      NoMembers(b);
    }
  }

  lemma NoMembers(b: seq<string>)
    ensures Set(b) == {} ==> b == []
  {
    if b != [] {
      assert b[0] in Set(b);
    }
  }

  lemma StrictTail(a: seq<string>)
    requires Strict(a) && a != []
    ensures Strict(a[1..]) && Set(a[1..]) == Set(a) - {a[0]}
  {
    assert a == [a[0]] + a[1..];
    forall x | x in a[1..] ensures x != a[0] {
      var k :| 0 <= k < |a[1..]| && a[1..][k] == x;
      assert a[k + 1] == x;
    }
  }

  /** Input order and repeats do not matter to the canonical form. */
  lemma NormalizeOfSet(a: seq<string>, b: seq<string>)
    ensures Set(a) == Set(b) <==> Normalize(a) == Normalize(b)
  {
    NormalizeCanonical(a);
    NormalizeCanonical(b);
    if Set(a) == Set(b) {
      StrictUnique(Normalize(a), Normalize(b));
    }
  }

  lemma {:induction false} StrictSize(a: seq<string>)
    requires Strict(a)
    ensures |a| == |Set(a)|
  {
    if a != [] {
      StrictTail(a);
      StrictSize(a[1..]);
      assert a[0] in Set(a);
    }
  }

  /** The canonical list of a set. */
  ghost function SortedList(ids: set<string>): (r: seq<string>)
    ensures Strict(r) && Set(r) == ids
  {
    if ids == {} then []
    else
      var x :| x in ids;
      var rest := SortedList(ids - {x});
      NormalizeCanonical([x] + rest);
      assert forall y :: y in [x] + rest <==> y == x || y in Set(rest);
      Normalize([x] + rest)
  }
}
