/**
  Planning and applying changes to the client scopes bound to a client.

  A plan is computed from two id lists; applying it sends one PUT or DELETE per id and stops at the
  first failure. `bound` below is the set of scope ids the server has for the client.
 */
module ScopePlan {
  import opened Options
  import opened Sequences
  import opened Sorting

  datatype Plan = Plan(requested: seq<string>, alreadyBound: seq<string>, added: seq<string>, removed: seq<string>)

  function AddPlan(existing: seq<string>, requested: seq<string>): Plan {
    var wanted := Normalize(requested);
    Plan(
      wanted,
      Filter(id => id in existing, wanted),
      Normalize(Filter(id => id !in existing, wanted)),
      [])
  }

  function RemovePlan(existing: seq<string>, requested: seq<string>): Plan {
    var wanted := Normalize(requested);
    Plan(
      wanted,
      Filter(id => id !in existing, wanted),
      [],
      Normalize(Filter(id => id in existing, wanted)))
  }

  /** The source enumerates two set differences in hash order before it normalises them. */
  function ReplacePlan(existing: seq<string>, desired: seq<string>): Plan {
    Plan(
      Normalize(desired),
      Normalize(Filter(id => id in desired, existing)),
      Normalize(Filter(id => id !in existing, desired)),
      Normalize(Filter(id => id !in desired, existing)))
  }

  lemma FilterSet(p: string -> bool, s: seq<string>)
    ensures forall x :: x in Set(Filter(p, s)) <==> x in s && p(x)
  {
    FilterMembers(p, s);
  }

  lemma {:induction false} FilterStrict(p: string -> bool, s: seq<string>)
    requires Strict(s)
    ensures Strict(Filter(p, s))
  {
    if s != [] {
      var rest := Filter(p, s[1..]);
      FilterStrict(p, s[1..]);
      FilterMembers(p, s[1..]);
      forall k | 0 <= k < |rest| ensures LexLe(s[0], rest[k]) && s[0] != rest[k] {
        assert rest[k] in rest;
        var i :| 1 <= i < |s| && s[i] == rest[k];
      }
    }
  }

  // ---- The plans as changes to a set ------------------------------------------------------

  datatype Mutation = Bind(id: string) | Unbind(id: string)

  function ApplyOne(bound: set<string>, m: Mutation): set<string> {
    match m
    case Bind(id) => bound + {id}
    case Unbind(id) => bound - {id}
  }

  function ApplyAll(bound: set<string>, ms: seq<Mutation>): set<string>
    decreases |ms|
  {
    if ms == [] then bound else ApplyAll(ApplyOne(bound, ms[0]), ms[1..])
  }

  function Each(make: string -> Mutation, ids: seq<string>): seq<Mutation> {
    seq(|ids|, i requires 0 <= i < |ids| => make(ids[i]))
  }

  /** The requests a plan sends, in order: removals first. */
  function Requests(plan: Plan): seq<Mutation> {
    Each(id => Unbind(id), plan.removed) + Each(id => Bind(id), plan.added)
  }

  /** A plan that leads from the set `from` to the set `to` and touches nothing else. */
  ghost predicate Bridges(plan: Plan, from: set<string>, to: set<string>) {
    && Strict(plan.removed) && Set(plan.removed) == from - to
    && Strict(plan.added) && Set(plan.added) == to - from
  }

  lemma AddPlanBridges(existing: seq<string>, requested: seq<string>)
    ensures var plan := AddPlan(existing, requested);
      && Bridges(plan, Set(existing), Set(existing) + Set(requested))
      && Strict(plan.requested) && Set(plan.requested) == Set(requested)
      && Strict(plan.alreadyBound) && Set(plan.alreadyBound) == Set(requested) * Set(existing)
  {
    var wanted := Normalize(requested);
    NormalizeCanonical(requested);
    FilterStrict(id => id in existing, wanted);
    FilterSet(id => id !in existing, wanted);
    FilterSet(id => id in existing, wanted);
    NormalizeCanonical(Filter(id => id !in existing, wanted));
    assert forall x :: x in wanted <==> x in Set(wanted);
    assert Set(AddPlan(existing, requested).removed) == {};
  }

  lemma RemovePlanBridges(existing: seq<string>, requested: seq<string>)
    ensures var plan := RemovePlan(existing, requested);
      && Bridges(plan, Set(existing), Set(existing) - Set(requested))
      && Strict(plan.requested) && Set(plan.requested) == Set(requested)
      && Strict(plan.alreadyBound) && Set(plan.alreadyBound) == Set(requested) - Set(existing)
  {
    var wanted := Normalize(requested);
    NormalizeCanonical(requested);
    FilterStrict(id => id !in existing, wanted);
    FilterSet(id => id !in existing, wanted);
    FilterSet(id => id in existing, wanted);
    NormalizeCanonical(Filter(id => id in existing, wanted));
    assert forall x :: x in wanted <==> x in Set(wanted);
    assert Set(RemovePlan(existing, requested).added) == {};
  }

  lemma ReplacePlanBridges(existing: seq<string>, desired: seq<string>)
    ensures var plan := ReplacePlan(existing, desired);
      && Bridges(plan, Set(existing), Set(desired))
      && Strict(plan.requested) && Set(plan.requested) == Set(desired)
      && Strict(plan.alreadyBound) && Set(plan.alreadyBound) == Set(desired) * Set(existing)
  {
    NormalizeCanonical(desired);
    FilterSet(id => id in desired, existing);
    FilterSet(id => id !in existing, desired);
    FilterSet(id => id !in desired, existing);
    NormalizeCanonical(Filter(id => id in desired, existing));
    NormalizeCanonical(Filter(id => id !in existing, desired));
    NormalizeCanonical(Filter(id => id !in desired, existing));
  }

  // ---- Convergence, minimality, interruption ----------------------------------------------

  lemma {:induction false} UnbindEach(bound: set<string>, ids: seq<string>)
    ensures ApplyAll(bound, Each(id => Unbind(id), ids)) == bound - Set(ids)
    decreases |ids|
  {
    var make := id => Unbind(id);
    if ids != [] {
      assert Each(make, ids)[1..] == Each(make, ids[1..]);
      UnbindEach(bound - {ids[0]}, ids[1..]);
      assert ids == [ids[0]] + ids[1..];
      assert bound - {ids[0]} - Set(ids[1..]) == bound - Set(ids);
    }
  }

  lemma {:induction false} BindEach(bound: set<string>, ids: seq<string>)
    ensures ApplyAll(bound, Each(id => Bind(id), ids)) == bound + Set(ids)
    decreases |ids|
  {
    var make := id => Bind(id);
    if ids != [] {
      assert Each(make, ids)[1..] == Each(make, ids[1..]);
      BindEach(bound + {ids[0]}, ids[1..]);
      assert ids == [ids[0]] + ids[1..];
      assert bound + {ids[0]} + Set(ids[1..]) == bound + Set(ids);
    }
  }

  lemma {:induction false} ApplyConcat(bound: set<string>, a: seq<Mutation>, b: seq<Mutation>)
    ensures ApplyAll(bound, a + b) == ApplyAll(ApplyAll(bound, a), b)
    decreases |a|
  {
    if a == [] {
      assert a + b == b;
    } else {
      assert (a + b)[1..] == a[1..] + b;
      ApplyConcat(ApplyOne(bound, a[0]), a[1..], b);
    }
  }

  function Difference(a: set<string>, b: set<string>): set<string> {
    (a - b) + (b - a)
  }

  /** A bridging plan reaches its target with as many requests as there are ids to change. */
  lemma PlanReachesTarget(plan: Plan, from: set<string>, to: set<string>)
    requires Bridges(plan, from, to)
    ensures ApplyAll(from, Requests(plan)) == to
    ensures |Requests(plan)| == |Difference(from, to)|
  {
    ApplyConcat(from, Each(id => Unbind(id), plan.removed), Each(id => Bind(id), plan.added));
    UnbindEach(from, plan.removed);
    BindEach(from - Set(plan.removed), plan.added);
    assert from - (from - to) + (to - from) == to;
    StrictSize(plan.removed);
    StrictSize(plan.added);
    assert |Difference(from, to)| == |from - to| + |to - from|;
  }

  /** No sequence of requests of any kind reaches the target with fewer. */
  lemma {:induction false} NoShorterWay(from: set<string>, to: set<string>, ms: seq<Mutation>)
    requires ApplyAll(from, ms) == to
    ensures |Difference(from, to)| <= |ms|
    decreases |ms|
  {
    if ms == [] {
      assert Difference(from, to) == {};
    } else {
      var next := ApplyOne(from, ms[0]);
      NoShorterWay(next, to, ms[1..]);
      assert Difference(from, to) <= Difference(next, to) + {ms[0].id};
      SubsetSize(Difference(from, to), Difference(next, to) + {ms[0].id});
    }
  }

  lemma EachSplit(make: string -> Mutation, ids: seq<string>, k: nat)
    requires k <= |ids|
    ensures Each(make, ids)[..k] == Each(make, ids[..k])
    ensures Each(make, ids)[k..] == Each(make, ids[k..])
  {}

  /** What is left of a plan after its first `k` requests. */
  function Rest(plan: Plan, k: nat): Plan
    requires k <= |Requests(plan)|
  {
    if k <= |plan.removed| then plan.(removed := plan.removed[k..])
    else plan.(removed := [], added := plan.added[k - |plan.removed|..])
  }

  lemma StrictParts(ids: seq<string>, k: nat)
    requires Strict(ids) && k <= |ids|
    ensures Strict(ids[k..])
    ensures Set(ids[k..]) == Set(ids) - Set(ids[..k])
  {
    forall x ensures x in ids[k..] <==> x in ids && x !in ids[..k] {
      assert ids == ids[..k] + ids[k..];
    }
  }

  lemma CutWhileRemoving(plan: Plan, from: set<string>, to: set<string>, k: nat)
    requires Bridges(plan, from, to) && k <= |plan.removed|
    ensures var mid := from - Set(plan.removed[..k]);
      from * to <= mid <= from + to && Bridges(plan.(removed := plan.removed[k..]), mid, to)
  {
    StrictParts(plan.removed, k);
    var mid := from - Set(plan.removed[..k]);
    assert Set(plan.removed[..k]) <= from - to;
    assert mid - to == Set(plan.removed[k..]);
    assert to - mid == to - from;
  }

  lemma CutWhileAdding(plan: Plan, from: set<string>, to: set<string>, k: nat)
    requires Bridges(plan, from, to) && k <= |plan.added|
    ensures var mid := from - Set(plan.removed) + Set(plan.added[..k]);
      from * to <= mid <= from + to && Bridges(plan.(removed := [], added := plan.added[k..]), mid, to)
  {
    StrictParts(plan.added, k);
    var mid := from - Set(plan.removed) + Set(plan.added[..k]);
    assert Set(plan.added[..k]) <= to - from;
    assert mid - to == {};
    assert to - mid == Set(plan.added[k..]);
  }

  /**
    A plan cut short after any `k` requests leaves a set between the intersection and the union of
    its ends, and what is left of it bridges from there to the same target.
   */
  lemma CutShort(plan: Plan, from: set<string>, to: set<string>, k: nat)
    requires Bridges(plan, from, to) && k <= |Requests(plan)|
    ensures var mid := ApplyAll(from, Requests(plan)[..k]);
      && from * to <= mid <= from + to
      && Bridges(Rest(plan, k), mid, to)
    ensures Requests(Rest(plan, k)) == Requests(plan)[k..]
  {
    var r := |plan.removed|;
    var unbind, bind := id => Unbind(id), id => Bind(id);
    if k <= r {
      EachSplit(unbind, plan.removed, k);
      assert Requests(plan)[..k] == Each(unbind, plan.removed[..k]);
      UnbindEach(from, plan.removed[..k]);
      CutWhileRemoving(plan, from, to, k);
    } else {
      EachSplit(bind, plan.added, k - r);
      assert Requests(plan)[..k] == Each(unbind, plan.removed) + Each(bind, plan.added[..k - r]);
      ApplyConcat(from, Each(unbind, plan.removed), Each(bind, plan.added[..k - r]));
      UnbindEach(from, plan.removed);
      BindEach(from - Set(plan.removed), plan.added[..k - r]);
      CutWhileAdding(plan, from, to, k - r);
    }
  }

  /** Plans that bridge the same two sets send the same requests. */
  lemma BridgesUnique(p: Plan, q: Plan, from: set<string>, to: set<string>)
    requires Bridges(p, from, to) && Bridges(q, from, to)
    ensures Requests(p) == Requests(q)
  {
    StrictUnique(p.removed, q.removed);
    StrictUnique(p.added, q.added);
  }

  // ---- The tools ----------------------------------------------------------------------------

  /** Which plan a tool builds from the ids bound now and the ids it was given. */
  datatype Tool = AddTool | RemoveTool | ReplaceTool

  function PlanOf(tool: Tool, existing: seq<string>, ids: seq<string>): Plan {
    match tool
    case AddTool => AddPlan(existing, ids)
    case RemoveTool => RemovePlan(existing, ids)
    case ReplaceTool => ReplacePlan(existing, ids)
  }

  function Target(tool: Tool, bound: set<string>, ids: seq<string>): set<string> {
    match tool
    case AddTool => bound + Set(ids)
    case RemoveTool => bound - Set(ids)
    case ReplaceTool => Set(ids)
  }

  lemma PlanBridges(tool: Tool, existing: seq<string>, ids: seq<string>)
    ensures Bridges(PlanOf(tool, existing, ids), Set(existing), Target(tool, Set(existing), ids))
  {
    match tool
    case AddTool => AddPlanBridges(existing, ids);
    case RemoveTool => RemovePlanBridges(existing, ids);
    case ReplaceTool => ReplacePlanBridges(existing, ids);
  }

  /** Every tool reaches its target with the least number of requests. */
  lemma ToolConverges(tool: Tool, existing: seq<string>, ids: seq<string>, others: seq<Mutation>)
    ensures var requests := Requests(PlanOf(tool, existing, ids));
      && ApplyAll(Set(existing), requests) == Target(tool, Set(existing), ids)
      && |requests| == |Difference(Set(existing), Target(tool, Set(existing), ids))|
      && (ApplyAll(Set(existing), others) == Target(tool, Set(existing), ids) ==> |requests| <= |others|)
  {
    PlanBridges(tool, existing, ids);
    PlanReachesTarget(PlanOf(tool, existing, ids), Set(existing), Target(tool, Set(existing), ids));
    if ApplyAll(Set(existing), others) == Target(tool, Set(existing), ids) {
      NoShorterWay(Set(existing), Target(tool, Set(existing), ids), others);
    }
  }

  /**
    Running a tool again after it stopped behind any `k` requests plans exactly the requests that
    were left; after a complete run (`k` all of them) it plans none.
   */
  lemma RerunResumes(tool: Tool, existing: seq<string>, ids: seq<string>, k: nat, now: seq<string>)
    requires k <= |Requests(PlanOf(tool, existing, ids))|
    requires Set(now) == ApplyAll(Set(existing), Requests(PlanOf(tool, existing, ids))[..k])
    ensures Requests(PlanOf(tool, now, ids)) == Requests(PlanOf(tool, existing, ids))[k..]
  {
    var plan, to := PlanOf(tool, existing, ids), Target(tool, Set(existing), ids);
    PlanBridges(tool, existing, ids);
    CutShort(plan, Set(existing), to, k);
    PlanBridges(tool, now, ids);
    assert Target(tool, Set(now), ids) == to;
    BridgesUnique(PlanOf(tool, now, ids), Rest(plan, k), Set(now), to);
  }

  /** Removing exactly what an add reports as added restores the set before it, and the other way. */
  lemma UndoRestores(existing: seq<string>, ids: seq<string>, now: seq<string>)
    ensures Set(now) == Target(AddTool, Set(existing), ids) ==>
      Target(RemoveTool, Set(now), AddPlan(existing, ids).added) == Set(existing)
    ensures Set(now) == Target(RemoveTool, Set(existing), ids) ==>
      Target(AddTool, Set(now), RemovePlan(existing, ids).removed) == Set(existing)
  {
    AddPlanBridges(existing, ids);
    RemovePlanBridges(existing, ids);
  }
}
