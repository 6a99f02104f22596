/**
  The tools that change the client scopes of one client, against a server that may fail any request.

  Token checks, client lookup and name resolution come before what is modelled here: a tool starts
  from the ids it resolved.
 */
module ScopeTools {
  import opened Options
  import opened ScopePlan
  import opened Sequences
  import opened Sorting
  import opened Text

  datatype ScopeKind = Default | Optional

  datatype Outcome =
    | WouldUpdate | WouldAdd | WouldRemove | Updated | Added | Removed
    | AlreadyBound | AlreadyUnbound | AlreadyMatch

  datatype Summary = Summary(
    outcome: Outcome, changed: bool, requested: seq<string>, alreadyBound: seq<string>,
    toAdd: seq<string>, toRemove: seq<string>, willApply: bool, dryRun: bool)

  datatype Failure = NoScopes | UnsafeId(id: string) | GatewayFailed

  function MutationOutcome(toAdd: seq<string>, toRemove: seq<string>, dryRun: bool, noChange: Outcome): Outcome {
    if toAdd == [] && toRemove == [] then noChange
    else if dryRun then
      if toAdd != [] && toRemove != [] then WouldUpdate else if toAdd != [] then WouldAdd else WouldRemove
    else if toAdd != [] && toRemove != [] then Updated
    else if toAdd != [] then Added
    else Removed
  }

  function NoChange(tool: Tool): Outcome {
    match tool
    case AddTool => AlreadyBound
    case RemoveTool => AlreadyUnbound
    case ReplaceTool => AlreadyMatch
  }

  function Summarize(tool: Tool, plan: Plan, dryRun: bool): Summary {
    var changed := plan.added != [] || plan.removed != [];
    Summary(
      MutationOutcome(plan.added, plan.removed, dryRun, NoChange(tool)), changed,
      plan.requested, plan.alreadyBound, plan.added, plan.removed, !dryRun && changed, dryRun)
  }

  predicate HasDotDot(id: string) {
    |id| >= 2 && ((id[0] == '.' && id[1] == '.') || HasDotDot(id[1..]))
  }

  /** Ids that may stand in a request path. */
  predicate PathSafe(id: string) {
    '/' !in id && '\\' !in id && !HasDotDot(id)
  }

  lemma PathSafeMeans(id: string)
    ensures PathSafe(id) <==> '/' !in id && '\\' !in id && !Contains(id, "..")
  {
    HasDotDotMeans(id);
  }

  lemma {:induction false} HasDotDotMeans(id: string)
    ensures HasDotDot(id) <==> Contains(id, "..")
  {
    assert id[0..] == id;
    if id != [] {
      HasDotDotMeans(id[1..]);
      forall i | 1 <= i <= |id| ensures id[i..] == id[1..][i - 1..] {}
      if Contains(id[1..], "..") {
        var i :| 0 <= i <= |id[1..]| && ".." <= id[1..][i..];
        assert ".." <= id[i + 1..];
      }
      assert |id| >= 2 ==> (".." <= id <==> id[0] == '.' && id[1] == '.');
    }
  }

  /** How a server may answer a write: done, refused, or done with the answer lost. */
  datatype Reply = Done | Refused | Lost

  /**
    The first `asked` of the requests were sent and the first `applied` of them took effect; at most
    the last one sent did not.
   */
  ghost predicate Progress(kind: ScopeKind, before: map<ScopeKind, set<string>>, now: map<ScopeKind, set<string>>,
                           sent: seq<(ScopeKind, Mutation)>, sentNow: seq<(ScopeKind, Mutation)>,
                           ms: seq<Mutation>, applied: nat, asked: nat) {
    && kind in before && applied <= asked <= applied + 1 && asked <= |ms|
    && now == before[kind := ApplyAll(before[kind], ms[..applied])]
    && sentNow == sent + Tag(kind, ms[..asked])
  }

  lemma NoProgress(kind: ScopeKind, before: map<ScopeKind, set<string>>, now: map<ScopeKind, set<string>>,
                   sent: seq<(ScopeKind, Mutation)>, sentNow: seq<(ScopeKind, Mutation)>, ms: seq<Mutation>)
    requires kind in before
    ensures Progress(kind, before, now, sent, sentNow, ms, 0, 0) <==> now == before && sentNow == sent
  {
    assert before[kind := before[kind]] == before;
    assert Tag(kind, ms[..0]) == [] && sent + [] == sent;
  }

  lemma ProgressFirst(kind: ScopeKind, before: map<ScopeKind, set<string>>, now: map<ScopeKind, set<string>>,
                      sent: seq<(ScopeKind, Mutation)>, sentNow: seq<(ScopeKind, Mutation)>,
                      a: seq<Mutation>, b: seq<Mutation>, applied: nat, asked: nat)
    requires Progress(kind, before, now, sent, sentNow, a, applied, asked)
    ensures Progress(kind, before, now, sent, sentNow, a + b, applied, asked)
  {
    assert (a + b)[..applied] == a[..applied] && (a + b)[..asked] == a[..asked];
  }

  /** All of `a` and then some of `b` is some of both. */
  lemma ProgressThen(kind: ScopeKind, before: map<ScopeKind, set<string>>, mid: map<ScopeKind, set<string>>,
                     now: map<ScopeKind, set<string>>, sent: seq<(ScopeKind, Mutation)>, sentMid: seq<(ScopeKind, Mutation)>,
                     sentNow: seq<(ScopeKind, Mutation)>, a: seq<Mutation>, b: seq<Mutation>, applied: nat, asked: nat)
    requires Progress(kind, before, mid, sent, sentMid, a, |a|, |a|)
    requires Progress(kind, mid, now, sentMid, sentNow, b, applied, asked)
    ensures Progress(kind, before, now, sent, sentNow, a + b, |a| + applied, |a| + asked)
  {
    assert a[..|a|] == a;
    assert (a + b)[..|a| + applied] == a + b[..applied];
    ApplyConcat(before[kind], a, b[..applied]);
    TagParts(kind, a, b, asked);
  }

  /** One request per id: first those that unbind, then those that bind. */
  function InOrder(kind: ScopeKind, toRemove: seq<string>, toAdd: seq<string>): seq<(ScopeKind, Mutation)> {
    seq(|toRemove| + |toAdd|, i requires 0 <= i < |toRemove| + |toAdd| =>
      (kind, if i < |toRemove| then Unbind(toRemove[i]) else Bind(toAdd[i - |toRemove|])))
  }

  lemma PlanInOrder(kind: ScopeKind, plan: Plan)
    ensures Tag(kind, Requests(plan)) == InOrder(kind, plan.removed, plan.added)
    ensures Requests(plan)[..|Requests(plan)|] == Requests(plan)
  {}

  class ScopeServer {
    var bound: map<ScopeKind, set<string>>
    ghost var sent: seq<(ScopeKind, Mutation)>

    ghost predicate Valid()
      reads this
    {
      Default in bound && Optional in bound
    }

    constructor (defaults: set<string>, optionals: set<string>)
      ensures Valid() && bound == map[Default := defaults, Optional := optionals] && sent == []
    {
      bound := map[Default := defaults, Optional := optionals];
      sent := [];
    }

    method Send(kind: ScopeKind, m: Mutation) returns (ok: bool)
      requires Valid()
      modifies this
      ensures Valid() && sent == old(sent) + [(kind, m)]
      ensures (bound == old(bound) && !ok) || bound == old(bound)[kind := ApplyOne(old(bound)[kind], m)]
    {
      var reply: Reply := *;
      if reply != Refused {
        bound := bound[kind := ApplyOne(bound[kind], m)];
      }
      sent := sent + [(kind, m)];
      ok := reply == Done;
    }

    /** The server lists ids in any order; the caller sorts and deduplicates them. */
    method ExistingIds(kind: ScopeKind) returns (ids: seq<string>)
      requires Valid()
      ensures ids == SortedList(bound[kind])
    {
      var listed: seq<string>, rest := [], bound[kind];
      while rest != {}
        invariant Set(listed) + rest == bound[kind]
        decreases rest
      {
        var id :| id in rest;
        listed, rest := listed + [id], rest - {id};
      }
      ids := Normalize(listed);
      NormalizeCanonical(listed);
      StrictUnique(ids, SortedList(bound[kind]));
    }

    method ApplyMutation(kind: ScopeKind, m: Mutation, dryRun: bool) returns (r: Option<Failure>)
      requires Valid()
      modifies this
      ensures Valid()
      ensures dryRun ==> r == None && bound == old(bound) && sent == old(sent)
      ensures !dryRun ==> sent == old(sent) + [(kind, m)]
      ensures r.Some? ==> r.value == GatewayFailed
      ensures !dryRun ==> (bound == old(bound) && r.Some?) || bound == old(bound)[kind := ApplyOne(old(bound)[kind], m)]
    {
      if dryRun {
        return None;
      }
      var ok := Send(kind, m);
      r := if ok then None else Some(GatewayFailed);
    }

    /**
      One request per id, stopping at the first unsafe id or failed request: `applied` of the
      requests took effect, and at most one more was sent.
     */
    method SendEach(kind: ScopeKind, action: Action, ids: seq<string>, dryRun: bool)
      returns (r: Option<Failure>, ghost applied: nat, ghost asked: nat)
      requires Valid()
      modifies this
      ensures Valid() && Progress(kind, old(bound), bound, old(sent), sent, Each(action.Make(), ids), applied, asked)
      ensures dryRun ==> asked == 0
      ensures r == None ==> (!dryRun ==> applied == |ids|) && forall id | id in ids :: PathSafe(id)
      ensures r.Some? ==> r.value == GatewayFailed || (r.value.UnsafeId? && r.value.id in ids && !PathSafe(r.value.id))
    {
      applied, asked := 0, 0;
      ghost var ms := Each(action.Make(), ids);
      assert Tag(kind, ms[..0]) == [];
      for i := 0 to |ids|
        invariant Valid() && applied == asked == if dryRun then 0 else i
        invariant bound == old(bound)[kind := ApplyAll(old(bound)[kind], ms[..applied])]
        invariant sent == old(sent) + Tag(kind, ms[..asked])
        invariant dryRun ==> bound == old(bound)
        invariant forall id | id in ids[..i] :: PathSafe(id)
      {
        if !PathSafe(ids[i]) {
          return Some(UnsafeId(ids[i])), applied, asked;
        }
        ghost var before := bound[kind];
        r := ApplyMutation(kind, action.Make()(ids[i]), dryRun);
        if !dryRun {
          asked := i + 1;
          TagSnoc(kind, ms, i);
          assert ms[..i + 1] == ms[..i] + [ms[i]];
          ApplyConcat(old(bound)[kind], ms[..i], [ms[i]]);
          if bound[kind] == ApplyOne(before, ms[i]) {
            applied := i + 1;
          }
        }
        if r.Some? {
          return;
        }
      }
      assert ids[..|ids|] == ids;
      r := None;
    }

    /** The removals of a plan, then its additions. */
    method ApplyPlan(kind: ScopeKind, plan: Plan, dryRun: bool)
      returns (failure: Option<Failure>, ghost applied: nat, ghost asked: nat)
      requires Valid()
      modifies this
      ensures Valid() && Progress(kind, old(bound), bound, old(sent), sent, Requests(plan), applied, asked)
      ensures dryRun ==> asked == 0
      ensures failure == None && !dryRun ==> applied == |Requests(plan)|
      ensures failure == None ==> forall id | id in plan.removed + plan.added :: PathSafe(id)
    {
      ghost var removals, additions := Each(Remove.Make(), plan.removed), Each(Add.Make(), plan.added);
      assert Requests(plan) == removals + additions;
      ghost var bound0, sent0 := bound, sent;
      failure, applied, asked := SendEach(kind, Remove, plan.removed, dryRun);
      ProgressFirst(kind, bound0, bound, sent0, sent, removals, additions, applied, asked);
      if failure.Some? {
        return;
      }
      ghost var bound1, sent1 := bound, sent;
      ghost var more, asked';
      failure, more, asked' := SendEach(kind, Add, plan.added, dryRun);
      if dryRun {
        NoProgress(kind, bound0, bound1, sent0, sent1, removals);
        NoProgress(kind, bound1, bound, sent1, sent, additions);
        NoProgress(kind, bound0, bound, sent0, sent, removals + additions);
      } else {
        ProgressThen(kind, bound0, bound1, bound, sent0, sent1, sent, removals, additions, more, asked');
        applied, asked := applied + more, asked + asked';
      }
    }

    /**
      Add, remove or replace: on success the bound set is the tool's target, or untouched in a dry
      run, and the summary shows the plan; on failure the set is what the first `applied` requests
      of the plan make of it, and at most the next one was sent without taking effect, so
      `ScopePlan.RerunResumes` tells what a rerun will do.
     */
    method RunTool(tool: Tool, kind: ScopeKind, ids: seq<string>, allowEmpty: bool, dryRun: bool)
      returns (r: Result<Summary, Failure>, ghost applied: nat, ghost asked: nat)
      requires Valid()
      modifies this
      ensures Valid()
      ensures var plan := PlanOf(tool, SortedList(old(bound)[kind]), ids);
        && Progress(kind, old(bound), bound, old(sent), sent, Requests(plan), applied, asked)
        && (r.Ok? ==> r.value == Summarize(tool, plan, dryRun))
        && (r.Ok? && !dryRun ==> applied == |Requests(plan)|)
      ensures r.Ok? && !dryRun ==>
        bound == old(bound)[kind := match tool
          case AddTool => old(bound)[kind] + Set(ids)
          case RemoveTool => old(bound)[kind] - Set(ids)
          case ReplaceTool => Set(ids)]
      ensures r.Ok? && !dryRun ==> sent == old(sent) + InOrder(kind, r.value.toRemove, r.value.toAdd)
      ensures dryRun ==> bound == old(bound) && sent == old(sent)
      ensures ids == [] && !(tool == ReplaceTool && allowEmpty) ==> r == Err(NoScopes) && sent == old(sent)
    {
      if ids == [] && !(tool == ReplaceTool && allowEmpty) {
        NoProgress(kind, bound, bound, sent, sent, Requests(PlanOf(tool, SortedList(bound[kind]), ids)));
        return Err(NoScopes), 0, 0;
      }
      var existing := ExistingIds(kind);
      var plan := PlanOf(tool, existing, ids);
      ToolReaches(tool, existing, ids);
      var failure;
      ghost var bound0, sent0 := bound, sent;
      failure, applied, asked := ApplyPlan(kind, plan, dryRun);
      if dryRun {
        NoProgress(kind, bound0, bound, sent0, sent, Requests(plan));
      }
      PlanInOrder(kind, plan);
      r := if failure.Some? then Err(failure.value) else Ok(Summarize(tool, plan, dryRun));
    }

    /** Bind an id as a default scope unless it is bound somewhere, or unbind it everywhere. */
    method EnsureScope(id: string, ensure: bool, dryRun: bool) returns (r: Result<Summary, Failure>)
      requires Valid()
      modifies this
      ensures Valid()
      ensures r.Ok? ==> r.value == Summarize(
        if ensure then AddTool else RemoveTool,
        EnsurePlan(id in old(bound)[Default], id in old(bound)[Optional], ensure, id), dryRun)
      ensures r.Ok? && !dryRun ==> bound == Ensured(old(bound), id, ensure)
      ensures r.Ok? && !dryRun && ensure ==>
        && bound[Optional] == old(bound)[Optional]
        && if id in old(bound)[Default] || id in old(bound)[Optional]
           then bound[Default] == old(bound)[Default] && sent == old(sent)
           else bound[Default] == old(bound)[Default] + {id} && sent == old(sent) + [(Default, Bind(id))]
      ensures r.Ok? && !dryRun && !ensure ==>
        && bound[Default] == old(bound)[Default] - {id} && bound[Optional] == old(bound)[Optional] - {id}
        && sent == old(sent)
          + (if id in old(bound)[Default] then [(Default, Unbind(id))] else [])
          + (if id in old(bound)[Optional] then [(Optional, Unbind(id))] else [])
      ensures Ensured(bound, id, ensure) == Ensured(old(bound), id, ensure)
      ensures bound[Default] == old(bound)[Default] || bound[Default] == Ensured(old(bound), id, ensure)[Default]
      ensures bound[Optional] == old(bound)[Optional] || bound[Optional] == Ensured(old(bound), id, ensure)[Optional]
      ensures dryRun ==> bound == old(bound) && sent == old(sent)
      ensures old(bound) == Ensured(old(bound), id, ensure) ==> sent == old(sent) && r != Err(GatewayFailed)
      ensures r.Err? ==> r.error == GatewayFailed || (r.error == UnsafeId(id) && !PathSafe(id) && sent == old(sent))
    {
      if !PathSafe(id) {
        return Err(UnsafeId(id));
      }
      var defaultIds := ExistingIds(Default);
      var optionalIds := ExistingIds(Optional);
      var inDefault, inOptional := id in defaultIds, id in optionalIds;
      assert inDefault == (id in Set(defaultIds)) && inOptional == (id in Set(optionalIds));
      var failure := None;
      if ensure {
        if !inDefault && !inOptional {
          failure := ApplyMutation(Default, Bind(id), dryRun);
        }
      } else {
        failure := UnbindEverywhere(id, inDefault, inOptional, dryRun);
      }
      EnsureResumes(old(bound), bound, id, ensure);
      if failure.Some? {
        return Err(failure.value);
      }
      var plan := EnsurePlan(inDefault, inOptional, ensure, id);
      r := Ok(Summarize(if ensure then AddTool else RemoveTool, plan, dryRun));
    }

    method UnbindEverywhere(id: string, inDefault: bool, inOptional: bool, dryRun: bool) returns (r: Option<Failure>)
      requires Valid() && inDefault == (id in bound[Default]) && inOptional == (id in bound[Optional])
      modifies this
      ensures Valid()
      ensures dryRun ==> bound == old(bound) && sent == old(sent)
      ensures r == None && !dryRun ==> bound == Ensured(old(bound), id, false)
      ensures r == None && !dryRun ==>
        sent == old(sent)
          + (if inDefault then [(Default, Unbind(id))] else []) + (if inOptional then [(Optional, Unbind(id))] else [])
      ensures bound[Default] == old(bound)[Default] || bound[Default] == old(bound)[Default] - {id}
      ensures bound[Optional] == old(bound)[Optional] || bound[Optional] == old(bound)[Optional] - {id}
      ensures !inDefault && !inOptional ==> r == None && sent == old(sent)
      ensures r.Some? ==> r.value == GatewayFailed
    {
      assert !inDefault ==> bound[Default] - {id} == bound[Default];
      assert !inOptional ==> bound[Optional] - {id} == bound[Optional];
      r := None;
      if inDefault {
        r := ApplyMutation(Default, Unbind(id), dryRun);
        if r.Some? {
          return;
        }
      }
      if inOptional {
        r := ApplyMutation(Optional, Unbind(id), dryRun);
      }
    }
  }

  function EnsurePlan(inDefault: bool, inOptional: bool, ensure: bool, id: string): Plan {
    if ensure then
      if inDefault || inOptional then Plan([id], [id], [], []) else Plan([id], [], [id], [])
    else
      Plan([id], [], [], Normalize((if inDefault then [id] else []) + (if inOptional then [id] else [])))
  }

  /** The bindings an ensure call is for. */
  function Ensured(bound: map<ScopeKind, set<string>>, id: string, ensure: bool): map<ScopeKind, set<string>>
    requires Default in bound && Optional in bound
  {
    if !ensure then bound[Default := bound[Default] - {id}][Optional := bound[Optional] - {id}]
    else if id in bound[Default] || id in bound[Optional] then bound
    else bound[Default := bound[Default] + {id}]
  }

  /** Wherever a failed ensure call stops, calling it again is for the same bindings. */
  lemma EnsureResumes(before: map<ScopeKind, set<string>>, now: map<ScopeKind, set<string>>, id: string, ensure: bool)
    requires Default in before && Optional in before && Default in now && Optional in now
    requires now[Default] == before[Default] || now[Default] == Ensured(before, id, ensure)[Default]
    requires now[Optional] == before[Optional] || now[Optional] == Ensured(before, id, ensure)[Optional]
    ensures Ensured(now, id, ensure) == Ensured(before, id, ensure)
  {
    var a, b := Ensured(now, id, ensure), Ensured(before, id, ensure);
    if !ensure {
      assert now[Default] - {id} == before[Default] - {id};
      assert now[Optional] - {id} == before[Optional] - {id};
    }
    forall kind ensures (kind in a <==> kind in b) && (kind in a ==> a[kind] == b[kind]) {
      assert kind == Default || kind == Optional;
    }
  }

  /** After an ensure call has reached its bindings, calling it again finds nothing to do. */
  lemma EnsureIdempotent(bound: map<ScopeKind, set<string>>, id: string, ensure: bool, dryRun: bool)
    requires Default in bound && Optional in bound
    ensures var after := Ensured(bound, id, ensure);
      && (id in after[Default] + after[Optional] <==> ensure)
      && Ensured(after, id, ensure) == after
      && var again := Summarize(
           if ensure then AddTool else RemoveTool,
           EnsurePlan(id in after[Default], id in after[Optional], ensure, id), dryRun);
         !again.changed && !again.willApply && again.outcome == (if ensure then AlreadyBound else AlreadyUnbound)
  {
    var after := Ensured(bound, id, ensure);
    if !ensure {
      assert after[Default] - {id} == after[Default] && after[Optional] - {id} == after[Optional];
      assert Normalize([] + []) == [];
    }
  }

  lemma ToolReaches(tool: Tool, existing: seq<string>, ids: seq<string>)
    ensures var requests := Requests(PlanOf(tool, existing, ids));
      ApplyAll(Set(existing), requests[..|requests|]) == Target(tool, Set(existing), ids)
  {
    ToolConverges(tool, existing, ids, []);
    var requests := Requests(PlanOf(tool, existing, ids));
    assert requests[..|requests|] == requests;
  }

  /** What the summary of a tool says of its call: the lists, the flags and the outcome. */
  lemma SummaryShows(tool: Tool, existing: seq<string>, ids: seq<string>, dryRun: bool)
    ensures var s, had, asked := Summarize(tool, PlanOf(tool, existing, ids), dryRun), Set(existing), Set(ids);
      && Strict(s.requested) && Strict(s.alreadyBound) && Strict(s.toAdd) && Strict(s.toRemove)
      && Set(s.requested) == asked
      && Set(s.toAdd) == (match tool case RemoveTool => {} case _ => asked - had)
      && Set(s.toRemove) == (match tool case AddTool => {} case RemoveTool => asked * had case ReplaceTool => had - asked)
      && Set(s.alreadyBound) == (match tool case RemoveTool => asked - had case _ => asked * had)
    ensures var s := Summarize(tool, PlanOf(tool, existing, ids), dryRun);
      && (s.changed <==> s.toAdd != [] || s.toRemove != [])
      && (s.willApply <==> s.changed && !dryRun) && s.dryRun == dryRun
      && s.outcome ==
        if !s.changed then match tool case AddTool => AlreadyBound case RemoveTool => AlreadyUnbound case ReplaceTool => AlreadyMatch
        else if s.toRemove == [] then if dryRun then WouldAdd else Added
        else if s.toAdd == [] then if dryRun then WouldRemove else Removed
        else if dryRun then WouldUpdate else Updated
  {
    match tool
    case AddTool => AddPlanBridges(existing, ids);
    case RemoveTool => RemovePlanBridges(existing, ids);
    case ReplaceTool => ReplacePlanBridges(existing, ids);
  }

  /** What an ensure call reports. */
  lemma EnsureSummaryShows(inDefault: bool, inOptional: bool, ensure: bool, id: string, dryRun: bool)
    ensures var s := Summarize(if ensure then AddTool else RemoveTool, EnsurePlan(inDefault, inOptional, ensure, id), dryRun);
      var bound := inDefault || inOptional;
      && s.requested == [id]
      && s.alreadyBound == (if ensure && bound then [id] else [])
      && s.toAdd == (if ensure && !bound then [id] else [])
      && s.toRemove == (if !ensure && bound then [id] else [])
      && s.outcome == if ensure then (if bound then AlreadyBound else if dryRun then WouldAdd else Added)
           else if !bound then AlreadyUnbound else if dryRun then WouldRemove else Removed
  {
    assert [id][1..] == [] && [] + [id] == [id] && [id] + [] == [id];
    assert [id, id][1..] == [id];
    assert [id] + [id] == [id, id];
    LexTotal(id, id);
    assert Sort(LexLe, [id]) == [id] && Sort(LexLe, [id, id]) == [id, id];
    assert Dedup([id]) == [id] && Dedup([id, id]) == [id];
    assert Normalize([]) == [];
  }

  /**
    A dry run reports the plan of the live run, applies nothing, and says so; a run changes something
    exactly when its plan sends requests, and a second complete run changes nothing.
   */
  lemma DryRunShowsPlan(tool: Tool, existing: seq<string>, ids: seq<string>)
    ensures var plan := PlanOf(tool, existing, ids);
      var dry, live := Summarize(tool, plan, true), Summarize(tool, plan, false);
      && live == dry.(outcome := live.outcome, willApply := dry.changed, dryRun := false)
      && !dry.willApply
      && (dry.changed <==> Requests(plan) != [])
      && (dry.changed <==> Target(tool, Set(existing), ids) != Set(existing))
      && (dry.outcome == live.outcome <==> !dry.changed)
  {
    var plan := PlanOf(tool, existing, ids);
    ToolConverges(tool, existing, ids, []);
    assert |Requests(plan)| == |plan.removed| + |plan.added|;
    assert Requests(plan) == [] ==> ApplyAll(Set(existing), Requests(plan)) == Set(existing);
    if Target(tool, Set(existing), ids) == Set(existing) {
      assert Difference(Set(existing), Set(existing)) == {};
    }
  }

  lemma SecondRunChangesNothing(tool: Tool, existing: seq<string>, ids: seq<string>, dryRun: bool)
    ensures var after := SortedList(Target(tool, Set(existing), ids));
      var again := Summarize(tool, PlanOf(tool, after, ids), dryRun);
      && Requests(PlanOf(tool, after, ids)) == []
      && !again.changed && again.outcome == NoChange(tool)
  {
    var requests := Requests(PlanOf(tool, existing, ids));
    var after := SortedList(Target(tool, Set(existing), ids));
    ToolReaches(tool, existing, ids);
    RerunResumes(tool, existing, ids, |requests|, after);
    DryRunShowsPlan(tool, after, ids);
  }

  datatype Action = Add | Remove {
    function Make(): string -> Mutation {
      match this
      case Add => id => Bind(id)
      case Remove => id => Unbind(id)
    }
  }

  function Tag(kind: ScopeKind, ms: seq<Mutation>): seq<(ScopeKind, Mutation)> {
    seq(|ms|, i requires 0 <= i < |ms| => (kind, ms[i]))
  }

  lemma TagSnoc(kind: ScopeKind, ms: seq<Mutation>, i: nat)
    requires i < |ms|
    ensures Tag(kind, ms[..i + 1]) == Tag(kind, ms[..i]) + [(kind, ms[i])]
  {}

  lemma TagParts(kind: ScopeKind, a: seq<Mutation>, b: seq<Mutation>, k: nat)
    requires k <= |b|
    ensures Tag(kind, (a + b)[..|a| + k]) == Tag(kind, a) + Tag(kind, b[..k])
  {
    assert (a + b)[..|a| + k] == a + b[..k];
    TagConcat(kind, a, b[..k]);
  }

  lemma TagConcat(kind: ScopeKind, a: seq<Mutation>, b: seq<Mutation>)
    ensures Tag(kind, a + b) == Tag(kind, a) + Tag(kind, b)
  {}
}
