/**
  The in-memory metrics registry: labelled counters, and histograms with per-interval buckets.

  All numbers are `u64`; sums wrap, as they do in a release build.
 */
module MetricsRegistry {
  import opened Sequences
  import opened Sums

  const U64_LIMIT: nat := 0x1_0000_0000_0000_0000

  function Add64(a: nat, b: nat): nat {
    (a + b) % U64_LIMIT
  }

  type LabelKey = seq<(string, string)>

  datatype Histogram = Histogram(counts: seq<nat>, sum: nat, count: nat)

  datatype Call = Call(tool: string, status: string, ms: nat)

  const BUCKETS: seq<nat> := [5, 10, 25, 50, 100, 250, 500, 1000, 2500, 5000]

  function CallKey(tool: string, status: string): LabelKey {
    [("tool", tool), ("status", status)]
  }

  function ToolKey(tool: string): LabelKey {
    [("tool", tool)]
  }

  // ---- One operation ----------------------------------------------------------------------

  function Inc(m: map<LabelKey, nat>, key: LabelKey, value: nat): map<LabelKey, nat> {
    m[key := Add64(if key in m then m[key] else 0, value)]
  }

  /** The first bucket whose upper bound is not below the value, else the last bucket. */
  function BucketOf(buckets: seq<nat>, value: nat): (i: nat)
    requires buckets != []
    ensures i < |buckets|
    ensures i < |buckets| - 1 ==> value <= buckets[i]
    ensures forall j | 0 <= j < i :: buckets[j] < value
  {
    if |buckets| == 1 || value <= buckets[0] then 0 else 1 + BucketOf(buckets[1..], value)
  }

  function EmptyHistogram(size: nat): Histogram {
    Histogram(seq(size, _ => 0), 0, 0)
  }

  function ObserveIn(h: Histogram, buckets: seq<nat>, value: nat): (r: Histogram)
    requires buckets != [] && |h.counts| == |buckets|
    ensures |r.counts| == |buckets|
  {
    var i := BucketOf(buckets, value);
    Histogram(h.counts[i := Add64(h.counts[i], 1)], Add64(h.sum, value), Add64(h.count, 1))
  }

  predicate Shaped(m: map<LabelKey, Histogram>, buckets: seq<nat>) {
    forall key | key in m :: |m[key].counts| == |buckets|
  }

  function Observe(m: map<LabelKey, Histogram>, buckets: seq<nat>, key: LabelKey, value: nat)
    : (r: map<LabelKey, Histogram>)
    requires buckets != [] && Shaped(m, buckets)
    ensures Shaped(r, buckets)
  {
    m[key := ObserveIn(if key in m then m[key] else EmptyHistogram(|buckets|), buckets, value)]
  }

  class CounterVec {
    var inner: map<LabelKey, nat>

    constructor ()
      ensures inner == map[]
    {
      inner := map[];
    }

    method Increment(key: LabelKey, value: nat)
      modifies this
      ensures inner == Inc(old(inner), key, value)
    {
      if key !in inner {
        inner := inner[key := 0];
      }
      inner := inner[key := Add64(inner[key], value)];
    }
  }

  class HistogramVec {
    const buckets: seq<nat>
    var inner: map<LabelKey, Histogram>

    constructor (buckets: seq<nat>)
      ensures this.buckets == buckets && inner == map[]
    {
      this.buckets := buckets;
      inner := map[];
    }

    method Record(key: LabelKey, value: nat)
      requires buckets != [] && Shaped(inner, buckets)
      modifies this
      ensures inner == Observe(old(inner), buckets, key, value)
    {
      if key !in inner {
        inner := inner[key := EmptyHistogram(|buckets|)];
      }
      var state := inner[key];
      var idx := |buckets| - 1;
      for i := 0 to |buckets|
        invariant idx == |buckets| - 1
        invariant forall j | 0 <= j < i :: buckets[j] < value
      {
        if value <= buckets[i] {
          idx := i;
          break;
        }
      }
      assert idx == BucketOf(buckets, value);
      state := state.(counts := state.counts[idx := Add64(state.counts[idx], 1)]);
      state := state.(sum := Add64(state.sum, value));
      state := state.(count := Add64(state.count, 1));
      inner := inner[key := state];
    }
  }

  // ---- Runs -------------------------------------------------------------------------------

  datatype Registry = Registry(calls: map<LabelKey, nat>, durations: map<LabelKey, Histogram>)

  function After(log: seq<Call>): (r: Registry)
    ensures Shaped(r.durations, BUCKETS)
    decreases |log|
  {
    if log == [] then Registry(map[], map[])
    else
      var before := After(log[..|log| - 1]);
      var c := log[|log| - 1];
      Registry(
        Inc(before.calls, CallKey(c.tool, c.status), 1),
        Observe(before.durations, BUCKETS, ToolKey(c.tool), c.ms))
  }

  class Metrics {
    const toolCalls: CounterVec
    const toolDurations: HistogramVec
    ghost var log: seq<Call>

    ghost predicate Valid()
      reads this, toolCalls, toolDurations
    {
      && toolDurations.buckets == BUCKETS
      && Registry(toolCalls.inner, toolDurations.inner) == After(log)
    }

    constructor ()
      ensures Valid() && log == [] && fresh(toolCalls) && fresh(toolDurations)
    {
      toolCalls := new CounterVec();
      toolDurations := new HistogramVec(BUCKETS);
      log := [];
    }

    method RecordToolCall(tool: string, status: string, ms: nat)
      requires Valid()
      modifies this, toolCalls, toolDurations
      ensures Valid() && log == old(log) + [Call(tool, status, ms)]
      ensures var key := [("tool", tool), ("status", status)];
        toolCalls.inner == old(toolCalls.inner)[key :=
          ((if key in old(toolCalls.inner) then old(toolCalls.inner)[key] else 0) + 1) % 0x1_0000_0000_0000_0000]
      ensures var key := [("tool", tool)];
        key in toolDurations.inner && toolDurations.inner == old(toolDurations.inner)[key := toolDurations.inner[key]]
    {
      toolCalls.Increment(CallKey(tool, status), 1);
      toolDurations.Record(ToolKey(tool), ms);
      log := log + [Call(tool, status, ms)];
      assert log[..|log| - 1] == old(log);
    }
  }

  // ---- What the numbers are ---------------------------------------------------------------

  /** The durations recorded for a tool, in order. */
  function Values(log: seq<Call>, tool: string): seq<nat>
    decreases |log|
  {
    if log == [] then []
    else
      var c := log[|log| - 1];
      Values(log[..|log| - 1], tool) + (if c.tool == tool then [c.ms] else [])
  }

  /** How often a tool ended with a status. */
  function Times(log: seq<Call>, tool: string, status: string): nat
    decreases |log|
  {
    if log == [] then 0
    else
      var c := log[|log| - 1];
      Times(log[..|log| - 1], tool, status) + (if c.tool == tool && c.status == status then 1 else 0)
  }

  function Total(s: seq<nat>): nat
    decreases |s|
  {
    if s == [] then 0 else Total(s[..|s| - 1]) + s[|s| - 1]
  }

  /** The interval a bucket stands for: above the previous bound, and up to its own unless it is the last. */
  predicate InInterval(buckets: seq<nat>, i: nat, value: nat)
    requires i < |buckets|
  {
    (i == 0 || buckets[i - 1] < value) && (i == |buckets| - 1 || value <= buckets[i])
  }

  function InBucket(buckets: seq<nat>, i: nat, values: seq<nat>): seq<nat>
    requires i < |buckets|
  {
    Filter(value => InInterval(buckets, i, value), values)
  }

  ghost predicate Ascending(s: seq<nat>) {
    forall i, j | 0 <= i < j < |s| :: s[i] < s[j]
  }

  lemma BucketIsInterval(buckets: seq<nat>, i: nat, value: nat)
    requires Ascending(buckets) && i < |buckets|
    ensures BucketOf(buckets, value) == i <==> InInterval(buckets, i, value)
  {
    var b := BucketOf(buckets, value);
    assert i < b ==> buckets[i] < value;
    assert b < i ==> buckets[b] <= buckets[i - 1];
  }

  lemma InBucketSnoc(buckets: seq<nat>, i: nat, values: seq<nat>, value: nat)
    requires i < |buckets|
    ensures InBucket(buckets, i, values + [value]) ==
      InBucket(buckets, i, values) + (if InInterval(buckets, i, value) then [value] else [])
  {
    FilterConcat(v => InInterval(buckets, i, v), values, [value]);
  }

  /** The numbers kept for one key, as functions of the values observed for it. */
  ghost predicate Holds(h: Histogram, buckets: seq<nat>, values: seq<nat>) {
    && |h.counts| == |buckets|
    && h.count == |values| % U64_LIMIT
    && h.sum == Total(values) % U64_LIMIT
    && forall i | 0 <= i < |buckets| :: h.counts[i] == |InBucket(buckets, i, values)| % U64_LIMIT
  }

  lemma Add64Wraps(a: nat, b: nat)
    ensures Add64(a % U64_LIMIT, b) == (a + b) % U64_LIMIT
  {
    var q := a / U64_LIMIT;
    assert a == q * U64_LIMIT + a % U64_LIMIT;
    WrapsAway(a % U64_LIMIT + b, q);
  }

  lemma {:induction false} WrapsAway(a: nat, q: nat)
    ensures (q * U64_LIMIT + a) % U64_LIMIT == a % U64_LIMIT
  {
    if q > 0 {
      WrapsAway(a, q - 1);
    }
  }

  lemma ObservedCount(h: Histogram, buckets: seq<nat>, values: seq<nat>, value: nat, i: nat)
    requires Ascending(buckets) && Holds(h, buckets, values) && i < |buckets|
    ensures ObserveIn(h, buckets, value).counts[i] == |InBucket(buckets, i, values + [value])| % U64_LIMIT
  {
    InBucketSnoc(buckets, i, values, value);
    BucketIsInterval(buckets, i, value);
    Add64Wraps(|InBucket(buckets, i, values)|, 1);
  }

  lemma TotalSnoc(values: seq<nat>, value: nat)
    ensures Total(values + [value]) == Total(values) + value
  {
    assert (values + [value])[..|values|] == values;
  }

  lemma ObserveHolds(h: Histogram, buckets: seq<nat>, values: seq<nat>, value: nat)
    requires buckets != [] && Ascending(buckets) && Holds(h, buckets, values)
    ensures Holds(ObserveIn(h, buckets, value), buckets, values + [value])
  {
    forall i | 0 <= i < |buckets|
      ensures ObserveIn(h, buckets, value).counts[i] == |InBucket(buckets, i, values + [value])| % U64_LIMIT
    {
      ObservedCount(h, buckets, values, value, i);
    }
    TotalSnoc(values, value);
    Add64Wraps(|values|, 1);
    Add64Wraps(Total(values), value);
  }

  lemma EmptyHolds(buckets: seq<nat>)
    ensures Holds(EmptyHistogram(|buckets|), buckets, [])
  {}

  lemma BucketsAscend()
    ensures Ascending(BUCKETS) && |BUCKETS| == 10
  {}

  /** The step of one call, without the state before it. */
  /** The bucket a duration falls into: up to each bound, and the last bucket for all above it. */
  lemma DefaultBuckets(value: nat)
    ensures BucketOf(BUCKETS, value)
      == if value <= 5 then 0 else if value <= 10 then 1 else if value <= 25 then 2 else if value <= 50 then 3
         else if value <= 100 then 4 else if value <= 250 then 5 else if value <= 500 then 6
         else if value <= 1000 then 7 else if value <= 2500 then 8 else 9
  {
    var i := BucketOf(BUCKETS, value);
    assert |BUCKETS| == 10 && BUCKETS[0] == 5 && BUCKETS[1] == 10 && BUCKETS[2] == 25 && BUCKETS[3] == 50;
    assert BUCKETS[4] == 100 && BUCKETS[5] == 250 && BUCKETS[6] == 500 && BUCKETS[7] == 1000 && BUCKETS[8] == 2500;
  }

  lemma AfterStep(log: seq<Call>)
    requires log != []
    ensures var before, c := After(log[..|log| - 1]), log[|log| - 1];
      && After(log).calls == Inc(before.calls, CallKey(c.tool, c.status), 1)
      && After(log).durations == Observe(before.durations, BUCKETS, ToolKey(c.tool), c.ms)
  {}

  /** The histogram of a tool is there exactly when it was called, and holds its durations. */
  ghost predicate HistogramOk(durations: map<LabelKey, Histogram>, tool: string, values: seq<nat>) {
    && (ToolKey(tool) in durations <==> values != [])
    && (ToolKey(tool) in durations ==> Holds(durations[ToolKey(tool)], BUCKETS, values))
  }

  lemma ObserveOk(durations: map<LabelKey, Histogram>, tool: string, values: seq<nat>, other: string, value: nat)
    requires Shaped(durations, BUCKETS) && HistogramOk(durations, tool, values)
    ensures HistogramOk(Observe(durations, BUCKETS, ToolKey(other), value), tool,
                        if other == tool then values + [value] else values)
  {
    ToolKeyInjective(other, tool);
    BucketsAscend();
    if other == tool {
      EmptyHolds(BUCKETS);
      var h := if ToolKey(tool) in durations then durations[ToolKey(tool)] else EmptyHistogram(|BUCKETS|);
      ObserveHolds(h, BUCKETS, values, value);
    }
  }

  /**
    After any run a tool has a histogram exactly when it was called, and its count, sum and buckets
    are those of the recorded durations, modulo 2^64.
   */
  lemma {:induction false} HistogramsAreExact(log: seq<Call>, tool: string)
    ensures HistogramOk(After(log).durations, tool, Values(log, tool))
    decreases |log|
  {
    if log != [] {
      var front, c := log[..|log| - 1], log[|log| - 1];
      HistogramsAreExact(front, tool);
      ObserveOk(After(front).durations, tool, Values(front, tool), c.tool, c.ms);
      AfterStep(log);
      assert Values(front, tool) + [] == Values(front, tool);
    }
  }

  lemma ToolKeyInjective(a: string, b: string)
    ensures ToolKey(a) == ToolKey(b) <==> a == b
  {
    assert ToolKey(a)[0].1 == a && ToolKey(b)[0].1 == b;
  }

  lemma CallKeyInjective(a: string, s: string, b: string, t: string)
    ensures CallKey(a, s) == CallKey(b, t) <==> a == b && s == t
  {
    assert CallKey(a, s)[0].1 == a && CallKey(b, t)[0].1 == b;
    assert CallKey(a, s)[1].1 == s && CallKey(b, t)[1].1 == t;
  }

  /** The counter of a tool and status is there exactly when they occurred, and counts them. */
  ghost predicate CounterOk(calls: map<LabelKey, nat>, tool: string, status: string, times: nat) {
    && (CallKey(tool, status) in calls <==> times > 0)
    && (CallKey(tool, status) in calls ==> calls[CallKey(tool, status)] == times % U64_LIMIT)
  }

  lemma IncOk(calls: map<LabelKey, nat>, tool: string, status: string, times: nat, c: Call)
    requires CounterOk(calls, tool, status, times)
    ensures CounterOk(Inc(calls, CallKey(c.tool, c.status), 1), tool, status,
                      times + (if c.tool == tool && c.status == status then 1 else 0))
  {
    CallKeyInjective(c.tool, c.status, tool, status);
    Add64Wraps(times, 1);
  }

  lemma {:induction false} CountersAreExact(log: seq<Call>, tool: string, status: string)
    ensures CounterOk(After(log).calls, tool, status, Times(log, tool, status))
    decreases |log|
  {
    if log != [] {
      var front, c := log[..|log| - 1], log[|log| - 1];
      CountersAreExact(front, tool, status);
      IncOk(After(front).calls, tool, status, Times(front, tool, status), c);
      AfterStep(log);
    }
  }

  // ---- Conservation -----------------------------------------------------------------------

  function Statuses(log: seq<Call>): set<string> {
    set c | c in log :: c.status
  }

  /** The counter of each status seen with a tool. */
  ghost function ByStatus(calls: map<LabelKey, nat>, statuses: set<string>, tool: string): map<string, nat> {
    map status | status in statuses && CallKey(tool, status) in calls :: calls[CallKey(tool, status)]
  }

  ghost function TimesByStatus(log: seq<Call>, tool: string): map<string, nat> {
    map status | status in Statuses(log) && Times(log, tool, status) > 0 :: Times(log, tool, status)
  }

  lemma {:induction false} TimesNeedStatus(log: seq<Call>, tool: string, status: string)
    ensures Times(log, tool, status) > 0 ==> status in Statuses(log)
    ensures Times(log, tool, status) <= |Values(log, tool)|
    decreases |log|
  {
    if log != [] {
      var front := log[..|log| - 1];
      TimesNeedStatus(front, tool, status);
      assert log == front + [log[|log| - 1]];
      assert Statuses(front) <= Statuses(log);
      assert log[|log| - 1] in log;
    }
  }

  lemma TimesKey(log: seq<Call>, tool: string, status: string)
    ensures status in TimesByStatus(log, tool) <==> Times(log, tool, status) > 0
    ensures status in TimesByStatus(log, tool) ==> TimesByStatus(log, tool)[status] == Times(log, tool, status)
  {
    TimesNeedStatus(log, tool, status);
  }

  lemma SameMaps<K, V>(a: map<K, V>, b: map<K, V>)
    requires forall k :: k in a <==> k in b
    requires forall k | k in a :: a[k] == b[k]
    ensures a == b
  {}

  lemma StatusStep(log: seq<Call>, tool: string, status: string)
    requires log != []
    ensures var c := log[|log| - 1];
      Times(log, tool, status)
        == Times(log[..|log| - 1], tool, status) + (if c.tool == tool && c.status == status then 1 else 0)
  {}

  lemma TimesStep(log: seq<Call>, tool: string)
    requires log != []
    ensures var front, c := log[..|log| - 1], log[|log| - 1];
      TimesByStatus(log, tool) ==
        if c.tool == tool then TimesByStatus(front, tool)[c.status := Times(front, tool, c.status) + 1]
        else TimesByStatus(front, tool)
  {
    var front, c := log[..|log| - 1], log[|log| - 1];
    var now, before := TimesByStatus(log, tool), TimesByStatus(front, tool);
    var after := if c.tool == tool then before[c.status := Times(front, tool, c.status) + 1] else before;
    forall status ensures (status in now <==> status in after) && (status in now ==> now[status] == after[status]) {
      TimesKey(front, tool, status);
      TimesKey(log, tool, status);
      StatusStep(log, tool, status);
    }
    SameMaps(now, after);
  }

  lemma TimesSumStep(log: seq<Call>, tool: string)
    requires log != []
    ensures var front, c := log[..|log| - 1], log[|log| - 1];
      Sum(TimesByStatus(log, tool)) == Sum(TimesByStatus(front, tool)) + (if c.tool == tool then 1 else 0)
  {
    var front, c := log[..|log| - 1], log[|log| - 1];
    TimesStep(log, tool);
    if c.tool == tool {
      TimesNeedStatus(front, tool, c.status);
      SumUpdate(TimesByStatus(front, tool), c.status, Times(front, tool, c.status) + 1);
    }
  }

  lemma {:induction false} TimesAddUp(log: seq<Call>, tool: string)
    ensures Sum(TimesByStatus(log, tool)) == |Values(log, tool)|
    decreases |log|
  {
    if log == [] {
      assert TimesByStatus(log, tool) == map[];
    } else {
      TimesAddUp(log[..|log| - 1], tool);
      TimesSumStep(log, tool);
    }
  }

  lemma ByStatusIsTimes(calls: map<LabelKey, nat>, log: seq<Call>, tool: string)
    requires forall status :: CounterOk(calls, tool, status, Times(log, tool, status))
    requires forall status :: Times(log, tool, status) < U64_LIMIT
    ensures ByStatus(calls, Statuses(log), tool) == TimesByStatus(log, tool)
  {
    var a, b := ByStatus(calls, Statuses(log), tool), TimesByStatus(log, tool);
    forall status ensures (status in a <==> status in b) && (status in a ==> a[status] == b[status]) {
      assert CounterOk(calls, tool, status, Times(log, tool, status));
    }
  }

  lemma MatchFollows(calls: map<LabelKey, nat>, h: Histogram, log: seq<Call>, tool: string)
    requires forall status :: CounterOk(calls, tool, status, Times(log, tool, status))
    requires Holds(h, BUCKETS, Values(log, tool)) && |Values(log, tool)| < U64_LIMIT
    ensures Sum(ByStatus(calls, Statuses(log), tool)) == h.count
  {
    forall status ensures Times(log, tool, status) < U64_LIMIT {
      TimesNeedStatus(log, tool, status);
    }
    ByStatusIsTimes(calls, log, tool);
    TimesAddUp(log, tool);
    Fits(|Values(log, tool)|);
  }

  lemma Fits(n: nat)
    requires n < U64_LIMIT
    ensures n % U64_LIMIT == n
  {}

  /** Within u64, the call counters of a tool over all statuses add up to its histogram's count. */
  lemma CallsMatchHistogram(log: seq<Call>, tool: string)
    requires ToolKey(tool) in After(log).durations && |Values(log, tool)| < U64_LIMIT
    ensures Sum(ByStatus(After(log).calls, Statuses(log), tool)) == After(log).durations[ToolKey(tool)].count
  {
    var calls := After(log).calls;
    forall status ensures CounterOk(calls, tool, status, Times(log, tool, status)) {
      CountersAreExact(log, tool, status);
    }
    HistogramsAreExact(log, tool);
    MatchFollows(calls, After(log).durations[ToolKey(tool)], log, tool);
  }

  function Tally(buckets: seq<nat>, values: seq<nat>): seq<nat> {
    seq(|buckets|, i requires 0 <= i < |buckets| => |InBucket(buckets, i, values)|)
  }

  lemma {:induction false} TotalUpdate(s: seq<nat>, i: nat, x: nat)
    requires i < |s|
    ensures Total(s[i := x]) + s[i] == Total(s) + x
    decreases |s|
  {
    var n := |s| - 1;
    if i < n {
      TotalUpdate(s[..n], i, x);
      assert s[i := x][..n] == s[..n][i := x];
    } else {
      assert s[i := x][..n] == s[..n];
    }
  }

  lemma {:induction false} TotalZeros(n: nat)
    ensures Total(seq(n, _ => 0)) == 0
  {
    if n > 0 {
      assert seq(n, _ => 0)[..n - 1] == seq(n - 1, _ => 0);
      TotalZeros(n - 1);
    }
  }

  lemma TallySnoc(buckets: seq<nat>, values: seq<nat>, value: nat)
    requires buckets != [] && Ascending(buckets)
    ensures var b := BucketOf(buckets, value);
      Tally(buckets, values + [value]) == Tally(buckets, values)[b := Tally(buckets, values)[b] + 1]
  {
    forall i | 0 <= i < |buckets|
      ensures Tally(buckets, values + [value])[i]
        == Tally(buckets, values)[i] + (if i == BucketOf(buckets, value) then 1 else 0)
    {
      InBucketSnoc(buckets, i, values, value);
      BucketIsInterval(buckets, i, value);
    }
  }

  /** Every value lies in exactly one bucket's interval. */
  lemma {:induction false} BucketsPartition(buckets: seq<nat>, values: seq<nat>)
    requires buckets != [] && Ascending(buckets)
    ensures Total(Tally(buckets, values)) == |values|
    decreases |values|
  {
    if values == [] {
      assert Tally(buckets, []) == seq(|buckets|, _ => 0);
      TotalZeros(|buckets|);
    } else {
      var front, value := values[..|values| - 1], values[|values| - 1];
      assert values == front + [value];
      BucketsPartition(buckets, front);
      TallySnoc(buckets, front, value);
      var b := BucketOf(buckets, value);
      TotalUpdate(Tally(buckets, front), b, Tally(buckets, front)[b] + 1);
    }
  }

  lemma BucketFits(buckets: seq<nat>, i: nat, values: seq<nat>)
    requires i < |buckets| && |values| < U64_LIMIT
    ensures |InBucket(buckets, i, values)| % U64_LIMIT == |InBucket(buckets, i, values)|
  {
    FilterMembers(value => InInterval(buckets, i, value), values);
    Fits(|InBucket(buckets, i, values)|);
  }

  lemma HoldsTally(h: Histogram, buckets: seq<nat>, values: seq<nat>)
    requires Holds(h, buckets, values) && |values| < U64_LIMIT
    ensures h.counts == Tally(buckets, values)
  {
    forall i | 0 <= i < |buckets| ensures h.counts[i] == Tally(buckets, values)[i] {
      BucketFits(buckets, i, values);
    }
  }

  lemma HoldsAddsUp(h: Histogram, buckets: seq<nat>, values: seq<nat>)
    requires buckets != [] && Ascending(buckets) && Holds(h, buckets, values) && |values| < U64_LIMIT
    ensures Total(h.counts) == h.count == |values|
    ensures Total(values) < U64_LIMIT ==> h.sum == Total(values)
  {
    HoldsTally(h, buckets, values);
    BucketsPartition(buckets, values);
    Fits(|values|);
    if Total(values) < U64_LIMIT {
      Fits(Total(values));
    }
  }

  /** Within u64, a histogram's buckets add up to its count, and its sum is the total of its values. */
  lemma BucketsMatchCount(log: seq<Call>, tool: string)
    requires ToolKey(tool) in After(log).durations && |Values(log, tool)| < U64_LIMIT
    ensures var h := After(log).durations[ToolKey(tool)];
      && Total(h.counts) == h.count == |Values(log, tool)|
      && (Total(Values(log, tool)) < U64_LIMIT ==> h.sum == Total(Values(log, tool)))
  {
    HistogramsAreExact(log, tool);
    BucketsAscend();
    HoldsAddsUp(After(log).durations[ToolKey(tool)], BUCKETS, Values(log, tool));
  }
}
