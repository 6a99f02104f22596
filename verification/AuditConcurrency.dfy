/**
  Any number of threads calling `record`, `snapshot` and `checkpoint`, interleaved at every lock
  acquisition, release and locked update. The three mutexes are `hash`, `file` and `entries`.
  `record` keeps the hash lock to its end; `checkpoint` drops it at once.

  Of the log files the order of the appended lines is followed here; what rotation and checkpoints make
  of the files under such interleavings is not.
 */
module AuditConcurrency {
  import opened AuditEntries
  import opened Options
  import opened Sequences
  import opened Sums
  import AuditLogs

  type Tid = nat

  datatype Config = Config(digest: Digest, maxEntries: nat, logging: bool)

  datatype Call = RecordCall(entry: Entry) | SnapshotCall(limit: nat) | CheckpointCall

  /** The window a checkpoint writes to the log; `taken` marks how much of the history it covers. */
  datatype Written = Written(window: seq<Entry>, taken: nat)

  /**
    What a checkpoint returns; `length` marks how much of the history the hash covers, and `since`
    how many entries were in the ring when the call began.
   */
  datatype Report = Report(lastHash: Option<string>, length: nat, written: Option<Written>, since: nat)

  datatype Pc =
    | WantHash(entry: Entry) | Sealing(entry: Entry) | WantFile(sealed: Entry) | Writing(sealed: Entry)
    | WantEntries(sealed: Entry) | Pushing(sealed: Entry) | LeavingEntries | LeavingHash
    | SnapWant(limit: nat, since: nat) | SnapRead(limit: nat, since: nat)
    | SnapLeave(limit: nat, window: seq<Entry>, taken: nat, since: nat)
    | CheckWantHash(since: nat) | CheckReadHash(since: nat) | CheckLeaveHash(reported: Option<string>, length: nat, since: nat)
    | CheckWantEntries(reported: Option<string>, length: nat, since: nat)
    | CheckReadEntries(reported: Option<string>, length: nat, since: nat)
    | CheckLeaveEntries(report: Report) | CheckWrite(report: Report)

  datatype Lock = HashLock | FileLock | EntriesLock

  /**
    `history` is what was sealed, in hash-lock order, and `pushed` how much of it is in the ring;
    `reports` are the checkpoints that finished, and `appended` the lines that `record` appended.
   */
  datatype State = State(
    holders: map<Lock, Tid>, lastHash: Option<string>, ring: seq<Entry>,
    history: seq<Entry>, pushed: nat, pcs: map<Tid, Pc>, reports: seq<Report>,
    appended: seq<Entry>)

  const INITIAL := State(map[], None, [], [], 0, map[], [], [])

  datatype Step = Begin(t: Tid, call: Call) | Go(t: Tid)

  /** The first program counter of a call; readers are marked with what was in the ring by then. */
  function Start(call: Call, pushed: nat): Pc {
    match call
    case RecordCall(entry) => WantHash(entry)
    case SnapshotCall(limit) => SnapWant(limit, pushed)
    case CheckpointCall => CheckWantHash(pushed)
  }

  /** The lock a thread at `pc` is waiting for. */
  function Wanted(pc: Pc): Option<Lock> {
    match pc
    case WantHash(_) => Some(HashLock)
    case CheckWantHash(_) => Some(HashLock)
    case WantFile(_) => Some(FileLock)
    case WantEntries(_) => Some(EntriesLock)
    case SnapWant(_, _) => Some(EntriesLock)
    case CheckWantEntries(_, _, _) => Some(EntriesLock)
    case _ => None
  }

  predicate Holds(pc: Pc, l: Lock) {
    match l
    case HashLock =>
      pc.Sealing? || pc.WantFile? || pc.Writing? || pc.WantEntries? || pc.Pushing? || pc.LeavingEntries?
      || pc.LeavingHash? || pc.CheckReadHash? || pc.CheckLeaveHash?
    case FileLock => pc.Writing?
    case EntriesLock =>
      pc.Pushing? || pc.LeavingEntries? || pc.SnapRead? || pc.SnapLeave? || pc.CheckReadEntries?
      || pc.CheckLeaveEntries?
  }

  function Rank(l: Lock): nat {
    match l case HashLock => 0 case FileLock => 1 case EntriesLock => 2
  }

  function Acquire(s: State, t: Tid, l: Lock, pc: Pc): Option<State> {
    if l in s.holders then None else Some(s.(holders := s.holders[l := t], pcs := s.pcs[t := pc]))
  }

  function Release(s: State, t: Tid, l: Lock, pc: Pc): Option<State> {
    Some(s.(holders := s.holders - {l}, pcs := s.pcs[t := pc]))
  }

  /** One step of thread `t`; `None` when it is blocked, or idle. */
  function Advance(cfg: Config, s: State, t: Tid): Option<State> {
    if t !in s.pcs then None
    else
      match s.pcs[t]
      case WantHash(entry) => Acquire(s, t, HashLock, Sealing(entry))
      case Sealing(entry) =>
        var sealed := Seal(cfg.digest, s.lastHash, entry);
        Some(s.(
          lastHash := sealed.hash, history := s.history + [sealed],
          pcs := s.pcs[t := if cfg.logging then WantFile(sealed) else WantEntries(sealed)]))
      case WantFile(sealed) => Acquire(s, t, FileLock, Writing(sealed))
      case Writing(sealed) => Release(s.(appended := s.appended + [sealed]), t, FileLock, WantEntries(sealed))
      case WantEntries(sealed) => Acquire(s, t, EntriesLock, Pushing(sealed))
      case Pushing(sealed) =>
        Some(s.(
          ring := LastN(s.ring + [sealed], cfg.maxEntries), pushed := s.pushed + 1,
          pcs := s.pcs[t := LeavingEntries]))
      case LeavingEntries => Release(s, t, EntriesLock, LeavingHash)
      case LeavingHash => Some(s.(holders := s.holders - {HashLock}, pcs := s.pcs - {t}))
      case SnapWant(limit, since) => Acquire(s, t, EntriesLock, SnapRead(limit, since))
      case SnapRead(limit, since) =>
        Some(s.(pcs := s.pcs[t := SnapLeave(limit, LastN(s.ring, AuditLogs.AtLeastOne(limit)), s.pushed, since)]))
      case SnapLeave(_, _, _, _) => Some(s.(holders := s.holders - {EntriesLock}, pcs := s.pcs - {t}))
      case CheckWantHash(since) => Acquire(s, t, HashLock, CheckReadHash(since))
      case CheckReadHash(since) => Some(s.(pcs := s.pcs[t := CheckLeaveHash(s.lastHash, |s.history|, since)]))
      case CheckLeaveHash(reported, length, since) =>
        if cfg.logging then Release(s, t, HashLock, CheckWantEntries(reported, length, since))
        else
          Some(s.(holders := s.holders - {HashLock}, pcs := s.pcs - {t},
                  reports := s.reports + [Report(reported, length, None, since)]))
      case CheckWantEntries(reported, length, since) => Acquire(s, t, EntriesLock, CheckReadEntries(reported, length, since))
      case CheckReadEntries(reported, length, since) =>
        var window := LastN(s.ring, AuditLogs.AtLeastOne(cfg.maxEntries));
        Some(s.(pcs := s.pcs[t := CheckLeaveEntries(Report(reported, length, Some(Written(window, s.pushed)), since))]))
      case CheckLeaveEntries(report) => Release(s, t, EntriesLock, CheckWrite(report))
      case CheckWrite(report) => Some(s.(pcs := s.pcs - {t}, reports := s.reports + [report]))
  }

  function Take(cfg: Config, s: State, step: Step): Option<State> {
    match step
    case Begin(t, call) => if t in s.pcs then None else Some(s.(pcs := s.pcs[t := Start(call, s.pushed)]))
    case Go(t) => Advance(cfg, s, t)
  }

  /** The state after a schedule, if every step of it was possible. */
  function RunFrom(cfg: Config, s: State, steps: seq<Step>): Option<State>
    decreases |steps|
  {
    if steps == [] then Some(s)
    else
      var next := Take(cfg, s, steps[0]);
      if next.None? then None else RunFrom(cfg, next.value, steps[1..])
  }

  function Run(cfg: Config, steps: seq<Step>): Option<State> {
    RunFrom(cfg, INITIAL, steps)
  }

  // ---- What every reachable state satisfies -----------------------------------------------

  /** A sealed entry that is not in the ring yet. */
  function InFlight(pc: Pc): Option<Entry> {
    match pc
    case WantFile(sealed) => Some(sealed)
    case Writing(sealed) => Some(sealed)
    case WantEntries(sealed) => Some(sealed)
    case Pushing(sealed) => Some(sealed)
    case _ => None
  }

  predicate Owns(s: State, l: Lock, t: Tid) {
    l in s.holders && s.holders[l] == t
  }

  ghost predicate LockOk(s: State, l: Lock, t: Tid) {
    Owns(s, l, t) <==> t in s.pcs && Holds(s.pcs[t], l)
  }

  /** A mutex is owned by the one thread whose program counter says so. */
  ghost predicate LocksOk(s: State) {
    forall l: Lock, t: Tid :: LockOk(s, l, t)
  }

  ghost predicate RingOk(cfg: Config, s: State) {
    && cfg.maxEntries > 0
    && Verifies(cfg.digest, None, s.history)
    && s.lastHash == EndHash(None, s.history)
    && s.pushed <= |s.history| <= s.pushed + 1
    && s.ring == LastN(s.history[..s.pushed], cfg.maxEntries)
  }

  /** The one entry outside the ring, if any, is in flight in the thread that holds the hash lock. */
  ghost predicate FlightOk(s: State) {
    && (forall t | t in s.pcs && InFlight(s.pcs[t]).Some? ::
          |s.history| == s.pushed + 1 && InFlight(s.pcs[t]).value == s.history[s.pushed])
    && (|s.history| == s.pushed + 1 ==>
          HashLock in s.holders && s.holders[HashLock] in s.pcs && InFlight(s.pcs[s.holders[HashLock]]).Some?)
  }

  ghost predicate HashRead(history: seq<Entry>, pushed: nat, reported: Option<string>, length: nat, since: nat) {
    since <= length <= pushed <= |history| && reported == EndHash(None, history[..length])
  }

  ghost predicate WrittenOk(cfg: Config, history: seq<Entry>, pushed: nat, length: nat, w: Written) {
    length <= w.taken <= pushed <= |history| && w.window == LastN(history[..w.taken], cfg.maxEntries)
  }

  ghost predicate ReportOk(cfg: Config, history: seq<Entry>, pushed: nat, r: Report) {
    && HashRead(history, pushed, r.lastHash, r.length, r.since)
    && (r.written.Some? <==> cfg.logging)
    && (r.written.Some? ==> WrittenOk(cfg, history, pushed, r.length, r.written.value))
  }

  /** The newest entries of a prefix of the history, as many as the limit and the ring allow. */
  ghost predicate SnapOk(cfg: Config, history: seq<Entry>, pushed: nat, limit: nat, window: seq<Entry>, taken: nat, since: nat) {
    var n := AuditLogs.AtLeastOne(limit);
    since <= taken <= pushed <= |history| && window == LastN(history[..taken], if n < cfg.maxEntries then n else cfg.maxEntries)
  }

  ghost predicate PcOk(cfg: Config, history: seq<Entry>, pushed: nat, pc: Pc) {
    match pc
    case CheckLeaveHash(reported, length, since) => HashRead(history, pushed, reported, length, since)
    case CheckWantEntries(reported, length, since) => cfg.logging && HashRead(history, pushed, reported, length, since)
    case CheckReadEntries(reported, length, since) => cfg.logging && HashRead(history, pushed, reported, length, since)
    case CheckLeaveEntries(report) => ReportOk(cfg, history, pushed, report)
    case CheckWrite(report) => ReportOk(cfg, history, pushed, report)
    case SnapLeave(limit, window, taken, since) => SnapOk(cfg, history, pushed, limit, window, taken, since)
    case SnapWant(_, since) => since <= pushed
    case SnapRead(_, since) => since <= pushed
    case CheckWantHash(since) => since <= pushed
    case CheckReadHash(since) => since <= pushed
    case _ => true
  }

  ghost predicate ReportsOk(cfg: Config, s: State) {
    && (forall t | t in s.pcs :: PcOk(cfg, s.history, s.pushed, s.pcs[t]))
    && (forall r | r in s.reports :: ReportOk(cfg, s.history, s.pushed, r))
  }

  ghost predicate Inv(cfg: Config, s: State) {
    LocksOk(s) && RingOk(cfg, s) && FlightOk(s) && ReportsOk(cfg, s)
  }

  lemma AdvanceMovesOne(cfg: Config, s: State, t: Tid, u: Tid)
    requires Advance(cfg, s, t).Some? && u != t
    ensures var s' := Advance(cfg, s, t).value; (u in s'.pcs <==> u in s.pcs) && (u in s.pcs ==> s'.pcs[u] == s.pcs[u])
  {}

  lemma AdvanceOthersLocks(cfg: Config, s: State, t: Tid, u: Tid, l: Lock)
    requires Advance(cfg, s, t).Some? && u != t && LockOk(s, l, t)
    ensures Owns(Advance(cfg, s, t).value, l, u) <==> Owns(s, l, u)
  {}

  lemma AdvanceOwnLocks(cfg: Config, s: State, t: Tid, l: Lock)
    requires Advance(cfg, s, t).Some? && LockOk(s, l, t)
    ensures LockOk(Advance(cfg, s, t).value, l, t)
  {
    match l
    case HashLock => AdvanceOwnHash(cfg, s, t);
    case FileLock => AdvanceOwnFile(cfg, s, t);
    case EntriesLock => AdvanceOwnEntries(cfg, s, t);
  }

  lemma AdvanceOwnHash(cfg: Config, s: State, t: Tid)
    requires Advance(cfg, s, t).Some? && LockOk(s, HashLock, t)
    ensures LockOk(Advance(cfg, s, t).value, HashLock, t)
  {}

  lemma AdvanceOwnFile(cfg: Config, s: State, t: Tid)
    requires Advance(cfg, s, t).Some? && LockOk(s, FileLock, t)
    ensures LockOk(Advance(cfg, s, t).value, FileLock, t)
  {}

  lemma AdvanceOwnEntries(cfg: Config, s: State, t: Tid)
    requires Advance(cfg, s, t).Some? && LockOk(s, EntriesLock, t)
    ensures LockOk(Advance(cfg, s, t).value, EntriesLock, t)
  {}

  lemma LocksKept(cfg: Config, s: State, step: Step)
    requires LocksOk(s) && Take(cfg, s, step).Some?
    ensures LocksOk(Take(cfg, s, step).value)
  {
    var s' := Take(cfg, s, step).value;
    forall l: Lock, t: Tid ensures LockOk(s', l, t) {
      assert LockOk(s, l, t) && LockOk(s, l, step.t);
      if step == Go(t) {
        AdvanceOwnLocks(cfg, s, t, l);
      } else if step.Go? {
        AdvanceMovesOne(cfg, s, step.t, t);
        AdvanceOthersLocks(cfg, s, step.t, t, l);
      }
    }
  }

  lemma RingKept(cfg: Config, s: State, step: Step)
    requires LocksOk(s) && RingOk(cfg, s) && FlightOk(s) && Take(cfg, s, step).Some?
    ensures RingOk(cfg, Take(cfg, s, step).value)
  {
    if step.Go? && s.pcs[step.t].Sealing? {
      NoneInFlight(s, step.t);
      SealKeepsRing(cfg, s, s.pcs[step.t].entry);
    } else if step.Go? && s.pcs[step.t].Pushing? {
      assert InFlight(s.pcs[step.t]) == Some(s.history[s.pushed]);
      PushKeepsRing(cfg, s);
    } else {
      OtherStepsKeepRing(cfg, s, step);
    }
  }

  lemma OtherStepsKeepRing(cfg: Config, s: State, step: Step)
    requires Take(cfg, s, step).Some?
    requires step.Go? ==> !s.pcs[step.t].Sealing? && !s.pcs[step.t].Pushing?
    ensures var s' := Take(cfg, s, step).value;
      s'.ring == s.ring && s'.lastHash == s.lastHash && s'.history == s.history && s'.pushed == s.pushed
  {}

  lemma SealKeepsRing(cfg: Config, s: State, entry: Entry)
    requires RingOk(cfg, s) && |s.history| == s.pushed
    ensures var sealed := Seal(cfg.digest, s.lastHash, entry);
      RingOk(cfg, s.(lastHash := sealed.hash, history := s.history + [sealed]))
  {
    var sealed := Seal(cfg.digest, s.lastHash, entry);
    SealExtends(cfg.digest, None, s.history, entry);
    assert (s.history + [sealed])[..s.pushed] == s.history[..s.pushed];
  }

  lemma PushKeepsRing(cfg: Config, s: State)
    requires RingOk(cfg, s) && |s.history| == s.pushed + 1
    ensures RingOk(cfg, s.(ring := LastN(s.ring + [s.history[s.pushed]], cfg.maxEntries), pushed := s.pushed + 1))
  {
    var x := s.history[s.pushed];
    assert s.history[..s.pushed + 1] == s.history[..s.pushed] + [x];
    AuditLogs.PushWindow(s.history[..s.pushed], x, cfg.maxEntries);
  }

  /** Whoever owns the hash lock without an entry of its own in flight sees a complete ring. */
  lemma NoneInFlight(s: State, t: Tid)
    requires LocksOk(s) && FlightOk(s) && s.pushed <= |s.history| <= s.pushed + 1
    requires t in s.pcs && Holds(s.pcs[t], HashLock) && InFlight(s.pcs[t]).None?
    ensures |s.history| == s.pushed
    ensures forall u | u in s.pcs :: InFlight(s.pcs[u]).None?
  {
    assert LockOk(s, HashLock, t);
  }

  /** Two threads never have an entry in flight at once. */
  lemma OneInFlight(s: State, t: Tid, u: Tid)
    requires LocksOk(s) && t in s.pcs && u in s.pcs
    requires Holds(s.pcs[t], HashLock) && InFlight(s.pcs[u]).Some?
    ensures t == u
  {
    assert LockOk(s, HashLock, t) && LockOk(s, HashLock, u);
  }

  lemma FlightKept(cfg: Config, s: State, step: Step)
    requires LocksOk(s) && RingOk(cfg, s) && FlightOk(s) && Take(cfg, s, step).Some?
    ensures FlightOk(Take(cfg, s, step).value)
  {
    var s', t := Take(cfg, s, step).value, step.t;
    LocksKept(cfg, s, step);
    assert LockOk(s, HashLock, t) && LockOk(s', HashLock, t);
    if step.Go? {
      forall u | u != t ensures (u in s'.pcs <==> u in s.pcs) && (u in s.pcs ==> s'.pcs[u] == s.pcs[u]) {
        AdvanceMovesOne(cfg, s, t, u);
      }
      if Holds(s.pcs[t], HashLock) {
        forall u | u in s.pcs && u != t ensures InFlight(s.pcs[u]).None? {
          if InFlight(s.pcs[u]).Some? {
            OneInFlight(s, t, u);
          }
        }
        if InFlight(s.pcs[t]).None? {
          NoneInFlight(s, t);
        }
        OwnFlightKept(cfg, s, t);
      } else {
        assert s'.history == s.history && s'.pushed == s.pushed;
      }
    }
  }

  /** The thread that owns the hash lock, with what it has in flight before and after its step. */
  lemma OwnFlightKept(cfg: Config, s: State, t: Tid)
    requires RingOk(cfg, s) && FlightOk(s) && Advance(cfg, s, t).Some? && Holds(s.pcs[t], HashLock)
    requires InFlight(s.pcs[t]).None? ==> |s.history| == s.pushed
    ensures var s' := Advance(cfg, s, t).value;
      var flight := if t in s'.pcs then InFlight(s'.pcs[t]) else None;
      && (flight.Some? ==> |s'.history| == s'.pushed + 1 && flight.value == s'.history[s'.pushed])
      && (flight.None? ==> |s'.history| == s'.pushed)
  {}

  lemma HistoryGrows(cfg: Config, s: State, step: Step)
    requires RingOk(cfg, s) && Take(cfg, s, step).Some?
    ensures var s' := Take(cfg, s, step).value; s.history <= s'.history && s.pushed <= s'.pushed
  {}

  lemma PcOkMonotone(cfg: Config, h: seq<Entry>, n: nat, h': seq<Entry>, n': nat, pc: Pc)
    requires PcOk(cfg, h, n, pc) && h <= h' && n <= n' <= |h'|
    ensures PcOk(cfg, h', n', pc)
  {
    forall k: nat | k <= |h| ensures h'[..k] == h[..k] {}
  }

  lemma ReportOkMonotone(cfg: Config, h: seq<Entry>, n: nat, h': seq<Entry>, n': nat, r: Report)
    requires ReportOk(cfg, h, n, r) && h <= h' && n <= n' <= |h'|
    ensures ReportOk(cfg, h', n', r)
  {
    forall k: nat | k <= |h| ensures h'[..k] == h[..k] {}
  }

  lemma SnapshotReads(cfg: Config, s: State, t: Tid)
    requires RingOk(cfg, s) && t in s.pcs && s.pcs[t].SnapRead? && s.pcs[t].since <= s.pushed
    ensures SnapOk(cfg, s.history, s.pushed, s.pcs[t].limit, LastN(s.ring, AuditLogs.AtLeastOne(s.pcs[t].limit)), s.pushed, s.pcs[t].since)
  {}

  lemma CheckpointReads(cfg: Config, s: State, t: Tid)
    requires LocksOk(s) && RingOk(cfg, s) && FlightOk(s) && t in s.pcs && s.pcs[t].CheckReadHash? && s.pcs[t].since <= s.pushed
    ensures HashRead(s.history, s.pushed, s.lastHash, |s.history|, s.pcs[t].since)
  {
    NoneInFlight(s, t);
    assert s.history[..|s.history|] == s.history;
  }

  /** The new program counter of the thread that moved. */
  lemma OwnPcKept(cfg: Config, s: State, t: Tid)
    requires LocksOk(s) && RingOk(cfg, s) && FlightOk(s)
    requires Advance(cfg, s, t).Some? && PcOk(cfg, s.history, s.pushed, s.pcs[t])
    ensures var s' := Advance(cfg, s, t).value;
      t in s'.pcs ==> PcOk(cfg, s'.history, s'.pushed, s'.pcs[t])
  {
    match s.pcs[t]
    case SnapRead(_, _) => SnapshotReads(cfg, s, t);
    case CheckReadHash(_) => CheckpointReads(cfg, s, t);
    case CheckReadEntries(reported, length, since) =>
    case _ =>
  }

  lemma PcsKept(cfg: Config, s: State, step: Step)
    requires LocksOk(s) && RingOk(cfg, s) && FlightOk(s) && ReportsOk(cfg, s) && Take(cfg, s, step).Some?
    requires RingOk(cfg, Take(cfg, s, step).value)
    ensures var s' := Take(cfg, s, step).value;
      forall t | t in s'.pcs :: PcOk(cfg, s'.history, s'.pushed, s'.pcs[t])
  {
    var s' := Take(cfg, s, step).value;
    HistoryGrows(cfg, s, step);
    forall t | t in s'.pcs ensures PcOk(cfg, s'.history, s'.pushed, s'.pcs[t]) {
      if step == Go(t) {
        OwnPcKept(cfg, s, t);
      } else if t in s.pcs && t != step.t {
        PcOkMonotone(cfg, s.history, s.pushed, s'.history, s'.pushed, s.pcs[t]);
      }
    }
  }

  lemma NewReports(cfg: Config, s: State, step: Step, r: Report)
    requires Take(cfg, s, step).Some? && r in Take(cfg, s, step).value.reports
    ensures r in s.reports || (step.t in s.pcs && (s.pcs[step.t] == CheckWrite(r)
      || (!cfg.logging && s.pcs[step.t] == CheckLeaveHash(r.lastHash, r.length, r.since) && r.written == None)))
    ensures r !in s.reports ==> Take(cfg, s, step).value.history == s.history && Take(cfg, s, step).value.pushed == s.pushed
  {}

  lemma ReportsKept(cfg: Config, s: State, step: Step)
    requires LocksOk(s) && RingOk(cfg, s) && FlightOk(s) && ReportsOk(cfg, s) && Take(cfg, s, step).Some?
    requires RingOk(cfg, Take(cfg, s, step).value)
    ensures ReportsOk(cfg, Take(cfg, s, step).value)
  {
    var s' := Take(cfg, s, step).value;
    HistoryGrows(cfg, s, step);
    PcsKept(cfg, s, step);
    forall r | r in s'.reports ensures ReportOk(cfg, s'.history, s'.pushed, r) {
      NewReports(cfg, s, step, r);
      if r in s.reports {
        ReportOkMonotone(cfg, s.history, s.pushed, s'.history, s'.pushed, r);
      } else {
        assert PcOk(cfg, s.history, s.pushed, s.pcs[step.t]);
      }
    }
  }

  lemma {:induction false} RunKeeps(cfg: Config, s: State, steps: seq<Step>)
    requires Inv(cfg, s) && RunFrom(cfg, s, steps).Some?
    ensures Inv(cfg, RunFrom(cfg, s, steps).value)
    decreases |steps|
  {
    if steps != [] {
      LocksKept(cfg, s, steps[0]);
      RingKept(cfg, s, steps[0]);
      FlightKept(cfg, s, steps[0]);
      ReportsKept(cfg, s, steps[0]);
      RunKeeps(cfg, Take(cfg, s, steps[0]).value, steps[1..]);
    }
  }

  lemma ReachableOk(cfg: Config, steps: seq<Step>)
    requires cfg.maxEntries > 0 && Run(cfg, steps).Some?
    ensures Inv(cfg, Run(cfg, steps).value)
  {
    assert INITIAL.history[..0] == [];
    RunKeeps(cfg, INITIAL, steps);
  }

  // ---- The lines of the log ---------------------------------------------------------------

  predicate AtFile(pc: Pc) {
    pc.WantFile? || pc.Writing?
  }

  predicate NobodyAtFile(pcs: map<Tid, Pc>) {
    forall t | t in pcs :: !AtFile(pcs[t])
  }

  ghost predicate LinesOk(cfg: Config, s: State) {
    && (forall t | t in s.pcs && AtFile(s.pcs[t]) :: cfg.logging && s.pushed <= |s.history| && s.appended == s.history[..s.pushed])
    && (NobodyAtFile(s.pcs) ==> s.appended == if cfg.logging then s.history else [])
  }

  /** Who has the hash lock is the only one who can be at the file. */
  lemma OthersNotAtFile(s: State, t: Tid, u: Tid)
    requires LocksOk(s) && t in s.pcs && u in s.pcs && t != u && Holds(s.pcs[t], HashLock)
    ensures !AtFile(s.pcs[u])
  {
    assert LockOk(s, HashLock, t) && LockOk(s, HashLock, u);
  }

  lemma AdvanceAppends(cfg: Config, s: State, t: Tid)
    requires Advance(cfg, s, t).Some? && !s.pcs[t].Sealing? && !s.pcs[t].Writing?
    ensures var s' := Advance(cfg, s, t).value;
      && s'.appended == s.appended && s'.history == s.history
      && (s.pcs[t].Pushing? || s'.pushed == s.pushed)
      && (AtFile(s.pcs[t]) <==> t in s'.pcs && AtFile(s'.pcs[t]))
  {}

  lemma OwnLines(cfg: Config, s: State, t: Tid)
    requires Inv(cfg, s) && LinesOk(cfg, s) && Advance(cfg, s, t).Some? && (s.pcs[t].Sealing? || s.pcs[t].Writing?)
    requires forall u | u in s.pcs && u != t :: !AtFile(s.pcs[u])
    ensures var s' := Advance(cfg, s, t).value;
      if AtFile(s'.pcs[t]) then cfg.logging && s'.pushed <= |s'.history| && s'.appended == s'.history[..s'.pushed]
      else s'.appended == if cfg.logging then s'.history else []
  {
    if s.pcs[t].Sealing? {
      NoneInFlight(s, t);
      assert NobodyAtFile(s.pcs);
    } else {
      assert AtFile(s.pcs[t]) && InFlight(s.pcs[t]) == Some(s.history[s.pushed]);
      assert s.history == s.history[..s.pushed] + [s.history[s.pushed]];
    }
  }

  lemma GoAppends(cfg: Config, s: State, t: Tid)
    requires Inv(cfg, s) && LinesOk(cfg, s) && Advance(cfg, s, t).Some?
    ensures LinesOk(cfg, Advance(cfg, s, t).value)
  {
    var s' := Advance(cfg, s, t).value;
    forall u | u != t ensures (u in s'.pcs <==> u in s.pcs) && (u in s.pcs ==> s'.pcs[u] == s.pcs[u]) {
      AdvanceMovesOne(cfg, s, t, u);
    }
    if Holds(s.pcs[t], HashLock) {
      forall u | u in s.pcs && u != t ensures !AtFile(s.pcs[u]) {
        OthersNotAtFile(s, t, u);
      }
    }
    if s.pcs[t].Sealing? || s.pcs[t].Writing? {
      OwnLines(cfg, s, t);
    } else {
      AdvanceAppends(cfg, s, t);
      assert NobodyAtFile(s'.pcs) ==> NobodyAtFile(s.pcs);
    }
  }

  lemma BeginAppends(cfg: Config, s: State, step: Step)
    requires LinesOk(cfg, s) && step.Begin? && Take(cfg, s, step).Some?
    ensures LinesOk(cfg, Take(cfg, s, step).value)
  {
    var s' := Take(cfg, s, step).value;
    assert NobodyAtFile(s'.pcs) ==> NobodyAtFile(s.pcs) by {
      forall t | t in s.pcs ensures s'.pcs[t] == s.pcs[t] {}
    }
  }

  lemma {:induction false} RunAppends(cfg: Config, s: State, steps: seq<Step>)
    requires Inv(cfg, s) && LinesOk(cfg, s) && RunFrom(cfg, s, steps).Some?
    ensures LinesOk(cfg, RunFrom(cfg, s, steps).value)
    decreases |steps|
  {
    if steps != [] {
      var s' := Take(cfg, s, steps[0]).value;
      RunKeeps(cfg, s, [steps[0]]);
      assert RunFrom(cfg, s', []) == Some(s') && [steps[0]][1..] == [];
      if steps[0].Begin? {
        BeginAppends(cfg, s, steps[0]);
      } else {
        GoAppends(cfg, s, steps[0].t);
      }
      RunAppends(cfg, s', steps[1..]);
    }
  }

  // ---- Which call a thread is in ----------------------------------------------------------

  /** A reading call and how many entries were in the ring when it began, as the program counter shows. */
  function Serves(pc: Pc): Option<(Call, nat)> {
    match pc
    case SnapWant(limit, since) => Some((SnapshotCall(limit), since))
    case SnapRead(limit, since) => Some((SnapshotCall(limit), since))
    case SnapLeave(limit, _, _, since) => Some((SnapshotCall(limit), since))
    case CheckWantHash(since) => Some((CheckpointCall, since))
    case CheckReadHash(since) => Some((CheckpointCall, since))
    case CheckLeaveHash(_, _, since) => Some((CheckpointCall, since))
    case CheckWantEntries(_, _, since) => Some((CheckpointCall, since))
    case CheckReadEntries(_, _, since) => Some((CheckpointCall, since))
    case CheckLeaveEntries(report) => Some((CheckpointCall, report.since))
    case CheckWrite(report) => Some((CheckpointCall, report.since))
    case _ => None
  }

  /** Thread `t` began this call when `since` entries were in the ring. */
  ghost predicate BeganAt(cfg: Config, steps: seq<Step>, t: Tid, call: Call, since: nat) {
    exists k | 0 <= k < |steps| && steps[k] == Begin(t, call) ::
      Run(cfg, steps[..k]).Some? && Run(cfg, steps[..k]).value.pushed == since
  }

  ghost predicate ServesBegun(cfg: Config, s: State, steps: seq<Step>) {
    && (forall t | t in s.pcs && Serves(s.pcs[t]).Some? ::
          BeganAt(cfg, steps, t, Serves(s.pcs[t]).value.0, Serves(s.pcs[t]).value.1))
    && (forall r | r in s.reports :: exists t :: BeganAt(cfg, steps, t, CheckpointCall, r.since))
  }

  lemma BeganEarlier(cfg: Config, steps: seq<Step>, step: Step, t: Tid, call: Call, since: nat)
    requires BeganAt(cfg, steps, t, call, since)
    ensures BeganAt(cfg, steps + [step], t, call, since)
  {
    var k :| 0 <= k < |steps| && steps[k] == Begin(t, call)
      && Run(cfg, steps[..k]).Some? && Run(cfg, steps[..k]).value.pushed == since;
    assert (steps + [step])[..k] == steps[..k] && (steps + [step])[k] == steps[k];
  }

  lemma BeginsNow(cfg: Config, steps: seq<Step>, t: Tid, call: Call)
    requires Run(cfg, steps).Some?
    ensures BeganAt(cfg, steps + [Begin(t, call)], t, call, Run(cfg, steps).value.pushed)
  {
    var longer := steps + [Begin(t, call)];
    assert longer[..|steps|] == steps && longer[|steps|] == Begin(t, call);
  }

  lemma AdvanceServes(cfg: Config, s: State, t: Tid)
    requires Advance(cfg, s, t).Some?
    ensures var s' := Advance(cfg, s, t).value;
      && (t in s'.pcs && Serves(s'.pcs[t]).Some? ==> Serves(s'.pcs[t]) == Serves(s.pcs[t]))
      && forall r | r in s'.reports :: r in s.reports || Serves(s.pcs[t]) == Some((CheckpointCall, r.since))
  {}

  lemma GoServes(cfg: Config, s: State, t: Tid, steps: seq<Step>)
    requires ServesBegun(cfg, s, steps) && Advance(cfg, s, t).Some?
    ensures ServesBegun(cfg, Advance(cfg, s, t).value, steps + [Go(t)])
  {
    var s' := Advance(cfg, s, t).value;
    AdvanceServes(cfg, s, t);
    forall u | u in s'.pcs && Serves(s'.pcs[u]).Some?
      ensures BeganAt(cfg, steps + [Go(t)], u, Serves(s'.pcs[u]).value.0, Serves(s'.pcs[u]).value.1)
    {
      if u != t {
        AdvanceMovesOne(cfg, s, t, u);
      }
      BeganEarlier(cfg, steps, Go(t), u, Serves(s'.pcs[u]).value.0, Serves(s'.pcs[u]).value.1);
    }
    forall r | r in s'.reports ensures exists u :: BeganAt(cfg, steps + [Go(t)], u, CheckpointCall, r.since) {
      var u := t;
      if r in s.reports {
        u :| BeganAt(cfg, steps, u, CheckpointCall, r.since);
      }
      BeganEarlier(cfg, steps, Go(t), u, CheckpointCall, r.since);
    }
  }

  lemma BeginServes(cfg: Config, s: State, step: Step, steps: seq<Step>)
    requires Run(cfg, steps) == Some(s) && ServesBegun(cfg, s, steps) && step.Begin? && Take(cfg, s, step).Some?
    ensures ServesBegun(cfg, Take(cfg, s, step).value, steps + [step])
  {
    var s' := Take(cfg, s, step).value;
    forall u | u in s'.pcs && Serves(s'.pcs[u]).Some?
      ensures BeganAt(cfg, steps + [step], u, Serves(s'.pcs[u]).value.0, Serves(s'.pcs[u]).value.1)
    {
      if u == step.t {
        BeginsNow(cfg, steps, u, step.call);
      } else {
        BeganEarlier(cfg, steps, step, u, Serves(s.pcs[u]).value.0, Serves(s.pcs[u]).value.1);
      }
    }
    forall r | r in s'.reports ensures exists u :: BeganAt(cfg, steps + [step], u, CheckpointCall, r.since) {
      var u :| BeganAt(cfg, steps, u, CheckpointCall, r.since);
      BeganEarlier(cfg, steps, step, u, CheckpointCall, r.since);
    }
  }

  lemma {:induction false} RunFirst(cfg: Config, s: State, steps: seq<Step>)
    requires steps != [] && RunFrom(cfg, s, steps).Some?
    ensures var front := steps[..|steps| - 1];
      && RunFrom(cfg, s, front).Some?
      && Take(cfg, RunFrom(cfg, s, front).value, steps[|steps| - 1]) == RunFrom(cfg, s, steps)
    decreases |steps|
  {
    if |steps| > 1 {
      var front := steps[..|steps| - 1];
      RunFirst(cfg, Take(cfg, s, steps[0]).value, steps[1..]);
      assert steps[1..][..|steps| - 2] == front[1..] && front[0] == steps[0];
    } else {
      assert steps[1..] == [] && steps[..0] == [];
    }
  }

  lemma {:induction false} RunServes(cfg: Config, steps: seq<Step>)
    requires Run(cfg, steps).Some?
    ensures ServesBegun(cfg, Run(cfg, steps).value, steps)
    decreases |steps|
  {
    if steps != [] {
      var front, last := steps[..|steps| - 1], steps[|steps| - 1];
      RunFirst(cfg, INITIAL, steps);
      RunServes(cfg, front);
      assert steps == front + [last];
      var s := Run(cfg, front).value;
      if last.Begin? {
        BeginServes(cfg, s, last, front);
      } else {
        GoServes(cfg, s, last.t, front);
      }
    }
  }

  // ---- What was recorded ------------------------------------------------------------------

  /** The entry without its hash fields. */
  function Plain(e: Entry): Entry {
    e.(prevHash := None, hash := None)
  }

  function PlainAll(es: seq<Entry>): seq<Entry> {
    seq(|es|, i requires 0 <= i < |es| => Plain(es[i]))
  }

  /** The entries that the schedule's calls of `record` are given, in the order of the calls. */
  function Begun(steps: seq<Step>): seq<Entry> {
    if steps == [] then []
    else (if steps[0].Begin? && steps[0].call.RecordCall? then [steps[0].call.entry] else []) + Begun(steps[1..])
  }

  /** The entry of a call that is not sealed yet. */
  function Unsealed(pc: Pc): Option<Entry> {
    match pc
    case WantHash(entry) => Some(entry)
    case Sealing(entry) => Some(entry)
    case _ => None
  }

  predicate Awaits(pcs: map<Tid, Pc>, t: Tid, e: Entry) {
    t in pcs && Unsealed(pcs[t]).Some? && Plain(Unsealed(pcs[t]).value) == e
  }

  function Waiting(pcs: map<Tid, Pc>, e: Entry): set<Tid> {
    set t | t in pcs && Awaits(pcs, t, e)
  }

  /** Every recorded entry is either sealed, once, or waits in the thread that was given it. */
  ghost predicate Conserved(s: State, begun: seq<Entry>) {
    forall e :: multiset(PlainAll(s.history))[e] + |Waiting(s.pcs, e)| == multiset(PlainAll(begun))[e]
  }

  lemma PlainSnoc(es: seq<Entry>, x: Entry, e: Entry)
    ensures multiset(PlainAll(es + [x]))[e] == multiset(PlainAll(es))[e] + (if Plain(x) == e then 1 else 0)
  {
    assert PlainAll(es + [x]) == PlainAll(es) + [Plain(x)];
  }

  /** The threads other than `t` wait as before. */
  lemma WaitingMoves(pcs: map<Tid, Pc>, pcs': map<Tid, Pc>, t: Tid, e: Entry)
    requires pcs - {t} == pcs' - {t}
    ensures |Waiting(pcs', e)| + (if Awaits(pcs, t, e) then 1 else 0) == |Waiting(pcs, e)| + (if Awaits(pcs', t, e) then 1 else 0)
  {
    var others := Waiting(pcs - {t}, e);
    WaitingSplits(pcs, t, e);
    WaitingSplits(pcs', t, e);
  }

  lemma WaitingSplits(pcs: map<Tid, Pc>, t: Tid, e: Entry)
    ensures |Waiting(pcs, e)| == |Waiting(pcs - {t}, e)| + (if Awaits(pcs, t, e) then 1 else 0)
  {
    assert t !in Waiting(pcs - {t}, e);
    assert Waiting(pcs, e) == Waiting(pcs - {t}, e) + (if Awaits(pcs, t, e) then {t} else {});
  }

  lemma AdvanceSeals(cfg: Config, s: State, t: Tid)
    requires Advance(cfg, s, t).Some?
    ensures var s' := Advance(cfg, s, t).value;
      if s.pcs[t].Sealing? then
        && t in s'.pcs && Unsealed(s'.pcs[t]) == None
        && s'.history == s.history + [Seal(cfg.digest, s.lastHash, s.pcs[t].entry)]
      else s'.history == s.history && Unsealed(s.pcs[t]) == if t in s'.pcs then Unsealed(s'.pcs[t]) else None
  {}

  lemma BegunOne(step: Step, begun: seq<Entry>)
    ensures begun + Begun([step])
      == if step.Begin? && step.call.RecordCall? then begun + [step.call.entry] else begun
  {
    assert [step][1..] == [] && begun + [] == begun;
    assert Begun([step][1..]) == [];
  }

  lemma BeginWaits(cfg: Config, s: State, step: Step, begun: seq<Entry>)
    requires step.Begin? && Conserved(s, begun) && Take(cfg, s, step).Some?
    ensures Conserved(Take(cfg, s, step).value, begun + Begun([step]))
  {
    var s', t := Take(cfg, s, step).value, step.t;
    BegunOne(step, begun);
    assert s.pcs - {t} == s'.pcs - {t};
    assert s'.history == s.history && s'.pcs[t] == Start(step.call, s.pushed);
    forall e ensures multiset(PlainAll(s'.history))[e] + |Waiting(s'.pcs, e)| == multiset(PlainAll(begun + Begun([step])))[e] {
      WaitingMoves(s.pcs, s'.pcs, t, e);
      if step.call.RecordCall? {
        PlainSnoc(begun, step.call.entry, e);
      }
    }
  }

  lemma GoSeals(cfg: Config, s: State, t: Tid, begun: seq<Entry>)
    requires Conserved(s, begun) && Advance(cfg, s, t).Some?
    ensures Conserved(Advance(cfg, s, t).value, begun)
  {
    var s' := Advance(cfg, s, t).value;
    AdvanceSeals(cfg, s, t);
    AdvanceLeavesOthers(cfg, s, t);
    forall e ensures multiset(PlainAll(s'.history))[e] + |Waiting(s'.pcs, e)| == multiset(PlainAll(begun))[e] {
      WaitingMoves(s.pcs, s'.pcs, t, e);
      if s.pcs[t].Sealing? {
        SealKeepsRecord(cfg.digest, s.lastHash, s.pcs[t].entry);
        PlainSnoc(s.history, Seal(cfg.digest, s.lastHash, s.pcs[t].entry), e);
      }
    }
  }

  lemma StepConserves(cfg: Config, s: State, step: Step, begun: seq<Entry>)
    requires Conserved(s, begun) && Take(cfg, s, step).Some?
    ensures Conserved(Take(cfg, s, step).value, begun + Begun([step]))
  {
    if step.Begin? {
      BeginWaits(cfg, s, step, begun);
    } else {
      GoSeals(cfg, s, step.t, begun);
      BegunOne(step, begun);
    }
  }

  lemma Regrouped<T>(a: seq<T>, b: seq<T>, c: seq<T>)
    ensures a + b + c == a + (b + c)
  {}

  lemma BegunFirst(steps: seq<Step>, begun: seq<Entry>)
    requires steps != []
    ensures begun + Begun([steps[0]]) + Begun(steps[1..]) == begun + Begun(steps)
  {
    var rest := Begun(steps[1..]);
    BegunOne(steps[0], begun);
    if steps[0].Begin? && steps[0].call.RecordCall? {
      Regrouped(begun, [steps[0].call.entry], rest);
    } else {
      assert [] + rest == rest;
    }
  }

  lemma {:induction false} RunConserves(cfg: Config, s: State, steps: seq<Step>, begun: seq<Entry>)
    requires Conserved(s, begun) && RunFrom(cfg, s, steps).Some?
    ensures Conserved(RunFrom(cfg, s, steps).value, begun + Begun(steps))
    decreases |steps|
  {
    if steps == [] {
      assert begun + [] == begun;
    } else {
      StepConserves(cfg, s, steps[0], begun);
      RunConserves(cfg, Take(cfg, s, steps[0]).value, steps[1..], begun + Begun([steps[0]]));
      BegunFirst(steps, begun);
    }
  }

  lemma {:induction false} BegunByStep(steps: seq<Step>, e: Entry) returns (k: nat)
    requires e in PlainAll(Begun(steps))
    ensures k < |steps| && steps[k].Begin? && steps[k].call.RecordCall?
    ensures steps[k].call.entry.(prevHash := None, hash := None) == e
  {
    var first := if steps[0].Begin? && steps[0].call.RecordCall? then [steps[0].call.entry] else [];
    assert PlainAll(Begun(steps)) == PlainAll(first) + PlainAll(Begun(steps[1..]));
    if e in PlainAll(first) {
      k := 0;
    } else {
      k := BegunByStep(steps[1..], e);
      k := k + 1;
    }
  }

  // ---- Main results -----------------------------------------------------------------------

  /**
    In every reachable state the sealed entries form one chain, and the ring is its newest window up
    to at most one entry in flight: a window whose links all check.
   */
  lemma RingIsWindowOfChain(cfg: Config, steps: seq<Step>)
    requires cfg.maxEntries > 0 && Run(cfg, steps).Some?
    ensures var s := Run(cfg, steps).value;
      && Verifies(cfg.digest, None, s.history) && s.lastHash == EndHash(None, s.history)
      && s.pushed <= |s.history| <= s.pushed + 1
      && (HashLock !in s.holders ==> s.pushed == |s.history|)
      && s.ring == LastN(s.history[..s.pushed], cfg.maxEntries)
      && Verifies(cfg.digest, EndHash(None, s.history[..s.pushed - |s.ring|]), s.ring)
  {
    ReachableOk(cfg, steps);
    var s := Run(cfg, steps).value;
    var k := s.pushed - |s.ring|;
    PrefixVerifies(cfg.digest, None, s.history, s.pushed);
    SuffixVerifies(cfg.digest, None, s.history[..s.pushed], k);
    assert s.history[..s.pushed][..k] == s.history[..k];
  }

  /** In every reachable state each sealed entry is, but for its hash fields, what some call was given. */
  lemma EntriesAreRecorded(cfg: Config, steps: seq<Step>, i: nat) returns (k: nat)
    requires Run(cfg, steps).Some? && i < |Run(cfg, steps).value.history|
    ensures k < |steps| && steps[k].Begin? && steps[k].call.RecordCall?
    ensures Run(cfg, steps).value.history[i].(prevHash := None, hash := None)
      == steps[k].call.entry.(prevHash := None, hash := None)
  {
    var s := Run(cfg, steps).value;
    NothingRecorded();
    RunConserves(cfg, INITIAL, steps, []);
    var e := Plain(s.history[i]);
    assert PlainAll(s.history)[i] == e;
    assert multiset(PlainAll(s.history))[e] > 0;
    assert [] + Begun(steps) == Begun(steps);
    k := BegunByStep(steps, e);
  }

  lemma NothingRecorded()
    ensures Conserved(INITIAL, [])
  {
    forall e ensures multiset(PlainAll(INITIAL.history))[e] + |Waiting(INITIAL.pcs, e)| == multiset(PlainAll([]))[e] {
      assert Waiting(INITIAL.pcs, e) == {};
    }
  }

  /** When all calls are finished, the history holds what they were given, each entry as often as it was given. */
  lemma EveryRecordOnce(cfg: Config, steps: seq<Step>)
    requires Run(cfg, steps).Some? && Run(cfg, steps).value.pcs == map[]
    ensures multiset(PlainAll(Run(cfg, steps).value.history)) == multiset(PlainAll(Begun(steps)))
    ensures |Run(cfg, steps).value.history| == |Begun(steps)|
  {
    var s := Run(cfg, steps).value;
    NothingRecorded();
    RunConserves(cfg, INITIAL, steps, []);
    assert [] + Begun(steps) == Begun(steps);
    forall e ensures multiset(PlainAll(s.history))[e] == multiset(PlainAll(Begun(steps)))[e] {
      assert Waiting(s.pcs, e) == {};
    }
    assert |multiset(PlainAll(s.history))| == |s.history| && |multiset(PlainAll(Begun(steps)))| == |Begun(steps)|;
  }

  /**
    The log gets its lines in the order of the chain: under every interleaving what `record` has
    appended is the history, up to at most one line that is still to be written, whose thread holds
    the hash lock. Without a log path nothing is appended.
   */
  lemma LinesFollowChain(cfg: Config, steps: seq<Step>)
    requires cfg.maxEntries > 0 && Run(cfg, steps).Some?
    ensures var s := Run(cfg, steps).value;
      if !cfg.logging then s.appended == []
      else s.appended <= s.history && |s.history| <= |s.appended| + 1 && (HashLock !in s.holders ==> s.appended == s.history)
  {
    ReachableOk(cfg, steps);
    RunAppends(cfg, INITIAL, steps);
    var s := Run(cfg, steps).value;
    if t :| t in s.pcs && AtFile(s.pcs[t]) {
      assert LockOk(s, HashLock, t);
    }
  }

  /**
    A finished checkpoint reports the hash of a prefix of the history, with at least the entries that
    were in the ring when it began. With a log path it also wrote
    a window that covers that prefix, and the window ends in the reported hash exactly when no entry
    was pushed in between.
   */
  lemma CheckpointReports(cfg: Config, steps: seq<Step>, r: Report)
    requires cfg.maxEntries > 0 && Injective(cfg.digest) && Run(cfg, steps).Some?
    requires r in Run(cfg, steps).value.reports
    ensures var h := Run(cfg, steps).value.history;
      && r.since <= r.length <= |h| && r.lastHash == EndHash(None, h[..r.length])
      && (exists t :: BeganAt(cfg, steps, t, CheckpointCall, r.since))
      && (r.written.Some? <==> cfg.logging)
      && (r.written.Some? ==>
            && r.length <= r.written.value.taken <= |h|
            && r.written.value.window == LastN(h[..r.written.value.taken], cfg.maxEntries)
            && (EndHash(None, r.written.value.window) == r.lastHash <==> r.length == r.written.value.taken))
  {
    ReachableOk(cfg, steps);
    RunServes(cfg, steps);
    if r.written.Some? {
      var h, w := Run(cfg, steps).value.history, r.written.value;
      PrefixVerifies(cfg.digest, None, h, r.length);
      PrefixVerifies(cfg.digest, None, h, w.taken);
      EndHashDeterminesLedger(cfg.digest, h[..r.length], h[..w.taken]);
      assert EndHash(None, w.window) == EndHash(None, h[..w.taken]);
      assert |h[..r.length]| == r.length && |h[..w.taken]| == w.taken;
    }
  }

  /**
    A snapshot, when its thread leaves the lock, is the newest window of a prefix of the history, with
    at least the entries that were in the ring when the call began.
   */
  lemma SnapshotsAreWindows(cfg: Config, steps: seq<Step>, t: Tid)
    requires cfg.maxEntries > 0 && Run(cfg, steps).Some?
    requires var s := Run(cfg, steps).value; t in s.pcs && s.pcs[t].SnapLeave?
    ensures var pc := Run(cfg, steps).value.pcs[t];
      pc.since <= pc.taken && BeganAt(cfg, steps, t, SnapshotCall(pc.limit), pc.since)
    ensures var s := Run(cfg, steps).value;
      var n := if s.pcs[t].limit == 0 then 1 else s.pcs[t].limit;
      && s.pcs[t].taken <= s.pushed <= |s.history|
      && s.pcs[t].window == LastN(s.history[..s.pcs[t].taken], if n < cfg.maxEntries then n else cfg.maxEntries)
  {
    ReachableOk(cfg, steps);
    RunServes(cfg, steps);
  }

  /** A thread only ever waits for a lock above all those it owns, so waiting never closes a cycle. */
  lemma LocksTakenInOrder(cfg: Config, steps: seq<Step>, t: Tid, l: Lock)
    requires cfg.maxEntries > 0 && Run(cfg, steps).Some?
    requires var s := Run(cfg, steps).value; t in s.pcs && Wanted(s.pcs[t]).Some? && Owns(s, l, t)
    ensures Rank(l) < Rank(Wanted(Run(cfg, steps).value.pcs[t]).value)
  {
    ReachableOk(cfg, steps);
    assert LockOk(Run(cfg, steps).value, l, t);
  }

  /** While any call is unfinished some thread can move. */
  lemma SomeThreadMoves(cfg: Config, s: State) returns (t: Tid)
    requires LocksOk(s) && s.pcs != map[]
    ensures t in s.pcs && Advance(cfg, s, t).Some?
  {
    t :| t in s.pcs;
    forall l | l in s.holders ensures LockOk(s, l, s.holders[l]) {}
    if EntriesLock in s.holders {
      t := s.holders[EntriesLock];
      assert LockOk(s, EntriesLock, t);
    } else if FileLock in s.holders {
      t := s.holders[FileLock];
      assert LockOk(s, FileLock, t);
    } else if HashLock in s.holders {
      t := s.holders[HashLock];
      assert LockOk(s, HashLock, t);
    }
  }

  /** How many steps a call still needs. */
  function Left(pc: Pc): nat {
    match pc
    case WantHash(_) => 8
    case Sealing(_) => 7
    case WantFile(_) => 6
    case Writing(_) => 5
    case WantEntries(_) => 4
    case Pushing(_) => 3
    case LeavingEntries => 2
    case LeavingHash => 1
    case SnapWant(_, _) => 3
    case SnapRead(_, _) => 2
    case SnapLeave(_, _, _, _) => 1
    case CheckWantHash(_) => 7
    case CheckReadHash(_) => 6
    case CheckLeaveHash(_, _, _) => 5
    case CheckWantEntries(_, _, _) => 4
    case CheckReadEntries(_, _, _) => 3
    case CheckLeaveEntries(_) => 2
    case CheckWrite(_) => 1
  }

  function LeftOf(pcs: map<Tid, Pc>): map<Tid, nat> {
    map t | t in pcs :: Left(pcs[t])
  }

  ghost function Work(pcs: map<Tid, Pc>): nat {
    Sum(LeftOf(pcs))
  }

  lemma WorkSplits(pcs: map<Tid, Pc>, t: Tid)
    requires t in pcs
    ensures Work(pcs) == Left(pcs[t]) + Work(pcs - {t})
  {
    SumSplit(LeftOf(pcs), t);
    assert LeftOf(pcs) - {t} == LeftOf(pcs - {t});
  }

  lemma AdvanceDoesOwnWork(cfg: Config, s: State, t: Tid)
    requires Advance(cfg, s, t).Some?
    ensures var pcs := Advance(cfg, s, t).value.pcs; t in pcs ==> Left(pcs[t]) < Left(s.pcs[t])
  {}

  lemma AdvanceLeavesOthers(cfg: Config, s: State, t: Tid)
    requires Advance(cfg, s, t).Some?
    ensures Advance(cfg, s, t).value.pcs - {t} == s.pcs - {t}
  {
    var pcs := Advance(cfg, s, t).value.pcs;
    forall u | u != t ensures (u in pcs <==> u in s.pcs) && (u in pcs ==> pcs[u] == s.pcs[u]) {
      AdvanceMovesOne(cfg, s, t, u);
    }
  }

  lemma AdvanceDoesWork(cfg: Config, s: State, t: Tid)
    requires Advance(cfg, s, t).Some?
    ensures Work(Advance(cfg, s, t).value.pcs) < Work(s.pcs)
  {
    var pcs := Advance(cfg, s, t).value.pcs;
    AdvanceDoesOwnWork(cfg, s, t);
    AdvanceLeavesOthers(cfg, s, t);
    WorkSplits(s.pcs, t);
    if t in pcs {
      WorkSplits(pcs, t);
    } else {
      assert pcs - {t} == pcs;
      assert Left(s.pcs[t]) > 0;
    }
  }

  /** From every reachable state the unfinished calls can all be brought to their end. */
  lemma {:induction false} CallsCanFinish(cfg: Config, s: State)
    requires Inv(cfg, s)
    ensures exists more :: RunFrom(cfg, s, more).Some? && RunFrom(cfg, s, more).value.pcs == map[]
    decreases Work(s.pcs)
  {
    if s.pcs == map[] {
      assert RunFrom(cfg, s, []) == Some(s);
    } else {
      var t := SomeThreadMoves(cfg, s);
      var next := Advance(cfg, s, t).value;
      AdvanceDoesWork(cfg, s, t);
      RunKeeps(cfg, s, [Go(t)]);
      assert RunFrom(cfg, s, [Go(t)]) == Some(next);
      CallsCanFinish(cfg, next);
      var more :| RunFrom(cfg, next, more).Some? && RunFrom(cfg, next, more).value.pcs == map[];
      assert ([Go(t)] + more)[1..] == more;
      assert RunFrom(cfg, s, [Go(t)] + more) == RunFrom(cfg, next, more);
    }
  }

  ghost predicate Leads(cfg: Config, s: State, s': State) {
    exists steps :: RunFrom(cfg, s, steps) == Some(s')
  }

  lemma LeadsFurther(cfg: Config, s: State, step: Step, s': State)
    requires Leads(cfg, INITIAL, s) && Take(cfg, s, step).Some?
    requires var r := Take(cfg, s, step).value;
      && r.holders == s'.holders && r.pcs == s'.pcs && r.lastHash == s'.lastHash && r.ring == s'.ring
      && r.history == s'.history && r.pushed == s'.pushed && r.reports == s'.reports && r.appended == s'.appended
    ensures Leads(cfg, INITIAL, s')
  {
    var steps :| RunFrom(cfg, INITIAL, steps) == Some(s);
    RunSnoc(cfg, INITIAL, steps, step);
  }

  lemma {:induction false} RunSnoc(cfg: Config, s: State, steps: seq<Step>, step: Step)
    requires RunFrom(cfg, s, steps).Some?
    ensures RunFrom(cfg, s, steps + [step]) == Take(cfg, RunFrom(cfg, s, steps).value, step)
    decreases |steps|
  {
    if steps == [] {
      assert ([] + [step])[1..] == [];
    } else {
      assert (steps + [step])[1..] == steps[1..] + [step];
      RunSnoc(cfg, Take(cfg, s, steps[0]).value, steps[1..], step);
    }
  }

  /** Thread 0 is in the middle of a checkpoint at `p` while thread 1 records at `q`. */
  function Two(holders: map<Lock, Tid>, h: seq<Entry>, ring: seq<Entry>, p: Pc, q: Pc): State {
    State(holders, EndHash(None, h), ring, h, |ring|, map[0 := p, 1 := q], [], if q.WantFile? || q.Writing? then [] else h)
  }

  function One(holders: map<Lock, Tid>, h: seq<Entry>, p: Pc): State {
    State(holders, EndHash(None, h), h, h, |h|, map[0 := p], [], h)
  }

  lemma CheckpointTakesHash(cfg: Config)
    ensures Leads(cfg, INITIAL, One(map[HashLock := 0], [], CheckReadHash(0)))
  {
    assert RunFrom(cfg, INITIAL, []) == Some(INITIAL);
    LeadsFurther(cfg, INITIAL, Begin(0, CheckpointCall), One(map[], [], CheckWantHash(0)));
    LeadsFurther(cfg, One(map[], [], CheckWantHash(0)), Go(0), One(map[HashLock := 0], [], CheckReadHash(0)));
  }

  lemma CheckpointReadsHash(cfg: Config)
    requires cfg.logging
    ensures Leads(cfg, INITIAL, One(map[], [], CheckWantEntries(None, 0, 0)))
  {
    CheckpointTakesHash(cfg);
    LeadsFurther(cfg, One(map[HashLock := 0], [], CheckReadHash(0)), Go(0),
                 One(map[HashLock := 0], [], CheckLeaveHash(None, 0, 0)));
    LeadsFurther(cfg, One(map[HashLock := 0], [], CheckLeaveHash(None, 0, 0)), Go(0),
                 One(map[], [], CheckWantEntries(None, 0, 0)));
  }

  lemma RecordSeals(cfg: Config, p: Pc, e: Entry)
    requires cfg.logging && Leads(cfg, INITIAL, One(map[], [], p))
    ensures var x := Seal(cfg.digest, None, e); Leads(cfg, INITIAL, Two(map[HashLock := 1], [x], [], p, WantFile(x)))
  {
    var x := Seal(cfg.digest, None, e);
    LeadsFurther(cfg, One(map[], [], p), Begin(1, RecordCall(e)), Two(map[], [], [], p, WantHash(e)));
    LeadsFurther(cfg, Two(map[], [], [], p, WantHash(e)), Go(1), Two(map[HashLock := 1], [], [], p, Sealing(e)));
    LeadsFurther(cfg, Two(map[HashLock := 1], [], [], p, Sealing(e)), Go(1),
                 Two(map[HashLock := 1], [x], [], p, WantFile(x)));
  }

  lemma RecordWrites(cfg: Config, p: Pc, x: Entry)
    requires Leads(cfg, INITIAL, Two(map[HashLock := 1], [x], [], p, WantFile(x)))
    ensures Leads(cfg, INITIAL, Two(map[HashLock := 1], [x], [], p, WantEntries(x)))
  {
    var held := map[HashLock := 1, FileLock := 1];
    LeadsFurther(cfg, Two(map[HashLock := 1], [x], [], p, WantFile(x)), Go(1), Two(held, [x], [], p, Writing(x)));
    assert held - {FileLock} == map[HashLock := 1];
    LeadsFurther(cfg, Two(held, [x], [], p, Writing(x)), Go(1),
                 Two(map[HashLock := 1], [x], [], p, WantEntries(x)));
  }

  lemma RecordPushes(cfg: Config, p: Pc, x: Entry)
    requires cfg.maxEntries > 0 && Leads(cfg, INITIAL, Two(map[HashLock := 1], [x], [], p, WantEntries(x)))
    ensures Leads(cfg, INITIAL, Two(map[HashLock := 1, EntriesLock := 1], [x], [x], p, LeavingEntries))
  {
    var held := map[HashLock := 1, EntriesLock := 1];
    LeadsFurther(cfg, Two(map[HashLock := 1], [x], [], p, WantEntries(x)), Go(1), Two(held, [x], [], p, Pushing(x)));
    assert LastN([] + [x], cfg.maxEntries) == [x];
    LeadsFurther(cfg, Two(held, [x], [], p, Pushing(x)), Go(1), Two(held, [x], [x], p, LeavingEntries));
  }

  lemma RecordLeaves(cfg: Config, p: Pc, x: Entry)
    requires Leads(cfg, INITIAL, Two(map[HashLock := 1, EntriesLock := 1], [x], [x], p, LeavingEntries))
    ensures Leads(cfg, INITIAL, One(map[], [x], p))
  {
    var held := map[HashLock := 1, EntriesLock := 1];
    assert held - {EntriesLock} == map[HashLock := 1];
    LeadsFurther(cfg, Two(held, [x], [x], p, LeavingEntries), Go(1),
                 Two(map[HashLock := 1], [x], [x], p, LeavingHash));
    LeadsFurther(cfg, Two(map[HashLock := 1], [x], [x], p, LeavingHash), Go(1), One(map[], [x], p));
  }

  lemma CheckpointReadsWindow(cfg: Config, x: Entry)
    requires cfg.maxEntries > 0 && Leads(cfg, INITIAL, One(map[], [x], CheckWantEntries(None, 0, 0)))
    ensures Leads(cfg, INITIAL, One(map[EntriesLock := 0], [x], CheckLeaveEntries(Report(None, 0, Some(Written([x], 1)), 0))))
  {
    var held := map[EntriesLock := 0];
    LeadsFurther(cfg, One(map[], [x], CheckWantEntries(None, 0, 0)), Go(0), One(held, [x], CheckReadEntries(None, 0, 0)));
    LeadsFurther(cfg, One(held, [x], CheckReadEntries(None, 0, 0)), Go(0),
                 One(held, [x], CheckLeaveEntries(Report(None, 0, Some(Written([x], 1)), 0))));
  }

  lemma CheckpointFinishes(cfg: Config, x: Entry, r: Report)
    requires Leads(cfg, INITIAL, One(map[EntriesLock := 0], [x], CheckLeaveEntries(r)))
    ensures exists s :: Leads(cfg, INITIAL, s) && s.reports == [r]
  {
    var s := One(map[], [x], CheckWrite(r));
    LeadsFurther(cfg, One(map[EntriesLock := 0], [x], CheckLeaveEntries(r)), Go(0), s);
    var done := Advance(cfg, s, 0).value;
    LeadsFurther(cfg, s, Go(0), done);
    assert done.reports == [r];
  }

  /**
    A checkpoint is not atomic: one `record` that runs between its two lock regions leaves a window
    that ends in an entry newer than the hash the checkpoint reports.
   */
  lemma CheckpointCanLag(cfg: Config, e: Entry)
    requires cfg.maxEntries > 0 && cfg.logging
    ensures exists steps ::
      && Run(cfg, steps).Some?
      && Run(cfg, steps).value.reports == [Report(None, 0, Some(Written([Seal(cfg.digest, None, e)], 1)), 0)]
  {
    var x := Seal(cfg.digest, None, e);
    CheckpointReadsHash(cfg);
    RecordSeals(cfg, CheckWantEntries(None, 0, 0), e);
    RecordWrites(cfg, CheckWantEntries(None, 0, 0), x);
    RecordPushes(cfg, CheckWantEntries(None, 0, 0), x);
    RecordLeaves(cfg, CheckWantEntries(None, 0, 0), x);
    CheckpointReadsWindow(cfg, x);
    CheckpointFinishes(cfg, x, Report(None, 0, Some(Written([x], 1)), 0));
    var s :| Leads(cfg, INITIAL, s) && s.reports == [Report(None, 0, Some(Written([x], 1)), 0)];
    var steps :| RunFrom(cfg, INITIAL, steps) == Some(s);
    assert Run(cfg, steps) == Some(s);
  }
}
