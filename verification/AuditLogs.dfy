/**
  The audit ledger as one thread sees it: the ring, the last hash and the log files, updated in
  place. `history` is the ghost record of everything sealed so far.
 */
module AuditLogs {
  import opened AuditEntries
  import opened AuditFiles
  import opened Options
  import opened Sequences

  function AtLeastOne(n: nat): nat {
    if n == 0 then 1 else n
  }

  /** The newest `limit` entries, oldest first, taken by two reversals as an iterator chain. */
  function SnapshotOf<T>(entries: seq<T>, limit: nat): seq<T> {
    Reverse(Take(Reverse(entries), AtLeastOne(limit)))
  }

  lemma SnapshotIsWindow<T>(entries: seq<T>, limit: nat)
    ensures SnapshotOf(entries, limit) == LastN(entries, AtLeastOne(limit))
  {
    var n := AtLeastOne(limit);
    var newest := Take(Reverse(entries), n);
    assert |newest| == |LastN(entries, n)|;
    forall i | 0 <= i < |newest| ensures Reverse(newest)[i] == LastN(entries, n)[i] {
      assert Reverse(newest)[i] == newest[|newest| - 1 - i];
    }
  }

  /** What a checkpoint reports and, where a path is configured, leaves in the checkpoint file. */
  datatype CheckpointRecord = CheckpointRecord(ts: string, lastHash: Option<string>)

  /** The calls in `log` lead to this history and these files. */
  ghost predicate LogOk<T>(cfg: FileConfig<T>, maxEntries: nat, log: seq<Operation<T>>, history: seq<T>, files: Files<T>) {
    var s := Run(cfg, maxEntries, log);
    s.history == history && s.files == files
  }

  lemma LogRecorded<T>(cfg: FileConfig<T>, maxEntries: nat, log: seq<Operation<T>>, history: seq<T>, files: Files<T>, line: T)
    requires LogOk(cfg, maxEntries, log, history, files)
    ensures LogOk(cfg, maxEntries, log + [Operation.Record(line)], history + [line], Write(cfg, files, line))
  {
    RunSnoc(cfg, maxEntries, log, Operation.Record(line));
  }

  lemma LogCheckpointed<T>(cfg: FileConfig<T>, maxEntries: nat, log: seq<Operation<T>>, history: seq<T>, files: Files<T>)
    requires LogOk(cfg, maxEntries, log, history, files)
    ensures LogOk(cfg, maxEntries, log + [Operation.Checkpoint], history, files[0 := LastN(history, maxEntries)])
  {
    RunSnoc(cfg, maxEntries, log, Operation.Checkpoint);
  }

  /** The file, if there is one, holds the hash of the first `n` entries. */
  ghost predicate HoldsPrefixHash(file: Option<CheckpointRecord>, history: seq<Entry>, n: nat) {
    n <= |history| && (file.Some? ==> file.value.lastHash == EndHash(None, history[..n]))
  }

  lemma PrefixHashKept(file: Option<CheckpointRecord>, history: seq<Entry>, n: nat, e: Entry)
    requires HoldsPrefixHash(file, history, n)
    ensures HoldsPrefixHash(file, history + [e], n)
  {
    assert (history + [e])[..n] == history[..n];
  }

  lemma WholeHash(ts: string, history: seq<Entry>)
    ensures HoldsPrefixHash(Some(CheckpointRecord(ts, EndHash(None, history))), history, |history|)
  {
    assert history[..|history|] == history;
  }

  class AuditLog {
    const digest: Digest
    const maxEntries: nat
    const logging: bool
    const checkpointing: bool
    const cfg: FileConfig<Entry>
    var entries: seq<Entry>
    var lastHash: Option<string>
    var files: Files<Entry>
    var checkpointFile: Option<CheckpointRecord>
    ghost var history: seq<Entry>
    ghost var checkpointed: nat
    ghost var log: seq<Operation<Entry>>

    ghost predicate Valid()
      reads this
    {
      && maxEntries > 0
      && Verifies(digest, None, history)
      && lastHash == EndHash(None, history)
      && entries == LastN(history, maxEntries)
      && HoldsPrefixHash(checkpointFile, history, checkpointed)
      && (logging ==> LogOk(cfg, maxEntries, log, history, files))
    }

    constructor (digest: Digest, maxEntries: nat, logging: bool, checkpointing: bool, cfg: FileConfig<Entry>)
      ensures Valid()
      ensures this.digest == digest && this.logging == logging && this.checkpointing == checkpointing && this.cfg == cfg
      ensures this.maxEntries == if maxEntries == 0 then 1 else maxEntries
      ensures history == [] && files == map[] && log == [] && checkpointFile == None
    {
      this.digest, this.logging, this.checkpointing, this.cfg := digest, logging, checkpointing, cfg;
      this.maxEntries := AtLeastOne(maxEntries);
      entries, lastHash, files, checkpointFile := [], None, map[], None;
      history, log, checkpointed := [], [], 0;
    }

    /** The rename loop: from the highest index down, each file takes the place above it. */
    method RotateIfNeeded()
      modifies this`files
      ensures files == Rotate(cfg, old(files))
    {
      if !cfg.RotationOn() || 0 !in files || cfg.Size(files[0]) < cfg.maxBytes.value {
        return;
      }
      ghost var before := files;
      var idx := cfg.maxFiles;
      assert forall i: nat :: RenamedAt(before, files, cfg.maxFiles, idx, i);
      while idx >= 1
        invariant 0 <= idx <= cfg.maxFiles
        invariant Renamed(before, files, cfg.maxFiles, idx)
      {
        StepRenames(before, files, cfg.maxFiles, idx);
        if idx == cfg.maxFiles && idx in files {
          files := files - {idx};
        }
        var previous := idx - 1;
        if previous in files {
          files := (files - {previous})[idx := files[previous]];
        }
        idx := previous;
      }
      RenamesShift(before, files, cfg.maxFiles);
    }

    method AppendEntry(e: Entry)
      modifies this`files
      ensures files == AppendLine(old(files), e)
    {
      var lines := if 0 in files then files[0] else [];
      files := files[0 := lines + [e]];
    }

    method Record(e: Entry)
      requires Valid()
      modifies this
      ensures Valid()
      ensures history == old(history) + [Seal(digest, old(lastHash), e)]
      ensures var x := history[|history| - 1];
        && x.prevHash == old(lastHash) && x.hash == Some(digest(x.(hash := None)))
        && x.(prevHash := None, hash := None) == e.(prevHash := None, hash := None)
      ensures log == old(log) + [Operation.Record(history[|history| - 1])]
      ensures files == if logging then Write(cfg, old(files), history[|history| - 1]) else old(files)
      ensures checkpointFile == old(checkpointFile)
    {
      var entry := e.(prevHash := lastHash);
      entry := entry.(hash := Some(HashEntry(digest, entry)));
      SealExtends(digest, None, history, e);
      PushWindow(history, entry, maxEntries);
      PrefixHashKept(checkpointFile, history, checkpointed, entry);
      if logging {
        LogRecorded(cfg, maxEntries, log, history, files, entry);
      }
      lastHash := entry.hash;
      history := history + [entry];
      if logging {
        WriteLine(entry);
      }
      Push(entry);
      log := log + [Operation.Record(entry)];
    }

    method WriteLine(e: Entry)
      modifies this`files
      ensures files == Write(cfg, old(files), e)
    {
      RotateIfNeeded();
      AppendEntry(e);
    }

    method Push(e: Entry)
      requires |entries| <= maxEntries
      modifies this`entries
      ensures entries == LastN(old(entries) + [e], maxEntries)
    {
      entries := entries + [e];
      while |entries| > maxEntries
        invariant IsSuffix(entries, old(entries) + [e])
        invariant |entries| >= maxEntries || entries == old(entries) + [e]
        decreases |entries|
      {
        entries := entries[1..];
      }
    }

    method Snapshot(limit: nat) returns (r: seq<Entry>)
      requires Valid()
      ensures var n := if limit == 0 then 1 else limit; r == LastN(history, if n < maxEntries then n else maxEntries)
    {
      r := SnapshotOf(entries, limit);
      SnapshotIsWindow(entries, limit);
    }

    /**
      The base log file is replaced by the ring, rotated files stay, and the report goes to the
      checkpoint file.
     */
    method Checkpoint(ts: string) returns (report: CheckpointRecord)
      requires Valid()
      modifies this`files, this`log, this`checkpointFile, this`checkpointed
      ensures Valid()
      ensures log == old(log) + [Operation.Checkpoint]
      ensures report == CheckpointRecord(ts, EndHash(None, history))
      ensures checkpointFile == if checkpointing then Some(report) else old(checkpointFile)
      ensures files == if logging then old(files)[0 := LastN(history, maxEntries)] else old(files)
      ensures logging && history != [] ==> files[0] != [] && files[0][|files[0]| - 1].hash == report.lastHash
    {
      var reported := lastHash;
      if logging {
        LogCheckpointed(cfg, maxEntries, log, history, files);
        RewriteLog();
        if history != [] {
          WindowEnds(files, history, maxEntries);
        }
      }
      report := CheckpointRecord(ts, reported);
      if checkpointing {
        WholeHash(ts, history);
        checkpointFile, checkpointed := Some(report), |history|;
      }
      log := log + [Operation.Checkpoint];
    }

    method RewriteLog()
      requires Valid()
      modifies this`files
      ensures files == old(files)[0 := LastN(history, maxEntries)]
    {
      var snapshot := Snapshot(maxEntries);
      files := files[0 := snapshot];
    }
  }

  /** A written window ends in the hash of the history. */
  lemma WindowEnds(files: Files<Entry>, history: seq<Entry>, n: nat)
    requires n > 0 && history != [] && 0 in files && files[0] == LastN(history, n)
    ensures files[0] != [] && files[0][|files[0]| - 1].hash == EndHash(None, history)
  {}

  lemma PushWindow<T>(history: seq<T>, x: T, n: nat)
    requires n > 0
    ensures LastN(LastN(history, n) + [x], n) == LastN(history + [x], n)
  {}

  /** Place `i` after the renames for the indices above `idx`, against the files before the loop. */
  ghost predicate RenamedAt<T>(before: map<nat, T>, files: map<nat, T>, m: nat, idx: nat, i: nat) {
    if idx < i <= m then (i in files <==> i - 1 in before) && (i in files ==> files[i] == before[i - 1])
    else if i == idx && idx < m then i !in files
    else (i in files <==> i in before) && (i in files ==> files[i] == before[i])
  }

  ghost predicate Renamed<T>(before: map<nat, T>, files: map<nat, T>, m: nat, idx: nat) {
    forall i: nat :: RenamedAt(before, files, m, idx, i)
  }

  /** One round of the rename loop. */
  function RenameStep<T>(files: map<nat, T>, m: nat, idx: nat): map<nat, T>
    requires 0 < idx
  {
    var cleared := if idx == m && idx in files then files - {idx} else files;
    if idx - 1 in cleared then (cleared - {idx - 1})[idx := cleared[idx - 1]] else cleared
  }

  lemma StepRenames<T>(before: map<nat, T>, files: map<nat, T>, m: nat, idx: nat)
    requires 0 < idx <= m && Renamed(before, files, m, idx)
    ensures Renamed(before, RenameStep(files, m, idx), m, idx - 1)
  {
    var files', below := RenameStep(files, m, idx), idx - 1;
    forall i: nat ensures RenamedAt(before, files', m, below, i) {
      assert RenamedAt(before, files, m, idx, i);
      assert RenamedAt(before, files, m, idx, below);
    }
  }

  lemma RenamesShift<T>(before: map<nat, T>, files: map<nat, T>, m: nat)
    requires m > 0 && Renamed(before, files, m, 0)
    ensures files == Shift(before, m)
  {
    var shifted := Shift(before, m);
    forall i: nat
      ensures i in files <==> i in shifted
      ensures i in files ==> files[i] == shifted[i]
    {
      assert RenamedAt(before, files, m, 0, i);
    }
  }
}
