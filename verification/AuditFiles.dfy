/**
  The audit log files and what a run of writes leaves in them.

  File 0 is the configured log path and file `i > 0` is `path.i`. A file holds one entry a line, of
  some type `T`; `lineLength` gives the bytes of an entry's line with its newline.
 */
module AuditFiles {
  import opened Options
  import opened Sequences

  type Files<T> = map<nat, seq<T>>

  datatype FileConfig<!T> = FileConfig(lineLength: T -> nat, maxBytes: Option<nat>, maxFiles: nat)
  {
    predicate RotationOn() {
      maxBytes.Some? && maxBytes.value > 0 && maxFiles > 0
    }

    function Size(lines: seq<T>): nat {
      if lines == [] then 0 else lineLength(lines[0]) + Size(lines[1..])
    }

    /** Whether the next entry starts a new file after one that holds `lines`. */
    predicate Full(lines: seq<T>) {
      RotationOn() && Size(lines) >= maxBytes.value
    }
  }

  predicate HasBelow<T>(files: map<nat, T>, i: nat) {
    i > 0 && i - 1 in files
  }

  function Below<T>(files: map<nat, T>, i: nat): T
    requires HasBelow(files, i)
  {
    files[i - 1]
  }

  /** Every file up to index `m - 1` moves up by one, the file at `m` goes, later ones stay. */
  function Shift<T>(files: map<nat, T>, m: nat): (r: map<nat, T>)
    ensures 0 !in r
    ensures forall i: nat {:trigger i in r} | 0 < i <= m :: i in r <==> i - 1 in files
    ensures forall i: nat {:trigger r[i]} | 0 < i <= m && i in r :: r[i] == files[i - 1]
    ensures forall i: nat {:trigger i in r} | i > m :: i in r <==> i in files
    ensures forall i: nat {:trigger r[i]} | i > m && i in r :: r[i] == files[i]
  {
    (map i: nat | 0 < i <= m && HasBelow(files, i) :: Below(files, i)) +
    (map i: nat | i in files && i > m :: files[i])
  }

  function Rotate<T>(cfg: FileConfig<T>, files: Files<T>): Files<T> {
    if 0 in files && cfg.Full(files[0]) then Shift(files, cfg.maxFiles) else files
  }

  /** The files after `record` has written `e`. */
  function Write<T>(cfg: FileConfig<T>, files: Files<T>, e: T): Files<T> {
    AppendLine(Rotate(cfg, files), e)
  }

  function AppendLine<T>(files: Files<T>, e: T): Files<T> {
    files[0 := (if 0 in files then files[0] else []) + [e]]
  }

  function WriteAll<T>(cfg: FileConfig<T>, history: seq<T>): Files<T> {
    if history == [] then map[]
    else Write(cfg, WriteAll(cfg, history[..|history| - 1]), history[|history| - 1])
  }

  /** The rule in the documentation: rotate when the size exceeds the limit. */
  function DocumentedRotate<T>(cfg: FileConfig<T>, files: Files<T>): Files<T> {
    if 0 in files && cfg.RotationOn() && cfg.Size(files[0]) > cfg.maxBytes.value then Shift(files, cfg.maxFiles) else files
  }

  /** The size of a file is the sum of its lines. */
  lemma {:induction false} SizeAddsUp<T>(cfg: FileConfig<T>, a: seq<T>, b: seq<T>, x: T)
    ensures cfg.Size(a + b) == cfg.Size(a) + cfg.Size(b)
    ensures cfg.Size([x]) == cfg.lineLength(x) && cfg.Size([]) == 0
  {
    assert [x][1..] == [];
    if a == [] {
      assert a + b == b;
    } else {
      assert (a + b)[1..] == a[1..] + b;
      SizeAddsUp(cfg, a[1..], b, x);
    }
  }

  /** Without a limit, with a limit of zero or without rotated files the base file only grows. */
  lemma RotatesOnlyWithLimit<T>(cfg: FileConfig<T>, files: Files<T>, e: T)
    requires cfg.maxBytes == None || cfg.maxBytes == Some(0) || cfg.maxFiles == 0
    ensures Write(cfg, files, e) == files[0 := (if 0 in files then files[0] else []) + [e]]
  {}

  /** Rotation takes the base file away as soon as it reaches the limit; at the limit the documented rule waits. */
  lemma RotatesAtLimit<T>(cfg: FileConfig<T>, files: Files<T>)
    requires cfg.maxBytes.Some? && cfg.maxBytes.value > 0 && cfg.maxFiles > 0 && 0 in files
    ensures 0 !in Rotate(cfg, files) <==> cfg.Size(files[0]) >= cfg.maxBytes.value
    ensures Rotate(cfg, files) != DocumentedRotate(cfg, files) <==> cfg.Size(files[0]) == cfg.maxBytes.value
  {
    var shifted := Shift(files, cfg.maxFiles);
    assert 0 !in shifted;
  }

  /** A run of records after which the two rules differ: one line as long as the limit. */
  lemma LimitIsReached<T>(lineLength: T -> nat, line: T, next: T) returns (cfg: FileConfig<T>)
    requires lineLength(line) > 0
    ensures cfg.lineLength == lineLength && cfg.RotationOn()
    ensures var files := WriteAll(cfg, [line]);
      0 in files && cfg.Size(files[0]) == cfg.maxBytes.value && Rotate(cfg, files) != DocumentedRotate(cfg, files)
    ensures var files := WriteAll(cfg, [line, next]); 0 in files && 1 in files && files[0] == [next] && files[1] == [line]
  {
    cfg := FileConfig(lineLength, Some(lineLength(line)), 1);
    var none: Files<T> := WriteAll(cfg, []);
    var one := WriteAll(cfg, [line]);
    assert [line][..0] == [];
    assert one == Write(cfg, none, line);
    assert one[0] == [] + [line] == [line];
    assert [line][1..] == [] && cfg.Size([line]) == lineLength(line) + cfg.Size([line][1..]);
    RotatesAtLimit(cfg, one);
    assert [line, next][..1] == [line];
    assert WriteAll(cfg, [line, next]) == Write(cfg, one, next);
    assert [] + [next] == [next];
  }

  // ---- Records only -----------------------------------------------------------------------

  /** One more line goes to the newest segment, which is the first, unless that one is full. */
  function Extend<T>(cfg: FileConfig<T>, segments: seq<seq<T>>, e: T): seq<seq<T>> {
    if segments == [] || cfg.Full(segments[0]) then [[e]] + segments
    else segments[0 := segments[0] + [e]]
  }

  /** The history cut greedily, newest segment first: a segment closes as soon as it is full. */
  function Segments<T>(cfg: FileConfig<T>, history: seq<T>): seq<seq<T>> {
    if history == [] then []
    else Extend(cfg, Segments(cfg, history[..|history| - 1]), history[|history| - 1])
  }

  /** The lines of `segments`, given newest first, in the order they were written. */
  function Flatten<T>(segments: seq<seq<T>>): seq<T> {
    if segments == [] then [] else Flatten(segments[1..]) + segments[0]
  }

  /** The file map that holds `segments`, the newest in file 0. */
  function AsFiles<T>(segments: seq<seq<T>>): Files<T> {
    map i: nat | i < |segments| :: segments[i]
  }

  /** A segment that became full, if at all, only with its last line. */
  ghost predicate Compact<T>(cfg: FileConfig<T>, segment: seq<T>) {
    segment != [] && !cfg.Full(segment[..|segment| - 1])
  }

  ghost predicate Cut<T>(cfg: FileConfig<T>, segments: seq<seq<T>>) {
    && (forall k | 0 <= k < |segments| :: Compact(cfg, segments[k]))
    && (forall k | 0 < k < |segments| :: cfg.Full(segments[k]))
  }

  lemma ExtendCuts<T>(cfg: FileConfig<T>, segments: seq<seq<T>>, e: T)
    requires Cut(cfg, segments)
    ensures Cut(cfg, Extend(cfg, segments, e))
    ensures Flatten(Extend(cfg, segments, e)) == Flatten(segments) + [e]
  {
    if segments == [] || cfg.Full(segments[0]) {
      assert [e][..0] == [];
      assert ([[e]] + segments)[1..] == segments;
    } else {
      var grown := segments[0] + [e];
      assert grown[..|grown| - 1] == segments[0];
      assert segments[0 := grown][1..] == segments[1..];
      assert Flatten(segments[1..]) + grown == Flatten(segments[1..]) + segments[0] + [e];
    }
  }

  lemma {:induction false} SegmentsCutHistory<T>(cfg: FileConfig<T>, history: seq<T>)
    ensures Cut(cfg, Segments(cfg, history))
    ensures Flatten(Segments(cfg, history)) == history
  {
    if history != [] {
      var n := |history| - 1;
      var before := Segments(cfg, history[..n]);
      SegmentsCutHistory(cfg, history[..n]);
      ExtendCuts(cfg, before, history[n]);
      assert Segments(cfg, history) == Extend(cfg, before, history[n]);
      assert history == history[..n] + [history[n]];
    }
  }

  lemma ShiftAsFiles<T>(segments: seq<seq<T>>, m: nat, newest: seq<T>)
    requires |segments| <= m + 1
    ensures Shift(AsFiles(segments), m)[0 := newest] == AsFiles([newest] + Take(segments, m))
  {
    var left, right := Shift(AsFiles(segments), m)[0 := newest], AsFiles([newest] + Take(segments, m));
    forall i: nat
      ensures i in left <==> i in right
      ensures i in left ==> left[i] == right[i]
    {
      if 0 < i <= m {
        assert i in left <==> i - 1 in AsFiles(segments);
      }
    }
  }

  lemma GrowAsFiles<T>(segments: seq<seq<T>>, grown: seq<T>)
    requires segments != []
    ensures AsFiles(segments)[0 := grown] == AsFiles(segments[0 := grown])
  {
    var left, right := AsFiles(segments)[0 := grown], AsFiles(segments[0 := grown]);
    assert left.Keys == right.Keys;
    forall i: nat | i in left ensures left[i] == right[i] {}
  }

  lemma WriteFirst<T>(cfg: FileConfig<T>, e: T)
    ensures Write(cfg, AsFiles([]), e) == AsFiles([[e]])
  {
    var none: Files<T> := AsFiles([]);
    assert 0 !in none && [] + [e] == [e];
  }

  lemma WriteRotates<T>(cfg: FileConfig<T>, kept: seq<seq<T>>, e: T)
    requires kept != [] && cfg.Full(kept[0]) && |kept| <= cfg.maxFiles + 1
    ensures Write(cfg, AsFiles(kept), e) == AsFiles([[e]] + Take(kept, cfg.maxFiles))
  {
    ShiftAsFiles(kept, cfg.maxFiles, [e]);
    assert [] + [e] == [e];
  }

  lemma WriteGrows<T>(cfg: FileConfig<T>, kept: seq<seq<T>>, e: T)
    requires kept != [] && !cfg.Full(kept[0])
    ensures Write(cfg, AsFiles(kept), e) == AsFiles(kept[0 := kept[0] + [e]])
  {
    GrowAsFiles(kept, kept[0] + [e]);
  }

  lemma WriteExtends<T>(cfg: FileConfig<T>, segments: seq<seq<T>>, e: T)
    requires cfg.RotationOn() || |segments| <= 1
    ensures Write(cfg, AsFiles(Take(segments, cfg.maxFiles + 1)), e)
         == AsFiles(Take(Extend(cfg, segments, e), cfg.maxFiles + 1))
  {
    var m := cfg.maxFiles;
    var kept := Take(segments, m + 1);
    if segments == [] {
      WriteFirst(cfg, e);
    } else if cfg.Full(segments[0]) {
      WriteRotates(cfg, kept, e);
      assert Take([[e]] + segments, m + 1) == [[e]] + Take(kept, m);
    } else {
      WriteGrows(cfg, kept, e);
      assert Take(Extend(cfg, segments, e), m + 1) == kept[0 := segments[0] + [e]];
    }
  }

  /**
    The refinement: after any run of records, from no files, the log files are exactly the newest
    `maxFiles + 1` segments of the greedy cut of the whole history.
   */
  lemma {:induction false} FilesAreNewestSegments<T>(cfg: FileConfig<T>, history: seq<T>)
    ensures WriteAll(cfg, history) == AsFiles(Take(Segments(cfg, history), cfg.maxFiles + 1))
  {
    if history != [] {
      var n := |history| - 1;
      var before := Segments(cfg, history[..n]);
      FilesAreNewestSegments(cfg, history[..n]);
      SegmentsCutHistory(cfg, history[..n]);
      if |before| > 1 {
        assert cfg.Full(before[1]);
      }
      WriteExtends(cfg, before, history[n]);
    }
  }

  /** The lines of files `count - 1` down to `first`: the oldest file first. */
  function OldestToNewest<T>(files: Files<T>, first: nat, count: nat): seq<T>
    requires forall i: nat | i < count :: i in files
    decreases count - first
  {
    if first >= count then [] else OldestToNewest(files, first + 1, count) + files[first]
  }

  lemma {:induction false} FlattenConcat<T>(a: seq<seq<T>>, b: seq<seq<T>>)
    ensures Flatten(a + b) == Flatten(b) + Flatten(a)
  {
    if a == [] {
      assert a + b == b;
    } else {
      assert (a + b)[1..] == a[1..] + b;
      FlattenConcat(a[1..], b);
    }
  }

  lemma {:induction false} OldestToNewestFlattens<T>(segments: seq<seq<T>>, first: nat)
    requires first <= |segments|
    ensures OldestToNewest(AsFiles(segments), first, |segments|) == Flatten(segments[first..])
    decreases |segments| - first
  {
    if first < |segments| {
      OldestToNewestFlattens(segments, first + 1);
      assert segments[first..][1..] == segments[first + 1..];
    }
  }

  /** No file was full before its last line, and every rotated file is full. */
  ghost predicate WellSized<T>(cfg: FileConfig<T>, files: Files<T>, count: nat)
    requires forall i: nat | i < count :: i in files
  {
    forall i: nat | i < count :: Compact(cfg, files[i]) && (i > 0 ==> cfg.Full(files[i]))
  }

  /**
    What the files promise about `history`: they are numbered without holes, they are well sized,
    oldest to newest they spell a suffix of the history, and entries are missing from them only when
    all `maxFiles` rotated files exist.
   */
  ghost predicate Retains<T>(cfg: FileConfig<T>, files: Files<T>, history: seq<T>, count: nat) {
    && (forall i: nat :: i in files <==> i < count)
    && WellSized(cfg, files, count)
    && IsSuffix(OldestToNewest(files, 0, count), history)
    && (OldestToNewest(files, 0, count) != history ==> cfg.RotationOn() && count == cfg.maxFiles + 1)
  }

  lemma RetainedFiles<T>(cfg: FileConfig<T>, history: seq<T>)
    ensures exists count :: Retains(cfg, WriteAll(cfg, history), history, count)
  {
    var all := Segments(cfg, history);
    FilesAreNewestSegments(cfg, history);
    SegmentsCutHistory(cfg, history);
    NewestSegmentsRetain(cfg, all);
    assert Retains(cfg, WriteAll(cfg, history), history, |Take(all, cfg.maxFiles + 1)|);
  }

  lemma NewestSpellSuffix<T>(all: seq<seq<T>>, n: nat)
    requires n <= |all|
    ensures var kept := all[..n];
      && IsSuffix(OldestToNewest(AsFiles(kept), 0, n), Flatten(all))
      && (n == |all| ==> OldestToNewest(AsFiles(kept), 0, n) == Flatten(all))
  {
    var kept, lost := all[..n], all[n..];
    OldestToNewestFlattens(kept, 0);
    assert kept[0..] == kept;
    assert all == kept + lost;
    FlattenConcat(kept, lost);
  }

  lemma NewestSegmentsRetain<T>(cfg: FileConfig<T>, all: seq<seq<T>>)
    requires Cut(cfg, all)
    ensures var kept := Take(all, cfg.maxFiles + 1); Retains(cfg, AsFiles(kept), Flatten(all), |kept|)
  {
    var n := |Take(all, cfg.maxFiles + 1)|;
    assert Take(all, cfg.maxFiles + 1) == all[..n];
    NewestSpellSuffix(all, n);
    if n < |all| {
      assert cfg.Full(all[n]);
    }
  }

  // ---- Records mixed with checkpoints -----------------------------------------------------

  datatype Operation<T> = Record(line: T) | Checkpoint

  /** `ends[i]` is how much of the history had been recorded when file `i` last changed. */
  datatype Ledger<T> = Ledger(history: seq<T>, files: Files<T>, ends: map<nat, nat>)

  ghost function RotateEnds<T>(cfg: FileConfig<T>, s: Ledger<T>): map<nat, nat> {
    if 0 in s.files && cfg.Full(s.files[0]) then Shift(s.ends, cfg.maxFiles) else s.ends
  }

  ghost function Apply<T>(cfg: FileConfig<T>, maxEntries: nat, s: Ledger<T>, op: Operation<T>): Ledger<T> {
    match op
    case Record(line) =>
      Ledger(s.history + [line], Write(cfg, s.files, line), RotateEnds(cfg, s)[0 := |s.history| + 1])
    case Checkpoint =>
      Ledger(s.history, s.files[0 := LastN(s.history, maxEntries)], s.ends[0 := |s.history|])
  }

  ghost function Run<T>(cfg: FileConfig<T>, maxEntries: nat, ops: seq<Operation<T>>): Ledger<T> {
    if ops == [] then Ledger([], map[], map[])
    else Apply(cfg, maxEntries, Run(cfg, maxEntries, ops[..|ops| - 1]), ops[|ops| - 1])
  }

  lemma RunSnoc<T>(cfg: FileConfig<T>, maxEntries: nat, ops: seq<Operation<T>>, op: Operation<T>)
    ensures Run(cfg, maxEntries, ops + [op]) == Apply(cfg, maxEntries, Run(cfg, maxEntries, ops), op)
  {
    assert (ops + [op])[..|ops + [op]| - 1] == ops;
  }

  /** Without checkpoints the files are a function of the history alone. */
  lemma {:induction false} RecordsOnlyRun<T>(cfg: FileConfig<T>, maxEntries: nat, ops: seq<Operation<T>>)
    requires forall op | op in ops :: op.Record?
    ensures var s := Run(cfg, maxEntries, ops); s.files == WriteAll(cfg, s.history)
  {
    if ops != [] {
      var n := |ops| - 1;
      RecordsOnlyRun(cfg, maxEntries, ops[..n]);
      var before := Run(cfg, maxEntries, ops[..n]);
      assert ops[n].Record?;
      var history := before.history + [ops[n].line];
      assert history[..|history| - 1] == before.history;
    }
  }

  /** `lines` are the part of the history that ends at position `end`. */
  ghost predicate EndsAt<T>(lines: seq<T>, history: seq<T>, end: nat) {
    |lines| <= end <= |history| && lines == history[end - |lines|..end]
  }

  /** Every file is a contiguous part of the history. */
  ghost predicate Pieces<T>(files: Files<T>, ends: map<nat, nat>, history: seq<T>) {
    && (forall i: nat :: i in files <==> i in ends)
    && (forall i: nat | i in files :: EndsAt(files[i], history, ends[i]))
  }

  /** A file with a higher number ends strictly earlier in the history. */
  ghost predicate Aged(ends: map<nat, nat>) {
    forall i: nat, j: nat | i < j && i in ends && j in ends :: ends[j] < ends[i]
  }

  /** File 0 reaches the end of the history, and is empty only with it. */
  ghost predicate Current<T>(s: Ledger<T>) {
    && (s.history != [] ==> 0 in s.files)
    && (s.ends.Keys != {} ==> 0 in s.ends && s.ends[0] == |s.history|)
    && (0 in s.files && s.history != [] ==> s.files[0] != [])
  }

  lemma ShiftKeepsPieces<T>(files: Files<T>, ends: map<nat, nat>, history: seq<T>, m: nat)
    requires Pieces(files, ends, history)
    ensures Pieces(Shift(files, m), Shift(ends, m), history)
  {
    var files', ends' := Shift(files, m), Shift(ends, m);
    forall i: nat
      ensures i in files' <==> i in ends'
      ensures i in files' ==> EndsAt(files'[i], history, ends'[i])
    {
      var k: nat := if 0 < i <= m then i - 1 else i;
      assert k in files <==> k in ends;
      assert k in files ==> EndsAt(files[k], history, ends[k]);
    }
  }

  lemma ShiftKeepsAged(ends: map<nat, nat>, m: nat)
    requires Aged(ends)
    ensures Aged(Shift(ends, m))
  {
    var ends' := Shift(ends, m);
    forall i: nat, j: nat | i < j && i in ends' && j in ends' ensures ends'[j] < ends'[i] {
      var i0: nat, j0: nat := if i <= m then i - 1 else i, if j <= m then j - 1 else j;
      assert i0 < j0 && i0 in ends && j0 in ends;
    }
  }

  lemma EndsAtStill<T>(lines: seq<T>, history: seq<T>, end: nat, line: T)
    requires EndsAt(lines, history, end)
    ensures EndsAt(lines, history + [line], end)
  {
    assert (history + [line])[end - |lines|..end] == history[end - |lines|..end];
  }

  lemma EndsAtGrown<T>(lines: seq<T>, history: seq<T>, line: T)
    requires EndsAt(lines, history, |history|)
    ensures EndsAt(lines + [line], history + [line], |history| + 1)
  {
    assert (history + [line])[|history| - |lines|..|history| + 1] == history[|history| - |lines|..] + [line];
  }

  lemma GrowKeepsPieces<T>(files: Files<T>, ends: map<nat, nat>, history: seq<T>, line: T)
    requires Pieces(files, ends, history)
    requires 0 in files ==> ends[0] == |history|
    ensures Pieces(AppendLine(files, line), ends[0 := |history| + 1], history + [line])
  {
    var files', ends' := AppendLine(files, line), ends[0 := |history| + 1];
    EndsAtGrown(if 0 in files then files[0] else [], history, line);
    forall i: nat | i in files' ensures EndsAt(files'[i], history + [line], ends'[i]) {
      if i > 0 {
        EndsAtStill(files[i], history, ends[i], line);
      }
    }
  }

  lemma ReplaceKeepsPieces<T>(files: Files<T>, ends: map<nat, nat>, history: seq<T>, n: nat)
    requires Pieces(files, ends, history)
    ensures Pieces(files[0 := LastN(history, n)], ends[0 := |history|], history)
  {
    var files', ends' := files[0 := LastN(history, n)], ends[0 := |history|];
    forall i: nat
      ensures i in files' <==> i in ends'
      ensures i in files' ==> EndsAt(files'[i], history, ends'[i])
    {
      assert i in files <==> i in ends;
      assert i in files ==> EndsAt(files[i], history, ends[i]);
    }
  }

  lemma NewestKeepsAged(ends: map<nat, nat>, now: nat)
    requires Aged(ends)
    requires forall i: nat | 0 < i && i in ends :: ends[i] < now
    ensures Aged(ends[0 := now])
  {}

  lemma ApplyKeeps<T>(cfg: FileConfig<T>, maxEntries: nat, s: Ledger<T>, op: Operation<T>)
    requires maxEntries > 0
    requires Pieces(s.files, s.ends, s.history) && Aged(s.ends) && Current(s)
    ensures var s' := Apply(cfg, maxEntries, s, op);
      Pieces(s'.files, s'.ends, s'.history) && Aged(s'.ends) && Current(s')
  {
    match op
    case Record(line) =>
      if 0 in s.files && cfg.Full(s.files[0]) {
        ShiftKeepsPieces(s.files, s.ends, s.history, cfg.maxFiles);
        ShiftKeepsAged(s.ends, cfg.maxFiles);
      }
      var files, ends := Rotate(cfg, s.files), RotateEnds(cfg, s);
      assert Pieces(files, ends, s.history) && Aged(ends);
      GrowKeepsPieces(files, ends, s.history, line);
      forall i: nat | i in ends ensures ends[i] <= |s.history| {
        assert i in files && EndsAt(files[i], s.history, ends[i]);
      }
      NewestKeepsAged(ends, |s.history| + 1);
    case Checkpoint =>
      ReplaceKeepsPieces(s.files, s.ends, s.history, maxEntries);
      NewestKeepsAged(s.ends, |s.history|);
  }

  /**
    Over every run of non-overlapping records and checkpoints: every file is a contiguous piece of
    the history, older files end strictly earlier than newer ones, and file 0 is a suffix of the
    history that is empty only when nothing was recorded.
   */
  lemma {:induction false} MixedRunKeepsPieces<T>(cfg: FileConfig<T>, maxEntries: nat, ops: seq<Operation<T>>)
    requires maxEntries > 0
    ensures var s := Run(cfg, maxEntries, ops);
      && Pieces(s.files, s.ends, s.history) && Aged(s.ends)
      && (s.history != [] ==> 0 in s.files && s.files[0] != [])
      && (0 in s.files ==> IsSuffix(s.files[0], s.history))
  {
    MixedRunKeeps(cfg, maxEntries, ops);
    var s := Run(cfg, maxEntries, ops);
    if 0 in s.files {
      assert 0 in s.ends && EndsAt(s.files[0], s.history, s.ends[0]);
    }
  }

  lemma {:induction false} MixedRunKeeps<T>(cfg: FileConfig<T>, maxEntries: nat, ops: seq<Operation<T>>)
    requires maxEntries > 0
    ensures var s := Run(cfg, maxEntries, ops); Pieces(s.files, s.ends, s.history) && Aged(s.ends) && Current(s)
  {
    if ops != [] {
      var n := |ops| - 1;
      MixedRunKeeps(cfg, maxEntries, ops[..n]);
      ApplyKeeps(cfg, maxEntries, Run(cfg, maxEntries, ops[..n]), ops[n]);
    }
  }
}
