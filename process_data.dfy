/** `process_data`: gather the JSON files found under a directory, then run
    one transformer on each file in turn, committing after each one. */
module ProcessData {
  import opened Wrappers
  import opened Records
  import opened Sorting
  import opened Sink
  import opened SongFile
  import opened LogFile
  import opened LogFileTrace

  /** The `func` argument: which of the two file transformers to run. */
  datatype Transformer = ProcessSongFiles | ProcessLogFiles

  /** What `pd.read_json(filepath, lines=True)` yields for one file: the
      records of a song file or the events of a log file. */
  datatype DataFile = SongData(records: seq<SongRecord>) | LogData(events: seq<LogEvent>)

  /** The `.json` paths that `glob` returns for each directory `os.walk`
      visits, in visiting order, appended one by one. */
  function Flatten(found: seq<seq<string>>): (paths: seq<string>)
    ensures |found| == 0 ==> paths == []
  {
    if found == [] then [] else Flatten(found[..|found| - 1]) + found[|found| - 1]
  }

  /** Every path found in any directory is listed, and nothing else. */
  lemma {:induction false} FlattenMembers(found: seq<seq<string>>, path: string)
    ensures path in Flatten(found) <==> exists d :: 0 <= d < |found| && path in found[d]
  {
    if found != [] {
      var init := found[..|found| - 1];
      FlattenMembers(init, path);
      if path in Flatten(found) && path !in found[|found| - 1] {
        var d :| 0 <= d < |init| && path in init[d];
        assert found[d] == init[d];
      }
      if d :| 0 <= d < |found| && path in found[d] {
        if d < |found| - 1 {
          assert init[d] == found[d];
        }
      }
    }
  }

  /** The directories' lists are appended in order: flattening a split list
      is appending the flattened halves. */
  lemma {:induction false} FlattenAppend(a: seq<seq<string>>, b: seq<seq<string>>)
    ensures Flatten(a + b) == Flatten(a) + Flatten(b)
    decreases |b|
  {
    if b != [] {
      var b0 := b[..|b| - 1];
      assert (a + b)[..|a + b| - 1] == a + b0;
      FlattenAppend(a, b0);
    } else {
      assert a + b == a;
    }
  }

  /** The nested loop that builds `all_files`. */
  method CollectFiles(found: seq<seq<string>>) returns (allFiles: seq<string>)
    ensures allFiles == Flatten(found)
  {
    allFiles := [];
    var d := 0;
    while d < |found|
      invariant 0 <= d <= |found|
      invariant allFiles == Flatten(found[..d])
    {
      var files := found[d];
      var k := 0;
      while k < |files|
        invariant 0 <= k <= |files|
        invariant allFiles == Flatten(found[..d]) + files[..k]
      {
        assert files[..k + 1] == files[..k] + [files[k]];
        allFiles := allFiles + [files[k]];
        k := k + 1;
      }
      assert found[..d + 1][..d] == found[..d];
      assert files[..k] == files;
      d := d + 1;
    }
    assert found[..d] == found;
  }

  /** What `func(cur, datafile)` issues, or the error it raises. A file of
      the other kind lacks the columns the transformer selects, and pandas
      raises before any statement is sent. */
  function FileOps(lookup: SongKey -> Option<SongArtist>, func: Transformer, file: DataFile): (r: Result<seq<Op>, Error>)
    ensures (func == ProcessSongFiles) != file.SongData? ==> r == Failure(WrongFileKind)
  {
    match (func, file)
    case (ProcessSongFiles, SongData(records)) => SongFileOps(records)
    case (ProcessLogFiles, LogData(events)) => LogFileOps(lookup, events)
    case _ => Failure(WrongFileKind)
  }

  /** `func(cur, datafile)`: the transformer the driver was given. */
  method Transform(cur: Cursor, func: Transformer, file: DataFile) returns (outcome: Outcome<Error>)
    modifies cur
    ensures outcome == OutcomeOf(FileOps(cur.lookup, func, file))
    ensures cur.trace == old(cur.trace) + Issued(FileOps(cur.lookup, func, file))
  {
    match (func, file)
    case (ProcessSongFiles, SongData(records)) =>
      outcome := ProcessSongFile(cur, records);
    case (ProcessLogFiles, LogData(events)) =>
      outcome := ProcessLogFile(cur, events);
    case _ =>
      outcome := Fail(WrongFileKind);
  }

  /** `func(cur, datafile)` followed by `conn.commit()`: the commit is
      reached only when the transformer returns. */
  method ProcessFile(cur: Cursor, func: Transformer, file: DataFile) returns (outcome: Outcome<Error>)
    modifies cur
    ensures outcome == OutcomeOf(FileOps(cur.lookup, func, file))
    ensures cur.trace == old(cur.trace) + Committed(FileOps(cur.lookup, func, file))
  {
    outcome := Transform(cur, func, file);
    if outcome.Pass? {
      cur.Commit();
    }
  }

  /** What the driver sends for one file: its statements and a commit, or
      nothing when the transformer raises. */
  function Committed(r: Result<seq<Op>, Error>): seq<Op> {
    if r.Success? then r.value + [Commit] else []
  }

  /** The trace sent for a run, how many files were committed, and the
      error that stopped the run, if any. */
  datatype Run = Run(ops: seq<Op>, processed: nat, error: Option<Error>)

  /** The driver loop over the transformers' results, file by file: each
      file's statements followed by a commit, up to the first file whose
      transformer raises. */
  function RunResults(results: seq<Result<seq<Op>, Error>>): (r: Run)
    ensures r.processed <= |results|
    ensures r.error.None? <==> r.processed == |results|
    ensures forall j :: 0 <= j < r.processed ==> results[j].Success?
    ensures r.error.Some? ==> results[r.processed] == Failure(r.error.value)
  {
    if results == [] then Run([], 0, None)
    else
      var prev := RunResults(results[..|results| - 1]);
      var last := results[|results| - 1];
      if prev.error.Some? then prev
      else if last.Success? then Run(prev.ops + Committed(last), prev.processed + 1, None)
      else Run(prev.ops, prev.processed, Some(last.error))
  }

  /** What `func` yields on each file, in order. */
  function FileResults(lookup: SongKey -> Option<SongArtist>, func: Transformer, files: seq<DataFile>): seq<Result<seq<Op>, Error>> {
    MapSeq((f: DataFile) => FileOps(lookup, func, f), files)
  }

  /** Once a file has raised, later files are never opened. */
  lemma {:induction false} RunStopsAtError(results: seq<Result<seq<Op>, Error>>, k: nat)
    requires k <= |results|
    requires RunResults(results[..k]).error.Some?
    ensures RunResults(results) == RunResults(results[..k])
    decreases |results|
  {
    if k < |results| {
      var init := results[..|results| - 1];
      assert init[..k] == results[..k];
      RunStopsAtError(init, k);
    } else {
      assert results[..k] == results;
    }
  }

  /** One more file: its statements and a commit when it succeeds, or the
      error it raises. */
  lemma RunExtends(results: seq<Result<seq<Op>, Error>>, k: nat)
    requires k < |results|
    requires RunResults(results[..k]).error.None?
    ensures var prev := RunResults(results[..k]);
      var r := results[k];
      RunResults(results[..k + 1])
        == if r.Success? then Run(prev.ops + Committed(r), prev.processed + 1, None)
           else Run(prev.ops, prev.processed, Some(r.error))
  {
    assert results[..k + 1][..k] == results[..k];
  }

  function CountCommits(ops: seq<Op>): (c: nat)
    ensures c <= |ops|
  {
    if ops == [] then 0 else CountCommits(ops[..|ops| - 1]) + (if ops[|ops| - 1].Commit? then 1 else 0)
  }

  lemma {:induction false} CountCommitsAppend(a: seq<Op>, b: seq<Op>)
    ensures CountCommits(a + b) == CountCommits(a) + CountCommits(b)
    decreases |b|
  {
    if b != [] {
      var b0 := b[..|b| - 1];
      assert (a + b)[..|a + b| - 1] == a + b0;
      CountCommitsAppend(a, b0);
    } else {
      assert a + b == a;
    }
  }

  predicate NoCommit(ops: seq<Op>) {
    forall k :: 0 <= k < |ops| ==> !ops[k].Commit?
  }

  /** A sequence without a commit in it counts none. */
  lemma {:induction false} NoCommitCountsZero(ops: seq<Op>)
    requires NoCommit(ops)
    ensures CountCommits(ops) == 0
  {
    if ops != [] {
      NoCommitCountsZero(ops[..|ops| - 1]);
    }
  }

  /** The transformers never commit: that is left to the driver. */
  lemma TransformerNeverCommits(lookup: SongKey -> Option<SongArtist>, func: Transformer, file: DataFile)
    requires FileOps(lookup, func, file).Success?
    ensures NoCommit(FileOps(lookup, func, file).value)
  {
    if file.LogData? {
      assert FileOps(lookup, func, file).value == SurvivorOps(lookup, NextSongEvents(file.events));
      SurvivorsNeverCommit(lookup, NextSongEvents(file.events));
    }
  }

  lemma SurvivorsNeverCommit(lookup: SongKey -> Option<SongArtist>, kept: seq<LogEvent>)
    ensures NoCommit(SurvivorOps(lookup, kept))
  {
    var sorted := SortedEvents(kept);
    var times := TimeInserts(TimeRows(kept));
    var users := UserInserts(MapSeq(UserColumns, sorted));
    var plays := SongplayOps(lookup, sorted);
    NoCommitAppend(times, users, plays);
  }

  lemma NoCommitAppend(a: seq<Op>, b: seq<Op>, c: seq<Op>)
    requires NoCommit(a) && NoCommit(b) && NoCommit(c)
    ensures NoCommit(a + b + c)
  {
    forall k | 0 <= k < |a + b + c| ensures !(a + b + c)[k].Commit? {
      if k < |a| {
      } else if k < |a| + |b| {
        assert (a + b + c)[k] == b[k - |a|];
      } else {
        assert (a + b + c)[k] == c[k - |a| - |b|];
      }
    }
  }

  /** Exactly one commit per file processed, when the files' own
      statements hold none. */
  lemma {:induction false} OneCommitPerFile(results: seq<Result<seq<Op>, Error>>)
    requires forall j :: 0 <= j < |results| && results[j].Success? ==> NoCommit(results[j].value)
    ensures CountCommits(RunResults(results).ops) == RunResults(results).processed
  {
    if results != [] {
      var init := results[..|results| - 1];
      var prev := RunResults(init);
      OneCommitPerFile(init);
      var last := results[|results| - 1];
      if prev.error.None? && last.Success? {
        NoCommitCountsZero(last.value);
        CountCommitsAppend(prev.ops, last.value + [Commit]);
        CountCommitsAppend(last.value, [Commit]);
        assert CountCommits([Commit]) == 1 by {
          assert [Commit][..0] == [];
        }
      }
    }
  }

  /** A run of the song or log transformer commits exactly once per file it
      processed. */
  lemma OneCommitPerProcessedFile(lookup: SongKey -> Option<SongArtist>, func: Transformer, files: seq<DataFile>)
    ensures var run := RunResults(FileResults(lookup, func, files));
      CountCommits(run.ops) == run.processed
  {
    var results := FileResults(lookup, func, files);
    forall j | 0 <= j < |results| && results[j].Success? ensures NoCommit(results[j].value) {
      TransformerNeverCommits(lookup, func, files[j]);
    }
    OneCommitPerFile(results);
  }

  /** The progress lines `i/num_files files processed.` printed so far. */
  function Progress(done: nat, numFiles: nat): (lines: seq<(nat, nat)>)
    ensures |lines| == done
    ensures forall j :: 0 <= j < done ==> lines[j] == (j + 1, numFiles)
  {
    if done == 0 then [] else Progress(done - 1, numFiles) + [(done, numFiles)]
  }

  lemma AppendStep(t0: seq<Op>, done: seq<Op>, t1: seq<Op>, more: seq<Op>, t2: seq<Op>)
    requires t1 == t0 + done && t2 == t1 + more
    ensures t2 == t0 + (done + more)
  {
  }

  /** The loop over `all_files`, against `results`, what the transformer
      yields on each file. */
  method ProcessAll(cur: Cursor, func: Transformer, allFiles: seq<string>, read: string -> DataFile,
                    ghost results: seq<Result<seq<Op>, Error>>)
    returns (outcome: Outcome<Error>, progress: seq<(nat, nat)>)
    requires |results| == |allFiles|
    requires forall j {:trigger read(allFiles[j])} :: 0 <= j < |allFiles| ==> results[j] == FileOps(cur.lookup, func, read(allFiles[j]))
    modifies cur
    ensures cur.trace == old(cur.trace) + RunResults(results).ops
    ensures outcome == (if RunResults(results).error.Some? then Fail(RunResults(results).error.value) else Pass)
    ensures progress == Progress(RunResults(results).processed, |allFiles|)
  {
    var numFiles := |allFiles|;
    progress := [];
    outcome := Pass;
    var i := 1;
    while i <= numFiles
      invariant 1 <= i <= numFiles + 1
      invariant RunResults(results[..i - 1]).error.None?
      invariant RunResults(results[..i - 1]).processed == i - 1
      invariant cur.trace == old(cur.trace) + RunResults(results[..i - 1]).ops
      invariant progress == Progress(i - 1, numFiles)
    {
      var datafile := allFiles[i - 1];
      ghost var before := cur.trace;
      ghost var prev := RunResults(results[..i - 1]);
      RunExtends(results, i - 1);
      var o := ProcessFileAt(cur, func, allFiles, read, results, i - 1);
      AppendStep(old(cur.trace), prev.ops, before, Committed(results[i - 1]), cur.trace);
      if o.Fail? {
        RunStopsAtError(results, i);
        return Fail(o.error), progress;
      }
      progress := progress + [(i, numFiles)];
      i := i + 1;
    }
    assert results[..i - 1] == results;
  }

  /** The body of the loop for the k-th file. */
  method ProcessFileAt(cur: Cursor, func: Transformer, allFiles: seq<string>, read: string -> DataFile,
                       ghost results: seq<Result<seq<Op>, Error>>, k: nat)
    returns (outcome: Outcome<Error>)
    requires k < |allFiles| == |results|
    requires forall j {:trigger read(allFiles[j])} :: 0 <= j < |allFiles| ==> results[j] == FileOps(cur.lookup, func, read(allFiles[j]))
    modifies cur
    ensures cur.trace == old(cur.trace) + Committed(results[k])
    ensures outcome == OutcomeOf(results[k])
  {
    outcome := ProcessFile(cur, func, read(allFiles[k]));
  }

  /** `process_data(cur, conn, filepath, func)`: `found` is what the
      directory walk yields and `read` what each file holds. */
  method ProcessDataFiles(cur: Cursor, found: seq<seq<string>>, read: string -> DataFile, func: Transformer)
    returns (outcome: Outcome<Error>, progress: seq<(nat, nat)>)
    modifies cur
    ensures var run := RunResults(FileResults(cur.lookup, func, MapSeq(read, Flatten(found))));
      && cur.trace == old(cur.trace) + run.ops
      && outcome == (if run.error.Some? then Fail(run.error.value) else Pass)
      && progress == Progress(run.processed, |Flatten(found)|)
  {
    var allFiles := CollectFiles(found);
    ghost var files := MapSeq(read, allFiles);
    ghost var results := FileResults(cur.lookup, func, files);
    outcome, progress := ProcessAll(cur, func, allFiles, read, results);
  }
}
