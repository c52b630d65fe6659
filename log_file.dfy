/** `process_log_file`: keep the NextSong events, insert one time row per
    event in timestamp order, then one user row and one songplay row per
    event, walking the events sorted by timestamp. */
module LogFile {
  import opened Wrappers
  import opened Records
  import opened Sorting
  import opened Sink

  predicate IsPrefix(p: string, s: string) {
    |p| <= |s| && s[..|p|] == p
  }

  /** `Series.str.contains(pat)` for a pattern free of regular-expression
      metacharacters, such as "NextSong": `pat` occurs somewhere in `s`. */
  predicate Contains(s: string, pat: string)
    decreases |s|
  {
    IsPrefix(pat, s) || (s != [] && Contains(s[1..], pat))
  }

  /** The filter keeps an event whose page names the NextSong action
      anywhere, not only a page equal to "NextSong". */
  predicate IsNextSong(e: LogEvent) {
    Contains(e.page, "NextSong")
  }

  /** `df[df['page'].str.contains("NextSong")]`, in file order. */
  function NextSongEvents(events: seq<LogEvent>): (kept: seq<LogEvent>)
    ensures |kept| <= |events|
    ensures forall i :: 0 <= i < |kept| ==> IsNextSong(kept[i])
  {
    if events == [] then []
    else (if IsNextSong(events[0]) then [events[0]] else []) + NextSongEvents(events[1..])
  }

  /** The time rows of the kept events, in file order (`t`), sorted by
      start time as the time frame is. */
  function TimeRows(kept: seq<LogEvent>): (rows: seq<TimeRow>)
    ensures |rows| == |kept|
    ensures SortedBy(rows, StartTime)
  {
    SortBy(MapSeq(DeriveTime, MapSeq(EventTs, kept)), StartTime)
  }

  /** The kept events sorted by timestamp: the frame the user and songplay
      loops walk. */
  function SortedEvents(kept: seq<LogEvent>): (sorted: seq<LogEvent>)
    ensures |sorted| == |kept|
    ensures SortedBy(sorted, EventTs)
    ensures multiset(sorted) == multiset(kept)
  {
    SortBy(kept, EventTs)
  }

  function TimeInserts(rows: seq<TimeRow>): (ops: seq<Op>)
    ensures |ops| == |rows|
    ensures forall i {:trigger ops[i]} :: 0 <= i < |rows| ==> ops[i] == InsertTime(rows[i])
  {
    if rows == [] then [] else TimeInserts(rows[..|rows| - 1]) + [InsertTime(rows[|rows| - 1])]
  }

  function UserInserts(rows: seq<UserRow>): (ops: seq<Op>)
    ensures |ops| == |rows|
    ensures forall i {:trigger ops[i]} :: 0 <= i < |rows| ==> ops[i] == InsertUser(rows[i])
  {
    if rows == [] then [] else UserInserts(rows[..|rows| - 1]) + [InsertUser(rows[|rows| - 1])]
  }

  /** For each event, numbered from 1: the song lookup, then the songplay
      insert with what the lookup found. */
  function SongplayOps(lookup: SongKey -> Option<SongArtist>, events: seq<LogEvent>): (ops: seq<Op>)
    ensures |ops| == 2 * |events|
    ensures forall k :: 0 <= k < |ops| ==>
      var e := events[k / 2];
      ops[k] == if k % 2 == 0 then SelectSong(LookupKey(e)) else InsertSongplay(Songplay(k / 2 + 1, e, lookup(LookupKey(e))))
  {
    if events == [] then []
    else
      var n := |events|;
      var e := events[n - 1];
      SongplayOps(lookup, events[..n - 1])
        + [SelectSong(LookupKey(e)), InsertSongplay(Songplay(n, e, lookup(LookupKey(e))))]
  }

  /** The statements `process_log_file` issues for a file holding `events`,
      or the error it raises. */
  function LogFileOps(lookup: SongKey -> Option<SongArtist>, events: seq<LogEvent>): (r: Result<seq<Op>, Error>)
    ensures r.Failure? ==> r.error == if events == [] then NoRecords else TimestampOutOfBounds
  {
    if events == [] then Failure(NoRecords)
    else if !AllInTimestampRange(NextSongEvents(events)) then Failure(TimestampOutOfBounds)
    else Success(SurvivorOps(lookup, NextSongEvents(events)))
  }

  /** `pd.to_datetime(df.ts, unit='ms')` converts every kept timestamp. */
  predicate AllInTimestampRange(kept: seq<LogEvent>) {
    forall i :: 0 <= i < |kept| ==> InTimestampRange(kept[i].ts)
  }

  /** The statements issued for the events that passed the filter: the
      time inserts, then the user inserts, then the songplay statements. */
  function SurvivorOps(lookup: SongKey -> Option<SongArtist>, kept: seq<LogEvent>): seq<Op> {
    var sorted := SortedEvents(kept);
    TimeInserts(TimeRows(kept)) + UserInserts(MapSeq(UserColumns, sorted)) + SongplayOps(lookup, sorted)
  }

  /** The loop over the time frame (one insert per row, in order). */
  method InsertTimes(cur: Cursor, timeDf: seq<TimeRow>)
    modifies cur
    ensures cur.trace == old(cur.trace) + TimeInserts(timeDf)
  {
    var i := 0;
    while i < |timeDf|
      invariant 0 <= i <= |timeDf|
      invariant cur.trace == old(cur.trace) + TimeInserts(timeDf[..i])
    {
      assert timeDf[..i + 1][..i] == timeDf[..i];
      cur.Execute(InsertTime(timeDf[i]));
      i := i + 1;
    }
    assert timeDf[..i] == timeDf;
  }

  /** The loop over the user frame (one insert per row, in order). */
  method InsertUsers(cur: Cursor, userDf: seq<UserRow>)
    modifies cur
    ensures cur.trace == old(cur.trace) + UserInserts(userDf)
  {
    var j := 0;
    while j < |userDf|
      invariant 0 <= j <= |userDf|
      invariant cur.trace == old(cur.trace) + UserInserts(userDf[..j])
    {
      assert userDf[..j + 1][..j] == userDf[..j];
      cur.Execute(InsertUser(userDf[j]));
      j := j + 1;
    }
    assert userDf[..j] == userDf;
  }

  /** The songplay loop: `idex` counts from 1; each event is looked up,
      then inserted with the ids found or with nulls. */
  method InsertSongplays(cur: Cursor, df: seq<LogEvent>)
    modifies cur
    ensures cur.trace == old(cur.trace) + SongplayOps(cur.lookup, df)
  {
    var idex := 1;
    while idex <= |df|
      invariant 1 <= idex <= |df| + 1
      invariant cur.trace == old(cur.trace) + SongplayOps(cur.lookup, df[..idex - 1])
    {
      var row := df[idex - 1];
      assert df[..idex][..idex - 1] == df[..idex - 1];
      var results := cur.SelectSong(LookupKey(row));
      var songplayData := Songplay(idex, row, results);
      cur.Execute(InsertSongplay(songplayData));
      idex := idex + 1;
    }
    assert df[..idex - 1] == df;
  }

  lemma AppendThree(t0: seq<Op>, t1: seq<Op>, t2: seq<Op>, t3: seq<Op>, a: seq<Op>, b: seq<Op>, c: seq<Op>)
    requires t1 == t0 + a && t2 == t1 + b && t3 == t2 + c
    ensures t3 == t0 + (a + b + c)
  {
  }

  method ProcessLogFile(cur: Cursor, events: seq<LogEvent>) returns (outcome: Outcome<Error>)
    modifies cur
    ensures outcome == OutcomeOf(LogFileOps(cur.lookup, events))
    ensures cur.trace == old(cur.trace) + Issued(LogFileOps(cur.lookup, events))
  {
    if events == [] {
      return Fail(NoRecords);
    }
    var df := NextSongEvents(events);
    if !AllInTimestampRange(df) {
      return Fail(TimestampOutOfBounds);
    }
    var t := MapSeq(EventTs, df);
    df := SortBy(df, EventTs);
    var timeDf := SortBy(MapSeq(DeriveTime, t), StartTime);
    ghost var t0 := cur.trace;
    InsertTimes(cur, timeDf);
    ghost var t1 := cur.trace;
    var userDf := MapSeq(UserColumns, df);
    InsertUsers(cur, userDf);
    ghost var t2 := cur.trace;
    InsertSongplays(cur, df);
    ghost var issued := TimeInserts(timeDf) + UserInserts(userDf) + SongplayOps(cur.lookup, df);
    AppendThree(t0, t1, t2, cur.trace, TimeInserts(timeDf), UserInserts(userDf), SongplayOps(cur.lookup, df));
    assert SurvivorOps(cur.lookup, NextSongEvents(events)) == issued;
    outcome := Pass;
  }
}
