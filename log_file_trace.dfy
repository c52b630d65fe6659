/** What the statements issued for one log file say about the events:
    which events contribute, in which order, and with which values. */
module LogFileTrace {
  import opened Wrappers
  import opened Records
  import opened Sorting
  import opened LogFile

  predicate OccursAt(s: string, pat: string, i: int) {
    0 <= i <= |s| - |pat| && s[i..i + |pat|] == pat
  }

  /** `Contains` is the substring test: `pat` occurs at some position. */
  lemma {:induction false} ContainsIffOccurs(s: string, pat: string)
    ensures Contains(s, pat) <==> exists i :: OccursAt(s, pat, i)
    decreases |s|
  {
    if IsPrefix(pat, s) {
      assert OccursAt(s, pat, 0);
    } else if s == [] {
    } else {
      ContainsIffOccurs(s[1..], pat);
      if Contains(s[1..], pat) {
        var i :| OccursAt(s[1..], pat, i);
        assert s[i + 1..i + 1 + |pat|] == s[1..][i..i + |pat|];
        assert OccursAt(s, pat, i + 1);
      }
      if i :| OccursAt(s, pat, i) {
        assert i != 0;
        assert s[1..][i - 1..i - 1 + |pat|] == s[i..i + |pat|];
        assert OccursAt(s[1..], pat, i - 1);
      }
    }
  }

  /** A page ending in "NextSong" passes the filter: the test is for
      an occurrence anywhere, not for equality. */
  lemma NextSongPageKept(e: LogEvent)
    requires |e.page| >= 8 && e.page[|e.page| - 8..] == "NextSong"
    ensures IsNextSong(e)
  {
    ContainsIffOccurs(e.page, "NextSong");
    assert e.page[|e.page| - 8..|e.page| - 8 + 8] == "NextSong";
    assert OccursAt(e.page, "NextSong", |e.page| - 8);
  }

  /** The filter keeps every NextSong event, as often as it occurs, and
      nothing else. */
  lemma {:induction false} NextSongEventsSurvivors(events: seq<LogEvent>)
    ensures forall e ::
      multiset(NextSongEvents(events))[e] == (if IsNextSong(e) then multiset(events)[e] else 0)
  {
    if events != [] {
      NextSongEventsSurvivors(events[1..]);
      assert events == [events[0]] + events[1..];
    }
  }

  lemma {:induction false} NextSongEventsConcat(a: seq<LogEvent>, b: seq<LogEvent>)
    ensures NextSongEvents(a + b) == NextSongEvents(a) + NextSongEvents(b)
  {
    if a != [] {
      assert (a + b)[1..] == a[1..] + b;
      NextSongEventsConcat(a[1..], b);
    } else {
      assert a + b == b;
    }
  }

  /** An event that fails the filter is dropped wherever it sits. */
  lemma NonNextSongEventDropped(a: seq<LogEvent>, e: LogEvent, b: seq<LogEvent>)
    requires !IsNextSong(e)
    ensures NextSongEvents(a + [e] + b) == NextSongEvents(a + b)
  {
    NextSongEventsConcat(a + [e], b);
    NextSongEventsConcat(a, [e]);
    NextSongEventsConcat(a, b);
    assert NextSongEvents([e]) == [];
  }

  /** An event that fails the filter contributes no statement, wherever it
      sits in the file (as long as the file is not left empty). */
  lemma NonNextSongEventIgnored(lookup: SongKey -> Option<SongArtist>,
                                a: seq<LogEvent>, e: LogEvent, b: seq<LogEvent>)
    requires !IsNextSong(e)
    requires a + b != []
    ensures LogFileOps(lookup, a + [e] + b) == LogFileOps(lookup, a + b)
  {
    NonNextSongEventDropped(a, e, b);
    assert a + [e] + b != [];
  }

  /** The time rows, sorted by start time, are those of the events sorted
      by timestamp: sorting the events and then deriving the rows gives the
      same sequence as deriving and then sorting. */
  lemma TimeRowsFollowSortedEvents(kept: seq<LogEvent>)
    ensures TimeRows(kept) == MapSeq(EventTime, SortedEvents(kept))
  {
    assert MapSeq(DeriveTime, MapSeq(EventTs, kept)) == MapSeq(EventTime, kept);
    SortByMap(EventTime, kept, EventTs, StartTime);
  }

  /** `ops` is the trace of a log file whose surviving events, sorted by
      timestamp, are `sorted`: one time insert per event, then one user
      insert per event, then one lookup/songplay pair per event, each part
      walking `sorted` in order. */
  predicate IsLogTrace(ops: seq<Op>, lookup: SongKey -> Option<SongArtist>, sorted: seq<LogEvent>) {
    var n := |sorted|;
    && |ops| == 4 * n
    && ops[..n] == TimeInserts(MapSeq(EventTime, sorted))
    && ops[n..2 * n] == UserInserts(MapSeq(UserColumns, sorted))
    && ops[2 * n..] == SongplayOps(lookup, sorted)
  }

  /** A log file raises exactly when it is empty or one of its kept
      timestamps does not convert; otherwise it sends four statements per
      kept event. */
  lemma LogFileOutcome(lookup: SongKey -> Option<SongArtist>, events: seq<LogEvent>)
    ensures var r := LogFileOps(lookup, events);
      && (r.Success? <==> events != [] && AllInTimestampRange(NextSongEvents(events)))
      && (r.Success? ==> |r.value| == 4 * |NextSongEvents(events)|)
  {
  }

  /** A non-empty log file whose kept timestamps all convert issues a trace
      of that shape, for its surviving events sorted by timestamp. */
  lemma LogFileLayout(lookup: SongKey -> Option<SongArtist>, events: seq<LogEvent>)
    requires events != [] && AllInTimestampRange(NextSongEvents(events))
    ensures LogFileOps(lookup, events).Success?
    ensures IsLogTrace(LogFileOps(lookup, events).value, lookup, SortedEvents(NextSongEvents(events)))
  {
    var kept := NextSongEvents(events);
    var sorted := SortedEvents(kept);
    TimeRowsFollowSortedEvents(kept);
    var times := TimeInserts(TimeRows(kept));
    var users := UserInserts(MapSeq(UserColumns, sorted));
    assert LogFileOps(lookup, events).value == times + users + SongplayOps(lookup, sorted);
    ThreeParts(times, users, SongplayOps(lookup, sorted), |sorted|);
  }

  /** Cutting a concatenation of two n-long parts and a tail back apart. */
  lemma ThreeParts(a: seq<Op>, b: seq<Op>, c: seq<Op>, n: nat)
    requires |a| == n && |b| == n
    ensures (a + b + c)[..n] == a
    ensures (a + b + c)[n..2 * n] == b
    ensures (a + b + c)[2 * n..] == c
  {
  }

  /** The surviving events, in the order the user and songplay loops walk
      them: sorted by timestamp, each one a NextSong event, and each
      NextSong event of the file there as often as it occurs in the file. */
  lemma SurvivorsSorted(events: seq<LogEvent>)
    ensures var sorted := SortedEvents(NextSongEvents(events));
      && SortedBy(sorted, EventTs)
      && (forall i :: 0 <= i < |sorted| ==> IsNextSong(sorted[i]))
      && forall e :: multiset(sorted)[e] == if IsNextSong(e) then multiset(events)[e] else 0
  {
    NextSongEventsSurvivors(events);
    var kept := NextSongEvents(events);
    var sorted := SortedEvents(kept);
    forall i | 0 <= i < |sorted| ensures IsNextSong(sorted[i]) {
      assert sorted[i] in multiset(kept);
    }
  }

  /** The time frame is a permutation of the rows derived from the
      surviving events in file order. */
  lemma TimeRowsArePermutation(kept: seq<LogEvent>)
    ensures multiset(TimeRows(kept)) == multiset(MapSeq(EventTime, kept))
    ensures SortedBy(TimeRows(kept), StartTime)
  {
    assert MapSeq(DeriveTime, MapSeq(EventTs, kept)) == MapSeq(EventTime, kept);
  }

  /** The first n statements insert the time rows of the events, in
      nondecreasing start time. */
  lemma TimeInsertsOrdered(ops: seq<Op>, lookup: SongKey -> Option<SongArtist>, sorted: seq<LogEvent>)
    requires IsLogTrace(ops, lookup, sorted)
    requires SortedBy(sorted, EventTs)
    ensures forall i :: 0 <= i < |sorted| ==> ops[i] == InsertTime(DeriveTime(sorted[i].ts))
    ensures forall i, j :: 0 <= i < j < |sorted| ==> ops[i].time.startTime <= ops[j].time.startTime
  {
    var n := |sorted|;
    forall i | 0 <= i < n ensures ops[i] == InsertTime(DeriveTime(sorted[i].ts)) {
      assert ops[i] == ops[..n][i];
    }
  }

  /** The i-th lookup/songplay pair of a log file's trace, as the
      songplay part of the trace lays it out. */
  lemma SongplayPair(ops: seq<Op>, lookup: SongKey -> Option<SongArtist>, sorted: seq<LogEvent>, i: int)
    requires IsLogTrace(ops, lookup, sorted)
    requires 0 <= i < |sorted|
    ensures var n := |sorted|;
      && ops[2 * n + 2 * i] == SelectSong(LookupKey(sorted[i]))
      && ops[2 * n + 2 * i + 1] == InsertSongplay(Songplay(i + 1, sorted[i], lookup(LookupKey(sorted[i]))))
  {
    var n := |sorted|;
    var plays := SongplayOps(lookup, sorted);
    assert ops[2 * n..] == plays;
    DropAt(ops, 2 * n, plays, 2 * i);
    DropAt(ops, 2 * n, plays, 2 * i + 1);
    assert (2 * i) / 2 == i && (2 * i) % 2 == 0;
    assert (2 * i + 1) / 2 == i && (2 * i + 1) % 2 == 1;
  }

  lemma DropAt(ops: seq<Op>, m: int, rest: seq<Op>, k: int)
    requires 0 <= m <= |ops| && ops[m..] == rest && 0 <= k < |rest|
    ensures ops[m + k] == rest[k]
  {
  }

  /** The i-th time insert and the i-th user insert of a log file's trace. */
  lemma TimeAndUserRows(ops: seq<Op>, lookup: SongKey -> Option<SongArtist>, sorted: seq<LogEvent>, i: int)
    requires IsLogTrace(ops, lookup, sorted)
    requires 0 <= i < |sorted|
    ensures ops[i] == InsertTime(EventTime(sorted[i]))
    ensures ops[|sorted| + i] == InsertUser(UserColumns(sorted[i]))
  {
    var n := |sorted|;
    assert ops[i] == ops[..n][i];
    assert ops[n + i] == ops[n..2 * n][i];
  }

  /** Songplay ids run 1, 2, ..., n in issue order: the i-th songplay
      insert (counting from 0) carries id i + 1, whatever earlier files
      held. */
  lemma SongplayIdsSequential(ops: seq<Op>, lookup: SongKey -> Option<SongArtist>, sorted: seq<LogEvent>, i: int)
    requires IsLogTrace(ops, lookup, sorted)
    requires 0 <= i < |sorted|
    ensures ops[2 * |sorted| + 2 * i + 1].InsertSongplay?
    ensures ops[2 * |sorted| + 2 * i + 1].songplay.songplayId == i + 1
  {
    SongplayPair(ops, lookup, sorted, i);
  }

  /** The i-th songplay insert follows the lookup of its event's key; it
      carries the pair the lookup found, or nulls in both columns when it
      found nothing. */
  lemma ForeignKeysFromLookup(ops: seq<Op>, lookup: SongKey -> Option<SongArtist>, sorted: seq<LogEvent>, i: int)
    requires IsLogTrace(ops, lookup, sorted)
    requires 0 <= i < |sorted|
    ensures var n := |sorted|;
      var e := sorted[i];
      var key := SongKey(e.song, e.artist, e.length);
      && ops[2 * n + 2 * i] == SelectSong(key)
      && ops[2 * n + 2 * i + 1].InsertSongplay?
      && (lookup(key).None? ==>
            ops[2 * n + 2 * i + 1].songplay.songId == None && ops[2 * n + 2 * i + 1].songplay.artistId == None)
      && (lookup(key).Some? ==>
            && ops[2 * n + 2 * i + 1].songplay.songId == Some(lookup(key).value.songId)
            && ops[2 * n + 2 * i + 1].songplay.artistId == Some(lookup(key).value.artistId))
  {
    SongplayPair(ops, lookup, sorted, i);
  }

  /** The i-th time, user and songplay inserts come from one event, the
      i-th survivor by timestamp: the time row and the songplay copy its
      timestamp, the user row copies its user columns, and the songplay
      copies its user, level, session, location and user agent. */
  lemma UserAndSongplayFromSameEvent(ops: seq<Op>, lookup: SongKey -> Option<SongArtist>, sorted: seq<LogEvent>, i: int)
    requires IsLogTrace(ops, lookup, sorted)
    requires 0 <= i < |sorted|
    ensures ops[i].InsertTime? && ops[i].time.startTime == sorted[i].ts
    ensures var e := sorted[i];
      && ops[|sorted| + i].InsertUser?
      && ops[|sorted| + i].user == UserRow(e.userId, e.firstName, e.lastName, e.gender, e.level)
    ensures var e := sorted[i];
      var k := 2 * |sorted| + 2 * i + 1;
      && ops[k].InsertSongplay?
      && ops[k].songplay.startTime == e.ts && ops[k].songplay.userId == e.userId
      && ops[k].songplay.level == e.level && ops[k].songplay.sessionId == e.sessionId
      && ops[k].songplay.location == e.location && ops[k].songplay.userAgent == e.userAgent
  {
    TimeAndUserRows(ops, lookup, sorted, i);
    SongplayPair(ops, lookup, sorted, i);
  }
}
