# Sparkify ETL loader, modelled in Dafny

This project models `etl.py`, the loader that fills the Sparkify star schema
from two directories of JSON-lines files:

- `process_song_file` reads a song file and inserts one `songs` row and one
  `artists` row, both taken from the file's first record.
- `process_log_file` reads an event-log file and keeps the events whose page
  contains `NextSong`. It then inserts one `time` row per event, in
  timestamp order. Next it inserts one `users` row per event. Last, for each
  event it looks up the song and artist ids and inserts a numbered
  `songplays` row.
- `process_data` collects the `.json` files of a directory tree. It then runs
  one of the two transformers on each file in turn, commits after each one,
  and reports `i/num_files` progress.

The database is a sink. `Sink.Cursor` records every statement and every
commit, in order, in its `trace`. The song lookup (`song_select` followed by
`fetchone`) is a function from the lookup key to an optional pair of ids.
Each transformer's effect is a function from the file's records to the
statements it issues, or to the error it raises (`SongFileOps`,
`LogFileOps`, `FileOps`). The imperative loops of the source are methods
proved to append exactly those statements to the trace.

Modules:

- `Wrappers`: `Option`, `Outcome` and `Result`.
- `Calendar`: proleptic Gregorian dates, UTC hour, weekday and ISO week of a
  millisecond timestamp.
- `Records`: the file records, the table rows, the statements and the time
  fields a timestamp derives.
- `Sorting`: a stable insertion sort by an integer key, standing in for
  `sort_values`.
- `Sink`: the cursor and the connection.
- `SongFile`: `process_song_file`.
- `LogFile`: `process_log_file`.
- `LogFileTrace`: what the log-file trace promises.
- `ProcessData`: `process_data`.

Points of `etl.py`'s behaviour that are easy to misread:

- The event filter is `str.contains("NextSong")`, so it keeps every event
  whose page contains `NextSong` anywhere, not only pages equal to it
  (`LogFile.IsNextSong`).
- The user and songplay loops walk the frame after `df.sort_values('ts')`
  (etl.py:55). So users and songplays are inserted in timestamp order, not
  in file order, and songplay ids number the events in that order.
- Users are not de-duplicated: every surviving event inserts one user row,
  repeats included.
- Songplay ids restart at 1 for every log file.

## Model

| member | source | states |
|---|---|---|
| Calendar.Weekday | etl.py:58 | The weekday of a day number lies in 0..6. |
| Calendar.MondayIsZero | etl.py:58 | The weekday is the number of days since Monday 1970-01-05, modulo 7: Monday 0, Tuesday 1, ..., Sunday 6, as `dt.weekday`. |
| Calendar.EpochIsJan1970 | etl.py:52 | Day number 0 is 1970-01-01, the epoch of the millisecond timestamps, in both directions of the conversion. |
| Calendar.ThursdayOfWeek | etl.py:58 | The day the ISO reference definition takes as "the Thursday" is a Thursday (weekday 3) of the same Monday-to-Sunday week. |
| Calendar.IsoWeekOfMondayBeforeNewYear | etl.py:58 | 2018-12-31 is a Monday (weekday 0) in ISO week 1 of the next year. |
| Calendar.IsoWeekOfFridayNewYear | etl.py:58 | 2021-01-01 is a Friday (weekday 4) in ISO week 53 of the year before. |
| Calendar.IsoWeekOfSundayAfterNewYear | etl.py:58 | 2022-01-02 is a Sunday (weekday 6) in ISO week 52 of the year before. |
| Calendar.IsoWeekOfSundayInNovember | etl.py:58 | 2018-11-11 is a Sunday (weekday 6) in ISO week 45. |
| Calendar.YearAndOrdinalOf | etl.py:58 | A day between January 1 of `y` and of `y + 1` has year `y` and day of year its distance from January 1. |
| Calendar.HourOf | etl.py:58 | The UTC hour of a millisecond timestamp lies in 0..23. |
| Calendar.IsoWeek | etl.py:58 | The ISO week number (`dt.week`) of a day lies in 1..53. |
| Calendar.IsoWeekIsWeekOfThursday | etl.py:58 | The week that `IsoWeek` estimates and corrects equals the ISO definition: one plus the whole weeks between January 1 and the Thursday of the day's week, counted in that Thursday's year. The weekday it uses is anchored by `MondayIsZero`, the day numbers by `EpochIsJan1970`, and "the Thursday" by `ThursdayOfWeek`. |
| Calendar.YearAndOrdinalCorrect | etl.py:58 | The year computed for a day holds the day: its January 1 plus the day-of-year gives the day back, and the day-of-year is below that year's length. |
| Calendar.YearOfDay | etl.py:58 | The computed year is `y` if and only if the day lies between January 1 of `y` and January 1 of `y + 1`. |
| Calendar.CivilFromDaysRoundTrip | etl.py:58 | Every day number converts to a valid year/month/day that converts back to the same day number. |
| Calendar.DaysFromCivilRoundTrip | etl.py:58 | Every valid date converts to a day number that converts back to the same date. |
| Records.DeriveTime | etl.py:52-58 | The time row of a timestamp keeps the timestamp as `start_time`; its hour, week and weekday lie in range. `DeriveTimeFields` ties every field to the calendar date and hour that hold the timestamp. |
| Records.DeriveTimeExample | etl.py:52-58 | Timestamp 1541903636796 derives hour 2, day 11, ISO week 45, month 11, year 2018 and weekday 6 (a Sunday). |
| Records.Songplay | etl.py:79-84 | The songplay's song id and artist id are null exactly when the lookup found nothing, and otherwise are the ids found. |
| Records.DeriveTimeFields | etl.py:52-60 | A derived time row keeps the timestamp as `start_time`. Its hour, day, week, month and weekday lie in their ranges and the date is valid. The timestamp lies inside the row's UTC hour of that date. The weekday and the ISO week are those of that date. |
| Sorting.SortBy | etl.py:55 | The result is sorted by the key and is a permutation of the input. |
| Sorting.SortByMap | etl.py:52-61 | Sorting the derived rows by a key that the derivation preserves gives the derived rows of the sorted input. So sorting `time_df` by `start_time` gives the time rows of the ts-sorted frame. |
| Sink.Cursor.constructor | etl.py:125 | A fresh cursor has sent nothing and answers lookups with the given function. |
| Sink.Cursor.Execute | etl.py:24 | Executing a statement appends it to the trace and changes nothing else. |
| Sink.Cursor.SelectSong | etl.py:76-77 | The lookup appends its select to the trace and returns the row the lookup function gives for the key, or none. |
| Sink.Cursor.Commit | etl.py:112 | A commit appends one commit to the trace. |
| SongFile.SongFileOps | etl.py:19-29 | An empty song file raises (`NoRecords`). Otherwise the file yields exactly two statements: the song row of the first record (song_id, title, artist_id, year, duration), then its artist row (artist_id, name, location, latitude, longitude). |
| SongFile.FirstRecordOnly | etl.py:23-28 | Records after the first do not change what is inserted. |
| SongFile.SongAndArtistShareArtistId | etl.py:23-28 | The song row and the artist row carry the same artist id. |
| SongFile.ProcessSongFile | etl.py:8-29 | The procedure appends exactly the statements of `SongFileOps` to the cursor, or nothing when it raises, and reports the same outcome. |
| LogFile.NextSongEvents | etl.py:50 | The filter keeps at most the events it is given, and each one it keeps is a NextSong event. |
| LogFile.SortedEvents | etl.py:55 | The frame sorted by `ts` is sorted by timestamp and is a permutation of the kept events. |
| LogFile.TimeRows | etl.py:58-61 | The time frame has one row per kept event and is sorted by `start_time`; `TimeRowsArePermutation` and `TimeRowsFollowSortedEvents` say which rows. |
| LogFile.LogFileOps | etl.py:32-85 | An empty log file raises `NoRecords` (no columns to select); a non-empty one whose kept timestamps do not all convert raises `TimestampOutOfBounds`. `LogFileOutcome` and `LogFileLayout` give the success case. |
| LogFile.TimeInserts | etl.py:63-64 | The time loop sends one insert per row of the time frame, the i-th for the i-th row. |
| LogFile.UserInserts | etl.py:67-71 | The user loop sends one insert per row of the user frame, the i-th for the i-th row. |
| LogFile.SongplayOps | etl.py:74-85 | The songplay loop sends two statements per event, in order. For the i-th event these are the lookup of its (song, artist, length) key, then its songplay numbered `i + 1` with the ids the lookup returned. |
| LogFile.InsertTimes | etl.py:63-64 | The loop appends exactly `TimeInserts` of the time frame to the trace. |
| LogFile.InsertUsers | etl.py:70-71 | The loop appends exactly `UserInserts` of the user frame to the trace. |
| LogFile.InsertSongplays | etl.py:74-85 | The loop appends exactly `SongplayOps` of the sorted frame to the trace. |
| LogFile.ProcessLogFile | etl.py:32-85 | The procedure appends exactly the statements of `LogFileOps` to the cursor, or nothing when it raises (an empty file, or a kept timestamp out of range). It reports the same outcome. |
| LogFileTrace.ContainsIffOccurs | etl.py:50 | The filter's substring test holds if and only if the pattern occurs at some position of the page. |
| LogFileTrace.NextSongPageKept | etl.py:50 | A page that ends in `NextSong` passes the filter, so the test is not page equality. |
| LogFileTrace.NextSongEventsSurvivors | etl.py:50 | The filter keeps every NextSong event as often as it occurs, and drops every other event. |
| LogFileTrace.NextSongEventsConcat | etl.py:50 | Filtering a concatenation is the concatenation of the filtered parts. |
| LogFileTrace.NonNextSongEventIgnored | etl.py:46-85 | Adding a non-NextSong event anywhere in a non-empty log file changes nothing that is sent. |
| LogFileTrace.TimeRowsFollowSortedEvents | etl.py:52-61 | The sorted time frame equals the time rows of the ts-sorted events, one per event, in that order. |
| LogFileTrace.LogFileOutcome | etl.py:32-85 | A log file succeeds exactly when it is non-empty and every kept timestamp lies in pandas' range, and then sends four statements per kept event. |
| LogFileTrace.LogFileLayout | etl.py:57-85 | A non-empty log file whose kept timestamps all convert succeeds. Its trace is `n` time inserts, then `n` user inserts, then `2n` songplay statements, where `n` is the number of surviving events in ts order. |
| LogFileTrace.SurvivorsSorted | etl.py:50-55 | The events that the user and songplay loops walk are sorted by timestamp. Each is a NextSong event, and each NextSong event of the file is there as often as in the file. |
| LogFileTrace.TimeRowsArePermutation | etl.py:52-61 | The sorted time frame is a permutation of the rows derived from the surviving events in file order, and is sorted by `start_time`. |
| LogFileTrace.TimeInsertsOrdered | etl.py:61-64 | The i-th time insert carries the time row derived from the i-th event by timestamp, and the `start_time` values of the time inserts never decrease. |
| LogFileTrace.TimeAndUserRows | etl.py:63-71 | The i-th time insert and the i-th user insert are derived from the same event, the i-th by timestamp. |
| LogFileTrace.SongplayPair | etl.py:74-85 | The i-th songplay pair is the lookup of the i-th event's key, then that event's songplay numbered `i + 1`, built from the lookup's answer. |
| LogFileTrace.SongplayIdsSequential | etl.py:74 | The i-th songplay insert of a file has id `i + 1`, so the ids of a file run 1..n. |
| LogFileTrace.ForeignKeysFromLookup | etl.py:76-84 | Each songplay is preceded by the lookup of its event's (song, artist, length). When the lookup finds nothing, the song id and the artist id are both null. Otherwise they are the ids found. |
| LogFileTrace.UserAndSongplayFromSameEvent | etl.py:58-85 | The i-th time, user and songplay inserts come from the same event. The time and songplay rows carry its timestamp. The user row carries its user columns. The songplay carries its user, level, session, location and user agent. |
| ProcessData.FlattenMembers | etl.py:100-104 | A path is in `all_files` if and only if some visited directory yields it. |
| ProcessData.FlattenAppend | etl.py:100-104 | Collecting two runs of directories one after the other gives the two lists of paths concatenated. |
| ProcessData.CollectFiles | etl.py:100-104 | The nested loop builds `all_files` as the paths of each directory, in visiting order. |
| ProcessData.FileOps | etl.py:111 | A transformer given a file of the other kind raises (`WrongFileKind`) without sending anything. |
| ProcessData.Transform | etl.py:111 | Calling `func` appends exactly the statements `FileOps` gives, and reports its outcome. |
| ProcessData.ProcessFile | etl.py:111-112 | One iteration calls the transformer, then commits if it returned. The trace grows by the file's statements followed by one commit, or by nothing when the transformer raises. |
| ProcessData.RunResults | etl.py:110-113 | A run processes a prefix of the files, each of them successfully. It stops with no error exactly when every file was processed. Otherwise it stops at the first file whose transformer raised, with that error. |
| ProcessData.RunStopsAtError | etl.py:110-113 | Once a file raises, the files after it change nothing. |
| ProcessData.RunExtends | etl.py:110-113 | Processing one more file, after a run of files that all passed, appends that file's committed statements, or stops the run with its error. |
| ProcessData.TransformerNeverCommits | etl.py:8-85 | Neither transformer sends a commit itself. |
| ProcessData.OneCommitPerFile | etl.py:110-112 | When no file's statements include a commit, the run holds exactly one commit per processed file. |
| ProcessData.OneCommitPerProcessedFile | etl.py:110-112 | A run of either transformer commits exactly once per file it processed. |
| ProcessData.Progress | etl.py:106-113 | After `i` files the progress lines are `(1, num_files)` … `(i, num_files)`. |
| ProcessData.ProcessFileAt | etl.py:111-112 | The iteration on the k-th file appends that file's committed statements and reports its outcome. |
| ProcessData.ProcessAll | etl.py:106-113 | The driver loop appends the run's trace (each processed file's statements, then a commit, in file order). It ends with the error of the first file that raised, if any. It prints one progress line per processed file. |
| ProcessData.ProcessDataFiles | etl.py:88-113 | `process_data` equals the run over `all_files` in collection order: the trace, the outcome and the progress lines are those of `RunResults`. |

## Left out

- Reading the files (`pd.read_json`) is the `read` function from a path to the file's records. JSON parsing, malformed lines and missing or NaN fields are not modelled.
- The directory walk (`os.walk`, `glob`, `os.path.abspath`) is its result: the sequence of `.json` paths per visited directory, in visiting order. The file system's order itself is not modelled.
- `main` (etl.py:116-134), connecting to PostgreSQL and closing the connection are left out. The connection's commit is a `Commit` entry in the cursor's trace.
- The SQL text of the inserts and of `song_select` lives in `sql_queries.py`, which is not part of this model. The lookup is a function given to the cursor, and the database's answer to an insert (a conflict or a constraint violation) is not modelled.
- Floating-point columns (duration, latitude, longitude, length) are `real` values that are copied, never computed on.
- `start_time` is kept as the epoch timestamp in milliseconds, both in the time rows and in the songplay rows. The conversion to a pandas `Timestamp` is modelled only through its range (`TimestampOutOfBounds`); its nanosecond representation and the `dtype=int` cast of the time frame are not modelled.
- Sorting.SortBy: the model sorts with a stable insertion sort. `sort_values` does not promise any order among equal timestamps. Every lemma about the time rows holds for any such order, because equal timestamps derive equal time rows. The pairing of users and songplays with one event fixes one tie order.
- `Contains` models `str.contains` for the literal pattern `NextSong`, which has no regular-expression metacharacters. General regular-expression matching and missing (NaN) pages are not modelled.
- The exceptions pandas raises are `Error` values: the `KeyError` of selecting columns from an empty file (`NoRecords`) or from a file of the other kind (`WrongFileKind`), and the `OutOfBoundsDatetime` of converting a kept timestamp outside 64-bit nanoseconds (`TimestampOutOfBounds`). The loader's process stops at the first one, and the model's run stops there too. The exact bound pandas applies at the very edge of that range may differ by version; the model uses plus or minus 9223372036854 ms.
- Progress messages are modelled as `(i, num_files)` pairs, not as printed text. The `files found` message is not modelled.
