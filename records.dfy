/** The records read from the JSON-lines files, the rows the loader writes
    and the statements it sends to the database. */
module Records {
  import opened Wrappers
  import Calendar

  /** A JSON number (a double in the source).  The loader only copies these
      and compares them for equality in the song lookup. */
  type Float = real

  /** One line of a song file. */
  datatype SongRecord = SongRecord(
    songId: string, title: string, artistId: string, year: int, duration: Float,
    artistName: string, artistLocation: string,
    artistLatitude: Float, artistLongitude: Float)

  /** One line of an event-log file (the fields the loader reads). */
  datatype LogEvent = LogEvent(
    artist: string, firstName: string, gender: string, lastName: string,
    length: Float, level: string, location: string, page: string,
    sessionId: int, song: string, ts: int, userAgent: string, userId: string)

  datatype SongRow = SongRow(songId: string, title: string, artistId: string, year: int, duration: Float)

  datatype ArtistRow = ArtistRow(
    artistId: string, name: string, location: string, latitude: Float, longitude: Float)

  /** A row of the time table; `startTime` is the event's epoch timestamp
      in milliseconds. */
  datatype TimeRow = TimeRow(
    startTime: int, hour: int, day: int, week: int, month: int, year: int, weekday: int)

  datatype UserRow = UserRow(
    userId: string, firstName: string, lastName: string, gender: string, level: string)

  /** The natural key of the song lookup: song title, artist name, length. */
  datatype SongKey = SongKey(title: string, artistName: string, length: Float)

  /** What the song lookup returns when it finds a row. */
  datatype SongArtist = SongArtist(songId: string, artistId: string)

  datatype SongplayRow = SongplayRow(
    songplayId: int, startTime: int, userId: string, level: string,
    songId: Option<string>, artistId: Option<string>,
    sessionId: int, location: string, userAgent: string)

  /** A statement executed on the cursor, or a commit of the connection. */
  datatype Op =
    | InsertSong(song: SongRow)
    | InsertArtist(artist: ArtistRow)
    | InsertTime(time: TimeRow)
    | InsertUser(user: UserRow)
    | SelectSong(key: SongKey)
    | InsertSongplay(songplay: SongplayRow)
    | Commit

  /** Why processing a file raises.  `NoRecords`: the file holds no line,
      so the frame has no columns and selecting one fails.  `WrongFileKind`:
      the transformer selects columns the file's records do not have.
      `TimestampOutOfBounds`: a kept event's timestamp lies outside what a
      pandas `Timestamp` (nanoseconds in a signed 64-bit integer) holds. */
  datatype Error = NoRecords | WrongFileKind | TimestampOutOfBounds

  /** The millisecond timestamps `pd.to_datetime(ts, unit='ms')` converts
      without overflowing 64-bit nanoseconds: about 1677-09-21 to
      2262-04-11. */
  const MinTimestampMs: int := -9_223_372_036_854
  const MaxTimestampMs: int := 9_223_372_036_854

  predicate InTimestampRange(ts: int) {
    MinTimestampMs <= ts <= MaxTimestampMs
  }

  /** The statements a transformer issues, or none when it raises first. */
  function Issued(r: Result<seq<Op>, Error>): seq<Op> {
    if r.Success? then r.value else []
  }

  function OutcomeOf(r: Result<seq<Op>, Error>): Outcome<Error> {
    if r.Success? then Pass else Fail(r.error)
  }

  function SongColumns(rec: SongRecord): SongRow {
    SongRow(rec.songId, rec.title, rec.artistId, rec.year, rec.duration)
  }

  function ArtistColumns(rec: SongRecord): ArtistRow {
    ArtistRow(rec.artistId, rec.artistName, rec.artistLocation, rec.artistLatitude, rec.artistLongitude)
  }

  function UserColumns(e: LogEvent): UserRow {
    UserRow(e.userId, e.firstName, e.lastName, e.gender, e.level)
  }

  function LookupKey(e: LogEvent): SongKey {
    SongKey(e.song, e.artist, e.length)
  }

  function EventTs(e: LogEvent): int {
    e.ts
  }

  function StartTime(r: TimeRow): int {
    r.startTime
  }

  /** The time row of a millisecond timestamp: its UTC hour, day, ISO week,
      month, year and weekday. */
  function DeriveTime(ts: int): (r: TimeRow)
    ensures r.startTime == ts
    ensures 0 <= r.hour <= 23 && 1 <= r.week <= 53 && 0 <= r.weekday <= 6
  {
    var z := Calendar.DayNumber(ts);
    var d := Calendar.CivilFromDays(z);
    TimeRow(ts, Calendar.HourOf(ts), d.day, Calendar.IsoWeek(z), d.month, d.year, Calendar.Weekday(z))
  }

  function EventTime(e: LogEvent): TimeRow {
    DeriveTime(e.ts)
  }

  /** The songplay row of event `e`, numbered `id`, with the foreign keys
      the lookup found, or nulls. */
  function Songplay(id: int, e: LogEvent, hit: Option<SongArtist>): (r: SongplayRow)
    ensures r.songId.None? <==> hit.None?
    ensures r.artistId.None? <==> hit.None?
    ensures hit.Some? ==> r.songId == Some(hit.value.songId) && r.artistId == Some(hit.value.artistId)
  {
    SongplayRow(id, e.ts, e.userId, e.level,
      if hit.Some? then Some(hit.value.songId) else None,
      if hit.Some? then Some(hit.value.artistId) else None,
      e.sessionId, e.location, e.userAgent)
  }

  /** Every field of a time row lies in its calendar range, the row names
      the UTC hour that holds `ts`, and its week and weekday are those of
      that date. */
  lemma DeriveTimeFields(ts: int)
    ensures var r := DeriveTime(ts);
      var date := Calendar.Date(r.year, r.month, r.day);
      && r.startTime == ts
      && 0 <= r.hour <= 23 && 1 <= r.day <= 31 && 1 <= r.month <= 12
      && 1 <= r.week <= 53 && 0 <= r.weekday <= 6
      && Calendar.ValidDate(date)
      && Calendar.DaysFromCivil(date) * Calendar.MsPerDay + r.hour * Calendar.MsPerHour <= ts
      && ts < Calendar.DaysFromCivil(date) * Calendar.MsPerDay + (r.hour + 1) * Calendar.MsPerHour
      && r.weekday == Calendar.Weekday(Calendar.DaysFromCivil(date))
      && r.week == Calendar.IsoWeekOfThursday(Calendar.DaysFromCivil(date))
  {
    var z := Calendar.DayNumber(ts);
    Calendar.CivilFromDaysRoundTrip(z);
    Calendar.IsoWeekIsWeekOfThursday(z);
  }

  /** Sunday 2018-11-11 02:33:56.796 UTC: hour 2, ISO week 45, weekday 6. */
  lemma DeriveTimeExample()
    ensures DeriveTime(1_541_903_636_796) == TimeRow(1_541_903_636_796, 2, 11, 45, 11, 2018, 6)
  {
    assert Calendar.DayNumber(1_541_903_636_796) == 17846;
    assert Calendar.Jan1(2018) == 17532 && Calendar.Jan1(2019) == 17897;
    Calendar.YearAndOrdinalOf(17846, 2018);
    assert Calendar.CivilFromDays(17846) == Calendar.Date(2018, 11, 11);
  }
}
