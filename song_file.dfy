/** `process_song_file`: one song row and one artist row, both taken from
    the first record of a song file. */
module SongFile {
  import opened Wrappers
  import opened Records
  import opened Sink

  /** The statements `process_song_file` issues for a file holding
      `records`, or the error it raises. */
  function SongFileOps(records: seq<SongRecord>): (r: Result<seq<Op>, Error>)
    ensures r.Failure? <==> records == []
    ensures r.Failure? ==> r.error == NoRecords
    ensures r.Success? ==>
      && |r.value| == 2
      && r.value[0] == InsertSong(SongRow(records[0].songId, records[0].title,
           records[0].artistId, records[0].year, records[0].duration))
      && r.value[1] == InsertArtist(ArtistRow(records[0].artistId, records[0].artistName,
           records[0].artistLocation, records[0].artistLatitude, records[0].artistLongitude))
  {
    if records == [] then Failure(NoRecords)
    else Success([InsertSong(SongColumns(records[0])), InsertArtist(ArtistColumns(records[0]))])
  }

  /** Records after the first change nothing. */
  lemma FirstRecordOnly(records: seq<SongRecord>, more: seq<SongRecord>)
    requires records != []
    ensures SongFileOps(records + more) == SongFileOps(records[..1])
  {
    assert (records + more)[0] == records[0];
  }

  /** The song row and the artist row share the artist id. */
  lemma SongAndArtistShareArtistId(records: seq<SongRecord>)
    requires records != []
    ensures var ops := SongFileOps(records).value;
      ops[0].song.artistId == ops[1].artist.artistId
  {
  }

  method ProcessSongFile(cur: Cursor, records: seq<SongRecord>) returns (outcome: Outcome<Error>)
    modifies cur
    ensures outcome == OutcomeOf(SongFileOps(records))
    ensures cur.trace == old(cur.trace) + Issued(SongFileOps(records))
  {
    if records == [] {
      return Fail(NoRecords);
    }
    var songData := SongColumns(records[0]);
    cur.Execute(InsertSong(songData));
    var artistData := ArtistColumns(records[0]);
    cur.Execute(InsertArtist(artistData));
    outcome := Pass;
  }
}
