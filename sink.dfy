/** The database side as the loader sees it: a cursor that executes
    statements and a connection that commits, together recording the
    ordered trace of what was sent. */
module Sink {
  import opened Wrappers
  import opened Records

  class Cursor {
    /** Every statement executed and every commit, in order. */
    var trace: seq<Op>

    /** The row that the song lookup (`song_select` then `fetchone`) returns
        for a key: its SQL is not part of this model. */
    const lookup: SongKey -> Option<SongArtist>

    constructor (lookup: SongKey -> Option<SongArtist>)
      ensures trace == [] && this.lookup == lookup
    {
      trace := [];
      this.lookup := lookup;
    }

    /** `cur.execute(<insert>, row)`. */
    method Execute(op: Op)
      modifies this
      ensures trace == old(trace) + [op]
    {
      trace := trace + [op];
    }

    /** `cur.execute(song_select, key)` followed by `cur.fetchone()`. */
    method SelectSong(key: SongKey) returns (hit: Option<SongArtist>)
      modifies this
      ensures trace == old(trace) + [Op.SelectSong(key)]
      ensures hit == lookup(key)
    {
      trace := trace + [Op.SelectSong(key)];
      hit := lookup(key);
    }

    /** `conn.commit()`. */
    method Commit()
      modifies this
      ensures trace == old(trace) + [Op.Commit]
    {
      trace := trace + [Op.Commit];
    }
  }
}
