/**
 * The migration state store (`MigrationState` in src/migrator.py): three
 * in-memory tables -- playlist mappings, per-track resolutions and the set of
 * completed playlists -- loaded once from a cache file and written back as a
 * whole. The file itself is an abstract `Document`; JSON encoding is not
 * modelled, only what survives a save and a load.
 */
module StateStore {
  import opened Common

  /** The two statuses the engine writes into a track resolution. */
  const FOUND := "found"
  const NOT_FOUND := "not_found"

  /** Where a source playlist went: `{youtube_id, name}`. */
  datatype PlaylistEntry = PlaylistEntry(youtubeId: string, name: string)

  /** A track resolution: `{status, youtube_video_id, timestamp}`. */
  datatype TrackEntry = TrackEntry(status: string, videoId: Option<string>, timestamp: int)

  /** The in-memory state: mappings, resolutions and the completion set. */
  datatype Tables = Tables(
    playlists: map<string, PlaylistEntry>,
    tracks: map<string, TrackEntry>,
    completed: set<string>,
    migrationStarted: Option<int>)

  /** The record written to disk: the completion set becomes a list. */
  datatype StoredState = StoredState(
    playlists: map<string, PlaylistEntry>,
    tracks: map<string, TrackEntry>,
    completedPlaylists: seq<string>,
    migrationStarted: Option<int>)

  /** What the cache file holds: nothing, something unreadable, or a saved state. */
  datatype Document = Missing | Corrupt | Stored(content: StoredState)

  /** Key of a track resolution: `"<playlist_id>:<track_id>"`. */
  function TrackKey(playlistId: string, trackId: string): string
  {
    playlistId + ":" + trackId
  }

  /** Reading the cache file; a missing or corrupt file gives the empty state. */
  function Load(doc: Document): (t: Tables)
    ensures !doc.Stored? ==> t.playlists == map[] && t.tracks == map[] && t.completed == {}
    ensures !doc.Stored? ==> t.migrationStarted == None
    ensures doc.Stored? ==> t.completed == Elems(doc.content.completedPlaylists)
    ensures doc.Stored? ==> t.playlists == doc.content.playlists && t.tracks == doc.content.tracks
  {
    match doc
    case Missing => Tables(map[], map[], {}, None)
    case Corrupt => Tables(map[], map[], {}, None)
    case Stored(s) => Tables(s.playlists, s.tracks, Elems(s.completedPlaylists), s.migrationStarted)
  }

  /** The resolutions left after every key with the prefix `playlistId + ":"` is removed. */
  function WithoutPlaylist(tracks: map<string, TrackEntry>, playlistId: string): (r: map<string, TrackEntry>)
    ensures forall k :: k in r <==> k in tracks && !StartsWith(k, playlistId + ":")
    ensures forall k :: k in r ==> r[k] == tracks[k]
  {
    map k | k in tracks && !StartsWith(k, playlistId + ":") :: tracks[k]
  }

  /** Position of the first colon of `s` (`|s|` when there is none). */
  function ColonAt(s: string): nat
  {
    if s == [] || s[0] == ':' then 0 else 1 + ColonAt(s[1..])
  }

  /** In a key built from a colon-free playlist id, the first colon ends the id. */
  lemma {:induction false} ColonAtKey(p: string, t: string)
    requires ':' !in p
    ensures ColonAt(TrackKey(p, t)) == |p|
  {
    if p != [] {
      assert TrackKey(p, t)[1..] == TrackKey(p[1..], t);
      ColonAtKey(p[1..], t);
    }
  }

  /**
   * With colon-free playlist ids, a key starts with `p + ":"` exactly when it
   * belongs to playlist `p`: resetting one playlist touches no other.
   */
  lemma {:induction false} TrackKeyOwner(p: string, q: string, t: string)
    requires ':' !in p && ':' !in q
    ensures StartsWith(TrackKey(q, t), p + ":") <==> p == q
  {
    var k := TrackKey(q, t);
    if StartsWith(k, p + ":") {
      var rest := k[|p| + 1..];
      assert k == TrackKey(p, rest);
      ColonAtKey(p, rest);
      ColonAtKey(q, t);
      assert p == k[..|p|] == q;
    }
  }

  /** With colon-free playlist ids, different (playlist, track) pairs have different keys. */
  lemma {:induction false} TrackKeyInjective(p: string, t: string, q: string, u: string)
    requires ':' !in p && ':' !in q
    ensures TrackKey(p, t) == TrackKey(q, u) <==> p == q && t == u
  {
    if TrackKey(p, t) == TrackKey(q, u) {
      TrackKeyOwner(p, q, u);
      assert StartsWith(TrackKey(p, t), p + ":");
      assert p == q;
      assert t == TrackKey(p, t)[|p| + 1..];
      assert u == TrackKey(q, u)[|q| + 1..];
    }
  }

  /**
   * The store. The cache file is the field `file`; `SaveState` rewrites it
   * from the in-memory tables, the constructor reads it.
   */
  class MigrationState {
    var playlists: map<string, PlaylistEntry>
    var tracks: map<string, TrackEntry>
    var completed: set<string>
    var migrationStarted: Option<int>
    var file: Document

    /** The in-memory tables as one value. */
    function Current(): Tables
      reads this
    {
      Tables(playlists, tracks, completed, migrationStarted)
    }

    /** Loads the state from the cache file; a missing or corrupt file yields empty tables. */
    constructor (cacheFile: Document)
      ensures file == cacheFile
      ensures Current() == Load(cacheFile)
      ensures !cacheFile.Stored? ==> playlists == map[] && tracks == map[] && completed == {}
    {
      var t := Load(cacheFile);
      playlists := t.playlists;
      tracks := t.tracks;
      completed := t.completed;
      migrationStarted := t.migrationStarted;
      file := cacheFile;
    }

    /**
     * The record `save_state` writes: the same tables, with the completion set
     * listed once per member. Nothing in memory changes, and loading the
     * record gives the current tables back.
     */
    method Serialize() returns (doc: StoredState)
      ensures doc.playlists == playlists && doc.tracks == tracks
      ensures doc.migrationStarted == migrationStarted
      ensures Elems(doc.completedPlaylists) == completed
      ensures Distinct(doc.completedPlaylists)
      ensures |doc.completedPlaylists| == |completed|
      ensures Load(Stored(doc)) == Current()
    {
      var rest := completed;
      var list: seq<string> := [];
      while rest != {}
        invariant Elems(list) + rest == completed
        invariant Elems(list) !! rest
        invariant Distinct(list)
        decreases |rest|
      {
        var x :| x in rest;
        MoveToList(list, rest, completed, x);
        list := list + [x];
        rest := rest - {x};
      }
      DistinctCard(list);
      doc := StoredState(playlists, tracks, list, migrationStarted);
    }

    /** Rewrites the cache file; reloading it reproduces the in-memory tables. */
    method SaveState()
      modifies this`file
      ensures file.Stored? && Load(file) == Current()
      ensures Elems(file.content.completedPlaylists) == completed
      ensures Distinct(file.content.completedPlaylists)
      ensures Current() == old(Current())
    {
      var doc := Serialize();
      file := Stored(doc);
    }

    function IsPlaylistCompleted(playlistId: string): (r: bool)
      reads this
      ensures r <==> playlistId in completed
    {
      playlistId in completed
    }

    /** Adds the playlist to the completion set; repeating it changes nothing. */
    method MarkPlaylistCompleted(playlistId: string)
      modifies this`completed
      ensures IsPlaylistCompleted(playlistId)
      ensures completed == old(completed) + {playlistId}
      ensures forall q :: q != playlistId ==> (IsPlaylistCompleted(q) <==> old(IsPlaylistCompleted(q)))
      ensures old(IsPlaylistCompleted(playlistId)) ==> Current() == old(Current())
      ensures playlists == old(playlists) && tracks == old(tracks)
      ensures migrationStarted == old(migrationStarted) && file == old(file)
    {
      completed := completed + {playlistId};
    }

    function GetYoutubePlaylistId(playlistId: string): (r: Option<string>)
      reads this
      ensures r.Some? <==> playlistId in playlists
      ensures r.Some? ==> r.value == playlists[playlistId].youtubeId
    {
      if playlistId in playlists then Some(playlists[playlistId].youtubeId) else None
    }

    /** Upserts the mapping of one source playlist; every other mapping stays. */
    method SetYoutubePlaylistId(playlistId: string, youtubeId: string, name: string)
      modifies this`playlists
      ensures GetYoutubePlaylistId(playlistId) == Some(youtubeId)
      ensures playlists == old(playlists)[playlistId := PlaylistEntry(youtubeId, name)]
      ensures forall q :: q != playlistId ==> GetYoutubePlaylistId(q) == old(GetYoutubePlaylistId(q))
      ensures tracks == old(tracks) && completed == old(completed)
      ensures migrationStarted == old(migrationStarted) && file == old(file)
    {
      playlists := playlists[playlistId := PlaylistEntry(youtubeId, name)];
    }

    function IsTrackMigrated(trackId: string, playlistId: string): (r: bool)
      reads this
      ensures r <==> TrackKey(playlistId, trackId) in tracks
    {
      TrackKey(playlistId, trackId) in tracks
    }

    function GetTrackStatus(trackId: string, playlistId: string): (r: Option<TrackEntry>)
      reads this
      ensures r.Some? <==> IsTrackMigrated(trackId, playlistId)
      ensures r.Some? ==> r.value == tracks[TrackKey(playlistId, trackId)]
    {
      var key := TrackKey(playlistId, trackId);
      if key in tracks then Some(tracks[key]) else None
    }

    /** Records a resolution under `"<playlist_id>:<track_id>"` and touches no other key. */
    method MarkTrackMigrated(trackId: string, playlistId: string, status: string,
                             videoId: Option<string>, timestamp: int)
      modifies this`tracks
      ensures GetTrackStatus(trackId, playlistId) == Some(TrackEntry(status, videoId, timestamp))
      ensures IsTrackMigrated(trackId, playlistId)
      ensures tracks == old(tracks)[TrackKey(playlistId, trackId) := TrackEntry(status, videoId, timestamp)]
      ensures forall k :: k != TrackKey(playlistId, trackId) ==>
                (k in tracks <==> k in old(tracks)) && (k in tracks ==> tracks[k] == old(tracks)[k])
      ensures playlists == old(playlists) && completed == old(completed)
      ensures migrationStarted == old(migrationStarted) && file == old(file)
    {
      tracks := tracks[TrackKey(playlistId, trackId) := TrackEntry(status, videoId, timestamp)];
    }
  }
}
