/**
 * The destination-catalog adapter (`YouTubeClient` in src/youtube_client.py).
 *
 * The music library behind it is an oracle, `Library`: each library call is
 * answered by a function of the call's position in the client's history
 * (`calls`) and its arguments, and either returns a value or raises an error
 * carrying a message. The client's own logic -- auth-error classification,
 * the one-shot warning, query building, result selection, the playlist
 * listing cache, the empty-batch short-circuit and the `videoId` filter --
 * is modelled on top of it.
 */
module YouTube {
  import opened Common

  /** What a library call did: returned a value or raised an error whose text is `message`. */
  datatype Outcome<T> = Returned(value: T) | Raised(message: string)

  /** One search result as the library gives it; absent keys are `None`. */
  datatype SearchHit = SearchHit(
    videoId: Option<string>, title: Option<string>, artists: seq<string>,
    album: Option<string>, duration: Option<string>)

  /** The match `search_track` hands back. */
  datatype TrackMatch = TrackMatch(
    videoId: string, title: string, artists: seq<string>, album: string, duration: string)

  /** One entry of a playlist as the library gives it. */
  datatype PlaylistItem = PlaylistItem(videoId: Option<string>, title: Option<string>, artists: seq<string>)

  /** One entry as `get_playlist_tracks` returns it. */
  datatype PlaylistTrack = PlaylistTrack(videoId: string, title: string, artists: seq<string>)

  /** One of the user's playlists as the library lists it. */
  datatype LibraryPlaylist = LibraryPlaylist(playlistId: string, title: string, count: Option<int>)

  /** One cached playlist: `{id, title, count}`. */
  datatype PlaylistInfo = PlaylistInfo(id: string, title: string, count: int)

  /** The library's answers, by call index and arguments. */
  datatype Library = Library(
    search: (nat, string) -> Outcome<seq<SearchHit>>,
    createPlaylist: (nat, string, string, string) -> Outcome<string>,
    getPlaylist: (nat, string) -> Outcome<seq<PlaylistItem>>,
    addPlaylistItems: (nat, string, seq<string>) -> Outcome<()>,
    getLibraryPlaylists: nat -> Outcome<seq<LibraryPlaylist>>)

  /** Markers whose presence in an error's lower-cased text means expired or missing credentials. */
  const AUTH_KEYWORDS: seq<string> := ["access_token", "unauthorized", "401", "authentication", "expired"]

  /** Privacy status given to every created playlist. */
  const PRIVATE := "PRIVATE"

  function LowerChar(c: char): char
  {
    if 'A' <= c <= 'Z' then (c as int + 32) as char else c
  }

  /** `str.lower()` on ASCII letters. */
  function Lower(s: string): (r: string)
    ensures |r| == |s|
    ensures forall i :: 0 <= i < |s| ==> r[i] == LowerChar(s[i])
  {
    seq(|s|, i requires 0 <= i < |s| => LowerChar(s[i]))
  }

  /** `sub in s` for strings. */
  predicate Contains(s: string, sub: string)
  {
    StartsWith(s, sub) || (s != [] && Contains(s[1..], sub))
  }

  /** `any(keyword in s for keyword in keys)`. */
  predicate ContainsAny(s: string, keys: seq<string>)
  {
    exists i :: 0 <= i < |keys| && Contains(s, keys[i])
  }

  /** `sub` occurs in `s` starting at position `i`. */
  predicate OccursAt(s: string, sub: string, i: nat)
  {
    i + |sub| <= |s| && s[i..i + |sub|] == sub
  }

  /** The stretch of `message` at `i` lower-cases to the `k`-th auth marker. */
  predicate MarkerAt(message: string, k: nat, i: nat)
  {
    k < |AUTH_KEYWORDS| && i + |AUTH_KEYWORDS[k]| <= |message|
    && Lower(message[i..i + |AUTH_KEYWORDS[k]|]) == AUTH_KEYWORDS[k]
  }

  /**
   * `_is_auth_error`: the lower-cased error text mentions one of the auth
   * markers; equivalently, some stretch of the text lower-cases to a marker.
   */
  predicate IsAuthError(message: string)
    ensures IsAuthError(message) <==> exists k: nat, i: nat :: MarkerAt(message, k, i)
  {
    AuthWindows(message);
    ContainsAny(Lower(message), AUTH_KEYWORDS)
  }

  /** Lower-casing twice is lower-casing once. */
  lemma LowerIdempotent(s: string)
    ensures Lower(Lower(s)) == Lower(s)
  {
  }

  /** `sub in s` holds exactly when `sub` occurs somewhere in `s`. */
  lemma {:induction false} ContainsIffSlice(s: string, sub: string)
    ensures Contains(s, sub) <==> exists i: nat :: OccursAt(s, sub, i)
    decreases |s|
  {
    if StartsWith(s, sub) {
      assert OccursAt(s, sub, 0);
    }
    if s != [] {
      ContainsIffSlice(s[1..], sub);
      if exists i: nat :: OccursAt(s, sub, i) {
        var i: nat :| OccursAt(s, sub, i);
        if i > 0 {
          assert s[1..][i - 1..i - 1 + |sub|] == sub;
          assert OccursAt(s[1..], sub, i - 1);
        }
      }
      if Contains(s[1..], sub) {
        var i: nat :| OccursAt(s[1..], sub, i);
        assert s[i + 1..i + 1 + |sub|] == sub;
        assert OccursAt(s, sub, i + 1);
      }
    }
  }

  /** Lower-casing commutes with slicing. */
  lemma LowerSlice(s: string, i: nat, j: nat)
    requires i <= j <= |s|
    ensures Lower(s)[i..j] == Lower(s[i..j])
  {
  }

  /** A marker found in the lower-cased text is a stretch of the text that lower-cases to it. */
  lemma AuthWindows(message: string)
    ensures ContainsAny(Lower(message), AUTH_KEYWORDS) <==> exists k: nat, i: nat :: MarkerAt(message, k, i)
  {
    var low := Lower(message);
    forall k: nat, i: nat | k < |AUTH_KEYWORDS|
      ensures OccursAt(low, AUTH_KEYWORDS[k], i) <==> MarkerAt(message, k, i)
    {
      if i + |AUTH_KEYWORDS[k]| <= |message| {
        LowerSlice(message, i, i + |AUTH_KEYWORDS[k]|);
      }
    }
    forall k | 0 <= k < |AUTH_KEYWORDS|
      ensures Contains(low, AUTH_KEYWORDS[k]) <==> exists i: nat :: MarkerAt(message, k, i)
    {
      ContainsIffSlice(low, AUTH_KEYWORDS[k]);
    }
  }

  /** Lower-casing keeps every substring, lower-cased. */
  lemma {:induction false} ContainsLower(s: string, sub: string)
    requires Contains(s, sub)
    ensures Contains(Lower(s), Lower(sub))
  {
    if StartsWith(s, sub) {
      assert Lower(s)[..|sub|] == Lower(sub);
    } else {
      ContainsLower(s[1..], sub);
      assert Lower(s)[1..] == Lower(s[1..]);
    }
  }

  /** The classification ignores letter case: an error and its lower-cased text agree. */
  lemma AuthErrorIgnoresCase(message: string)
    ensures IsAuthError(Lower(message)) == IsAuthError(message)
  {
    LowerIdempotent(message);
  }

  /** An error mentioning a marker in any letter case is an auth error. */
  lemma AuthMarkerInAnyCase(message: string, word: string, i: nat)
    requires i < |AUTH_KEYWORDS| && Lower(word) == AUTH_KEYWORDS[i]
    requires Contains(message, word)
    ensures IsAuthError(message)
  {
    ContainsLower(message, word);
  }

  /** The query `search_track` sends: title and artists, then the album only when it is non-empty. */
  function SearchQuery(trackName: string, artistName: string, albumName: string): (q: string)
    ensures albumName == "" ==> q == trackName + " " + artistName
    ensures albumName != "" ==> q == trackName + " " + artistName + " " + albumName
  {
    var query := trackName + " " + artistName;
    if albumName != "" then query + " " + albumName else query
  }

  /** The match built from a hit: its id, and `""` for a missing title, album or duration. */
  function ToMatch(h: SearchHit): (r: TrackMatch)
    requires h.videoId.Some?
    ensures r.videoId == h.videoId.value && r.artists == h.artists
    ensures r.title == (if h.title.Some? then h.title.value else "")
    ensures r.album == (if h.album.Some? then h.album.value else "")
    ensures r.duration == (if h.duration.Some? then h.duration.value else "")
  {
    TrackMatch(h.videoId.value, h.title.GetOr(""), h.artists, h.album.GetOr(""), h.duration.GetOr(""))
  }

  /**
   * Result selection of `search_track`: the first hit whose `videoId` is
   * truthy, its id kept; `None` when no hit qualifies.
   */
  function FirstPlayable(hits: seq<SearchHit>): (r: Option<TrackMatch>)
    ensures r.Some? <==> exists i :: 0 <= i < |hits| && Truthy(hits[i].videoId)
    ensures r.Some? ==> r.value.videoId != ""
    ensures r.Some? ==> exists i :: 0 <= i < |hits| && Truthy(hits[i].videoId) && r.value == ToMatch(hits[i])
                          && forall j :: 0 <= j < i ==> !Truthy(hits[j].videoId)
  {
    if hits == [] then None
    else if Truthy(hits[0].videoId) then Some(ToMatch(hits[0]))
    else
      var r := FirstPlayable(hits[1..]);
      assert forall i :: 1 <= i < |hits| ==> hits[i] == hits[1..][i - 1];
      r
  }

  /** Result selection of `playlist_exists`: the id of the first playlist titled exactly `title`. */
  function FirstIdWithTitle(playlists: seq<PlaylistInfo>, title: string): (r: Option<string>)
    ensures r.Some? <==> exists i :: 0 <= i < |playlists| && playlists[i].title == title
    ensures r.Some? ==> exists i :: 0 <= i < |playlists| && playlists[i].title == title
                          && r.value == playlists[i].id
                          && forall j :: 0 <= j < i ==> playlists[j].title != title
  {
    if playlists == [] then None
    else if playlists[0].title == title then Some(playlists[0].id)
    else
      var r := FirstIdWithTitle(playlists[1..], title);
      assert forall i :: 1 <= i < |playlists| ==> playlists[i] == playlists[1..][i - 1];
      r
  }

  /** The comprehension of `get_playlist_tracks`: the items with a truthy `videoId`, in order. */
  function Playable(items: seq<PlaylistItem>): (r: seq<PlaylistTrack>)
    ensures |r| <= |items|
    ensures forall t :: t in r ==> t.videoId != ""
    ensures forall t :: t in r <==> exists i :: 0 <= i < |items| && Truthy(items[i].videoId)
                                       && t == PlaylistTrack(items[i].videoId.value, items[i].title.GetOr(""), items[i].artists)
  {
    if items == [] then []
    else
      var rest := Playable(items[1..]);
      assert forall i :: 1 <= i < |items| ==> items[i] == items[1..][i - 1];
      var it := items[0];
      if Truthy(it.videoId) then [PlaylistTrack(it.videoId.value, it.title.GetOr(""), it.artists)] + rest
      else rest
  }

  /** Filtering distributes over concatenation: the order of the kept tracks is the order of the items. */
  lemma {:induction false} PlayableAppend(a: seq<PlaylistItem>, b: seq<PlaylistItem>)
    ensures Playable(a + b) == Playable(a) + Playable(b)
  {
    if a != [] {
      assert (a + b)[1..] == a[1..] + b;
      PlayableAppend(a[1..], b);
    } else {
      assert a + b == b;
    }
  }

  /** The cached form of the library listing. */
  function Infos(playlists: seq<LibraryPlaylist>): (r: seq<PlaylistInfo>)
    ensures |r| == |playlists|
    ensures forall i :: 0 <= i < |r| ==>
              r[i] == PlaylistInfo(playlists[i].playlistId, playlists[i].title, playlists[i].count.GetOr(0))
  {
    seq(|playlists|, i requires 0 <= i < |playlists| =>
      PlaylistInfo(playlists[i].playlistId, playlists[i].title, playlists[i].count.GetOr(0)))
  }

  /** The listing `get_playlists` hands back: the cached one, else the fetch made as call `c` (`[]` when it raises). */
  function ListingAfter(yt: Library, cache: Option<seq<PlaylistInfo>>, c: nat): seq<PlaylistInfo>
  {
    match cache
    case Some(cached) => cached
    case None =>
      match yt.getLibraryPlaylists(c)
      case Returned(ps) => Infos(ps)
      case Raised(_) => []
  }

  /** What `create_playlist` returns when the creation is call `c` and the read-back call `c + 1`. */
  function CreateResult(yt: Library, c: nat, title: string, description: string): Option<string>
  {
    match yt.createPlaylist(c, title, description, PRIVATE)
    case Raised(_) => None
    case Returned(id) => if yt.getPlaylist(c + 1, id).Returned? then Some(id) else None
  }

  /** What `get_playlist_tracks` returns when the read is call `c`. */
  function PlaylistRead(yt: Library, c: nat, playlistId: string): seq<PlaylistTrack>
  {
    match yt.getPlaylist(c, playlistId)
    case Returned(items) => Playable(items)
    case Raised(_) => []
  }

  /**
   * How an absorbed error changes the auth flag and the warnings shown:
   * an auth error sets the flag, and a warning naming the operation is shown
   * only when the flag goes from false to true.
   */
  ghost predicate AuthNoted(wasFailed: bool, wasWarned: seq<string>, failed: bool, warned: seq<string>,
                            message: string, operation: string)
  {
    && failed == (wasFailed || IsAuthError(message))
    && warned == (if !wasFailed && IsAuthError(message) then wasWarned + [operation] else wasWarned)
  }

  class YouTubeClient {
    const yt: Library
    /** Number of library calls made so far; selects the library's next answers. */
    var calls: nat
    var cachedPlaylists: Option<seq<PlaylistInfo>>
    var authFailed: bool
    /** The operations for which the auth warning was shown. */
    var authWarnings: seq<string>

    /** The warning is shown at most once, exactly when the auth flag is set. */
    ghost predicate Valid()
      reads this
    {
      |authWarnings| == if authFailed then 1 else 0
    }

    constructor (library: Library)
      ensures Valid() && yt == library && calls == 0
      ensures cachedPlaylists == None && !authFailed && authWarnings == []
    {
      yt := library;
      calls := 0;
      cachedPlaylists := None;
      authFailed := false;
      authWarnings := [];
    }

    /** `_handle_auth_error`: sets the flag and warns only on the first auth failure. */
    method HandleAuthError(operation: string)
      requires Valid()
      modifies this`authFailed, this`authWarnings
      ensures Valid() && authFailed
      ensures authWarnings == if old(authFailed) then old(authWarnings) else old(authWarnings) + [operation]
    {
      if !authFailed {
        authFailed := true;
        authWarnings := authWarnings + [operation];
      }
    }

    /** Absorbs a raised error: auth errors go through `HandleAuthError`, others only print. */
    method Absorb(message: string, operation: string)
      requires Valid()
      modifies this`authFailed, this`authWarnings
      ensures Valid()
      ensures AuthNoted(old(authFailed), old(authWarnings), authFailed, authWarnings, message, operation)
    {
      if IsAuthError(message) {
        HandleAuthError(operation);
      }
    }

    /**
     * `search_track`: one search call; the first hit with a truthy `videoId`,
     * or `None` for no hits, no qualifying hit, or a raised error.
     */
    method SearchTrack(trackName: string, artistName: string, albumName: string) returns (r: Option<TrackMatch>)
      requires Valid()
      modifies this
      ensures Valid()
      ensures calls == old(calls) + 1 && cachedPlaylists == old(cachedPlaylists)
      ensures r.Some? ==> r.value.videoId != ""
      ensures yt.search(old(calls), SearchQuery(trackName, artistName, albumName)).Returned? ==>
                r == FirstPlayable(yt.search(old(calls), SearchQuery(trackName, artistName, albumName)).value)
                && authFailed == old(authFailed) && authWarnings == old(authWarnings)
      ensures yt.search(old(calls), SearchQuery(trackName, artistName, albumName)).Raised? ==>
                r == None
                && AuthNoted(old(authFailed), old(authWarnings), authFailed, authWarnings,
                             yt.search(old(calls), SearchQuery(trackName, artistName, albumName)).message, "search")
    {
      var query := SearchQuery(trackName, artistName, albumName);
      var answer := yt.search(calls, query);
      calls := calls + 1;
      match answer
      case Returned(hits) =>
        r := FirstPlayable(hits);
      case Raised(message) =>
        Absorb(message, "search");
        r := None;
    }

    /**
     * `create_playlist`: creates, then reads the new playlist back. A raised
     * creation or a failed read-back gives `None`; success empties the listing
     * cache so that the next lookup fetches again.
     */
    method CreatePlaylist(title: string, description: string) returns (r: Option<string>)
      requires Valid()
      modifies this
      ensures Valid() && r == CreateResult(yt, old(calls), title, description)
      ensures yt.createPlaylist(old(calls), title, description, PRIVATE).Raised? ==>
                r == None && calls == old(calls) + 1 && cachedPlaylists == old(cachedPlaylists)
                && AuthNoted(old(authFailed), old(authWarnings), authFailed, authWarnings,
                             yt.createPlaylist(old(calls), title, description, PRIVATE).message, "playlist creation")
      ensures yt.createPlaylist(old(calls), title, description, PRIVATE).Returned? ==>
                calls == old(calls) + 2 && authFailed == old(authFailed) && authWarnings == old(authWarnings)
                && var id := yt.createPlaylist(old(calls), title, description, PRIVATE).value;
                   (r.Some? <==> yt.getPlaylist(old(calls) + 1, id).Returned?)
                   && (r.Some? ==> r.value == id && cachedPlaylists == None)
                   && (r.None? ==> cachedPlaylists == old(cachedPlaylists))
    {
      var created := yt.createPlaylist(calls, title, description, PRIVATE);
      calls := calls + 1;
      match created
      case Raised(message) =>
        Absorb(message, "playlist creation");
        r := None;
      case Returned(playlistId) =>
        var check := yt.getPlaylist(calls, playlistId);
        calls := calls + 1;
        if check.Raised? {
          r := None;
        } else {
          cachedPlaylists := None;
          r := Some(playlistId);
        }
    }

    /**
     * `add_songs_to_playlist`: an empty batch succeeds without a library call;
     * otherwise success is exactly "the library call did not raise".
     */
    method AddSongsToPlaylist(playlistId: string, videoIds: seq<string>) returns (ok: bool)
      requires Valid()
      modifies this
      ensures Valid() && cachedPlaylists == old(cachedPlaylists)
      ensures videoIds == [] ==> ok && calls == old(calls)
                                 && authFailed == old(authFailed) && authWarnings == old(authWarnings)
      ensures videoIds != [] ==> calls == old(calls) + 1
                                 && (ok <==> yt.addPlaylistItems(old(calls), playlistId, videoIds).Returned?)
      ensures videoIds != [] && ok ==> authFailed == old(authFailed) && authWarnings == old(authWarnings)
      ensures videoIds != [] && !ok ==>
                AuthNoted(old(authFailed), old(authWarnings), authFailed, authWarnings,
                          yt.addPlaylistItems(old(calls), playlistId, videoIds).message, "adding songs to playlist")
    {
      if videoIds == [] {
        return true;
      }
      var answer := yt.addPlaylistItems(calls, playlistId, videoIds);
      calls := calls + 1;
      match answer
      case Returned(_) =>
        ok := true;
      case Raised(message) =>
        Absorb(message, "adding songs to playlist");
        ok := false;
    }

    /**
     * `get_playlists`: fetches the listing only while nothing is cached; a
     * failed fetch caches the empty listing.
     */
    method GetPlaylists() returns (r: seq<PlaylistInfo>)
      requires Valid()
      modifies this`calls, this`cachedPlaylists
      ensures Valid() && cachedPlaylists == Some(r) && r == ListingAfter(yt, old(cachedPlaylists), old(calls))
      ensures old(cachedPlaylists).Some? ==> r == old(cachedPlaylists).value && calls == old(calls)
      ensures old(cachedPlaylists).None? ==> calls == old(calls) + 1
      ensures old(cachedPlaylists).None? ==>
                r == match yt.getLibraryPlaylists(old(calls))
                     case Returned(ps) => Infos(ps)
                     case Raised(_) => []
    {
      if cachedPlaylists.None? {
        var answer := yt.getLibraryPlaylists(calls);
        calls := calls + 1;
        match answer
        case Returned(ps) =>
          cachedPlaylists := Some(Infos(ps));
        case Raised(_) =>
          cachedPlaylists := Some([]);
      }
      r := cachedPlaylists.value;
    }

    /**
     * `playlist_exists`: the id of the first listed playlist with exactly this
     * title, the listing fetched (and cached) only when none is cached.
     */
    method PlaylistExists(title: string) returns (r: Option<string>)
      requires Valid()
      modifies this`calls, this`cachedPlaylists
      ensures Valid() && cachedPlaylists == Some(ListingAfter(yt, old(cachedPlaylists), old(calls)))
      ensures r == FirstIdWithTitle(ListingAfter(yt, old(cachedPlaylists), old(calls)), title)
      ensures calls == old(calls) + (if old(cachedPlaylists).None? then 1 else 0)
      ensures old(cachedPlaylists).Some? ==> cachedPlaylists == old(cachedPlaylists)
    {
      var playlists := GetPlaylists();
      r := FirstIdWithTitle(playlists, title);
    }

    /** `get_playlist_tracks`: the items with a truthy `videoId`, or `[]` when the read raises. */
    method GetPlaylistTracks(playlistId: string) returns (r: seq<PlaylistTrack>)
      requires Valid()
      modifies this`calls
      ensures Valid() && calls == old(calls) + 1
      ensures r == PlaylistRead(yt, old(calls), playlistId)
      ensures yt.getPlaylist(old(calls), playlistId).Raised? ==> r == []
      ensures forall t :: t in r ==> t.videoId != ""
    {
      var answer := yt.getPlaylist(calls, playlistId);
      calls := calls + 1;
      match answer
      case Returned(items) =>
        r := Playable(items);
      case Raised(_) =>
        r := [];
    }
  }
}
