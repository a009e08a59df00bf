/**
 * The reconciliation engine (`SpotifyToYouTubeMigrator` in src/migrator.py):
 * per-playlist migration, the chunked track walk, batched insertion and the
 * session runner. The source catalog's answers (tracks of a playlist), the
 * user's confirmation and the clock are parameters; the destination is the
 * `YouTubeClient` model over its library oracle.
 */
module Engine {
  import opened Common
  import opened StateStore
  import opened YouTube
  import opened Reconcile

  /** Every completed playlist has a destination mapping. */
  ghost predicate CompletedAreMapped(completed: set<string>, playlists: map<string, PlaylistEntry>)
  {
    forall p :: p in completed ==> p in playlists
  }

  /** The set of video ids read from a destination playlist. */
  function VideoIds(tracks: seq<PlaylistTrack>): (r: set<string>)
    ensures forall v :: v in r <==> exists i :: 0 <= i < |tracks| && tracks[i].videoId == v && v != ""
  {
    set i | 0 <= i < |tracks| && tracks[i].videoId != "" :: tracks[i].videoId
  }

  /** The video id `search_track` yields for track `t` when its search is library call `c`. */
  function SearchAnswer(yt: Library, c: nat, t: SourceTrack): (r: Option<string>)
    ensures r.Some? ==> r.value != ""
    ensures yt.search(c, SearchQuery(t.name, JoinArtists(t.artists), t.album)).Raised? ==> r == None
  {
    match yt.search(c, SearchQuery(t.name, JoinArtists(t.artists), t.album))
    case Returned(hits) => if FirstPlayable(hits).Some? then Some(FirstPlayable(hits).value.videoId) else None
    case Raised(_) => None
  }

  /**
   * The search answers of a run of tracks came from the library, in track
   * order: the last track's answer is what the search made as call `at[n]`
   * gave for it, that call lies at or below `hi`, and the earlier tracks were
   * answered by calls between `lo` and `at[n]`. For a track that was not
   * searched, `at[i]` is the call count at its turn and its answer is never
   * consulted (`Visit` reads the answer only on `Search`).
   */
  ghost predicate AnsweredAt(yt: Library, tracks: seq<SourceTrack>, answers: seq<Option<string>>,
                             at: seq<nat>, lo: nat, hi: nat)
    decreases |tracks|
  {
    && |answers| == |tracks| && |at| == |tracks|
    && if tracks == [] then lo <= hi
       else
         var n := |tracks| - 1;
         && AnsweredAt(yt, tracks[..n], answers[..n], at[..n], lo, at[n])
         && answers[n] == SearchAnswer(yt, at[n], tracks[n])
         && at[n] <= hi
  }

  /** What `AnsweredAt` says track by track: each answer came from its call, the calls in range and in order. */
  lemma {:induction false} AnsweredPointwise(yt: Library, tracks: seq<SourceTrack>, answers: seq<Option<string>>,
                                             at: seq<nat>, lo: nat, hi: nat)
    requires AnsweredAt(yt, tracks, answers, at, lo, hi)
    ensures |answers| == |tracks| && |at| == |tracks| && lo <= hi
    ensures forall i :: 0 <= i < |tracks| ==> answers[i] == SearchAnswer(yt, at[i], tracks[i])
    ensures forall i :: 0 <= i < |at| ==> lo <= at[i] <= hi
    ensures forall i, j :: 0 <= i < j < |at| ==> at[i] <= at[j]
    decreases |tracks|
  {
    if tracks != [] {
      var n := |tracks| - 1;
      var ts, an, cs := tracks[..n], answers[..n], at[..n];
      assert AnsweredAt(yt, ts, an, cs, lo, at[n]) && answers[n] == SearchAnswer(yt, at[n], tracks[n]) && at[n] <= hi;
      AnsweredPointwise(yt, ts, an, cs, lo, at[n]);
      forall i | 0 <= i < |tracks|
        ensures answers[i] == SearchAnswer(yt, at[i], tracks[i]) && lo <= at[i] <= hi
      {
        if i < n {
          assert ts[i] == tracks[i] && an[i] == answers[i] && cs[i] == at[i];
        }
      }
      forall i, j | 0 <= i < j < |at|
        ensures at[i] <= at[j]
      {
        assert cs[i] == at[i];
        if j < n {
          assert cs[j] == at[j];
        }
      }
    }
  }

  /** The answer of the next track of a prefix extends the prefix's answers. */
  lemma AnsweredStep(yt: Library, tracks: seq<SourceTrack>, answers: seq<Option<string>>, at: seq<nat>,
                     lo: nat, c: nat, hi: nat)
    requires |answers| < |tracks| && c <= hi
    requires AnsweredAt(yt, tracks[..|answers|], answers, at, lo, c)
    ensures AnsweredAt(yt, tracks[..|answers| + 1], answers + [SearchAnswer(yt, c, tracks[|answers|])],
                       at + [c], lo, hi)
  {
    var j := |answers|;
    assert tracks[..j + 1][..j] == tracks[..j];
    assert (answers + [SearchAnswer(yt, c, tracks[j])])[..j] == answers;
    assert (at + [c])[..j] == at;
  }

  /**
   * One more track of a chunk: its visit extends the walk over the chunk's
   * prefix, its answer (from call `c`) extends the answers, and the calls
   * made so far are still one per search.
   */
  lemma ChunkStep(yt: Library, prog: Progress, pass: Pass, chunk: seq<SourceTrack>, answers: seq<Option<string>>,
                  at: seq<nat>, done: Progress, lo: nat, c: nat, hi: nat, answer: Option<string>)
    requires |answers| < |chunk| && RealAnswers(answers)
    requires done == WalkTracks(prog, pass, chunk[..|answers|], answers)
    requires AnsweredAt(yt, chunk[..|answers|], answers, at, lo, c)
    requires c == lo + (done.searches - prog.searches)
    requires answer == SearchAnswer(yt, c, chunk[|answers|])
    requires hi == c + (Visit(done, pass, chunk[|answers|], answer).searches - done.searches)
    ensures RealAnswers(answers + [answer])
    ensures Visit(done, pass, chunk[|answers|], answer) == WalkTracks(prog, pass, chunk[..|answers| + 1], answers + [answer])
    ensures AnsweredAt(yt, chunk[..|answers| + 1], answers + [answer], at + [c], lo, hi)
    ensures hi == lo + (Visit(done, pass, chunk[|answers|], answer).searches - prog.searches)
  {
    WalkPrefixStep(prog, pass, chunk, answers, answer);
    RealAnswersAppend(answers, [answer]);
    AnsweredStep(yt, chunk, answers, at, lo, c, hi);
  }

  /**
   * One more chunk `tracks[i..j]`: its walk extends the walk over the
   * prefix, and its answers (from calls after the prefix's) extend the
   * prefix's answers.
   */
  lemma ChunksStep(yt: Library, start: Progress, pass: Pass, tracks: seq<SourceTrack>, j: nat,
                   answers: seq<Option<string>>, at: seq<nat>, more: seq<Option<string>>, moreAt: seq<nat>,
                   done: Progress, lo: nat, mid: nat, hi: nat)
    requires |answers| <= j <= |tracks| && |more| == j - |answers|
    requires RealAnswers(answers) && RealAnswers(more)
    requires done == WalkTracks(start, pass, tracks[..|answers|], answers)
    requires AnsweredAt(yt, tracks[..|answers|], answers, at, lo, mid)
    requires AnsweredAt(yt, tracks[|answers|..j], more, moreAt, mid, hi)
    ensures |answers + more| == j && RealAnswers(answers + more)
    ensures WalkTracks(done, pass, tracks[|answers|..j], more) == WalkTracks(start, pass, tracks[..j], answers + more)
    ensures AnsweredAt(yt, tracks[..j], answers + more, at + moreAt, lo, hi)
  {
    WalkPrefixSlice(start, pass, tracks, j, answers, more);
    RealAnswersAppend(answers, more);
    AnsweredAppend(yt, tracks[..|answers|], answers, at, tracks[|answers|..j], more, moreAt, lo, mid, hi);
    assert tracks[..j] == tracks[..|answers|] + tracks[|answers|..j];
  }

  /** Answers stay answers when the upper end of the call range moves up. */
  lemma AnsweredWiden(yt: Library, tracks: seq<SourceTrack>, answers: seq<Option<string>>, at: seq<nat>,
                      lo: nat, hi: nat, hi': nat)
    requires AnsweredAt(yt, tracks, answers, at, lo, hi) && hi <= hi'
    ensures AnsweredAt(yt, tracks, answers, at, lo, hi')
  {
  }

  /** One more answered track, from a call at or after the previous ones, extends the answers. */
  lemma AnsweredSnoc(yt: Library, tracks: seq<SourceTrack>, answers: seq<Option<string>>, at: seq<nat>,
                     lo: nat, c: nat, hi: nat, track: SourceTrack)
    requires AnsweredAt(yt, tracks, answers, at, lo, c) && c <= hi
    ensures AnsweredAt(yt, tracks + [track], answers + [SearchAnswer(yt, c, track)], at + [c], lo, hi)
  {
    assert (tracks + [track])[..|tracks|] == tracks;
    assert (answers + [SearchAnswer(yt, c, track)])[..|tracks|] == answers;
    assert (at + [c])[..|tracks|] == at;
  }

  /** Answers for two consecutive runs of tracks, from consecutive call ranges, are answers for both. */
  lemma {:induction false} AnsweredAppend(yt: Library, a: seq<SourceTrack>, ansA: seq<Option<string>>,
                                          atA: seq<nat>, b: seq<SourceTrack>, ansB: seq<Option<string>>,
                                          atB: seq<nat>, lo: nat, mid: nat, hi: nat)
    requires AnsweredAt(yt, a, ansA, atA, lo, mid) && AnsweredAt(yt, b, ansB, atB, mid, hi)
    ensures AnsweredAt(yt, a + b, ansA + ansB, atA + atB, lo, hi)
    decreases |b|
  {
    if b == [] {
      assert a + b == a && ansA + ansB == ansA && atA + atB == atA;
      AnsweredWiden(yt, a, ansA, atA, lo, mid, hi);
    } else {
      var n := |b| - 1;
      AnsweredAppend(yt, a, ansA, atA, b[..n], ansB[..n], atB[..n], lo, mid, atB[n]);
      AnsweredSnoc(yt, a + b[..n], ansA + ansB[..n], atA + atB[..n], lo, atB[n], hi, b[n]);
      AppendSnoc(a, b);
      AppendSnoc(ansA, ansB);
      AppendSnoc(atA, atB);
    }
  }

  /**
   * The destination playlist `migrate_playlist` settles on: the cached
   * mapping when it is truthy and the pass is not forced, else the first
   * library playlist with the destination name, else a newly created one.
   * `c` is the index of the first library call and `cache` the adapter's
   * listing cache at that point.
   */
  function Destination(yt: Library, cached: Option<string>, force: bool, cache: Option<seq<PlaylistInfo>>,
                       c: nat, name: string, isLikedSongs: bool): (r: Option<string>)
    ensures r.Some? ==> r.value != ""
    ensures !force && Truthy(cached) ==> r == cached
    ensures r.None? <==>
              && (force || !Truthy(cached))
              && !Truthy(FirstIdWithTitle(ListingAfter(yt, cache, c), name))
              && !Truthy(CreateResult(yt, if cache.None? then c + 1 else c, name, Description(isLikedSongs)))
  {
    if !force && Truthy(cached) then cached
    else
      var found := FirstIdWithTitle(ListingAfter(yt, cache, c), name);
      if Truthy(found) then found
      else
        var created := CreateResult(yt, if cache.None? then c + 1 else c, name, Description(isLikedSongs));
        if Truthy(created) then created else None
  }

  /**
   * Whether the destination choice creates a playlist: no truthy mapping is
   * used, no library playlist has the name, and the creation yields an id.
   */
  function Creates(yt: Library, cached: Option<string>, force: bool, cache: Option<seq<PlaylistInfo>>,
                   c: nat, name: string, isLikedSongs: bool): (r: bool)
    ensures r ==> Destination(yt, cached, force, cache, c, name, isLikedSongs)
                  == CreateResult(yt, if cache.None? then c + 1 else c, name, Description(isLikedSongs))
    ensures r ==> Destination(yt, cached, force, cache, c, name, isLikedSongs).Some?
    ensures !force && Truthy(cached) ==> !r
  {
    && (force || !Truthy(cached))
    && !Truthy(FirstIdWithTitle(ListingAfter(yt, cache, c), name))
    && Truthy(CreateResult(yt, if cache.None? then c + 1 else c, name, Description(isLikedSongs)))
  }

  /**
   * Library calls the destination choice takes: none for a used mapping;
   * otherwise the listing when nothing is cached, then the check read of an
   * existing playlist under force, or the creation (one call when it
   * raises, two with its read-back) and the read of the new playlist.
   */
  function DestinationCalls(yt: Library, cached: Option<string>, force: bool, cache: Option<seq<PlaylistInfo>>,
                            c: nat, name: string, isLikedSongs: bool): (r: nat)
    ensures r <= 4
    ensures !force && Truthy(cached) ==> r == 0
    ensures Creates(yt, cached, force, cache, c, name, isLikedSongs) ==> r == (if cache.None? then 4 else 3)
  {
    if !force && Truthy(cached) then 0
    else
      var listing := if cache.None? then 1 else 0;
      if Truthy(FirstIdWithTitle(ListingAfter(yt, cache, c), name)) then listing + (if force then 1 else 0)
      else
        var creation := if yt.createPlaylist(c + listing, name, Description(isLikedSongs), PRIVATE).Raised? then 1 else 2;
        listing + creation + (if Truthy(CreateResult(yt, c + listing, name, Description(isLikedSongs))) then 1 else 0)
  }

  /**
   * The listing cache the destination choice leaves: untouched when the
   * mapping is used, emptied by a creation that yields an id, and otherwise
   * the listing the lookup fetched (or found cached).
   */
  function DestinationCache(yt: Library, cached: Option<string>, force: bool, cache: Option<seq<PlaylistInfo>>,
                            c: nat, name: string, isLikedSongs: bool): (r: Option<seq<PlaylistInfo>>)
    ensures !force && Truthy(cached) ==> r == cache
    ensures Creates(yt, cached, force, cache, c, name, isLikedSongs) ==> r == None
    ensures ((force || !Truthy(cached)) && Destination(yt, cached, force, cache, c, name, isLikedSongs).Some?
             && !Creates(yt, cached, force, cache, c, name, isLikedSongs)) ==> r == Some(ListingAfter(yt, cache, c))
    ensures force || !Truthy(cached) ==>
              (r.None? <==> && !Truthy(FirstIdWithTitle(ListingAfter(yt, cache, c), name))
                            && CreateResult(yt, if cache.None? then c + 1 else c, name, Description(isLikedSongs)).Some?)
    ensures (force || !Truthy(cached)) && r.Some? ==> r == Some(ListingAfter(yt, cache, c))
  {
    if !force && Truthy(cached) then cache
    else
      var listing := ListingAfter(yt, cache, c);
      if Truthy(FirstIdWithTitle(listing, name)) then Some(listing)
      else if CreateResult(yt, if cache.None? then c + 1 else c, name, Description(isLikedSongs)).Some? then None
      else Some(listing)
  }

  /** With force, the cached mapping plays no part in the choice. */
  lemma DestinationForced(yt: Library, cached: Option<string>, cleared: Option<string>,
                          cache: Option<seq<PlaylistInfo>>, c: nat, name: string, isLikedSongs: bool)
    ensures Destination(yt, cached, true, cache, c, name, isLikedSongs)
            == Destination(yt, cleared, true, cache, c, name, isLikedSongs)
    ensures Creates(yt, cached, true, cache, c, name, isLikedSongs)
            == Creates(yt, cleared, true, cache, c, name, isLikedSongs)
    ensures DestinationCalls(yt, cached, true, cache, c, name, isLikedSongs)
            == DestinationCalls(yt, cleared, true, cache, c, name, isLikedSongs)
    ensures DestinationCache(yt, cached, true, cache, c, name, isLikedSongs)
            == DestinationCache(yt, cleared, true, cache, c, name, isLikedSongs)
  {
  }

  /** Whether a batch goes in: on the first attempt (call `c`) or on the retry (call `c + 1`). */
  function BatchSucceeds(yt: Library, c: nat, playlistId: string, batch: seq<string>): bool
  {
    || batch == []
    || yt.addPlaylistItems(c, playlistId, batch).Returned?
    || yt.addPlaylistItems(c + 1, playlistId, batch).Returned?
  }

  /** Library calls one batch takes: its attempts, and the playlist read after a second failure. */
  function BatchCalls(yt: Library, c: nat, playlistId: string, batch: seq<string>): (r: nat)
    ensures batch != [] ==> 1 <= r <= 3 && (r == 3 <==> !BatchSucceeds(yt, c, playlistId, batch))
    ensures batch == [] ==> r == 0
  {
    if batch == [] then 0
    else if yt.addPlaylistItems(c, playlistId, batch).Returned? then 1
    else if yt.addPlaylistItems(c + 1, playlistId, batch).Returned? then 2
    else 3
  }

  /** One batch started at call `c`: it went in as `BatchSucceeds` says, was tried once or twice, and ended at `next`. */
  predicate BatchLogged(yt: Library, playlistId: string, batch: seq<string>, success: bool, tries: nat,
                        c: nat, next: nat)
  {
    && success == BatchSucceeds(yt, c, playlistId, batch)
    && next == c + BatchCalls(yt, c, playlistId, batch)
    && tries == if batch == [] || yt.addPlaylistItems(c, playlistId, batch).Returned? then 1 else 2
  }

  /**
   * The library's record of a run of batches: batch `k` started at call
   * `callAt[k]` and ended where batch `k + 1` starts, as `BatchLogged` says.
   */
  ghost predicate BatchLog(yt: Library, playlistId: string, batches: seq<seq<string>>, ok: seq<bool>,
                           attempts: seq<nat>, callAt: seq<nat>)
    decreases |batches|
  {
    && |ok| == |batches| && |attempts| == |batches| && |callAt| == |batches| + 1
    && (batches != [] ==>
          var n := |batches| - 1;
          && BatchLog(yt, playlistId, batches[..n], ok[..n], attempts[..n], callAt[..n + 1])
          && BatchLogged(yt, playlistId, batches[n], ok[n], attempts[n], callAt[n], callAt[n + 1]))
  }

  /** One more batch, logged where the previous one ended, extends the log. */
  lemma BatchLogSnoc(yt: Library, playlistId: string, batches: seq<seq<string>>, ok: seq<bool>,
                     attempts: seq<nat>, callAt: seq<nat>, batch: seq<string>, success: bool, tries: nat, c: nat)
    requires BatchLog(yt, playlistId, batches, ok, attempts, callAt)
    requires BatchLogged(yt, playlistId, batch, success, tries, callAt[|batches|], c)
    ensures BatchLog(yt, playlistId, batches + [batch], ok + [success], attempts + [tries], callAt + [c])
  {
    var n := |batches|;
    assert (batches + [batch])[..n] == batches;
    assert (ok + [success])[..n] == ok;
    assert (attempts + [tries])[..n] == attempts;
    assert (callAt + [c])[..n + 1] == callAt;
  }

  /** One step of the batch loop: the next batch of at most 50, logged where the last one ended, extends the log and the total. */
  lemma BatchesStep(yt: Library, playlistId: string, videoIds: seq<string>, i: nat, batches: seq<seq<string>>,
                    ok: seq<bool>, attempts: seq<nat>, callAt: seq<nat>, added: nat, success: bool, tries: nat, c: nat)
    requires i < |videoIds| && Split(videoIds, BATCH_SIZE) == batches + Split(videoIds[i..], BATCH_SIZE)
    requires BatchLog(yt, playlistId, batches, ok, attempts, callAt) && added == SucceededSize(batches, ok)
    requires var end := if i + BATCH_SIZE < |videoIds| then i + BATCH_SIZE else |videoIds|;
             BatchLogged(yt, playlistId, videoIds[i..end], success, tries, callAt[|batches|], c)
    ensures var end := if i + BATCH_SIZE < |videoIds| then i + BATCH_SIZE else |videoIds|;
            var batch := videoIds[i..end];
            && Split(videoIds, BATCH_SIZE) == (batches + [batch]) + Split(videoIds[end..], BATCH_SIZE)
            && BatchLog(yt, playlistId, batches + [batch], ok + [success], attempts + [tries], callAt + [c])
            && (callAt + [c])[0] == callAt[0] && (callAt + [c])[|batches + [batch]|] == c
            && callAt[|batches|] <= c
            && (if success then added + |batch| else added) == SucceededSize(batches + [batch], ok + [success])
  {
    var end := if i + BATCH_SIZE < |videoIds| then i + BATCH_SIZE else |videoIds|;
    SplitAdvance(videoIds, batches, i, BATCH_SIZE);
    SucceededSizeSnoc(batches, ok, videoIds[i..end], success);
    BatchLogSnoc(yt, playlistId, batches, ok, attempts, callAt, videoIds[i..end], success, tries, c);
  }

  /**
   * What a batch log says batch by batch: each batch went in and took its
   * calls as the library decided, was tried once or twice, and one tried
   * only once went in.
   */
  lemma {:induction false} BatchLogPointwise(yt: Library, playlistId: string, batches: seq<seq<string>>,
                                             ok: seq<bool>, attempts: seq<nat>, callAt: seq<nat>)
    requires BatchLog(yt, playlistId, batches, ok, attempts, callAt)
    ensures |ok| == |batches| && |attempts| == |batches| && |callAt| == |batches| + 1
    ensures forall k :: 0 <= k < |batches| ==>
              BatchLogged(yt, playlistId, batches[k], ok[k], attempts[k], callAt[k], callAt[k + 1])
    ensures forall k :: 0 <= k < |attempts| ==> attempts[k] == 1 || attempts[k] == 2
    ensures forall k :: 0 <= k < |attempts| && attempts[k] == 1 ==> ok[k]
    ensures forall k :: 0 <= k < |batches| ==> callAt[k] <= callAt[k + 1]
    decreases |batches|
  {
    if batches != [] {
      var n := |batches| - 1;
      var bs, os, ts, cs := batches[..n], ok[..n], attempts[..n], callAt[..n + 1];
      BatchLogPointwise(yt, playlistId, bs, os, ts, cs);
      forall k | 0 <= k < n
        ensures BatchLogged(yt, playlistId, batches[k], ok[k], attempts[k], callAt[k], callAt[k + 1])
      {
        assert bs[k] == batches[k] && os[k] == ok[k] && ts[k] == attempts[k];
        assert cs[k] == callAt[k] && cs[k + 1] == callAt[k + 1];
      }
    }
  }

  /**
   * What one chunk sent to the library: the ids it staged, the batches of
   * 50 they went out in, the library's record of those batches and how many
   * ids went in.
   */
  datatype Flush = Flush(ids: seq<string>, batches: seq<seq<string>>, ok: seq<bool>, attempts: seq<nat>,
                         callAt: seq<nat>, added: nat)

  /** A chunk's flush as the library decided it, from call `callAt[0]` to call `callAt[|batches|]`. */
  ghost predicate Flushed(yt: Library, playlistId: string, f: Flush)
  {
    && |f.ok| == |f.batches|
    && BatchLog(yt, playlistId, f.batches, f.ok, f.attempts, f.callAt)
    && f.batches == Split(f.ids, BATCH_SIZE)
    && f.added == SucceededSize(f.batches, f.ok)
  }

  /** Every flush of a run of chunks is recorded as the library decided it. */
  ghost predicate FlushLog(yt: Library, playlistId: string, flushes: seq<Flush>)
    decreases |flushes|
  {
    flushes != [] ==>
      FlushLog(yt, playlistId, flushes[..|flushes| - 1]) && Flushed(yt, playlistId, flushes[|flushes| - 1])
  }

  /** The ids a run of flushes sent, in order. */
  function Sent(flushes: seq<Flush>): seq<string>
  {
    if flushes == [] then [] else Sent(flushes[..|flushes| - 1]) + flushes[|flushes| - 1].ids
  }

  /** How many ids a run of flushes added. */
  function Added(flushes: seq<Flush>): nat
  {
    if flushes == [] then 0 else Added(flushes[..|flushes| - 1]) + flushes[|flushes| - 1].added
  }

  /**
   * One chunk's flush: what the walk staged over the chunk was sent as
   * batches of 50, starting at the call after the chunk's searches.
   */
  ghost predicate ChunkFlushed(yt: Library, playlistId: string, before: Progress, after: Progress, f: Flush,
                               c: int, c1: int)
  {
    && Flushed(yt, playlistId, f)
    && after.staged == before.staged + f.ids
    && |f.batches| < |f.callAt|
    && f.callAt[0] == c + (after.searches - before.searches)
    && f.callAt[|f.batches|] == c1
    && |before.staged| + f.added <= |after.staged|
  }

  /** Library calls a flush took, from its first batch to the call after its last. */
  function FlushSpan(f: Flush): int
  {
    if |f.batches| < |f.callAt| then f.callAt[|f.batches|] as int - f.callAt[0] else 0
  }

  /** Library calls a run of flushes took. */
  function Spent(flushes: seq<Flush>): int
  {
    if flushes == [] then 0 else Spent(flushes[..|flushes| - 1]) + FlushSpan(flushes[|flushes| - 1])
  }

  /**
   * Where the chunk loop of `_process_tracks_in_chunks` stands after `n`
   * chunks of `total` tracks: each turn moves `chunk_start` to
   * `min(chunk_start + 200, total)`.
   */
  function ChunkBound(n: nat, total: nat): (r: nat)
    ensures r <= total
  {
    if n == 0 then 0
    else
      var b := ChunkBound(n - 1, total);
      if b + CHUNK_SIZE < total then b + CHUNK_SIZE else total
  }

  /**
   * The flushes of a pass, in the library's call order: flush `k` belongs to
   * the `k`-th chunk of 200 tracks and begins right after that chunk's
   * searches, that is after every search up to the end of its chunk and
   * every call of the earlier flushes, counted from `from`, the call at
   * which the pass began.
   */
  ghost predicate FlushesPlaced(start: Progress, pass: Pass, tracks: seq<SourceTrack>, answers: seq<Option<string>>,
                                flushes: seq<Flush>, from: nat)
    decreases |flushes|
  {
    flushes != [] ==>
      var n := |flushes| - 1;
      var j := ChunkBound(n + 1, |tracks|);
      && ChunkBound(n, |tracks|) < j <= |answers|
      && FlushesPlaced(start, pass, tracks, answers, flushes[..n], from)
      && |flushes[n].batches| < |flushes[n].callAt|
      && flushes[n].callAt[0]
         == from + (WalkTracks(start, pass, tracks[..j], answers[..j]).searches - start.searches) + Spent(flushes[..n])
  }

  /** Placed flushes stay placed when more answers are appended. */
  lemma {:induction false} PlacedExtend(start: Progress, pass: Pass, tracks: seq<SourceTrack>,
                                        answers0: seq<Option<string>>, answers: seq<Option<string>>,
                                        flushes: seq<Flush>, from: nat)
    requires |answers0| <= |answers| && answers[..|answers0|] == answers0
    requires FlushesPlaced(start, pass, tracks, answers0, flushes, from)
    ensures FlushesPlaced(start, pass, tracks, answers, flushes, from)
    decreases |flushes|
  {
    if flushes != [] {
      var n := |flushes| - 1;
      var j := ChunkBound(n + 1, |tracks|);
      PlacedExtend(start, pass, tracks, answers0, answers, flushes[..n], from);
      assert answers[..j] == answers0[..j] by {
        assert answers[..j] == answers[..|answers0|][..j];
      }
    }
  }

  /** A flush of the next chunk, placed after the earlier ones, extends the placed flushes. */
  lemma PlacedSnoc(start: Progress, pass: Pass, tracks: seq<SourceTrack>, answers: seq<Option<string>>,
                   flushes: seq<Flush>, f: Flush, from: nat, j: nat)
    requires j == ChunkBound(|flushes| + 1, |tracks|) && ChunkBound(|flushes|, |tracks|) < j <= |answers|
    requires FlushesPlaced(start, pass, tracks, answers, flushes, from)
    requires |f.batches| < |f.callAt|
    requires f.callAt[0]
             == from + (WalkTracks(start, pass, tracks[..j], answers[..j]).searches - start.searches) + Spent(flushes)
    ensures FlushesPlaced(start, pass, tracks, answers, flushes + [f], from)
  {
    assert (flushes + [f])[..|flushes|] == flushes;
  }

  /**
   * One turn of the chunk loop on the call side: the flush of the next
   * chunk, made right after its searches where the earlier flushes ended,
   * extends the placed flushes; the pass's calls so far are then its
   * searches and the spans of its flushes.
   */
  lemma PlacedStep(start: Progress, pass: Pass, tracks: seq<SourceTrack>, answers0: seq<Option<string>>,
                   answers: seq<Option<string>>, flushes: seq<Flush>, f: Flush, from: nat, i: nat, j: nat,
                   c: int, c1: int)
    requires i == |answers0| == ChunkBound(|flushes|, |tracks|) && i < |tracks|
    requires j == |answers| == ChunkBound(|flushes| + 1, |tracks|) && answers[..i] == answers0
    requires FlushesPlaced(start, pass, tracks, answers0, flushes, from)
    requires c == from + (WalkTracks(start, pass, tracks[..i], answers0).searches - start.searches) + Spent(flushes)
    requires |f.batches| < |f.callAt| && f.callAt[|f.batches|] == c1
    requires f.callAt[0] == c + (WalkTracks(start, pass, tracks[..j], answers).searches
                                 - WalkTracks(start, pass, tracks[..i], answers0).searches)
    ensures FlushesPlaced(start, pass, tracks, answers, flushes + [f], from)
    ensures c1 == from + (WalkTracks(start, pass, tracks[..j], answers).searches - start.searches)
                   + Spent(flushes + [f])
  {
    PlacedExtend(start, pass, tracks, answers0, answers, flushes, from);
    assert (flushes + [f])[..|flushes|] == flushes;
    assert answers[..j] == answers;
    PlacedSnoc(start, pass, tracks, answers, flushes, f, from, j);
  }

  /** A chunk's flush extends the log: the ids sent so far are what the walk has staged so far. */
  lemma FlushLogStep(yt: Library, playlistId: string, flushes: seq<Flush>, f: Flush, added: nat,
                     before: Progress, after: Progress, c: nat, c1: nat)
    requires FlushLog(yt, playlistId, flushes) && before.staged == Sent(flushes) && added == Added(flushes)
    requires ChunkFlushed(yt, playlistId, before, after, f, c, c1)
    ensures FlushLog(yt, playlistId, flushes + [f])
    ensures after.staged == Sent(flushes + [f]) && added + f.added == Added(flushes + [f])
  {
    assert (flushes + [f])[..|flushes|] == flushes;
  }

  /**
   * One turn of the chunk loop, on the ghost side: the chunk `tracks[i..j]`
   * is the next piece of the split, and its flush extends the log.
   */
  lemma ChunkLogStep(yt: Library, playlistId: string, tracks: seq<SourceTrack>, i: nat, j: nat,
                     chunks: seq<seq<SourceTrack>>, flushes: seq<Flush>, f: Flush, added: nat,
                     before: Progress, after: Progress, c: nat, c1: nat)
    requires i < |tracks| && j == if i + CHUNK_SIZE < |tracks| then i + CHUNK_SIZE else |tracks|
    requires Split(tracks, CHUNK_SIZE) == chunks + Split(tracks[i..], CHUNK_SIZE) && |flushes| == |chunks|
    requires FlushLog(yt, playlistId, flushes) && before.staged == Sent(flushes) && added == Added(flushes)
    requires ChunkFlushed(yt, playlistId, before, after, f, c, c1)
    ensures Split(tracks, CHUNK_SIZE) == (chunks + [tracks[i..j]]) + Split(tracks[j..], CHUNK_SIZE)
    ensures |flushes + [f]| == |chunks + [tracks[i..j]]| && FlushLog(yt, playlistId, flushes + [f])
    ensures after.staged == Sent(flushes + [f]) && added + f.added == Added(flushes + [f])
  {
    SplitAdvance(tracks, chunks, i, CHUNK_SIZE);
    FlushLogStep(yt, playlistId, flushes, f, added, before, after, c, c1);
  }

  /**
   * What a run of flushes sent, in size: the ids that went in are at most
   * those sent, and all of them when every batch went in.
   */
  lemma {:induction false} FlushAccounting(yt: Library, playlistId: string, flushes: seq<Flush>)
    requires FlushLog(yt, playlistId, flushes)
    ensures Added(flushes) <= |Sent(flushes)|
    ensures (forall k, i :: 0 <= k < |flushes| && 0 <= i < |flushes[k].ok| ==> flushes[k].ok[i]) ==>
              Added(flushes) == |Sent(flushes)|
    decreases |flushes|
  {
    if flushes != [] {
      var n := |flushes| - 1;
      var prefix, f := flushes[..n], flushes[n];
      FlushAccounting(yt, playlistId, prefix);
      SplitAccounting(f.ids, BATCH_SIZE, f.ok);
      if forall k, i :: 0 <= k < |flushes| && 0 <= i < |flushes[k].ok| ==> flushes[k].ok[i] {
        forall k, i | 0 <= k < |prefix| && 0 <= i < |prefix[k].ok|
          ensures prefix[k].ok[i]
        {
          assert prefix[k] == flushes[k];
        }
        assert forall i :: 0 <= i < |f.ok| ==> f.ok[i];
      }
    }
  }

  /** A running total of the ids added stays within the ids staged. */
  lemma FlushTotals(yt: Library, playlistId: string, flushes: seq<Flush>, staged: seq<string>, added: nat)
    requires FlushLog(yt, playlistId, flushes) && staged == Sent(flushes) && added == Added(flushes)
    ensures added <= |staged|
  {
    FlushAccounting(yt, playlistId, flushes);
  }

  /**
   * What a run of flushes sent, in order: each flush's batches are its ids,
   * and a run that sent nothing sent no batch.
   */
  lemma {:induction false} FlushesFlatten(yt: Library, playlistId: string, flushes: seq<Flush>)
    requires FlushLog(yt, playlistId, flushes)
    ensures forall k :: 0 <= k < |flushes| ==> Flatten(flushes[k].batches) == flushes[k].ids
    ensures Sent(flushes) == [] ==> forall k :: 0 <= k < |flushes| ==> flushes[k].batches == []
    decreases |flushes|
  {
    if flushes != [] {
      var n := |flushes| - 1;
      var prefix, f := flushes[..n], flushes[n];
      FlushesFlatten(yt, playlistId, prefix);
      SplitFlattens(f.ids, BATCH_SIZE);
      forall k | 0 <= k < |flushes|
        ensures Flatten(flushes[k].batches) == flushes[k].ids
        ensures Sent(flushes) == [] ==> flushes[k].batches == []
      {
        if k < n {
          assert prefix[k] == flushes[k];
        }
      }
    }
  }

  class SpotifyToYouTubeMigrator {
    const state: MigrationState
    const youtube: YouTubeClient

    // the run summary
    var playlistsProcessed: nat
    var playlistsCreated: nat
    var tracksFound: nat
    var tracksMigrated: nat
    var tracksFailed: nat
    var failedTracks: seq<FailedTrack>
    /** Content of the failure report file, once written. */
    var failedTracksReport: Option<seq<FailedTrack>>

    ghost predicate Valid()
      reads this, youtube
    {
      youtube.Valid()
    }

    constructor (store: MigrationState, client: YouTubeClient)
      requires client.Valid()
      ensures Valid() && state == store && youtube == client
      ensures playlistsProcessed == 0 && playlistsCreated == 0 && tracksFound == 0
      ensures tracksMigrated == 0 && tracksFailed == 0 && failedTracks == [] && failedTracksReport == None
    {
      state := store;
      youtube := client;
      playlistsProcessed, playlistsCreated, tracksFound := 0, 0, 0;
      tracksMigrated, tracksFailed, failedTracks := 0, 0, [];
      failedTracksReport := None;
    }

    /**
     * The force-reprocess reset of `migrate_playlist`: drops the mapping, the
     * completion flag and every resolution keyed `playlistId + ":"...`, then
     * saves. Nothing else in the store changes.
     */
    method ClearPlaylistCache(playlistId: string)
      modifies state
      ensures state.playlists == old(state.playlists) - {playlistId}
      ensures state.completed == old(state.completed) - {playlistId}
      ensures state.tracks == WithoutPlaylist(old(state.tracks), playlistId)
      ensures state.migrationStarted == old(state.migrationStarted)
      ensures Load(state.file) == state.Current()
    {
      // the completion flag is discarded twice in the source (lines 123-131 and 144-149)
      state.completed := state.completed - {playlistId};
      if playlistId in state.playlists {
        state.playlists := state.playlists - {playlistId};
      }
      var prefix := playlistId + ":";
      var tracks := state.tracks;
      var toRemove := set k | k in tracks && StartsWith(k, prefix);
      var kept := tracks;
      while toRemove != {}
        invariant toRemove <= kept.Keys && forall k :: k in toRemove ==> StartsWith(k, prefix)
        invariant forall k :: k in kept ==> k in tracks && kept[k] == tracks[k]
        invariant forall k :: k in tracks && !StartsWith(k, prefix) ==> k in kept
        invariant forall k :: k in kept && StartsWith(k, prefix) ==> k in toRemove
        decreases |toRemove|
      {
        var key :| key in toRemove;
        kept := kept - {key};
        toRemove := toRemove - {key};
      }
      assert kept.Keys == WithoutPlaylist(tracks, playlistId).Keys;
      state.tracks := kept;
      state.SaveState();
    }

    /**
     * One batch of `_add_tracks_in_batches`: an attempt, one retry when it
     * fails, and after a second failure a read of the playlist (which never
     * raises, so the loop never stops early). `tries` counts the attempts.
     */
    method AddBatch(youtubePlaylistId: string, batch: seq<string>) returns (success: bool, ghost tries: nat)
      requires youtube.Valid()
      modifies youtube
      ensures youtube.Valid() && youtube.cachedPlaylists == old(youtube.cachedPlaylists)
      ensures success == BatchSucceeds(youtube.yt, old(youtube.calls), youtubePlaylistId, batch)
      ensures youtube.calls == old(youtube.calls) + BatchCalls(youtube.yt, old(youtube.calls), youtubePlaylistId, batch)
      ensures tries == if batch == [] || youtube.yt.addPlaylistItems(old(youtube.calls), youtubePlaylistId, batch).Returned?
                       then 1 else 2
      ensures tries == 1 ==> success
      ensures batch != [] ==> youtube.calls == old(youtube.calls) + tries + (if success then 0 else 1)
    {
      success := youtube.AddSongsToPlaylist(youtubePlaylistId, batch);
      tries := 1;
      if !success {
        success := youtube.AddSongsToPlaylist(youtubePlaylistId, batch);
        tries := 2;
      }
      if !success {
        var stillThere := youtube.GetPlaylistTracks(youtubePlaylistId);
      }
    }

    /**
     * `_add_tracks_in_batches`: sends the ids in batches of 50, in order; a
     * failed batch is retried once, and after a second failure the playlist is
     * read again (that read never raises, so no batch is ever abandoned).
     * Returns the total size of the batches that went in.
     */
    method AddTracksInBatches(youtubePlaylistId: string, videoIds: seq<string>, playlistName: string)
      returns (added: nat, ghost batches: seq<seq<string>>, ghost ok: seq<bool>, ghost attempts: seq<nat>,
               ghost callAt: seq<nat>)
      requires youtube.Valid()
      modifies youtube
      ensures youtube.Valid() && youtube.cachedPlaylists == old(youtube.cachedPlaylists)
      ensures batches == Split(videoIds, BATCH_SIZE) && Flatten(batches) == videoIds
      ensures |ok| == |batches| && |attempts| == |batches|
      ensures BatchLog(youtube.yt, youtubePlaylistId, batches, ok, attempts, callAt)
      ensures callAt[0] == old(youtube.calls) && callAt[|batches|] == youtube.calls
      ensures old(youtube.calls) <= youtube.calls
      ensures added == SucceededSize(batches, ok)
      ensures added <= |videoIds|
      ensures (forall i :: 0 <= i < |ok| ==> ok[i]) ==> added == |videoIds|
    {
      added := 0;
      batches, ok, attempts, callAt := [], [], [], [youtube.calls];
      var i := 0;
      while i < |videoIds|
        invariant 0 <= i <= |videoIds|
        invariant Split(videoIds, BATCH_SIZE) == batches + Split(videoIds[i..], BATCH_SIZE)
        invariant BatchLog(youtube.yt, youtubePlaylistId, batches, ok, attempts, callAt)
        invariant callAt[0] == old(youtube.calls) && callAt[|batches|] == youtube.calls
        invariant old(youtube.calls) <= youtube.calls
        invariant added == SucceededSize(batches, ok)
        invariant youtube.Valid() && youtube.cachedPlaylists == old(youtube.cachedPlaylists)
      {
        var end := if i + BATCH_SIZE < |videoIds| then i + BATCH_SIZE else |videoIds|;
        var batch := videoIds[i..end];
        var success; ghost var tries;
        success, tries := AddBatch(youtubePlaylistId, batch);
        BatchesStep(youtube.yt, youtubePlaylistId, videoIds, i, batches, ok, attempts, callAt, added, success, tries,
                    youtube.calls);
        if success {
          added := added + |batch|;
        }
        batches, ok, attempts, callAt := batches + [batch], ok + [success], attempts + [tries], callAt + [youtube.calls];
        i := end;
      }
      assert videoIds[i..] == [];
      SplitAccounting(videoIds, BATCH_SIZE, ok);
    }

    /**
     * The summary counters and the resolution table agree with the walk
     * state `prog`, counted from the base values `migrated0`, `failed0` and
     * `failures0`; `seen` is the walk's dedup set.
     */
    ghost predicate Mirrors(prog: Progress, seen: set<string>,
                            migrated0: nat, failed0: nat, failures0: seq<FailedTrack>)
      reads this, state
    {
      && state.tracks == prog.entries && seen == prog.seen
      && tracksMigrated == migrated0 + prog.migrated && tracksFailed == failed0 + prog.failed
      && failedTracks == failures0 + prog.failures
    }

    /**
     * The search branch of the per-track loop, after the search: a hit is
     * written "found" and staged unless already seen, a miss is written
     * "not_found" and counted as a failure.
     */
    method RecordSearch(track: SourceTrack, pass: Pass, seen: set<string>, youtubeTrack: Option<TrackMatch>,
                        ghost prog: Progress, ghost migrated0: nat, ghost failed0: nat,
                        ghost failures0: seq<FailedTrack>)
      returns (seenAfter: set<string>, staged: seq<string>, ghost answer: Option<string>)
      requires Mirrors(prog, seen, migrated0, failed0, failures0)
      requires Decide(pass.force, Lookup(prog.entries, TrackKey(pass.playlistId, track.id)), seen).Search?
      requires youtubeTrack.Some? ==> youtubeTrack.value.videoId != ""
      modifies this`tracksMigrated, this`tracksFailed, this`failedTracks, state`tracks
      ensures answer == (if youtubeTrack.Some? then Some(youtubeTrack.value.videoId) else None)
      ensures Mirrors(Visit(prog, pass, track, answer), seenAfter, migrated0, failed0, failures0)
      ensures Visit(prog, pass, track, answer).staged == prog.staged + staged
    {
      seenAfter, staged := seen, [];
      if youtubeTrack.Some? {
        var videoId := youtubeTrack.value.videoId;
        answer := Some(videoId);
        if videoId !in seen {
          staged := [videoId];
          tracksMigrated := tracksMigrated + 1;
          seenAfter := seen + {videoId};
        }
        state.MarkTrackMigrated(track.id, pass.playlistId, FOUND, Some(videoId), pass.now);
      } else {
        answer := None;
        state.MarkTrackMigrated(track.id, pass.playlistId, NOT_FOUND, None, pass.now);
        tracksFailed := tracksFailed + 1;
        failedTracks := failedTracks + [FailureOf(pass, track)];
        assert failedTracks == failures0 + (prog.failures + [FailureOf(pass, track)]);
      }
    }

    /**
     * The body of the per-track loop of `_process_tracks_in_chunks`: the
     * decision table, the search for tracks that need one, and the resolution
     * written. Its effect is one `Visit` with the answer the search gave;
     * `staged` is what it appends to the chunk's id list.
     */
    method ProcessTrack(track: SourceTrack, pass: Pass, seen: set<string>,
                        ghost prog: Progress, ghost migrated0: nat, ghost failed0: nat,
                        ghost failures0: seq<FailedTrack>)
      returns (seenAfter: set<string>, staged: seq<string>, ghost answer: Option<string>)
      requires Valid() && Mirrors(prog, seen, migrated0, failed0, failures0)
      modifies this`tracksMigrated, this`tracksFailed, this`failedTracks, state`tracks, youtube
      ensures Valid() && answer == SearchAnswer(youtube.yt, old(youtube.calls), track)
      ensures youtube.cachedPlaylists == old(youtube.cachedPlaylists)
      ensures Mirrors(Visit(prog, pass, track, answer), seenAfter, migrated0, failed0, failures0)
      ensures Visit(prog, pass, track, answer).staged == prog.staged + staged
      ensures youtube.calls == old(youtube.calls) + (Visit(prog, pass, track, answer).searches - prog.searches)
      ensures !Decide(pass.force, Lookup(prog.entries, TrackKey(pass.playlistId, track.id)), seen).Search? ==>
                youtube.calls == old(youtube.calls)
    {
      var cached := state.GetTrackStatus(track.id, pass.playlistId);
      assert cached == Lookup(prog.entries, TrackKey(pass.playlistId, track.id));
      answer, seenAfter, staged := SearchAnswer(youtube.yt, youtube.calls, track), seen, [];
      match Decide(pass.force, cached, seen)
      case AlreadyPresent =>
      case SkipNotFound =>
      case StageCached(cachedVideoId) =>
        staged := [cachedVideoId];
      case Search =>
        var youtubeTrack := youtube.SearchTrack(track.name, JoinArtists(track.artists), track.album);
        seenAfter, staged, answer := RecordSearch(track, pass, seen, youtubeTrack, prog, migrated0, failed0, failures0);
    }

    /** The per-track loop over one chunk: the chunk's walk, and the ids it staged. */
    method ProcessChunk(chunk: seq<SourceTrack>, pass: Pass, seen: set<string>,
                        ghost prog: Progress, ghost migrated0: nat, ghost failed0: nat,
                        ghost failures0: seq<FailedTrack>)
      returns (seenAfter: set<string>, chunkVideoIds: seq<string>, ghost answers: seq<Option<string>>,
               ghost at: seq<nat>)
      requires Valid() && Mirrors(prog, seen, migrated0, failed0, failures0)
      modifies this`tracksMigrated, this`tracksFailed, this`failedTracks, state`tracks, youtube
      ensures Valid() && |answers| == |chunk| && RealAnswers(answers)
      ensures youtube.cachedPlaylists == old(youtube.cachedPlaylists)
      ensures AnsweredAt(youtube.yt, chunk, answers, at, old(youtube.calls), youtube.calls)
      ensures youtube.calls == old(youtube.calls) + (WalkTracks(prog, pass, chunk, answers).searches - prog.searches)
      ensures Mirrors(WalkTracks(prog, pass, chunk, answers), seenAfter, migrated0, failed0, failures0)
      ensures WalkTracks(prog, pass, chunk, answers).staged == prog.staged + chunkVideoIds
    {
      seenAfter, chunkVideoIds, answers, at := seen, [], [], [];
      ghost var done := prog;
      var j := 0;
      while j < |chunk|
        invariant 0 <= j <= |chunk| && |answers| == j && RealAnswers(answers)
        invariant Valid() && youtube.cachedPlaylists == old(youtube.cachedPlaylists)
        invariant done == WalkTracks(prog, pass, chunk[..j], answers)
        invariant AnsweredAt(youtube.yt, chunk[..j], answers, at, old(youtube.calls), youtube.calls)
        invariant youtube.calls == old(youtube.calls) + (done.searches - prog.searches)
        invariant Mirrors(done, seenAfter, migrated0, failed0, failures0)
        invariant done.staged == prog.staged + chunkVideoIds
      {
        var staged; ghost var answer;
        ghost var c := youtube.calls;
        seenAfter, staged, answer := ProcessTrack(chunk[j], pass, seenAfter, done, migrated0, failed0, failures0);
        ChunkStep(youtube.yt, prog, pass, chunk, answers, at, done, old(youtube.calls), c, youtube.calls, answer);
        AppendAssoc(prog.staged, chunkVideoIds, staged);
        done := Visit(done, pass, chunk[j], answer);
        chunkVideoIds := chunkVideoIds + staged;
        answers, at := answers + [answer], at + [c];
        j := j + 1;
      }
      assert chunk[..j] == chunk;
    }

    /**
     * The flush at the end of a chunk: the ids the chunk staged go out in
     * batches, unless there are none. Returns the number that went in.
     */
    method FlushChunk(youtubePlaylistId: string, chunkVideoIds: seq<string>, playlistName: string)
      returns (added: nat, ghost flush: Flush)
      requires youtube.Valid()
      modifies youtube
      ensures youtube.Valid() && youtube.cachedPlaylists == old(youtube.cachedPlaylists)
      ensures Flushed(youtube.yt, youtubePlaylistId, flush) && flush.ids == chunkVideoIds
      ensures added == flush.added && added <= |chunkVideoIds|
      ensures flush.callAt[0] == old(youtube.calls) && flush.callAt[|flush.batches|] == youtube.calls
      ensures old(youtube.calls) <= youtube.calls
    {
      added := 0;
      flush := Flush([], [], [], [], [youtube.calls], 0);
      if chunkVideoIds != [] {
        ghost var batches, batchOk, attempts, callAt;
        added, batches, batchOk, attempts, callAt := AddTracksInBatches(youtubePlaylistId, chunkVideoIds, playlistName);
        flush := Flush(chunkVideoIds, batches, batchOk, attempts, callAt, added);
      }
    }

    /**
     * One iteration of the chunk loop of `_process_tracks_in_chunks`: the
     * walk of `tracks[chunkStart..chunkEnd]`, the insertion of the ids it
     * staged (when there are any) and a save of the store. Given the walk and
     * the answers of the tracks before the chunk, it yields those of the
     * tracks up to the chunk's end.
     */
    method MigrateChunk(tracks: seq<SourceTrack>, chunkStart: nat, chunkEnd: nat, pass: Pass,
                        youtubePlaylistId: string, seen: set<string>, ghost start: Progress,
                        ghost answers0: seq<Option<string>>, ghost at0: seq<nat>, ghost lo: nat,
                        ghost migrated0: nat, ghost failed0: nat, ghost failures0: seq<FailedTrack>)
      returns (seenAfter: set<string>, ghost answers: seq<Option<string>>, ghost at: seq<nat>, ghost flush: Flush)
      requires chunkStart < chunkEnd <= |tracks| && |answers0| == chunkStart && RealAnswers(answers0)
      requires Valid() && AnsweredAt(youtube.yt, tracks[..chunkStart], answers0, at0, lo, youtube.calls)
      requires Mirrors(WalkTracks(start, pass, tracks[..chunkStart], answers0), seen, migrated0, failed0, failures0)
      modifies this`tracksMigrated, this`tracksFailed, this`failedTracks, state`tracks, state`file, youtube
      ensures Valid() && |answers| == chunkEnd && RealAnswers(answers) && answers[..chunkStart] == answers0
      ensures youtube.cachedPlaylists == old(youtube.cachedPlaylists)
      ensures AnsweredAt(youtube.yt, tracks[..chunkEnd], answers, at, lo, youtube.calls)
      ensures Mirrors(WalkTracks(start, pass, tracks[..chunkEnd], answers), seenAfter, migrated0, failed0, failures0)
      ensures ChunkFlushed(youtube.yt, youtubePlaylistId, WalkTracks(start, pass, tracks[..chunkStart], answers0),
                           WalkTracks(start, pass, tracks[..chunkEnd], answers), flush, old(youtube.calls),
                           youtube.calls)
      ensures Load(state.file) == state.Current()
    {
      var chunk := tracks[chunkStart..chunkEnd];
      ghost var prog := WalkTracks(start, pass, tracks[..chunkStart], answers0);
      ghost var before := youtube.calls;
      var chunkVideoIds; ghost var chunkAnswers, chunkAt;
      seenAfter, chunkVideoIds, chunkAnswers, chunkAt := ProcessChunk(chunk, pass, seen, prog, migrated0, failed0,
                                                                      failures0);
      ghost var searched, chunkWalk := youtube.calls, WalkTracks(prog, pass, chunk, chunkAnswers);
      var added;
      added, flush := FlushChunk(youtubePlaylistId, chunkVideoIds, pass.playlistName);
      AnsweredWiden(youtube.yt, chunk, chunkAnswers, chunkAt, before, searched, youtube.calls);
      ChunksStep(youtube.yt, start, pass, tracks, chunkEnd, answers0, at0, chunkAnswers, chunkAt, prog,
                 lo, before, youtube.calls);
      answers, at := answers0 + chunkAnswers, at0 + chunkAt;
      assert answers[..chunkStart] == answers0;
      assert ChunkFlushed(youtube.yt, youtubePlaylistId, prog, chunkWalk, flush, before, youtube.calls);
      state.SaveState();
    }

    /**
     * One turn of the chunk loop of `_process_tracks_in_chunks`: the next
     * chunk of at most 200 tracks is cut off and migrated, and its flush is
     * added to the log.
     */
    method MigrateNextChunk(tracks: seq<SourceTrack>, chunkStart: nat, pass: Pass,
                            youtubePlaylistId: string, seen: set<string>, ghost start: Progress,
                            ghost answers0: seq<Option<string>>, ghost at0: seq<nat>, ghost lo: nat,
                            ghost migrated0: nat, ghost failed0: nat, ghost failures0: seq<FailedTrack>,
                            ghost chunks0: seq<seq<SourceTrack>>, ghost flushes0: seq<Flush>, ghost added0: nat)
      returns (chunkEnd: nat, seenAfter: set<string>, ghost answers: seq<Option<string>>, ghost at: seq<nat>,
               ghost chunks: seq<seq<SourceTrack>>, ghost flushes: seq<Flush>, ghost totalAdded: nat)
      requires chunkStart < |tracks| && |answers0| == chunkStart && RealAnswers(answers0)
      requires Split(tracks, CHUNK_SIZE) == chunks0 + Split(tracks[chunkStart..], CHUNK_SIZE)
      requires Valid() && AnsweredAt(youtube.yt, tracks[..chunkStart], answers0, at0, lo, youtube.calls)
      requires Mirrors(WalkTracks(start, pass, tracks[..chunkStart], answers0), seen, migrated0, failed0, failures0)
      requires |flushes0| == |chunks0| && FlushLog(youtube.yt, youtubePlaylistId, flushes0)
      requires WalkTracks(start, pass, tracks[..chunkStart], answers0).staged == Sent(flushes0)
               && added0 == Added(flushes0)
      requires chunkStart == ChunkBound(|flushes0|, |tracks|) && FlushesPlaced(start, pass, tracks, answers0, flushes0, lo)
      requires youtube.calls
               == lo + (WalkTracks(start, pass, tracks[..chunkStart], answers0).searches - start.searches) + Spent(flushes0)
      modifies this`tracksMigrated, this`tracksFailed, this`failedTracks, state`tracks, state`file, youtube
      ensures chunkStart < chunkEnd <= |tracks|
      ensures Split(tracks, CHUNK_SIZE) == chunks + Split(tracks[chunkEnd..], CHUNK_SIZE)
      ensures Valid() && |answers| == chunkEnd && RealAnswers(answers)
      ensures AnsweredAt(youtube.yt, tracks[..chunkEnd], answers, at, lo, youtube.calls)
      ensures Mirrors(WalkTracks(start, pass, tracks[..chunkEnd], answers), seenAfter, migrated0, failed0, failures0)
      ensures |flushes| == |chunks| && FlushLog(youtube.yt, youtubePlaylistId, flushes)
      ensures WalkTracks(start, pass, tracks[..chunkEnd], answers).staged == Sent(flushes)
              && totalAdded == Added(flushes)
      ensures chunkEnd == ChunkBound(|flushes|, |tracks|) && FlushesPlaced(start, pass, tracks, answers, flushes, lo)
      ensures youtube.calls
              == lo + (WalkTracks(start, pass, tracks[..chunkEnd], answers).searches - start.searches) + Spent(flushes)
      ensures youtube.cachedPlaylists == old(youtube.cachedPlaylists)
      ensures Load(state.file) == state.Current()
    {
      chunkEnd := if chunkStart + CHUNK_SIZE < |tracks| then chunkStart + CHUNK_SIZE else |tracks|;
      ghost var c := youtube.calls;
      ghost var flush;
      seenAfter, answers, at, flush := MigrateChunk(tracks, chunkStart, chunkEnd, pass, youtubePlaylistId, seen, start,
                                                    answers0, at0, lo, migrated0, failed0, failures0);
      ChunkLogStep(youtube.yt, youtubePlaylistId, tracks, chunkStart, chunkEnd, chunks0, flushes0, flush, added0,
                   WalkTracks(start, pass, tracks[..chunkStart], answers0),
                   WalkTracks(start, pass, tracks[..chunkEnd], answers), c, youtube.calls);
      PlacedStep(start, pass, tracks, answers0, answers, flushes0, flush, lo, chunkStart, chunkEnd, c, youtube.calls);
      chunks, flushes, totalAdded := chunks0 + [tracks[chunkStart..chunkEnd]], flushes0 + [flush], added0 + flush.added;
    }

    /**
     * The chunk loop of `_process_tracks_in_chunks`: chunks of 200 in order,
     * each walked, flushed and saved. Its effect is the walk over all tracks
     * with the search answers received; `seen` is the dedup set it ends with.
     */
    method MigrateChunks(tracks: seq<SourceTrack>, pass: Pass, youtubePlaylistId: string, existing: set<string>,
                         ghost from: nat)
      returns (seen: set<string>, ghost chunks: seq<seq<SourceTrack>>, ghost answers: seq<Option<string>>,
               ghost at: seq<nat>, ghost flushes: seq<Flush>, ghost totalAdded: nat)
      requires Valid() && from == youtube.calls
      modifies this`tracksMigrated, this`tracksFailed, this`failedTracks, state`tracks, state`file, youtube
      ensures Valid()
      ensures chunks == Split(tracks, CHUNK_SIZE) && Flatten(chunks) == tracks
      ensures |answers| == |tracks| && RealAnswers(answers)
      ensures AnsweredAt(youtube.yt, tracks, answers, at, from, youtube.calls)
      ensures var w := WalkTracks(Start(old(state.tracks), existing), pass, tracks, answers);
              Mirrors(w, seen, old(tracksMigrated), old(tracksFailed), old(failedTracks)) && totalAdded <= |w.staged|
              && |flushes| == |chunks| && FlushLog(youtube.yt, youtubePlaylistId, flushes)
              && w.staged == Sent(flushes) && totalAdded == Added(flushes)
              && FlushesPlaced(Start(old(state.tracks), existing), pass, tracks, answers, flushes, from)
              && youtube.calls == from + w.searches + Spent(flushes)
      ensures youtube.cachedPlaylists == old(youtube.cachedPlaylists)
      ensures tracks != [] ==> Load(state.file) == state.Current()
    {
      var total := |tracks|;
      seen := existing;
      var chunkStart := 0;
      totalAdded := 0;
      chunks, answers, at, flushes := [], [], [], [];
      ghost var start := Start(state.tracks, existing);
      ghost var done := start;
      ghost var migrated0, failed0, failures0 := tracksMigrated, tracksFailed, failedTracks;
      while chunkStart < total
        invariant 0 <= chunkStart <= total
        invariant |answers| == chunkStart && RealAnswers(answers)
        invariant AnsweredAt(youtube.yt, tracks[..chunkStart], answers, at, from, youtube.calls)
        invariant Split(tracks, CHUNK_SIZE) == chunks + Split(tracks[chunkStart..], CHUNK_SIZE)
        invariant done == WalkTracks(start, pass, tracks[..chunkStart], answers)
        invariant Mirrors(done, seen, migrated0, failed0, failures0)
        invariant |flushes| == |chunks| && FlushLog(youtube.yt, youtubePlaylistId, flushes)
        invariant done.staged == Sent(flushes) && totalAdded == Added(flushes)
        invariant chunkStart > 0 ==> Load(state.file) == state.Current()
        invariant chunkStart == ChunkBound(|flushes|, total) && FlushesPlaced(start, pass, tracks, answers, flushes, from)
        invariant youtube.calls == from + (done.searches - start.searches) + Spent(flushes)
        invariant Valid() && youtube.cachedPlaylists == old(youtube.cachedPlaylists)
      {
        var chunkEnd;
        chunkEnd, seen, answers, at, chunks, flushes, totalAdded :=
          MigrateNextChunk(tracks, chunkStart, pass, youtubePlaylistId, seen, start, answers, at, from,
                           migrated0, failed0, failures0, chunks, flushes, totalAdded);
        done := WalkTracks(start, pass, tracks[..chunkEnd], answers);
        chunkStart := chunkEnd;
      }
      assert tracks[..total] == tracks;
      assert tracks[total..] == [];
      SplitFlattens(tracks, CHUNK_SIZE);
      FlushTotals(youtube.yt, youtubePlaylistId, flushes, done.staged, totalAdded);
      ghost var w := WalkTracks(Start(old(state.tracks), existing), pass, tracks, answers);
      assert w == done;
      assert w.staged == Sent(flushes) && totalAdded == Added(flushes) && totalAdded <= |w.staged|;
    }

    /**
     * `_process_tracks_in_chunks`: the chunk loop, then the playlist is marked
     * completed and saved, and true is returned -- whatever the batches did.
     * The resolutions and counters it leaves are those of `WalkTracks` over
     * all tracks with the search answers received.
     */
    method ProcessTracksInChunks(tracks: seq<SourceTrack>, playlistId: string, youtubePlaylistId: string,
                                 playlistName: string, existing: set<string>, force: bool, now: int,
                                 ghost from: nat)
      returns (ok: bool, ghost chunks: seq<seq<SourceTrack>>, ghost answers: seq<Option<string>>,
               ghost at: seq<nat>, ghost flushes: seq<Flush>, ghost totalAdded: nat)
      requires Valid() && from == youtube.calls
      modifies this`playlistsProcessed, this`playlistsCreated, this`tracksFound, this`tracksMigrated,
               this`tracksFailed, this`failedTracks, state, youtube
      ensures Valid() && ok
      ensures chunks == Split(tracks, CHUNK_SIZE) && Flatten(chunks) == tracks
      ensures |answers| == |tracks| && RealAnswers(answers)
      ensures AnsweredAt(youtube.yt, tracks, answers, at, from, youtube.calls)
      ensures var w := WalkTracks(Start(old(state.tracks), existing), Pass(playlistId, playlistName, force, now),
                                  tracks, answers);
              && state.tracks == w.entries
              && tracksMigrated == old(tracksMigrated) + w.migrated
              && tracksFailed == old(tracksFailed) + w.failed
              && failedTracks == old(failedTracks) + w.failures
              && totalAdded <= |w.staged|
              && |flushes| == |chunks| && FlushLog(youtube.yt, youtubePlaylistId, flushes)
              && w.staged == Sent(flushes) && totalAdded == Added(flushes)
              && FlushesPlaced(Start(old(state.tracks), existing), Pass(playlistId, playlistName, force, now),
                               tracks, answers, flushes, from)
              && youtube.calls == from + w.searches + Spent(flushes)
      ensures youtube.cachedPlaylists == old(youtube.cachedPlaylists)
      ensures state.completed == old(state.completed) + {playlistId}
      ensures state.playlists == old(state.playlists) && state.migrationStarted == old(state.migrationStarted)
      ensures Load(state.file) == state.Current()
      ensures playlistsProcessed == old(playlistsProcessed) + 1
      ensures playlistsCreated == old(playlistsCreated) && tracksFound == old(tracksFound)
      ensures failedTracksReport == old(failedTracksReport)
    {
      var pass := Pass(playlistId, playlistName, force, now);
      var seen;
      seen, chunks, answers, at, flushes, totalAdded := MigrateChunks(tracks, pass, youtubePlaylistId, existing, from);
      ghost var walked := state.tracks;
      state.MarkPlaylistCompleted(playlistId);
      state.SaveState();
      assert state.tracks == walked;
      playlistsProcessed := playlistsProcessed + 1;
      ok := true;
    }

    /**
     * The creation half of the destination choice: creates the playlist and,
     * when that yields an id, reads the new playlist back once and counts it.
     */
    method CreateDestination(playlistName: string, isLikedSongs: bool) returns (created: Option<string>)
      requires Valid()
      modifies this`playlistsCreated, youtube
      ensures Valid()
      ensures created == CreateResult(youtube.yt, old(youtube.calls), playlistName, Description(isLikedSongs))
      ensures youtube.calls
              == old(youtube.calls)
                 + (if youtube.yt.createPlaylist(old(youtube.calls), playlistName, Description(isLikedSongs),
                                                 PRIVATE).Raised? then 1 else 2)
                 + (if Truthy(created) then 1 else 0)
      ensures playlistsCreated == old(playlistsCreated) + (if Truthy(created) then 1 else 0)
      ensures youtube.cachedPlaylists == if created.Some? then None else old(youtube.cachedPlaylists)
    {
      created := youtube.CreatePlaylist(playlistName, Description(isLikedSongs));
      if Truthy(created) {
        // read-back of the new playlist; never raises
        var testTracks := youtube.GetPlaylistTracks(created.value);
        playlistsCreated := playlistsCreated + 1;
      }
    }

    /**
     * The lookup half of the destination choice: the cached mapping when it
     * is truthy and the pass is not forced, else the library's first
     * playlist with the name.
     */
    method LookUpPlaylist(playlistId: string, playlistName: string, force: bool)
      returns (existingPlaylistId: Option<string>)
      requires Valid()
      modifies youtube`calls, youtube`cachedPlaylists
      ensures Valid()
      ensures var cached := state.GetYoutubePlaylistId(playlistId);
              if !force && Truthy(cached) then
                existingPlaylistId == cached && youtube.calls == old(youtube.calls)
                && youtube.cachedPlaylists == old(youtube.cachedPlaylists)
              else
                && existingPlaylistId
                   == FirstIdWithTitle(ListingAfter(youtube.yt, old(youtube.cachedPlaylists), old(youtube.calls)),
                                       playlistName)
                && youtube.calls == old(youtube.calls) + (if old(youtube.cachedPlaylists).None? then 1 else 0)
                && youtube.cachedPlaylists == Some(ListingAfter(youtube.yt, old(youtube.cachedPlaylists), old(youtube.calls)))
    {
      if force {
        existingPlaylistId := youtube.PlaylistExists(playlistName);
      } else {
        existingPlaylistId := state.GetYoutubePlaylistId(playlistId);
        if !Truthy(existingPlaylistId) {
          existingPlaylistId := youtube.PlaylistExists(playlistName);
        }
      }
    }

    /**
     * The destination lookup of `migrate_playlist`: the cached mapping
     * (ignored under force), else a playlist of that title in the library,
     * else a newly created one. `None` when none is known and the creation
     * fails. The new playlist is read back once after creation (and an
     * existing one once under force); those reads never raise.
     */
    method FindOrCreatePlaylist(playlistId: string, playlistName: string, isLikedSongs: bool, force: bool)
      returns (youtubePlaylistId: Option<string>)
      requires Valid()
      modifies this`playlistsCreated, youtube
      ensures Valid()
      ensures youtubePlaylistId == Destination(youtube.yt, old(state.GetYoutubePlaylistId(playlistId)), force,
                                               old(youtube.cachedPlaylists), old(youtube.calls),
                                               playlistName, isLikedSongs)
      ensures playlistsCreated == old(playlistsCreated)
                                  + (if Creates(youtube.yt, old(state.GetYoutubePlaylistId(playlistId)), force,
                                                old(youtube.cachedPlaylists), old(youtube.calls),
                                                playlistName, isLikedSongs) then 1 else 0)
      ensures youtube.calls == old(youtube.calls)
                               + DestinationCalls(youtube.yt, old(state.GetYoutubePlaylistId(playlistId)), force,
                                                  old(youtube.cachedPlaylists), old(youtube.calls),
                                                  playlistName, isLikedSongs)
      ensures youtube.cachedPlaylists
              == DestinationCache(youtube.yt, old(state.GetYoutubePlaylistId(playlistId)), force,
                                  old(youtube.cachedPlaylists), old(youtube.calls), playlistName, isLikedSongs)
    {
      ghost var cached, cache, c := state.GetYoutubePlaylistId(playlistId), youtube.cachedPlaylists, youtube.calls;
      ghost var destination := Destination(youtube.yt, cached, force, cache, c, playlistName, isLikedSongs);
      ghost var creates := Creates(youtube.yt, cached, force, cache, c, playlistName, isLikedSongs);
      ghost var spent := DestinationCalls(youtube.yt, cached, force, cache, c, playlistName, isLikedSongs);
      var existingPlaylistId := LookUpPlaylist(playlistId, playlistName, force);
      ghost var listed := youtube.calls;

      if Truthy(existingPlaylistId) {
        youtubePlaylistId := existingPlaylistId;
        if force {
          // accessibility check; the read never raises, so it cannot fail
          var testTracks := youtube.GetPlaylistTracks(existingPlaylistId.value);
        }
        assert !creates && youtube.calls == c + spent;
      } else {
        assert listed == if cache.None? then c + 1 else c;
        var created := CreateDestination(playlistName, isLikedSongs);
        if !Truthy(created) {
          assert destination == None && !creates && youtube.calls == c + spent;
          return None;
        }
        youtubePlaylistId := created;
        assert creates && youtube.calls == c + spent;
      }
      assert youtubePlaylistId == destination;
    }

    /**
     * The rest of `migrate_playlist` once the destination is known: the
     * mapping is recorded and saved, the destination's current ids become the
     * dedup baseline, the source tracks are counted and the chunk walk runs.
     */
    method FillPlaylist(playlistId: string, youtubePlaylistId: string, playlistName: string, force: bool,
                        sourceTracks: seq<SourceTrack>, now: int, ghost from: nat, ghost tracks0: map<string, TrackEntry>)
      returns (ghost baseline: set<string>, ghost answers: seq<Option<string>>, ghost at: seq<nat>,
               ghost flushes: seq<Flush>)
      requires Valid() && from == youtube.calls && tracks0 == state.tracks
      modifies this`playlistsProcessed, this`playlistsCreated, this`tracksFound, this`tracksMigrated,
               this`tracksFailed, this`failedTracks, state, youtube
      ensures Valid()
      ensures baseline == VideoIds(PlaylistRead(youtube.yt, old(youtube.calls), youtubePlaylistId))
      ensures |answers| == |sourceTracks| && RealAnswers(answers)
      ensures AnsweredAt(youtube.yt, sourceTracks, answers, at, from + 1, youtube.calls)
      ensures var w := WalkTracks(Start(tracks0, baseline), Pass(playlistId, playlistName, force, now),
                                  sourceTracks, answers);
              && state.tracks == w.entries
              && tracksMigrated == old(tracksMigrated) + w.migrated
              && tracksFailed == old(tracksFailed) + w.failed
              && failedTracks == old(failedTracks) + w.failures
              && FlushLog(youtube.yt, youtubePlaylistId, flushes) && w.staged == Sent(flushes)
              && FlushesPlaced(Start(tracks0, baseline), Pass(playlistId, playlistName, force, now),
                               sourceTracks, answers, flushes, from + 1)
              && youtube.calls == from + 1 + w.searches + Spent(flushes)
      ensures youtube.cachedPlaylists == old(youtube.cachedPlaylists)
      ensures state.completed == old(state.completed) + {playlistId}
      ensures state.playlists == old(state.playlists)[playlistId := PlaylistEntry(youtubePlaylistId, playlistName)]
      ensures state.migrationStarted == old(state.migrationStarted)
      ensures Load(state.file) == state.Current()
      ensures tracksFound == old(tracksFound) + |sourceTracks| && playlistsProcessed == old(playlistsProcessed) + 1
      ensures playlistsCreated == old(playlistsCreated) && failedTracksReport == old(failedTracksReport)
    {
      state.SetYoutubePlaylistId(playlistId, youtubePlaylistId, playlistName);
      state.SaveState();

      assert youtube.calls == old(youtube.calls);
      var youtubeTracks := youtube.GetPlaylistTracks(youtubePlaylistId);
      var existingYoutubeTracks := VideoIds(youtubeTracks);
      baseline := existingYoutubeTracks;

      tracksFound := tracksFound + |sourceTracks|;
      var ok;
      ghost var chunks, totalAdded;
      ok, chunks, answers, at, flushes, totalAdded := ProcessTracksInChunks(sourceTracks, playlistId,
                                                                            youtubePlaylistId, playlistName,
                                                                            existingYoutubeTracks, force, now,
                                                                            from + 1);
    }

    /**
     * The first half of `migrate_playlist`: the force-reprocess reset when
     * asked, then the lookup or creation of the destination playlist.
     */
    method ResolveDestination(playlistId: string, playlistName: string, isLikedSongs: bool, force: bool)
      returns (found: Option<string>)
      requires Valid()
      modifies this`playlistsCreated, state, youtube
      ensures Valid()
      ensures found == Destination(youtube.yt, old(state.GetYoutubePlaylistId(playlistId)), force,
                                   old(youtube.cachedPlaylists), old(youtube.calls), playlistName, isLikedSongs)
      ensures youtube.calls == old(youtube.calls)
                               + DestinationCalls(youtube.yt, old(state.GetYoutubePlaylistId(playlistId)), force,
                                                  old(youtube.cachedPlaylists), old(youtube.calls),
                                                  playlistName, isLikedSongs)
      ensures playlistsCreated == old(playlistsCreated)
                                  + (if Creates(youtube.yt, old(state.GetYoutubePlaylistId(playlistId)), force,
                                                old(youtube.cachedPlaylists), old(youtube.calls),
                                                playlistName, isLikedSongs) then 1 else 0)
      ensures youtube.cachedPlaylists
              == DestinationCache(youtube.yt, old(state.GetYoutubePlaylistId(playlistId)), force,
                                  old(youtube.cachedPlaylists), old(youtube.calls), playlistName, isLikedSongs)
      ensures state.tracks == if force then WithoutPlaylist(old(state.tracks), playlistId) else old(state.tracks)
      ensures state.completed == if force then old(state.completed) - {playlistId} else old(state.completed)
      ensures state.playlists == if force then old(state.playlists) - {playlistId} else old(state.playlists)
      ensures state.migrationStarted == old(state.migrationStarted)
      ensures force ==> Load(state.file) == state.Current()
      ensures !force ==> state.file == old(state.file)
    {
      if force {
        ghost var cached := state.GetYoutubePlaylistId(playlistId);
        ClearPlaylistCache(playlistId);
        DestinationForced(youtube.yt, cached, state.GetYoutubePlaylistId(playlistId), youtube.cachedPlaylists,
                          youtube.calls, playlistName, isLikedSongs);
      }
      found := FindOrCreatePlaylist(playlistId, playlistName, isLikedSongs, force);
    }

    /**
     * `migrate_playlist`: resolves or creates the destination playlist (after
     * the force-reprocess reset when asked), records the mapping, reads the
     * destination's current ids as the dedup baseline and walks the tracks.
     * Fails, changing no summary counter, only when no destination playlist
     * is known and creating one fails.
     */
    method MigratePlaylist(playlist: SourcePlaylist, isLikedSongs: bool, force: bool,
                           sourceTracks: seq<SourceTrack>, now: int)
      returns (ok: bool, ghost destination: Option<string>, ghost baseline: set<string>, ghost baselineCall: nat,
               ghost answers: seq<Option<string>>, ghost at: seq<nat>, ghost flushes: seq<Flush>)
      requires Valid()
      modifies this`playlistsProcessed, this`playlistsCreated, this`tracksFound, this`tracksMigrated,
               this`tracksFailed, this`failedTracks, state, youtube
      ensures Valid()
      ensures destination == Destination(youtube.yt, old(state.GetYoutubePlaylistId(playlist.id)), force,
                                         old(youtube.cachedPlaylists), old(youtube.calls),
                                         DestinationName(playlist.name, isLikedSongs), isLikedSongs)
      ensures ok <==> destination.Some?
      ensures !force && Truthy(old(state.GetYoutubePlaylistId(playlist.id))) ==> ok
      ensures ok ==> playlist.id in state.playlists
                     && state.playlists[playlist.id] == PlaylistEntry(destination.value,
                                                                      DestinationName(playlist.name, isLikedSongs))
      ensures baselineCall == old(youtube.calls)
                              + DestinationCalls(youtube.yt, old(state.GetYoutubePlaylistId(playlist.id)), force,
                                                 old(youtube.cachedPlaylists), old(youtube.calls),
                                                 DestinationName(playlist.name, isLikedSongs), isLikedSongs)
      ensures ok ==> baseline == VideoIds(PlaylistRead(youtube.yt, baselineCall, destination.value))
                     && AnsweredAt(youtube.yt, sourceTracks, answers, at, baselineCall + 1, youtube.calls)
      ensures var cleared := if force then WithoutPlaylist(old(state.tracks), playlist.id) else old(state.tracks);
              ok ==> |answers| == |sourceTracks| && RealAnswers(answers)
                     && var w := WalkTracks(Start(cleared, baseline),
                                            Pass(playlist.id, DestinationName(playlist.name, isLikedSongs), force, now),
                                            sourceTracks, answers);
                        && state.tracks == w.entries
                        && tracksMigrated == old(tracksMigrated) + w.migrated
                        && tracksFailed == old(tracksFailed) + w.failed
                        && failedTracks == old(failedTracks) + w.failures
                        && FlushLog(youtube.yt, destination.value, flushes) && w.staged == Sent(flushes)
                        && FlushesPlaced(Start(cleared, baseline),
                                         Pass(playlist.id, DestinationName(playlist.name, isLikedSongs), force, now),
                                         sourceTracks, answers, flushes, baselineCall + 1)
                        && youtube.calls == baselineCall + 1 + w.searches + Spent(flushes)
      ensures !ok ==> youtube.calls == baselineCall
      ensures youtube.cachedPlaylists
              == DestinationCache(youtube.yt, old(state.GetYoutubePlaylistId(playlist.id)), force,
                                  old(youtube.cachedPlaylists), old(youtube.calls),
                                  DestinationName(playlist.name, isLikedSongs), isLikedSongs)
      ensures ok ==> playlist.id in state.completed && playlist.id in state.playlists
                     && state.playlists[playlist.id].name == DestinationName(playlist.name, isLikedSongs)
      ensures ok ==> state.completed == old(state.completed) + {playlist.id}
      ensures ok ==> state.playlists == old(state.playlists)[playlist.id := PlaylistEntry(destination.value,
                                                                 DestinationName(playlist.name, isLikedSongs))]
      ensures ok ==> tracksFound == old(tracksFound) + |sourceTracks| && playlistsProcessed == old(playlistsProcessed) + 1
      ensures playlistsCreated == old(playlistsCreated)
                                  + (if Creates(youtube.yt, old(state.GetYoutubePlaylistId(playlist.id)), force,
                                                old(youtube.cachedPlaylists), old(youtube.calls),
                                                DestinationName(playlist.name, isLikedSongs), isLikedSongs) then 1 else 0)
      ensures !ok ==> state.tracks == (if force then WithoutPlaylist(old(state.tracks), playlist.id) else old(state.tracks))
      ensures !ok ==> state.completed == (if force then old(state.completed) - {playlist.id} else old(state.completed))
      ensures !ok ==> state.playlists == (if force then old(state.playlists) - {playlist.id} else old(state.playlists))
      ensures !ok ==> tracksFound == old(tracksFound) && playlistsProcessed == old(playlistsProcessed)
                      && playlistsCreated == old(playlistsCreated) && tracksMigrated == old(tracksMigrated)
                      && tracksFailed == old(tracksFailed) && failedTracks == old(failedTracks)
      ensures ok || force ==> Load(state.file) == state.Current()
      ensures !ok && !force ==> state.file == old(state.file)
      ensures CompletedAreMapped(old(state.completed), old(state.playlists)) ==>
                CompletedAreMapped(state.completed, state.playlists)
      ensures state.migrationStarted == old(state.migrationStarted)
      ensures failedTracksReport == old(failedTracksReport)
    {
      var playlistName := DestinationName(playlist.name, isLikedSongs);
      var playlistId := playlist.id;
      baseline, answers, at, flushes := {}, [], [], [];

      var found := ResolveDestination(playlistId, playlistName, isLikedSongs, force);
      destination, baselineCall := found, youtube.calls;
      ok := found.Some?;
      if ok {
        var youtubePlaylistId := found.value;
        ghost var cleared := if force then WithoutPlaylist(old(state.tracks), playlistId) else old(state.tracks);
        if force {
          RemoveThenSet(old(state.playlists), playlistId, PlaylistEntry(youtubePlaylistId, playlistName));
        }
        baseline, answers, at, flushes := FillPlaylist(playlistId, youtubePlaylistId, playlistName, force,
                                                       sourceTracks, now, baselineCall, cleared);
      }
    }

    /** `_save_failed_tracks_report`: writes the failure list when it is non-empty. */
    method SaveFailedTracksReport()
      modifies this`failedTracksReport
      ensures failedTracks != [] ==> failedTracksReport == Some(failedTracks)
      ensures failedTracks == [] ==> failedTracksReport == old(failedTracksReport)
    {
      if failedTracks != [] {
        failedTracksReport := Some(failedTracks);
      }
    }

    /** The session loop's call of `migrate_playlist` for one listed playlist, without forcing:
        it succeeds exactly when a destination is found, and keeps the completed set growing and mapped. */
    method MigrateSessionPlaylist(playlist: SourcePlaylist, sourceTracks: seq<SourceTrack>, now: int)
      returns (success: bool)
      requires Valid()
      modifies this`playlistsProcessed, this`playlistsCreated, this`tracksFound, this`tracksMigrated,
               this`tracksFailed, this`failedTracks, state, youtube
      ensures Valid()
      ensures success <==> Destination(youtube.yt, old(state.GetYoutubePlaylistId(playlist.id)), false,
                                       old(youtube.cachedPlaylists), old(youtube.calls),
                                       DestinationName(playlist.name, playlist.id == LIKED_SONGS_ID),
                                       playlist.id == LIKED_SONGS_ID).Some?
      ensures Truthy(old(state.GetYoutubePlaylistId(playlist.id))) ==> success
      ensures success ==> playlist.id in state.completed
      ensures old(state.completed) <= state.completed
      ensures CompletedAreMapped(old(state.completed), old(state.playlists)) ==>
                CompletedAreMapped(state.completed, state.playlists)
    {
      var isLikedSongs := playlist.id == LIKED_SONGS_ID;
      ghost var destination, baseline, baselineCall, answers, at, flushes;
      success, destination, baseline, baselineCall, answers, at, flushes := MigratePlaylist(playlist, isLikedSongs, false,
                                                                                          sourceTracks, now);
    }

    /** One turn of the session loop of `run_migration`: the `i`-th playlist is migrated and its result recorded. */
    method MigrateSessionAt(playlists: seq<SourcePlaylist>, i: nat, results: seq<bool>, ghost migrated: set<string>,
                            sourceTracks: string -> seq<SourceTrack>, now: int,
                            ghost completed0: set<string>, ghost playlists0: map<string, PlaylistEntry>)
      returns (resultsAfter: seq<bool>, ghost migratedAfter: set<string>)
      requires i < |playlists| && |results| == i
      requires Valid()
      requires forall k :: 0 <= k < i && results[k] ==> playlists[k].id in migrated
      requires migrated <= state.completed
      requires completed0 <= state.completed
      requires CompletedAreMapped(completed0, playlists0) ==> CompletedAreMapped(state.completed, state.playlists)
      modifies this`playlistsProcessed, this`playlistsCreated, this`tracksFound, this`tracksMigrated,
               this`tracksFailed, this`failedTracks, state, youtube
      ensures |resultsAfter| == i + 1 && resultsAfter[..i] == results
      ensures resultsAfter[i] <==> Destination(youtube.yt, old(state.GetYoutubePlaylistId(playlists[i].id)), false,
                                               old(youtube.cachedPlaylists), old(youtube.calls),
                                               DestinationName(playlists[i].name, playlists[i].id == LIKED_SONGS_ID),
                                               playlists[i].id == LIKED_SONGS_ID).Some?
      ensures Valid()
      ensures forall k :: 0 <= k < i + 1 && resultsAfter[k] ==> playlists[k].id in migratedAfter
      ensures migratedAfter <= state.completed
      ensures completed0 <= state.completed
      ensures CompletedAreMapped(completed0, playlists0) ==> CompletedAreMapped(state.completed, state.playlists)
    {
      var success := MigrateSessionPlaylist(playlists[i], sourceTracks(playlists[i].id), now);
      migratedAfter := if success then migrated + {playlists[i].id} else migrated;
      resultsAfter := results + [success];
    }

    /**
     * `run_migration` after the clients are set up: filters the user's own
     * playlists, appends liked songs, and -- once confirmed -- migrates each
     * in order without force, continuing after failures; then writes the
     * failure report. `sourceTracks(id)` is what the source catalog lists for
     * a playlist id (the saved tracks for `liked_songs`).
     */
    method RunMigration(user: UserInfo, allPlaylists: seq<SourcePlaylist>, confirmed: bool,
                        sourceTracks: string -> seq<SourceTrack>, now: int)
      returns (skippedCount: int, results: seq<bool>)
      requires Valid()
      modifies this`playlistsProcessed, this`playlistsCreated, this`tracksFound, this`tracksMigrated,
               this`tracksFailed, this`failedTracks, this`failedTracksReport, state, youtube
      ensures Valid()
      ensures skippedCount == NotOwnedCount(allPlaylists, user) && skippedCount >= 0
      ensures !confirmed ==> results == [] && state.Current() == old(state.Current())
      ensures confirmed ==> |results| == |SessionPlaylists(allPlaylists, user)|
      ensures confirmed ==> forall i :: 0 <= i < |results| && results[i] ==>
                              SessionPlaylists(allPlaylists, user)[i].id in state.completed
      ensures old(state.completed) <= state.completed
      ensures CompletedAreMapped(old(state.completed), old(state.playlists)) ==>
                CompletedAreMapped(state.completed, state.playlists)
      ensures confirmed && failedTracks != [] ==> failedTracksReport == Some(failedTracks)
    {
      var playlists := SessionPlaylists(allPlaylists, user);
      skippedCount := |allPlaylists| - |playlists| + 1;
      SkippedIsNotOwned(allPlaylists, user);
      results := [];
      if !confirmed {
        return;
      }
      var i := 0;
      ghost var migrated: set<string> := {};
      while i < |playlists|
        invariant 0 <= i <= |playlists| && |results| == i
        invariant Valid()
        invariant forall k :: 0 <= k < i && results[k] ==> playlists[k].id in migrated
        invariant migrated <= state.completed
        invariant old(state.completed) <= state.completed
        invariant CompletedAreMapped(old(state.completed), old(state.playlists)) ==>
                    CompletedAreMapped(state.completed, state.playlists)
      {
        results, migrated := MigrateSessionAt(playlists, i, results, migrated, sourceTracks, now,
                                              old(state.completed), old(state.playlists));
        i := i + 1;
      }
      SaveFailedTracksReport();
    }
  }
}
