# music-migrator: the migration reconciliation engine in Dafny

This project models the part of music-migrator that copies a user's Spotify playlists into YouTube Music. It has three pieces:

- **The migration state store** (`MigrationState`). It holds the playlist mappings, the per-track resolutions (`"<playlist_id>:<track_id>"` → status, video id, timestamp) and the set of completed playlists. It is loaded once from a cache file and rewritten as a whole.
- **The YouTube Music adapter** (`YouTubeClient`). It classifies authentication errors and shows a one-shot warning. It builds search queries and picks the first playable hit. It caches the library's playlist listing, short-circuits an empty batch, and filters playlist items to those with a video id.
- **The reconciliation engine** (`SpotifyToYouTubeMigrator`). It names the destination playlist and resets the cache under force-reprocess. It finds or creates the destination and reads its current tracks as the dedup baseline. It walks the tracks in chunks of 200, applying the per-track decision table, and adds staged ids in batches of 50 with one retry. It marks playlists completed. The session runner filters owned playlists, appends liked songs and counts the skipped playlists.

The modules are:

- `Common`: Option, Python truthiness, sequence helpers.
- `StateStore`: the store as a class over `map`/`set` fields. The cache file is an abstract `Document` field.
- `YouTube`: the adapter as a class over a library oracle. `Library` answers each call from the call's index in the client's history and its arguments, either returning a value or raising an error with a message.
- `Reconcile`: the pure definitions and the lemmas. They cover naming, the decision table `Decide`, one track's effect `Visit`, a whole pass `WalkTracks`, chunk/batch splitting and the owner filter.
- `Engine`: the engine as a class. Its methods are proved against `WalkTracks`, that is, a pass leaves the store's resolutions and the summary counters as `WalkTracks` over the tracks with the search answers received.

The properties the engine promises are lemmas about `WalkTracks`:

- dedup: search never stages an id twice, nor one already in the destination;
- every track of a pass ends with a resolution, and nothing else is touched;
- a settled pass is quiet, so a second run or a resumed run does no work;
- chunking does not change the outcome;
- force mode searches every track;
- batches cover the ids exactly once.

Two behaviours of the code differ from what its own comments suggest. The model follows the code:

- **Completion after failed batches.** The comment at src/migrator.py:377 says there is "no point continuing if playlist is gone": a failed batch retry is followed by a read of the destination, and an error there is meant to stop the batch loop. In the code, `get_playlist_tracks` (src/youtube_client.py:246-261) never raises: it returns `[]` on any error. So the `except` branches at src/migrator.py:179-182, 203-206 and 372-377 can never run. No batch loop stops early, and `_process_tracks_in_chunks` always marks the playlist completed and returns true (src/migrator.py:339-343). `AddBatch`, `FillPlaylist` and `ProcessTracksInChunks` model this.
- **Cached ids bypass dedup.** The comment at src/migrator.py:300 says an id is added to the dedup set "to avoid duplicates within this chunk". That happens only for ids found by search. In the code, a cached "found" id that is not in the destination is staged without being added to the dedup set (src/migrator.py:275-279). The dedup guarantee therefore holds for ids found by search (`WalkDisciplined`). `CachedIdsMayRepeat` exhibits two tracks whose cached ids are staged twice.

## Model

| member | source | states |
|---|---|---|
| StateStore.Load | src/migrator.py:15-28 | a missing or unreadable cache file gives empty mappings, resolutions and completion set; a stored record gives its tables back, with the completion list read as a set |
| StateStore.WithoutPlaylist | src/migrator.py:152-154 | a key survives the force reset exactly when it does not start with `playlist_id + ":"`, and survivors keep their entries |
| StateStore.TrackKeyOwner | src/migrator.py:56-60 | with colon-free playlist ids, a resolution key has the prefix `p + ":"` exactly when it belongs to playlist `p`: the force reset of one playlist removes no other playlist's resolutions |
| StateStore.TrackKeyInjective | src/migrator.py:55-69 | with colon-free playlist ids, distinct (playlist, track) pairs get distinct resolution keys |
| StateStore.MigrationState.constructor | src/migrator.py:11-13 | the store starts as the loaded content of its cache file (empty when the file is missing or corrupt) |
| StateStore.MigrationState.Serialize | src/migrator.py:30-33 | the saved record lists each completed playlist exactly once, keeps mappings and resolutions, and loading it gives the in-memory tables back |
| StateStore.MigrationState.SaveState | src/migrator.py:30-36 | after a save, reloading the cache file reproduces the in-memory state, which the save does not change |
| StateStore.MigrationState.IsPlaylistCompleted | src/migrator.py:38-39 | true exactly for members of the completion set |
| StateStore.MigrationState.MarkPlaylistCompleted | src/migrator.py:41-44 | the playlist becomes completed, no other playlist's flag changes, marking twice changes nothing, and mappings and resolutions stay |
| StateStore.MigrationState.GetYoutubePlaylistId | src/migrator.py:46-47 | the destination id of a mapped playlist, none for an unmapped one |
| StateStore.MigrationState.SetYoutubePlaylistId | src/migrator.py:49-53 | set-then-get returns the new id; every other mapping, the resolutions and the completion set are unchanged |
| StateStore.MigrationState.IsTrackMigrated | src/migrator.py:55-57 | true exactly when a resolution is stored under `"<playlist_id>:<track_id>"` |
| StateStore.MigrationState.GetTrackStatus | src/migrator.py:67-69 | present exactly when the track is migrated, and then the stored resolution |
| StateStore.MigrationState.MarkTrackMigrated | src/migrator.py:59-65 | set-then-get returns the written resolution; no other key is added, removed or changed |
| YouTube.LowerSlice | src/youtube_client.py:50 | lower-casing works character by character: a slice of the lower-cased text is the lower-cased slice |
| YouTube.AuthErrorIgnoresCase | src/youtube_client.py:48-53 | the auth-error classification gives the same answer on an error text and its lower-cased form |
| YouTube.AuthMarkerInAnyCase | src/youtube_client.py:48-53 | an error text containing one of the five markers, in any letter case, is classified as an auth error |
| YouTube.IsAuthError | src/youtube_client.py:48-53 | an error is an auth error exactly when one of the five markers occurs, at some position, in its lower-cased text |
| YouTube.ContainsIffSlice | src/youtube_client.py:51-53 | the substring test used by the classification holds exactly when the marker occurs at some position |
| YouTube.SearchQuery | src/youtube_client.py:135-137 | the query is title, space, artists, with `" " + album` appended only for a non-empty album |
| YouTube.FirstPlayable | src/youtube_client.py:142-156 | a match exists exactly when some hit has a truthy video id; it is built from the first such hit, and its id is non-empty |
| YouTube.ToMatch | src/youtube_client.py:147-154 | the match keeps the hit's video id and artists, and reads a missing title, album or duration as `""` |
| YouTube.FirstIdWithTitle | src/youtube_client.py:239-244 | an id is found exactly when some playlist has exactly that title, and it is the id of the first one |
| YouTube.Playable | src/youtube_client.py:251-259 | the returned tracks are exactly the items with a truthy video id, never more than the items, none with an empty id |
| YouTube.PlayableAppend | src/youtube_client.py:251-259 | the filter keeps the items' order: it distributes over concatenation |
| YouTube.Infos | src/youtube_client.py:226-233 | one cached entry per listed playlist, in order, with a missing count read as 0 |
| YouTube.YouTubeClient.constructor | src/youtube_client.py:45-46 | a new client has no cached listing, no auth failure and no warning shown |
| YouTube.YouTubeClient.HandleAuthError | src/youtube_client.py:55-62 | the auth flag ends up set, and the warning is shown only on the first auth failure (at most once per client) |
| YouTube.YouTubeClient.Absorb | src/youtube_client.py:157-162 | a raised error sets the auth flag and warns once exactly when it is an auth error; other errors change neither |
| YouTube.YouTubeClient.SearchTrack | src/youtube_client.py:134-162 | one search call on the built query; the result is the first playable hit, or none on no hit or on a raised error, which goes through auth handling |
| YouTube.YouTubeClient.CreatePlaylist | src/youtube_client.py:164-205 | a raised creation gives none; otherwise the new id is returned exactly when reading it back succeeds, and a success empties the listing cache |
| YouTube.YouTubeClient.AddSongsToPlaylist | src/youtube_client.py:207-220 | an empty batch succeeds with no library call; otherwise success holds exactly when the library call did not raise |
| YouTube.YouTubeClient.GetPlaylists | src/youtube_client.py:222-237 | a cached listing is returned with no call; otherwise one fetch, whose failure caches and returns the empty listing |
| YouTube.YouTubeClient.PlaylistExists | src/youtube_client.py:239-244 | the id of the first listed playlist with exactly this title; no library call while the listing is cached |
| YouTube.YouTubeClient.GetPlaylistTracks | src/youtube_client.py:246-261 | the items with a video id, or the empty list when the read raises; never an error |
| Reconcile.DestinationName | src/migrator.py:119 | liked songs go to the fixed name; any other playlist goes to `"Spot "` followed by its own name |
| Reconcile.DestinationNamesDistinct | src/migrator.py:119 | distinct source names give distinct destination names, and none of them equals the liked-songs name |
| Reconcile.Description | src/migrator.py:185 | the new playlist's description names liked songs or a playlist as its origin |
| Reconcile.JoinArtists | src/migrator.py:288-289 | artists are joined with `", "`: empty for none, the one name for one, the first name then `", "` for more |
| Reconcile.FailureOf | src/migrator.py:314-319 | a failure record carries the destination playlist name, the track name, its joined artists and its album |
| Reconcile.Visit | src/migrator.py:266-320 | one track searches at most once, exactly on the search decision; off the search decision the resolutions, dedup set and failures stay; a search records "found" with the id or "not_found" under the track's key |
| Reconcile.WalkTracks | src/migrator.py:254-322 | a pass searches, stages and records failures at most once per track |
| Reconcile.Decide | src/migrator.py:266-284 | the decision table in both directions: force or no entry means search; a cached "found" with a truthy id is "already present" or "stage the cached id", depending on the dedup set; a cached "not_found" is skipped |
| Reconcile.WalkCompose | src/migrator.py:254-331 | a pass over two consecutive runs of tracks equals a pass over the first followed by a pass over the second: chunk boundaries do not change the outcome |
| Reconcile.VisitDisciplined | src/migrator.py:293-320 | one track keeps the dedup discipline and only extends the dedup set, the staged ids and the failure list |
| Reconcile.WalkDisciplined | src/migrator.py:263-321 | over a whole pass, search never stages an id twice nor one already in the destination; `tracks_migrated` counts exactly the ids staged by search; every miss adds one failure record |
| Reconcile.StartDisciplined | src/migrator.py:214-217 | a pass starting from the destination's current ids is disciplined |
| Reconcile.VisitResolves | src/migrator.py:305-312 | after one track, that track has a resolution a normal pass will not search again, and no other key changes |
| Reconcile.WalkResolves | src/migrator.py:263-321 | after a pass, every one of its tracks has a resolution that a normal pass will not search again; keys of other tracks are untouched and no other key is added |
| Reconcile.SettledPassIsQuiet | src/migrator.py:266-284 | a normal pass over tracks already resolved, whose found ids are in the destination, searches nothing, stages nothing and changes nothing |
| Reconcile.Resume | src/migrator.py:330-331 | resuming after chunks that were settled and saved gives the same result as a pass over the remaining tracks alone |
| Reconcile.SecondPassIsQuiet | src/migrator.py:266-284 | a second normal run of the same playlist, once the destination holds the found ids, does nothing: no insertion, no search, no new failure |
| Reconcile.ForcedPassSearchesAll | src/migrator.py:269-320 | in force mode no cache entry is used: every track is searched, and the failure count grows by exactly the number of misses |
| Reconcile.CachedIdsMayRepeat | src/migrator.py:275-279 | two tracks cached with the same found id, absent from the destination, are both staged: cached ids bypass the dedup set |
| Reconcile.Split | src/migrator.py:254-256 | every chunk or batch is non-empty and at most the chunk or batch size |
| Reconcile.SplitFlattens | src/migrator.py:254-256 | the chunks (or batches) cover the sequence exactly once, in order |
| Reconcile.SplitAccounting | src/migrator.py:352-364 | batching loses and invents no id; what is counted as added is at most all ids, and all of them when every batch succeeded |
| Reconcile.SucceededSizeBound | src/migrator.py:363-364 | the added total never exceeds what was sent, and equals it when every batch succeeded |
| Reconcile.OwnedOnly | src/migrator.py:392-395 | a playlist is kept exactly when it is in the input and owned by the user, by display name or by account id |
| Reconcile.OwnedOnlyAppend | src/migrator.py:392-395 | the owner filter keeps input order: it distributes over concatenation |
| Reconcile.LikedSongsEntry | src/migrator.py:397-404 | the appended liked-songs entry has the id `liked_songs` and is owned by the user |
| Reconcile.SessionPlaylists | src/migrator.py:392-404 | the session list is the owned playlists then liked songs, all owned by the user, containing every owned input playlist |
| Reconcile.SkippedIsNotOwned | src/migrator.py:406 | the skipped count as computed (`len(all) - len(owned) + 1`, with liked songs appended) is exactly the number of playlists not owned by the user |
| Engine.VideoIds | src/migrator.py:217 | the dedup baseline is exactly the set of non-empty video ids read from the destination |
| Engine.SearchAnswer | src/migrator.py:285-291 | the answer to a track's search at a library call is a non-empty id or none, and none when that search raised |
| Engine.AnsweredPointwise | src/migrator.py:254-322 | answers recorded for a pass are, track by track, the library's search answers at non-decreasing call indexes inside the pass's call range |
| Engine.AnsweredAppend | src/migrator.py:254-331 | answers recorded chunk by chunk, over consecutive call ranges, are the answers of the whole run of tracks |
| Engine.ChunkStep | src/migrator.py:263-322 | one more track extends the walk by one `Visit` and the answered prefix by the search answer at the current call, one call later exactly when it searched |
| Engine.ChunksStep | src/migrator.py:254-331 | a chunk walked after the earlier chunks continues the pass over all tracks so far, with the answers concatenated |
| Engine.Destination | src/migrator.py:160-208 | the destination is none exactly when no truthy mapping is used (or force), the listing has no playlist with the name and the creation gives no id; a truthy cached mapping is used unless forced; a found id is non-empty |
| Engine.Creates | src/migrator.py:160-208 | a playlist is created only when no truthy mapping is used and no listed playlist has the name, and the destination is then the created id; a used cached mapping never creates |
| Engine.DestinationCalls | src/migrator.py:160-208 | the destination choice takes at most four library calls: none when a truthy cached mapping is used, four (three with a cached listing) when it creates |
| Engine.DestinationForced | src/migrator.py:133-163 | under force the cached mapping plays no part: the destination, whether it creates and the calls it takes are the same whatever was mapped |
| Engine.DestinationCache | src/migrator.py:160-208 | the listing cache the destination choice leaves: the old cache when a truthy mapping is used unforced; otherwise empty exactly when no listed playlist has the name and the creation returns an id, even an empty one (src/youtube_client.py:195-196), and else the listing the lookup read or found cached (src/youtube_client.py:223-237); empty whenever a playlist is created |
| Engine.BatchCalls | src/migrator.py:355-377 | a non-empty batch takes one to three library calls, and three exactly when it fails; an empty one takes none |
| Engine.BatchLogPointwise | src/migrator.py:352-377 | every batch of a run is logged with its outcome and call index; each takes one or two attempts, succeeds when one was enough, and the call indexes do not decrease |
| Engine.FlushLogStep | src/migrator.py:325-331 | a chunk's flush, made when everything staged so far had been sent, extends the log: everything staged is then sent, and the added total grows by what the flush added |
| Engine.ChunkLogStep | src/migrator.py:254-331 | one turn of the chunk loop: the chunk is the next piece of the split into 200s, and its flush extends the log |
| Engine.ChunkBound | src/migrator.py:254-256 | the end of the `n`-th chunk of 200 never passes the track count |
| Engine.PlacedExtend | src/migrator.py:254-331 | flush placements stated over a prefix of the answers still hold once more answers are appended |
| Engine.PlacedSnoc | src/migrator.py:254-331 | a flush that starts right after the searches of the walk up to its chunk's end, plus the calls of all earlier flushes, extends the placed log |
| Engine.PlacedStep | src/migrator.py:254-331 | one turn of the chunk loop keeps every flush placed and the call count equal to the walk's searches plus all flushes' calls: a chunk's searches start where the previous flush ended, and its flush starts after them and ends at the new count |
| Engine.FlushAccounting | src/migrator.py:325-327 | over a run of chunk flushes the ids that went in are at most the ids sent, and all of them when every batch went in |
| Engine.FlushTotals | src/migrator.py:325-327 | the running `total_added` never exceeds the ids staged so far |
| Engine.FlushesFlatten | src/migrator.py:325-327 | each chunk's batches are exactly its staged ids, in order, and a run that staged nothing sent no batch |
| Engine.SpotifyToYouTubeMigrator.constructor | src/migrator.py:72-86 | every summary counter starts at zero, the failure list is empty and no report is written |
| Engine.SpotifyToYouTubeMigrator.ClearPlaylistCache | src/migrator.py:122-159 | the force reset removes the playlist's mapping, completion flag and every resolution keyed by its id; nothing else in the store changes, and the cleared state is saved |
| Engine.SpotifyToYouTubeMigrator.AddBatch | src/migrator.py:355-377 | the batch succeeds exactly when it is empty or the first or the retried library add returns; a retry happens only after a failed first attempt, and a failed retry is followed by one read of the destination, so a non-empty batch takes its attempts plus one call when it fails (`BatchCalls`), and an empty one none; the listing cache is untouched |
| Engine.SpotifyToYouTubeMigrator.AddTracksInBatches | src/migrator.py:345-379 | the ids go out in batches of 50 that cover them exactly once, in order; batch `k` starts at library call `callAt[k]`, its outcome is `BatchSucceeds` at that call and the next batch starts `BatchCalls` later; the total is the size of the batches that succeeded, at most all ids and all of them when every batch succeeded |
| Engine.SpotifyToYouTubeMigrator.RecordSearch | src/migrator.py:293-320 | after a search, the store and counters advance by one `Visit` with the search answer: a new hit is staged and counted, a hit already seen is only recorded, a miss is recorded "not_found" with a failure entry |
| Engine.SpotifyToYouTubeMigrator.ProcessTrack | src/migrator.py:263-322 | one track's effect on the store, dedup set, counters and staged ids is one `Visit` with the answer `SearchAnswer` gives at the current library call; only the search decision calls the library, exactly once |
| Engine.SpotifyToYouTubeMigrator.ProcessChunk | src/migrator.py:263-322 | the per-track loop over one chunk has the effect of `WalkTracks` over the chunk with answers that are the library's search answers at non-decreasing call indexes (`AnsweredAt`), one call per search; the chunk's ids are what that walk stages |
| Engine.SpotifyToYouTubeMigrator.FlushChunk | src/migrator.py:325-328 | the chunk's staged ids go out in batches of 50 as the library decided (`Flushed`), from the current call to the new one; nothing goes out when there are none; the count returned is the size of the batches that went in |
| Engine.SpotifyToYouTubeMigrator.MigrateChunk | src/migrator.py:255-331 | one chunk is walked with the library's search answers, extending the answered prefix of the tracks and keeping the earlier answers; the ids the walk staged over the chunk are exactly the flush's ids, sent in batches of 50 starting at the call right after the chunk's searches and ending at the current call count, and the count added is the size of the batches that went in (`ChunkFlushed`); the listing cache is untouched; the store is saved so that a reload gives the in-memory state |
| Engine.SpotifyToYouTubeMigrator.MigrateNextChunk | src/migrator.py:254-331 | one turn of the chunk loop: the next chunk is the next piece of the split into 200s (`ChunkBound`), the walk and the answers extend to its end, and its flush extends the log, so that everything staged so far has been sent and the added total is the log's; every flush so far starts right after its chunk's searches (`FlushesPlaced`), and the calls taken are exactly the searches of the walk so far plus every flush's batch calls (`Spent`); the listing cache is untouched |
| Engine.SpotifyToYouTubeMigrator.MigrateChunks | src/migrator.py:254-331 | chunks of 200 cover the tracks in order; their combined effect is `WalkTracks` over all tracks from the baseline, with each answer the library's search answer at its call index; there is one flush per chunk, every staged id is sent, in order (`Sent`), as the library decided (`FlushLog`), and `total_added` is what went in (`Added`), at most the staged ids; each flush starts at the call right after its chunk's searches (`FlushesPlaced`), and the calls taken are exactly the walk's searches plus the flushes' calls (`Spent`); the listing cache is untouched; after the last chunk of a non-empty run a reload gives the in-memory state |
| Engine.SpotifyToYouTubeMigrator.ProcessTracksInChunks | src/migrator.py:240-343 | the resolutions and counters become those of the whole pass with the library's search answers, and the pass's staged ids were all sent chunk by chunk as the library decided, each flush right after its chunk's searches; the calls taken are exactly the pass's searches plus the flushes' calls (`Spent`) and the listing cache is untouched; the playlist is then marked completed, the state saved, `playlists_processed` incremented, and true returned whatever the batches did |
| Engine.SpotifyToYouTubeMigrator.LookUpPlaylist | src/migrator.py:161-168 | a truthy cached mapping is returned without a library call unless forced; otherwise the first listed playlist with the name, with one listing call when nothing is cached, after which the listing cache holds that listing |
| Engine.SpotifyToYouTubeMigrator.CreateDestination | src/migrator.py:184-208 | the created id as the library gives it, after one creation call (two with its read-back) and a read of the new playlist on success; `playlists_created` grows exactly on success; a creation that yields an id empties the listing cache, any other outcome leaves it |
| Engine.SpotifyToYouTubeMigrator.FindOrCreatePlaylist | src/migrator.py:160-208 | the result is `Destination`: a truthy cached mapping is used without any library call unless forced; otherwise the first listed playlist with the name, else the created one; none exactly when all three fail; `playlists_created` grows by exactly one when a playlist is created (`Creates`) and is unchanged otherwise; the calls taken are `DestinationCalls` and the listing cache left is `DestinationCache` |
| Engine.SpotifyToYouTubeMigrator.ResolveDestination | src/migrator.py:122-208 | under force, the playlist's mapping, completion flag and resolutions are cleared and saved, otherwise the store is untouched; then the destination is `Destination` on the state before the reset, the calls taken are `DestinationCalls`, the listing cache left is `DestinationCache`, and `playlists_created` grows exactly when `Creates` |
| Engine.SpotifyToYouTubeMigrator.FillPlaylist | src/migrator.py:209-238 | the mapping table gets exactly this entry and is saved, the playlist ends completed, the source tracks are counted, and the pass runs from a baseline that is exactly the video ids of the destination read at the first call, with the library's search answers from the next call on; all staged ids are sent as the library decided, each flush right after its chunk's searches; the calls taken are that read plus the pass's searches and flushes, and the listing cache is untouched |
| Engine.SpotifyToYouTubeMigrator.MigratePlaylist | src/migrator.py:118-238 | success holds exactly when `Destination` finds a playlist, always when a truthy mapping is cached and not forced; `playlists_created` grows by exactly one when a playlist is created (`Creates`) and is unchanged otherwise; the listing cache left is `DestinationCache`; on success the mapping table is the old one with exactly this playlist's entry set to that id and its destination name, the playlist is completed, the baseline is the destination read at the call `DestinationCalls` after the start, and the resolutions and counters are a full pass from the (force-cleared) resolutions and that baseline, with the library's search answers from the next call on, every staged id sent as the library decided, each flush right after its chunk's searches, and the call count at the end exactly that read plus the pass's searches and flushes (`Spent`); on failure the calls taken are exactly `DestinationCalls`, only the force reset happened and no counter moved; completed playlists stay mapped |
| Engine.SpotifyToYouTubeMigrator.SaveFailedTracksReport | src/migrator.py:446-454 | the failure list is written exactly when it is non-empty |
| Engine.SpotifyToYouTubeMigrator.MigrateSessionPlaylist | src/migrator.py:420-427 | one playlist of the session, migrated without force: success exactly when `Destination` finds a playlist on the state at that call, and always when a truthy mapping is cached; a success leaves the playlist completed; completion only grows and completed playlists stay mapped |
| Engine.SpotifyToYouTubeMigrator.MigrateSessionAt | src/migrator.py:420-433 | one turn of the session loop appends the playlist's result to the earlier ones; that result is true exactly when `Destination`, unforced, finds a playlist on the state at that turn; every playlist with a true result is completed, and completion only grows |
| Engine.SpotifyToYouTubeMigrator.RunMigration | src/migrator.py:391-435 | the skipped count is the number of playlists not owned; unconfirmed, the store is unchanged and there are no results; once confirmed there is one result per session playlist (the owned ones, then liked songs), in order, and a playlist with a true result is completed; completion only grows; completed playlists stay mapped; a non-empty failure list is written |

## Left out

- Console output, progress bars and the summary display (`MigratorUI`, `print`) are left out: they carry no state the engine reads.
- Client setup is left out: `initialize_clients`, OAuth setup and the YouTube client's credential checks (src/migrator.py:88-116, src/youtube_client.py:1-46, 64-132). The model starts from a ready client.
- The Spotify client is not part of this model. The tracks of a playlist (or the saved tracks for liked songs) are a parameter, `sourceTracks`.
- The pacing and back-off sleeps (`time.sleep`) are left out: timing is not modelled.
- JSON encoding of the cache and report files is not modelled. The file is an abstract `Document`, and only what a save then a load gives back is stated.
- Wall-clock timestamps are one `now` value for the whole session: `RunMigration` passes the same value to every playlist, where the source takes a fresh `time.time()` per track (src/migrator.py:64).
- `create_playlist`'s account-info probe is left out. It only prints, and any error it raises is swallowed. Thumbnails in search matches are left out too, because nothing reads them.
- The progress percentage (a float) and the messages about how many tracks were added are left out.
- The `KeyboardInterrupt` and generic `except` handlers of `run_migration` (src/migrator.py:438-444) are left out, because interruption and foreign errors are not modelled. Both save the state. The interrupt handler then returns without re-raising, skipping the failure report and the summary; the generic handler re-raises.
- StateStore.Load: a cache file that is unreadable for any reason is read as empty. The source catches only `JSONDecodeError` and `FileNotFoundError` (src/migrator.py:20); other read errors raise, and a record that lacks a key raises `KeyError` later (src/migrator.py:39, 47, 57).
- The `except` branches after `get_playlist_tracks` in `migrate_playlist` and `_add_tracks_in_batches` are not modelled, because that call never raises.
- YouTube.Lower: only ASCII letters are lower-cased. Python's `str.lower` also maps other Unicode letters.
- Engine.SpotifyToYouTubeMigrator.RunMigration: does not state when a result is true, nor any playlist's walk. Each call's success condition is stated by `MigrateSessionPlaylist`, and its walk by `MigratePlaylist`, on the state at that call.
- Engine.SpotifyToYouTubeMigrator.MigrateChunks: the save after every chunk is a loop invariant, not an ensures; the ensures states the reload after the last save.
- YouTube.ToMatch: hits are well-formed records. In the source, a malformed hit (an artist or album that is not a mapping) raises inside the loop, and the whole search then returns none; a title that is present but null is kept as null, not read as `""`.
- The ghost call indexes of a pass (`AnsweredAt`): a track that was not searched still has a call index in `at`, a placeholder equal to the call count at that point; its answer is never consulted by `Visit`.
- The search call indexes of a pass (`AnsweredAt`) place each search at a call index within the pass's range and in order (two searches may share an index in what it states), not at its exact index. The exact count is pinned per chunk instead: each flush starts right after its chunk's searches (`FlushesPlaced`), and a pass ends at its searches plus its flushes' calls (`Spent`).
- Calls whose answer the engine never reads are pinned only by their index in the call count, not by which library operation they are: the playlist read after a failed batch retry, the accessibility read of an existing playlist under force (src/migrator.py:174-176), and the accessibility read of a newly created playlist (src/migrator.py:198-199).
