/**
 * The pure side of the reconciliation engine in src/migrator.py: destination
 * naming, the per-track decision table, the effect of one pass over a
 * playlist's tracks (`WalkTracks`), the split into chunks and batches, and the
 * session's owner filter. The imperative engine in module Engine is proved
 * against these definitions; the lemmas here state what a pass guarantees.
 */
module Reconcile {
  import opened Common
  import opened StateStore

  /** Tracks are searched in chunks of this many. */
  const CHUNK_SIZE: nat := 200
  /** Staged ids are added to the destination in batches of this many. */
  const BATCH_SIZE: nat := 50
  /** Synthetic id of the liked-songs pseudo-playlist. */
  const LIKED_SONGS_ID := "liked_songs"
  /** Destination name of the liked-songs pseudo-playlist. */
  const LIKED_SONGS_NAME := "Liked Songs - Spot"

  /** A source playlist: `{id, name, owner, track_count, public}`. */
  datatype SourcePlaylist = SourcePlaylist(id: string, name: string, owner: string,
                                           trackCount: Option<int>, isPublic: bool)

  /** The current source-catalog user: `{id, display_name}`. */
  datatype UserInfo = UserInfo(id: string, displayName: string)

  /** A source track: `{id, name, artists, album}`. */
  datatype SourceTrack = SourceTrack(id: string, name: string, artists: seq<string>, album: string)

  /** An entry of the failure report: `{playlist, track, artist, album}`. */
  datatype FailedTrack = FailedTrack(playlist: string, track: string, artist: string, album: string)

  // ---------------------------------------------------------------- naming

  /** Destination playlist name: fixed for liked songs, `"Spot " + name` otherwise. */
  function DestinationName(sourceName: string, isLikedSongs: bool): (r: string)
    ensures isLikedSongs ==> r == LIKED_SONGS_NAME
    ensures !isLikedSongs ==> |r| == |sourceName| + 5 && r[..5] == "Spot " && r[5..] == sourceName
  {
    if isLikedSongs then LIKED_SONGS_NAME else "Spot " + sourceName
  }

  /** Description given to a created destination playlist. */
  function Description(isLikedSongs: bool): (r: string)
    ensures isLikedSongs ==> r == "Migrated from Spotify Liked Songs"
    ensures !isLikedSongs ==> r == "Migrated from Spotify playlist"
  {
    "Migrated from Spotify " + (if isLikedSongs then "Liked Songs" else "playlist")
  }

  /** Distinct source names get distinct destination names, none equal to the liked-songs name. */
  lemma DestinationNamesDistinct(a: string, b: string)
    ensures DestinationName(a, false) == DestinationName(b, false) ==> a == b
    ensures DestinationName(a, false) != LIKED_SONGS_NAME
  {
    if DestinationName(a, false) == DestinationName(b, false) {
      assert a == DestinationName(a, false)[5..];
    }
    assert DestinationName(a, false)[0] == 'S' != LIKED_SONGS_NAME[0];
  }

  /** `", ".join(artists)`. */
  function JoinArtists(artists: seq<string>): (r: string)
    ensures artists == [] ==> r == ""
    ensures |artists| == 1 ==> r == artists[0]
    ensures |artists| > 1 ==> StartsWith(r, artists[0] + ", ")
  {
    if artists == [] then ""
    else if |artists| == 1 then artists[0]
    else artists[0] + ", " + JoinArtists(artists[1..])
  }

  // -------------------------------------------------------- decision table

  /** What the engine does with one track, before any search result is known. */
  datatype Decision =
    | AlreadyPresent            // cached as found, and the id is already in the destination
    | StageCached(videoId: string)  // cached as found, not in the destination: add it again
    | SkipNotFound              // cached as not found: do not search again
    | Search                    // no usable cache entry, or forced: search the destination

  /**
   * The decision table of `_process_tracks_in_chunks`. A cached "found" entry
   * without a truthy video id falls through to a search, as in the source.
   */
  function Decide(force: bool, cached: Option<TrackEntry>, seen: set<string>): (d: Decision)
    ensures force || cached.None? ==> d == Search
    ensures !force && cached.Some? && cached.value.status == NOT_FOUND ==> d == SkipNotFound
    ensures d.AlreadyPresent? <==> !force && cached.Some? && cached.value.status == FOUND
                                   && Truthy(cached.value.videoId) && cached.value.videoId.value in seen
    ensures d.StageCached? <==> !force && cached.Some? && cached.value.status == FOUND
                                && Truthy(cached.value.videoId) && cached.value.videoId.value !in seen
    ensures d.StageCached? ==> d.videoId == cached.value.videoId.value && d.videoId != ""
  {
    if !force && cached.Some? && cached.value.status == FOUND && Truthy(cached.value.videoId) then
      if cached.value.videoId.value in seen then AlreadyPresent else StageCached(cached.value.videoId.value)
    else if !force && cached.Some? && cached.value.status == NOT_FOUND then SkipNotFound
    else Search
  }

  // ------------------------------------------------------------ one pass

  /** The fixed parameters of one pass over a playlist. */
  datatype Pass = Pass(playlistId: string, playlistName: string, force: bool, now: int)

  /**
   * What a pass has done so far: the resolution table, the dedup set, the ids
   * staged for insertion (all chunks), those among them found by search, the
   * counters and failure records this pass added, and the number of searches.
   */
  datatype Progress = Progress(
    entries: map<string, TrackEntry>,
    seen: set<string>,
    staged: seq<string>,
    viaSearch: seq<string>,
    migrated: nat,
    failed: nat,
    failures: seq<FailedTrack>,
    searches: nat)

  function Start(entries: map<string, TrackEntry>, baseline: set<string>): Progress
  {
    Progress(entries, baseline, [], [], 0, 0, [], 0)
  }

  function Lookup(entries: map<string, TrackEntry>, key: string): Option<TrackEntry>
  {
    if key in entries then Some(entries[key]) else None
  }

  /** The failure record of a track that the search did not find. */
  function FailureOf(pass: Pass, t: SourceTrack): (r: FailedTrack)
    ensures r.playlist == pass.playlistName && r.track == t.name
    ensures r.artist == JoinArtists(t.artists) && r.album == t.album
  {
    FailedTrack(pass.playlistName, t.name, JoinArtists(t.artists), t.album)
  }

  /**
   * One track of the pass. `answer` is the id the destination search returned
   * and is used only when the decision is to search. Only a search writes a
   * resolution, and it writes the resolution of this track.
   */
  function Visit(p: Progress, pass: Pass, t: SourceTrack, answer: Option<string>): (r: Progress)
    ensures var d := Decide(pass.force, Lookup(p.entries, TrackKey(pass.playlistId, t.id)), p.seen);
            r.searches == p.searches + (if d.Search? then 1 else 0)
    ensures var d := Decide(pass.force, Lookup(p.entries, TrackKey(pass.playlistId, t.id)), p.seen);
            !d.Search? ==> r.entries == p.entries && r.seen == p.seen && r.failures == p.failures
    ensures var key := TrackKey(pass.playlistId, t.id);
            Decide(pass.force, Lookup(p.entries, key), p.seen).Search? ==>
              r.entries == p.entries[key := TrackEntry(if answer.Some? then FOUND else NOT_FOUND, answer, pass.now)]
  {
    var key := TrackKey(pass.playlistId, t.id);
    match Decide(pass.force, Lookup(p.entries, key), p.seen)
    case AlreadyPresent => p
    case SkipNotFound => p
    case StageCached(v) => p.(staged := p.staged + [v])
    case Search =>
      var asked := p.(searches := p.searches + 1);
      match answer
      case Some(v) =>
        var written := asked.(entries := p.entries[key := TrackEntry(FOUND, Some(v), pass.now)]);
        if v !in p.seen then
          written.(staged := p.staged + [v], viaSearch := p.viaSearch + [v],
                   seen := p.seen + {v}, migrated := p.migrated + 1)
        else written
      case None =>
        asked.(entries := p.entries[key := TrackEntry(NOT_FOUND, None, pass.now)],
               failed := p.failed + 1,
               failures := p.failures + [FailureOf(pass, t)])
  }

  /**
   * The tracks of a pass in order; `answers[i]` is the search answer for
   * `tracks[i]`. Each track costs at most one search and stages, and fails,
   * at most one id.
   */
  function WalkTracks(p: Progress, pass: Pass, tracks: seq<SourceTrack>, answers: seq<Option<string>>): (r: Progress)
    requires |answers| == |tracks|
    ensures p.searches <= r.searches <= p.searches + |tracks|
    ensures |p.staged| <= |r.staged| <= |p.staged| + |tracks|
    ensures |p.failures| <= |r.failures| <= |p.failures| + |tracks|
    decreases |tracks|
  {
    if tracks == [] then p
    else
      var n := |tracks| - 1;
      Visit(WalkTracks(p, pass, tracks[..n], answers[..n]), pass, tracks[n], answers[n])
  }

  /** Search answers are real ids: the adapter only returns truthy video ids. */
  predicate RealAnswers(answers: seq<Option<string>>)
  {
    forall i :: 0 <= i < |answers| ==> answers[i].Some? ==> answers[i].value != ""
  }

  lemma RealAnswersAppend(a: seq<Option<string>>, b: seq<Option<string>>)
    requires RealAnswers(a) && RealAnswers(b)
    ensures RealAnswers(a + b)
  {
  }

  /** One more track extends the walk by one visit. */
  lemma WalkSnoc(p: Progress, pass: Pass, tracks: seq<SourceTrack>, answers: seq<Option<string>>,
                 t: SourceTrack, a: Option<string>)
    requires |answers| == |tracks|
    ensures WalkTracks(p, pass, tracks + [t], answers + [a]) == Visit(WalkTracks(p, pass, tracks, answers), pass, t, a)
  {
    assert (tracks + [t])[..|tracks|] == tracks;
    assert (answers + [a])[..|answers|] == answers;
  }

  /** A pass over `a + b` is a pass over `a` followed by a pass over `b`: chunking does not change the outcome. */
  lemma {:induction false} WalkCompose(p: Progress, pass: Pass, a: seq<SourceTrack>, b: seq<SourceTrack>,
                                       ansA: seq<Option<string>>, ansB: seq<Option<string>>)
    requires |ansA| == |a| && |ansB| == |b|
    ensures WalkTracks(p, pass, a + b, ansA + ansB)
         == WalkTracks(WalkTracks(p, pass, a, ansA), pass, b, ansB)
    decreases |b|
  {
    if b == [] {
      assert a + b == a;
      assert ansA + ansB == ansA;
    } else {
      var n := |b| - 1;
      assert b == b[..n] + [b[n]];
      assert ansB == ansB[..n] + [ansB[n]];
      assert a + b == (a + b[..n]) + [b[n]];
      assert ansA + ansB == (ansA + ansB[..n]) + [ansB[n]];
      WalkSnoc(p, pass, a + b[..n], ansA + ansB[..n], b[n], ansB[n]);
      WalkCompose(p, pass, a, b[..n], ansA, ansB[..n]);
      WalkSnoc(WalkTracks(p, pass, a, ansA), pass, b[..n], ansB[..n], b[n], ansB[n]);
    }
  }

  /** Walking one more track of a prefix of `tracks`. */
  lemma WalkPrefixStep(p: Progress, pass: Pass, tracks: seq<SourceTrack>, answers: seq<Option<string>>,
                       a: Option<string>)
    requires |answers| < |tracks|
    ensures WalkTracks(p, pass, tracks[..|answers| + 1], answers + [a])
         == Visit(WalkTracks(p, pass, tracks[..|answers|], answers), pass, tracks[|answers|], a)
  {
    var j := |answers|;
    assert tracks[..j + 1] == tracks[..j] + [tracks[j]];
    WalkSnoc(p, pass, tracks[..j], answers, tracks[j], a);
  }

  /** Walking the next slice `tracks[i..j]` of a prefix of `tracks`. */
  lemma WalkPrefixSlice(p: Progress, pass: Pass, tracks: seq<SourceTrack>, j: nat,
                        answers: seq<Option<string>>, more: seq<Option<string>>)
    requires |answers| <= j <= |tracks| && |more| == j - |answers|
    ensures WalkTracks(p, pass, tracks[..j], answers + more)
         == WalkTracks(WalkTracks(p, pass, tracks[..|answers|], answers), pass, tracks[|answers|..j], more)
  {
    var i := |answers|;
    assert tracks[..j] == tracks[..i] + tracks[i..j];
    WalkCompose(p, pass, tracks[..i], tracks[i..j], answers, more);
  }

  // ------------------------------------------------ what a pass preserves

  /**
   * The dedup discipline relative to the baseline read from the destination:
   * ids staged by search are pairwise distinct and not in the baseline, the
   * dedup set is the baseline plus those ids, and the counters match the
   * search-staged ids and the failure records.
   */
  ghost predicate Disciplined(p: Progress, baseline: set<string>)
  {
    && Distinct(p.viaSearch)
    && baseline !! Elems(p.viaSearch)
    && p.seen == baseline + Elems(p.viaSearch)
    && p.migrated == |p.viaSearch|
    && p.failed == |p.failures|
  }

  /** `a` is a prefix of `b`. */
  predicate Prefix<T(==)>(a: seq<T>, b: seq<T>)
  {
    |a| <= |b| && b[..|a|] == a
  }

  /** Everything a pass may only extend: dedup set, staged ids, search-staged ids, failures. */
  ghost predicate Grows(p: Progress, q: Progress)
  {
    && p.seen <= q.seen
    && Prefix(p.staged, q.staged)
    && Prefix(p.viaSearch, q.viaSearch)
    && Prefix(p.failures, q.failures)
    && |q.staged| - |p.staged| >= |q.viaSearch| - |p.viaSearch|
  }

  lemma VisitDisciplined(p: Progress, baseline: set<string>, pass: Pass, t: SourceTrack, a: Option<string>)
    requires Disciplined(p, baseline)
    ensures Disciplined(Visit(p, pass, t, a), baseline)
    ensures Grows(p, Visit(p, pass, t, a))
  {
    var q := Visit(p, pass, t, a);
    if q.viaSearch != p.viaSearch {
      var v := a.value;
      assert q.viaSearch == p.viaSearch + [v] && v !in p.seen;
      assert Elems(q.viaSearch) == Elems(p.viaSearch) + {v};
      assert q.viaSearch[..|p.viaSearch|] == p.viaSearch;
    }
  }

  /**
   * Over a whole pass: search never stages an id twice nor one already in the
   * destination, the dedup set only grows, every search miss adds exactly one
   * failure record, and `tracks_migrated` counts exactly the search-staged ids.
   */
  lemma {:induction false} WalkDisciplined(p: Progress, baseline: set<string>, pass: Pass,
                                           tracks: seq<SourceTrack>, answers: seq<Option<string>>)
    requires |answers| == |tracks|
    requires Disciplined(p, baseline)
    ensures Disciplined(WalkTracks(p, pass, tracks, answers), baseline)
    ensures Grows(p, WalkTracks(p, pass, tracks, answers))
    decreases |tracks|
  {
    if tracks != [] {
      var n := |tracks| - 1;
      var mid := WalkTracks(p, pass, tracks[..n], answers[..n]);
      WalkDisciplined(p, baseline, pass, tracks[..n], answers[..n]);
      VisitDisciplined(mid, baseline, pass, tracks[n], answers[n]);
      var q := WalkTracks(p, pass, tracks, answers);
      assert q.staged[..|mid.staged|] == mid.staged;
      assert q.staged[..|p.staged|] == mid.staged[..|p.staged|];
      assert q.viaSearch[..|p.viaSearch|] == mid.viaSearch[..|p.viaSearch|];
      assert q.failures[..|p.failures|] == mid.failures[..|p.failures|];
    }
  }

  /** A pass begins disciplined. */
  lemma StartDisciplined(entries: map<string, TrackEntry>, baseline: set<string>)
    ensures Disciplined(Start(entries, baseline), baseline)
  {
    assert Elems<string>([]) == {};
  }

  // --------------------------------------- resolutions written by a pass

  /** A resolution that a later normal-mode pass will not search again. */
  predicate Resolved(e: TrackEntry)
  {
    (e.status == FOUND && Truthy(e.videoId)) || e.status == NOT_FOUND
  }

  /** Every track of `tracks` has a resolved entry for playlist `pid`. */
  ghost predicate AllResolved(entries: map<string, TrackEntry>, pid: string, tracks: seq<SourceTrack>)
  {
    forall i :: 0 <= i < |tracks| ==>
      TrackKey(pid, tracks[i].id) in entries && Resolved(entries[TrackKey(pid, tracks[i].id)])
  }

  /** `k` is the key of one of the tracks of this pass. */
  ghost predicate KeyOfPass(k: string, pid: string, tracks: seq<SourceTrack>)
  {
    exists i :: 0 <= i < |tracks| && k == TrackKey(pid, tracks[i].id)
  }

  lemma VisitResolves(p: Progress, pass: Pass, done: seq<SourceTrack>, t: SourceTrack, a: Option<string>)
    requires a.Some? ==> a.value != ""
    requires AllResolved(p.entries, pass.playlistId, done)
    ensures AllResolved(Visit(p, pass, t, a).entries, pass.playlistId, done + [t])
    ensures forall k :: k in p.entries ==> k in Visit(p, pass, t, a).entries
    ensures forall k :: k in p.entries && k != TrackKey(pass.playlistId, t.id) ==>
              Visit(p, pass, t, a).entries[k] == p.entries[k]
    ensures forall k :: k in Visit(p, pass, t, a).entries ==> k in p.entries || k == TrackKey(pass.playlistId, t.id)
  {
    var q := Visit(p, pass, t, a);
    forall i | 0 <= i < |done + [t]|
      ensures TrackKey(pass.playlistId, (done + [t])[i].id) in q.entries
      ensures Resolved(q.entries[TrackKey(pass.playlistId, (done + [t])[i].id)])
    {
      if i < |done| {
        assert (done + [t])[i] == done[i];
      }
    }
  }

  /**
   * After a pass, every one of its tracks has a resolution that a normal-mode
   * pass will not search again; keys of other tracks are left as they were,
   * and no key outside the pass's tracks is added.
   */
  lemma {:induction false} WalkResolves(p: Progress, pass: Pass, tracks: seq<SourceTrack>,
                                        answers: seq<Option<string>>)
    requires |answers| == |tracks| && RealAnswers(answers)
    ensures AllResolved(WalkTracks(p, pass, tracks, answers).entries, pass.playlistId, tracks)
    ensures forall k :: k in p.entries ==> k in WalkTracks(p, pass, tracks, answers).entries
    ensures forall k :: k in p.entries && !KeyOfPass(k, pass.playlistId, tracks) ==>
              WalkTracks(p, pass, tracks, answers).entries[k] == p.entries[k]
    ensures forall k :: k in WalkTracks(p, pass, tracks, answers).entries ==>
              k in p.entries || KeyOfPass(k, pass.playlistId, tracks)
    decreases |tracks|
  {
    if tracks != [] {
      var n := |tracks| - 1;
      var init := tracks[..n];
      assert tracks == init + [tracks[n]];
      var mid := WalkTracks(p, pass, init, answers[..n]);
      WalkResolves(p, pass, init, answers[..n]);
      VisitResolves(mid, pass, init, tracks[n], answers[n]);
      forall k | KeyOfPass(k, pass.playlistId, init)
        ensures KeyOfPass(k, pass.playlistId, tracks)
      {
        var i :| 0 <= i < |init| && k == TrackKey(pass.playlistId, init[i].id);
        assert tracks[i] == init[i];
      }
    }
  }

  /** Found ids of the given tracks' resolutions are all in `seen`. */
  ghost predicate FoundPresent(entries: map<string, TrackEntry>, pid: string, tracks: seq<SourceTrack>, seen: set<string>)
  {
    forall i :: 0 <= i < |tracks| && TrackKey(pid, tracks[i].id) in entries ==>
      var e := entries[TrackKey(pid, tracks[i].id)];
      e.status == FOUND && Truthy(e.videoId) ==> e.videoId.value in seen
  }

  /**
   * Idempotence and resumption: in normal mode, a pass over tracks that all
   * have resolutions whose found ids are already in the destination changes
   * nothing -- no search, nothing staged, no counter moves, no entry written.
   */
  lemma {:induction false} SettledPassIsQuiet(p: Progress, pass: Pass, tracks: seq<SourceTrack>,
                                              answers: seq<Option<string>>)
    requires |answers| == |tracks| && !pass.force
    requires AllResolved(p.entries, pass.playlistId, tracks)
    requires FoundPresent(p.entries, pass.playlistId, tracks, p.seen)
    ensures WalkTracks(p, pass, tracks, answers) == p
    decreases |tracks|
  {
    if tracks != [] {
      var n := |tracks| - 1;
      var init := tracks[..n];
      assert forall i :: 0 <= i < |init| ==> init[i] == tracks[i];
      SettledPassIsQuiet(p, pass, init, answers[..n]);
      var key := TrackKey(pass.playlistId, tracks[n].id);
      assert key in p.entries && Resolved(p.entries[key]);
    }
  }

  /**
   * Resuming an interrupted pass: the tracks of the chunks already settled are
   * skipped without any work, so the pass equals a pass over the rest alone.
   */
  lemma Resume(p: Progress, pass: Pass, done: seq<SourceTrack>, rest: seq<SourceTrack>,
               ansDone: seq<Option<string>>, ansRest: seq<Option<string>>)
    requires |ansDone| == |done| && |ansRest| == |rest| && !pass.force
    requires AllResolved(p.entries, pass.playlistId, done)
    requires FoundPresent(p.entries, pass.playlistId, done, p.seen)
    ensures WalkTracks(p, pass, done + rest, ansDone + ansRest) == WalkTracks(p, pass, rest, ansRest)
  {
    WalkCompose(p, pass, done, rest, ansDone, ansRest);
    SettledPassIsQuiet(p, pass, done, ansDone);
  }

  /**
   * A second normal-mode pass right after a first one, once the destination
   * holds every id the first pass resolved as found, does nothing.
   */
  lemma SecondPassIsQuiet(p: Progress, pass: Pass, tracks: seq<SourceTrack>,
                          answers: seq<Option<string>>, answers2: seq<Option<string>>,
                          baseline2: set<string>)
    requires |answers| == |tracks| && |answers2| == |tracks| && RealAnswers(answers) && !pass.force
    requires FoundPresent(WalkTracks(p, pass, tracks, answers).entries, pass.playlistId, tracks, baseline2)
    ensures var second := Start(WalkTracks(p, pass, tracks, answers).entries, baseline2);
            WalkTracks(second, pass, tracks, answers2) == second
  {
    WalkResolves(p, pass, tracks, answers);
    SettledPassIsQuiet(Start(WalkTracks(p, pass, tracks, answers).entries, baseline2), pass, tracks, answers2);
  }

  /** In force mode every track is searched: a miss is recorded for each track whose answer is `None`. */
  lemma {:induction false} ForcedPassSearchesAll(p: Progress, pass: Pass, tracks: seq<SourceTrack>,
                                                 answers: seq<Option<string>>)
    requires |answers| == |tracks| && pass.force
    ensures WalkTracks(p, pass, tracks, answers).searches == p.searches + |tracks|
    ensures WalkTracks(p, pass, tracks, answers).failed == p.failed + Misses(answers)
    decreases |tracks|
  {
    if tracks != [] {
      var n := |tracks| - 1;
      ForcedPassSearchesAll(p, pass, tracks[..n], answers[..n]);
      assert answers[..n] == answers[..|answers| - 1];
    }
  }

  /** Number of `None` answers. */
  function Misses(answers: seq<Option<string>>): nat
  {
    if answers == [] then 0
    else Misses(answers[..|answers| - 1]) + (if answers[|answers| - 1].None? then 1 else 0)
  }

  /**
   * Ids reused from the cache bypass the dedup set: two tracks of one playlist
   * cached with the same found id, absent from the destination, are both staged.
   */
  lemma CachedIdsMayRepeat()
    ensures var entries := map[TrackKey("p", "a") := TrackEntry(FOUND, Some("v"), 0),
                               TrackKey("p", "b") := TrackEntry(FOUND, Some("v"), 0)];
            var tracks := [SourceTrack("a", "A", [], ""), SourceTrack("b", "B", [], "")];
            WalkTracks(Start(entries, {}), Pass("p", "Spot P", false, 0), tracks, [None, None]).staged == ["v", "v"]
  {
    var entries := map[TrackKey("p", "a") := TrackEntry(FOUND, Some("v"), 0),
                       TrackKey("p", "b") := TrackEntry(FOUND, Some("v"), 0)];
    var tracks := [SourceTrack("a", "A", [], ""), SourceTrack("b", "B", [], "")];
    var pass := Pass("p", "Spot P", false, 0);
    assert TrackKey("p", "a") != TrackKey("p", "b") by {
      assert TrackKey("p", "a")[2] == 'a';
    }
    WalkSnoc(Start(entries, {}), pass, [tracks[0]], [None], tracks[1], None);
    WalkSnoc(Start(entries, {}), pass, [], [], tracks[0], None);
    assert tracks == [tracks[0]] + [tracks[1]];
    assert [tracks[0]] == [] + [tracks[0]];
  }

  // --------------------------------------------------- chunks and batches

  /** `[s[0:n], s[n:2n], ...]`: Python's `range(0, len(s), n)` slicing. */
  function Split<T>(s: seq<T>, n: nat): (r: seq<seq<T>>)
    requires n > 0
    ensures forall i :: 0 <= i < |r| ==> 0 < |r[i]| <= n
    decreases |s|
  {
    if s == [] then []
    else if |s| <= n then [s]
    else [s[..n]] + Split(s[n..], n)
  }

  /** Taking the piece that starts at `i` leaves the split of what follows it. */
  lemma SplitStep<T>(s: seq<T>, i: nat, n: nat)
    requires n > 0 && i < |s|
    ensures var end := if i + n < |s| then i + n else |s|;
            Split(s[i..], n) == [s[i..end]] + Split(s[end..], n)
  {
    var end := if i + n < |s| then i + n else |s|;
    if |s[i..]| > n {
      assert s[i..][..n] == s[i..end];
      assert s[i..][n..] == s[end..];
    } else {
      assert s[i..] == s[i..end];
      assert s[end..] == [];
    }
  }

  /** A loop over the pieces of `s` that has taken `pieces` so far takes `s[i..end]` next. */
  lemma SplitAdvance<T>(s: seq<T>, pieces: seq<seq<T>>, i: nat, n: nat)
    requires n > 0 && i < |s|
    requires Split(s, n) == pieces + Split(s[i..], n)
    ensures var end := if i + n < |s| then i + n else |s|;
            Split(s, n) == (pieces + [s[i..end]]) + Split(s[end..], n)
  {
    SplitStep(s, i, n);
  }

  function Flatten<T>(ss: seq<seq<T>>): seq<T>
  {
    if ss == [] then [] else ss[0] + Flatten(ss[1..])
  }

  /** The pieces cover the sequence exactly once, in order. */
  lemma {:induction false} SplitFlattens<T>(s: seq<T>, n: nat)
    requires n > 0
    ensures Flatten(Split(s, n)) == s
    decreases |s|
  {
    if s != [] && |s| > n {
      SplitFlattens(s[n..], n);
      assert Split(s, n)[1..] == Split(s[n..], n);
      assert s == s[..n] + s[n..];
    } else if s != [] {
      assert Split(s, n)[1..] == [];
      assert s + [] == s;
    }
  }

  /** Sum of the sizes of the batches whose insertion succeeded. */
  function SucceededSize(batches: seq<seq<string>>, ok: seq<bool>): nat
    requires |ok| == |batches|
  {
    if batches == [] then 0
    else
      var n := |batches| - 1;
      SucceededSize(batches[..n], ok[..n]) + (if ok[n] then |batches[n]| else 0)
  }

  /** One more batch adds its size when it succeeded, nothing otherwise. */
  lemma SucceededSizeSnoc(batches: seq<seq<string>>, ok: seq<bool>, b: seq<string>, s: bool)
    requires |ok| == |batches|
    ensures SucceededSize(batches + [b], ok + [s]) == SucceededSize(batches, ok) + (if s then |b| else 0)
  {
    assert (batches + [b])[..|batches|] == batches;
    assert (ok + [s])[..|ok|] == ok;
  }

  /**
   * Splitting ids into batches loses and invents nothing: the batches flatten
   * back to the ids, and what succeeded is at most all of them (all of them
   * when every batch succeeded).
   */
  lemma SplitAccounting(ids: seq<string>, n: nat, ok: seq<bool>)
    requires n > 0 && |ok| == |Split(ids, n)|
    ensures Flatten(Split(ids, n)) == ids
    ensures SucceededSize(Split(ids, n), ok) <= |ids|
    ensures (forall i :: 0 <= i < |ok| ==> ok[i]) ==> SucceededSize(Split(ids, n), ok) == |ids|
  {
    SplitFlattens(ids, n);
    SucceededSizeBound(Split(ids, n), ok);
    FlatLengthIsLength(Split(ids, n));
  }

  function FlatLength(batches: seq<seq<string>>): nat
  {
    if batches == [] then 0 else FlatLength(batches[..|batches| - 1]) + |batches[|batches| - 1]|
  }

  /** What succeeded never exceeds what was sent. */
  lemma {:induction false} SucceededSizeBound(batches: seq<seq<string>>, ok: seq<bool>)
    requires |ok| == |batches|
    ensures SucceededSize(batches, ok) <= FlatLength(batches)
    ensures (forall i :: 0 <= i < |ok| ==> ok[i]) ==> SucceededSize(batches, ok) == FlatLength(batches)
    decreases |batches|
  {
    if batches != [] {
      var n := |batches| - 1;
      SucceededSizeBound(batches[..n], ok[..n]);
    }
  }

  lemma {:induction false} FlatLengthIsLength(batches: seq<seq<string>>)
    ensures FlatLength(batches) == |Flatten(batches)|
    decreases |batches|
  {
    if batches != [] {
      var n := |batches| - 1;
      FlatLengthIsLength(batches[..n]);
      FlattenSnoc(batches[..n], batches[n]);
      assert batches == batches[..n] + [batches[n]];
    }
  }

  lemma {:induction false} FlattenSnoc<T>(ss: seq<seq<T>>, s: seq<T>)
    ensures Flatten(ss + [s]) == Flatten(ss) + s
    decreases |ss|
  {
    if ss == [] {
      assert [s][1..] == [];
      assert s + [] == s;
    } else {
      assert (ss + [s])[1..] == ss[1..] + [s];
      FlattenSnoc(ss[1..], s);
    }
  }

  // ------------------------------------------------------ session filter

  predicate OwnedBy(p: SourcePlaylist, user: UserInfo)
  {
    p.owner == user.displayName || p.owner == user.id
  }

  /** The owner filter of `run_migration`: owned playlists, in input order. */
  function OwnedOnly(all: seq<SourcePlaylist>, user: UserInfo): (r: seq<SourcePlaylist>)
    ensures |r| <= |all|
    ensures forall p :: p in r <==> p in all && OwnedBy(p, user)
  {
    if all == [] then []
    else
      var rest := OwnedOnly(all[1..], user);
      assert forall p :: p in all <==> p == all[0] || p in all[1..];
      if OwnedBy(all[0], user) then [all[0]] + rest else rest
  }

  /** The synthetic liked-songs entry, owned by the user. */
  function LikedSongsEntry(user: UserInfo): (r: SourcePlaylist)
    ensures r.id == LIKED_SONGS_ID && OwnedBy(r, user)
  {
    SourcePlaylist(LIKED_SONGS_ID, "Liked Songs", user.displayName, None, false)
  }

  /** The playlists a session migrates: the owned ones, then liked songs. */
  function SessionPlaylists(all: seq<SourcePlaylist>, user: UserInfo): (r: seq<SourcePlaylist>)
    ensures |r| == |OwnedOnly(all, user)| + 1 && r[|r| - 1] == LikedSongsEntry(user)
    ensures forall i :: 0 <= i < |r| ==> OwnedBy(r[i], user)
    ensures forall p :: p in all && OwnedBy(p, user) ==> p in r
  {
    OwnedOnly(all, user) + [LikedSongsEntry(user)]
  }

  /** `skipped_count` as computed: `len(all) - len(owned) + 1`. */
  function SkippedCount(all: seq<SourcePlaylist>, user: UserInfo): int
  {
    |all| - |SessionPlaylists(all, user)| + 1
  }

  function NotOwnedCount(all: seq<SourcePlaylist>, user: UserInfo): nat
  {
    if all == [] then 0 else (if OwnedBy(all[0], user) then 0 else 1) + NotOwnedCount(all[1..], user)
  }

  /** The skipped count is exactly the number of playlists the user does not own. */
  lemma {:induction false} SkippedIsNotOwned(all: seq<SourcePlaylist>, user: UserInfo)
    ensures SkippedCount(all, user) == NotOwnedCount(all, user)
    ensures |OwnedOnly(all, user)| + NotOwnedCount(all, user) == |all|
    decreases |all|
  {
    if all != [] {
      SkippedIsNotOwned(all[1..], user);
    }
  }

  /** The filter keeps input order: it distributes over concatenation. */
  lemma {:induction false} OwnedOnlyAppend(a: seq<SourcePlaylist>, b: seq<SourcePlaylist>, user: UserInfo)
    ensures OwnedOnly(a + b, user) == OwnedOnly(a, user) + OwnedOnly(b, user)
    decreases |a|
  {
    if a == [] {
      assert a + b == b;
    } else {
      assert (a + b)[1..] == a[1..] + b;
      OwnedOnlyAppend(a[1..], b, user);
    }
  }
}
