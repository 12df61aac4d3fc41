/**
 * The playlist queue engine: the queue of songs, the player's media-source list it
 * mirrors, and the saving and rehydrating of both through the "playlists" store.
 */
module Playback {
  import opened Wrappers
  import opened Records
  import opened DataStore

  /** Name of the store the queue is saved in, and its two keys. */
  const StoreName: string := "playlists"
  const QueueKey: string := "playlist_0"
  const StateKey: string := "playlist_0_state"

  /** The transport state that rehydration may set on a player. */
  datatype Transport = Transport(windowIndex: int, position: int, cursor: int, playWhenReady: bool)

  /**
   * The playback engine as the queue sees it: an ordered list of media sources
   * (one URL each) and the transport controls.
   */
  class PixelPlayer {
    var sources: seq<string>
    var currentWindowIndex: int
    var currentPosition: int      // milliseconds
    var cursor: int               // the UI position animation, in milliseconds
    var isPlayingState: bool
    var playWhenReady: bool
    var stopped: bool

    constructor ()
      ensures sources == [] && TransportState() == Transport(0, 0, 0, false)
      ensures !isPlayingState && !stopped
    {
      sources := [];
      currentWindowIndex, currentPosition, cursor := 0, 0, 0;
      isPlayingState, playWhenReady, stopped := false, false, false;
    }

    function TransportState(): Transport
      reads this
    {
      Transport(currentWindowIndex, currentPosition, cursor, playWhenReady)
    }

    /** `addMediaSource(index, source)`: an index outside 0..size is rejected. */
    method AddMediaSource(index: int, url: string) returns (outcome: Outcome)
      modifies this`sources
      ensures 0 <= index <= |old(sources)| ==>
                outcome == Completed && sources == old(sources)[..index] + [url] + old(sources)[index..]
      ensures !(0 <= index <= |old(sources)|) ==> outcome == Thrown(IndexOutOfBounds) && sources == old(sources)
    {
      if 0 <= index <= |sources| {
        sources := sources[..index] + [url] + sources[index..];
        outcome := Completed;
      } else {
        outcome := Thrown(IndexOutOfBounds);
      }
    }

    /** `clearMediaItems()`. */
    method ClearMediaItems()
      modifies this`sources
      ensures sources == []
    {
      sources := [];
    }

    /** `seekTo(windowIndex, positionMs)`. */
    method SeekTo(windowIndex: int, position: int)
      modifies this`currentWindowIndex, this`currentPosition
      ensures currentWindowIndex == windowIndex && currentPosition == position
    {
      currentWindowIndex, currentPosition := windowIndex, position;
    }

    /** `position.snapTo(x)`. */
    method SnapCursor(position: int)
      modifies this`cursor
      ensures cursor == position
    {
      cursor := position;
    }

    /** The `playWhenReady` setter. */
    method SetPlayWhenReady(b: bool)
      modifies this`playWhenReady
      ensures playWhenReady == b
    {
      playWhenReady := b;
    }

    /** `stop()`. */
    method Stop()
      modifies this`stopped, this`isPlayingState
      ensures stopped && !isPlayingState
    {
      stopped, isPlayingState := true, false;
    }
  }

  /** The media session, reduced to its `isActive` flag. */
  class MediaSession {
    var isActive: bool

    constructor ()
      ensures isActive
    {
      isActive := true;
    }
  }

  // ---------------------------------------------------------------------------
  // What saving writes and what rehydration reads
  // ---------------------------------------------------------------------------

  /** The file of the queue record, and of the state record, in the store rooted at `dir`. */
  function QueuePath(dir: string): string {
    KeyPath(dir, StoreName, QueueKey)
  }

  function StatePath(dir: string): string {
    KeyPath(dir, StoreName, StateKey)
  }

  /** The two records live in distinct files. */
  lemma QueueAndStatePathsDiffer(dir: string)
    ensures QueuePath(dir) != StatePath(dir)
  {
    assert |QueueKey| != |StateKey|;
  }

  /** The state record a save takes from a player. */
  function Snapshot(index: int, position: int, playing: bool): Value {
    PlaybackState(Some(index), Some(position), Some(playing))
  }

  /**
   * The files after a save that met no I/O error: the queue record in file `qp` overwritten,
   * and the state record in file `sp` overwritten when a state was known.
   */
  function Saved(files: map<string, Content>, qp: string, sp: string,
                 queue: seq<SerializedSong>, state: Option<Value>): map<string, Content> {
    var afterQueue := WriteEffect(files, qp, SongList(queue), NoFault);
    if state.Some? then WriteEffect(afterQueue, sp, state.value, NoFault) else afterQueue
  }

  /** A save reads back as the saved queue, and as the saved state when there was one. */
  lemma SavedReadsBack(files: map<string, Content>, qp: string, sp: string,
                       queue: seq<SerializedSong>, state: Option<Value>)
    requires qp != sp
    ensures Read(Saved(files, qp, sp, queue, state), qp, ListClass) == Found(SongList(queue))
    ensures state.Some? ==> Read(Saved(files, qp, sp, queue, state), sp, ClassOf(state.value)) == Found(state.value)
  {
  }

  /** Without a known state a save leaves the previous state record untouched, and every other file too. */
  lemma SaveWithoutStateKeepsOtherFiles(files: map<string, Content>, qp: string, sp: string,
                                        queue: seq<SerializedSong>, p: string, c: Class)
    requires p != qp
    ensures Read(Saved(files, qp, sp, queue, None), p, c) == Read(files, p, c)
  {
  }

  /** Saving twice with nothing changed in between leaves the same store as saving once. */
  lemma SaveIdempotent(files: map<string, Content>, qp: string, sp: string,
                       queue: seq<SerializedSong>, state: Option<Value>)
    requires qp != sp
    ensures Saved(Saved(files, qp, sp, queue, state), qp, sp, queue, state) == Saved(files, qp, sp, queue, state)
  {
  }

  /** The transport a rehydration leaves, given the old transport and how the state record read. */
  function Rewound(t: Transport, state: ReadOutcome): Transport {
    match state
    case Found(PlaybackState(index, position, playing)) =>
      Transport(index.GetOr(0), position.GetOr(0), position.GetOr(0), playing.GetOr(false))
    case _ => t
  }

  /** A saved position is restored exactly: seek target, cursor and play-when-ready. */
  lemma SavedStateRewinds(files: map<string, Content>, qp: string, sp: string, queue: seq<SerializedSong>,
                          index: int, position: int, playing: bool, t: Transport)
    requires qp != sp
    ensures Rewound(t, Read(Saved(files, qp, sp, queue, Some(Snapshot(index, position, playing))), sp, TripleClass))
            == Transport(index, position, position, playing)
  {
    SavedReadsBack(files, qp, sp, queue, Some(Snapshot(index, position, playing)));
  }

  /** The assumption the queue round trip rests on: converting back recovers the song. */
  ghost predicate ConversionRoundTrips(serialize: Song -> SerializedSong, toSong: SerializedSong -> Song) {
    forall s :: toSong(serialize(s)) == s
  }

  /**
   * Saving a queue and rehydrating it into an empty queue gives back exactly the queue,
   * provided the song conversions round-trip.
   */
  lemma SaveThenRehydrate(files: map<string, Content>, dir: string, queue: seq<Song>, state: Option<Value>,
                             serialize: Song -> SerializedSong, toSong: SerializedSong -> Song)
    requires AllPlayable(queue) && ConversionRoundTrips(serialize, toSong)
    ensures Read(Saved(files, QueuePath(dir), StatePath(dir), MapSeq(serialize, queue), state), QueuePath(dir), ListClass)
            == Found(SongList(MapSeq(serialize, queue)))
    ensures PlayableOnly(MapSeq(toSong, MapSeq(serialize, queue))) == queue
  {
    assert Read(Saved(files, QueuePath(dir), StatePath(dir), MapSeq(serialize, queue), state), QueuePath(dir), ListClass)
           == Found(SongList(MapSeq(serialize, queue))) by {
      QueueAndStatePathsDiffer(dir);
      SavedReadsBack(files, QueuePath(dir), StatePath(dir), MapSeq(serialize, queue), state);
    }
    assert PlayableOnly(MapSeq(toSong, MapSeq(serialize, queue))) == queue by {
      assert MapSeq(toSong, MapSeq(serialize, queue)) == queue;
      PlayableOnlyOfPlayable(queue);
    }
  }

  // ---------------------------------------------------------------------------
  // The queue engine
  // ---------------------------------------------------------------------------

  /** The process-wide `Media` object. */
  class Media {
    var player: PixelPlayer?
    var session: MediaSession?
    var songs: seq<Song>
    var nowPlaying: Option<int>
    var initialized: bool   // whether `init` has set the late-initialized browser and data-source factory

    /** The state at process start. */
    constructor ()
      ensures player == null && session == null && songs == [] && nowPlaying == None && !initialized
      ensures Valid()
    {
      player, session, songs, nowPlaying, initialized := null, null, [], None, false;
    }

    /**
     * The queue holds playable songs only, and a present player's source list
     * is the queue's URLs, index for index.
     */
    ghost predicate Valid()
      reads this, player
    {
      AllPlayable(songs) && (player != null ==> player.sources == SourcesOf(songs))
    }

    /** `init`: sets the browser and the data-source factory. */
    method Init()
      modifies this`initialized
      ensures initialized
    {
      initialized := true;
    }

    /** The `player` property's setter. */
    method SetPlayer(p: PixelPlayer?)
      modifies this`player
      ensures player == p
    {
      player := p;
    }

    /** The `session` property's setter. */
    method SetSession(s: MediaSession?)
      modifies this`session
      ensures session == s
    {
      session := s;
    }

    /**
     * `addSongToPlaylist(index, song)`: a song without a URL is skipped; otherwise it is
     * inserted at `index`, and a source for its URL at the same index of the player.
     */
    method AddSongToPlaylist(index: int, song: Song) returns (outcome: Outcome)
      modifies this`songs, player
      ensures player != null ==> player.TransportState() == old(player.TransportState())
                                 && player.isPlayingState == old(player.isPlayingState) && player.stopped == old(player.stopped)
      // No URL: nothing happens.
      ensures song.mediaUrl.None? ==>
                outcome == Completed && songs == old(songs) && (player != null ==> player.sources == old(player.sources))
      // An index outside 0..size: `songs.add` raises before anything changes.
      ensures song.mediaUrl.Some? && !(0 <= index <= |old(songs)|) ==>
                outcome == Thrown(IndexOutOfBounds) && songs == old(songs)
                && (player != null ==> player.sources == old(player.sources))
      // Otherwise the song is in the queue at `index`, later songs shifted right by one.
      ensures song.mediaUrl.Some? && 0 <= index <= |old(songs)| ==>
                songs == old(songs)[..index] + [song] + old(songs)[index..]
      // Before `init` the data-source factory is unset: the engine is not reached.
      ensures song.mediaUrl.Some? && 0 <= index <= |old(songs)| && !initialized ==>
                outcome == Thrown(UninitializedProperty) && (player != null ==> player.sources == old(player.sources))
      ensures song.mediaUrl.Some? && 0 <= index <= |old(songs)| && initialized && player == null ==>
                outcome == Completed
      ensures song.mediaUrl.Some? && 0 <= index <= |old(songs)| && initialized && player != null ==>
                if index <= |old(player.sources)| then
                  outcome == Completed
                  && player.sources == old(player.sources)[..index] + [song.mediaUrl.value] + old(player.sources)[index..]
                else
                  outcome == Thrown(IndexOutOfBounds) && player.sources == old(player.sources)
      // The mirror is kept whenever the call completes.
      ensures old(Valid()) && outcome == Completed ==> Valid()
      ensures old(Valid()) && initialized && (song.mediaUrl.None? || 0 <= index <= |old(songs)|) ==> outcome == Completed
    {
      outcome := Completed;
      if song.mediaUrl.Some? {
        var url := song.mediaUrl.value;
        if !(0 <= index <= |songs|) {
          return Thrown(IndexOutOfBounds);
        }
        ghost var before := songs;
        songs := songs[..index] + [song] + songs[index..];
        if !initialized {
          return Thrown(UninitializedProperty);
        }
        if player != null {
          outcome := player.AddMediaSource(index, url);
          if old(Valid()) {
            SourcesOfInsert(before, index, song);
          }
        } else if old(Valid()) {
          SourcesOfInsert(before, index, song);
        }
      }
    }

    /** `clearPlaylist()`: both the queue and the player's source list end empty. */
    method ClearPlaylist()
      modifies this`songs, player
      ensures songs == [] && (player != null ==> player.sources == [])
      ensures player != null ==> player.TransportState() == old(player.TransportState())
                                 && player.isPlayingState == old(player.isPlayingState) && player.stopped == old(player.stopped)
      ensures Valid()
    {
      songs := [];
      if player != null {
        player.ClearMediaItems();
      }
    }

    /**
     * `syncPlaylistsToLocal`: write the serialized queue under "playlist_0", then, when a player
     * reports an index and a position, the state record under "playlist_0_state".
     * `dir` is the app's no-backup directory; the faults are what the file system does.
     */
    method SyncPlaylistsToLocal(fs: FileSystem, dir: string, serialize: Song -> SerializedSong,
                                queueFault: IoFault, stateFault: IoFault) returns (outcome: Outcome)
      modifies fs
      // An I/O error on the queue record raises before the state record is attempted.
      ensures queueFault != NoFault ==>
                fs.files == WriteEffect(old(fs.files), QueuePath(dir), SongList(MapSeq(serialize, songs)), queueFault)
                && outcome == Thrown(IllegalState)
      // Without a player there is no index or position: only the queue record is written.
      ensures queueFault == NoFault && player == null ==>
                fs.files == WriteEffect(old(fs.files), QueuePath(dir), SongList(MapSeq(serialize, songs)), NoFault)
                && outcome == Completed
      ensures queueFault == NoFault && player != null ==>
                fs.files == WriteEffect(WriteEffect(old(fs.files), QueuePath(dir), SongList(MapSeq(serialize, songs)), NoFault),
                                        StatePath(dir),
                                        Snapshot(player.currentWindowIndex, player.currentPosition, player.isPlayingState),
                                        stateFault)
                && outcome == if stateFault == NoFault then Completed else Thrown(IllegalState)
      ensures queueFault == NoFault && stateFault == NoFault ==>
                outcome == Completed &&
                fs.files == Saved(old(fs.files), QueuePath(dir), StatePath(dir), MapSeq(serialize, songs),
                                  if player == null then None
                                  else Some(Snapshot(player.currentWindowIndex, player.currentPosition, player.isPlayingState)))
    {
      var store := new BaseDataStore(fs, dir, StoreName);
      assert store.RequirePath(QueueKey) == QueuePath(dir) && store.RequirePath(StateKey) == StatePath(dir);
      var known := player != null;
      var songIndex := if known then player.currentWindowIndex else 0;
      var position := if known then player.currentPosition else 0;
      outcome := store.Write(QueueKey, SongList(MapSeq(serialize, songs)), queueFault);
      if outcome.Thrown? {
        return;
      }
      ghost var afterQueue := fs.files;
      if known {
        var playing := player.isPlayingState;
        outcome := store.Write(StateKey, Snapshot(songIndex, position, playing), stateFault);
        assert fs.files == WriteEffect(afterQueue, StatePath(dir), Snapshot(songIndex, position, playing), stateFault);
      }
    }

    /**
     * The `forEach` of `syncWithPlaylists`: convert each stored song and append it at
     * `songs.size`, in stored order; the first append that raises ends the loop.
     */
    method AppendStored(stored: seq<SerializedSong>, toSong: SerializedSong -> Song) returns (outcome: Outcome)
      modifies this`songs, player
      ensures old(songs) <= songs <= old(songs) + PlayableOnly(MapSeq(toSong, stored))
      ensures outcome == Completed ==> songs == old(songs) + PlayableOnly(MapSeq(toSong, stored))
      ensures outcome.Thrown? ==> outcome.exception in {IndexOutOfBounds, UninitializedProperty}
      // The loop stops at the song whose append raised; that song is already in the queue.
      ensures outcome.Thrown? ==>
                exists k :: 0 <= k < |stored| && MapSeq(toSong, stored)[k].mediaUrl.Some?
                            && songs == old(songs) + PlayableOnly(MapSeq(toSong, stored)[..k + 1])
      ensures old(Valid()) && initialized ==> Valid() && outcome == Completed
      // Before `init` every append raises before the engine is reached.
      ensures player != null && !initialized ==> player.sources == old(player.sources)
      ensures player != null ==> player.TransportState() == old(player.TransportState())
                                 && player.isPlayingState == old(player.isPlayingState) && player.stopped == old(player.stopped)
    {
      ghost var converted := MapSeq(toSong, stored);
      outcome := Completed;
      var i := 0;
      while i < |stored|
        invariant 0 <= i <= |stored|
        invariant outcome == Completed
        invariant songs == old(songs) + PlayableOnly(converted[..i])
        invariant old(Valid()) && initialized ==> Valid()
        invariant player != null && !initialized ==> player.sources == old(player.sources)
        invariant player != null ==> player.TransportState() == old(player.TransportState())
                                     && player.isPlayingState == old(player.isPlayingState)
                                     && player.stopped == old(player.stopped)
      {
        PlayableOnlyConcat(converted[..i], [converted[i]]);
        PlayableOnlySingle(converted[i]);
        assert converted[..i] + [converted[i]] == converted[..i + 1];
        PlayableOnlyConcat(converted[..i + 1], converted[i + 1..]);
        assert converted[..i + 1] + converted[i + 1..] == converted;
        outcome := AddSongToPlaylist(|songs|, toSong(stored[i]));
        if outcome.Thrown? {
          assert converted[i].mediaUrl.Some?;
          assert songs == old(songs) + PlayableOnly(converted[..i + 1]);
          return;
        }
        i := i + 1;
      }
      assert converted[..i] == converted;
    }

    /** The `let` block of `syncWithPlaylists`: seek, snap the cursor and set play-when-ready from a record. */
    method ApplyState(st: Value)
      requires st.PlaybackState?
      modifies player
      ensures player != null ==> player.TransportState() == Rewound(old(player.TransportState()), Found(st))
                                 && player.sources == old(player.sources)
                                 && player.isPlayingState == old(player.isPlayingState) && player.stopped == old(player.stopped)
    {
      if player != null {
        player.SeekTo(st.index.GetOr(0), st.position.GetOr(0));
        player.SnapCursor(st.position.GetOr(0));
        player.SetPlayWhenReady(st.playing.GetOr(false));
      }
    }

    /**
     * `syncWithPlaylists`: append every saved song at the end of the queue, in saved order,
     * then apply the saved state record to the player. `toSong` is `toSong(context)`.
     */
    method SyncWithPlaylists(fs: FileSystem, dir: string, toSong: SerializedSong -> Song) returns (outcome: Outcome)
      modifies this`songs, player
      // A queue record of another class: the cast raises before anything changes.
      ensures Read(fs.files, QueuePath(dir), ListClass) == CastFailure ==>
                outcome == Thrown(ClassCast) && songs == old(songs)
      // No readable queue record: the queue is left as it is, and only a wrong state record raises.
      ensures Read(fs.files, QueuePath(dir), ListClass) == Null ==>
                songs == old(songs)
                && (outcome == Completed <==> Read(fs.files, StatePath(dir), TripleClass) != CastFailure)
      // A queue record: songs are appended in order, playable ones only; all of them unless an append
      // raised, and then exactly those up to and including the song whose append raised.
      ensures Read(fs.files, QueuePath(dir), ListClass).Found? ==>
                var stored := Read(fs.files, QueuePath(dir), ListClass).value.songs;
                var restored := PlayableOnly(MapSeq(toSong, stored));
                old(songs) <= songs <= old(songs) + restored
                && (outcome == Completed || outcome == Thrown(ClassCast) ==> songs == old(songs) + restored)
                && (outcome.Thrown? && outcome != Thrown(ClassCast) ==>
                      exists k :: 0 <= k < |stored| && MapSeq(toSong, stored)[k].mediaUrl.Some?
                                  && songs == old(songs) + PlayableOnly(MapSeq(toSong, stored)[..k + 1]))
      // From a mirrored state after `init`, no append raises and the mirror is kept.
      ensures old(Valid()) && initialized ==>
                Valid()
                && (outcome == Completed <==> Read(fs.files, QueuePath(dir), ListClass) != CastFailure
                                              && Read(fs.files, StatePath(dir), TripleClass) != CastFailure)
                && (outcome.Thrown? ==> outcome == Thrown(ClassCast))
      // The state record is applied only after the whole queue was appended.
      ensures outcome == Completed ==>
                Read(fs.files, QueuePath(dir), ListClass) != CastFailure
                && Read(fs.files, StatePath(dir), TripleClass) != CastFailure
      // Before `init` the player's source list is never reached.
      ensures player != null && !initialized ==> player.sources == old(player.sources)
      ensures player != null ==>
                player.isPlayingState == old(player.isPlayingState) && player.stopped == old(player.stopped)
                && (outcome == Completed ==>
                      player.TransportState() == Rewound(old(player.TransportState()), Read(fs.files, StatePath(dir), TripleClass)))
                && (outcome != Completed ==> player.TransportState() == old(player.TransportState()))
    {
      var store := new BaseDataStore(fs, dir, StoreName);
      assert store.RequirePath(QueueKey) == QueuePath(dir) && store.RequirePath(StateKey) == StatePath(dir);
      var saved := store.GetOrNull(QueueKey, ListClass);
      if saved == CastFailure {
        return Thrown(ClassCast);
      }
      if saved.Found? {
        outcome := AppendStored(saved.value.songs, toSong);
        if outcome.Thrown? {
          return;
        }
      }
      var state := store.GetOrNull(StateKey, TripleClass);
      if state == CastFailure {
        return Thrown(ClassCast);
      }
      outcome := Completed;
      if state.Found? {
        ApplyState(state.value);
      }
    }

    /**
     * `restore()`: stop and drop the player, disconnect the browser, deactivate and drop
     * the session, empty the queue and forget what is playing.
     */
    method Restore() returns (outcome: Outcome)
      modifies this, player, session
      ensures player == null && initialized == old(initialized)
      ensures old(player) != null ==> old(player).stopped && old(player).sources == old(player.sources)
      // Before `init` the browser is unset: the call raises right after dropping the player.
      ensures !initialized ==>
                outcome == Thrown(UninitializedProperty) && songs == old(songs) && session == old(session)
                && nowPlaying == old(nowPlaying) && (session != null ==> session.isActive == old(session.isActive))
      ensures initialized ==>
                outcome == Completed && songs == [] && session == null && nowPlaying == None
                && (old(session) != null ==> !old(session).isActive)
                && Valid()
    {
      if player != null {
        player.Stop();
      }
      player := null;
      if !initialized {
        return Thrown(UninitializedProperty);
      }
      if session != null {
        session.isActive := false;
      }
      session := null;
      songs := [];
      nowPlaying := None;
      outcome := Completed;
    }
  }
}
