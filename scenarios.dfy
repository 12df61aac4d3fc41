/**
 * Client code: what a caller of the queue engine can conclude from its contracts alone,
 * for the call sequences the app itself performs.
 */
module Scenarios {
  import opened Wrappers
  import opened Records
  import opened DataStore
  import opened Playback

  /** Insert into an empty queue, insert in the middle, then clear; the player's list follows each step. */
  method InsertAndClear(a: Song, b: Song, c: Song) returns (afterInserts: seq<Song>, sourcesAfterInserts: seq<string>,
                                                            afterClear: seq<Song>, sourcesAfterClear: seq<string>)
    requires a.mediaUrl.Some? && b.mediaUrl.Some? && c.mediaUrl.Some?
    ensures afterInserts == [a, c, b]
    ensures sourcesAfterInserts == [a.mediaUrl.value, c.mediaUrl.value, b.mediaUrl.value]
    ensures afterClear == [] && sourcesAfterClear == []
  {
    var media := new Media();
    media.Init();
    var player := new PixelPlayer();
    media.SetPlayer(player);
    var outcome := media.AddSongToPlaylist(0, a);
    assert media.songs == [a] && player.sources == [a.mediaUrl.value];
    outcome := media.AddSongToPlaylist(1, b);
    assert media.songs == [a, b];
    outcome := media.AddSongToPlaylist(1, c);
    afterInserts, sourcesAfterInserts := media.songs, player.sources;
    media.ClearPlaylist();
    afterClear, sourcesAfterClear := media.songs, player.sources;
  }

  /** A song without a URL is never queued, wherever it is inserted. */
  method SkipWithoutUrl(a: Song, s: Song, index: int) returns (queue: seq<Song>, sources: seq<string>)
    requires a.mediaUrl.Some? && s.mediaUrl.None?
    ensures queue == [a] && sources == [a.mediaUrl.value]
  {
    var media := new Media();
    media.Init();
    var player := new PixelPlayer();
    media.SetPlayer(player);
    var outcome := media.AddSongToPlaylist(0, a);
    outcome := media.AddSongToPlaylist(index, s);
    queue, sources := media.songs, player.sources;
  }

  /** The saving half: a two-song queue, the player at window 1, 4200 ms, playing. */
  method SaveTwoSongs(fs: FileSystem, dir: string, a: Song, b: Song, serialize: Song -> SerializedSong)
    requires a.mediaUrl.Some? && b.mediaUrl.Some?
    modifies fs
    ensures fs.files == Saved(old(fs.files), QueuePath(dir), StatePath(dir), MapSeq(serialize, [a, b]),
                              Some(Snapshot(1, 4200, true)))
  {
    var media := new Media();
    media.Init();
    var player := new PixelPlayer();
    media.SetPlayer(player);
    var outcome := media.AddSongToPlaylist(0, a);
    outcome := media.AddSongToPlaylist(1, b);
    assert media.songs == [a, b] && media.player == player;
    player.currentWindowIndex, player.currentPosition, player.isPlayingState := 1, 4200, true;
    outcome := media.SyncPlaylistsToLocal(fs, dir, serialize, NoFault, NoFault);
  }

  /** The rehydrating half, in a fresh process: a new queue engine and a new player over the same files. */
  method Restart(fs: FileSystem, dir: string, toSong: SerializedSong -> Song)
    returns (outcome: Outcome, queue: seq<Song>, transport: Transport)
    ensures Read(fs.files, QueuePath(dir), ListClass).Found? && Read(fs.files, StatePath(dir), TripleClass) != CastFailure ==>
              outcome == Completed
              && queue == PlayableOnly(MapSeq(toSong, Read(fs.files, QueuePath(dir), ListClass).value.songs))
              && transport == Rewound(Transport(0, 0, 0, false), Read(fs.files, StatePath(dir), TripleClass))
  {
    var media := new Media();
    media.Init();
    var player := new PixelPlayer();
    media.SetPlayer(player);
    outcome := media.SyncWithPlaylists(fs, dir, toSong);
    queue, transport := media.songs, player.TransportState();
  }

  /**
   * Save a two-song queue with a player at window 1, 4200 ms, playing; then, in a fresh
   * process with the same files, rehydrate: the queue and the transport come back.
   */
  method SaveAndRestart(fs: FileSystem, dir: string, a: Song, b: Song,
                        serialize: Song -> SerializedSong, toSong: SerializedSong -> Song)
    returns (queue: seq<Song>, transport: Transport)
    requires a.mediaUrl.Some? && b.mediaUrl.Some?
    requires ConversionRoundTrips(serialize, toSong)
    modifies fs
    ensures queue == [a, b]
    ensures transport == Transport(1, 4200, 4200, true)
  {
    ghost var files := fs.files;
    SaveTwoSongs(fs, dir, a, b, serialize);
    ghost var saved := MapSeq(serialize, [a, b]);
    QueueAndStatePathsDiffer(dir);
    SavedStateRewinds(files, QueuePath(dir), StatePath(dir), saved, 1, 4200, true, Transport(0, 0, 0, false));
    SaveThenRehydrate(files, dir, [a, b], Some(Snapshot(1, 4200, true)), serialize, toSong);
    var outcome;
    outcome, queue, transport := Restart(fs, dir, toSong);
  }

  /** Rehydrating when nothing was ever saved leaves an empty queue and an untouched player. */
  method RestartWithNothingSaved(dir: string, toSong: SerializedSong -> Song)
    returns (outcome: Outcome, queue: seq<Song>, sources: seq<string>, transport: Transport)
    ensures outcome == Completed && queue == [] && sources == [] && transport == Transport(0, 0, 0, false)
  {
    var fs := new FileSystem(map[]);
    var media := new Media();
    media.Init();
    var player := new PixelPlayer();
    media.SetPlayer(player);
    outcome := media.SyncWithPlaylists(fs, dir, toSong);
    queue, sources, transport := media.songs, player.sources, player.TransportState();
  }
}
