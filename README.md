# PixelMusic playlist queue and durable store, in Dafny

This project models the two stateful components of the PixelMusic Android player:

- the **playlist queue engine**, the process-wide `Media` object. It owns `songs`, the queue the UI
  shows, and keeps it mirrored into the player's media-source list. It saves the queue and the
  transport position into the `"playlists"` store (`syncPlaylistsToLocal`), rehydrates both from it
  (`syncWithPlaylists`) and tears everything down (`restore`);
- the **durable key/value store**, `BaseDataStore`. It maps a key to a file
  `<root>/<name>/<coordinated key>`, where every `/` of the key becomes `|`, and supports a
  whole-record overwrite, read-or-null, `contains`, `writeWhileNotExist` and per-key delete.

Files:

- `wrappers.dfy` (module `Wrappers`): `Option` (Kotlin's `T?`, with `GetOr` as `?:`), the exceptions
  the core can raise and `Outcome`, how a call ends.
- `records.dfy` (module `Records`): `Song`, `SerializedSong`, the objects a store file can hold
  (`Value`, and `Class`, the run-time class a cast checks), `PlayableOnly` (the queue's
  skip-if-no-URL rule applied to a list) and `SourcesOf` (the source list a queue needs).
- `data_store.dfy` (module `DataStore`): the key and path functions; the file system as a
  `map<string, Content>` from full path to file content, with `Read` and `WriteEffect` as pure
  specifications; classes `FileSystem` and `BaseDataStore` whose methods change the map step by step.
- `playback.dfy` (module `Playback`): classes `PixelPlayer` (the engine as the queue sees it: a
  source list and transport fields), `MediaSession` and `Media`, plus the specifications of what a
  save writes (`Saved`) and what a rehydration does to the transport (`Rewound`).
- `scenarios.dfy` (module `Scenarios`): client methods that run the app's call sequences on fresh
  objects and conclude the results from the contracts alone.

Modelling choices:

- Exceptions are results. Every operation that can raise returns an `Outcome`: `Completed`, or `Thrown(e)` for
  the exception Kotlin would raise. This covers `songs.add` out of range, a `lateinit` property
  read before `init`, `error(e)` after an IOException in a write, and a cast to the wrong class in
  `getOrNull`. The queue and the transport reached before the throw are stated exactly; the player's source list is stated before `init` (untouched) and when the queue was mirrored after `init`.
- I/O errors are parameters. `BaseDataStore.Write` takes an `IoFault`: none; failure at create
  (the old file is already deleted); failure when opening the stream or while streaming (the new
  file exists but does not read back); or a `delete` that fails unnoticed followed by a failure to open the stream (the old
  file stays as it was).
- The context, the no-backup directory and the song conversions (`serialize()`,
  `toSong(context)`) are parameters. Their round trip, `toSong(serialize(s)) == s`, is the explicit
  assumption `ConversionRoundTrips`; it is never proved.
- `Media.Valid()` is the mirror invariant: every queued song has a URL, and a present player's
  source list is the queue's URLs, index for index. `AddSongToPlaylist` keeps it whenever it
  completes. `ClearPlaylist` and a completed `Restore` establish it from any state.

The model follows the code as written, including in these places:

- Nothing rolls back a queue entry when the engine insert fails. Before `init`,
  `addSongToPlaylist` leaves the song in `songs` and raises before the engine is reached
  (Media.kt:98-100).
- A failed queue write raises out of `syncPlaylistsToLocal`, so the state record is then not
  written at all. The two records are not independent (Media.kt:62-63).
- `write` deletes the old file first, so a write interrupted after the delete leaves no readable
  record, neither the new one nor the previous one. The result of `delete` is ignored, so when the
  delete fails and the stream then cannot be opened, the previous record survives (DataStore.kt:46-50).
- `getOrNull` catches only `IOException` and `ClassNotFoundException`. A file that holds an object
  of another class raises `ClassCastException` from the reified cast instead of reading as null
  (DataStore.kt:41, 78-84). `Read` and `SyncWithPlaylists` model that as `Thrown(ClassCast)`.
- Nothing makes saving and rehydrating mutually exclusive. Both are modelled as sequential calls.

## Model

| member | source | states |
|---|---|---|
| `Records.PlayableOnly` | app/src/main/java/com/kyant/pixelmusic/media/Media.kt:96-97 | the filtered list holds only songs with a URL, each taken from the input, and is no longer than it |
| `Records.PlayableOnlyConcat` | app/src/main/java/com/kyant/pixelmusic/media/Media.kt:75-77 | filtering distributes over concatenation, so appending one stored song at a time keeps the stored order |
| `Records.PlayableOnlySingle` | app/src/main/java/com/kyant/pixelmusic/media/Media.kt:96-98 | one song is kept exactly when it has a URL |
| `Records.PlayableOnlyOfPlayable` | app/src/main/java/com/kyant/pixelmusic/media/Media.kt:96-98 | a queue made only of songs with URLs is left unchanged by the filter |
| `Records.SourcesOfInsert` | app/src/main/java/com/kyant/pixelmusic/media/Media.kt:98-102 | inserting a song at index i of the queue inserts its URL at index i of the source list |
| `DataStore.Coordinated` | app/src/main/java/com/kyant/pixelmusic/util/DataStore.kt:35-36 | same length as the key, contains no separator; separators become '\|', every other character is kept |
| `DataStore.CoordinatedIdempotent` | app/src/main/java/com/kyant/pixelmusic/util/DataStore.kt:35-36 | coordinating twice equals coordinating once |
| `DataStore.SameEntryIff` | app/src/main/java/com/kyant/pixelmusic/util/DataStore.kt:35-38 | two keys get the same file name exactly when they agree up to separator versus '\|' (both directions) |
| `DataStore.StoreDirectory` | app/src/main/java/com/kyant/pixelmusic/util/DataStore.kt:33-34 | the store directory is the root, one separator, then the store name |
| `DataStore.KeyPath` | app/src/main/java/com/kyant/pixelmusic/util/DataStore.kt:37-38 | the path is the store directory, one separator, then the coordinated key |
| `DataStore.KeyPathInjective` | app/src/main/java/com/kyant/pixelmusic/util/DataStore.kt:37-38 | within one store two keys share a file exactly when their coordinated forms are equal |
| `DataStore.EntriesOfDistinctStoresDiffer` | app/src/main/java/com/kyant/pixelmusic/util/DataStore.kt:33-38 | entries of stores with different directories never share a file, whatever the keys |
| `DataStore.Read` | app/src/main/java/com/kyant/pixelmusic/util/DataStore.kt:77-85 | null exactly when the file is missing or unreadable; found exactly when it holds an object of the asked class; otherwise a cast failure |
| `DataStore.ReadAfterWrite` | app/src/main/java/com/kyant/pixelmusic/util/DataStore.kt:44-57 | a completed write reads back as the written object |
| `DataStore.ReadAfterFailedWrite` | app/src/main/java/com/kyant/pixelmusic/util/DataStore.kt:44-57 | after a write interrupted once the old file was deleted, the file reads as null for every class; after an unnoticed failed delete and a failed open, it reads as before |
| `DataStore.WriteLeavesOtherFiles` | app/src/main/java/com/kyant/pixelmusic/util/DataStore.kt:46-49 | a write changes no other file |
| `DataStore.WriteLeavesOtherKeys` | app/src/main/java/com/kyant/pixelmusic/util/DataStore.kt:44-57 | a write for one key leaves every key of the same store with a different coordinated form reading as before |
| `DataStore.LastWriteWins` | app/src/main/java/com/kyant/pixelmusic/util/DataStore.kt:46-49 | the last write to a file decides it, unless it failed before touching the file, which then leaves the earlier result; two identical writes equal one |
| `DataStore.ReadAfterDelete` | app/src/main/java/com/kyant/pixelmusic/util/DataStore.kt:99-104 | a deleted file reads as null for every class; other files read as before |
| `DataStore.BaseDataStore.constructor` | app/src/main/java/com/kyant/pixelmusic/util/DataStore.kt:28-32 | a store is its file system, root directory and name |
| `DataStore.BaseDataStore.RequirePath` | app/src/main/java/com/kyant/pixelmusic/util/DataStore.kt:95 | the path is the store directory plus the coordinated key, and its last segment holds no separator |
| `DataStore.BaseDataStore.Contains` | app/src/main/java/com/kyant/pixelmusic/util/DataStore.kt:97 | true exactly when the key's file exists; a missing key reads as null for every class |
| `DataStore.BaseDataStore.GetOrNull` | app/src/main/java/com/kyant/pixelmusic/util/DataStore.kt:77-85 | null exactly for a missing or unreadable file, found only for an object of the asked class, a cast failure otherwise |
| `DataStore.BaseDataStore.Write` | app/src/main/java/com/kyant/pixelmusic/util/DataStore.kt:44-57 | the files afterwards are the old files after delete, create, write of this key's file, cut short at the fault (with the delete skipped when it fails unnoticed); raises IllegalState on a fault |
| `DataStore.BaseDataStore.WriteWhileNotExist` | app/src/main/java/com/kyant/pixelmusic/util/DataStore.kt:59-63 | an existing entry is left unchanged; an absent one is written as by Write |
| `DataStore.BaseDataStore.Clear` | app/src/main/java/com/kyant/pixelmusic/util/DataStore.kt:99-104 | removes this key's file and nothing else, and afterwards the key is not contained; when the ignored delete fails, the files are unchanged and the key is still contained if it was |
| `Playback.QueueAndStatePathsDiffer` | app/src/main/java/com/kyant/pixelmusic/media/Media.kt:62-65 | the queue record and the state record live in distinct files |
| `Playback.SavedReadsBack` | app/src/main/java/com/kyant/pixelmusic/media/Media.kt:57-68 | after a save the queue record reads back as the saved list, and the state record as the saved state when there was one |
| `Playback.SaveWithoutStateKeepsOtherFiles` | app/src/main/java/com/kyant/pixelmusic/media/Media.kt:63-68 | a save without a known index and position leaves the previous state record, and every other file, reading as before |
| `Playback.SaveIdempotent` | app/src/main/java/com/kyant/pixelmusic/media/Media.kt:57-68 | saving twice with no change in between leaves the same files as saving once |
| `Playback.SavedStateRewinds` | app/src/main/java/com/kyant/pixelmusic/media/Media.kt:78-82 | a saved (index, position, playing) record rehydrates to seek target index, position and cursor position, and play-when-ready playing |
| `Playback.SaveThenRehydrate` | app/src/main/java/com/kyant/pixelmusic/media/Media.kt:62-77 | under the assumed song round trip, a saved queue reads back and rehydrates into an empty queue as exactly the same queue |
| `Playback.Media.constructor` | app/src/main/java/com/kyant/pixelmusic/media/Media.kt:31-39 | no player, no session, an empty queue, nothing playing, not initialized; the mirror holds |
| `Playback.Media.Init` | app/src/main/java/com/kyant/pixelmusic/media/Media.kt:41-55 | sets the late-initialized browser and data-source factory and changes nothing else |
| `Playback.Media.SetPlayer` | app/src/main/java/com/kyant/pixelmusic/media/Media.kt:31 | replaces the player and changes nothing else |
| `Playback.Media.SetSession` | app/src/main/java/com/kyant/pixelmusic/media/Media.kt:33 | replaces the session and changes nothing else |
| `Playback.Media.AddSongToPlaylist` | app/src/main/java/com/kyant/pixelmusic/media/Media.kt:96-104 | no URL: nothing changes; index out of range: raises, nothing changes; otherwise the queue is old[..i] + [song] + old[i..], and the URL is inserted at i in the player's list, when there is a player and init has run; keeps the mirror invariant whenever it completes |
| `Playback.Media.ClearPlaylist` | app/src/main/java/com/kyant/pixelmusic/media/Media.kt:106-109 | the queue and the player's source list are both empty; the mirror invariant holds from any state |
| `Playback.Media.SyncPlaylistsToLocal` | app/src/main/java/com/kyant/pixelmusic/media/Media.kt:57-70 | always writes the mapped queue under playlist_0; writes (index, position, isPlaying) under playlist_0_state only when a player reports them; a failed queue write raises and skips the state record |
| `Playback.Media.AppendStored` | app/src/main/java/com/kyant/pixelmusic/media/Media.kt:75-77 | appends the converted stored songs in order, playable ones only; all of them unless an append raised, and then exactly those up to and including the playable song whose append raised; never raises from a mirrored state after init; before init the player's source list is untouched |
| `Playback.Media.ApplyState` | app/src/main/java/com/kyant/pixelmusic/media/Media.kt:78-82 | seeks to (index ?: 0, position ?: 0), snaps the cursor to position ?: 0, sets play-when-ready to playing ?: false; the source list is untouched |
| `Playback.Media.SyncWithPlaylists` | app/src/main/java/com/kyant/pixelmusic/media/Media.kt:72-84 | appends the saved playable songs in saved order, and after a raised append exactly those up to the song that raised; applies the state record only if present and the queue phase completed; missing or unreadable records change nothing; with no readable queue record it completes exactly when the state record is not of the wrong class; from a mirrored state after init it keeps the mirror and completes exactly when neither record has the wrong class; before init the player's source list is untouched |
| `Playback.Media.Restore` | app/src/main/java/com/kyant/pixelmusic/media/Media.kt:86-94 | stops and drops the player; after init, also deactivates and drops the session, empties the queue and clears nowPlaying; before init raises after dropping the player |
| `Scenarios.InsertAndClear` | app/src/main/java/com/kyant/pixelmusic/media/Media.kt:96-109 | [] then insert(0, A), insert(1, B), insert(1, C) gives [A, C, B] with the sources in the same order; clear empties both |
| `Scenarios.SkipWithoutUrl` | app/src/main/java/com/kyant/pixelmusic/media/Media.kt:96-97 | inserting a song without a URL, at any index, leaves the queue and the sources as they were |
| `Scenarios.SaveTwoSongs` | app/src/main/java/com/kyant/pixelmusic/media/Media.kt:57-68 | saving [A, B] with the player at (1, 4200, playing) writes both records |
| `Scenarios.Restart` | app/src/main/java/com/kyant/pixelmusic/media/Media.kt:72-84 | a fresh engine and player over saved files get the filtered saved queue and the rewound transport |
| `Scenarios.SaveAndRestart` | app/src/main/java/com/kyant/pixelmusic/media/Media.kt:57-84 | save then fresh-process rehydrate gives back [A, B], seek to (1, 4200) and play-when-ready true |
| `Scenarios.RestartWithNothingSaved` | app/src/main/java/com/kyant/pixelmusic/media/Media.kt:72-84 | rehydrating with no saved files completes with an empty queue, no sources and an untouched transport |

## Left out

- `clear(null)`, which calls `deleteOnExit` on the store directory: a deferred effect with no result inside the process.
- `writeBitmap`, `getBitmapOrNull` and `getJsonOrNull`: JPEG and JSON byte formats. Stored objects are abstract `Value`s, and the object-stream encoding is not modelled.
- The `DataStore` and `CacheDataStore` subclasses and `mkdirs`: directories are not modelled. The root directory is a parameter, and `createNewFile` failing for a missing directory is covered by the `CreateFails` fault.
- Coroutine launching on `Dispatchers.IO`: saving and rehydrating are sequential methods.
- The `songs.onEach { addQueueItem }` side effect, `MediaBrowserCompat` and `MediaSessionCompat`. The browser is reduced to whether `init` has set it, and the session to its `isActive` flag.
- ExoPlayer: a media source is its URL string. `PixelPlayer.AddMediaSource` treats an index outside 0..size as an IndexOutOfBounds rejection, because ExoPlayer's own handling is not part of this model. `PixelPlayer.SeekTo` does not model `IllegalSeekPositionException`.
- Integer widths: window index (`Int`) and position (`Long`) are unbounded integers, because no arithmetic is done on them. The cursor is in integer milliseconds, not the `Float` that `snapTo` takes.
- The constants `NOTIFICATION_CHANNEL_ID`, `MEDIA_ROOT_ID` and `EMPTY_MEDIA_ROOT_ID`: the core never reads them.
- The call order in the activity (save on pause; save then `restore` on destroy) is context only. `Scenarios.SaveAndRestart` follows the save-then-restart part of it.
- Playback.PixelPlayer.AddMediaSource and Playback.PixelPlayer.ClearMediaItems keep the current window index and position as they were. ExoPlayer keeps the current item current when a source is inserted before it, so its window index moves up by one, and what clearing the list does to the transport is ExoPlayer's own behaviour. The model assumes the transport is untouched by list edits, so a state record saved after such an edit may name a different index than the app would save.
- DataStore.KeyPathInjective and DataStore.EntriesOfDistinctStoresDiffer are about path strings, not about files on disk. `java.io.File` normalises a doubled or trailing separator, so roots `x` and `x/` name the same directory, and the empty key's path `<root>/<name>/` is the store directory itself. The fixed keys and the normalised no-backup root that the queue engine uses never meet these cases.
