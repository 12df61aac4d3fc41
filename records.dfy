/**
 * The values the player queues and the store keeps: tracks, their serialized form,
 * and the records written under the playlist keys.
 */
module Records {
  import opened Wrappers

  /** A playable item. Its definition is not part of this model beyond these fields. */
  datatype Song = Song(id: int, title: string, artist: string, mediaUrl: Option<string>, artworkRef: Option<string>)

  /** The on-disk projection of a Song; conversions between the two are supplied by the caller. */
  datatype SerializedSong = SerializedSong(id: int, title: string, artist: string, mediaUrl: Option<string>, artworkRef: Option<string>)

  /** Objects that can sit in a store file. */
  datatype Value =
    | SongList(songs: seq<SerializedSong>)                                            // List<SerializedSong>
    | PlaybackState(index: Option<int>, position: Option<int>, playing: Option<bool>) // Triple<Int?, Long?, Boolean?>
    | OtherObject(className: string)                                                  // anything else serializable

  /** The run-time class a reified cast checks (generic arguments are erased). */
  datatype Class = ListClass | TripleClass | NamedClass(name: string)

  function ClassOf(v: Value): (c: Class)
    ensures c == ListClass <==> v.SongList?
    ensures c == TripleClass <==> v.PlaybackState?
  {
    match v
    case SongList(_) => ListClass
    case PlaybackState(_, _, _) => TripleClass
    case OtherObject(n) => NamedClass(n)
  }

  /** Every song of `q` has a media URL. */
  predicate AllPlayable(q: seq<Song>) {
    forall i :: 0 <= i < |q| ==> q[i].mediaUrl.Some?
  }

  /** `q` with the songs that have no media URL dropped, order kept. */
  function PlayableOnly(q: seq<Song>): (r: seq<Song>)
    ensures AllPlayable(r)
    ensures |r| <= |q|
    ensures forall s :: s in r ==> s in q
  {
    if q == [] then []
    else (if q[0].mediaUrl.Some? then [q[0]] else []) + PlayableOnly(q[1..])
  }

  /** Filtering distributes over concatenation, so it keeps the relative order of the kept songs. */
  lemma {:induction false} PlayableOnlyConcat(a: seq<Song>, b: seq<Song>)
    ensures PlayableOnly(a + b) == PlayableOnly(a) + PlayableOnly(b)
  {
    if a == [] {
      assert a + b == b;
    } else {
      assert (a + b)[0] == a[0];
      assert (a + b)[1..] == a[1..] + b;
      PlayableOnlyConcat(a[1..], b);
    }
  }

  /** Filtering leaves an already playable sequence as it is. */
  lemma {:induction false} PlayableOnlyOfPlayable(q: seq<Song>)
    requires AllPlayable(q)
    ensures PlayableOnly(q) == q
  {
    if q != [] {
      assert AllPlayable(q[1..]) by {
        forall i | 0 <= i < |q[1..]| ensures q[1..][i].mediaUrl.Some? {
          assert q[1..][i] == q[i + 1];
        }
      }
      PlayableOnlyOfPlayable(q[1..]);
      assert [q[0]] + q[1..] == q;
    }
  }

  /** A song is kept exactly when it has a URL: filtering a one-song list. */
  lemma PlayableOnlySingle(s: Song)
    ensures PlayableOnly([s]) == if s.mediaUrl.Some? then [s] else []
  {
    assert [s][1..] == [];
  }

  /** The media-source list the engine holds for a queue of playable songs: one URL per song. */
  function SourcesOf(q: seq<Song>): (r: seq<string>)
    requires AllPlayable(q)
    ensures |r| == |q|
    ensures forall i :: 0 <= i < |q| ==> Some(r[i]) == q[i].mediaUrl
  {
    seq(|q|, i requires 0 <= i < |q| => q[i].mediaUrl.value)
  }

  /** Inserting a song at `i` inserts its URL at `i` in the source list. */
  lemma SourcesOfInsert(q: seq<Song>, i: nat, s: Song)
    requires AllPlayable(q) && i <= |q| && s.mediaUrl.Some?
    ensures AllPlayable(q[..i] + [s] + q[i..])
    ensures SourcesOf(q[..i] + [s] + q[i..]) == SourcesOf(q)[..i] + [s.mediaUrl.value] + SourcesOf(q)[i..]
  {
    var r := q[..i] + [s] + q[i..];
    forall k | 0 <= k < |r| ensures r[k].mediaUrl.Some? {
      if k < i { assert r[k] == q[k]; } else if k > i { assert r[k] == q[k - 1]; }
    }
    var lhs, rhs := SourcesOf(r), SourcesOf(q)[..i] + [s.mediaUrl.value] + SourcesOf(q)[i..];
    assert |lhs| == |rhs|;
    forall k | 0 <= k < |lhs| ensures lhs[k] == rhs[k] {
      if k < i { assert r[k] == q[k]; } else if k > i { assert r[k] == q[k - 1]; }
    }
  }

  /** `songs.map { f(it) }`. */
  function MapSeq<A, B>(f: A -> B, s: seq<A>): (r: seq<B>)
    ensures |r| == |s|
    ensures forall i :: 0 <= i < |s| ==> r[i] == f(s[i])
  {
    seq(|s|, i requires 0 <= i < |s| => f(s[i]))
  }
}
