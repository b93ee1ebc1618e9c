/** A named, ordered playlist with an optional cursor and the playing/shuffle flags. */
module Playlists {
  import opened Wrappers
  import opened Songs

  /**
   * `current` is the cursor (`current_index`); `None` means no song has been
   * selected yet. Songs are value copies of library entries.
   */
  datatype Playlist = Playlist(
    name: string,
    songs: seq<Song>,
    current: Option<nat>,
    isPlaying: bool,
    isShuffle: bool
  )

  /** The cursor is absent or designates an existing song. */
  predicate CursorInRange(p: Playlist) {
    p.current.Some? ==> p.current.value < |p.songs|
  }

  /** Name and flags agree; only the songs and the cursor may differ. */
  predicate SameSettings(p: Playlist, q: Playlist) {
    q.name == p.name && q.isPlaying == p.isPlaying && q.isShuffle == p.isShuffle
  }

  /** Sum of the durations of `songs`, in seconds. */
  function SumDurations(songs: seq<Song>): nat
    decreases |songs|
  {
    if songs == [] then 0 else songs[0].duration + SumDurations(songs[1..])
  }

  /** `Playlist::new`: an empty playlist, no cursor, neither playing nor shuffled. */
  function New(name: string): (p: Playlist)
    ensures p.name == name && p.songs == [] && p.current == None
    ensures !p.isPlaying && !p.isShuffle
    ensures CursorInRange(p) && TotalDuration(p) == 0
  {
    Playlist(name, [], None, false, false)
  }

  /** `Playlist::add_song`: appends a copy at the end; the cursor stays where it was. */
  function AddSong(p: Playlist, s: Song): (q: Playlist)
    ensures |q.songs| == |p.songs| + 1 && q.songs[..|p.songs|] == p.songs
    ensures q.songs[|p.songs|] == s
    ensures q.current == p.current && SameSettings(p, q)
    ensures CursorInRange(p) ==> CursorInRange(q)
    ensures TotalDuration(q) == TotalDuration(p) + s.duration
  {
    SumAppend(p.songs, [s]);
    p.(songs := p.songs + [s])
  }

  /**
   * `Playlist::remove_song`: removes and returns the song at `i`, shifting the
   * rest left; an index past the end returns None and changes nothing. The
   * cursor is never adjusted.
   */
  function RemoveSong(p: Playlist, i: nat): (res: (Playlist, Option<Song>))
    ensures i < |p.songs| ==> res.1 == Some(p.songs[i])
    ensures i < |p.songs| ==> res.0.songs == p.songs[..i] + p.songs[i + 1..]
    ensures i >= |p.songs| ==> res == (p, None)
    ensures res.0.current == p.current && SameSettings(p, res.0)
  {
    if i < |p.songs| then
      (p.(songs := p.songs[..i] + p.songs[i + 1..]), Some(p.songs[i]))
    else
      (p, None)
  }

  /** Putting the removed song back at its index restores the playlist's songs. */
  lemma RemoveThenReinsert(p: Playlist, i: nat)
    requires i < |p.songs|
    ensures var (q, r) := RemoveSong(p, i);
      && r.Some?
      && q.songs[..i] + [r.value] + q.songs[i..] == p.songs
      && multiset(q.songs) + multiset{r.value} == multiset(p.songs)
      && TotalDuration(q) + r.value.duration == TotalDuration(p)
  {
    var (q, r) := RemoveSong(p, i);
    assert q.songs[..i] == p.songs[..i];
    assert q.songs[i..] == p.songs[i + 1..];
    assert p.songs[..i] + [p.songs[i]] + p.songs[i + 1..] == p.songs;
    assert p.songs == p.songs[..i] + ([p.songs[i]] + p.songs[i + 1..]);
    SumAppend(p.songs[..i], [p.songs[i]] + p.songs[i + 1..]);
    SumAppend(p.songs[..i], p.songs[i + 1..]);
    SumAppend([p.songs[i]], p.songs[i + 1..]);
  }

  /**
   * Removing the song under the cursor of a two-song playlist leaves the cursor
   * past the end: the playlist is not empty, yet it has no current song.
   */
  lemma RemoveStrandsCursor(a: Song, b: Song)
    ensures var p := Playlist("list", [a, b], Some(1), true, false);
      && CursorInRange(p)
      && var q := RemoveSong(p, 1).0;
      && q.songs == [a]
      && !CursorInRange(q)
      && CurrentSong(q) == None
  {
    var p := Playlist("list", [a, b], Some(1), true, false);
    assert p.songs[..1] + p.songs[2..] == [a];
  }

  /**
   * Removal with the cursor kept consistent: a cursor after the removed index
   * moves down with its song, a cursor on the removed song is cleared, and a
   * cursor before it stays.
   */
  function RemoveSongKeepingCursor(p: Playlist, i: nat): (res: (Playlist, Option<Song>))
    ensures res.0.songs == RemoveSong(p, i).0.songs && res.1 == RemoveSong(p, i).1
    ensures SameSettings(p, res.0)
    ensures i >= |p.songs| ==> res.0 == p
    ensures CursorInRange(p) ==> CursorInRange(res.0)
    ensures CursorInRange(p) && i < |p.songs| && p.current.Some? && p.current.value != i ==>
      && res.0.current.Some?
      && res.0.songs[res.0.current.value] == p.songs[p.current.value]
    ensures i < |p.songs| && p.current == Some(i) ==> res.0.current.None?
  {
    var (q, r) := RemoveSong(p, i);
    if i >= |p.songs| then (q, r)
    else
      var c := match p.current
               case None => None
               case Some(k) => if k < i then Some(k) else if k == i then None else Some(k - 1);
      (q.(current := c), r)
  }

  /** `Playlist::get_current_song`: the song under the cursor, if the cursor is set and in range. */
  function CurrentSong(p: Playlist): (r: Option<Song>)
    ensures r.Some? <==> p.current.Some? && p.current.value < |p.songs|
    ensures r.Some? ==> r.value == p.songs[p.current.value] && r.value in p.songs
  {
    match p.current
    case Some(k) => if k < |p.songs| then Some(p.songs[k]) else None
    case None => None
  }

  /**
   * `Playlist::next_song`. `draw` stands for the random generator's output in
   * shuffle mode; `gen_range(0..n)` yields a value below n, which `% n` leaves
   * unchanged. Sequential mode moves one step forward with wrap-around.
   */
  function NextSong(p: Playlist, draw: nat): (res: (Playlist, Option<Song>))
    ensures p.songs == [] ==> res == (p, None)
    ensures res.0.songs == p.songs && SameSettings(p, res.0)
    ensures p.songs != [] ==>
      && res.0.current.Some? && CursorInRange(res.0)
      && res.1 == Some(p.songs[res.0.current.value])
    ensures p.songs != [] && !p.isShuffle && p.current.None? ==> res.0.current == Some(0)
    ensures p.songs != [] && !p.isShuffle && p.current.Some? ==>
      res.0.current == Some((p.current.value + 1) % |p.songs|)
    ensures p.songs != [] && p.isShuffle ==> res.0.current == Some(draw % |p.songs|)
  {
    if p.songs == [] then (p, None)
    else
      var n := |p.songs|;
      var k := if p.isShuffle then draw % n
               else match p.current
                    case Some(i) => (i + 1) % n
                    case None => 0;
      var q := p.(current := Some(k));
      (q, CurrentSong(q))
  }

  /**
   * `Playlist::previous_song`: one step back with wrap-around from 0 to the
   * last index; the shuffle flag is not consulted. A stale cursor past the end
   * is decremented as it is, so the result can be None on a non-empty playlist.
   */
  function PreviousSong(p: Playlist): (res: (Playlist, Option<Song>))
    ensures p.songs == [] ==> res == (p, None)
    ensures res.0.songs == p.songs && SameSettings(p, res.0)
    ensures p.songs != [] ==> res.0.current.Some? && res.1 == CurrentSong(res.0)
    ensures p.songs != [] && p.current.None? ==> res.0.current == Some(0)
    ensures p.songs != [] && p.current == Some(0) ==> res.0.current == Some(|p.songs| - 1)
    ensures p.songs != [] && p.current.Some? && p.current.value > 0 ==>
      res.0.current == Some(p.current.value - 1)
    ensures p.songs != [] && CursorInRange(p) ==>
      CursorInRange(res.0) && res.1 == Some(p.songs[res.0.current.value])
  {
    if p.songs == [] then (p, None)
    else
      var k := match p.current
               case Some(i) => if i == 0 then |p.songs| - 1 else i - 1
               case None => 0;
      var q := p.(current := Some(k));
      (q, CurrentSong(q))
  }

  /** `Playlist::get_total_duration`: total length of the playlist in seconds. */
  function TotalDuration(p: Playlist): (r: nat)
    ensures forall i :: 0 <= i < |p.songs| ==> p.songs[i].duration <= r
    ensures r == 0 <==> forall i :: 0 <= i < |p.songs| ==> p.songs[i].duration == 0
  {
    SumBounds(p.songs);
    SumDurations(p.songs)
  }

  /** Every song's duration is part of the sum, and only zero durations sum to zero. */
  lemma {:induction false} SumBounds(songs: seq<Song>)
    ensures forall i :: 0 <= i < |songs| ==> songs[i].duration <= SumDurations(songs)
    ensures SumDurations(songs) == 0 <==> forall i :: 0 <= i < |songs| ==> songs[i].duration == 0
    decreases |songs|
  {
    if songs != [] {
      SumBounds(songs[1..]);
      forall i | 1 <= i < |songs|
        ensures songs[i].duration == songs[1..][i - 1].duration
      {
      }
    }
  }

  lemma {:induction false} SumAppend(a: seq<Song>, b: seq<Song>)
    ensures SumDurations(a + b) == SumDurations(a) + SumDurations(b)
    decreases |a|
  {
    if a == [] {
      assert a + b == b;
    } else {
      assert (a + b)[1..] == a[1..] + b;
      SumAppend(a[1..], b);
    }
  }

  /** Taking the song at `j` out of `b` lowers the total by its duration. */
  lemma SumRemoveAt(b: seq<Song>, j: nat)
    requires j < |b|
    ensures SumDurations(b) == SumDurations(b[..j] + b[j + 1..]) + b[j].duration
  {
    var pre, x, post := b[..j], b[j], b[j + 1..];
    assert b == pre + [x] + post;
    SumAppend(pre + [x], post);
    SumAppend(pre, [x]);
    SumAppend(pre, post);
    assert SumDurations([x]) == x.duration by {
      assert [x][1..] == [];
    }
  }

  /** Taking the song at `j` out of `b` removes one copy of it from the multiset. */
  lemma MultisetRemoveAt(b: seq<Song>, j: nat)
    requires j < |b|
    ensures multiset(b[..j] + b[j + 1..]) == multiset(b) - multiset{b[j]}
  {
    var pre, x, post := b[..j], b[j], b[j + 1..];
    assert b == pre + [x] + post;
    assert multiset(b) == multiset(pre) + multiset{x} + multiset(post);
  }

  /** The total does not depend on the order of the songs: permutations have equal sums. */
  lemma {:induction false} SumPermutation(a: seq<Song>, b: seq<Song>)
    requires multiset(a) == multiset(b)
    ensures SumDurations(a) == SumDurations(b)
    decreases |a|
  {
    if a != [] {
      var x, tail := a[0], a[1..];
      assert x in multiset(b);
      assert x in b;
      var j :| 0 <= j < |b| && b[j] == x;
      var rest := b[..j] + b[j + 1..];
      SumRemoveAt(b, j);
      MultisetRemoveAt(b, j);
      assert a == [x] + tail;
      assert multiset(tail) == multiset(a) - multiset{x};
      SumPermutation(tail, rest);
      assert SumDurations(a) == x.duration + SumDurations(tail);
    }
  }
}
