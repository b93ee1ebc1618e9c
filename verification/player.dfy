/**
 * The player: the library, the playlists by name, the name of the active
 * playlist and the volume. Every operation returns the new player together
 * with the value the program returns.
 */
module Players {
  import opened Wrappers
  import opened Songs
  import opened Playlists

  /** Rust's `u8`, the type of the volume and of `set_volume`'s argument. */
  type Byte = x: int | 0 <= x < 256

  const MaxVolume: Byte := 100
  const InitialVolume: Byte := 50

  /** `active` is a lookup key into `playlists`, not an owned playlist. */
  datatype Player = Player(
    library: seq<Song>,
    playlists: map<string, Playlist>,
    active: Option<string>,
    volume: Byte
  )

  /** What every operation keeps: volume in range, active name resolvable, cursors in range. */
  predicate Valid(pl: Player) {
    && pl.volume <= MaxVolume
    && (pl.active.Some? ==> pl.active.value in pl.playlists)
    && forall name :: name in pl.playlists ==> CursorInRange(pl.playlists[name])
  }

  /** Library, active name, volume and every playlist other than `name` agree. */
  predicate OthersUnchanged(a: Player, b: Player, name: string) {
    && b.library == a.library && b.active == a.active && b.volume == a.volume
    && forall k :: k in a.playlists && k != name ==> k in b.playlists && b.playlists[k] == a.playlists[k]
  }

  /** `MusicPlayer::new` before the demo data: nothing stored, volume 50. */
  function Empty(): (pl: Player)
    ensures Valid(pl) && pl.library == [] && pl.playlists == map[] && pl.active.None?
    ensures pl.volume == 50
  {
    Player([], map[], None, InitialVolume)
  }

  /** The active playlist's name when it is set and names an existing playlist. */
  function ActiveName(pl: Player): (r: Option<string>)
    ensures r.Some? <==> pl.active.Some? && pl.active.value in pl.playlists
    ensures r.Some? ==> r == pl.active
  {
    if pl.active.Some? && pl.active.value in pl.playlists then pl.active else None
  }

  /**
   * `MusicPlayer::create_playlist`: refuses an existing name without changing
   * anything; otherwise adds exactly one new empty playlist under `name`.
   */
  function CreatePlaylist(pl: Player, name: string): (res: (Player, bool))
    ensures res.1 <==> name !in pl.playlists
    ensures !res.1 ==> res.0 == pl
    ensures res.1 ==>
      && res.0.playlists.Keys == pl.playlists.Keys + {name}
      && res.0.playlists[name] == New(name)
      && res.0.playlists[name].songs == [] && res.0.playlists[name].current.None?
      && !res.0.playlists[name].isPlaying && !res.0.playlists[name].isShuffle
      && OthersUnchanged(pl, res.0, name)
    ensures Valid(pl) ==> Valid(res.0)
  {
    if name in pl.playlists then (pl, false)
    else (pl.(playlists := pl.playlists[name := New(name)]), true)
  }

  /**
   * `MusicPlayer::add_song_to_playlist`: appends a copy of library song `i` to
   * playlist `name`; a bad index or an unknown name changes nothing.
   */
  function AddSongToPlaylist(pl: Player, name: string, i: nat): (res: (Player, bool))
    ensures res.1 <==> i < |pl.library| && name in pl.playlists
    ensures !res.1 ==> res.0 == pl
    ensures res.1 ==> res.0.playlists.Keys == pl.playlists.Keys
    ensures res.1 ==>
      var before, after := pl.playlists[name], res.0.playlists[name];
      && after.songs == before.songs + [pl.library[i]]
      && after.current == before.current && SameSettings(before, after)
      && TotalDuration(after) == TotalDuration(before) + pl.library[i].duration
      && OthersUnchanged(pl, res.0, name)
    ensures Valid(pl) ==> Valid(res.0)
  {
    if i < |pl.library| && name in pl.playlists then
      (pl.(playlists := pl.playlists[name := AddSong(pl.playlists[name], pl.library[i])]), true)
    else
      (pl, false)
  }

  /**
   * `MusicPlayer::play_playlist`: makes `name` the active playlist and marks it
   * playing; a playlist with no cursor and at least one song gets cursor 0.
   * It does not itself select or return a song.
   */
  function PlayPlaylist(pl: Player, name: string): (res: (Player, bool))
    ensures res.1 <==> name in pl.playlists
    ensures !res.1 ==> res.0 == pl
    ensures res.1 ==> res.0.playlists.Keys == pl.playlists.Keys
    ensures res.1 ==>
      var before, after := pl.playlists[name], res.0.playlists[name];
      && res.0.active == Some(name)
      && after.isPlaying && after.songs == before.songs
      && after.name == before.name && after.isShuffle == before.isShuffle
      && after.current == (if before.current.None? && before.songs != [] then Some(0) else before.current)
      && res.0.library == pl.library && res.0.volume == pl.volume
      && forall k :: k in pl.playlists && k != name ==> res.0.playlists[k] == pl.playlists[k]
    ensures Valid(pl) ==> Valid(res.0)
  {
    if name in pl.playlists then
      var p := pl.playlists[name];
      var p' := p.(isPlaying := true,
                   current := if p.current.None? && p.songs != [] then Some(0) else p.current);
      (pl.(active := Some(name), playlists := pl.playlists[name := p']), true)
    else
      (pl, false)
  }

  /** `MusicPlayer::get_current_song`: the active playlist's current song, if any. */
  function CurrentSong(pl: Player): (r: Option<Song>)
    ensures ActiveName(pl).None? ==> r.None?
    ensures ActiveName(pl).Some? ==> r == Playlists.CurrentSong(pl.playlists[pl.active.value])
    ensures r.Some? ==> r.value in pl.playlists[pl.active.value].songs
  {
    match ActiveName(pl)
    case Some(name) => Playlists.CurrentSong(pl.playlists[name])
    case None => None
  }

  /**
   * `MusicPlayer::next_song`: advances the active playlist and yields the song
   * it announces; with no active playlist nothing changes. `draw` is the
   * shuffle draw.
   */
  function NextSong(pl: Player, draw: nat): (res: (Player, Option<Song>))
    ensures ActiveName(pl).None? ==> res == (pl, None)
    ensures ActiveName(pl).Some? ==>
      var name := pl.active.value;
      var step := Playlists.NextSong(pl.playlists[name], draw);
      && res.0.playlists.Keys == pl.playlists.Keys
      && res.0.playlists[name] == step.0 && res.1 == step.1
      && OthersUnchanged(pl, res.0, name)
    ensures res.1.Some? ==> res.1 == CurrentSong(res.0)
    ensures res.1.None? ==> res.0 == pl
    ensures Valid(pl) ==> Valid(res.0)
  {
    match ActiveName(pl)
    case None => (pl, None)
    case Some(name) =>
      var step := Playlists.NextSong(pl.playlists[name], draw);
      (pl.(playlists := pl.playlists[name := step.0]), step.1)
  }

  /** `MusicPlayer::previous_song`: steps the active playlist back; see Playlists.PreviousSong. */
  function PreviousSong(pl: Player): (res: (Player, Option<Song>))
    ensures ActiveName(pl).None? ==> res == (pl, None)
    ensures ActiveName(pl).Some? ==>
      var name := pl.active.value;
      var step := Playlists.PreviousSong(pl.playlists[name]);
      && res.0.playlists.Keys == pl.playlists.Keys
      && res.0.playlists[name] == step.0 && res.1 == step.1
      && OthersUnchanged(pl, res.0, name)
    ensures res.1.Some? ==> res.1 == CurrentSong(res.0)
    ensures Valid(pl) ==> Valid(res.0)
    ensures Valid(pl) && ActiveName(pl).Some? ==> (res.1.Some? <==> pl.playlists[pl.active.value].songs != [])
  {
    match ActiveName(pl)
    case None => (pl, None)
    case Some(name) =>
      var step := Playlists.PreviousSong(pl.playlists[name]);
      (pl.(playlists := pl.playlists[name := step.0]), step.1)
  }

  /**
   * `MusicPlayer::toggle_shuffle`: flips the active playlist's shuffle flag and
   * returns the new value; returns false and changes nothing without one.
   */
  function ToggleShuffle(pl: Player): (res: (Player, bool))
    ensures ActiveName(pl).None? ==> res == (pl, false)
    ensures ActiveName(pl).Some? ==> res.0.playlists.Keys == pl.playlists.Keys
    ensures ActiveName(pl).Some? ==>
      var name := pl.active.value;
      var before, after := pl.playlists[name], res.0.playlists[name];
      && res.1 == after.isShuffle && after.isShuffle != before.isShuffle
      && after.songs == before.songs && after.current == before.current
      && after.name == before.name && after.isPlaying == before.isPlaying
      && OthersUnchanged(pl, res.0, name)
    ensures Valid(pl) ==> Valid(res.0)
  {
    match ActiveName(pl)
    case None => (pl, false)
    case Some(name) =>
      var p := pl.playlists[name];
      var p' := p.(isShuffle := !p.isShuffle);
      (pl.(playlists := pl.playlists[name := p']), p'.isShuffle)
  }

  /** Toggling shuffle twice restores the player. */
  lemma ToggleTwice(pl: Player)
    ensures ToggleShuffle(ToggleShuffle(pl).0).0 == pl
  {
    if ActiveName(pl).Some? {
      var name := pl.active.value;
      var once := ToggleShuffle(pl).0;
      assert ActiveName(once) == Some(name);
      var twice := ToggleShuffle(once).0;
      assert twice.playlists[name] == pl.playlists[name];
      assert twice.playlists == pl.playlists;
    }
  }

  /** `MusicPlayer::set_volume`: stores the volume clamped to at most 100. */
  function SetVolume(pl: Player, v: Byte): (r: Player)
    ensures r.volume <= MaxVolume
    ensures v <= MaxVolume ==> r.volume == v
    ensures v > MaxVolume ==> r.volume == MaxVolume
    ensures r.library == pl.library && r.playlists == pl.playlists && r.active == pl.active
    ensures Valid(pl) ==> Valid(r)
  {
    pl.(volume := if v < MaxVolume then v else MaxVolume)
  }

  /**
   * Choosing a playlist in the menu: play_playlist, and when it succeeds an
   * immediate next_song whose song is announced. On a fresh sequential
   * playlist the cursor is first set to 0 and then advanced, so the song
   * announced is the second one (the first when there is only one).
   */
  function PlayAndAnnounce(pl: Player, name: string, draw: nat): (res: (Player, Option<Song>))
    ensures name !in pl.playlists ==> res == (pl, None)
    ensures res.0.library == pl.library && res.0.volume == pl.volume
    ensures res.0.playlists.Keys == pl.playlists.Keys
    ensures name in pl.playlists ==> res.0.active == Some(name) && res.0.playlists[name].isPlaying
    ensures res.1.Some? ==> res.1 == CurrentSong(res.0)
    ensures name in pl.playlists ==> (res.1.Some? <==> pl.playlists[name].songs != [])
    ensures name in pl.playlists && pl.playlists[name].current.None? && !pl.playlists[name].isShuffle
            && pl.playlists[name].songs != [] ==>
      var songs := pl.playlists[name].songs;
      res.1 == Some(songs[1 % |songs|]) && (|songs| >= 2 ==> res.1 == Some(songs[1]))
    ensures Valid(pl) ==> Valid(res.0)
  {
    var (played, ok) := PlayPlaylist(pl, name);
    if ok then
      assert ActiveName(played) == Some(name);
      NextSong(played, draw)
    else (pl, None)
  }
}
