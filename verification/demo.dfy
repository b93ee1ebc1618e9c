/** The seed data of `MusicPlayer::new`: eight demo songs and two genre playlists. */
module Demo {
  import opened Wrappers
  import opened Songs
  import opened Seqs
  import opened Playlists
  import opened Players
  import opened Discovery
  import opened Text

  const RockKey: string := "Rock Classics"
  const PopKey: string := "Pop Hits"
  /** The playlists' own names carry an emoji prefix that their map keys lack. */
  const RockName: string := "\U{1F3B8} Rock Classics"
  const PopName: string := "\U{1F3A4} Pop Hits"

  function DemoLibrary(): (lib: seq<Song>)
    ensures |lib| == 8
  {
    [ Song("Bohemian Rhapsody", "Queen", 354, "Rock", 1975, "queen_bohemian.mp3"),
      Song("Stairway to Heaven", "Led Zeppelin", 482, "Rock", 1971, "lz_stairway.mp3"),
      Song("Hotel California", "Eagles", 391, "Rock", 1976, "eagles_hotel.mp3"),
      Song("Imagine", "John Lennon", 183, "Pop", 1971, "lennon_imagine.mp3"),
      Song("Sweet Child O' Mine", "Guns N' Roses", 356, "Rock", 1987, "gnr_sweet_child.mp3"),
      Song("Billie Jean", "Michael Jackson", 294, "Pop", 1982, "mj_billie_jean.mp3"),
      Song("Smells Like Teen Spirit", "Nirvana", 301, "Grunge", 1991, "nirvana_teen_spirit.mp3"),
      Song("Yesterday", "The Beatles", 125, "Pop", 1965, "beatles_yesterday.mp3") ]
  }

  predicate IsRockGenre(s: Song) {
    s.genre == "Rock" || s.genre == "Grunge"
  }

  predicate IsPopGenre(s: Song) {
    s.genre == "Pop"
  }

  /** No genre counts as both rock and pop. */
  lemma RockIsNotPop(s: Song)
    ensures !(IsRockGenre(s) && IsPopGenre(s))
  {
    if IsPopGenre(s) {
      assert s.genre[0] == 'P';
    }
  }

  /**
   * The single pass over the library that files each song into the rock or
   * the pop playlist by genre; other genres go nowhere. It appends to each
   * playlist exactly what filtering the songs by that genre gives, in order.
   */
  function SortByGenre(songs: seq<Song>, rock: Playlist, pop: Playlist): (r: (Playlist, Playlist))
    ensures r.0 == rock.(songs := rock.songs + Filter(songs, IsRockGenre))
    ensures r.1 == pop.(songs := pop.songs + Filter(songs, IsPopGenre))
    ensures forall i :: |rock.songs| <= i < |r.0.songs| ==> IsRockGenre(r.0.songs[i])
    ensures forall i :: |pop.songs| <= i < |r.1.songs| ==> IsPopGenre(r.1.songs[i])
    ensures (|r.0.songs| - |rock.songs|) + (|r.1.songs| - |pop.songs|) <= |songs|
    decreases |songs|
  {
    if songs == [] then
      assert rock.songs + [] == rock.songs && pop.songs + [] == pop.songs;
      (rock, pop)
    else
      var s, rest := songs[0], songs[1..];
      assert [s] + rest == songs;
      FilterCons(s, rest, IsRockGenre);
      FilterCons(s, rest, IsPopGenre);
      RockIsNotPop(s);
      if IsRockGenre(s) then
        assert (rock.songs + [s]) + Filter(rest, IsRockGenre) == rock.songs + ([s] + Filter(rest, IsRockGenre));
        SortByGenre(rest, AddSong(rock, s), pop)
      else if IsPopGenre(s) then
        assert (pop.songs + [s]) + Filter(rest, IsPopGenre) == pop.songs + ([s] + Filter(rest, IsPopGenre));
        SortByGenre(rest, rock, AddSong(pop, s))
      else
        SortByGenre(rest, rock, pop)
  }

  /**
   * Installs `lib` as the library and stores the two genre playlists built
   * from it under their keys, replacing any playlist already stored there.
   */
  function InstallLibrary(pl: Player, lib: seq<Song>): (r: Player)
    ensures r.library == lib
    ensures r.active == pl.active && r.volume == pl.volume
    ensures r.playlists.Keys == pl.playlists.Keys + {RockKey, PopKey}
    ensures forall k :: k in pl.playlists && k != RockKey && k != PopKey ==> r.playlists[k] == pl.playlists[k]
    ensures r.playlists[RockKey] == Playlist(RockName, Filter(lib, IsRockGenre), None, false, false)
    ensures r.playlists[PopKey] == Playlist(PopName, Filter(lib, IsPopGenre), None, false, false)
    ensures Valid(pl) ==> Valid(r)
  {
    var (rock, pop) := SortByGenre(lib, New(RockName), New(PopName));
    assert rock.songs == Filter(lib, IsRockGenre);
    assert pop.songs == Filter(lib, IsPopGenre);
    Player(lib, pl.playlists[RockKey := rock][PopKey := pop], pl.active, pl.volume)
  }

  /**
   * `MusicPlayer::add_demo_songs`: replaces the library by the eight demo
   * songs and files them into "Rock Classics" and "Pop Hits" by genre.
   */
  function AddDemoSongs(pl: Player): (r: Player)
    ensures r.library == DemoLibrary() && |r.library| == 8
    ensures r.active == pl.active && r.volume == pl.volume
    ensures r.playlists.Keys == pl.playlists.Keys + {RockKey, PopKey}
    ensures forall k :: k in pl.playlists && k != RockKey && k != PopKey ==> r.playlists[k] == pl.playlists[k]
    ensures r.playlists[RockKey] == Playlist(RockName, Filter(r.library, IsRockGenre), None, false, false)
    ensures r.playlists[PopKey] == Playlist(PopName, Filter(r.library, IsPopGenre), None, false, false)
    ensures Valid(pl) ==> Valid(r)
  {
    InstallLibrary(pl, DemoLibrary())
  }

  /** `MusicPlayer::new`: the empty player with the demo data added. */
  function NewPlayer(): (pl: Player)
    ensures Valid(pl) && pl.volume == 50 && pl.active.None?
    ensures pl.playlists.Keys == {RockKey, PopKey}
  {
    AddDemoSongs(Empty())
  }

  /** Filtering the demo library for Rock and Grunge picks songs 0, 1, 2, 4 and 6. */
  lemma DemoRockSongs()
    ensures var lib := DemoLibrary();
      Filter(lib, IsRockGenre) == [lib[0], lib[1], lib[2], lib[4], lib[6]]
  {
  }

  /** Filtering the demo library for Pop picks songs 3, 5 and 7. */
  lemma DemoPopSongs()
    ensures var lib := DemoLibrary();
      Filter(lib, IsPopGenre) == [lib[3], lib[5], lib[7]]
  {
  }

  function Titles(songs: seq<Song>): (r: seq<string>)
    ensures |r| == |songs|
  {
    seq(|songs|, i requires 0 <= i < |songs| => songs[i].title)
  }

  lemma DemoRockTitles()
    ensures var lib := DemoLibrary();
      Titles([lib[0], lib[1], lib[2], lib[4], lib[6]]) ==
      ["Bohemian Rhapsody", "Stairway to Heaven", "Hotel California",
       "Sweet Child O' Mine", "Smells Like Teen Spirit"]
  {
  }

  lemma DemoPopTitles()
    ensures var lib := DemoLibrary();
      Titles([lib[3], lib[5], lib[7]]) == ["Imagine", "Billie Jean", "Yesterday"]
  {
  }

  /** At startup "Rock Classics" lists these five titles, in this order. */
  lemma StartupRockPlaylist()
    ensures Titles(NewPlayer().playlists[RockKey].songs) ==
      ["Bohemian Rhapsody", "Stairway to Heaven", "Hotel California",
       "Sweet Child O' Mine", "Smells Like Teen Spirit"]
  {
    DemoRockSongs();
    DemoRockTitles();
  }

  /** At startup "Pop Hits" lists these three titles, in this order. */
  lemma StartupPopPlaylist()
    ensures Titles(NewPlayer().playlists[PopKey].songs) == ["Imagine", "Billie Jean", "Yesterday"]
  {
    DemoPopSongs();
    DemoPopTitles();
  }

  /**
   * Choosing "Rock Classics" in the menu activates it and then advances once,
   * so the first song announced is the second one, "Stairway to Heaven".
   */
  lemma StartupPlayRockAnnouncesStairway(draw: nat)
    ensures var (next, song) := PlayAndAnnounce(NewPlayer(), RockKey, draw);
      && song.Some? && song.value.title == "Stairway to Heaven"
      && next.active == Some(RockKey)
  {
    DemoRockSongs();
  }

  /** The library songs related to "Stairway to Heaven" (genre Rock or artist Led Zeppelin). */
  lemma DemoRelatedToStairway()
    ensures var lib := DemoLibrary();
      RelatedSongs(lib, lib[1]) == [lib[0], lib[1], lib[2], lib[4]]
  {
    var lib := DemoLibrary();
    var keep := s => Related(s, lib[1]);
    assert Filter(lib[8..], keep) == [];
    assert lib[7..] == [lib[7]] + lib[8..];
    FilterCons(lib[7], lib[8..], keep);
    assert lib[6..] == [lib[6]] + lib[7..];
    FilterCons(lib[6], lib[7..], keep);
    assert lib[5..] == [lib[5]] + lib[6..];
    FilterCons(lib[5], lib[6..], keep);
    assert lib[4..] == [lib[4]] + lib[5..];
    FilterCons(lib[4], lib[5..], keep);
    assert lib[3..] == [lib[3]] + lib[4..];
    FilterCons(lib[3], lib[4..], keep);
    assert lib[2..] == [lib[2]] + lib[3..];
    FilterCons(lib[2], lib[3..], keep);
    assert lib[1..] == [lib[1]] + lib[2..];
    FilterCons(lib[1], lib[2..], keep);
    assert lib[0..] == [lib[0]] + lib[1..];
    FilterCons(lib[0], lib[1..], keep);
    assert lib[0..] == lib;
  }

  /**
   * With "Stairway to Heaven" playing, the recommendations are the four Rock
   * songs of the library (Bohemian Rhapsody, Stairway to Heaven, Hotel
   * California, Sweet Child O' Mine), itself included; the Grunge song is not among them
   * because the genres are compared for equality.
   */
  lemma StartupRecommendations(draw: nat, order: seq<nat>)
    requires IsIndexPermutation(order, 8)
    ensures var lib := DemoLibrary();
      var (next, _) := PlayAndAnnounce(NewPlayer(), RockKey, draw);
      Recommendations(next, order) == [lib[0], lib[1], lib[2], lib[4]]
  {
    var lib := DemoLibrary();
    DemoRockSongs();
    DemoRelatedToStairway();
    var (next, song) := PlayAndAnnounce(NewPlayer(), RockKey, draw);
    assert song == Some(lib[1]);
    assert Players.CurrentSong(next) == Some(lib[1]);
    var all := RelatedSongs(lib, lib[1]);
    var r := Recommendations(next, order);
    assert r <= all && |r| == |all| == 4;
    assert r == [lib[0], lib[1], lib[2], lib[4]];
  }

  /** Searching the demo library for "rock" and for "ROCK" gives the same songs. */
  lemma DemoSearchIgnoresCase()
    ensures Search(DemoLibrary(), "rock") == Search(DemoLibrary(), "ROCK")
  {
    assert Lower("rock") == Lower("ROCK");
    SearchIgnoresCase(DemoLibrary(), "rock", "ROCK");
  }
}
