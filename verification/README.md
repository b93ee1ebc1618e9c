# Music player core in Dafny

A model of the playlist and library state machine of the terminal music
player in `music_player.rs`. It covers the `Song` record and its
`format_duration` helper, the `Playlist` type (append, remove by index, the
cursor lookup, and next/previous with wrap-around), and `MusicPlayer`. The
player holds the library, the playlists keyed by name, the name of the active
playlist and the volume. It supports creating playlists, adding library songs
to them, activating one, stepping through the active one, toggling shuffle,
setting the volume, searching the library, and building recommendations and
the demo data.

The model is functional. Each mutating Rust method becomes a function that
takes the old state and returns the new state together with the Rust return
value. `Option` is `Wrappers.Option`, a `HashMap` is a Dafny `map`, a `Vec`
is a `seq`, and the unsigned integers are `nat`. The volume is a `u8`, so it
is the subset type `Players.Byte`.

Modules, leaf first:

- `Wrappers`: `Option`.
- `Songs`: `Song`, decimal printing, `FormatDuration`, and `ParseClock`, which reads the "MM:SS" text back.
- `Seqs`: `Filter`, `Take` and subsequences, which model the `iter().filter().take().collect()` chains.
- `Text`: ASCII lower-casing and `str::contains`.
- `Playlists`: `Playlist` and its operations.
- `Playback`: repeated next/previous steps and shuffle.
- `Players`: `Player` and the `MusicPlayer` operations.
- `Discovery`: search and recommendations.
- `Demo`: the eight demo songs and the two genre playlists built at start-up.

Random choices are parameters:

- The shuffle branch of `next_song` takes a `draw` and selects `draw % n`. `gen_range(0..n)` yields a value below `n`, which `% n` leaves unchanged, so every outcome of the program is an outcome of the model and the other way round.
- The random recommendation branch takes `order`, a permutation of the library indices. `sort_by_key` calls the key closure again at every comparison (music_player.rs:278), so the order comes from random comparisons. The sorted slice is still a permutation of the library, and that permutation is the parameter `order`.

Behaviour worth knowing when reading the model:

- `play_playlist` sets the cursor of a fresh playlist to 0, and the menu then calls `next_song` right away (music_player.rs:427-429). So the first song announced is the playlist's second song: "Stairway to Heaven" for "Rock Classics". `Players.PlayAndAnnounce` and `Demo.StartupPlayRockAnnouncesStairway` state this.
- Recommendations compare genres for equality. With a "Rock" song playing, the "Grunge" song is not recommended (`Demo.StartupRecommendations`).
- The demo playlists are stored under the keys "Rock Classics" and "Pop Hits". Their own `name` fields carry an emoji prefix (`Demo.RockName`, `Demo.PopName`).
- No operation removes a playlist, so the active name can never dangle. `Players.Valid` states this, and every player operation preserves it.

## Model

| member | source | states |
|---|---|---|
| Songs.SplitDuration | music_player.rs:36-38 | minutes and seconds satisfy seconds < 60 and minutes*60 + seconds == duration |
| Songs.FormatDuration | music_player.rs:36-40 | the text is digits ':' two digits, with no leading zero beyond width two in the minutes; the seconds part is below 60 and ParseClock reads the text back to the duration, which together fix the text |
| Songs.ParseDigitsOfDigits | music_player.rs:39 | reading back the decimal text of n yields n |
| Playlists.New | music_player.rs:49-57 | a new playlist is empty, has no cursor, is neither playing nor shuffled, and has total duration 0 |
| Playlists.AddSong | music_player.rs:59-61 | the song is appended at the end, the earlier songs and the cursor are unchanged, and the total duration grows by the song's duration |
| Playlists.RemoveSong | music_player.rs:63-69 | an in-range index returns that song and removes exactly it; otherwise None with the playlist unchanged; the cursor is never touched |
| Playlists.RemoveThenReinsert | music_player.rs:63-69 | reinserting the removed song at its index restores the playlist; the multiset loses exactly that song and the total loses its duration |
| Playlists.CurrentSong | music_player.rs:71-77 | a song is returned exactly when the cursor is set and in range, and it is the song under the cursor |
| Playlists.NextSong | music_player.rs:79-95 | an empty playlist gives None and no change; otherwise the new cursor is in range and the returned song is under it; sequential mode goes from None to 0 and from i to (i+1) mod n |
| Playlists.PreviousSong | music_player.rs:97-114 | an empty playlist gives None and no change; None becomes 0, 0 becomes n-1, i becomes i-1; from an in-range cursor the result is in range and the song under it is returned |
| Playlists.TotalDuration | music_player.rs:116-118 | every song's duration is at most the total, and the total is zero exactly when every song has duration zero |
| Playlists.SumAppend | music_player.rs:116-118 | the total duration of a concatenation is the sum of the totals |
| Playlists.SumPermutation | music_player.rs:116-118 | the total duration depends only on the multiset of songs, not on their order |
| Playback.AdvanceFromPosition | music_player.rs:88-91 | k sequential steps from position i land on (i+k) mod n, with songs and flags unchanged |
| Playback.AdvanceFromStart | music_player.rs:88-91 | from no cursor, the k-th sequential step lands on (k-1) mod n |
| Playback.AdvanceCycle | music_player.rs:88-91 | n sequential steps from an in-range cursor give back the same playlist |
| Playback.RetreatFromPosition | music_player.rs:102-111 | k previous-steps from position i land on (i-k) mod n |
| Playback.RetreatCycle | music_player.rs:102-111 | n previous-steps from an in-range cursor give back the same playlist |
| Playback.NextThenPrevious | music_player.rs:79-114 | in sequential mode one step forward then one back restores the playlist |
| Playback.ShuffleReachesEveryPosition | music_player.rs:84-86 | in shuffle mode a draw below n can select position k exactly when k < n |
| Playback.ShuffleIgnoresCursor | music_player.rs:84-86 | the shuffle step's result does not depend on the previous cursor |
| Playback.PreviousIgnoresShuffle | music_player.rs:97-114 | previous_song gives the same cursor and song whatever the shuffle flag |
| Players.Empty | music_player.rs:131-137 | before the demo data the player is empty, nothing is active and the volume is 50 |
| Players.CreatePlaylist | music_player.rs:185-192 | an existing name gives false and no change; a new name gives true and exactly one new empty playlist under it, other entries unchanged |
| Players.AddSongToPlaylist | music_player.rs:194-202 | succeeds exactly when the index is in the library and the playlist exists; on success library song i is appended to that playlist only, whose total grows by its duration; on failure nothing changes |
| Players.PlayPlaylist | music_player.rs:204-217 | an unknown name gives false and no change; otherwise the name becomes active, the playlist is marked playing, the cursor becomes 0 only if it was unset and the playlist is non-empty, and the songs are unchanged |
| Players.CurrentSong | music_player.rs:219-226 | None without a resolvable active playlist; otherwise that playlist's current song |
| Players.NextSong | music_player.rs:228-237 | advances only the active playlist; the announced song is then the player's current song; without an active playlist nothing changes |
| Players.PreviousSong | music_player.rs:239-248 | steps back only the active playlist; the announced song is the current song; for a valid player a song is announced exactly when that playlist is non-empty |
| Players.ToggleShuffle | music_player.rs:250-258 | flips only the active playlist's shuffle flag and returns the new value; false and no change without an active playlist |
| Players.ToggleTwice | music_player.rs:250-258 | toggling twice restores the player |
| Players.SetVolume | music_player.rs:260-262 | the stored volume is min(v, 100) and nothing else changes |
| Players.PlayAndAnnounce | music_player.rs:427-431 | activating then advancing once announces the current song; on a fresh sequential playlist it is the second song, or the only one |
| Discovery.Search | music_player.rs:174-183 | the result is a subsequence of the library; each song occurs in it as often as in the library when its lower-cased title, artist or genre contains the lower-cased query, and not at all otherwise |
| Discovery.SearchSongs | music_player.rs:174-183 | a library song is in the result if and only if it matches the query, with every copy of a matching song kept; the result keeps library order and is the library search |
| Discovery.SearchIgnoresCase | music_player.rs:175-180 | queries that lower-case alike give identical results |
| Discovery.SearchLowerQuery | music_player.rs:175-180 | lower-casing the query beforehand does not change the result |
| Discovery.SearchEmptyQuery | music_player.rs:174-183 | the empty query returns the whole library in order |
| Discovery.SearchAppend | music_player.rs:176-182 | searching a concatenation is searching each part, results in library order |
| Discovery.PickSubMultiset | music_player.rs:276-279 | songs picked at distinct positions form a sub-multiset of the library |
| Discovery.RandomPick | music_player.rs:274-280 | min(5, library size) songs, each from the library, never one library entry twice |
| Discovery.Recommendations | music_player.rs:264-281 | with a current song: the first min(5, #related) related songs in library order; without: a random pick of min(5, size) distinct library entries |
| Discovery.RecommendationsIncludeCurrent | music_player.rs:265-273 | with at most five related songs, the current song (when in the library) is among the recommendations |
| Text.ContainsIffOccurs | music_player.rs:178-180 | the substring test holds exactly when the query occurs at some position |
| Text.LowerIdempotent | music_player.rs:175-180 | lower-casing twice equals lower-casing once |
| Demo.SortByGenre | music_player.rs:162-168 | the single pass appends to the rock playlist exactly the Rock and Grunge songs and to the pop playlist exactly the Pop songs, each in library order, keeping the other fields; no song is filed twice |
| Demo.InstallLibrary | music_player.rs:156-171 | the library is replaced and the two genre playlists are stored under their keys, other playlists unchanged |
| Demo.AddDemoSongs | music_player.rs:144-172 | the library becomes the eight demo songs and the two keys hold the filtered playlists with no cursor |
| Demo.NewPlayer | music_player.rs:131-142 | the start-up player is valid, has volume 50, nothing active and exactly the two demo playlists |
| Demo.StartupRockPlaylist | music_player.rs:145-171 | "Rock Classics" holds the five Rock/Grunge titles in library order |
| Demo.StartupPopPlaylist | music_player.rs:145-171 | "Pop Hits" holds the three Pop titles in library order |
| Demo.StartupPlayRockAnnouncesStairway | music_player.rs:427-429 | choosing "Rock Classics" at start-up announces "Stairway to Heaven" |
| Demo.StartupRecommendations | music_player.rs:264-273 | with "Stairway to Heaven" playing, the recommendations are the four Rock songs, itself included |
| Demo.DemoSearchIgnoresCase | music_player.rs:174-183 | "rock" and "ROCK" find the same demo songs |
| Playlists.RemoveStrandsCursor | music_player.rs:63-69 | removing the song under the cursor of [a, b] at index 1 leaves a non-empty playlist whose cursor is out of range and which has no current song |
| Playlists.RemoveSongKeepingCursor | music_player.rs:63-69 | the same removal with the cursor adjusted keeps every in-range cursor in range and on the same song, and clears it when its song is removed |

## Left out

- `main`, `print_menu` and the `show_*`, `search_music`, `create_new_playlist`, `play_playlist_menu`, `control_playback` and `manage_volume` menu functions (music_player.rs:284-524) are stdin/stdout plumbing. Only the play-then-next sequence of the menu is modelled, as `Players.PlayAndAnnounce`.
- `Song::display` and `Playlist::display_info` build decorative text. `MusicPlayer::next_song` and `previous_song` return the selected song instead of the formatted announcement.
- `Playlists.NextSong`: the random generator is replaced by the injected `draw`. No distribution is modelled.
- `Discovery.Recommendations`: the random branch takes the permutation that the randomly comparing sort leaves behind as the parameter `order`. Which permutations occur, and how often, is not modelled.
- `Discovery.SearchSongs`: `to_lowercase` is modelled as ASCII lower-casing (`Text.Lower`). Non-ASCII letters such as Cyrillic are not folded.
- `Playlists.TotalDuration`: the sum is a `nat`. The `u32` overflow of `get_total_duration` is not modelled, and neither are the `u32` duration and `u16` year bounds of `Song`.
- HashMap iteration order (music_player.rs:358, 416) only affects menu listings, which are not modelled. Map semantics are enough everywhere else.
- `Playlists.NextSong`: the `usize` overflow of `index + 1` is not modelled. A cursor is always far below the `usize` limit.
- stock_screener.py is not part of this model. It is an HTTP fetch, a JSON export, and floating-point filters over untyped dictionaries.

## Findings

| source | as written | input that shows it | evidently intended | confidence | as-written member | corrected member |
|---|---|---|---|---|---|---|
| music_player.rs:63-69 | `remove_song` never adjusts `current_index` | a playlist [a, b] with cursor 1, then `remove_song(1)`: one song is left, the cursor is 1, and `get_current_song` is None | a cursor after the removed index moves down with its song; a cursor on the removed song is cleared | medium, not executed; nothing in the program calls `remove_song` yet | Playlists.RemoveStrandsCursor | Playlists.RemoveSongKeepingCursor |
