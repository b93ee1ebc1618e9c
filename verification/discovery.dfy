/** Library search and recommendations (`search_songs`, `get_recommendations`). */
module Discovery {
  import opened Wrappers
  import opened Songs
  import opened Seqs
  import opened Text
  import opened Players

  /** The search condition: the lower-cased query occurs in the lower-cased title, artist or genre. */
  predicate MatchesQuery(s: Song, query: string) {
    var q := Lower(query);
    Contains(Lower(s.title), q) || Contains(Lower(s.artist), q) || Contains(Lower(s.genre), q)
  }

  /** The matching songs of `library`, in library order. */
  function Search(library: seq<Song>, query: string): (r: seq<Song>)
    ensures IsSubsequence(r, library)
    ensures forall i :: 0 <= i < |r| ==> r[i] in library && MatchesQuery(r[i], query)
    ensures forall i :: 0 <= i < |library| && MatchesQuery(library[i], query) ==> library[i] in r
    ensures forall x :: multiset(r)[x] == if MatchesQuery(x, query) then multiset(library)[x] else 0
  {
    var keep := s => MatchesQuery(s, query);
    FilterMultiset(library, keep);
    FilterSound(library, keep);
    FilterComplete(library, keep);
    FilterSubsequence(library, keep);
    Filter(library, keep)
  }

  /** `MusicPlayer::search_songs`: searches the player's library; the player is not changed. */
  function SearchSongs(pl: Player, query: string): (r: seq<Song>)
    ensures IsSubsequence(r, pl.library)
    ensures forall i :: 0 <= i < |r| ==> r[i] in pl.library && MatchesQuery(r[i], query)
    ensures forall i :: 0 <= i < |pl.library| ==> (pl.library[i] in r <==> MatchesQuery(pl.library[i], query))
    ensures forall x :: multiset(r)[x] == if MatchesQuery(x, query) then multiset(pl.library)[x] else 0
    ensures r == Search(pl.library, query)
  {
    var r := Search(pl.library, query);
    forall i | 0 <= i < |pl.library| && pl.library[i] in r
      ensures MatchesQuery(pl.library[i], query)
    {
      var j :| 0 <= j < |r| && r[j] == pl.library[i];
    }
    r
  }

  /** Queries that lower-case alike give the same results: the search ignores case. */
  lemma SearchIgnoresCase(library: seq<Song>, q1: string, q2: string)
    requires Lower(q1) == Lower(q2)
    ensures Search(library, q1) == Search(library, q2)
  {
    FilterCongruent(library, s => MatchesQuery(s, q1), s => MatchesQuery(s, q2));
  }

  /** Lower-casing the query first does not change the result: the search lower-cases it itself. */
  lemma SearchLowerQuery(library: seq<Song>, query: string)
    ensures Search(library, Lower(query)) == Search(library, query)
  {
    LowerIdempotent(query);
    SearchIgnoresCase(library, Lower(query), query);
  }

  /** The empty query matches every song, so the whole library comes back in order. */
  lemma SearchEmptyQuery(library: seq<Song>)
    ensures Search(library, "") == library
  {
    forall i | 0 <= i < |library|
      ensures MatchesQuery(library[i], "")
    {
      ContainsEmpty(Lower(library[i].title));
    }
    FilterKeepsAll(library, s => MatchesQuery(s, ""));
  }

  /** Searching a concatenation is searching each part in turn: results follow library order. */
  lemma SearchAppend(a: seq<Song>, b: seq<Song>, query: string)
    ensures Search(a + b, query) == Search(a, query) + Search(b, query)
  {
    FilterAppend(a, b, s => MatchesQuery(s, query));
  }

  const RecommendationLimit: nat := 5

  /** A recommendation candidate shares the genre or the artist of the current song. */
  predicate Related(s: Song, current: Song) {
    s.genre == current.genre || s.artist == current.artist
  }

  /** `order` lists every index below `n` exactly once. */
  predicate IsIndexPermutation(order: seq<nat>, n: nat) {
    && |order| == n
    && (forall i :: 0 <= i < n ==> order[i] < n)
    && (forall i, j :: 0 <= i < j < n ==> order[i] != order[j])
  }

  predicate Distinct(s: seq<Song>) {
    forall i, j :: 0 <= i < j < |s| ==> s[i] != s[j]
  }

  /** All library songs related to `current`, in library order. */
  function RelatedSongs(library: seq<Song>, current: Song): seq<Song> {
    Filter(library, s => Related(s, current))
  }

  /** No index occurs twice in `idx`, and each designates a song of `library`. */
  predicate ValidPicks(library: seq<Song>, idx: seq<nat>) {
    && (forall i :: 0 <= i < |idx| ==> idx[i] < |library|)
    && (forall i, j :: 0 <= i < j < |idx| ==> idx[i] != idx[j])
  }

  /** The songs of `library` at the positions `idx`, in that order. */
  function Pick(library: seq<Song>, idx: seq<nat>): (r: seq<Song>)
    requires forall i :: 0 <= i < |idx| ==> idx[i] < |library|
    ensures |r| == |idx|
    ensures forall i :: 0 <= i < |idx| ==> r[i] == library[idx[i]]
  {
    seq(|idx|, i requires 0 <= i < |idx| => library[idx[i]])
  }

  /** Dropping the pick of the last library position leaves valid picks into the front. */
  lemma DropPickValid(library: seq<Song>, idx: seq<nat>, p: nat)
    requires ValidPicks(library, idx) && p < |idx| && idx[p] == |library| - 1
    ensures ValidPicks(library[..|library| - 1], idx[..p] + idx[p + 1..])
  {
    var n := |library|;
    var rest := idx[..p] + idx[p + 1..];
    forall i | 0 <= i < |rest|
      ensures rest[i] < n - 1
    {
      if i < p {
        assert rest[i] == idx[i];
      } else {
        assert rest[i] == idx[i + 1];
      }
    }
    forall i, j | 0 <= i < j < |rest|
      ensures rest[i] != rest[j]
    {
      var i' := if i < p then i else i + 1;
      var j' := if j < p then j else j + 1;
      assert rest[i] == idx[i'] && rest[j] == idx[j'];
    }
  }

  /** Picking around the last library position: its song sits at `p` among the other picks. */
  lemma PickAroundLast(library: seq<Song>, idx: seq<nat>, p: nat)
    requires ValidPicks(library, idx) && p < |idx| && idx[p] == |library| - 1
    requires ValidPicks(library[..|library| - 1], idx[..p] + idx[p + 1..])
    ensures var others := Pick(library[..|library| - 1], idx[..p] + idx[p + 1..]);
      Pick(library, idx) == others[..p] + [library[|library| - 1]] + others[p..]
  {
    var n := |library|;
    var rest := idx[..p] + idx[p + 1..];
    var picked := Pick(library, idx);
    var others := Pick(library[..n - 1], rest);
    forall i | 0 <= i < |picked|
      ensures picked[i] == (others[..p] + [library[n - 1]] + others[p..])[i]
    {
      if i < p {
        assert rest[i] == idx[i];
      } else if i > p {
        assert rest[i - 1] == idx[i];
      }
    }
  }

  /** The pick of the last library position contributes exactly one copy of the last song. */
  lemma DropPickSplit(library: seq<Song>, idx: seq<nat>, p: nat)
    requires ValidPicks(library, idx) && p < |idx| && idx[p] == |library| - 1
    requires ValidPicks(library[..|library| - 1], idx[..p] + idx[p + 1..])
    ensures multiset(Pick(library, idx))
      == multiset(Pick(library[..|library| - 1], idx[..p] + idx[p + 1..])) + multiset{library[|library| - 1]}
  {
    var others := Pick(library[..|library| - 1], idx[..p] + idx[p + 1..]);
    PickAroundLast(library, idx, p);
    assert others == others[..p] + others[p..];
  }

  /**
   * Picking distinct positions never uses a library entry twice: the picked
   * songs form a sub-multiset of the library.
   */
  lemma {:induction false} PickSubMultiset(library: seq<Song>, idx: seq<nat>)
    requires ValidPicks(library, idx)
    ensures multiset(Pick(library, idx)) <= multiset(library)
    decreases |library|
  {
    var n := |library|;
    if |idx| == 0 {
      assert Pick(library, idx) == [];
    } else {
      assert idx[0] < n;
      var front, y := library[..n - 1], library[n - 1];
      assert library == front + [y];
      if p :| 0 <= p < |idx| && idx[p] == n - 1 {
        var rest := idx[..p] + idx[p + 1..];
        DropPickValid(library, idx, p);
        PickSubMultiset(front, rest);
        DropPickSplit(library, idx, p);
      } else {
        PickSubMultiset(front, idx);
        assert Pick(library, idx) == Pick(front, idx);
      }
    }
  }

  /**
   * The first `min(5, |library|)` songs of the library in a shuffled order.
   * `sort_by_key` draws a fresh random key at every comparison, so the order
   * comes from random comparisons; the sorted slice is still a permutation of
   * the library, given here as `order`.
   */
  function RandomPick(library: seq<Song>, order: seq<nat>): (r: seq<Song>)
    requires IsIndexPermutation(order, |library|)
    ensures |r| == if |library| < RecommendationLimit then |library| else RecommendationLimit
    ensures forall i :: 0 <= i < |r| ==> r[i] in library
    ensures multiset(r) <= multiset(library)
    ensures Distinct(library) ==> Distinct(r)
  {
    var k := if |library| < RecommendationLimit then |library| else RecommendationLimit;
    PickSubMultiset(library, order[..k]);
    Pick(library, order[..k])
  }

  /**
   * `MusicPlayer::get_recommendations`: with a current song, the first five
   * library songs sharing its genre or artist (the current song itself
   * included); without one, five songs of a random order of the library.
   */
  function Recommendations(pl: Player, order: seq<nat>): (r: seq<Song>)
    requires IsIndexPermutation(order, |pl.library|)
    ensures |r| <= RecommendationLimit
    ensures forall i :: 0 <= i < |r| ==> r[i] in pl.library
    ensures CurrentSong(pl).Some? ==>
      var all := RelatedSongs(pl.library, CurrentSong(pl).value);
      && IsSubsequence(r, pl.library)
      && (forall i :: 0 <= i < |r| ==> Related(r[i], CurrentSong(pl).value))
      && r <= all
      && |r| == if |all| < RecommendationLimit then |all| else RecommendationLimit
    ensures CurrentSong(pl).None? ==>
      && |r| == (if |pl.library| < RecommendationLimit then |pl.library| else RecommendationLimit)
      && multiset(r) <= multiset(pl.library)
      && (Distinct(pl.library) ==> Distinct(r))
  {
    match CurrentSong(pl)
    case Some(current) =>
      var all := RelatedSongs(pl.library, current);
      FilterSound(pl.library, s => Related(s, current));
      FilterSubsequence(pl.library, s => Related(s, current));
      var r := Take(all, RecommendationLimit);
      PrefixIsSubsequence(r, all);
      SubsequenceTransitive(r, all, pl.library);
      r
    case None => RandomPick(pl.library, order)
  }

  /** With few enough related songs, every one of them is recommended, the current song among them. */
  lemma RecommendationsIncludeCurrent(pl: Player, order: seq<nat>)
    requires IsIndexPermutation(order, |pl.library|)
    requires CurrentSong(pl).Some? && CurrentSong(pl).value in pl.library
    requires |RelatedSongs(pl.library, CurrentSong(pl).value)| <= RecommendationLimit
    ensures CurrentSong(pl).value in Recommendations(pl, order)
  {
    var c := CurrentSong(pl).value;
    var i :| 0 <= i < |pl.library| && pl.library[i] == c;
    FilterComplete(pl.library, s => Related(s, c));
    assert Related(pl.library[i], c);
  }
}
