/**
 * Properties of repeated next/previous steps on one playlist: sequential
 * advance visits every position in order and wraps, retreat is its mirror,
 * and shuffle can land on any position.
 */
module Playback {
  import opened Wrappers
  import opened Songs
  import opened Playlists

  /** A positive multiple of a positive number is at least that number. */
  lemma {:induction false} MulGrows(d: nat, n: nat)
    requires d >= 1
    ensures d * n >= n
    decreases d
  {
    if d > 1 {
      MulGrows(d - 1, n);
      assert d * n == (d - 1) * n + n;
    }
  }

  /** The only multiple of n strictly between -n and n is 0. */
  lemma ZeroMultiple(d: int, n: int)
    requires n > 0 && -n < d * n < n
    ensures d == 0
  {
    if d > 0 {
      MulGrows(d, n);
    }
  }

  /** Euclidean remainder is determined by any quotient/remainder pair. */
  lemma ModUnique(a: int, n: int, q: int, r: int)
    requires n > 0 && 0 <= r < n && a == q * n + r
    ensures a % n == r
  {
    var q0, r0 := a / n, a % n;
    assert (q - q0) * n == r0 - r;
    ZeroMultiple(q - q0, n);
  }

  /** Stepping forward from a reduced position is the same as reducing one step further. */
  lemma ModSucc(a: int, n: int)
    requires n > 0
    ensures (a % n + 1) % n == (a + 1) % n
  {
    var q, r := a / n, a % n;
    assert a == q * n + r;
    if r + 1 < n {
      ModUnique(r + 1, n, 0, r + 1);
      ModUnique(a + 1, n, q, r + 1);
    } else {
      ModUnique(n, n, 1, 0);
      assert (q + 1) * n == q * n + n;
      ModUnique(a + 1, n, q + 1, 0);
    }
  }

  /** Stepping back from a reduced position wraps from 0 to n-1. */
  lemma ModPred(a: int, n: int)
    requires n > 0
    ensures a % n == 0 ==> (a - 1) % n == n - 1
    ensures a % n != 0 ==> (a - 1) % n == a % n - 1
  {
    var q, r := a / n, a % n;
    if r == 0 {
      ModUnique(a - 1, n, q - 1, n - 1);
    } else {
      ModUnique(a - 1, n, q, r - 1);
    }
  }

  /** `k` sequential `next_song` steps (the draw is not consulted without shuffle). */
  function Advance(p: Playlist, k: nat): Playlist
    decreases k
  {
    if k == 0 then p else NextSong(Advance(p, k - 1), 0).0
  }

  /** `k` `previous_song` steps. */
  function Retreat(p: Playlist, k: nat): Playlist
    decreases k
  {
    if k == 0 then p else PreviousSong(Retreat(p, k - 1)).0
  }

  /** One sequential step from a set cursor moves it to the next position, wrapping at the end. */
  lemma SequentialStep(p: Playlist)
    requires p.songs != [] && !p.isShuffle && p.current.Some?
    ensures NextSong(p, 0).0 == p.(current := Some((p.current.value + 1) % |p.songs|))
  {
  }

  /** After k sequential steps from position i the cursor is at (i + k) mod n. */
  lemma {:induction false} AdvanceFromPosition(p: Playlist, k: nat)
    requires p.songs != [] && !p.isShuffle && p.current.Some? && CursorInRange(p)
    ensures var q := Advance(p, k);
      && q.songs == p.songs && SameSettings(p, q)
      && q.current == Some((p.current.value + k) % |p.songs|)
    decreases k
  {
    var n, i := |p.songs|, p.current.value;
    if k == 0 {
      ModUnique(i, n, 0, i);
    } else {
      var m := i + k - 1;
      var prev := Advance(p, k - 1);
      assert prev == p.(current := Some(m % n)) by {
        AdvanceFromPosition(p, k - 1);
      }
      assert Advance(p, k) == prev.(current := Some((m % n + 1) % n)) by {
        SequentialStep(prev);
      }
      ModSucc(m, n);
    }
  }

  /** From no selection, the k-th sequential step (k >= 1) selects position (k - 1) mod n. */
  lemma {:induction false} AdvanceFromStart(p: Playlist, k: nat)
    requires p.songs != [] && !p.isShuffle && p.current.None? && k >= 1
    ensures var q := Advance(p, k);
      && q.songs == p.songs && SameSettings(p, q)
      && q.current == Some((k - 1) % |p.songs|)
    decreases k
  {
    if k > 1 {
      var prev := Advance(p, k - 1);
      AdvanceFromStart(p, k - 1);
      assert prev.current == Some((k - 2) % |p.songs|);
      assert Advance(p, k) == NextSong(prev, 0).0;
      ModSucc(k - 2, |p.songs|);
    }
  }

  /** n sequential steps from an in-range cursor return the playlist to where it was. */
  lemma AdvanceCycle(p: Playlist)
    requires p.songs != [] && !p.isShuffle && p.current.Some? && CursorInRange(p)
    ensures Advance(p, |p.songs|) == p
  {
    var n, i := |p.songs|, p.current.value;
    AdvanceFromPosition(p, n);
    ModUnique(i + n, n, 1, i);
  }

  /** After k previous-steps from an in-range position i the cursor is at (i - k) mod n. */
  lemma {:induction false} RetreatFromPosition(p: Playlist, k: nat)
    requires p.songs != [] && p.current.Some? && CursorInRange(p)
    ensures var q := Retreat(p, k);
      && q.songs == p.songs && SameSettings(p, q)
      && q.current == Some((p.current.value - k) % |p.songs|)
    decreases k
  {
    var n, i := |p.songs|, p.current.value;
    if k == 0 {
      ModUnique(i, n, 0, i);
    } else {
      var prev := Retreat(p, k - 1);
      RetreatFromPosition(p, k - 1);
      assert prev.current == Some((i - (k - 1)) % n);
      assert Retreat(p, k) == PreviousSong(prev).0;
      ModPred(i - (k - 1), n);
    }
  }

  /** n previous-steps from an in-range cursor return the playlist to where it was, shuffle or not. */
  lemma RetreatCycle(p: Playlist)
    requires p.songs != [] && p.current.Some? && CursorInRange(p)
    ensures Retreat(p, |p.songs|) == p
  {
    var n, i := |p.songs|, p.current.value;
    RetreatFromPosition(p, n);
    ModUnique(i - n, n, -1, i);
  }

  /** One step forward then one step back returns to an in-range position. */
  lemma NextThenPrevious(p: Playlist)
    requires p.songs != [] && !p.isShuffle && p.current.Some? && CursorInRange(p)
    ensures PreviousSong(NextSong(p, 0).0).0 == p
  {
    var n, i := |p.songs|, p.current.value;
    if i + 1 < n {
      ModUnique(i + 1, n, 0, i + 1);
    } else {
      ModUnique(i + 1, n, 1, 0);
    }
  }

  /** Shuffle mode can select every position, and only positions in range. */
  lemma ShuffleReachesEveryPosition(p: Playlist, k: nat)
    requires p.songs != [] && p.isShuffle
    ensures k < |p.songs| <==> exists draw: nat :: draw < |p.songs| && NextSong(p, draw).0.current == Some(k)
  {
    if k < |p.songs| {
      ModUnique(k, |p.songs|, 0, k);
      assert NextSong(p, k).0.current == Some(k);
    }
  }

  /** The position shuffle selects does not depend on the position before the step. */
  lemma ShuffleIgnoresCursor(p: Playlist, c: Option<nat>, draw: nat)
    requires p.songs != [] && p.isShuffle
    ensures NextSong(p.(current := c), draw).0 == NextSong(p, draw).0
  {
  }

  /** previous_song ignores the shuffle flag. */
  lemma PreviousIgnoresShuffle(p: Playlist, b: bool)
    ensures PreviousSong(p.(isShuffle := b)).0.current == PreviousSong(p).0.current
    ensures PreviousSong(p.(isShuffle := b)).1 == PreviousSong(p).1
  {
  }
}
