/** A track of the library: immutable metadata plus the "MM:SS" duration text. */
module Songs {

  /** One track. `duration` is in seconds (u32 in the program), `year` is a u16. */
  datatype Song = Song(
    title: string,
    artist: string,
    duration: nat,
    genre: string,
    year: nat,
    path: string
  )

  predicate IsDigit(c: char) {
    '0' <= c <= '9'
  }

  predicate AllDigits(s: string) {
    forall i :: 0 <= i < |s| ==> IsDigit(s[i])
  }

  function DigitChar(d: nat): (c: char)
    requires d < 10
    ensures IsDigit(c)
  {
    ('0' as int + d) as char
  }

  function DigitValue(c: char): (d: nat)
    requires IsDigit(c)
    ensures d < 10
  {
    c as int - '0' as int
  }

  /** Decimal text of `n` without leading zeros, as `{}` prints an unsigned integer. */
  function Digits(n: nat): (r: string)
    ensures |r| >= 1
    ensures AllDigits(r)
    ensures |r| > 1 ==> r[0] != '0'
    decreases n
  {
    if n < 10 then [DigitChar(n)] else Digits(n / 10) + [DigitChar(n % 10)]
  }

  /** Reads a string of decimal digits back as a number (most significant first). */
  function ParseDigits(s: string): nat
    requires AllDigits(s)
  {
    if s == [] then 0 else ParseDigits(s[..|s| - 1]) * 10 + DigitValue(s[|s| - 1])
  }

  lemma {:induction false} ParseDigitsOfDigits(n: nat)
    ensures ParseDigits(Digits(n)) == n
    decreases n
  {
    if n >= 10 {
      var r := Digits(n);
      assert r[..|r| - 1] == Digits(n / 10);
      ParseDigitsOfDigits(n / 10);
    }
  }

  /** A leading zero does not change the value that a digit string denotes. */
  lemma {:induction false} ParseDigitsLeadingZero(s: string)
    requires AllDigits(s)
    ensures ParseDigits(['0'] + s) == ParseDigits(s)
    decreases |s|
  {
    if s != [] {
      var t := ['0'] + s;
      assert t[..|t| - 1] == ['0'] + s[..|s| - 1];
      ParseDigitsLeadingZero(s[..|s| - 1]);
    }
  }

  /** `{:02}`: left-pads a non-empty decimal text with '0' up to width two. */
  function Pad2(s: string): (r: string)
    requires |s| >= 1 && AllDigits(s)
    ensures |r| >= 2 && AllDigits(r)
    ensures ParseDigits(r) == ParseDigits(s)
    ensures |s| >= 2 ==> r == s
  {
    if |s| == 1 then ParseDigitsLeadingZero(s); ['0'] + s else s
  }

  /** Splits a number of seconds into whole minutes and the remaining seconds. */
  function SplitDuration(d: nat): (ms: (nat, nat))
    ensures ms.1 < 60
    ensures ms.0 * 60 + ms.1 == d
  {
    (d / 60, d % 60)
  }

  /** Reads an "M…M:SS" clock text back as seconds; the partner of FormatDuration. */
  function ParseClock(r: string): nat
    requires |r| >= 3 && r[|r| - 3] == ':'
    requires AllDigits(r[..|r| - 3]) && AllDigits(r[|r| - 2..])
  {
    ParseDigits(r[..|r| - 3]) * 60 + ParseDigits(r[|r| - 2..])
  }

  /** Two-digit numbers print as at most two characters. */
  lemma DigitsBelowHundred(n: nat)
    requires n < 100
    ensures |Digits(n)| <= 2
  {
    if n >= 10 {
      assert Digits(n) == Digits(n / 10) + [DigitChar(n % 10)];
    }
  }

  /** Joining two digit texts with ':' gives a text ParseClock reads back part by part. */
  lemma JoinClock(mm: string, ss: string)
    requires |mm| >= 2 && AllDigits(mm)
    requires |ss| == 2 && AllDigits(ss)
    ensures var r := mm + [':'] + ss;
      && |r| >= 5 && r[|r| - 3] == ':'
      && r[..|r| - 3] == mm && r[|r| - 2..] == ss
  {
    var r := mm + [':'] + ss;
    assert r[..|r| - 3] == mm;
    assert r[|r| - 2..] == ss;
  }

  /** "MM:SS" text of a minute count and a second count below sixty. */
  function Clock(m: nat, sec: nat): (r: string)
    requires sec < 60
    ensures |r| >= 5 && r[|r| - 3] == ':'
    ensures AllDigits(r[..|r| - 3]) && AllDigits(r[|r| - 2..])
    ensures ParseDigits(r[..|r| - 3]) == m
    ensures ParseDigits(r[|r| - 2..]) == sec
    ensures |r| > 5 ==> r[0] != '0'
  {
    ParseDigitsOfDigits(m);
    ParseDigitsOfDigits(sec);
    DigitsBelowHundred(sec);
    var mm := Pad2(Digits(m));
    var ss := Pad2(Digits(sec));
    JoinClock(mm, ss);
    assert (mm + [':'] + ss)[0] == mm[0];
    mm + [':'] + ss
  }

  /** `Song::format_duration`: minutes and seconds, each zero-padded to width two, joined by ':'. */
  function FormatDuration(s: Song): (r: string)
    ensures |r| >= 5 && r[|r| - 3] == ':'
    ensures AllDigits(r[..|r| - 3]) && AllDigits(r[|r| - 2..])
    ensures ParseDigits(r[|r| - 2..]) < 60
    ensures ParseClock(r) == s.duration
    ensures |r| > 5 ==> r[0] != '0'
  {
    var ms := SplitDuration(s.duration);
    Clock(ms.0, ms.1)
  }
}
