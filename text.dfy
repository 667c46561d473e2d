/**
 * The pieces of Rust's string library that the puzzles rely on, modelled on
 * `seq<char>`: integer rendering (`to_string`) and parsing (`str::parse`),
 * splitting on a string pattern or on a set of characters (`split`,
 * `split_terminator`) and trimming ASCII whitespace (`trim`).
 */
module Text {
  import opened Outcomes

  predicate IsDigit(c: char) { '0' <= c <= '9' }

  predicate AllDigits(s: string) { forall i | 0 <= i < |s| :: IsDigit(s[i]) }

  function DigitChar(d: nat): (c: char)
    requires d < 10
    ensures IsDigit(c) && c as int - '0' as int == d
  {
    ((('0' as int) + d) as char)
  }

  /** The number a string of decimal digits denotes (most significant digit first). */
  function Value(s: string): nat
    requires AllDigits(s)
  {
    if s == [] then 0 else 10 * Value(s[..|s| - 1]) + (s[|s| - 1] as int - '0' as int)
  }

  /** `n.to_string()` for a non-negative integer: its decimal digits without leading zeros. */
  function Natural(n: nat): (s: string)
    ensures |s| >= 1 && AllDigits(s) && Value(s) == n
    ensures s[0] == '0' ==> n == 0 && |s| == 1
  {
    if n < 10 then [DigitChar(n)]
    else
      var s := Natural(n / 10) + [DigitChar(n % 10)];
      assert s[..|s| - 1] == Natural(n / 10);
      s
  }

  /** `n.to_string()` for any integer. */
  function Show(n: int): string
  {
    if n < 0 then "-" + Natural(-n) else Natural(n)
  }

  /** The range of Rust's `i32`. */
  const I32Min: int := -0x8000_0000
  const I32Max: int := 0x7fff_ffff

  /**
   * `s.parse::<T>()` for an integer type T whose range is [lo, hi]: an optional
   * sign ('-' only when the type is signed), then at least one ASCII digit and
   * nothing else, and the value must fit in the type.
   */
  function ParseInt(s: string, lo: int, hi: int): (r: Option<int>)
    ensures r.Some? ==> lo <= r.value <= hi
    ensures r.Some? ==> |s| >= 1
  {
    var negative := |s| > 0 && s[0] == '-' && lo < 0;
    var body := if |s| > 0 && (s[0] == '+' || negative) then s[1..] else s;
    if body == [] || !AllDigits(body) then None
    else
      var v := if negative then -(Value(body) as int) else Value(body);
      if lo <= v <= hi then Some(v) else None
  }

  /** Rendering then parsing gives the number back, for every number the type can hold. */
  lemma ParseShow(n: int, lo: int, hi: int)
    requires lo <= n <= hi
    ensures ParseInt(Show(n), lo, hi) == Some(n)
  {
    if n < 0 {
      assert ("-" + Natural(-n))[1..] == Natural(-n);
    }
  }

  /** `pat` occurs in `s` starting at position `k`. */
  predicate MatchesAt(s: string, pat: string, k: nat)
  {
    k + |pat| <= |s| && s[k..k + |pat|] == pat
  }

  /** The position of the first occurrence of a non-empty pattern at or after `from`. */
  function FindFrom(s: string, pat: string, from: nat): (r: Option<nat>)
    requires |pat| > 0
    ensures r.Some? ==> from <= r.value && MatchesAt(s, pat, r.value)
    ensures r.Some? ==> forall k :: from <= k < r.value ==> !MatchesAt(s, pat, k)
    ensures r.None? ==> forall k :: from <= k ==> !MatchesAt(s, pat, k)
    decreases |s| - from
  {
    if from + |pat| > |s| then None
    else if MatchesAt(s, pat, from) then Some(from)
    else FindFrom(s, pat, from + 1)
  }

  /** `s.find(pat)`: the position of the first occurrence of a non-empty pattern. */
  function Find(s: string, pat: string): (r: Option<nat>)
    requires |pat| > 0
  {
    FindFrom(s, pat, 0)
  }

  /** `s.split(pat)` for a non-empty string pattern. */
  function Split(s: string, pat: string): (parts: seq<string>)
    requires |pat| > 0
    ensures |parts| >= 1
    decreases |s|
  {
    match Find(s, pat)
    case None => [s]
    case Some(i) => [s[..i]] + Split(s[i + |pat|..], pat)
  }

  /** The pieces glued back together with the separator between them. */
  function Join(parts: seq<string>, sep: string): string
    requires |parts| >= 1
  {
    if |parts| == 1 then parts[0] else parts[0] + sep + Join(parts[1..], sep)
  }

  /** Splitting loses nothing: joining the pieces with the pattern rebuilds the string. */
  lemma {:induction false} SplitJoin(s: string, pat: string)
    requires |pat| > 0
    ensures Join(Split(s, pat), pat) == s
    decreases |s|
  {
    match Find(s, pat)
    case None =>
    case Some(i) =>
      SplitJoin(s[i + |pat|..], pat);
      assert s == s[..i] + s[i..i + |pat|] + s[i + |pat|..];
  }

  /** No piece of a split contains the pattern. */
  lemma {:induction false} SplitPiecesFree(s: string, pat: string, j: nat, k: nat)
    requires |pat| > 0
    requires j < |Split(s, pat)|
    ensures !MatchesAt(Split(s, pat)[j], pat, k)
    decreases |s|
  {
    match Find(s, pat)
    case None =>
    case Some(i) =>
      if j == 0 {
        assert Split(s, pat)[0] == s[..i];
        if k + |pat| <= i {
          assert s[..i][k..k + |pat|] == s[k..k + |pat|];
          assert !MatchesAt(s, pat, k);
        }
      } else {
        SplitPiecesFree(s[i + |pat|..], pat, j - 1, k);
      }
  }

  /** `s.split_terminator(pat)`: like `split`, but a trailing empty piece is dropped. */
  function SplitTerminator(s: string, pat: string): (parts: seq<string>)
    requires |pat| > 0
  {
    var p := Split(s, pat);
    if p[|p| - 1] == "" then p[..|p| - 1] else p
  }

  /** `s.split(seps)` where any character of `seps` separates two pieces. */
  function SplitAny(s: string, seps: set<char>): (parts: seq<string>)
    ensures |parts| >= 1
  {
    if s == [] then [""]
    else
      var rest := SplitAny(s[1..], seps);
      if s[0] in seps then [""] + rest else [[s[0]] + rest[0]] + rest[1..]
  }

  /** The number of characters of `s` that belong to `seps`. */
  function CountIn(s: string, seps: set<char>): nat
  {
    if s == [] then 0 else (if s[0] in seps then 1 else 0) + CountIn(s[1..], seps)
  }

  /** A split on a set of characters yields one more piece than there are separators, and no piece holds one. */
  lemma {:induction false} SplitAnyShape(s: string, seps: set<char>)
    ensures |SplitAny(s, seps)| == CountIn(s, seps) + 1
    ensures forall j, k :: 0 <= j < |SplitAny(s, seps)| && 0 <= k < |SplitAny(s, seps)[j]| ==> SplitAny(s, seps)[j][k] !in seps
  {
    if s != [] {
      SplitAnyShape(s[1..], seps);
      var rest := SplitAny(s[1..], seps);
      if s[0] !in seps {
        var parts := SplitAny(s, seps);
        assert parts == [[s[0]] + rest[0]] + rest[1..];
        forall j, k | 0 <= j < |parts| && 0 <= k < |parts[j]| ensures parts[j][k] !in seps {
          if j == 0 {
            if k > 0 { assert parts[0][k] == rest[0][k - 1]; }
          } else {
            assert parts[j] == rest[j];
          }
        }
      }
    }
  }

  /** A string holding no separator splits into itself alone. */
  lemma {:induction false} SplitAnyFree(s: string, seps: set<char>)
    requires forall i | 0 <= i < |s| :: s[i] !in seps
    ensures SplitAny(s, seps) == [s]
  {
    if s != [] {
      SplitAnyFree(s[1..], seps);
      assert s == [s[0]] + s[1..];
    }
  }

  /** A first separator `x` after the separator-free `a` ends the first piece. */
  lemma {:induction false} SplitAnyFirst(a: string, x: char, b: string, seps: set<char>)
    requires forall i | 0 <= i < |a| :: a[i] !in seps
    requires x in seps
    ensures SplitAny(a + [x] + b, seps) == [a] + SplitAny(b, seps)
  {
    var s := a + [x] + b;
    if a == [] {
      assert s[1..] == b;
    } else {
      assert s[1..] == a[1..] + [x] + b;
      SplitAnyFirst(a[1..], x, b, seps);
      assert a == [a[0]] + a[1..];
    }
  }

  /** `s.split_terminator(seps)` for a set of separator characters. */
  function SplitTerminatorAny(s: string, seps: set<char>): seq<string>
  {
    var p := SplitAny(s, seps);
    if p[|p| - 1] == "" then p[..|p| - 1] else p
  }

  /** The whitespace `trim` removes, restricted to ASCII. */
  predicate IsSpace(c: char) { c == ' ' || c == '\t' || c == '\n' || c == '\r' || c == '\U{000B}' || c == '\U{000C}' }

  function TrimStart(s: string): (r: string)
    ensures |r| <= |s| && r == s[|s| - |r|..]
    ensures r != [] ==> !IsSpace(r[0])
    ensures forall i | 0 <= i < |s| - |r| :: IsSpace(s[i])
  {
    if s != [] && IsSpace(s[0]) then TrimStart(s[1..]) else s
  }

  function TrimEnd(s: string): (r: string)
    ensures |r| <= |s| && r == s[..|r|]
    ensures r != [] ==> !IsSpace(r[|r| - 1])
    ensures forall i | |r| <= i < |s| :: IsSpace(s[i])
  {
    if s != [] && IsSpace(s[|s| - 1]) then TrimEnd(s[..|s| - 1]) else s
  }

  /** `s.trim()`. */
  function Trim(s: string): string
  {
    TrimEnd(TrimStart(s))
  }

  /** A string that neither starts nor ends with whitespace is its own trim. */
  lemma TrimKeeps(s: string)
    requires s == [] || (!IsSpace(s[0]) && !IsSpace(s[|s| - 1]))
    ensures Trim(s) == s
  {
  }

  /** A rendered number is made of digits and at most a leading '-'. */
  lemma ShowChars(n: int)
    ensures |Show(n)| >= 1
    ensures forall i | 0 <= i < |Show(n)| :: IsDigit(Show(n)[i]) || (i == 0 && Show(n)[i] == '-')
  {
    var d := Natural(if n < 0 then -n else n);
    assert forall i | 0 <= i < |d| :: IsDigit(d[i]);
    if n < 0 {
      assert forall i | 1 <= i < |Show(n)| :: Show(n)[i] == d[i - 1];
    }
  }

  /** A rendered number is not empty and holds no whitespace. */
  lemma ShowUnspaced(n: int)
    ensures |Show(n)| >= 1
    ensures forall i | 0 <= i < |Show(n)| :: !IsSpace(Show(n)[i])
  {
    ShowChars(n);
  }
}
