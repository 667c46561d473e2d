/**
 * Day 4: counting the numbers of a range that could be the password. A
 * candidate's decimal digits must never decrease from left to right (the
 * source sorts the digits and compares) and some digit must repeat (the
 * source counts the distinct digits and wants at most five); the stricter
 * variant also wants some digit to occur exactly twice.
 */
module Passwords {
  import opened Text

  /** The largest value of Rust's `u32`. */
  const U32Max: nat := 0xffff_ffff

  predicate Sorted(s: seq<char>)
  {
    forall i, j | 0 <= i < j < |s| :: s[i] <= s[j]
  }

  /** Puts `c` in front of the first element of the sorted `s` that is not smaller. */
  function Insert(c: char, s: seq<char>): (r: seq<char>)
    requires Sorted(s)
    ensures Sorted(r) && multiset(r) == multiset(s) + multiset{c}
  {
    if s == [] || c <= s[0] then [c] + s
    else
      var t := Insert(c, s[1..]);
      assert s == [s[0]] + s[1..];
      LowerBound(s[0], t, s[1..], c);
      ConsSorted(s[0], t);
      [s[0]] + t
  }

  /** A bound below `c` and every element of `rest` is below every element of a rearrangement of both. */
  lemma LowerBound(b: char, t: seq<char>, rest: seq<char>, c: char)
    requires multiset(t) == multiset(rest) + multiset{c}
    requires b <= c && forall i | 0 <= i < |rest| :: b <= rest[i]
    ensures forall j | 0 <= j < |t| :: b <= t[j]
  {
    forall j | 0 <= j < |t|
      ensures b <= t[j]
    {
      assert t[j] in multiset(t);
      if t[j] != c {
        assert t[j] in multiset(rest);
        var i :| 0 <= i < |rest| && rest[i] == t[j];
      }
    }
  }

  /** A sorted sequence stays sorted behind an element no larger than any of it. */
  lemma ConsSorted(b: char, t: seq<char>)
    requires Sorted(t) && forall j | 0 <= j < |t| :: b <= t[j]
    ensures Sorted([b] + t)
  {
    var r := [b] + t;
    forall i, j | 0 <= i < j < |r|
      ensures r[i] <= r[j]
    {
      assert r[j] == t[j - 1];
      if i > 0 {
        assert r[i] == t[i - 1];
      }
    }
  }

  /** `Vec::sort` on characters. */
  function Sort(s: seq<char>): (r: seq<char>)
    ensures Sorted(r) && multiset(r) == multiset(s)
  {
    if s == [] then []
    else
      assert s == [s[0]] + s[1..];
      Insert(s[0], Sort(s[1..]))
  }

  /** Sorting leaves a sequence unchanged exactly when it is already sorted: the source's comparison is the digits-never-decrease rule. */
  lemma {:induction false} SortChangesUnsorted(s: seq<char>)
    ensures Sort(s) == s <==> Sorted(s)
  {
    if s != [] && Sorted(s) {
      SortChangesUnsorted(s[1..]);
      assert Sorted(s[1..]);
    }
  }

  /** The distinct characters of a string: the keys of the counting map. */
  function Chars(s: seq<char>): set<char>
  {
    set c | c in s
  }

  lemma {:induction false} CharsSnoc(s: seq<char>, c: char)
    ensures Chars(s + [c]) == Chars(s) + {c}
  {
    assert forall x | x in s + [c] :: x in s || x == c;
  }

  /** A string has at most as many distinct characters as characters. */
  lemma {:induction false} CharsBound(s: seq<char>)
    ensures |Chars(s)| <= |s|
  {
    if s != [] {
      var p := s[..|s| - 1];
      assert s == p + [s[|s| - 1]];
      CharsSnoc(p, s[|s| - 1]);
      CharsBound(p);
    }
  }

  /** A character that occurs at least twice leaves fewer distinct characters than characters. */
  lemma {:induction false} RepeatShrinksChars(s: seq<char>, c: char)
    requires multiset(s)[c] >= 2
    ensures |Chars(s)| < |s|
  {
    var p, x := s[..|s| - 1], s[|s| - 1];
    assert s == p + [x];
    CharsSnoc(p, x);
    if x == c {
      assert c in multiset(p);
      assert Chars(s) == Chars(p);
      CharsBound(p);
    } else {
      RepeatShrinksChars(p, c);
    }
  }

  /** A strictly increasing string has all its characters distinct. */
  lemma {:induction false} IncreasingKeepsChars(s: seq<char>)
    requires forall i | 0 < i < |s| :: s[i - 1] < s[i]
    ensures |Chars(s)| == |s|
  {
    if s != [] {
      var p, x := s[..|s| - 1], s[|s| - 1];
      assert s == p + [x];
      CharsSnoc(p, x);
      IncreasingKeepsChars(p);
      assert x !in Chars(p) by {
        forall i | 0 <= i < |p| ensures p[i] < x {
          var j := i;
          while j < |p| - 1
            invariant i <= j <= |p| - 1 && p[i] <= p[j]
          {
            j := j + 1;
          }
        }
      }
    }
  }

  /** The first test both counters apply: the digits never decrease and at most five distinct digits occur. */
  predicate Candidate(n: nat)
  {
    var s := Natural(n);
    Sort(s) == s && |Chars(s)| <= 5
  }

  /** The stricter counter's test: a candidate in which some digit occurs exactly twice. */
  predicate StrictCandidate(n: nat)
  {
    Candidate(n) && HasDouble(Natural(n))
  }

  /** Some character of `s` occurs exactly twice. */
  predicate HasDouble(s: seq<char>)
  {
    exists c | c in Chars(s) :: multiset(s)[c] == 2
  }

  /**
   * For six-digit numbers the distinct-digit test is the puzzle's rule: among
   * digits that never decrease, at most five distinct ones means two adjacent
   * digits are equal.
   */
  lemma SixDigitsRepeatAdjacent(s: seq<char>)
    requires |s| == 6 && Sorted(s)
    ensures |Chars(s)| <= 5 <==> exists i | 0 <= i < 5 :: s[i] == s[i + 1]
  {
    if exists i | 0 <= i < 5 :: s[i] == s[i + 1] {
      var i :| 0 <= i < 5 && s[i] == s[i + 1];
      assert s == s[..i] + [s[i], s[i + 1]] + s[i + 2..];
      assert multiset(s)[s[i]] >= 2;
      RepeatShrinksChars(s, s[i]);
    } else {
      IncreasingKeepsChars(s);
    }
  }

  /** For six-digit numbers a digit occurring exactly twice already makes the distinct-digit test pass. */
  lemma SixDigitsPairRepeats(s: seq<char>, c: char)
    requires |s| == 6 && multiset(s)[c] == 2
    ensures |Chars(s)| <= 5
  {
    RepeatShrinksChars(s, c);
  }

  /** How many numbers of [lo, hi) pass the first test. */
  function CountCandidates(lo: nat, hi: nat): (r: nat)
    decreases hi
  {
    if hi <= lo then 0 else CountCandidates(lo, hi - 1) + if Candidate(hi - 1) then 1 else 0
  }

  /** How many numbers of [lo, hi) pass the stricter test. */
  function CountStrictCandidates(lo: nat, hi: nat): (r: nat)
    decreases hi
  {
    if hi <= lo then 0 else CountStrictCandidates(lo, hi - 1) + if StrictCandidate(hi - 1) then 1 else 0
  }

  /** The count never exceeds the size of the range. */
  lemma {:induction false} CountWithinRange(lo: nat, hi: nat)
    ensures CountCandidates(lo, hi) <= if hi <= lo then 0 else hi - lo
    decreases hi
  {
    if hi > lo {
      CountWithinRange(lo, hi - 1);
    }
  }

  /** The stricter count never exceeds the first. */
  lemma {:induction false} StrictCountBelow(lo: nat, hi: nat)
    ensures CountStrictCandidates(lo, hi) <= CountCandidates(lo, hi)
    decreases hi
  {
    if hi > lo {
      StrictCountBelow(lo, hi - 1);
      assert StrictCandidate(hi - 1) ==> Candidate(hi - 1);
    }
  }

  /** The counting fold: each character's count, starting from `start` the first time it is met. */
  method CountChars(s: seq<char>, start: nat) returns (counts: map<char, nat>)
    ensures counts.Keys == Chars(s)
    ensures forall c | c in counts :: counts[c] == start + multiset(s)[c]
  {
    counts := map[];
    for i := 0 to |s|
      invariant counts.Keys == Chars(s[..i])
      invariant forall c | c in counts :: counts[c] == start + multiset(s[..i])[c]
    {
      assert s[..i + 1] == s[..i] + [s[i]];
      CharsSnoc(s[..i], s[i]);
      var seen := if s[i] in counts then counts[s[i]] else start;
      counts := counts[s[i] := seen + 1];
    }
    assert s[..|s|] == s;
  }

  /** The scan of the counting map for a digit counted exactly twice. */
  method HasPair(counts: map<char, nat>) returns (found: bool)
    ensures found <==> exists c | c in counts :: counts[c] == 2
  {
    var keys := counts.Keys;
    found := false;
    while keys != {}
      invariant keys <= counts.Keys
      invariant forall c | c in counts.Keys - keys :: counts[c] != 2
      decreases |keys|
    {
      var c :| c in keys;
      if counts[c] == 2 {
        return true;
      }
      keys := keys - {c};
    }
  }

  /** The first test applied to one number, stopping at the first condition that fails. */
  method PassesFirstTest(num: nat) returns (ok: bool)
    ensures ok == Candidate(num)
  {
    var digits := Natural(num);
    var sorted := Sort(digits);
    if sorted != digits {
      return false;
    }
    var counts := CountChars(digits, 1);
    ok := |counts| <= 5;
  }

  /** The stricter test applied to one number, stopping at the first condition that fails. */
  method PassesStrictTest(num: nat) returns (ok: bool)
    ensures ok == StrictCandidate(num)
  {
    var digits := Natural(num);
    var sorted := Sort(digits);
    if sorted != digits {
      return false;
    }
    var counts := CountChars(digits, 0);
    if |counts| > 5 {
      return false;
    }
    ok := HasPair(counts);
    assert ok <==> HasDouble(digits) by {
      if ok {
        var c :| c in counts && counts[c] == 2;
        assert c in Chars(digits) && multiset(digits)[c] == 2;
      }
      if HasDouble(digits) {
        var c :| c in Chars(digits) && multiset(digits)[c] == 2;
        assert c in counts && counts[c] == 2;
      }
    }
  }

  /** `num_possible_passwords_for_container`: the count over `lo..hi`. */
  method NumPossiblePasswords(lo: nat, hi: nat) returns (count: nat)
    requires lo <= U32Max && hi <= U32Max
    ensures count == CountCandidates(lo, hi)
    ensures count <= U32Max
  {
    count := 0;
    var num := lo;
    while num < hi
      invariant lo <= num && (num <= hi || num == lo)
      invariant count == CountCandidates(lo, num)
      decreases hi - num
    {
      var ok := PassesFirstTest(num);
      if ok {
        count := count + 1;
      }
      num := num + 1;
    }
    CountWithinRange(lo, hi);
  }

  /** `extra_num_possible_passwords_for_container`: the stricter count over `lo..hi`. */
  method ExtraNumPossiblePasswords(lo: nat, hi: nat) returns (count: nat)
    requires lo <= U32Max && hi <= U32Max
    ensures count == CountStrictCandidates(lo, hi)
    ensures count <= U32Max
  {
    count := 0;
    var num := lo;
    while num < hi
      invariant lo <= num && (num <= hi || num == lo)
      invariant count == CountStrictCandidates(lo, num)
      decreases hi - num
    {
      var ok := PassesStrictTest(num);
      if ok {
        count := count + 1;
      }
      num := num + 1;
    }
    StrictCountBelow(lo, hi);
    CountWithinRange(lo, hi);
  }
}
