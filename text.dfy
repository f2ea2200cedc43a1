/**
 * String operations the Python source gets from its runtime: `str.lower()`,
 * the `in` substring test, `str.count`, slicing `s[:n]`, `re.findall(r'\b\w+\b')`
 * and `str.split()`.  Characters are classified over ASCII.
 */
module Text {

  /** `c.lower()` for ASCII letters; every other character is left as it is. */
  function LowerChar(c: char): char
  {
    if 'A' <= c <= 'Z' then (c as int + 32) as char else c
  }

  /** `s.lower()` */
  function Lower(s: string): string
  {
    seq(|s|, i requires 0 <= i < |s| => LowerChar(s[i]))
  }

  /** A character matched by the regular-expression class `\w` (ASCII). */
  predicate IsWordChar(c: char)
  {
    ('a' <= c <= 'z') || ('A' <= c <= 'Z') || ('0' <= c <= '9') || c == '_'
  }

  /** A character matched by `\s` and removed by `str.strip()` (ASCII). */
  predicate IsSpace(c: char)
  {
    c == ' ' || c == '\t' || c == '\n' || c == '\r' || c == '\U{B}' || c == '\U{C}'
    || ('\U{1C}' <= c <= '\U{1F}')
  }

  predicate IsNonSpace(c: char)
  {
    !IsSpace(c)
  }

  predicate AllSpace(s: string)
  {
    forall i :: 0 <= i < |s| ==> IsSpace(s[i])
  }

  predicate StartsWith(s: string, p: string)
  {
    |p| <= |s| && s[..|p|] == p
  }

  /** Python's `p in s` on strings: `p` occurs as a contiguous substring of `s`. */
  predicate Contains(s: string, p: string)
    decreases |s|
  {
    StartsWith(s, p) || (|s| > 0 && Contains(s[1..], p))
  }

  /** Python's `s[:n]` for a non-negative `n`. */
  function Take<T>(s: seq<T>, n: nat): (r: seq<T>)
    ensures |r| == if n <= |s| then n else |s|
    ensures forall i :: 0 <= i < |r| ==> r[i] == s[i]
  {
    if n <= |s| then s[..n] else s
  }

  /** Python's `s[:limit]` for any integer `limit`; a negative limit counts back from the end. */
  function Slice<T>(s: seq<T>, limit: int): (r: seq<T>)
    ensures r <= s
    ensures limit >= 0 ==> |r| == if limit <= |s| then limit else |s|
    ensures limit < 0 ==> |r| == if -limit <= |s| then |s| + limit else 0
  {
    if limit >= 0 then Take(s, limit)
    else if -limit <= |s| then s[..|s| + limit]
    else []
  }

  /**
   * Python's `s.count(w)`: occurrences of `w` found scanning from the left,
   * each search resuming after the previous occurrence (non-overlapping);
   * an empty `w` is counted at each of the |s| + 1 positions.
   */
  function Count(s: string, w: string): nat
    decreases |s|
  {
    if w == [] then |s| + 1
    else if s == [] then 0
    else if StartsWith(s, w) then 1 + Count(s[|w|..], w)
    else Count(s[1..], w)
  }

  /** Number of leading characters of `s` that satisfy `inRun`. */
  function RunLength(s: string, inRun: char -> bool): (n: nat)
    ensures n <= |s|
    ensures forall i :: 0 <= i < n ==> inRun(s[i])
    ensures n < |s| ==> !inRun(s[n])
  {
    if s == [] || !inRun(s[0]) then 0 else 1 + RunLength(s[1..], inRun)
  }

  /**
   * The maximal runs of characters satisfying `inRun`, left to right.  With
   * `IsWordChar` this is `re.findall(r'\b\w+\b', s)`; with `IsNonSpace` it is
   * `s.split()`.
   */
  function Runs(s: string, inRun: char -> bool): seq<string>
    decreases |s|
  {
    if s == [] then []
    else if !inRun(s[0]) then Runs(s[1..], inRun)
    else
      var n := RunLength(s, inRun);
      [s[..n]] + Runs(s[n..], inRun)
  }

  function Words(s: string): seq<string>
  {
    Runs(s, IsWordChar)
  }

  function SplitWhitespace(s: string): seq<string>
  {
    Runs(s, IsNonSpace)
  }

  // ---------------------------------------------------------------------
  // Lemmas

  lemma LowerConcat(a: string, b: string)
    ensures Lower(a + b) == Lower(a) + Lower(b)
  {
    assert forall i :: 0 <= i < |a + b| ==> Lower(a + b)[i] == (Lower(a) + Lower(b))[i];
  }

  lemma LowerIdempotent(s: string)
    ensures Lower(Lower(s)) == Lower(s)
  {
  }

  /** Every run is non-empty, made of `inRun` characters, and occurs in `s`. */
  lemma {:induction false} RunsAreRuns(s: string, inRun: char -> bool)
    ensures forall k :: 0 <= k < |Runs(s, inRun)| ==>
      && Runs(s, inRun)[k] != []
      && (forall i :: 0 <= i < |Runs(s, inRun)[k]| ==> inRun(Runs(s, inRun)[k][i]))
      && Contains(s, Runs(s, inRun)[k])
    decreases |s|
  {
    if s == [] {
    } else if !inRun(s[0]) {
      RunsAreRuns(s[1..], inRun);
      assert Runs(s, inRun) == Runs(s[1..], inRun);
      forall k | 0 <= k < |Runs(s, inRun)| ensures Contains(s, Runs(s, inRun)[k]) {
        ContainsSuffix(s[..1], s[1..], Runs(s, inRun)[k]);
        assert s[..1] + s[1..] == s;
      }
    } else {
      var n := RunLength(s, inRun);
      RunsAreRuns(s[n..], inRun);
      var rs := Runs(s, inRun);
      assert rs == [s[..n]] + Runs(s[n..], inRun);
      forall k | 0 <= k < |rs| ensures Contains(s, rs[k]) {
        if k == 0 {
          assert StartsWith(s, s[..n]);
        } else {
          assert rs[k] == Runs(s[n..], inRun)[k - 1];
          ContainsSuffix(s[..n], s[n..], rs[k]);
          assert s[..n] + s[n..] == s;
        }
      }
    }
  }

  lemma WordsNonEmpty(s: string)
    ensures forall k :: 0 <= k < |Words(s)| ==> Words(s)[k] != [] && Contains(s, Words(s)[k])
  {
    RunsAreRuns(s, IsWordChar);
  }

  lemma SplitNonEmpty(s: string)
    ensures forall k :: 0 <= k < |SplitWhitespace(s)| ==>
      SplitWhitespace(s)[k] != [] && Contains(s, SplitWhitespace(s)[k])
  {
    RunsAreRuns(s, IsNonSpace);
  }

  lemma {:induction false} ContainsSuffix(a: string, b: string, p: string)
    requires Contains(b, p)
    ensures Contains(a + b, p)
    decreases |a|
  {
    if a != [] {
      ContainsSuffix(a[1..], b, p);
      assert (a + b)[1..] == a[1..] + b;
      assert Contains((a + b)[1..], p);
    } else {
      assert a + b == b;
    }
  }

  lemma {:induction false} ContainsPrefix(a: string, b: string, p: string)
    requires Contains(a, p)
    ensures Contains(a + b, p)
    decreases |a|
  {
    if StartsWith(a, p) {
      assert (a + b)[..|p|] == a[..|p|];
    } else {
      ContainsPrefix(a[1..], b, p);
      assert (a + b)[1..] == a[1..] + b;
    }
  }

  /** A witness position makes `p in s` true. */
  lemma {:induction false} ContainsAt(s: string, i: nat, p: string)
    requires i + |p| <= |s| && s[i..i + |p|] == p
    ensures Contains(s, p)
    decreases i
  {
    if i > 0 {
      assert s[1..][i - 1..i - 1 + |p|] == s[i..i + |p|];
      ContainsAt(s[1..], i - 1, p);
    }
  }

  /** `p in s` yields a position of `p` in `s`. */
  lemma {:induction false} ContainsWitness(s: string, p: string) returns (i: nat)
    requires Contains(s, p)
    ensures i + |p| <= |s| && s[i..i + |p|] == p
    decreases |s|
  {
    if StartsWith(s, p) {
      i := 0;
    } else {
      var j := ContainsWitness(s[1..], p);
      i := j + 1;
      assert s[i..i + |p|] == s[1..][j..j + |p|];
    }
  }

  lemma ContainsTransitive(x: string, y: string, w: string)
    requires Contains(x, y) && Contains(y, w)
    ensures Contains(x, w)
  {
    var i := ContainsWitness(x, y);
    var j := ContainsWitness(y, w);
    forall k | 0 <= k < |w| ensures x[i + j + k] == w[k] {
      assert x[i..i + |y|][j + k] == y[j + k];
      assert y[j..j + |w|][k] == w[k];
    }
    assert x[i + j..i + j + |w|] == w;
    ContainsAt(x, i + j, w);
  }

  /** A non-empty substring is counted at least once. */
  lemma {:induction false} CountPositive(s: string, w: string)
    requires w != [] && Contains(s, w)
    ensures Count(s, w) >= 1
    decreases |s|
  {
    if !StartsWith(s, w) {
      CountPositive(s[1..], w);
    }
  }

  /** Dropping the first character never raises the count. */
  lemma {:induction false} CountDropOne(s: string, w: string)
    requires s != []
    ensures Count(s[1..], w) <= Count(s, w)
    decreases |s|, 1
  {
    if w != [] && StartsWith(s, w) {
      CountDropFew(s[1..], w, |w| - 1);
      assert s[1..][|w| - 1..] == s[|w|..];
    }
  }

  /** Dropping fewer than |w| + 1 leading characters loses at most one occurrence. */
  lemma {:induction false} CountDropFew(s: string, w: string, j: nat)
    requires w != [] && j <= |w| && j <= |s|
    ensures Count(s, w) <= 1 + Count(s[j..], w)
    decreases |s|, 0
  {
    if j == 0 || s == [] {
    } else if StartsWith(s, w) {
      CountDropMany(s[j..], w, |w| - j);
      assert s[j..][|w| - j..] == s[|w|..];
    } else {
      CountDropFew(s[1..], w, j - 1);
      assert s[1..][j - 1..] == s[j..];
    }
  }

  /** Count(s[i..], w) <= Count(s, w) for strings shorter than the caller's. */
  lemma {:induction false} CountDropMany(s: string, w: string, i: nat)
    requires i <= |s|
    ensures Count(s[i..], w) <= Count(s, w)
    decreases |s|, 2, i
  {
    if i > 0 {
      CountDropOne(s, w);
      CountDropMany(s[1..], w, i - 1);
      assert s[1..][i - 1..] == s[i..];
    }
  }

  /** Prepending text never lowers `str.count`. */
  lemma CountSuffixMonotone(a: string, b: string, w: string)
    ensures Count(b, w) <= Count(a + b, w)
  {
    CountDropMany(a + b, w, |a|);
    assert (a + b)[|a|..] == b;
  }
}
