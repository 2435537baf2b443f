/** Character-level string helpers: ASCII lower-casing and substring search
    (Python's `str.lower()` and `key in text`). */
module Text {

  function LowerChar(c: char): (r: char)
  {
    if 'A' <= c <= 'Z' then (c as int + 32) as char else c
  }

  /** `s` with every ASCII capital replaced by its small letter. */
  function Lower(s: string): string
  {
    seq(|s|, i requires 0 <= i < |s| => LowerChar(s[i]))
  }

  /** `k` occurs in `s` starting at position `i`, compared from the `j`-th character of `k` on. */
  predicate MatchesFrom(k: string, s: string, i: nat, j: nat)
    requires i + |k| <= |s| && j <= |k|
    decreases |k| - j
  {
    j == |k| || (s[i + j] == k[j] && MatchesFrom(k, s, i, j + 1))
  }

  /** `k` occurs in `s` at some position `i` or later. */
  predicate OccursFrom(k: string, s: string, i: nat)
    decreases |s| - i
  {
    i + |k| <= |s| && (MatchesFrom(k, s, i, 0) || OccursFrom(k, s, i + 1))
  }

  /** `k` occurs in `s` as a contiguous piece: Python's `k in s`. */
  predicate IsSubstring(k: string, s: string)
  {
    OccursFrom(k, s, 0)
  }

  /** `k` is the slice of `s` that starts at `p`. */
  predicate SliceAt(k: string, s: string, p: nat)
  {
    p + |k| <= |s| && s[p..p + |k|] == k
  }

  /** MatchesFrom compares exactly the slice of `s` that starts at `i`. */
  lemma {:induction false} MatchesFromSlice(k: string, s: string, i: nat, j: nat)
    requires i + |k| <= |s| && j <= |k|
    ensures MatchesFrom(k, s, i, j) <==> s[i + j..i + |k|] == k[j..]
    decreases |k| - j
  {
    if j < |k| {
      MatchesFromSlice(k, s, i, j + 1);
      assert s[i + j..i + |k|] == [s[i + j]] + s[i + j + 1..i + |k|];
      assert k[j..] == [k[j]] + k[j + 1..];
    }
  }

  /** OccursFrom agrees with the slice-based reading of `k in s[i..]`. */
  lemma {:induction false} OccursFromSlice(k: string, s: string, i: nat)
    ensures OccursFrom(k, s, i) <==> exists p: nat :: i <= p && SliceAt(k, s, p)
    decreases |s| - i
  {
    if i + |k| <= |s| {
      MatchesFromSlice(k, s, i, 0);
      OccursFromSlice(k, s, i + 1);
      assert k[0..] == k;
      if MatchesFrom(k, s, i, 0) {
        assert SliceAt(k, s, i);
      }
      if exists p: nat :: i <= p && SliceAt(k, s, p) {
        var p: nat :| i <= p && SliceAt(k, s, p);
        if p > i {
          assert i + 1 <= p;
        }
      }
    }
  }

  /** Python's `k in s` holds exactly when `k` is some slice of `s`. */
  lemma IsSubstringSlice(k: string, s: string)
    ensures IsSubstring(k, s) <==> exists p: nat :: SliceAt(k, s, p)
  {
    OccursFromSlice(k, s, 0);
  }

  /** A match at position `p` is found by a search that starts at or before `p`. */
  lemma {:induction false} OccursAt(k: string, s: string, i: nat, p: nat)
    requires i <= p && p + |k| <= |s| && MatchesFrom(k, s, p, 0)
    ensures OccursFrom(k, s, i)
    decreases p - i
  {
    if i < p {
      OccursAt(k, s, i + 1, p);
    }
  }

  /** A `k` one of whose characters is absent from `s` occurs nowhere in `s`. */
  lemma {:induction false} CharAbsentFrom(k: string, s: string, j: nat, i: nat)
    requires j < |k| && k[j] !in s
    ensures !OccursFrom(k, s, i)
    decreases |s| - i
  {
    if i + |k| <= |s| {
      MatchesFromSlice(k, s, i, 0);
      assert s[i + j] in s;
      assert s[i..i + |k|][j] == s[i + j];
      CharAbsentFrom(k, s, j, i + 1);
    }
  }

  /** A `k` one of whose characters is absent from `s` is not a substring of `s`. */
  lemma CharAbsent(k: string, s: string, j: nat)
    requires j < |k| && k[j] !in s
    ensures !IsSubstring(k, s)
  {
    CharAbsentFrom(k, s, j, 0);
  }

  /** Lower-casing twice changes nothing more. */
  lemma LowerIdempotent(s: string)
    ensures Lower(Lower(s)) == Lower(s)
  {
  }
}
