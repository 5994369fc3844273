/**
 * The few operations on Python `str` the link updater relies on:
 * `p in s` and `s.replace(target, repl)`, on strings as sequences of characters.
 */
module Text {

  predicate StartsWith(s: string, p: string) {
    |p| <= |s| && s[..|p|] == p
  }

  /** `p in s`: `p` occurs somewhere in `s` (the empty string occurs everywhere). */
  predicate Contains(s: string, p: string)
    decreases |s|
  {
    StartsWith(s, p) || (|s| > 0 && Contains(s[1..], p))
  }

  /** `p` occurs in `s` starting at index `i`. */
  predicate OccursAt(s: string, p: string, i: nat) {
    i + |p| <= |s| && s[i..i + |p|] == p
  }

  /** Python's `s.replace("", repl)`: `repl` before every character and at the end. */
  function InsertEverywhere(s: string, repl: string): string
    decreases |s|
  {
    if |s| == 0 then repl else repl + [s[0]] + InsertEverywhere(s[1..], repl)
  }

  /**
   * Python's `s.replace(target, repl)`: scanning from the left, every
   * occurrence of `target` that does not overlap an earlier one becomes `repl`.
   */
  function Replace(s: string, target: string, repl: string): string
    decreases |s|
  {
    if |target| == 0 then InsertEverywhere(s, repl)
    else if |s| == 0 then s
    else if StartsWith(s, target) then repl + Replace(s[|target|..], target, repl)
    else [s[0]] + Replace(s[1..], target, repl)
  }

  /** Python's `s.split(sep)` for a non-empty separator. */
  function Split(s: string, sep: string): (parts: seq<string>)
    requires |sep| > 0
    ensures |parts| >= 1
    decreases |s|
  {
    if |s| == 0 then [""]
    else if StartsWith(s, sep) then [""] + Split(s[|sep|..], sep)
    else
      var rest := Split(s[1..], sep);
      [[s[0]] + rest[0]] + rest[1..]
  }

  /** Python's `glue.join(parts)`. */
  function Join(parts: seq<string>, glue: string): string
    requires |parts| >= 1
    decreases |parts|
  {
    if |parts| == 1 then parts[0] else parts[0] + glue + Join(parts[1..], glue)
  }

  /** Two strings clash when no placement of `p` overlapping `r` agrees with `r` on the overlap. */
  ghost predicate Clash(p: string, r: string) {
    forall k: int {:trigger Overlaps(p, r, k)} ::
      Overlaps(p, r, k) ==> exists q: nat :: Disagree(p, r, k, q)
  }

  /** Placing `p` so that it starts at offset `k` from the start of `r` makes the two overlap. */
  predicate Overlaps(p: string, r: string, k: int) {
    -|p| < k < |r|
  }

  /** With `p` at offset `k` from `r`, position `q` of `p` lies on `r` and the characters differ. */
  predicate Disagree(p: string, r: string, k: int, q: nat) {
    q < |p| && 0 <= q + k < |r| && p[q] != r[q + k]
  }

  // ---------------------------------------------------------------------------
  // Containment

  /** `p in s` agrees with the positional definition: some index where `p` occurs. */
  lemma {:induction false} ContainsIffOccurs(s: string, p: string)
    ensures Contains(s, p) <==> exists i: nat :: OccursAt(s, p, i)
    decreases |s|
  {
    if Contains(s, p) {
      if StartsWith(s, p) {
        assert OccursAt(s, p, 0);
      } else {
        ContainsIffOccurs(s[1..], p);
        var i: nat :| OccursAt(s[1..], p, i);
        assert s[1..][i..i + |p|] == s[i + 1..i + 1 + |p|];
        assert OccursAt(s, p, i + 1);
      }
    }
    if exists i: nat :: OccursAt(s, p, i) {
      var i: nat :| OccursAt(s, p, i);
      if i == 0 {
        assert StartsWith(s, p);
      } else {
        assert s[1..][i - 1..i - 1 + |p|] == s[i..i + |p|];
        assert OccursAt(s[1..], p, i - 1);
        ContainsIffOccurs(s[1..], p);
      }
    }
  }

  /** An occurrence in `x + r + y` that `r` clashes with lies wholly in `x` or wholly in `y`. */
  lemma ContainsAcross(x: string, r: string, y: string, p: string)
    requires Clash(p, r)
    requires Contains(x + r + y, p)
    ensures Contains(x, p) || Contains(y, p)
  {
    var s := x + r + y;
    ContainsIffOccurs(s, p);
    var m: nat :| OccursAt(s, p, m);
    if m + |p| <= |x| {
      assert x[m..m + |p|] == s[m..m + |p|];
      assert OccursAt(x, p, m);
      ContainsIffOccurs(x, p);
    } else if m >= |x| + |r| {
      var n := m - |x| - |r|;
      assert y[n..n + |p|] == s[m..m + |p|];
      assert OccursAt(y, p, n);
      ContainsIffOccurs(y, p);
    } else {
      var k := m - |x|;
      assert Overlaps(p, r, k);
      assert false;
    }
  }

  /** Whatever occurs in a suffix of `s` occurs in `s`. */
  lemma {:induction false} ContainsInSuffix(s: string, k: nat, p: string)
    requires k <= |s|
    requires Contains(s[k..], p)
    ensures Contains(s, p)
    decreases k
  {
    if k > 0 {
      assert s[1..][k - 1..] == s[k..];
      ContainsInSuffix(s[1..], k - 1, p);
    }
  }

  // ---------------------------------------------------------------------------
  // Replacement

  /** Text without an occurrence of the target comes back unchanged. */
  lemma {:induction false} ReplaceWithoutMatch(s: string, target: string, repl: string)
    requires !Contains(s, target)
    ensures Replace(s, target, repl) == s
    decreases |s|
  {
    if |s| > 0 {
      ReplaceWithoutMatch(s[1..], target, repl);
    }
  }

  /** `s.replace(t, r)` equals `r.join(s.split(t))`. */
  lemma {:induction false} ReplaceIsJoinOfSplit(s: string, target: string, repl: string)
    requires |target| > 0
    ensures Replace(s, target, repl) == Join(Split(s, target), repl)
    decreases |s|
  {
    if |s| == 0 {
    } else if StartsWith(s, target) {
      ReplaceIsJoinOfSplit(s[|target|..], target, repl);
    } else {
      ReplaceIsJoinOfSplit(s[1..], target, repl);
      var rest := Split(s[1..], target);
      if |rest| > 1 {
        assert ([[s[0]] + rest[0]] + rest[1..])[1..] == rest[1..];
      }
    }
  }

  /** The first piece of a split is a prefix of the text. */
  lemma {:induction false} SplitHeadIsPrefix(s: string, sep: string)
    requires |sep| > 0
    ensures var h := Split(s, sep)[0]; |h| <= |s| && s[..|h|] == h
    decreases |s|
  {
    if |s| > 0 && !StartsWith(s, sep) {
      SplitHeadIsPrefix(s[1..], sep);
    }
  }

  /**
   * Every piece of a split is free of the separator and contains `p` only
   * when the whole text does.
   */
  lemma {:induction false} SplitPieces(s: string, sep: string, p: string, j: nat)
    requires |sep| > 0
    requires j < |Split(s, sep)|
    ensures !Contains(Split(s, sep)[j], sep)
    ensures Contains(Split(s, sep)[j], p) ==> Contains(s, p)
    decreases |s|
  {
    var parts := Split(s, sep);
    if |s| == 0 {
    } else if StartsWith(s, sep) {
      if j == 0 {
        assert parts[0] == "";
        assert Contains(parts[0], p) ==> StartsWith(s, p);
      } else {
        assert parts[j] == Split(s[|sep|..], sep)[j - 1];
        SplitPieces(s[|sep|..], sep, p, j - 1);
        if Contains(parts[j], p) {
          ContainsInSuffix(s, |sep|, p);
        }
      }
    } else {
      var rest := Split(s[1..], sep);
      if j == 0 {
        SplitPieces(s[1..], sep, p, 0);
        SplitHeadIsPrefix(s[1..], sep);
        var h := [s[0]] + rest[0];
        assert h == s[..|h|];
        assert parts[0] == h;
        assert h[1..] == rest[0];
        // An occurrence at the front of the piece is an occurrence at the front of `s`.
        assert StartsWith(h, sep) ==> StartsWith(s, sep);
        assert StartsWith(h, p) ==> StartsWith(s, p);
        if Contains(rest[0], p) {
          ContainsInSuffix(s, 1, p);
        }
      } else {
        assert parts[j] == rest[j];
        SplitPieces(s[1..], sep, p, j);
        if Contains(parts[j], p) {
          ContainsInSuffix(s, 1, p);
        }
      }
    }
  }

  /** An occurrence of `p` in a join whose glue clashes with `p` lies within one part. */
  lemma {:induction false} ContainsInJoin(parts: seq<string>, glue: string, p: string) returns (j: nat)
    requires |parts| >= 1
    requires Clash(p, glue)
    requires Contains(Join(parts, glue), p)
    ensures j < |parts| && Contains(parts[j], p)
    decreases |parts|
  {
    if |parts| == 1 {
      j := 0;
    } else {
      ContainsAcross(parts[0], glue, Join(parts[1..], glue), p);
      if Contains(parts[0], p) {
        j := 0;
      } else {
        var j' := ContainsInJoin(parts[1..], glue, p);
        j := j' + 1;
      }
    }
  }

  /**
   * Replacing `target` by a string that clashes with `p` creates no
   * occurrence of `p`, and leaves none of `target` itself.
   */
  lemma ReplaceCreatesNoOccurrence(s: string, target: string, repl: string, p: string)
    requires |target| > 0
    requires Clash(p, repl)
    ensures Contains(Replace(s, target, repl), p) ==> Contains(s, p) && p != target
  {
    if Contains(Replace(s, target, repl), p) {
      ReplaceIsJoinOfSplit(s, target, repl);
      var j := ContainsInJoin(Split(s, target), repl, p);
      SplitPieces(s, target, p, j);
    }
  }

  /**
   * A simple way to establish a clash: both strings start with the same
   * character, which occurs nowhere else in either, and they differ within
   * their common length.
   */
  lemma ClashByUniqueHead(p: string, r: string, d: nat)
    requires 0 < |p| && 0 < |r| && p[0] == r[0]
    requires forall q :: 0 < q < |p| ==> p[q] != p[0]
    requires forall q :: 0 < q < |r| ==> r[q] != r[0]
    requires d < |p| && d < |r| && p[d] != r[d]
    ensures Clash(p, r)
  {
    forall k: int | Overlaps(p, r, k)
      ensures exists q: nat :: Disagree(p, r, k, q)
    {
      if k > 0 {
        assert Disagree(p, r, k, 0);
      } else if k < 0 {
        assert Disagree(p, r, k, -k);
      } else {
        assert Disagree(p, r, k, d);
      }
    }
  }
}
