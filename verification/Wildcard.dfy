/**
 Forbidden-pattern matching in the semantic validator: a greedy glob matcher
 that backtracks only to the last star.
 */
module Wildcard {

  /** Glob matching as it is usually defined. */
  predicate Glob(p: string, v: string)
    decreases |p| + |v|
  {
    if p == [] then v == []
    else if p[0] == '*' then Glob(p[1..], v) || (v != [] && Glob(p, v[1..]))
    else v != [] && (p[0] == '?' || p[0] == v[0]) && Glob(p[1..], v[1..])
  }

  /** Loop state of the matcher; `star` is -1 until a star has been taken as a wildcard. */
  ghost predicate Cursor(p: string, v: string, pi: nat, vi: nat, star: int, mark: nat) {
    -1 <= star < pi <= |p| && mark <= vi <= |v| && (star >= 0 ==> p[star] == '*')
  }

  predicate Eats(p: string, v: string, pi: nat, vi: nat)
    requires pi <= |p| && vi < |v|
  {
    pi < |p| && (p[pi] == '?' || p[pi] == v[vi])
  }

  predicate OnlyStars(p: string) { forall c <- p :: c == '*' }

  /** What the loop decides from a given state. */
  predicate Greedy(p: string, v: string, pi: nat, vi: nat, star: int, mark: nat)
    requires Cursor(p, v, pi, vi, star, mark)
    decreases |p| - star, |v| - mark, |v| - vi
  {
    if vi == |v| then OnlyStars(p[pi..])
    else if Eats(p, v, pi, vi) then Greedy(p, v, pi + 1, vi + 1, star, mark)
    else if pi < |p| && p[pi] == '*' then Greedy(p, v, pi + 1, vi, pi, vi)
    else if star != -1 then Greedy(p, v, star + 1, mark + 1, star, mark + 1)
    else false
  }

  predicate Matches(p: string, v: string) { Greedy(p, v, 0, 0, -1, 0) }

  /** `wildcardMatch`. */
  method WildcardMatch(pattern: string, value: string) returns (r: bool)
    ensures r == Matches(pattern, value)
  {
    var pi, vi := 0, 0;
    var starIdx, matchIdx := -1, 0;
    while vi < |value|
      invariant Cursor(pattern, value, pi, vi, starIdx, matchIdx)
      invariant Matches(pattern, value) == Greedy(pattern, value, pi, vi, starIdx, matchIdx)
      decreases |pattern| - starIdx, |value| - matchIdx, |value| - vi
    {
      if pi < |pattern| && (pattern[pi] == '?' || pattern[pi] == value[vi]) {
        pi, vi := pi + 1, vi + 1;
      } else if pi < |pattern| && pattern[pi] == '*' {
        starIdx, matchIdx, pi := pi, vi, pi + 1;
      } else if starIdx != -1 {
        pi, matchIdx := starIdx + 1, matchIdx + 1;
        vi := matchIdx;
      } else {
        return false;
      }
    }
    while pi < |pattern| && pattern[pi] == '*'
      invariant pi <= |pattern|
      invariant Matches(pattern, value) == OnlyStars(pattern[pi..])
    {
      ghost var rest := pattern[pi + 1..];
      assert pattern[pi..] == ['*'] + rest;
      assert forall c <- rest :: c in pattern[pi..];
      pi := pi + 1;
    }
    assert pi < |pattern| ==> pattern[pi] in pattern[pi..];
    return pi == |pattern|;
  }

  // ---------------------------------------------------------------------------
  // Soundness: the greedy matcher never claims a match that is not one

  lemma {:induction false} OnlyStarsGlob(p: string)
    ensures OnlyStars(p) <==> Glob(p, "")
  {
    if p != [] {
      OnlyStarsGlob(p[1..]);
      assert p == [p[0]] + p[1..];
      assert p[0] in p && forall c <- p[1..] :: c in p;
    }
  }

  /** A star may swallow any number of characters. */
  lemma {:induction false} StarSkips(p: string, v: string, k: nat)
    requires p != [] && p[0] == '*' && k <= |v| && Glob(p, v[k..])
    ensures Glob(p, v)
    decreases k
  {
    if k > 0 {
      assert v[k..] == v[k - 1..][1..];
      StarSkips(p, v, k - 1);
    } else {
      assert v[k..] == v;
    }
  }

  /** One character eaten is one step of the glob relation, a star eaten literally included. */
  lemma EatGlob(p: string, v: string, pi: nat, vi: nat)
    requires pi <= |p| && vi < |v| && Eats(p, v, pi, vi)
    requires Glob(p[pi + 1..], v[vi + 1..])
    ensures Glob(p[pi..], v[vi..])
  {
    assert p[pi..][1..] == p[pi + 1..] && v[vi..][1..] == v[vi + 1..];
    if p[pi] == '*' {
      StarOne(p[pi..], v[vi..]);
    }
  }

  lemma StarOne(p: string, v: string)
    requires p != [] && p[0] == '*' && v != [] && Glob(p[1..], v[1..])
    ensures Glob(p, v)
  {
    assert Glob(p, v[1..]);
  }

  /** A star that takes nothing yet. */
  lemma StarTaken(p: string, v: string, pi: nat, vi: nat)
    requires pi < |p| && vi <= |v| && p[pi] == '*'
    requires Glob(p[pi + 1..], v[vi..]) || Glob(p[pi..], v[vi..])
    ensures Glob(p[pi..], v[vi..])
  {
    assert p[pi..][1..] == p[pi + 1..];
  }

  /** A star that takes one character more. */
  lemma StarBack(p: string, v: string, star: nat, mark: nat)
    requires star < |p| && mark < |v| && p[star] == '*'
    requires Glob(p[star + 1..], v[mark + 1..]) || Glob(p[star..], v[mark + 1..])
    ensures Glob(p[star..], v[mark..])
  {
    assert p[star..][1..] == p[star + 1..] && v[mark..][1..] == v[mark + 1..];
    if Glob(p[star + 1..], v[mark + 1..]) {
      StarOne(p[star..], v[mark..]);
    }
  }

  /** Whatever the state claims, the remaining pattern really matches the remaining value. */
  lemma {:induction false} GreedySound(p: string, v: string, pi: nat, vi: nat, star: int, mark: nat)
    requires Cursor(p, v, pi, vi, star, mark)
    requires Greedy(p, v, pi, vi, star, mark)
    ensures Glob(p[pi..], v[vi..]) || (star != -1 && Glob(p[star..], v[mark..]))
    decreases |p| - star, |v| - mark, |v| - vi
  {
    if vi == |v| {
      OnlyStarsGlob(p[pi..]);
      assert v[vi..] == "";
    } else if Eats(p, v, pi, vi) {
      GreedySound(p, v, pi + 1, vi + 1, star, mark);
      if Glob(p[pi + 1..], v[vi + 1..]) {
        EatGlob(p, v, pi, vi);
      }
    } else if pi < |p| && p[pi] == '*' {
      GreedySound(p, v, pi + 1, vi, pi, vi);
      StarTaken(p, v, pi, vi);
    } else {
      GreedySound(p, v, star + 1, mark + 1, star, mark + 1);
      StarBack(p, v, star, mark);
    }
  }

  lemma Sound(p: string, v: string)
    ensures Matches(p, v) ==> Glob(p, v)
  {
    if Matches(p, v) {
      GreedySound(p, v, 0, 0, -1, 0);
      assert p[0..] == p && v[0..] == v;
    }
  }

  // ---------------------------------------------------------------------------
  // Completeness on values without a star

  /** `v[mark..vi]` was eaten, character by character, by the star-free `p[from..pi]`. */
  ghost predicate Eaten(p: string, v: string, from: nat, pi: nat, mark: nat, vi: nat) {
    from <= pi <= |p| && mark <= vi <= |v| && pi - from == vi - mark &&
    forall i :: from <= i < pi ==> p[i] != '*' && (p[i] == '?' || p[i] == v[mark + (i - from)])
  }

  /** What was eaten cannot be matched any other way, so a match must continue from here. */
  lemma {:induction false} EatenForced(p: string, v: string, from: nat, pi: nat, mark: nat, vi: nat)
    requires Eaten(p, v, from, pi, mark, vi)
    ensures Glob(p[from..], v[mark..]) <==> Glob(p[pi..], v[vi..])
    decreases pi - from
  {
    if from < pi {
      assert p[from..][1..] == p[from + 1..] && v[mark..][1..] == v[mark + 1..];
      EatenForced(p, v, from + 1, pi, mark + 1, vi);
    }
  }

  /** If a star followed by `p[from..]` matches, it does so after skipping some `k` characters. */
  lemma {:induction false} StarChoice(p: string, v: string) returns (k: nat)
    requires p != [] && p[0] == '*' && Glob(p, v)
    ensures k <= |v| && Glob(p[1..], v[k..])
    decreases |v|
  {
    if Glob(p[1..], v) {
      k := 0;
      assert v[0..] == v;
    } else {
      k := StarChoice(p, v[1..]);
      assert v[1..][k..] == v[k + 1..];
      k := k + 1;
    }
  }

  /** A segment that ends at a star in the pattern matches from `k` only by eating one character each. */
  lemma {:induction false} SegmentThenStar(p: string, v: string, from: nat, pi: nat, k: nat)
    requires from <= pi < |p| && p[pi] == '*' && k <= |v| && Glob(p[from..], v[k..])
    requires forall i :: from <= i < pi ==> p[i] != '*'
    ensures k + (pi - from) <= |v| && Glob(p[pi..], v[k + (pi - from)..])
    decreases pi - from
  {
    if from < pi {
      assert p[from..][0] == p[from] && p[from..][1..] == p[from + 1..];
      assert v[k..][1..] == v[k + 1..];
      SegmentThenStar(p, v, from + 1, pi, k + 1);
    }
  }

  /**
   Greed is safe: at a second star, what the first star could have skipped the
   second one can skip as well, so the earliest placement loses nothing.
   */
  lemma GreedIsSafe(p: string, v: string, star: nat, pi: nat, mark: nat, vi: nat)
    requires star < pi < |p| && p[star] == '*' && p[pi] == '*'
    requires Eaten(p, v, star + 1, pi, mark, vi)
    requires Glob(p[star..], v[mark..])
    ensures Glob(p[pi..], v[vi..])
  {
    var k := StarChoice(p[star..], v[mark..]);
    assert p[star..][1..] == p[star + 1..] && v[mark..][k..] == v[mark + k..];
    SegmentThenStar(p, v, star + 1, pi, mark + k);
    assert v[mark + k + (pi - star - 1)..] == v[vi..][k..];
    StarSkips(p[pi..], v[vi..], k);
  }

  ghost predicate StillPossible(p: string, v: string, pi: nat, vi: nat, star: int, mark: nat)
    requires Cursor(p, v, pi, vi, star, mark)
  {
    if star == -1 then Glob(p[pi..], v[vi..]) else Glob(p[star..], v[mark..])
  }

  lemma {:induction false} GreedyComplete(p: string, v: string, pi: nat, vi: nat, star: int, mark: nat)
    requires '*' !in v && Cursor(p, v, pi, vi, star, mark)
    requires star != -1 ==> Eaten(p, v, star + 1, pi, mark, vi)
    requires StillPossible(p, v, pi, vi, star, mark)
    ensures Greedy(p, v, pi, vi, star, mark)
    decreases |p| - star, |v| - mark, |v| - vi
  {
    if vi == |v| {
      AtEnd(p, v, pi, vi, star, mark);
    } else if Eats(p, v, pi, vi) {
      assert v[vi] in v;
      assert p[pi..][1..] == p[pi + 1..] && v[vi..][1..] == v[vi + 1..];
      GreedyComplete(p, v, pi + 1, vi + 1, star, mark);
    } else if pi < |p| && p[pi] == '*' {
      if star != -1 {
        GreedIsSafe(p, v, star, pi, mark, vi);
      }
      GreedyComplete(p, v, pi + 1, vi, pi, vi);
    } else {
      assert !Glob(p[pi..], v[vi..]);
      assert star != -1;
      EatenForced(p, v, star + 1, pi, mark, vi);
      assert p[star..][1..] == p[star + 1..] && v[mark..][1..] == v[mark + 1..];
      GreedyComplete(p, v, star + 1, mark + 1, star, mark + 1);
    }
  }

  /** With the value used up, a match still possible means only stars are left. */
  lemma AtEnd(p: string, v: string, pi: nat, vi: nat, star: int, mark: nat)
    requires Cursor(p, v, pi, vi, star, mark) && vi == |v|
    requires star != -1 ==> Eaten(p, v, star + 1, pi, mark, vi)
    requires StillPossible(p, v, pi, vi, star, mark)
    ensures OnlyStars(p[pi..])
  {
    assert v[vi..] == "";
    OnlyStarsGlob(p[pi..]);
    if star != -1 {
      var k := StarChoice(p[star..], v[mark..]);
      assert p[star..][1..] == p[star + 1..] && v[mark..][k..] == v[mark + k..];
      NeedsRoom(p, v, star + 1, pi, mark + k);
      EatenForced(p, v, star + 1, pi, mark, vi);
    }
  }

  /** A segment without stars needs one character each, so it cannot start any later. */
  lemma {:induction false} NeedsRoom(p: string, v: string, from: nat, pi: nat, k: nat)
    requires from <= pi <= |p| && k <= |v| && Glob(p[from..], v[k..])
    requires forall i :: from <= i < pi ==> p[i] != '*'
    ensures pi - from <= |v| - k
    decreases pi - from
  {
    if from < pi {
      assert p[from..][0] == p[from] && p[from..][1..] == p[from + 1..] && v[k..][1..] == v[k + 1..];
      NeedsRoom(p, v, from + 1, pi, k + 1);
    }
  }

  lemma Complete(p: string, v: string)
    requires '*' !in v
    ensures Glob(p, v) ==> Matches(p, v)
  {
    if Glob(p, v) {
      assert p[0..] == p && v[0..] == v;
      GreedyComplete(p, v, 0, 0, -1, 0);
    }
  }

  // ---------------------------------------------------------------------------
  // Exactly where the matcher is complete

  function Repeat(c: char, n: nat): (s: string)
    ensures |s| == n && forall i :: 0 <= i < n ==> s[i] == c
  {
    seq(n, _ => c)
  }

  lemma {:induction false} QuestionMarks(v: string)
    ensures Glob(Repeat('?', |v|), v)
  {
    if v != [] {
      QuestionMarks(v[1..]);
      assert Repeat('?', |v|)[1..] == Repeat('?', |v[1..]|);
    }
  }

  /** While no star is taken as a wildcard the cursors move together. */
  lemma {:induction false} EatsAlong(p: string, v: string, pi: nat, n: nat)
    requires pi <= n <= |p| && n <= |v|
    requires forall i :: pi <= i < n ==> p[i] == '?' || p[i] == v[i]
    ensures Greedy(p, v, pi, pi, -1, 0) == Greedy(p, v, n, n, -1, 0)
    decreases n - pi
  {
    if pi < n {
      EatsAlong(p, v, pi + 1, n);
    }
  }

  /** `k` question marks, a star, and then as many question marks as characters are left. */
  function Trap(v: string, k: nat): string
    requires k <= |v|
  {
    Repeat('?', k) + "*" + Repeat('?', |v| - k)
  }

  /** A star in the value springs the trap: the pattern's star is eaten as a character. */
  lemma {:induction false} TrapSprings(v: string, k: nat)
    requires k < |v| && v[k] == '*'
    ensures Glob(Trap(v, k), v) && !Matches(Trap(v, k), v)
  {
    var p, n := Trap(v, k), |v|;
    assert !Matches(p, v) by {
      EatsAlong(p, v, 0, n);
      assert p[n] == '?' && p[n] in p[n..];
    }
    assert Glob(p, v) by {
      TrapMatches(v, k, 0);
      assert p[0..] == p && v[0..] == v;
    }
  }

  lemma {:induction false} TrapMatches(v: string, k: nat, i: nat)
    requires i <= k <= |v|
    ensures Glob(Trap(v, k)[i..], v[i..])
    decreases k - i
  {
    var p := Trap(v, k);
    assert p[i..][1..] == p[i + 1..];
    if i < k {
      assert v[i..][1..] == v[i + 1..];
      TrapMatches(v, k, i + 1);
    } else {
      QuestionMarks(v[i..]);
      assert p[i + 1..] == Repeat('?', |v[i..]|);
    }
  }

  /** The matcher decides glob matching of `v` for every pattern exactly when `v` has no star. */
  lemma ExactForValue(v: string)
    ensures (forall p :: Matches(p, v) <==> Glob(p, v)) <==> '*' !in v
  {
    if '*' in v {
      var k :| 0 <= k < |v| && v[k] == '*';
      TrapSprings(v, k);
    } else {
      forall p ensures Matches(p, v) <==> Glob(p, v) {
        Sound(p, v);
        Complete(p, v);
      }
    }
  }

  /** The matcher decides glob matching by `p` for every value exactly when `p` has no star. */
  lemma ExactForPattern(p: string)
    ensures (forall v :: Matches(p, v) <==> Glob(p, v)) <==> '*' !in p
  {
    if '*' in p {
      var k := LastStar(p);
      LiteralStarFails(p, k);
    } else {
      forall v ensures Matches(p, v) <==> Glob(p, v) {
        StarFreePattern(p, v, 0, 0);
        assert p[0..] == p && v[0..] == v;
      }
    }
  }

  lemma {:induction false} LastStar(p: string) returns (k: nat)
    requires '*' in p
    ensures k < |p| && p[k] == '*' && '*' !in p[k + 1..]
    decreases |p|
  {
    k := |p| - 1;
    if p[k] == '*' {
      assert p[k + 1..] == [];
    } else {
      assert p == p[..k] + [p[k]];
      var j := LastStar(p[..k]);
      assert p[j + 1..] == p[..k][j + 1..] + [p[k]];
      k := j;
    }
  }

  /** `p` with an `x` after its star at `k`: what the star stands for has one character more. */
  function Longer(p: string, k: nat): (v: string)
    requires k < |p|
    ensures |v| == |p| + 1
  {
    p[..k + 1] + "x" + p[k + 1..]
  }

  /** Every star of `p` meets a star of the value, and no wildcard is left for the extra `x`. */
  lemma LiteralStarFails(p: string, k: nat)
    requires k < |p| && p[k] == '*' && '*' !in p[k + 1..]
    ensures Glob(p, Longer(p, k)) && !Matches(p, Longer(p, k))
  {
    LongerMatches(p, k, 0);
    assert p[0..] == p && Longer(p, k)[0..] == Longer(p, k);
    LongerRefused(p, k);
  }

  lemma LongerRefused(p: string, k: nat)
    requires k < |p| && '*' !in p[k + 1..]
    ensures !Matches(p, Longer(p, k))
  {
    var v := Longer(p, k);
    EatsAlong(p, v, 0, k + 1);
    assert forall i :: k < i < |p| ==> p[i] == p[k + 1..][i - k - 1];
    NoStarNoSlack(p, v, k + 1);
  }

  lemma {:induction false} NoStarNoSlack(p: string, v: string, pi: nat)
    requires pi <= |p| < |v| && forall i :: pi <= i < |p| ==> p[i] != '*'
    ensures !Greedy(p, v, pi, pi, -1, 0)
    decreases |p| - pi
  {
    if pi < |p| && Eats(p, v, pi, pi) {
      NoStarNoSlack(p, v, pi + 1);
    }
  }

  lemma {:induction false} SelfMatches(p: string)
    requires '*' !in p
    ensures Glob(p, p)
  {
    if p != [] {
      assert p[0] in p && forall c <- p[1..] :: c in p;
      SelfMatches(p[1..]);
    }
  }

  lemma {:induction false} LongerMatches(p: string, k: nat, i: nat)
    requires i <= k < |p| && p[k] == '*' && '*' !in p[k + 1..]
    ensures Glob(p[i..], Longer(p, k)[i..])
    decreases k - i
  {
    var v := Longer(p, k);
    assert p[i..][1..] == p[i + 1..] && v[i..][1..] == v[i + 1..];
    if i < k {
      LongerMatches(p, k, i + 1);
      EatGlob(p, v, i, i);
    } else {
      SelfMatches(p[k + 1..]);
      assert v[k..][2..] == p[k + 1..];
      assert Glob(p[k..], v[k..][2..]);
      StarSkips(p[k..], v[k..], 2);
    }
  }

  lemma {:induction false} StarFreePattern(p: string, v: string, pi: nat, vi: nat)
    requires '*' !in p && pi == vi && pi <= |p| && vi <= |v|
    ensures Greedy(p, v, pi, vi, -1, 0) <==> Glob(p[pi..], v[vi..])
    decreases |v| - vi
  {
    assert pi < |p| ==> p[pi] in p;
    if vi == |v| {
      OnlyStarsGlob(p[pi..]);
      assert v[vi..] == "";
    } else if pi < |p| {
      assert p[pi..][1..] == p[pi + 1..] && v[vi..][1..] == v[vi + 1..];
      if Eats(p, v, pi, vi) {
        StarFreePattern(p, v, pi + 1, vi + 1);
      }
    }
  }

  // ---------------------------------------------------------------------------
  // The caller

  predicate HasWildcard(p: string) { '*' in p || '?' in p }

  /** `matchesForbiddenPattern`, `lower` being `strings.ToLower`. */
  method MatchesForbiddenPattern(lower: string -> string, value: string, pattern: string) returns (r: bool)
    requires HasWildcard(lower(pattern)) <==> HasWildcard(pattern)
    ensures r ==> Glob(lower(pattern), lower(value))
    ensures '*' !in lower(value) || '*' !in lower(pattern) ==> (r <==> Glob(lower(pattern), lower(value)))
  {
    var valueLower := lower(value);
    var patternLower := lower(pattern);
    Sound(patternLower, valueLower);
    if '*' !in valueLower {
      ExactForValue(valueLower);
    }
    if '*' !in patternLower {
      ExactForPattern(patternLower);
    }
    if !HasWildcard(pattern) {
      LiteralGlob(patternLower, valueLower);
      return valueLower == patternLower;
    }
    r := WildcardMatch(patternLower, valueLower);
  }

  lemma {:induction false} LiteralGlob(p: string, v: string)
    requires !HasWildcard(p)
    ensures Glob(p, v) <==> v == p
  {
    if p != [] {
      assert p[0] in p && forall c <- p[1..] :: c in p;
      if v != [] {
        LiteralGlob(p[1..], v[1..]);
        assert p == [p[0]] + p[1..] && v == [v[0]] + v[1..];
      }
    }
  }
}
