/**
 * The cache's glob matcher: a single loop that backtracks to the last `*` only, proved equal to the recursive meaning
 * of a pattern in which `*` stands for any run of characters and `?` for any one character.
 */
module CachePatterns {

  predicate Matches(key: string, pattern: string)
    decreases |key| + |pattern|
  {
    if pattern == "" then key == ""
    else if pattern[0] == '*' then Matches(key, pattern[1..]) || (key != "" && Matches(key[1..], pattern))
    else key != "" && Fits(key[0], pattern[0]) && Matches(key[1..], pattern[1..])
  }

  predicate Fits(c: char, p: char) {
    p == '?' || p == c
  }

  // The rest of the key from `i` matches the rest of the pattern from `j`.
  ghost predicate MatchesFrom(key: string, pattern: string, i: nat, j: nat)
    requires i <= |key| && j <= |pattern|
  {
    Matches(key[i..], pattern[j..])
  }

  lemma Unfold(key: string, pattern: string, i: nat, j: nat)
    requires i <= |key| && j <= |pattern|
    ensures MatchesFrom(key, pattern, i, j) ==
            if j == |pattern| then i == |key|
            else if pattern[j] == '*' then
              MatchesFrom(key, pattern, i, j + 1) || (i < |key| && MatchesFrom(key, pattern, i + 1, j))
            else i < |key| && Fits(key[i], pattern[j]) && MatchesFrom(key, pattern, i + 1, j + 1)
  {
    if j < |pattern| { assert pattern[j..][1..] == pattern[j + 1..]; }
    if i < |key| { assert key[i..][1..] == key[i + 1..]; }
  }

  ghost predicate MatchesLater(key: string, pattern: string, i: nat, j: nat)
    requires i <= |key| && j <= |pattern|
  {
    exists k :: i <= k <= |key| && MatchesFrom(key, pattern, k, j)
  }

  // `*` stands for any run of characters.
  lemma {:induction false} StarSkips(key: string, pattern: string, i: nat, j: nat)
    requires i <= |key| && j < |pattern| && pattern[j] == '*'
    ensures MatchesFrom(key, pattern, i, j) <==> MatchesLater(key, pattern, i, j + 1)
    decreases |key| - i
  {
    Unfold(key, pattern, i, j);
    if i < |key| { StarSkips(key, pattern, i + 1, j); }
  }

  // A star-free stretch of the pattern, `pattern[j..j + n]`, fits the key at `i` character by character.
  predicate Stretch(key: string, pattern: string, i: nat, j: nat, n: nat)
    requires j + n <= |pattern|
  {
    n == 0 || (Stretch(key, pattern, i, j, n - 1) && i + n <= |key| && Fits(key[i + n - 1], pattern[j + n - 1]))
  }

  lemma {:induction false} StretchPeels(key: string, pattern: string, i: nat, j: nat, n: nat)
    requires i <= |key| && j + n <= |pattern| && (forall t | j <= t < j + n :: pattern[t] != '*')
    ensures MatchesFrom(key, pattern, i, j) <==>
              Stretch(key, pattern, i, j, n) && i + n <= |key| && MatchesFrom(key, pattern, i + n, j + n)
  {
    if n > 0 {
      StretchPeels(key, pattern, i, j, n - 1);
      if i + n - 1 <= |key| { Unfold(key, pattern, i + n - 1, j + n - 1); }
    }
  }

  // Having matched the stretch after the star at `s` as early as possible, a second star directly behind it makes
  // every later choice for the first star unnecessary.
  lemma LastStarSuffices(key: string, pattern: string, s: nat, r: nat, n: nat)
    requires s + 1 + n < |pattern| && pattern[s] == '*' && pattern[s + 1 + n] == '*'
    requires (forall t | s < t <= s + n :: pattern[t] != '*')
    requires r <= |key| && Stretch(key, pattern, r, s + 1, n)
    ensures MatchesFrom(key, pattern, r, s) <==> MatchesFrom(key, pattern, r + n, s + 1 + n)
  {
    StarSkips(key, pattern, r, s);
    StarSkips(key, pattern, r + n, s + 1 + n);
    StretchPeels(key, pattern, r, s + 1, n);
    if MatchesFrom(key, pattern, r, s) {
      var k :| r <= k <= |key| && MatchesFrom(key, pattern, k, s + 1);
      StretchPeels(key, pattern, k, s + 1, n);
      StarSkips(key, pattern, k + n, s + 1 + n);
    }
  }

  // With the key used up, only this choice for the star at `s` is left.
  lemma LastChoice(key: string, pattern: string, s: nat, r: nat, n: nat)
    requires s + 1 + n <= |pattern| && pattern[s] == '*' && r + n == |key|
    requires (forall t | s < t <= s + n :: pattern[t] != '*')
    requires Stretch(key, pattern, r, s + 1, n)
    ensures MatchesFrom(key, pattern, r, s) <==> MatchesFrom(key, pattern, |key|, s + 1 + n)
  {
    StarSkips(key, pattern, r, s);
    StretchPeels(key, pattern, r, s + 1, n);
    if MatchesFrom(key, pattern, r, s) {
      var k :| r <= k <= |key| && MatchesFrom(key, pattern, k, s + 1);
      StretchPeels(key, pattern, k, s + 1, n);
    }
  }

  method MatchCacheKeyPattern(key: string, pattern: string) returns (matched: bool)
    ensures matched == Matches(key, pattern)
  {
    var patternIndex, keyIndex, starIndex, keyRetryIndex := 0, 0, -1, 0;
    assert key[0..] == key && pattern[0..] == pattern;
    while keyIndex < |key|
      invariant 0 <= patternIndex <= |pattern| && 0 <= keyRetryIndex <= keyIndex <= |key|
      invariant -1 <= starIndex < patternIndex || (starIndex == -1 && patternIndex == 0)
      invariant starIndex == -1 ==> Matches(key, pattern) == MatchesFrom(key, pattern, keyIndex, patternIndex)
      invariant starIndex != -1 ==>
        && pattern[starIndex] == '*' && patternIndex == starIndex + 1 + (keyIndex - keyRetryIndex)
        && (forall t | starIndex < t < patternIndex :: pattern[t] != '*')
        && Stretch(key, pattern, keyRetryIndex, starIndex + 1, keyIndex - keyRetryIndex)
        && Matches(key, pattern) == MatchesFrom(key, pattern, keyRetryIndex, starIndex)
      decreases |pattern| - starIndex, |key| - keyRetryIndex, |pattern| - patternIndex
    {
      Unfold(key, pattern, keyIndex, patternIndex);
      if patternIndex < |pattern| && pattern[patternIndex] == '*' {
        if starIndex != -1 {
          LastStarSuffices(key, pattern, starIndex, keyRetryIndex, keyIndex - keyRetryIndex);
        }
        starIndex := patternIndex;
        keyRetryIndex := keyIndex;
        patternIndex := patternIndex + 1;
      } else if patternIndex < |pattern| && Fits(key[keyIndex], pattern[patternIndex]) {
        patternIndex := patternIndex + 1;
        keyIndex := keyIndex + 1;
      } else if starIndex != -1 {
        StretchPeels(key, pattern, keyRetryIndex, starIndex + 1, keyIndex - keyRetryIndex);
        Unfold(key, pattern, keyRetryIndex, starIndex);
        patternIndex := starIndex + 1;
        keyRetryIndex := keyRetryIndex + 1;
        keyIndex := keyRetryIndex;
      } else {
        return false;
      }
    }
    if starIndex != -1 { LastChoice(key, pattern, starIndex, keyRetryIndex, keyIndex - keyRetryIndex); }
    while patternIndex < |pattern| && pattern[patternIndex] == '*'
      invariant 0 <= patternIndex <= |pattern|
      invariant Matches(key, pattern) == MatchesFrom(key, pattern, |key|, patternIndex)
    {
      Unfold(key, pattern, |key|, patternIndex);
      patternIndex := patternIndex + 1;
    }
    Unfold(key, pattern, |key|, patternIndex);
    matched := patternIndex == |pattern|;
  }

  // A literal stretch at the front of a pattern matches itself only.
  lemma {:induction false} LiteralFront(key: string, literal: string, rest: string)
    requires '*' !in literal && '?' !in literal
    ensures Matches(key, literal + rest) <==> literal <= key && Matches(key[|literal|..], rest)
  {
    if literal == "" {
      assert literal + rest == rest && key[0..] == key;
    } else {
      assert (literal + rest)[1..] == literal[1..] + rest;
      if key != "" {
        LiteralFront(key[1..], literal[1..], rest);
        assert literal <= key <==> key[0] == literal[0] && literal[1..] <= key[1..];
        if literal <= key { assert key[1..][|literal| - 1..] == key[|literal|..]; }
      }
    }
  }

  // A `*` at the front of a pattern skips any run of characters.
  lemma StarFront(key: string, rest: string)
    ensures Matches(key, "*" + rest) <==> exists k :: 0 <= k <= |key| && Matches(key[k..], rest)
  {
    var pattern := "*" + rest;
    StarSkips(key, pattern, 0, 0);
    assert key[0..] == key && pattern[0..] == pattern && pattern[1..] == rest;
    forall k | 0 <= k <= |key| ensures MatchesFrom(key, pattern, k, 1) == Matches(key[k..], rest) { }
  }

  lemma {:induction false} StarMatchesAll(key: string)
    ensures Matches(key, "*")
  {
    if key != "" { StarMatchesAll(key[1..]); }
  }

  // A literal prefix followed by `*` matches exactly the keys with that prefix.
  lemma PrefixPattern(key: string, prefix: string)
    requires '*' !in prefix && '?' !in prefix
    ensures Matches(key, prefix + "*") <==> prefix <= key
  {
    LiteralFront(key, prefix, "*");
    if prefix <= key { StarMatchesAll(key[|prefix|..]); }
  }

  // A star-free stretch at the front of a pattern, with `?` for any one character.
  lemma {:induction false} PlainFront(key: string, front: string, rest: string)
    requires '*' !in front
    ensures Matches(key, front + rest) <==>
              && |front| <= |key| && (forall i | 0 <= i < |front| :: front[i] == '?' || front[i] == key[i])
              && Matches(key[|front|..], rest)
  {
    if front == "" {
      assert front + rest == rest && key[0..] == key;
    } else {
      var tail := front[1..];
      assert (front + rest)[1..] == tail + rest && front[0] in front;
      if key != "" {
        PlainFront(key[1..], tail, rest);
        assert forall i | 0 <= i < |tail| :: tail[i] == front[i + 1];
        if |front| <= |key| { assert key[1..][|tail|..] == key[|front|..]; }
        if forall i | 0 <= i < |tail| && i < |key| - 1 :: tail[i] == '?' || tail[i] == key[1..][i] {
          forall i | 1 <= i < |front| && i < |key| ensures front[i] == '?' || front[i] == key[i] {
            assert tail[i - 1] == '?' || tail[i - 1] == key[1..][i - 1];
          }
        }
      }
    }
  }

  // A pattern without `*` matches the keys of its own length that agree with it wherever it has no `?`.
  lemma NoStarPattern(key: string, pattern: string)
    requires '*' !in pattern
    ensures Matches(key, pattern) <==>
              |key| == |pattern| && forall i | 0 <= i < |key| :: pattern[i] == '?' || pattern[i] == key[i]
  {
    PlainFront(key, pattern, "");
    assert pattern + "" == pattern;
  }

  // What precedes the first `*` of a pattern agrees with the front of the key; the star skips any run of characters,
  // and the rest of the pattern matches what follows.
  lemma FirstStarPattern(key: string, front: string, rest: string)
    requires '*' !in front
    ensures Matches(key, front + "*" + rest) <==>
              && |front| <= |key| && (forall i | 0 <= i < |front| :: front[i] == '?' || front[i] == key[i])
              && exists k :: |front| <= k <= |key| && Matches(key[k..], rest)
  {
    assert front + "*" + rest == front + ("*" + rest);
    PlainFront(key, front, "*" + rest);
    if |front| <= |key| {
      var left := key[|front|..];
      StarFront(left, rest);
      forall k | 0 <= k <= |left| ensures left[k..] == key[|front| + k..] { }
      if k :| |front| <= k <= |key| && Matches(key[k..], rest) { assert left[k - |front|..] == key[k..]; }
    }
  }
}
